/** The dosage engine of `process_formula`: find the selected formula, stop
    with an error when it is missing or has no chemicals, otherwise compute
    one report row per chemical. */
module Dosage {
  import opened Wrappers
  import opened Catalog

  const STOCK_YES: string := "是"
  const STOCK_NO: string := "否"
  const NO_NOTATION: string := "-"

  /** One line of the report table. */
  datatype ReportRow = ReportRow(
    category: string, name: string, chemicalFormula: string,
    concentration: real, mass: real, stockSolution: string)

  /** The report header (formula id and name, volume, dilution) and its table. */
  datatype Report = Report(
    formulaId: int, formulaName: string, volume: real, dilution: real, rows: seq<ReportRow>)

  /** What `process_formula` returns: one of its two error messages, or the report. */
  datatype ProcessResult =
    | FormulaNotFound(formulaId: int)
    | NoChemicals(formulaId: int)
    | Processed(report: Report)

  /** `i` is the position of the first formula carrying `id`. */
  predicate IsFirstWithId(formulas: seq<Formula>, i: int, id: int) {
    0 <= i < |formulas| && formulas[i].id == id && forall j :: 0 <= j < i ==> formulas[j].id != id
  }

  /** `next(f for f in formulas if f['id'] == id)`: the first formula carrying
      `id`, or None when no formula does. */
  function FindFormula(formulas: seq<Formula>, id: int): (r: Option<Formula>)
    ensures r.None? <==> forall i :: 0 <= i < |formulas| ==> formulas[i].id != id
    ensures r.Some? ==> exists i :: IsFirstWithId(formulas, i, id) && formulas[i] == r.value
  {
    if formulas == [] then None
    else if formulas[0].id == id then
      assert IsFirstWithId(formulas, 0, id);
      Some(formulas[0])
    else
      var r := FindFormula(formulas[1..], id);
      assert r.Some? ==> exists i :: IsFirstWithId(formulas, i, id) && formulas[i] == r.value by {
        if r.Some? {
          var i :| IsFirstWithId(formulas[1..], i, id) && formulas[1..][i] == r.value;
          assert IsFirstWithId(formulas, i + 1, id) by {
            forall j | 0 <= j < i + 1 ensures formulas[j].id != id {
              if j > 0 { assert formulas[j] == formulas[1..][j - 1]; }
            }
          }
        }
      }
      r
  }

  /** Grams of a chemical: mg/L times litres times the dilution factor, over 1000. */
  function Mass(concentration: real, volume: real, dilution: real): (grams: real)
    ensures concentration >= 0.0 && volume >= 0.0 && dilution >= 0.0 ==> grams >= 0.0
    ensures concentration == 0.0 || volume == 0.0 || dilution == 0.0 ==> grams == 0.0
  {
    assert concentration >= 0.0 && volume >= 0.0 ==> concentration * volume >= 0.0;
    concentration * volume * dilution / 1000.0
  }

  /** The stock-solution column: "是" for a concentrate (dilution above 1), else "否". */
  function StockLabel(dilution: real): (flag: string)
    ensures flag == STOCK_YES <==> dilution > 1.0
    ensures flag == STOCK_NO <==> dilution <= 1.0
  {
    if dilution > 1.0 then STOCK_YES else STOCK_NO
  }

  /** The chemical-formula column: the notation, or "-" when it is empty. */
  function NotationShown(notation: string): (shown: string)
    ensures shown != ""
    ensures notation != "" ==> shown == notation
  {
    if notation == "" then NO_NOTATION else notation
  }

  /** One `table.add_row`: the row describes its chemical. */
  function MakeRow(c: Chemical, volume: real, dilution: real): (row: ReportRow)
    ensures RowDescribes(row, c, volume, dilution)
  {
    ReportRow(c.category, c.name, NotationShown(c.chemicalFormula), c.concentration,
              Mass(c.concentration, volume, dilution), StockLabel(dilution))
  }

  /** What each row of a report promises about the chemical it stands for:
      category and name copied, notation or "-", the concentration, the mass
      in grams, and the stock flag, which depends on the dilution alone. */
  predicate RowDescribes(row: ReportRow, c: Chemical, volume: real, dilution: real) {
    && row.category == c.category
    && row.name == c.name
    && (row.chemicalFormula == if c.chemicalFormula == "" then "-" else c.chemicalFormula)
    && row.concentration == c.concentration
    && row.mass == c.concentration * volume * dilution / 1000.0
    && (row.stockSolution == "是" <==> dilution > 1.0)
    && (row.stockSolution == "否" <==> dilution <= 1.0)
  }

  /** The table of the report: one row per chemical, in the chemicals' order. */
  function ReportRows(chemicals: seq<Chemical>, volume: real, dilution: real): (rows: seq<ReportRow>)
    ensures |rows| == |chemicals|
    ensures forall i :: 0 <= i < |chemicals| ==> rows[i] == MakeRow(chemicals[i], volume, dilution)
  {
    if chemicals == [] then []
    else [MakeRow(chemicals[0], volume, dilution)] + ReportRows(chemicals[1..], volume, dilution)
  }

  /** `process_formula` as a value: `chemicals` is what the store returned for
      `formulaId`. Not found when no formula has the id; no chemicals when the
      list is empty; otherwise a report on the first formula with the id whose
      rows describe the chemicals one by one, in order. */
  function Process(formulaId: int, volume: real, dilution: real, formulas: seq<Formula>, chemicals: seq<Chemical>)
    : (r: ProcessResult)
    ensures r.FormulaNotFound? <==> forall i :: 0 <= i < |formulas| ==> formulas[i].id != formulaId
    ensures r.FormulaNotFound? ==> r.formulaId == formulaId
    ensures r.NoChemicals? <==> FindFormula(formulas, formulaId).Some? && chemicals == []
    ensures r.NoChemicals? ==> r.formulaId == formulaId
    ensures r.Processed? ==>
      && Some(Formula(r.report.formulaId, r.report.formulaName)) == FindFormula(formulas, formulaId)
      && r.report.formulaId == formulaId
      && r.report.volume == volume && r.report.dilution == dilution
      && |r.report.rows| == |chemicals|
      && forall i :: 0 <= i < |chemicals| ==> RowDescribes(r.report.rows[i], chemicals[i], volume, dilution)
  {
    match FindFormula(formulas, formulaId)
    case None => FormulaNotFound(formulaId)
    case Some(f) =>
      if chemicals == [] then NoChemicals(formulaId)
      else Processed(Report(f.id, f.name, volume, dilution, ReportRows(chemicals, volume, dilution)))
  }

  /** `process_formula`: the loop over the chemicals appends one row per
      chemical to the table. */
  method ProcessFormula(formulaId: int, volume: real, dilution: real, formulas: seq<Formula>, chemicals: seq<Chemical>)
    returns (r: ProcessResult)
    ensures r == Process(formulaId, volume, dilution, formulas, chemicals)
  {
    var selected := FindFormula(formulas, formulaId);
    if selected.None? {
      return FormulaNotFound(formulaId);
    }
    if |chemicals| == 0 {
      return NoChemicals(formulaId);
    }
    var f := selected.value;
    var rows: seq<ReportRow> := [];
    for i := 0 to |chemicals|
      invariant |rows| == i
      invariant forall k :: 0 <= k < i ==> rows[k] == MakeRow(chemicals[k], volume, dilution)
    {
      var c := chemicals[i];
      var mass := c.concentration * volume * dilution / 1000.0;
      var stock := if dilution > 1.0 then STOCK_YES else STOCK_NO;
      var shown := if c.chemicalFormula == "" then NO_NOTATION else c.chemicalFormula;
      rows := rows + [ReportRow(c.category, c.name, shown, c.concentration, mass, stock)];
    }
    return Processed(Report(f.id, f.name, volume, dilution, rows));
  }

  /** Every mass is non-negative when the concentrations are and the volume and
      dilution are positive (the code itself does not check concentrations). */
  lemma MassesNonNegative(report: Report, formulaId: int, volume: real, dilution: real,
                          formulas: seq<Formula>, chemicals: seq<Chemical>)
    requires Process(formulaId, volume, dilution, formulas, chemicals) == Processed(report)
    requires volume > 0.0 && dilution > 0.0
    requires forall i :: 0 <= i < |chemicals| ==> chemicals[i].concentration >= 0.0
    ensures forall i :: 0 <= i < |report.rows| ==> report.rows[i].mass >= 0.0
  {
  }

  /** The stock flag is one value for the whole report: every row carries
      the same label, whatever the chemicals are. */
  lemma StockFlagUniform(formulaId: int, volume: real, dilution: real,
                         formulas: seq<Formula>, a: seq<Chemical>, b: seq<Chemical>, i: nat, j: nat)
    requires Process(formulaId, volume, dilution, formulas, a).Processed?
    requires Process(formulaId, volume, dilution, formulas, b).Processed?
    requires i < |a| && j < |b|
    ensures Process(formulaId, volume, dilution, formulas, a).report.rows[i].stockSolution
         == Process(formulaId, volume, dilution, formulas, b).report.rows[j].stockSolution
  {
  }

  /** A d-fold stock of v litres takes the same chemicals as v * d litres of
      the ready-to-use (1x) solution it dilutes to. */
  lemma StockMatchesDilutedVolume(concentration: real, volume: real, dilution: real)
    ensures Mass(concentration, volume, dilution) == Mass(concentration, volume * dilution, 1.0)
  {
  }

  function TwoChemicals(): seq<Chemical> {
    [Chemical(1, "KNO3", "KNO3", "A", 150.0), Chemical(2, "MgSO4", "", "B", 50.0)]
  }

  /** 150 and 50 mg/L, 1 L, no dilution: 0.15 g and 0.05 g, no stock solution. */
  lemma DirectPreparation()
    ensures Process(7, 1.0, 1.0, [Formula(7, "Lettuce")], TwoChemicals())
         == Processed(Report(7, "Lettuce", 1.0, 1.0, [
              ReportRow("A", "KNO3", "KNO3", 150.0, 0.15, "否"),
              ReportRow("B", "MgSO4", "-", 50.0, 0.05, "否")]))
  {
  }

  /** The same chemicals, 2 L at a 10x dilution: 3 g and 1 g, stock solution. */
  lemma StockPreparation()
    ensures Process(7, 2.0, 10.0, [Formula(7, "Lettuce")], TwoChemicals())
         == Processed(Report(7, "Lettuce", 2.0, 10.0, [
              ReportRow("A", "KNO3", "KNO3", 150.0, 3.0, "是"),
              ReportRow("B", "MgSO4", "-", 50.0, 1.0, "是")]))
  {
  }

  /** An id absent from the catalog is reported as not found, even when the
      store returned chemicals for it. */
  lemma UnknownFormula()
    ensures Process(8, 1.0, 1.0, [Formula(7, "Lettuce")], TwoChemicals()) == FormulaNotFound(8)
  {
  }

  /** A known formula without chemicals is reported as having none. */
  lemma FormulaWithoutChemicals()
    ensures Process(7, 1.0, 1.0, [Formula(7, "Lettuce")], []) == NoChemicals(7)
  {
  }

  /** A null or empty notation in the store shows as "-" in the report. */
  lemma MissingNotationShowsDash(rows: seq<ChemicalRow>, i: nat, volume: real, dilution: real)
    requires i < |rows|
    ensures MakeRow(ProjectChemicals(rows)[i], volume, dilution).chemicalFormula == "-"
        <==> rows[i].chem == None || rows[i].chem == Some("") || rows[i].chem == Some("-")
  {
  }
}
