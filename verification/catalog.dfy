/** The formula repository: the rows the store returns for the two read
    queries and the records the core works with. A nullable column is an
    Option; the projection replaces a missing value by its default. */
module Catalog {
  import opened Wrappers

  /** A row of `SELECT id, name FROM hydroponic_formulas`. */
  datatype FormulaRow = FormulaRow(id: int, name: Option<string>)

  /** A formula as the core sees it: the name is never missing. */
  datatype Formula = Formula(id: int, name: string)

  /** A row of the chemicals-of-a-formula join: chemical id, name, notation
      (`chem`), category (`ABC`) and the association's concentration. */
  datatype ChemicalRow = ChemicalRow(
    id: int, name: Option<string>, chem: Option<string>, abc: Option<string>,
    concentration: Option<real>)

  /** A chemical of one formula; `concentration` is in mg/L. */
  datatype Chemical = Chemical(
    chemicalId: int, name: string, chemicalFormula: string, category: string,
    concentration: real)

  /** Python's `value or ""` on a nullable text column. */
  function OrEmpty(value: Option<string>): string {
    value.GetOr("")
  }

  /** `concentration if concentration is not None else 0.0`. */
  function OrZero(value: Option<real>): real {
    value.GetOr(0.0)
  }

  /** The projection of `get_all_formulas`: one formula per row, in row order;
      the id is copied and a null name becomes "". */
  function ProjectFormulas(rows: seq<FormulaRow>): (formulas: seq<Formula>)
    ensures |formulas| == |rows|
    ensures forall i :: 0 <= i < |rows| ==>
      formulas[i].id == rows[i].id
      && (rows[i].name.None? ==> formulas[i].name == "")
      && (rows[i].name.Some? ==> formulas[i].name == rows[i].name.value)
  {
    if rows == [] then []
    else [Formula(rows[0].id, OrEmpty(rows[0].name))] + ProjectFormulas(rows[1..])
  }

  /** One row of `get_formula_chemicals`: a present text column is copied and
      a text column reads "" exactly when it is null or empty; a concentration is kept when present and is 0.0 when null. */
  function ProjectChemical(row: ChemicalRow): (c: Chemical)
    ensures c.chemicalId == row.id
    ensures c.name == "" <==> row.name == None || row.name == Some("")
    ensures c.chemicalFormula == "" <==> row.chem == None || row.chem == Some("")
    ensures c.category == "" <==> row.abc == None || row.abc == Some("")
    ensures row.name.Some? ==> c.name == row.name.value
    ensures row.chem.Some? ==> c.chemicalFormula == row.chem.value
    ensures row.abc.Some? ==> c.category == row.abc.value
    ensures row.concentration.Some? ==> c.concentration == row.concentration.value
    ensures row.concentration.None? ==> c.concentration == 0.0
  {
    Chemical(row.id, OrEmpty(row.name), OrEmpty(row.chem), OrEmpty(row.abc), OrZero(row.concentration))
  }

  /** The projection of `get_formula_chemicals`: one chemical per row, in the
      order the store delivered them; null texts become "", a null
      concentration becomes 0.0 and a present one (0 included) is kept. */
  function ProjectChemicals(rows: seq<ChemicalRow>): (chemicals: seq<Chemical>)
    ensures |chemicals| == |rows|
    ensures forall i :: 0 <= i < |rows| ==>
      chemicals[i].chemicalId == rows[i].id
      && chemicals[i].name == OrEmpty(rows[i].name)
      && chemicals[i].chemicalFormula == OrEmpty(rows[i].chem)
      && chemicals[i].category == OrEmpty(rows[i].abc)
      && (rows[i].concentration.None? ==> chemicals[i].concentration == 0.0)
      && (rows[i].concentration.Some? ==> chemicals[i].concentration == rows[i].concentration.value)
  {
    if rows == [] then [] else [ProjectChemical(rows[0])] + ProjectChemicals(rows[1..])
  }

  /** The projection works row by row: projecting two batches of rows one after
      the other gives the projection of the whole, so the store's order
      (`ORDER BY c.ABC`) survives unchanged. */
  lemma ProjectChemicalsAppend(a: seq<ChemicalRow>, b: seq<ChemicalRow>)
    ensures ProjectChemicals(a + b) == ProjectChemicals(a) + ProjectChemicals(b)
  {
  }

  predicate NoNegativeConcentration(rows: seq<ChemicalRow>) {
    forall i :: 0 <= i < |rows| ==> rows[i].concentration.Some? ==> rows[i].concentration.value >= 0.0
  }

  /** Defaulting never introduces a negative concentration: when the store
      holds none, every projected concentration is at least 0. */
  lemma ConcentrationsNonNegative(rows: seq<ChemicalRow>)
    requires NoNegativeConcentration(rows)
    ensures forall i :: 0 <= i < |rows| ==> ProjectChemicals(rows)[i].concentration >= 0.0
  {
  }
}
