/** The session of `main` without terminal output and without its exception
    handlers: load the catalog, stop when it is empty, read a formula id (or
    quit), the volume and the dilution factor from one stream of lines, and
    process the formula. */
module Session {
  import opened Wrappers
  import opened Text
  import opened Catalog
  import opened Prompts
  import opened Dosage

  datatype SessionOutcome =
    | NoFormulaData                 // the catalog is empty: no prompt is shown
    | QuitBeforeProcessing          // the operator typed the quit token
    | InputEnded                    // the lines ran out before a prompt was answered
    | Completed(formulaId: int, volume: real, dilution: real, result: ProcessResult)

  /** Line `i - 1` is the first line the formula prompt did not reject, and
      it decided `d`. */
  predicate IdReadAt(formulas: seq<Formula>, lines: seq<string>, i: int, d: IdDecision) {
    0 < i <= |lines| && IdsRejected(formulas, lines, 0, i - 1) && DecideFormulaId(formulas, lines[i - 1]) == d
  }

  /** Line `j - 1` is the first line from `from` that a numeric prompt
      accepted, and it parsed to `v`. */
  predicate FloatReadAt(lines: seq<string>, parse: string -> Option<real>, from: int, j: int, v: real) {
    0 <= from < j <= |lines| && FloatsRejected(lines, parse, POSITIVE_FLOOR, from, j - 1)
    && parse(Strip(lines[j - 1])) == Some(v) && v >= POSITIVE_FLOOR
  }

  /** `inputs` is what the three prompts read from `lines`: the quit token at
      the first line the formula prompt did not reject; or the end of the lines
      with one prompt still unanswered; or, at lines `i - 1`, `j - 1` and
      `k - 1`, a known formula id, then a volume and a dilution factor of at
      least 0.0001, every line in between rejected by its prompt. */
  ghost predicate ReadFrom(formulas: seq<Formula>, lines: seq<string>, parse: string -> Option<real>, inputs: Inputs) {
    match inputs
    case Quitted => exists i :: IdReadAt(formulas, lines, i, QuitRequested)
    case Exhausted =>
      || IdsRejected(formulas, lines, 0, |lines|)
      || (exists i, id :: IdReadAt(formulas, lines, i, IdAccepted(id))
                          && FloatsRejected(lines, parse, POSITIVE_FLOOR, i, |lines|))
      || (exists i, id, j, v :: IdReadAt(formulas, lines, i, IdAccepted(id)) && FloatReadAt(lines, parse, i, j, v)
                               && FloatsRejected(lines, parse, POSITIVE_FLOOR, j, |lines|))
    case Inputs(id, volume, dilution) =>
      exists i, j, k :: AnsweredAt(formulas, lines, parse, id, volume, dilution, i, j, k)
  }

  /** The formula prompt answered `id` at line `i - 1`, the volume prompt
      `volume` at line `j - 1` and the dilution prompt `dilution` at line `k - 1`. */
  predicate AnsweredAt(formulas: seq<Formula>, lines: seq<string>, parse: string -> Option<real>,
                       id: int, volume: real, dilution: real, i: int, j: int, k: int) {
    IdReadAt(formulas, lines, i, IdAccepted(id))
    && FloatReadAt(lines, parse, i, j, volume) && FloatReadAt(lines, parse, j, k, dilution)
  }

  /** What the three prompts of `main` obtain from the operator. */
  datatype Inputs =
    | Quitted                       // the formula prompt read the quit token
    | Exhausted                     // the lines ran out before all three prompts were answered
    | Inputs(formulaId: int, volume: real, dilution: real)

  /** The prompts of `main` (main.py:155-163) on one stream of lines: the
      formula prompt from the first line, then the volume prompt and the
      dilution prompt, each from the line after the previous answer. */
  method ReadInputs(formulas: seq<Formula>, lines: seq<string>, parse: string -> Option<real>)
    returns (inputs: Inputs)
    ensures ReadFrom(formulas, lines, parse, inputs)
  {
    var choice := ReadFormulaId(formulas, lines, 0);
    if choice.EndOfInput? {
      return Exhausted;
    }
    if choice.answer.None? {
      assert IdReadAt(formulas, lines, choice.next, QuitRequested);
      return Quitted;
    }
    var id := choice.answer.value;
    assert IdReadAt(formulas, lines, choice.next, IdAccepted(id));
    var volume := ReadFloat(lines, choice.next, parse, POSITIVE_FLOOR);
    if volume.EndOfInput? {
      return Exhausted;
    }
    assert FloatReadAt(lines, parse, choice.next, volume.next, volume.answer);
    var dilution := ReadFloat(lines, volume.next, parse, POSITIVE_FLOOR);
    if dilution.EndOfInput? {
      return Exhausted;
    }
    assert AnsweredAt(formulas, lines, parse, id, volume.answer, dilution.answer,
                      choice.next, volume.next, dilution.next);
    return Inputs(id, volume.answer, dilution.answer);
  }

  /** A formula id the prompt accepted names a formula of the catalog. */
  lemma AnsweredIdIsKnown(formulas: seq<Formula>, lines: seq<string>, parse: string -> Option<real>,
                          id: int, volume: real, dilution: real, i: int, j: int, k: int)
    requires AnsweredAt(formulas, lines, parse, id, volume, dilution, i, j, k)
    ensures IsKnownId(formulas, id) && volume >= POSITIVE_FLOOR && dilution >= POSITIVE_FLOOR
  {
  }

  /** `main`: `formulaRows` is what the formula query returned, `chemicalRows(id)`
      what the chemicals query returns for `id` (both already ordered by the
      store), `lines` the operator's input and `parse` Python's `float()`. */
  method RunSession(formulaRows: seq<FormulaRow>, chemicalRows: int -> seq<ChemicalRow>,
                    lines: seq<string>, parse: string -> Option<real>)
    returns (outcome: SessionOutcome)
    ensures outcome == NoFormulaData <==> formulaRows == []
    ensures outcome == QuitBeforeProcessing ==> ReadFrom(ProjectFormulas(formulaRows), lines, parse, Quitted)
    ensures outcome == InputEnded ==> ReadFrom(ProjectFormulas(formulaRows), lines, parse, Exhausted)
    ensures outcome.Completed? ==>
      var formulas := ProjectFormulas(formulaRows);
      && ReadFrom(formulas, lines, parse, Inputs(outcome.formulaId, outcome.volume, outcome.dilution))
      && IsKnownId(formulas, outcome.formulaId)
      && outcome.volume >= POSITIVE_FLOOR && outcome.dilution >= POSITIVE_FLOOR
      && outcome.result == Process(outcome.formulaId, outcome.volume, outcome.dilution,
                                   formulas, ProjectChemicals(chemicalRows(outcome.formulaId)))
      && !outcome.result.FormulaNotFound?
  {
    var formulas := ProjectFormulas(formulaRows);
    if |formulas| == 0 {
      return NoFormulaData;
    }
    var inputs := ReadInputs(formulas, lines, parse);
    if inputs == Quitted {
      return QuitBeforeProcessing;
    }
    if inputs == Exhausted {
      return InputEnded;
    }
    var id, volume, dilution := inputs.formulaId, inputs.volume, inputs.dilution;
    var i, j, k :| AnsweredAt(formulas, lines, parse, id, volume, dilution, i, j, k);
    AnsweredIdIsKnown(formulas, lines, parse, id, volume, dilution, i, j, k);
    var result := ProcessFormula(id, volume, dilution, formulas, ProjectChemicals(chemicalRows(id)));
    return Completed(id, volume, dilution, result);
  }

  /** A completed session never computes a negative mass when the store holds
      no negative concentration: the prompts only let positive volumes and
      dilution factors through, and null concentrations become 0. */
  lemma CompletedMassesNonNegative(formulas: seq<Formula>, rows: seq<ChemicalRow>,
                                   id: int, volume: real, dilution: real, report: Report)
    requires volume >= POSITIVE_FLOOR && dilution >= POSITIVE_FLOOR
    requires NoNegativeConcentration(rows)
    requires Process(id, volume, dilution, formulas, ProjectChemicals(rows)) == Processed(report)
    ensures forall i :: 0 <= i < |report.rows| ==> report.rows[i].mass >= 0.0
  {
    ConcentrationsNonNegative(rows);
    MassesNonNegative(report, id, volume, dilution, formulas, ProjectChemicals(rows));
  }
}
