/** The input validator: what one line typed at the formula prompt or at a
    numeric prompt decides, and the retry loops that read lines until one
    is accepted. Terminal input is a sequence of lines read from a cursor. */
module Prompts {
  import opened Wrappers
  import opened Text
  import opened Catalog

  /** The floor `main` gives both numeric prompts (volume and dilution factor). */
  const POSITIVE_FLOOR: real := 0.0001

  /** What a line at the formula prompt decides. */
  datatype IdDecision = QuitRequested | IdAccepted(id: int) | IdRejected

  /** What a line at a numeric prompt decides. */
  datatype FloatDecision = FloatAccepted(value: real) | BelowMinimum | NotANumber

  /** The answer a retry loop returns with the cursor after the accepted line,
      or the end of the input before any line was accepted. */
  datatype Answer<T> = Answer(answer: T, next: nat) | EndOfInput

  /** `formula_ids`: the decimal string of every known id, in catalog order. */
  function IdStrings(formulas: seq<Formula>): (ids: seq<string>)
    ensures |ids| == |formulas|
    ensures forall i :: 0 <= i < |formulas| ==> ids[i] == IntToString(formulas[i].id)
    ensures forall i :: 0 <= i < |formulas| ==> ids[i] != [] && ParseInt(ids[i]) == formulas[i].id
  {
    AllIntsRoundTrip();
    seq(|formulas|, i requires 0 <= i < |formulas| => IntToString(formulas[i].id))
  }

  predicate IsKnownId(formulas: seq<Formula>, id: int) {
    exists i :: 0 <= i < |formulas| && formulas[i].id == id
  }

  lemma KnownStringParses(formulas: seq<Formula>, t: string)
    requires t in IdStrings(formulas)
    ensures IsKnownId(formulas, ParseInt(t)) && IntToString(ParseInt(t)) == t
  {
    var i :| 0 <= i < |formulas| && IdStrings(formulas)[i] == t;
    IntRoundTrip(formulas[i].id);
  }

  /** One pass of the formula prompt on an already-read line: the stripped
      line quits when it lower-cases to "q"; otherwise it is accepted when it
      is one of the known ids' strings, and the accepted id is its value. */
  function DecideFormulaId(formulas: seq<Formula>, line: string): (d: IdDecision)
    ensures d.QuitRequested? <==> IsQuitToken(Strip(line))
    ensures d.IdAccepted? ==> IsKnownId(formulas, d.id) && IntToString(d.id) == Strip(line)
  {
    var t := Strip(line);
    if ToLower(t) == "q" then QuitRequested
    else if t in IdStrings(formulas) then
      KnownStringParses(formulas, t);
      IdAccepted(ParseInt(t))
    else IdRejected
  }

  /** A line selects formula `id` exactly when it is not the quit token and its
      stripped text is precisely `str(id)` for a known id: no sign, no leading
      zero, no other spelling of the number is accepted. */
  lemma AcceptedExactly(formulas: seq<Formula>, line: string, id: int)
    ensures DecideFormulaId(formulas, line) == IdAccepted(id)
        <==> !IsQuitToken(Strip(line)) && IsKnownId(formulas, id) && Strip(line) == IntToString(id)
  {
    var t := Strip(line);
    if !IsQuitToken(t) && IsKnownId(formulas, id) && t == IntToString(id) {
      var i :| 0 <= i < |formulas| && formulas[i].id == id;
      assert IdStrings(formulas)[i] == t;
      IntRoundTrip(id);
    }
    if DecideFormulaId(formulas, line) == IdAccepted(id) {
      assert IntToString(id) == t;
    }
  }

  /** A line re-prompts exactly when it is neither the quit token nor the
      string of any known id; in particular a blank line always re-prompts. */
  lemma RejectedExactly(formulas: seq<Formula>, line: string)
    ensures DecideFormulaId(formulas, line) == IdRejected
        <==> !IsQuitToken(Strip(line)) && forall i :: 0 <= i < |formulas| ==> IntToString(formulas[i].id) != Strip(line)
    ensures AllSpace(line) ==> DecideFormulaId(formulas, line) == IdRejected
  {
    var t := Strip(line);
    if exists i :: 0 <= i < |formulas| && IntToString(formulas[i].id) == t {
      var i :| 0 <= i < |formulas| && IntToString(formulas[i].id) == t;
      assert IdStrings(formulas)[i] == t;
    }
    if AllSpace(line) {
      StripBlank(line);
      assert ToLower(t) == [];
    }
  }

  /** With only formula 1 known, "01" is not accepted: only the exact
      string "1" names it. */
  lemma LeadingZeroRejected()
    ensures DecideFormulaId([Formula(1, "A")], "01") == IdRejected
  {
  }

  /** Surrounding spaces do not matter: " 1 " selects formula 1. */
  lemma PaddedIdAccepted()
    ensures DecideFormulaId([Formula(1, "A")], " 1 ") == IdAccepted(1)
  {
    assert " 1 " == " " + "1" + " ";
    StripIgnoresPadding(" ", "1", " ");
    assert Strip("1") == "1";
    assert IntToString(1) == "1";
    QuitTokenIsQ("1");
    assert [Formula(1, "A")][0].id == 1;
    AcceptedExactly([Formula(1, "A")], " 1 ", 1);
  }

  /** The quit token is recognised in upper case too. */
  lemma UpperQuitAccepted(formulas: seq<Formula>)
    ensures DecideFormulaId(formulas, "Q") == QuitRequested
  {
  }

  /** One pass of a numeric prompt on the parse of the stripped line (None when
      `float()` fails): accepted exactly when the number is not below the floor,
      so the floor itself is accepted. */
  function DecideFloat(parsed: Option<real>, minValue: real): (d: FloatDecision)
    ensures d.FloatAccepted? <==> parsed.Some? && parsed.value >= minValue
    ensures d.FloatAccepted? ==> d.value == parsed.value
    ensures d == NotANumber <==> parsed.None?
  {
    match parsed
    case None => NotANumber
    case Some(v) => if v < minValue then BelowMinimum else FloatAccepted(v)
  }

  predicate IdsRejected(formulas: seq<Formula>, lines: seq<string>, from: nat, to: nat)
    requires from <= to <= |lines|
  {
    forall k :: from <= k < to ==> DecideFormulaId(formulas, lines[k]) == IdRejected
  }

  /** `get_valid_formula_id`: reads lines from `start` until one quits (None)
      or names a known id (Some(id)); every line before it was rejected.
      EndOfInput when the lines run out first, all of them rejected. */
  method ReadFormulaId(formulas: seq<Formula>, lines: seq<string>, start: nat) returns (a: Answer<Option<int>>)
    requires start <= |lines|
    ensures a.Answer? ==> start < a.next <= |lines| && IdsRejected(formulas, lines, start, a.next - 1)
    ensures a.Answer? && a.answer.None? ==> DecideFormulaId(formulas, lines[a.next - 1]) == QuitRequested
    ensures a.Answer? && a.answer.Some? ==> DecideFormulaId(formulas, lines[a.next - 1]) == IdAccepted(a.answer.value)
    ensures a.EndOfInput? ==> IdsRejected(formulas, lines, start, |lines|)
  {
    var k := start;
    while k < |lines|
      invariant start <= k <= |lines|
      invariant IdsRejected(formulas, lines, start, k)
    {
      var d := DecideFormulaId(formulas, lines[k]);
      if d.QuitRequested? {
        return Answer(None, k + 1);
      }
      if d.IdAccepted? {
        return Answer(Some(d.id), k + 1);
      }
      k := k + 1;
    }
    return EndOfInput;
  }

  predicate FloatsRejected(lines: seq<string>, parse: string -> Option<real>, minValue: real, from: nat, to: nat)
    requires from <= to <= |lines|
  {
    forall k :: from <= k < to ==> !DecideFloat(parse(Strip(lines[k])), minValue).FloatAccepted?
  }

  /** `get_valid_float`: reads lines from `start` until one parses to a number
      not below `minValue`, and returns that number; every line before it was
      unparseable or below the floor. EndOfInput when the lines run out first. */
  method ReadFloat(lines: seq<string>, start: nat, parse: string -> Option<real>, minValue: real)
    returns (a: Answer<real>)
    requires start <= |lines|
    ensures a.Answer? ==> start < a.next <= |lines| && FloatsRejected(lines, parse, minValue, start, a.next - 1)
    ensures a.Answer? ==> parse(Strip(lines[a.next - 1])) == Some(a.answer) && a.answer >= minValue
    ensures a.EndOfInput? ==> FloatsRejected(lines, parse, minValue, start, |lines|)
  {
    var k := start;
    while k < |lines|
      invariant start <= k <= |lines|
      invariant FloatsRejected(lines, parse, minValue, start, k)
    {
      var d := DecideFloat(parse(Strip(lines[k])), minValue);
      if d.FloatAccepted? {
        return Answer(d.value, k + 1);
      }
      k := k + 1;
    }
    return EndOfInput;
  }
}
