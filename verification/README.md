# HydroMate nutrient-dose calculator — Dafny model

HydroMate is a command-line calculator for hydroponic nutrient solutions. It
reads nutrient formulas and the concentration (mg/L) of each chemical in them
from an SQLite store. The operator picks a formula and enters a volume in
litres and a dilution factor. The program then prints the grams of each
chemical to weigh out, and marks whether the batch is a stock solution
(a concentrate, 母液).

This project models the core of `main.py`:

- `wrappers.dfy` — `Option`, for Python's `None` (nullable columns, failed parses, missing formulas).
- `text.dfy` — the string builtins the validator uses: `str.strip()`, `str.lower()`, `str(int)`, `int(str)`.
- `catalog.dfy` — the store rows and the records projected from them (`get_all_formulas`, `get_formula_chemicals`).
- `prompts.dfy` — the input validator. One function decides one already-read line for the formula prompt (`get_valid_formula_id`) or a numeric prompt (`get_valid_float`). The retry loops are methods that read lines from a cursor.
- `dosage.dfy` — `process_formula`. The specification function `Process` is paired with the method `ProcessFormula`, whose loop builds the table rows.
- `session.dfy` — the flow of `main`: empty catalog, formula prompt, volume prompt, dilution prompt, processing.

Three facts about `main.py` that its prompt texts do not make obvious:

- The volume and dilution prompts say 需大于 0 ("must be greater than 0") at main.py:160 and main.py:163. The check at main.py:95 rejects only `value < min_value`, and the message at main.py:96 says 大于或等于 ("greater than or equal"). So the floor 0.0001 is itself accepted.
- The chemical-formula column shows "-" both for a null notation and for an empty one. main.py:54 turns null into "", and main.py:132 turns "" into "-".
- The stock-solution column is the string "是" (yes) or "否" (no), chosen by `dilution_factor > 1` at main.py:130-131.

## Model

| member | source | states |
|---|---|---|
| `Text.IsSpace` | main.py:81 | space, tab, newline and carriage return are whitespace to `strip()`; no whitespace character is a digit, a minus sign or a quit letter |
| `Text.TrimStart` | main.py:81 | the result does not start with whitespace and is no longer than the input |
| `Text.TrimStartIsSuffix` | main.py:81 | what is kept is a suffix of the line, and everything dropped in front is whitespace |
| `Text.TrimEnd` | main.py:81 | the result does not end with whitespace and is no longer than the input |
| `Text.TrimEndIsPrefix` | main.py:81 | what is kept is a prefix of the line, and everything dropped behind is whitespace |
| `Text.Strip` | main.py:81 | the stripped input neither starts nor ends with whitespace |
| `Text.StripBlank` | main.py:81 | a line strips to "" exactly when it is all whitespace |
| `Text.StripIdempotent` | main.py:81 | stripping twice is the same as stripping once |
| `Text.StripIgnoresPadding` | main.py:81 | whitespace added before or after a line does not change what strip returns |
| `Text.ToLower` | main.py:82 | lower-casing keeps the length of the text (its effect on the quit token is QuitTokenIsQ) |
| `Text.QuitTokenIsQ` | main.py:82 | the lower-cased input equals "q" exactly when the input is "q" or "Q" |
| `Text.NatToString` | main.py:78 | `str(n)` of a natural number is a non-empty digit string with no leading zero |
| `Text.IntToString` | main.py:78 | `str(n)` is non-empty and starts with "-" exactly when n is negative |
| `Text.NatRoundTrip` | main.py:86 | reading the digits of `str(n)` gives back n |
| `Text.ParseInt` | main.py:86 | `int(s)` is at most 0 when s starts with "-" and at least 0 otherwise |
| `Text.IntRoundTrip` | main.py:78-86 | `int(str(n)) == n` for every integer, so the accepted id is the known id |
| `Text.IntToStringInjective` | main.py:85-86 | two ids with the same decimal string are the same id |
| `Catalog.ProjectFormulas` | main.py:27 | one formula per row, in row order, with the id copied; a null name becomes "" and a present name is kept |
| `Catalog.ProjectChemicals` | main.py:51-57 | one chemical per row, in row order; null name, notation and category become ""; a null concentration becomes 0.0; a present one, 0 included, is kept |
| `Catalog.ProjectChemical` | main.py:51-57 | the id is copied; a present name, notation or category is copied, and each reads "" exactly when the column is null or empty; a present concentration is kept and a null one is 0.0 |
| `Catalog.ProjectChemicalsAppend` | main.py:42-57 | the projection distributes over concatenation, so it keeps the order the store sorted by category |
| `Catalog.ConcentrationsNonNegative` | main.py:56 | defaulting introduces no negative concentration |
| `Prompts.IdStrings` | main.py:78 | one string per formula, in catalog order, each exactly `str` of that formula's id and reading back (`int`) as that id |
| `Prompts.DecideFormulaId` | main.py:78-87 | a line quits exactly when its stripped text lower-cases to "q"; an accepted id is a known id whose `str` is the stripped line |
| `Prompts.AcceptedExactly` | main.py:81-86 | a line selects id exactly when it is not the quit token, id is known, and the stripped line is exactly `str(id)` |
| `Prompts.RejectedExactly` | main.py:82-87 | a line re-prompts exactly when it is neither the quit token nor `str` of a known id; a blank line always re-prompts |
| `Prompts.LeadingZeroRejected` | main.py:85 | with only formula 1 known, "01" re-prompts |
| `Prompts.PaddedIdAccepted` | main.py:81-86 | " 1 " selects formula 1 |
| `Prompts.UpperQuitAccepted` | main.py:82-84 | "Q" quits, whatever the catalog holds |
| `Prompts.DecideFloat` | main.py:93-100 | a parsed number is accepted exactly when it is at least the floor, and the accepted value is that number; an unparseable line is "not a number" |
| `Prompts.ReadFormulaId` | main.py:76-87 | the loop returns at the first line that quits (None) or names a known id (that id); every earlier line was rejected; if the lines run out, all of them were rejected |
| `Prompts.ReadFloat` | main.py:89-100 | the loop returns the first number at or above the floor and where it was read; every earlier line was unparseable or below the floor; if the lines run out, all of them were rejected |
| `Dosage.FindFormula` | main.py:104 | None exactly when no formula has the id; otherwise the formula at the first position that has the id |
| `Dosage.Mass` | main.py:129 | the mass is non-negative when concentration, volume and dilution are, and 0 when any of them is 0 |
| `Dosage.StockLabel` | main.py:130-131 | "是" exactly when dilution > 1, "否" exactly when dilution <= 1 |
| `Dosage.NotationShown` | main.py:132 | the column is never empty, and a non-empty notation is shown unchanged |
| `Dosage.MakeRow` | main.py:133-140 | the row describes its chemical: category and name copied, notation or "-", the concentration, mass = concentration × volume × dilution / 1000, and "是" exactly when dilution > 1 |
| `Dosage.ReportRows` | main.py:128-140 | one row per chemical, each built from the chemical at the same position |
| `Dosage.Process` | main.py:102-143 | "not found" exactly when no formula has the id; "no chemicals" exactly when it exists and the list is empty; otherwise a report on the first such formula, with one row per chemical in order, the name and category copied, "-" for an empty notation, mass = concentration × volume × dilution / 1000, and "是" exactly when dilution > 1 |
| `Dosage.ProcessFormula` | main.py:102-143 | the loop's result equals `Process` on the same inputs |
| `Dosage.MassesNonNegative` | main.py:129 | with non-negative concentrations and positive volume and dilution, every mass is non-negative |
| `Dosage.StockFlagUniform` | main.py:130-131 | all rows of all reports with the same dilution carry the same stock label, whatever the chemicals |
| `Dosage.StockMatchesDilutedVolume` | main.py:129 | v litres of a d-fold stock need the mass that v·d litres of 1x solution need |
| `Dosage.DirectPreparation` | main.py:128-140 | 150 and 50 mg/L at 1 L and dilution 1 need 0.15 g and 0.05 g, both marked "否" |
| `Dosage.StockPreparation` | main.py:128-140 | the same chemicals at 2 L and dilution 10 need 3 g and 1 g, both marked "是" |
| `Dosage.UnknownFormula` | main.py:104-106 | an id missing from the catalog gives "not found", even when chemicals exist for it |
| `Dosage.FormulaWithoutChemicals` | main.py:108-110 | a known formula with no chemicals gives "no chemicals associated" |
| `Dosage.MissingNotationShowsDash` | main.py:132 | the notation column shows "-" exactly when the stored notation is null, "" or "-" itself |
| `Session.ReadInputs` | main.py:155-163 | the three prompts read one stream of lines in turn: a quit means the first line the formula prompt did not reject was the quit token; end of input means the lines ran out with a prompt unanswered, every line after the last answer rejected; otherwise the id, volume and dilution were accepted at three successive lines, each with every line before it since the previous answer rejected |
| `Session.AnsweredIdIsKnown` | main.py:85-86 | an id the prompt accepted is a catalog id, and the volume and dilution read are at least 0.0001 |
| `Session.RunSession` | main.py:145-167 | the session stops without a prompt exactly when the catalog is empty; quitting and running out of input happen only as the lines dictate; a completed session processed the id, volume and dilution read from the lines, the id is known, both numbers are at least 0.0001, and the result is never "not found" |
| `Session.CompletedMassesNonNegative` | main.py:160-166 | in a completed session, with no negative concentration in the store, every mass is non-negative |

## Left out

- SQLite access is not modelled. This covers the connection, its path resolution, running the queries, closing cursors and connections, and turning `sqlite3.Error` into `[]` (main.py:5-33, 44-63). Query results are parameters: `formulaRows`, and `chemicalRows(id)` for the chemicals of a formula. A failed query is the same as an empty result.
- The `ORDER BY c.ABC` sort is done by the store and is not modelled. The projection is proved to keep whatever order it receives.
- Terminal I/O is not modelled. There is no `print`, no prompt text, no `display_formulas`, and no exit pause. `input()` is a sequence of lines with a cursor.
- `main`'s `KeyboardInterrupt` and generic-exception handlers are not modelled. The only exception the model represents is running out of input (Python's `EOFError`), as `EndOfInput` / `InputEnded`.
- `float()` is not modelled. It is the parameter `parse: string -> Option<real>`, applied to the stripped line. IEEE-754 rounding, `nan` and `inf` are not modelled. In Python, `nan` passes the `value < min_value` test.
- `str.lower()` is modelled for ASCII letters only. No other character lower-cases to "q", so the quit decision is the same as with full Unicode.
- PrettyTable rendering and the `.2f`/`.4f` formatting are not modelled. The report keeps full-precision reals, plus the header fields (id, name, volume, dilution).
