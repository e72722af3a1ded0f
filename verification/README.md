# PLAXIS cross-section extractor: verified model of the extraction core

`wall.py` walks a directory tree and keeps the PLAXIS 2D model files: names
ending in `.p2dx` but not in `data.p2dx`. For each model it opens the file in
a PLAXIS input session and reads, in the output session, ten cross-section
result series for every phase: X, Y, Utot, Ux, Uy, SigxxE, SigyyE,
EffNormalStress, TotNormalStress and TotShearStress. Each file is guarded by
`try/except`. The results are collected in twelve parallel column lists, and
each list is seeded with a header string. These lists become a pandas
DataFrame. The script drops the header row, wraps non-list cells as
one-element lists, and explodes the ten list columns together. The result is
one row per sample point, written out as CSV.

This project models that pure core in Dafny and proves its laws:

- `Discovery`: the file-name rule and the selection of files from the walk.
  `Discovery.IsModelFile` is the test at wall.py:85 itself.
- `Quantities`: a record with one field per measurement (`Columns<T>`).
- `Extraction`: the answers of the PLAXIS result reader, as an oracle. Per
  file, either set-up failed, or there is a list of phases, each answered or
  failed. This module also holds the stage-label rule and the rows each file
  should contribute. These rows are stated as structured records and serve as
  the reference definition.
- `Accumulator`: the twelve column lists, their sentinels and the per-phase
  append block. Also the fold over the walk, the DataFrame row view, the
  header drop and the list wrapping. `RunRows` proves that the resulting wide
  table is exactly the reference rows. The definitions without a contract of
  their own map onto the script as follows:
  - `Accumulator.Seed` is the twelve lists as initialised at wall.py:69-80,
    each holding only its header string;
  - `Accumulator.Frame` is the DataFrame of wall.py:129-142, whose row i holds
    entry i of every list;
  - `Accumulator.DropHeader` is `iloc[1:]` at wall.py:147;
  - `Accumulator.WideRows` is wall.py:145-150: the header drop followed by
    the wrapping of every measurement cell.
- `Reshape`: the multi-column explode, as a positional zip followed by a
  flatten.
- `Pipeline`: the whole pipeline (`Extract`) and its end-to-end laws.
- `Seqs`: the associativity of concatenation, shared by the proofs.

The measured values have an opaque type parameter `V`. They are only passed
through.

## Model

| member | source | states |
|---|---|---|
| Discovery.EndsWithIffConcat | wall.py:85 | `str.endswith` as used by the rule: a name ends with a suffix exactly when it is some string followed by that suffix |
| Discovery.SelectedIff | wall.py:85 | a name `stem + ".p2dx"` is processed if and only if the stem does not end with `data` |
| Discovery.OtherExtensionsRejected | wall.py:85 | a name that does not end with `.p2dx` is never processed |
| Discovery.SelectionExamples | wall.py:85 | `model.p2dx` is kept; `model_data.p2dx`, `data.p2dx`, `metadata.p2dx` and `model.P2DX` are rejected |
| Discovery.Discover | wall.py:83-85 | a walk entry is processed if and only if it occurs in the walk and its name satisfies the rule; no entry is added |
| Discovery.DiscoverAppend | wall.py:83-85 | selection keeps walk order: selecting from a walk split in two gives the selection of the first part followed by that of the second |
| Extraction.Label | wall.py:109 | the stage label is the identification's `value` attribute when it exists, and otherwise its string form |
| Extraction.Completed | wall.py:90-126 | the phases handled in a file are the longest prefix of answered phases; the next phase, if any, is the one that raised |
| Extraction.PhaseRows | wall.py:97-122 | one wide row per handled phase, in phase order, carrying the file path, the phase's label and its ten series |
| Extraction.Contribution | wall.py:90-126 | a file whose set-up raised contributes no row; otherwise row i is phase i's path, label and series for every phase before the first failing one; every row carries the file's path |
| Extraction.FailureAtPhase | wall.py:97-126 | when phase k is the first phase that raises, the file keeps exactly the rows of phases 0..k-1 |
| Extraction.Reference | wall.py:83-126 | the wide rows of a list of files all come from files of that list |
| Extraction.ReferenceProvenance | wall.py:83-126 | every wide row belongs to its own file's contribution |
| Extraction.ReferenceAppend | wall.py:83-126 | files contribute independently: the rows of two lists of files are the rows of the first followed by those of the second |
| Extraction.FailedFileAbsent | wall.py:90-126 | no wide row carries the path of a file whose set-up raised |
| Accumulator.Append | wall.py:111-122 | one append block keeps the twelve lists the same length and adds exactly one entry to each; it keeps sentinel row 0 and data-only positions after it |
| Accumulator.ProcessPhases | wall.py:97-122 | the phase loop adds exactly one entry per handled phase to each list and keeps them the same length |
| Accumulator.ProcessFile | wall.py:90-126 | the guarded body adds one entry per list for each row of the file's contribution, and nothing when set-up raised |
| Accumulator.RunFrom | wall.py:83-126 | the walk loop keeps the lists well formed |
| Accumulator.Run | wall.py:69-126 | after the walk all twelve lists are headed by their sentinel and have equal length: 1 plus the number of handled phases of selected files |
| Accumulator.HeaderExcluded | wall.py:129-147 | the sentinels form exactly row 0 of the DataFrame; after `iloc[1:]` every remaining row has data in all twelve cells, one row per appended phase |
| Accumulator.Wrap | wall.py:149-150 | a list cell is kept as is; any other cell becomes a one-element list |
| Accumulator.WrapIsIdentity | wall.py:150 | every data cell the script appends (lines 113-122) is a list, so the wrapping changes no data row |
| Accumulator.SeedRows | wall.py:69-80 | the freshly seeded lists are well formed and hold no data row |
| Accumulator.AppendRows | wall.py:111-122 | one append block adds exactly that phase's row at the end of the wide table; the earlier rows are unchanged |
| Accumulator.AppendAll | wall.py:111-122 | a run of append blocks keeps the lists the same length and adds one entry per row |
| Accumulator.AppendAllConcat | wall.py:111-122 | appending two runs of rows is the same as appending their concatenation |
| Accumulator.ProcessPhasesAppends | wall.py:97-122 | the phase loop performs exactly the append blocks of the file's handled phases, in phase order |
| Accumulator.ProcessFileAppends | wall.py:90-126 | the guarded body performs exactly the append blocks of the file's contribution |
| Accumulator.RunFromAppends | wall.py:83-126 | the walk loop performs the append blocks of the selected files' contributions, files in walk order |
| Accumulator.AppendAllRows | wall.py:111-147 | appending rows to well-formed lists extends the header-dropped wide table by exactly those rows |
| Accumulator.RunRows | wall.py:69-150 | the wide table left after the header drop and wrapping is exactly the reference rows of the selected files |
| Reshape.Zip | wall.py:152 | zipping ten equal-length series gives one sample per position; sample i holds element i of every series |
| Reshape.ExplodeRow | wall.py:152 | a wide row with n sample points explodes into exactly n long rows; long row i carries the row's path and label and element i of each of the ten series |
| Reshape.Explode | wall.py:152 | the exploded table has as many rows as the wide rows have sample points in total |
| Reshape.ExplodeProvenance | wall.py:152 | every long row carries the path and label of some wide row |
| Reshape.TotalWidthAppend | wall.py:152 | sample-point counts add up over concatenated wide tables |
| Reshape.ExplodeCons | wall.py:152 | the explode of a non-empty wide table is its first row's long rows followed by the explode of the remaining rows |
| Reshape.ExplodeAppend | wall.py:152 | exploding concatenated wide tables is concatenating their explodes |
| Reshape.ExplodeAt | wall.py:152 | long row `TotalWidth(rows[..j]) + i` is sample point i of wide row j, so long rows are grouped by wide row in order and follow sample order within a group |
| Pipeline.ContributionExplodable | wall.py:97-122 | when a file's handled phases all answered aligned series, so do its wide rows |
| Pipeline.ReferenceExplodable | wall.py:83-126 | when every selected file is well shaped, every wide row can be exploded |
| Pipeline.Extract | wall.py:83-152 | the exported rows are the explode of the reference rows: files in walk order, phases in reader order, sample points in position order |
| Pipeline.PhaseRowsWidth | wall.py:97-152 | a file's handled phases yield as many long rows as their series have sample points |
| Pipeline.ReferenceWidth | wall.py:83-152 | the wide rows of a list of files have the sum of the files' sample-point counts |
| Pipeline.RowCount | wall.py:83-152 | the number of exported rows is the sum, over selected files, of their handled phases' sample points; a file whose set-up raised counts zero |
| Pipeline.FailedFileHasNoRows | wall.py:90-152 | no exported row carries the path of a file whose set-up raised |
| Pipeline.ExtractAppend | wall.py:83-152 | the table of a walk split in two is the table of the first part followed by that of the second, so one file's failure does not change other files' rows |
| Pipeline.NoModelsNoRows | wall.py:83-152 | a walk without model files, such as an empty directory, yields no data row |
| Pipeline.FivePointPhases | wall.py:97-122 | a file with two answered phases of five sample points each is well shaped and yields ten points |
| Pipeline.TwoFilesTwoPhasesFivePoints | wall.py:83-152 | two model files with two phases of five sample points each give exactly twenty rows |

## Left out

- `find_plaxis_executable` (wall.py:14-38): it probes the filesystem and prompts the user.
- The prompt for the root folder and the directory check (wall.py:45-49): operator I/O.
- Process launch and termination (wall.py:58-62, 160-163), the two `plx.new_server` sessions (wall.py:65-66) and the password: process and network plumbing.
- All remote calls (wall.py:91-107) are replaced by the oracle `FilePath -> FileOutcome<V>`. The outcome of a file is thus a function of its path: these are foreign calls whose behaviour is not visible.
- `os.walk` (wall.py:83) is an input sequence of (directory, name) pairs in walk order. `os.path.join` (wall.py:86) is not modelled: the pair itself is the model path.
- Writing the CSV (wall.py:155-157) and the `print` messages, including the error log line at wall.py:125: I/O.
- The numeric meaning of the values: they are floats that are only passed through, so they have an opaque type.
- Pipeline.Extract: requires every handled phase's ten series to have one common, positive length (`WellShaped`). pandas' behaviour otherwise is library semantics not visible in the script: a row of empty lists explodes to one NaN row, and mismatched lengths raise.
- Accumulator.Append: the twelve appends of one phase are taken as one atomic block. In the script, a `list(...)` conversion that raises part-way would leave the lists of unequal length, and the DataFrame construction would then raise for the whole run.
- Extraction.Label: a `value` attribute that exists but is not a string (for example `None`) is not modelled. The label is a string in every case.
- `try/except Exception` catches only `Exception`: interrupts and other `BaseException`s that end the script are not modelled.
- Re-running over the same walk and the same oracle gives the same table because every member is a function. No separate lemma states this.

A file whose phase k raises keeps the rows of phases 0..k-1, because the appends are not rolled back (`Extraction.FailureAtPhase`). The script does not check that the ten series have equal length, so the model takes alignment as a precondition of the explode.
