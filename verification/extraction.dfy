/** What the PLAXIS result reader answers for one model file, and what each
    file should contribute to the wide table.

    The remote sessions are not modelled: for every discovered file an oracle
    says either that opening and preparing the model failed (open, switch to
    staged construction, view the first phase, take the last plot, build the
    cross-section line), or lists what happened phase by phase, in the
    reader's native phase order. A phase is either answered, with its
    identification and the ten cross-section series, or raised an error
    somewhere in its queries.

    The rows a file contributes are stated here as structured records; the
    twelve parallel column lists of the script are modelled in Accumulator and
    proved to hold exactly these rows.
 */
module Extraction {
  import opened Discovery
  import opened Quantities
  import opened Seqs

  datatype Option<T> = None | Some(value: T)

  /** A phase's `Identification` property: its `value` attribute when the
      object has one, and its string form. */
  datatype Identification = Identification(value: Option<string>, text: string)

  /** The stage label: the `value` attribute when present, otherwise the
      string form of the identification. */
  function Label(id: Identification): (r: string)
    ensures id.value.Some? ==> r == id.value.value
    ensures id.value.None? ==> r == id.text
  {
    match id.value
    case Some(v) => v
    case None => id.text
  }

  /** The reader's answer for one phase. */
  datatype PhaseQuery<V> =
    | Answered(id: Identification, series: Columns<seq<V>>)
    | QueryFailed

  /** The reader's answer for one file. */
  datatype FileOutcome<V> =
    | SetupFailed
    | Opened(phases: seq<PhaseQuery<V>>)

  /** One row of the wide table: a model path, a stage label and the ten
      series of that phase. */
  datatype WideRow<V> = WideRow(path: FilePath, stage: string, series: Columns<seq<V>>)

  /** The phases handled before the first error: the longest prefix of
      answered phases. */
  function Completed<V>(phases: seq<PhaseQuery<V>>): (r: seq<PhaseQuery<V>>)
    ensures |r| <= |phases| && r == phases[..|r|]
    ensures forall i :: 0 <= i < |r| ==> r[i].Answered?
    ensures |r| == |phases| || phases[|r|].QueryFailed?
  {
    if phases == [] || phases[0].QueryFailed? then []
    else [phases[0]] + Completed(phases[1..])
  }

  /** One wide row per answered phase, in phase order. */
  function PhaseRows<V>(path: FilePath, done: seq<PhaseQuery<V>>): (r: seq<WideRow<V>>)
    requires forall i :: 0 <= i < |done| ==> done[i].Answered?
    ensures |r| == |done|
    ensures forall i :: 0 <= i < |r| ==>
              r[i] == WideRow(path, Label(done[i].id), done[i].series)
  {
    if done == [] then []
    else [WideRow(path, Label(done[0].id), done[0].series)] + PhaseRows(path, done[1..])
  }

  /** The rows one file contributes: none when setting it up failed, and
      one per phase handled before the first failing phase otherwise. */
  function Contribution<V>(path: FilePath, outcome: FileOutcome<V>): (r: seq<WideRow<V>>)
    ensures outcome.SetupFailed? ==> r == []
    ensures outcome.Opened? ==> |r| == |Completed(outcome.phases)|
    ensures outcome.Opened? ==> forall i :: 0 <= i < |r| ==>
              outcome.phases[i].Answered? &&
              r[i] == WideRow(path, Label(outcome.phases[i].id), outcome.phases[i].series)
    ensures forall w | w in r :: w.path == path
  {
    match outcome
    case SetupFailed => []
    case Opened(phases) => PhaseRows(path, Completed(phases))
  }

  /** A file whose k-th phase fails after k answered phases keeps the rows
      of those k phases; the phases after it contribute nothing. */
  lemma FailureAtPhase<V>(path: FilePath, phases: seq<PhaseQuery<V>>, k: nat)
    requires k < |phases| && phases[k].QueryFailed?
    requires forall i :: 0 <= i < k ==> phases[i].Answered?
    ensures Contribution(path, Opened(phases)) == PhaseRows(path, phases[..k])
  {
  }

  /** The wide rows of a list of files, file after file. */
  function Reference<V>(paths: seq<FilePath>, oracle: FilePath -> FileOutcome<V>): (r: seq<WideRow<V>>)
    ensures forall w | w in r :: w.path in paths
  {
    if paths == [] then []
    else Contribution(paths[0], oracle(paths[0])) + Reference(paths[1..], oracle)
  }

  /** Every row of the reference table comes from its own file's contribution. */
  lemma {:induction false} ReferenceProvenance<V>(paths: seq<FilePath>, oracle: FilePath -> FileOutcome<V>)
    ensures forall w | w in Reference(paths, oracle) :: w in Contribution(w.path, oracle(w.path))
  {
    if paths != [] {
      ReferenceProvenance(paths[1..], oracle);
    }
  }

  /** Files contribute independently: the rows of two lists of files are the
      rows of the first followed by those of the second. */
  lemma {:induction false} ReferenceAppend<V>(a: seq<FilePath>, b: seq<FilePath>, oracle: FilePath -> FileOutcome<V>)
    ensures Reference(a + b, oracle) == Reference(a, oracle) + Reference(b, oracle)
    decreases |a|
  {
    if a == [] {
      assert a + b == b;
    } else {
      assert (a + b)[0] == a[0] && (a + b)[1..] == a[1..] + b;
      ReferenceAppend(a[1..], b, oracle);
      var c := Contribution(a[0], oracle(a[0]));
      ConcatAssoc(c, Reference(a[1..], oracle), Reference(b, oracle));
    }
  }

  /** A file whose set-up failed contributes no row, whatever its position. */
  lemma FailedFileAbsent<V>(paths: seq<FilePath>, oracle: FilePath -> FileOutcome<V>, p: FilePath)
    requires oracle(p).SetupFailed?
    ensures forall w | w in Reference(paths, oracle) :: w.path != p
  {
    ReferenceProvenance(paths, oracle);
  }
}
