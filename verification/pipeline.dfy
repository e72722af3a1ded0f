/** The whole extraction: walk, per-file accumulation into the twelve lists,
    header drop and wrapping, explode. Its result is the exported table
    without the CSV header line.
 */
module Pipeline {
  import opened Discovery
  import opened Quantities
  import opened Extraction
  import opened Accumulator
  import opened Reshape

  /** What the explode relies on for one file: every phase handled before
      the first failure answered ten series of one common, positive length. */
  predicate WellShaped<V>(o: FileOutcome<V>) {
    o.Opened? ==>
      var done := Completed(o.phases);
      forall i :: 0 <= i < |done| ==> Explodable(done[i].series)
  }

  predicate AllWellShaped<V>(walk: seq<FilePath>, oracle: FilePath -> FileOutcome<V>) {
    forall p | p in Discover(walk) :: WellShaped(oracle(p))
  }

  lemma ContributionExplodable<V>(path: FilePath, o: FileOutcome<V>)
    requires WellShaped(o)
    ensures AllExplodable(Contribution(path, o))
  {
  }

  lemma {:induction false} ReferenceExplodable<V>(paths: seq<FilePath>, oracle: FilePath -> FileOutcome<V>)
    requires forall p | p in paths :: WellShaped(oracle(p))
    ensures AllExplodable(Reference(paths, oracle))
  {
    if paths != [] {
      ContributionExplodable(paths[0], oracle(paths[0]));
      ReferenceExplodable(paths[1..], oracle);
      AllExplodableAppend(Contribution(paths[0], oracle(paths[0])), Reference(paths[1..], oracle));
    }
  }

  /** The exported rows: the explode of the wide table the script builds. It
      equals the explode of the reference rows, so every long row is sample
      point i of one completed phase of one selected file, in walk, phase and
      sample order. */
  function Extract<V>(walk: seq<FilePath>, oracle: FilePath -> FileOutcome<V>): (r: seq<LongRow<V>>)
    requires AllWellShaped(walk, oracle)
    ensures AllExplodable(Reference(Discover(walk), oracle))
    ensures r == Explode(Reference(Discover(walk), oracle))
  {
    RunRows(walk, oracle);
    ReferenceExplodable(Discover(walk), oracle);
    Explode(WideRows(Run(walk, oracle)))
  }

  /** Number of sample points a file yields: the widths of its completed phases. */
  function PhasePoints<V>(done: seq<PhaseQuery<V>>): nat
    requires forall i :: 0 <= i < |done| ==> done[i].Answered?
  {
    if done == [] then 0 else Width(done[0].series) + PhasePoints(done[1..])
  }

  function FilePoints<V>(o: FileOutcome<V>): nat {
    match o
    case SetupFailed => 0
    case Opened(phases) => PhasePoints(Completed(phases))
  }

  function BatchPoints<V>(paths: seq<FilePath>, oracle: FilePath -> FileOutcome<V>): nat {
    if paths == [] then 0 else FilePoints(oracle(paths[0])) + BatchPoints(paths[1..], oracle)
  }

  lemma {:induction false} PhaseRowsWidth<V>(path: FilePath, done: seq<PhaseQuery<V>>)
    requires forall i :: 0 <= i < |done| ==> done[i].Answered?
    ensures TotalWidth(PhaseRows(path, done)) == PhasePoints(done)
    decreases |done|
  {
    if done != [] {
      PhaseRowsWidth(path, done[1..]);
      assert PhaseRows(path, done)[1..] == PhaseRows(path, done[1..]);
    }
  }

  lemma {:induction false} ReferenceWidth<V>(paths: seq<FilePath>, oracle: FilePath -> FileOutcome<V>)
    ensures TotalWidth(Reference(paths, oracle)) == BatchPoints(paths, oracle)
    decreases |paths|
  {
    if paths != [] {
      var p := paths[0];
      ReferenceWidth(paths[1..], oracle);
      TotalWidthAppend(Contribution(p, oracle(p)), Reference(paths[1..], oracle));
      match oracle(p)
      case SetupFailed =>
      case Opened(phases) => PhaseRowsWidth(p, Completed(phases));
    }
  }

  /** The count law: the table has one row per sample point of every
      completed phase of every selected file; a file whose set-up failed
      adds none, so the count is the sum over the other files only. */
  lemma RowCount<V>(walk: seq<FilePath>, oracle: FilePath -> FileOutcome<V>)
    requires AllWellShaped(walk, oracle)
    ensures |Extract(walk, oracle)| == BatchPoints(Discover(walk), oracle)
  {
    ReferenceWidth(Discover(walk), oracle);
  }

  /** A selected file whose set-up failed has no row in the table, whatever
      its position in the walk; the files after it are still processed. */
  lemma FailedFileHasNoRows<V>(walk: seq<FilePath>, oracle: FilePath -> FileOutcome<V>, p: FilePath)
    requires AllWellShaped(walk, oracle)
    requires oracle(p).SetupFailed?
    ensures forall l | l in Extract(walk, oracle) :: l.path != p
  {
    var rows := Reference(Discover(walk), oracle);
    var table := Extract(walk, oracle);
    ExplodeProvenance(rows);
    FailedFileAbsent(Discover(walk), oracle, p);
  }

  /** The table of a walk split in two is the table of the first part followed
      by that of the second: what one file yields, or fails to yield, does not
      change the rows of the files before or after it. */
  lemma ExtractAppend<V>(a: seq<FilePath>, b: seq<FilePath>, oracle: FilePath -> FileOutcome<V>)
    requires AllWellShaped(a + b, oracle)
    ensures AllWellShaped(a, oracle) && AllWellShaped(b, oracle)
    ensures Extract(a + b, oracle) == Extract(a, oracle) + Extract(b, oracle)
  {
    DiscoverAppend(a, b);
    ReferenceAppend(Discover(a), Discover(b), oracle);
    var ra, rb := Reference(Discover(a), oracle), Reference(Discover(b), oracle);
    ReferenceExplodable(Discover(a), oracle);
    ReferenceExplodable(Discover(b), oracle);
    ExplodeAppend(ra, rb);
  }

  /** A walk with no model file, an empty directory among them, yields a table
      with no data row. */
  lemma {:induction false} NoModelsNoRows<V>(walk: seq<FilePath>, oracle: FilePath -> FileOutcome<V>)
    requires forall i :: 0 <= i < |walk| ==> !IsModelFile(walk[i].name)
    ensures AllWellShaped(walk, oracle)
    ensures Extract(walk, oracle) == []
    decreases |walk|
  {
    if walk != [] {
      NoModelsNoRows(walk[1..], oracle);
      assert Discover(walk) == Discover(walk[1..]);
    }
  }

  /** A file with two answered phases of five sample points each. */
  predicate TwoPhasesOfFive<V>(o: FileOutcome<V>) {
    && o.Opened? && |o.phases| == 2
    && o.phases[0].Answered? && Explodable(o.phases[0].series) && Width(o.phases[0].series) == 5
    && o.phases[1].Answered? && Explodable(o.phases[1].series) && Width(o.phases[1].series) == 5
  }

  lemma FivePointPhases<V>(o: FileOutcome<V>)
    requires TwoPhasesOfFive(o)
    ensures WellShaped(o) && FilePoints(o) == 10
  {
    var phases := o.phases;
    assert Completed(phases[2..]) == [];
    assert Completed(phases[1..]) == [phases[1]];
    var done := Completed(phases);
    assert done == [phases[0], phases[1]];
    assert PhasePoints(done[2..]) == 0;
    assert PhasePoints(done[1..]) == 5;
  }

  /** Two model files with two phases of five sample points each give twenty rows. */
  lemma TwoFilesTwoPhasesFivePoints<V>(walk: seq<FilePath>, oracle: FilePath -> FileOutcome<V>)
    requires |Discover(walk)| == 2
    requires forall p | p in Discover(walk) :: TwoPhasesOfFive(oracle(p))
    ensures AllWellShaped(walk, oracle)
    ensures |Extract(walk, oracle)| == 20
  {
    var paths := Discover(walk);
    forall p | p in paths ensures WellShaped(oracle(p)) && FilePoints(oracle(p)) == 10 {
      FivePointPhases(oracle(p));
    }
    assert paths[0] in paths && paths[1] in paths;
    assert BatchPoints(paths[2..], oracle) == 0;
    assert BatchPoints(paths[1..], oracle) == 10;
    RowCount(walk, oracle);
  }
}
