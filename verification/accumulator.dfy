/** The script's twelve parallel column lists and the wide table built from
    them.

    Each list starts with a header string (the sentinel row). Every handled
    phase appends one entry to each list: the model path, the stage label,
    and the ten query results, each converted to a list. A file is guarded as
    a whole: when its set-up fails nothing is appended, and when a phase fails
    the entries of the earlier phases stay. The lists then become a table with
    one row per list position; the first row (the sentinels) is dropped and
    every data cell that is not a list is wrapped as a one-element list.

    The main result, `RunRows`, says that the table left after the header
    drop holds exactly the rows `Extraction.Reference` describes.
 */
module Accumulator {
  import opened Discovery
  import opened Quantities
  import opened Extraction
  import opened Seqs

  /** An entry of a column list: the header sentinel or a data value. */
  datatype Entry<T> = Header(name: string) | Data(value: T)

  /** A data value of a measurement column: a Python list, or any other
      (scalar) value. */
  datatype Cell<V> = Atom(atom: V) | List(items: seq<V>)

  /** The twelve column lists. */
  datatype Table<V> = Table(
    model: seq<Entry<FilePath>>,
    stage: seq<Entry<string>>,
    cols: Columns<seq<Entry<Cell<V>>>>)

  const ModelHeader: string := "modelname"
  const StageHeader: string := "stage"
  const DataHeaders: Columns<string> := Columns(
    "x", "y", "utot", "ux", "uy", "sigxxe", "sigyye",
    "eff_normal_stress", "tot_normal_stress", "tot_shear_stress")

  /** The column lists as the script initialises them: one sentinel each. */
  function Seed<V>(): Table<V> {
    Table([Header(ModelHeader)], [Header(StageHeader)],
          Columns([Header(DataHeaders.x)], [Header(DataHeaders.y)],
                  [Header(DataHeaders.utot)], [Header(DataHeaders.ux)],
                  [Header(DataHeaders.uy)], [Header(DataHeaders.sigxxe)],
                  [Header(DataHeaders.sigyye)], [Header(DataHeaders.effNormalStress)],
                  [Header(DataHeaders.totNormalStress)], [Header(DataHeaders.totShearStress)]))
  }

  /** All twelve lists have the same length. */
  predicate Lockstep<V>(t: Table<V>) {
    |t.stage| == |t.model| && Uniform(t.cols) && Width(t.cols) == |t.model|
  }

  /** A list that starts with the given sentinel and holds data after it. */
  predicate Headed<T>(col: seq<Entry<T>>, name: string) {
    |col| >= 1 && col[0] == Header(name) &&
    forall i :: 1 <= i < |col| ==> col[i].Data?
  }

  /** A measurement list: headed, and every data entry after the sentinel is a list. */
  predicate ListColumn<V>(col: seq<Entry<Cell<V>>>, name: string) {
    Headed(col, name) && forall i :: 1 <= i < |col| ==> col[i].value.List?
  }

  /** The shape the script keeps its lists in. */
  predicate WellFormed<V>(t: Table<V>) {
    && Lockstep(t)
    && Headed(t.model, ModelHeader)
    && Headed(t.stage, StageHeader)
    && ListColumn(t.cols.x, DataHeaders.x)
    && ListColumn(t.cols.y, DataHeaders.y)
    && ListColumn(t.cols.utot, DataHeaders.utot)
    && ListColumn(t.cols.ux, DataHeaders.ux)
    && ListColumn(t.cols.uy, DataHeaders.uy)
    && ListColumn(t.cols.sigxxe, DataHeaders.sigxxe)
    && ListColumn(t.cols.sigyye, DataHeaders.sigyye)
    && ListColumn(t.cols.effNormalStress, DataHeaders.effNormalStress)
    && ListColumn(t.cols.totNormalStress, DataHeaders.totNormalStress)
    && ListColumn(t.cols.totShearStress, DataHeaders.totShearStress)
  }

  /** The append block of one handled phase: one entry per list, taken as a whole. */
  function Append<V>(t: Table<V>, path: FilePath, stageLabel: string, s: Columns<seq<V>>): (r: Table<V>)
    ensures Lockstep(t) ==> Lockstep(r) && |r.model| == |t.model| + 1
    ensures WellFormed(t) ==> WellFormed(r)
  {
    Table(t.model + [Data(path)], t.stage + [Data(stageLabel)],
          Columns(t.cols.x + [Data(List(s.x))], t.cols.y + [Data(List(s.y))],
                  t.cols.utot + [Data(List(s.utot))], t.cols.ux + [Data(List(s.ux))],
                  t.cols.uy + [Data(List(s.uy))], t.cols.sigxxe + [Data(List(s.sigxxe))],
                  t.cols.sigyye + [Data(List(s.sigyye))],
                  t.cols.effNormalStress + [Data(List(s.effNormalStress))],
                  t.cols.totNormalStress + [Data(List(s.totNormalStress))],
                  t.cols.totShearStress + [Data(List(s.totShearStress))]))
  }

  /** The phase loop of one opened file; the first failing phase ends it. */
  function ProcessPhases<V>(t: Table<V>, path: FilePath, phases: seq<PhaseQuery<V>>): (r: Table<V>)
    ensures WellFormed(t) ==> WellFormed(r)
    ensures Lockstep(t) ==> Lockstep(r) && |r.model| == |t.model| + |Completed(phases)|
    decreases |phases|
  {
    if phases == [] then t
    else match phases[0]
      case QueryFailed => t
      case Answered(id, s) => ProcessPhases(Append(t, path, Label(id), s), path, phases[1..])
  }

  /** The guarded body for one discovered file. */
  function ProcessFile<V>(t: Table<V>, path: FilePath, outcome: FileOutcome<V>): (r: Table<V>)
    ensures WellFormed(t) ==> WellFormed(r)
    ensures Lockstep(t) ==> |r.model| == |t.model| + |Contribution(path, outcome)|
  {
    match outcome
    case SetupFailed => t
    case Opened(phases) => ProcessPhases(t, path, phases)
  }

  /** The walk loop: every file is checked by name and processed when selected. */
  function RunFrom<V>(t: Table<V>, walk: seq<FilePath>, oracle: FilePath -> FileOutcome<V>): (r: Table<V>)
    ensures WellFormed(t) ==> WellFormed(r)
    decreases |walk|
  {
    if walk == [] then t
    else
      var t' := if IsModelFile(walk[0].name) then ProcessFile(t, walk[0], oracle(walk[0])) else t;
      RunFrom(t', walk[1..], oracle)
  }

  /** The column lists after the whole walk. */
  function Run<V>(walk: seq<FilePath>, oracle: FilePath -> FileOutcome<V>): (r: Table<V>)
    ensures WellFormed(r)
    ensures |r.model| == 1 + |Reference(Discover(walk), oracle)|
  {
    RunRows(walk, oracle);
    RunFrom(Seed(), walk, oracle)
  }

  /** One row of the table built from the lists. */
  datatype FrameRow<V> = FrameRow(model: Entry<FilePath>, stage: Entry<string>, cells: Columns<Entry<Cell<V>>>)

  /** The table built from the twelve lists: row i holds entry i of each. */
  function Frame<V>(t: Table<V>): (r: seq<FrameRow<V>>)
    requires Lockstep(t)
  {
    seq(|t.model|, i requires 0 <= i < |t.model| => FrameRow(t.model[i], t.stage[i], At(t.cols, i)))
  }

  /** All rows but the first. */
  function DropHeader<V>(f: seq<FrameRow<V>>): seq<FrameRow<V>> {
    if f == [] then [] else f[1..]
  }

  /** A row none of whose twelve cells is a sentinel. */
  predicate IsDataRow<V>(r: FrameRow<V>) {
    && r.model.Data? && r.stage.Data?
    && r.cells.x.Data? && r.cells.y.Data? && r.cells.utot.Data?
    && r.cells.ux.Data? && r.cells.uy.Data? && r.cells.sigxxe.Data?
    && r.cells.sigyye.Data? && r.cells.effNormalStress.Data?
    && r.cells.totNormalStress.Data? && r.cells.totShearStress.Data?
  }

  /** A row all of whose cells are the sentinels. */
  predicate IsHeaderRow<V>(r: FrameRow<V>) {
    && r.model == Header(ModelHeader) && r.stage == Header(StageHeader)
    && r.cells.x == Header(DataHeaders.x) && r.cells.y == Header(DataHeaders.y)
    && r.cells.utot == Header(DataHeaders.utot) && r.cells.ux == Header(DataHeaders.ux)
    && r.cells.uy == Header(DataHeaders.uy) && r.cells.sigxxe == Header(DataHeaders.sigxxe)
    && r.cells.sigyye == Header(DataHeaders.sigyye)
    && r.cells.effNormalStress == Header(DataHeaders.effNormalStress)
    && r.cells.totNormalStress == Header(DataHeaders.totNormalStress)
    && r.cells.totShearStress == Header(DataHeaders.totShearStress)
  }

  /** The sentinels form exactly the first row of the table, and dropping
      it leaves only data rows, one per appended phase. */
  lemma HeaderExcluded<V>(t: Table<V>)
    requires WellFormed(t)
    ensures IsHeaderRow(Frame(t)[0])
    ensures |DropHeader(Frame(t))| == |t.model| - 1
    ensures forall r | r in DropHeader(Frame(t)) :: IsDataRow(r)
  {
  }

  /** The scalar-to-list step: a list is kept, any other value becomes a
      one-element list. */
  function Wrap<V>(c: Cell<V>): (r: seq<V>)
    ensures c.Atom? ==> r == [c.atom]
    ensures c.List? ==> r == c.items
  {
    match c
    case Atom(a) => [a]
    case List(items) => items
  }

  /** A data row with every measurement cell wrapped, read as a wide row. */
  function ToWide<V>(r: FrameRow<V>): WideRow<V>
    requires IsDataRow(r)
  {
    WideRow(r.model.value, r.stage.value,
            Columns(Wrap(r.cells.x.value), Wrap(r.cells.y.value), Wrap(r.cells.utot.value),
                    Wrap(r.cells.ux.value), Wrap(r.cells.uy.value), Wrap(r.cells.sigxxe.value),
                    Wrap(r.cells.sigyye.value), Wrap(r.cells.effNormalStress.value),
                    Wrap(r.cells.totNormalStress.value), Wrap(r.cells.totShearStress.value)))
  }

  /** The wide table after the header drop and the wrapping. */
  function WideRows<V>(t: Table<V>): seq<WideRow<V>>
    requires WellFormed(t)
  {
    HeaderExcluded(t);
    var d := DropHeader(Frame(t));
    seq(|d|, i requires 0 <= i < |d| => ToWide(d[i]))
  }

  /** A data row whose ten measurement cells all hold lists. */
  predicate ListRow<V>(r: FrameRow<V>) {
    && IsDataRow(r)
    && r.cells.x.value.List? && r.cells.y.value.List? && r.cells.utot.value.List?
    && r.cells.ux.value.List? && r.cells.uy.value.List? && r.cells.sigxxe.value.List?
    && r.cells.sigyye.value.List? && r.cells.effNormalStress.value.List?
    && r.cells.totNormalStress.value.List? && r.cells.totShearStress.value.List?
  }

  /** On the lists the script builds, the wrapping changes nothing: every
      data cell already is a list, and its items pass through unchanged. */
  lemma WrapIsIdentity<V>(t: Table<V>)
    requires WellFormed(t)
    ensures forall r | r in DropHeader(Frame(t)) ::
              ListRow(r) &&
              ToWide(r) == WideRow(r.model.value, r.stage.value,
                Columns(r.cells.x.value.items, r.cells.y.value.items, r.cells.utot.value.items,
                        r.cells.ux.value.items, r.cells.uy.value.items, r.cells.sigxxe.value.items,
                        r.cells.sigyye.value.items, r.cells.effNormalStress.value.items,
                        r.cells.totNormalStress.value.items, r.cells.totShearStress.value.items))
  {
  }

  /** The sentinel-only lists hold no data row. */
  lemma SeedRows<V>()
    ensures WellFormed(Seed<V>())
    ensures WideRows(Seed<V>()) == []
  {
  }

  /** Appending one phase's entries adds exactly that phase's row at the end
      of the wide table and leaves the earlier rows as they were. */
  lemma AppendRows<V>(t: Table<V>, path: FilePath, stageLabel: string, s: Columns<seq<V>>)
    requires WellFormed(t)
    ensures WideRows(Append(t, path, stageLabel, s)) == WideRows(t) + [WideRow(path, stageLabel, s)]
  {
  }

  /** The lists after the append blocks of the given rows, one after another. */
  function AppendAll<V>(t: Table<V>, rows: seq<WideRow<V>>): (r: Table<V>)
    ensures Lockstep(t) ==> Lockstep(r) && |r.model| == |t.model| + |rows|
    ensures WellFormed(t) ==> WellFormed(r)
    decreases |rows|
  {
    if rows == [] then t
    else AppendAll(Append(t, rows[0].path, rows[0].stage, rows[0].series), rows[1..])
  }

  /** Appending two runs of rows is appending their concatenation. */
  lemma {:induction false} AppendAllConcat<V>(t: Table<V>, a: seq<WideRow<V>>, b: seq<WideRow<V>>)
    ensures AppendAll(t, a + b) == AppendAll(AppendAll(t, a), b)
    decreases |a|
  {
    if a == [] {
      assert a + b == b;
    } else {
      assert (a + b)[0] == a[0] && (a + b)[1..] == a[1..] + b;
      AppendAllConcat(Append(t, a[0].path, a[0].stage, a[0].series), a[1..], b);
    }
  }

  /** The phase loop of one file performs the append blocks of the file's
      completed phases, in phase order, and no other. */
  lemma {:induction false} ProcessPhasesAppends<V>(t: Table<V>, path: FilePath, phases: seq<PhaseQuery<V>>)
    ensures ProcessPhases(t, path, phases) == AppendAll(t, PhaseRows(path, Completed(phases)))
    decreases |phases|
  {
    if phases == [] || phases[0].QueryFailed? {
      assert Completed(phases) == [];
    } else {
      var ph := phases[0];
      ProcessPhasesAppends(Append(t, path, Label(ph.id), ph.series), path, phases[1..]);
      assert Completed(phases) == [ph] + Completed(phases[1..]);
      var rows := PhaseRows(path, Completed(phases));
      assert rows[0] == WideRow(path, Label(ph.id), ph.series);
      assert rows[1..] == PhaseRows(path, Completed(phases[1..]));
    }
  }

  /** The guarded body of one file performs exactly the append blocks of the
      file's contribution: none when its set-up fails. */
  lemma ProcessFileAppends<V>(t: Table<V>, path: FilePath, outcome: FileOutcome<V>)
    ensures ProcessFile(t, path, outcome) == AppendAll(t, Contribution(path, outcome))
  {
    match outcome
    case SetupFailed =>
    case Opened(phases) => ProcessPhasesAppends(t, path, phases);
  }

  /** The walk loop performs the append blocks of the selected files'
      contributions, files in walk order. */
  lemma {:induction false} RunFromAppends<V>(t: Table<V>, walk: seq<FilePath>, oracle: FilePath -> FileOutcome<V>)
    ensures RunFrom(t, walk, oracle) == AppendAll(t, Reference(Discover(walk), oracle))
    decreases |walk|
  {
    if walk != [] {
      var f, rest := walk[0], walk[1..];
      var after := Reference(Discover(rest), oracle);
      if IsModelFile(f.name) {
        var mine := Contribution(f, oracle(f));
        ProcessFileAppends(t, f, oracle(f));
        RunFromAppends(AppendAll(t, mine), rest, oracle);
        AppendAllConcat(t, mine, after);
        var paths := Discover(walk);
        assert paths == [f] + Discover(rest);
        assert paths[0] == f && paths[1..] == Discover(rest);
        assert Reference(paths, oracle) == mine + after;
      } else {
        RunFromAppends(t, rest, oracle);
        assert Discover(walk) == Discover(rest);
      }
    }
  }

  /** Appending rows to well-formed lists extends the wide table by exactly
      those rows. */
  lemma {:induction false} AppendAllRows<V>(t: Table<V>, rows: seq<WideRow<V>>)
    requires WellFormed(t)
    ensures WideRows(AppendAll(t, rows)) == WideRows(t) + rows
    decreases |rows|
  {
    if rows != [] {
      var w := rows[0];
      var t' := Append(t, w.path, w.stage, w.series);
      AppendRows(t, w.path, w.stage, w.series);
      AppendAllRows(t', rows[1..]);
      SnocThenRest(WideRows(t), rows);
    }
  }

  /** The wide table of the whole run holds exactly the rows of the selected
      files' contributions, files in walk order and phases in reader order;
      in particular a file whose set-up failed contributes nothing and a file
      whose k-th phase failed keeps its first k phases. */
  lemma RunRows<V>(walk: seq<FilePath>, oracle: FilePath -> FileOutcome<V>)
    ensures WellFormed(RunFrom(Seed(), walk, oracle))
    ensures WideRows(RunFrom(Seed(), walk, oracle)) == Reference(Discover(walk), oracle)
    ensures |RunFrom(Seed(), walk, oracle).model| == 1 + |Reference(Discover(walk), oracle)|
  {
    SeedRows<V>();
    RunFromAppends(Seed(), walk, oracle);
    AppendAllRows(Seed(), Reference(Discover(walk), oracle));
  }
}
