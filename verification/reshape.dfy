/** The multi-column explode of the ten measurement columns.

    Each wide row's ten series are zipped position by position into one long
    row per sample point, tagged with the row's model path and stage label;
    the long rows of the wide rows follow one another in wide-row order. The
    ten series of a row are taken to have one common, positive length.
 */
module Reshape {
  import opened Discovery
  import opened Quantities
  import opened Extraction
  import opened Seqs

  /** One row of the exported table: one sample point of one phase of one model. */
  datatype LongRow<V> = LongRow(path: FilePath, stage: string, sample: Columns<V>)

  /** A wide row the explode handles: ten series of one common, positive length. */
  predicate Explodable<V>(s: Columns<seq<V>>) {
    Uniform(s) && Width(s) > 0
  }

  /** The positional zip of the ten series: one sample point per position. */
  function Zip<V>(s: Columns<seq<V>>): (r: seq<Columns<V>>)
    requires Uniform(s)
    ensures |r| == Width(s)
    ensures forall i :: 0 <= i < |r| ==> r[i] == At(s, i)
    decreases Width(s)
  {
    if Width(s) == 0 then [] else [At(s, 0)] + Zip(Tails(s))
  }

  /** Each sample point tagged with a model path and a stage label. */
  function Tag<V>(path: FilePath, stage: string, samples: seq<Columns<V>>): (r: seq<LongRow<V>>)
    ensures |r| == |samples|
    ensures forall i :: 0 <= i < |r| ==> r[i] == LongRow(path, stage, samples[i])
  {
    if samples == [] then [] else [LongRow(path, stage, samples[0])] + Tag(path, stage, samples[1..])
  }

  /** The long rows of one wide row: as many as it has sample points, row i
      carrying element i of every series (a zip, not a product). */
  function ExplodeRow<V>(w: WideRow<V>): (r: seq<LongRow<V>>)
    requires Explodable(w.series)
    ensures |r| == Width(w.series)
    ensures forall i :: 0 <= i < |r| ==> r[i] == LongRow(w.path, w.stage, At(w.series, i))
  {
    Tag(w.path, w.stage, Zip(w.series))
  }

  /** Total number of sample points of the wide rows. */
  function TotalWidth<V>(rows: seq<WideRow<V>>): nat {
    if rows == [] then 0 else Width(rows[0].series) + TotalWidth(rows[1..])
  }

  predicate AllExplodable<V>(rows: seq<WideRow<V>>) {
    forall k :: 0 <= k < |rows| ==> Explodable(rows[k].series)
  }

  /** The exploded table: the long rows of every wide row, in wide-row order. */
  function Explode<V>(rows: seq<WideRow<V>>): (r: seq<LongRow<V>>)
    requires AllExplodable(rows)
    ensures |r| == TotalWidth(rows)
  {
    if rows == [] then [] else ExplodeRow(rows[0]) + Explode(rows[1..])
  }

  /** Every long row carries the model path and stage label of some wide row. */
  lemma {:induction false} ExplodeProvenance<V>(rows: seq<WideRow<V>>)
    requires AllExplodable(rows)
    ensures forall l | l in Explode(rows) :: exists w | w in rows :: l.path == w.path && l.stage == w.stage
  {
    if rows != [] {
      ExplodeProvenance(rows[1..]);
      var head, tail := ExplodeRow(rows[0]), Explode(rows[1..]);
      assert Explode(rows) == head + tail;
      forall l | l in Explode(rows)
        ensures exists w | w in rows :: l.path == w.path && l.stage == w.stage
      {
        if l in head {
          var i :| 0 <= i < |head| && head[i] == l;
          assert rows[0] in rows;
        } else {
          assert l in tail;
          var w :| w in rows[1..] && l.path == w.path && l.stage == w.stage;
          assert w in rows;
        }
      }
    }
  }

  lemma {:induction false} TotalWidthAppend<V>(a: seq<WideRow<V>>, b: seq<WideRow<V>>)
    ensures TotalWidth(a + b) == TotalWidth(a) + TotalWidth(b)
    decreases |a|
  {
    if a == [] {
      assert a + b == b;
    } else {
      assert (a + b)[0] == a[0] && (a + b)[1..] == a[1..] + b;
      TotalWidthAppend(a[1..], b);
    }
  }

  lemma AllExplodableAppend<V>(a: seq<WideRow<V>>, b: seq<WideRow<V>>)
    requires AllExplodable(a) && AllExplodable(b)
    ensures AllExplodable(a + b)
  {
    forall k | 0 <= k < |a + b| ensures Explodable((a + b)[k].series) {
      if k < |a| {
        assert (a + b)[k] == a[k];
      } else {
        assert (a + b)[k] == b[k - |a|];
      }
    }
  }

  lemma AllExplodableTail<V>(rows: seq<WideRow<V>>)
    requires AllExplodable(rows) && rows != []
    ensures AllExplodable(rows[1..])
  {
    forall k | 0 <= k < |rows| - 1 ensures Explodable(rows[1..][k].series) {
      assert rows[1..][k] == rows[k + 1];
    }
  }

  /** The explode of a non-empty table is its first row's long rows followed
      by the explode of the rest. */
  lemma ExplodeCons<V>(rows: seq<WideRow<V>>)
    requires AllExplodable(rows) && rows != []
    ensures AllExplodable(rows[1..])
    ensures Explode(rows) == ExplodeRow(rows[0]) + Explode(rows[1..])
  {
    AllExplodableTail(rows);
  }

  /** Explode distributes over concatenation of wide tables. */
  lemma {:induction false} ExplodeAppend<V>(a: seq<WideRow<V>>, b: seq<WideRow<V>>)
    requires AllExplodable(a) && AllExplodable(b)
    ensures AllExplodable(a + b)
    ensures Explode(a + b) == Explode(a) + Explode(b)
    decreases |a|
  {
    AllExplodableAppend(a, b);
    if a == [] {
      assert a + b == b;
    } else {
      var ab := a + b;
      assert ab[0] == a[0] && ab[1..] == a[1..] + b;
      ExplodeCons(ab);
      ExplodeCons(a);
      ExplodeAppend(a[1..], b);
      ConcatAssoc(ExplodeRow(a[0]), Explode(a[1..]), Explode(b));
    }
  }

  /** The alignment law over the whole table: long row TotalWidth(rows[..j]) + i
      is sample point i of wide row j. So the long rows come grouped by wide
      row, in wide-row order, and within a group in sample order. */
  lemma {:induction false} ExplodeAt<V>(rows: seq<WideRow<V>>, j: nat, i: nat)
    requires AllExplodable(rows)
    requires j < |rows| && i < Width(rows[j].series)
    ensures TotalWidth(rows[..j]) + i < |Explode(rows)|
    ensures Explode(rows)[TotalWidth(rows[..j]) + i]
         == LongRow(rows[j].path, rows[j].stage, At(rows[j].series, i))
    decreases j
  {
    var head, tail := ExplodeRow(rows[0]), Explode(rows[1..]);
    assert Explode(rows) == head + tail;
    if j == 0 {
      assert rows[..0] == [];
    } else {
      var rest := rows[1..];
      AllExplodableTail(rows);
      ExplodeAt(rest, j - 1, i);
      assert rest[j - 1] == rows[j];
      assert rows[..j][1..] == rest[..j - 1];
      assert TotalWidth(rows[..j]) == |head| + TotalWidth(rest[..j - 1]);
    }
  }
}
