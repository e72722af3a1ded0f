/** Facts about sequences shared by the other modules. */
module Seqs {

  /** Concatenation is associative; stated once so that proofs can use it
      in a small context. */
  lemma ConcatAssoc<T>(a: seq<T>, b: seq<T>, c: seq<T>)
    ensures (a + b) + c == a + (b + c)
  {
  }

  /** Putting the first element of rows after x, then the rest of rows, is
      putting all of rows after x. */
  lemma SnocThenRest<T>(x: seq<T>, rows: seq<T>)
    requires rows != []
    ensures (x + [rows[0]]) + rows[1..] == x + rows
  {
    assert [rows[0]] + rows[1..] == rows;
    ConcatAssoc(x, [rows[0]], rows[1..]);
  }
}
