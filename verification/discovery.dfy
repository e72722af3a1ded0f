/** Which files of the directory walk are treated as PLAXIS 2D models.

    The walk itself is an input: a sequence of (directory, file name) pairs in
    the order the directory walk yields them. A pair is a model when its file
    name ends with the model extension and does not end with "data.p2dx".
 */
module Discovery {

  /** A file found by the walk: the directory it was found in and its name.
      Joining the two into one path string is left to the operating system. */
  datatype FilePath = FilePath(dir: string, name: string)

  const ModelExtension: string := ".p2dx"
  const ExcludedSuffix: string := "data.p2dx"

  /** Python's `str.endswith`: the last |suffix| characters of s are suffix. */
  predicate EndsWith(s: string, suffix: string) {
    |suffix| <= |s| && s[|s| - |suffix|..] == suffix
  }

  /** The selection rule applied to every file name of the walk. */
  predicate IsModelFile(name: string) {
    EndsWith(name, ModelExtension) && !EndsWith(name, ExcludedSuffix)
  }

  /** A string ends with t exactly when it is some string followed by t. */
  lemma EndsWithIffConcat(s: string, t: string)
    ensures EndsWith(s, t) <==> exists p :: s == p + t
  {
    if EndsWith(s, t) {
      var p := s[..|s| - |t|];
      assert s == p + t;
    }
    if exists p :: s == p + t {
      var p :| s == p + t;
      assert s[|s| - |t|..] == t;
    }
  }

  /** A name of the form stem + ".p2dx" is selected exactly when the stem
      does not end with "data": "model.p2dx" is kept while "model_data.p2dx",
      "data.p2dx" and "metadata.p2dx" are not. */
  lemma SelectedIff(stem: string)
    ensures IsModelFile(stem + ModelExtension) <==> !EndsWith(stem, "data")
  {
  }

  /** A name without the model extension is never selected. */
  lemma OtherExtensionsRejected(name: string)
    requires !EndsWith(name, ModelExtension)
    ensures !IsModelFile(name)
  {
  }

  /** The rule on four representative names and on an upper-case variant. */
  lemma SelectionExamples()
    ensures IsModelFile("model.p2dx")
    ensures !IsModelFile("model_data.p2dx")
    ensures !IsModelFile("data.p2dx")
    ensures !IsModelFile("metadata.p2dx")
    ensures !IsModelFile("model.P2DX")
  {
    SelectedIff("model");
    SelectedIff("model_data");
    SelectedIff("data");
    SelectedIff("metadata");
    assert "model.P2DX"[10 - 5..] != ModelExtension;
  }

  /** The files of the walk that are processed, in walk order. */
  function Discover(walk: seq<FilePath>): (r: seq<FilePath>)
    ensures forall f :: f in r <==> f in walk && IsModelFile(f.name)
    ensures |r| <= |walk|
  {
    if walk == [] then []
    else (if IsModelFile(walk[0].name) then [walk[0]] else []) + Discover(walk[1..])
  }

  /** Discovery keeps walk order: the files selected from a walk split in two
      are those selected from the first part followed by those from the second. */
  lemma {:induction false} DiscoverAppend(a: seq<FilePath>, b: seq<FilePath>)
    ensures Discover(a + b) == Discover(a) + Discover(b)
    decreases |a|
  {
    if a == [] {
      assert a + b == b;
    } else {
      assert (a + b)[0] == a[0];
      assert (a + b)[1..] == a[1..] + b;
      DiscoverAppend(a[1..], b);
    }
  }
}
