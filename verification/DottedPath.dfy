/** Keys joined by dots, as in flattened payload paths and route paths. */
module DottedPath {

  predicate NoDot(s: string) {
    '.' !in s
  }

  function DotIn(s: string, from: nat := 0): (k: nat)
    requires from <= |s|
    ensures from <= k <= |s|
    ensures '.' !in s[from..k]
    ensures k < |s| ==> s[k] == '.'
    decreases |s| - from
  {
    if from == |s| || s[from] == '.' then from else DotIn(s, from + 1)
  }

  /** `path.split(".")`. */
  function Split(path: string): (segs: seq<string>)
    ensures segs != []
    ensures forall i :: 0 <= i < |segs| ==> NoDot(segs[i])
    ensures path != "" && path[0] != '.' ==> segs[0] != ""
    decreases |path|
  {
    var k := DotIn(path);
    assert path[0..k] == path[..k];
    if k == |path| then [path] else [path[..k]] + Split(path[k + 1..])
  }

  function Suffix(segs: seq<string>): string {
    if segs == [] then "" else "." + segs[0] + Suffix(segs[1..])
  }

  function Dotted(segs: seq<string>): string
    requires segs != []
  {
    segs[0] + Suffix(segs[1..])
  }

  lemma {:induction false} DotInIs(s: string, k: nat, from: nat)
    requires from <= k < |s| && s[k] == '.' && forall i :: from <= i < k ==> s[i] != '.'
    ensures DotIn(s, from) == k
    decreases k - from
  {
    if from < k {
      DotInIs(s, k, from + 1);
    }
  }

  lemma {:induction false} NoDotIn(s: string)
    requires NoDot(s)
    ensures Split(s) == [s]
  {
  }

  /** The last segment of a path is what follows its last dot, or all of it. */
  lemma {:induction false} LastSegment(prefix: string, leaf: string)
    requires NoDot(leaf)
    ensures Split(prefix + "." + leaf)[|Split(prefix + "." + leaf)| - 1] == leaf
    ensures Split(leaf) == [leaf]
    decreases |prefix|
  {
    var path, k := prefix + "." + leaf, DotIn(prefix);
    NoDotIn(leaf);
    assert path[|prefix|] == '.';
    if k == |prefix| {
      DotInIs(path, |prefix|, 0);
      assert path[|prefix| + 1..] == leaf;
    } else {
      DotInIs(path, k, 0);
      LastSegment(prefix[k + 1..], leaf);
      assert path[k + 1..] == prefix[k + 1..] + "." + leaf;
    }
  }

  /** Splitting undoes joining, so joining dot-free keys with dots is injective. */
  lemma {:induction false} SplitDotted(segs: seq<string>)
    requires segs != [] && forall i :: 0 <= i < |segs| ==> NoDot(segs[i])
    ensures Split(Dotted(segs)) == segs
    decreases |segs|
  {
    var s := Dotted(segs);
    if |segs| == 1 {
      assert s == segs[0];
      NoDotIn(s);
    } else {
      var rest := segs[1..];
      assert Suffix(rest) == "." + Dotted(rest);
      var k := |segs[0]|;
      assert s == segs[0] + "." + Dotted(rest);
      DotInIs(s, k, 0);
      assert s[..k] == segs[0] && s[k + 1..] == Dotted(rest);
      SplitDotted(rest);
    }
  }
}
