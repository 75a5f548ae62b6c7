/** Small facts about text shared by the display, naming and path modules. */
module Text {
  /** The position of the first `c` in `s`, or `|s|` when there is none. */
  function FirstIndexOf(s: string, c: char): (k: nat)
    ensures k <= |s|
    ensures forall i :: 0 <= i < k ==> s[i] != c
    ensures k < |s| ==> s[k] == c
  {
    if |s| == 0 || s[0] == c then 0 else 1 + FirstIndexOf(s[1..], c)
  }

  /** A position before which `c` does not occur and at which it does (or the end) is the first index. */
  lemma FirstIndexOfAt(s: string, c: char, k: nat)
    requires k <= |s|
    requires forall i :: 0 <= i < k ==> s[i] != c
    requires k < |s| ==> s[k] == c
    ensures FirstIndexOf(s, c) == k
  {
  }

  /** Two texts that agree, each cut at a marker character that the first parts lack, agree on the first parts. */
  lemma SplitAtMarker(a1: string, b1: string, a2: string, b2: string, m: char)
    requires forall i :: 0 <= i < |a1| ==> a1[i] != m
    requires forall i :: 0 <= i < |a2| ==> a2[i] != m
    requires a1 + [m] + b1 == a2 + [m] + b2
    ensures a1 == a2
  {
    var w := a1 + [m] + b1;
    assert w[|a1|] == m;
    assert (a2 + [m] + b2)[|a2|] == m;
    assert forall i :: 0 <= i < |a1| ==> w[i] == a1[i];
    assert forall i :: 0 <= i < |a2| ==> w[i] == a2[i];
    assert |a1| == |a2|;
    assert a1 == w[..|a1|];
    assert a2 == (a2 + [m] + b2)[..|a2|];
  }

  /** A common prefix can be dropped from both sides. */
  lemma DropPrefix(p: string, x: string, y: string)
    requires p + x == p + y
    ensures x == y
  {
    assert x == (p + x)[|p|..];
    assert y == (p + y)[|p|..];
  }
}
