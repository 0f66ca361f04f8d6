/** Facts about sequences and sets that several models share. */
module Collections {
  function OneIf(b: bool): nat {
    if b then 1 else 0
  }

  ghost predicate Distinct<T>(s: seq<T>) {
    forall i, j :: 0 <= i < j < |s| ==> s[i] != s[j]
  }

  // ---- Subsequences ----

  /** `f` embeds `t` in `s`: positions strictly increase. */
  ghost predicate Embeds<T>(t: seq<T>, s: seq<T>, f: seq<nat>) {
    && |f| == |t|
    && (forall i :: 0 <= i < |f| ==> f[i] < |s| && s[f[i]] == t[i])
    && (forall i, j :: 0 <= i < j < |f| ==> f[i] < f[j])
  }

  ghost predicate IsSubsequence<T>(t: seq<T>, s: seq<T>) {
    exists f :: Embeds(t, s, f)
  }

  lemma SubsequenceGrows<T>(t: seq<T>, s: seq<T>, x: T)
    requires IsSubsequence(t, s)
    ensures IsSubsequence(t, s + [x]) && IsSubsequence(t + [x], s + [x])
  {
    var f: seq<nat> :| Embeds(t, s, f);
    assert Embeds(t, s + [x], f);
    assert Embeds(t + [x], s + [x], f + [|s|]);
  }

  // ---- Sizes of sets ----

  lemma {:induction false} SubsetSize<T>(a: set<T>, b: set<T>)
    requires a <= b
    ensures |a| <= |b|
  {
    assert b == a + (b - a) && a !! (b - a);
  }

  lemma SameSizeSubset<T>(a: set<T>, b: set<T>)
    requires a <= b && |a| == |b|
    ensures a == b
  {
    assert b == a + (b - a) && a !! (b - a);
    assert |b - a| == 0;
  }
}
