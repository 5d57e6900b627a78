/** The optional value and the facts about sequences that several modules use. */
module Sequences {
  datatype Option<T> = None | Some(value: T)

  /** No element occurs twice. */
  ghost predicate Distinct<T>(s: seq<T>) {
    forall i, j :: 0 <= i < j < |s| ==> s[i] != s[j]
  }

  lemma SplitUnique<T>(a: seq<T>, b: seq<T>, c: seq<T>, d: seq<T>)
    requires a + b == c + d && |a| == |c|
    ensures a == c && b == d
  {
    assert a == (a + b)[..|a|] && b == (a + b)[|a|..];
    assert c == (c + d)[..|c|] && d == (c + d)[|c|..];
  }

  lemma Assoc<T>(a: seq<T>, b: seq<T>, c: seq<T>)
    ensures (a + b) + c == a + (b + c)
  {
  }

  lemma TakeMore<T>(s: seq<T>, i: nat, n: nat)
    requires i + n <= |s|
    ensures s[..i] + s[i..i + n] == s[..i + n]
  {
  }

  lemma DropOne<T>(s: seq<T>, i: nat)
    requires i < |s|
    ensures s[i..] == [s[i]] + s[i + 1..] && s[i..][1..] == s[i + 1..]
  {
  }

  /** `xs` is `ys` with some elements left out: order kept, nothing repeated. */
  ghost predicate Subseq<T>(xs: seq<T>, ys: seq<T>)
    decreases |ys|
  {
    if ys == [] then xs == []
    else
      var n := |ys| - 1;
      Subseq(xs, ys[..n]) || (xs != [] && xs[|xs| - 1] == ys[n] && Subseq(xs[..|xs| - 1], ys[..n]))
  }

  lemma SubseqSnoc<T>(xs: seq<T>, ys: seq<T>, a: T)
    requires Subseq(xs, ys)
    ensures Subseq(xs, ys + [a]) && Subseq(xs + [a], ys + [a])
  {
    assert (ys + [a])[..|ys|] == ys && (xs + [a])[..|xs|] == xs;
  }

  /** Leaving out one more element leaves a subsequence. */
  lemma {:induction false} SubseqDrop<T>(xs: seq<T>, c: T, zs: seq<T>, ys: seq<T>)
    requires Subseq(xs + [c] + zs, ys)
    ensures Subseq(xs + zs, ys)
    decreases |ys|
  {
    var all, n := xs + [c] + zs, |ys| - 1;
    if ys != [] {
      if Subseq(all, ys[..n]) {
        SubseqDrop(xs, c, zs, ys[..n]);
      } else if zs == [] {
        assert all[..|all| - 1] == xs && xs + zs == xs;
      } else {
        var init := zs[..|zs| - 1];
        assert all[..|all| - 1] == xs + [c] + init;
        SubseqDrop(xs, c, init, ys[..n]);
        assert (xs + zs)[..|xs + zs| - 1] == xs + init;
      }
    }
  }

  /** Leaving out a whole tail. */
  lemma {:induction false} SubseqPrefix<T>(xs: seq<T>, zs: seq<T>, ys: seq<T>)
    requires Subseq(xs + zs, ys)
    ensures Subseq(xs, ys)
    decreases |zs|
  {
    if zs == [] {
      assert xs + zs == xs;
    } else {
      assert xs + zs == xs + [zs[0]] + zs[1..];
      SubseqDrop(xs, zs[0], zs[1..], ys);
      SubseqPrefix(xs, zs[1..], ys);
    }
  }

  /** What is in a subsequence is in the sequence. */
  lemma {:induction false} SubseqIn<T>(xs: seq<T>, ys: seq<T>, a: T)
    requires Subseq(xs, ys) && a in xs
    ensures a in ys
    decreases |ys|
  {
    var n := |ys| - 1;
    if !Subseq(xs, ys[..n]) {
      var m := |xs| - 1;
      if a != xs[m] {
        assert a in xs[..m];
        SubseqIn(xs[..m], ys[..n], a);
      }
    } else {
      SubseqIn(xs, ys[..n], a);
    }
  }
}
