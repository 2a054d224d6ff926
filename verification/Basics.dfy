/** Result types shared by all the models. */
module Basics {
  datatype Option<+T> = None | Some(value: T)

  datatype Result<+T, +E> = Ok(value: T) | Err(error: E)

  function Min(a: nat, b: nat): nat {
    if a <= b then a else b
  }

  lemma AppendedLast<T>(a: seq<T>, b: seq<T>)
    requires b != []
    ensures (a + b)[..|a + b| - 1] == a + b[..|b| - 1]
    ensures (a + b)[|a + b| - 1] == b[|b| - 1]
  {
  }

  lemma SplitFirst<T>(a: seq<T>, b: seq<T>)
    requires a != []
    ensures a + b != [] && (a + b)[0] == a[0] && (a + b)[1..] == a[1..] + b
  {
  }

  lemma SplitLast<T>(a: seq<T>, b: seq<T>)
    requires b != []
    ensures a + b == (a + b[..|b| - 1]) + [b[|b| - 1]]
  {
  }

  lemma LastAgain<T>(s: seq<T>)
    requires s != []
    ensures s[..|s| - 1] + [s[|s| - 1]] == s
  {
  }

  lemma OneMoreTaken<T>(s: seq<T>, n: nat)
    requires n < |s|
    ensures s[..n] + [s[n]] == s[..n + 1]
  {
  }

  lemma FirstAgain<T>(s: seq<T>)
    requires s != []
    ensures [s[0]] + s[1..] == s
  {
  }

  lemma NothingMore<T>(s: seq<T>)
    ensures s + [] == s
  {
  }

  lemma TakeOfSum<T>(a: seq<T>, b: seq<T>)
    ensures (a + b)[..|a|] == a
  {
  }

  lemma NothingBefore<T>(s: seq<T>)
    ensures [] + s == s
  {
  }

  lemma Regroup<T>(a: seq<T>, b: seq<T>, c: seq<T>)
    ensures (a + b) + c == a + (b + c)
  {
  }

  // ---------- Selections ----------

  /** f picks, in order, one position of b for each element of a. */
  ghost predicate Embeds<T>(f: seq<nat>, a: seq<T>, b: seq<T>) {
    && |f| == |a|
    && (forall i :: 0 <= i < |f| ==> f[i] < |b| && b[f[i]] == a[i])
    && (forall i, j :: 0 <= i < j < |f| ==> f[i] < f[j])
  }

  function Shifted(f: seq<nat>, d: nat): (r: seq<nat>)
    ensures |r| == |f| && forall i :: 0 <= i < |f| ==> r[i] == f[i] + d
  {
    seq(|f|, i requires 0 <= i < |f| => f[i] + d)
  }

  lemma InShifted(f: seq<nat>, d: nat, k: nat)
    ensures k in Shifted(f, d) <==> d <= k && k - d in f
  {
    if d <= k && k - d in f {
      var i :| 0 <= i < |f| && f[i] == k - d;
      assert Shifted(f, d)[i] == k;
    }
  }

  /** Positions in a + c when f picks positions of a and g positions of c. */
  function Joined(f: seq<nat>, d: nat, g: seq<nat>): seq<nat> {
    f + Shifted(g, d)
  }

  lemma EmbedsJoined<T>(f: seq<nat>, a: seq<T>, b: seq<T>, g: seq<nat>, c: seq<T>, d: seq<T>)
    requires Embeds(f, a, b) && Embeds(g, c, d)
    ensures Embeds(Joined(f, |b|, g), a + c, b + d)
  {
  }

  lemma InJoined(f: seq<nat>, d: nat, g: seq<nat>, k: nat)
    requires forall i :: 0 <= i < |f| ==> f[i] < d
    ensures k in Joined(f, d, g) <==> if k < d then k in f else k - d in g
  {
    InShifted(g, d, k);
  }

  /** g lists, in order, the positions of exactly the elements that p holds of. */
  ghost predicate Positions<T>(g: seq<nat>, s: seq<T>, p: T -> bool) {
    && (forall i, j :: 0 <= i < j < |g| ==> g[i] < g[j])
    && (forall k :: 0 <= k < |g| ==> g[k] < |s|)
    && (forall i :: 0 <= i < |s| ==> (i in g <==> p(s[i])))
  }

  lemma PositionsJoined<T>(g: seq<nat>, s: seq<T>, g': seq<nat>, s': seq<T>, p: T -> bool)
    requires Positions(g, s, p) && Positions(g', s', p)
    ensures Positions(Joined(g, |s|, g'), s + s', p)
  {
    forall i: nat | i < |s + s'|
      ensures i in Joined(g, |s|, g') <==> p((s + s')[i])
    {
      InJoined(g, |s|, g', i);
    }
  }

  lemma OnePosition<T>(x: T, p: T -> bool)
    ensures Positions(if p(x) then [0] else [], [x], p)
  {
    assert [0][0] == 0;
  }
}
