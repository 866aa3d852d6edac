/** Facts about concatenating and cutting sequences. */
module Sequences {

  lemma Associative<T>(a: seq<T>, b: seq<T>, c: seq<T>)
    ensures a + (b + c) == a + b + c
  {
  }

  lemma CutTail<T>(head: seq<T>, tail: seq<T>, n: nat)
    requires n <= |tail|
    ensures (head + tail)[..|head| + n] == head + tail[..n]
  {
  }

  lemma SlicesJoin<T>(s: seq<T>, a: nat, b: nat, c: nat)
    requires a <= b <= c <= |s|
    ensures s[a..b] + s[b..c] == s[a..c]
  {
  }

  function Map<A, B>(f: A -> B, s: seq<A>): (r: seq<B>)
    ensures |r| == |s|
  {
    if s == [] then [] else [f(s[0])] + Map(f, s[1..])
  }

  lemma MapCons<A, B>(f: A -> seq<B>, s: seq<A>)
    requires s != []
    ensures Flatten(Map(f, s)) == f(s[0]) + Flatten(Map(f, s[1..]))
  {
    assert Map(f, s)[1..] == Map(f, s[1..]);
  }

  lemma {:induction false} MapTake<A, B>(f: A -> B, s: seq<A>, k: nat)
    requires k <= |s|
    ensures Map(f, s)[..k] == Map(f, s[..k])
    ensures k < |s| ==> Map(f, s)[k] == f(s[k])
  {
    if k > 0 {
      MapTake(f, s[1..], k - 1);
      assert s[..k][1..] == s[1..][..k - 1];
    }
  }

  // ---------------------------------------------------------------------------
  // A sequence sent in pieces and cut anywhere
  // ---------------------------------------------------------------------------

  function Flatten<T>(pieces: seq<seq<T>>): seq<T> {
    if pieces == [] then [] else pieces[0] + Flatten(pieces[1..])
  }

  /** How many pieces lie wholly inside the first `received` elements. */
  function WholePieces<T>(pieces: seq<seq<T>>, received: nat): (k: nat)
    ensures k <= |pieces|
  {
    if pieces == [] || received < |pieces[0]| then 0
    else 1 + WholePieces(pieces[1..], received - |pieces[0]|)
  }

  /** What arrived is the whole pieces and a proper part of the next one. */
  lemma {:induction false} Locate<T>(pieces: seq<seq<T>>, received: nat)
    requires received <= |Flatten(pieces)|
    ensures var k := WholePieces(pieces, received);
            var left := received - |Flatten(pieces[..k])|;
            if k == |pieces| then Flatten(pieces)[..received] == Flatten(pieces)
            else 0 <= left < |pieces[k]|
                 && Flatten(pieces)[..received] == Flatten(pieces[..k]) + pieces[k][..left]
  {
    if pieces == [] {
    } else if received < |pieces[0]| {
      assert pieces[..0] == [];
    } else {
      var head, rest := pieces[0], pieces[1..];
      var left := received - |head|;
      var k := WholePieces(rest, left);
      Locate(rest, left);
      CutTail(head, Flatten(rest), left);
      assert pieces[..k + 1][0] == head && pieces[..k + 1][1..] == rest[..k];
      if k < |rest| {
        Associative(head, Flatten(rest[..k]), rest[k][..left - |Flatten(rest[..k])|]);
      }
    }
  }

  // ---------------------------------------------------------------------------
  // Filtering
  // ---------------------------------------------------------------------------

  function Filter<T>(p: T -> bool, s: seq<T>): (r: seq<T>)
    ensures |r| <= |s| && forall e :: e in r ==> e in s && p(e)
  {
    if s == [] then [] else (if p(s[0]) then [s[0]] else []) + Filter(p, s[1..])
  }

  lemma {:induction false} FilterConcat<T>(p: T -> bool, a: seq<T>, b: seq<T>)
    ensures Filter(p, a + b) == Filter(p, a) + Filter(p, b)
  {
    if a == [] {
      assert a + b == b;
    } else {
      assert (a + b)[0] == a[0] && (a + b)[1..] == a[1..] + b;
      FilterConcat(p, a[1..], b);
    }
  }

  lemma FilterCons<T>(p: T -> bool, e: T, s: seq<T>)
    ensures Filter(p, [e] + s) == (if p(e) then [e] else []) + Filter(p, s)
  {
    assert ([e] + s)[1..] == s;
  }

  lemma {:induction false} FilterMember<T>(p: T -> bool, s: seq<T>, e: T)
    ensures e in Filter(p, s) <==> e in s && p(e)
  {
    if s != [] {
      FilterMember(p, s[1..], e);
    }
  }

  /** Filtering by `p` and then by `q` is filtering by both. */
  lemma {:induction false} FilterTwice<T>(p: T -> bool, q: T -> bool, both: T -> bool, s: seq<T>)
    requires forall e :: e in s ==> both(e) == (p(e) && q(e))
    ensures Filter(q, Filter(p, s)) == Filter(both, s)
  {
    if s != [] {
      FilterTwice(p, q, both, s[1..]);
      assert s[0] in s;
      if p(s[0]) {
        FilterCons(q, s[0], Filter(p, s[1..]));
      } else {
        assert Filter(p, s) == Filter(p, s[1..]);
      }
    }
  }

  /** Four filters of which exactly one accepts each accepted element split the filtered sequence. */
  lemma {:induction false} FilterSplits<T>(all: T -> bool, a: T -> bool, b: T -> bool, c: T -> bool, d: T -> bool,
                                           s: seq<T>)
    requires forall e :: e in s ==>
               (if all(e) then 1 else 0)
               == (if a(e) then 1 else 0) + (if b(e) then 1 else 0) + (if c(e) then 1 else 0) + (if d(e) then 1 else 0)
    ensures multiset(Filter(all, s))
         == multiset(Filter(a, s)) + multiset(Filter(b, s)) + multiset(Filter(c, s)) + multiset(Filter(d, s))
  {
    if s != [] {
      assert s[0] in s;
      FilterSplits(all, a, b, c, d, s[1..]);
    }
  }
}
