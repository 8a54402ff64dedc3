/** Shared value types. */
module Common {
  datatype Option<+T> = None | Some(value: T)

  function OrElse<T>(first: Option<T>, second: Option<T>): Option<T> {
    if first.Some? then first else second
  }

  function Min(a: int, b: int): int { if a < b then a else b }

  function Max(a: int, b: int): int { if a < b then b else a }

  const I64_MAX: int := 9_223_372_036_854_775_807
  const I64_MIN: int := -9_223_372_036_854_775_808
  const I32_MAX: int := 2_147_483_647
}

/** Searching and trimming text. */
module Text {
  /** Position of the first `c`, or the length. */
  function Find(s: string, c: char): (i: nat)
    ensures i <= |s| && (i < |s| ==> s[i] == c) && forall j :: 0 <= j < i ==> s[j] != c
  {
    if s == "" || s[0] == c then 0 else 1 + Find(s[1..], c)
  }

  lemma FindFirst(s: string, i: nat, c: char)
    requires i <= |s| && (i < |s| ==> s[i] == c) && forall j :: 0 <= j < i ==> s[j] != c
    ensures Find(s, c) == i
  {
  }

  predicate Blank(c: char) { c == ' ' || 9 as char <= c <= 13 as char }

  function TrimStart(s: string): (r: string)
    ensures |r| <= |s|
  {
    if s != "" && Blank(s[0]) then TrimStart(s[1..]) else s
  }

  function Trim(s: string): string { TrimEnd(TrimStart(s)) }

  function TrimEnd(s: string): string {
    if s != "" && Blank(s[|s| - 1]) then TrimEnd(s[..|s| - 1]) else s
  }
}

/** Sequences compared as multisets, and mapped element by element. */
module Sequences {
  function Mapped<S, T>(s: seq<S>, f: S -> T): seq<T> {
    if s == [] then [] else Mapped(s[..|s| - 1], f) + [f(s[|s| - 1])]
  }

  lemma MappedSnoc<S, T>(s: seq<S>, x: S, f: S -> T)
    ensures Mapped(s + [x], f) == Mapped(s, f) + [f(x)]
  {
    assert (s + [x])[..|s|] == s;
  }

  lemma {:induction false} MappedAt<S, T>(s: seq<S>, f: S -> T)
    ensures |Mapped(s, f)| == |s| && forall i :: 0 <= i < |s| ==> Mapped(s, f)[i] == f(s[i])
  {
    if s == [] {
    } else {
      MappedAt(s[..|s| - 1], f);
    }
  }

  lemma {:induction false} MappedConcat<S, T>(s: seq<S>, t: seq<S>, f: S -> T)
    ensures Mapped(s + t, f) == Mapped(s, f) + Mapped(t, f)
  {
    if t == [] {
      assert s + t == s;
    } else {
      var n := |t| - 1;
      MappedConcat(s, t[..n], f);
      MappedSnoc(s + t[..n], t[n], f);
      MappedSnoc(t[..n], t[n], f);
      assert s + t == (s + t[..n]) + [t[n]] && t == t[..n] + [t[n]];
    }
  }

  lemma Rejoined<T>(s: seq<T>, i: nat)
    requires i < |s|
    ensures s == s[..i] + [s[i]] + s[i + 1..]
  {
  }

  /** Taking the last element of one arrangement out of another. */
  lemma TakeOut<T>(a: seq<T>, b: seq<T>) returns (i: nat)
    requires a != [] && multiset(a) == multiset(b)
    ensures i < |b| && b[i] == a[|a| - 1]
    ensures b == (b[..i] + [b[i]]) + b[i + 1..]
    ensures multiset(a[..|a| - 1]) == multiset(b[..i] + b[i + 1..])
  {
    var n, x := |a| - 1, a[|a| - 1];
    assert a == a[..n] + [x];
    assert x in multiset(b);
    i :| 0 <= i < |b| && b[i] == x;
    assert b == (b[..i] + [x]) + b[i + 1..];
    assert multiset(a[..n]) == multiset(a) - multiset{x};
    assert multiset(b[..i] + b[i + 1..]) == multiset(b) - multiset{x};
  }
}

/** The total order in which provider events supersede each other: creation
    time first, then event identifier compared character by character. */
module EventOrder {
  import opened Common

  predicate StringLess(a: string, b: string) {
    if b == [] then false
    else if a == [] then true
    else if a[0] != b[0] then a[0] < b[0]
    else StringLess(a[1..], b[1..])
  }

  lemma {:induction false} StringTransitive(a: string, b: string, c: string)
    requires StringLess(a, b) && StringLess(b, c)
    ensures StringLess(a, c)
  {
    if a != [] && a[0] == b[0] && b[0] == c[0] {
      StringTransitive(a[1..], b[1..], c[1..]);
    }
  }

  lemma {:induction false} StringTrichotomy(a: string, b: string)
    ensures StringLess(a, b) || a == b || StringLess(b, a)
    ensures !(StringLess(a, b) && StringLess(b, a))
    ensures a == b ==> !StringLess(a, b)
  {
    if a != [] && b != [] {
      if a[0] == b[0] {
        StringTrichotomy(a[1..], b[1..]);
        assert a == [a[0]] + a[1..] && b == [b[0]] + b[1..];
      }
    }
  }

  /** Position of a provider event in the order. */
  datatype Stamp = Stamp(created: int, id: string)

  predicate Before(a: Stamp, b: Stamp) {
    a.created < b.created || (a.created == b.created && StringLess(a.id, b.id))
  }

  lemma BeforeTransitive(a: Stamp, b: Stamp, c: Stamp)
    requires Before(a, b) && Before(b, c)
    ensures Before(a, c)
  {
    if a.created == b.created == c.created {
      StringTransitive(a.id, b.id, c.id);
    }
  }

  lemma BeforeTotal(a: Stamp, b: Stamp)
    ensures Before(a, b) || a == b || Before(b, a)
    ensures !(Before(a, b) && Before(b, a))
    ensures a == b ==> !Before(a, b)
  {
    StringTrichotomy(a.id, b.id);
  }

  /** Something that happened at a stamp. */
  datatype Stamped<T> = Stamped(at: Stamp, what: T)

  /** The last writer of a history: a later or equal stamp replaces the current winner. */
  function Latest<T>(history: seq<Stamped<T>>): Option<Stamped<T>> {
    if history == [] then None
    else
      var n := |history| - 1;
      var winner := Latest(history[..n]);
      if winner.Some? && Before(history[n].at, winner.value.at) then winner else Some(history[n])
  }

  ghost predicate OneBodyPerStamp<T(!new)>(history: seq<Stamped<T>>) {
    forall x, y :: x in history && y in history && x.at == y.at ==> x == y
  }

  ghost predicate SameMembers<T(!new)>(a: seq<Stamped<T>>, b: seq<Stamped<T>>) {
    forall x :: x in a <==> x in b
  }

  lemma {:induction false} LatestDominates<T>(history: seq<Stamped<T>>)
    requires history != []
    ensures Latest(history).Some? && Latest(history).value in history
    ensures forall x :: x in history ==> x.at == Latest(history).value.at || Before(x.at, Latest(history).value.at)
  {
    var n := |history| - 1;
    var last := history[n];
    if n == 0 {
    } else {
      LatestDominates(history[..n]);
      var prior := Latest(history[..n]).value;
      BeforeTotal(last.at, prior.at);
      forall x | x in history
        ensures x.at == Latest(history).value.at || Before(x.at, Latest(history).value.at)
      {
        assert x in history[..n] || x == last;
        if x in history[..n] && Latest(history).value == last && x.at != prior.at && prior.at != last.at {
          BeforeTransitive(x.at, prior.at, last.at);
        }
      }
    }
  }

  /** Hearing an already heard event again does not change the winner. */
  lemma LatestRepeat<T(!new)>(history: seq<Stamped<T>>, again: Stamped<T>)
    requires again in history && OneBodyPerStamp(history)
    ensures Latest(history + [again]) == Latest(history)
  {
    LatestDominates(history);
    assert (history + [again])[..|history|] == history;
  }

  /** The last writer depends on which events happened, not on the order they were heard in. */
  lemma LatestIgnoresOrder<T(!new)>(a: seq<Stamped<T>>, b: seq<Stamped<T>>)
    requires SameMembers(a, b) && OneBodyPerStamp(a)
    ensures Latest(a) == Latest(b)
  {
    assert |a| > 0 ==> a[0] in b;
    assert |b| > 0 ==> b[0] in a;
    if a != [] {
      LatestDominates(a);
      LatestDominates(b);
      BeforeTotal(Latest(a).value.at, Latest(b).value.at);
    }
  }
}
