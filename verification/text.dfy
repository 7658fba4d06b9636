/** Strings: splitting and joining, the byte order that sort.Strings uses, and sorting. */
module Text {

  // ---------------------------------------------------------------- splitting and joining

  function Split(s: string, c: char): (r: seq<string>)
    ensures |r| > 0
  {
    if s == [] then [[]]
    else
      var r := Split(s[1..], c);
      if s[0] == c then [[]] + r else [[s[0]] + r[0]] + r[1..]
  }

  function Join(parts: seq<string>, c: char): string {
    if |parts| == 0 then []
    else if |parts| == 1 then parts[0]
    else parts[0] + [c] + Join(parts[1..], c)
  }

  function Occurrences(s: string, c: char): nat {
    if s == [] then 0 else (if s[0] == c then 1 else 0) + Occurrences(s[1..], c)
  }

  lemma {:induction false} JoinSplit(s: string, c: char)
    ensures Join(Split(s, c), c) == s
  {
    if s != [] {
      JoinSplit(s[1..], c);
      var r := Split(s[1..], c);
      if s[0] == c {
        assert Split(s, c)[1..] == r;
        assert [c] + s[1..] == s;
      } else {
        assert ([[s[0]] + r[0]] + r[1..])[1..] == r[1..];
        assert [s[0]] + s[1..] == s;
      }
    }
  }

  lemma {:induction false} SplitMeaning(s: string, c: char)
    ensures |Split(s, c)| == Occurrences(s, c) + 1
    ensures forall p :: p in Split(s, c) ==> c !in p
    ensures forall p, x :: p in Split(s, c) && x in p ==> x in s
  {
    if s != [] {
      SplitMeaning(s[1..], c);
    }
  }

  lemma {:induction false} SplitPrefix(p: string, rest: string, c: char)
    requires c !in p
    ensures Split(p + [c] + rest, c) == [p] + Split(rest, c)
    ensures Split(p, c) == [p]
  {
    if p == [] {
      assert p + [c] + rest == [c] + rest;
      assert ([c] + rest)[1..] == rest;
    } else {
      SplitPrefix(p[1..], rest, c);
      assert (p + [c] + rest)[1..] == p[1..] + [c] + rest;
      assert [p[0]] + p[1..] == p;
    }
  }

  lemma {:induction false} SplitJoin(parts: seq<string>, c: char)
    requires |parts| > 0 && forall p :: p in parts ==> c !in p
    ensures Split(Join(parts, c), c) == parts
  {
    if |parts| == 1 {
      SplitPrefix(parts[0], [], c);
    } else {
      SplitJoin(parts[1..], c);
      SplitPrefix(parts[0], Join(parts[1..], c), c);
      assert [parts[0]] + parts[1..] == parts;
    }
  }

  // ---------------------------------------------------------------- characters

  const SMALL_LETTERS := {
    'a', 'b', 'c', 'd', 'e', 'f', 'g', 'h', 'i', 'j', 'k', 'l', 'm',
    'n', 'o', 'p', 'q', 'r', 's', 't', 'u', 'v', 'w', 'x', 'y', 'z'}

  const CAPITAL_LETTERS := {
    'A', 'B', 'C', 'D', 'E', 'F', 'G', 'H', 'I', 'J', 'K', 'L', 'M',
    'N', 'O', 'P', 'Q', 'R', 'S', 'T', 'U', 'V', 'W', 'X', 'Y', 'Z'}

  const DECIMAL_DIGITS := {'0', '1', '2', '3', '4', '5', '6', '7', '8', '9'}

  /** The ranges in which characters are compared hold the letters and digits one expects. */
  lemma Ranges(ch: char)
    ensures 'a' <= ch <= 'z' <==> ch in SMALL_LETTERS
    ensures 'A' <= ch <= 'Z' <==> ch in CAPITAL_LETTERS
    ensures '0' <= ch <= '9' <==> ch in DECIMAL_DIGITS
  {
  }

  // ---------------------------------------------------------------- order

  /** Lexicographic order, character by character, a proper prefix coming first. */
  predicate Below(a: string, b: string) {
    b != [] && (a == [] || a[0] < b[0] || (a[0] == b[0] && Below(a[1..], b[1..])))
  }

  /** That is: a is a proper prefix of b, or smaller at the first place where they differ. */
  lemma {:induction false} BelowMeans(a: string, b: string)
    ensures Below(a, b)
       <==> || (|a| < |b| && b[..|a|] == a)
            || exists k :: 0 <= k < |a| && k < |b| && a[..k] == b[..k] && a[k] < b[k]
  {
    if a != [] && b != [] && a[0] == b[0] {
      BelowMeans(a[1..], b[1..]);
      LongerBy(a, b);
    }
  }

  lemma SliceOfRest(a: string, k: nat)
    requires 0 < k <= |a|
    ensures a[1..][..k - 1] == a[..k][1..] && a[..k] == [a[0]] + a[1..][..k - 1]
  {
  }

  lemma LongerBy(a: string, b: string)
    requires a != [] && b != [] && a[0] == b[0]
    ensures |a| < |b| && b[..|a|] == a <==> |a[1..]| < |b[1..]| && b[1..][..|a[1..]|] == a[1..]
    ensures (exists k :: 0 <= k < |a| && k < |b| && a[..k] == b[..k] && a[k] < b[k])
       <==> exists k :: 0 <= k < |a[1..]| && k < |b[1..]| && a[1..][..k] == b[1..][..k] && a[1..][k] < b[1..][k]
  {
    if k :| 0 <= k < |a| && k < |b| && a[..k] == b[..k] && a[k] < b[k] {
      SliceOfRest(a, k);
      SliceOfRest(b, k);
      assert a[1..][k - 1] < b[1..][k - 1];
    }
    if k :| 0 <= k < |a[1..]| && k < |b[1..]| && a[1..][..k] == b[1..][..k] && a[1..][k] < b[1..][k] {
      SliceOfRest(a, k + 1);
      SliceOfRest(b, k + 1);
      assert a[k + 1] < b[k + 1];
    }
    if |a| < |b| {
      SliceOfRest(a, |a|);
      SliceOfRest(b, |a|);
      assert a[..|a|] == a && a[1..][..|a| - 1] == a[1..];
    }
  }

  predicate AtMost(a: string, b: string) {
    a == b || Below(a, b)
  }

  lemma {:induction false} BelowIrreflexive(a: string)
    ensures !Below(a, a)
  {
    if a != [] {
      BelowIrreflexive(a[1..]);
    }
  }

  lemma {:induction false} BelowTransitive(a: string, b: string, c: string)
    requires Below(a, b) && Below(b, c)
    ensures Below(a, c)
  {
    if a != [] && a[0] == b[0] && b[0] == c[0] {
      BelowTransitive(a[1..], b[1..], c[1..]);
    }
  }

  lemma {:induction false} BelowAsymmetric(a: string, b: string)
    ensures !(Below(a, b) && Below(b, a))
  {
    if a != [] && b != [] && a[0] == b[0] {
      BelowAsymmetric(a[1..], b[1..]);
    }
  }

  lemma {:induction false} BelowTotal(a: string, b: string)
    ensures a == b || Below(a, b) || Below(b, a)
  {
    if a != [] && b != [] && a[0] == b[0] {
      BelowTotal(a[1..], b[1..]);
      assert a == [a[0]] + a[1..] && b == [b[0]] + b[1..];
    }
  }

  lemma {:induction false} BelowAfterPrefix(p: string, a: string, b: string)
    ensures Below(p + a, p + b) <==> Below(a, b)
  {
    if p == [] {
      assert p + a == a && p + b == b;
    } else {
      BelowAfterPrefix(p[1..], a, b);
      assert (p + a)[1..] == p[1..] + a && (p + b)[1..] == p[1..] + b;
    }
  }

  ghost predicate Ascending(names: seq<string>) {
    forall i, k :: 0 <= i < k < |names| ==> Below(names[i], names[k])
  }

  function ToSet(names: seq<string>): set<string> {
    set n | n in names
  }

  lemma HasMember(names: seq<string>)
    requires names != []
    ensures ToSet(names) != {}
  {
    assert names[0] in ToSet(names);
  }

  /** A set has only one ascending listing. */
  lemma {:induction false} AscendingUnique(a: seq<string>, b: seq<string>)
    requires Ascending(a) && Ascending(b) && ToSet(a) == ToSet(b)
    ensures a == b
    decreases |a|
  {
    if a == [] {
      if b != [] {
        HasMember(b);
      }
    } else {
      assert a[0] in ToSet(a);
      assert a[0] in b;
      assert b[0] in ToSet(b);
      assert b[0] in a;
      var i :| 0 <= i < |b| && b[i] == a[0];
      var k :| 0 <= k < |a| && a[k] == b[0];
      BelowAsymmetric(a[0], b[0]);
      assert a[0] == b[0];
      forall n | n in ToSet(a[1..]) || n in ToSet(b[1..])
        ensures n in ToSet(a[1..]) && n in ToSet(b[1..])
      {
        TailHas(a, b, n);
        TailHas(b, a, n);
      }
      AscendingUnique(a[1..], b[1..]);
      assert a == [a[0]] + a[1..] && b == [b[0]] + b[1..];
    }
  }

  lemma TailHas(a: seq<string>, b: seq<string>, n: string)
    requires a != [] && b != [] && a[0] == b[0] && Ascending(a) && ToSet(a) == ToSet(b)
    ensures n in ToSet(a[1..]) ==> n in ToSet(b[1..])
  {
    if n in ToSet(a[1..]) {
      var i :| 0 < i < |a| && a[i] == n;
      assert n in ToSet(a);
      assert n in b;
      var k :| 0 <= k < |b| && b[k] == n;
      BelowIrreflexive(n);
      assert k > 0 && b[1..][k - 1] == n;
    }
  }

  // ---------------------------------------------------------------- sorting a set of names

  function Insert(n: string, sorted: seq<string>): seq<string> {
    if sorted == [] then [n]
    else if AtMost(n, sorted[0]) then [n] + sorted
    else [sorted[0]] + Insert(n, sorted[1..])
  }

  /** What sort.Strings does to a slice. */
  function SortStrings(names: seq<string>): seq<string> {
    if names == [] then [] else Insert(names[0], SortStrings(names[1..]))
  }

  predicate NoRepeats(names: seq<string>) {
    forall i, k :: 0 <= i < k < |names| ==> names[i] != names[k]
  }

  lemma InFront(n: string, sorted: seq<string>)
    requires Ascending(sorted) && sorted != [] && Below(n, sorted[0])
    ensures Ascending([n] + sorted) && ToSet([n] + sorted) == ToSet(sorted) + {n}
  {
    hide Below;
    forall k | 0 < k < |sorted|
      ensures Below(n, sorted[k])
    {
      BelowTransitive(n, sorted[0], sorted[k]);
    }
  }

  lemma Behind(first: string, rest: seq<string>)
    requires Ascending(rest) && forall n :: n in ToSet(rest) ==> Below(first, n)
    ensures Ascending([first] + rest) && ToSet([first] + rest) == ToSet(rest) + {first}
  {
    hide Below;
    forall k | 0 <= k < |rest|
      ensures Below(first, rest[k])
    {
      assert rest[k] in ToSet(rest);
    }
  }

  lemma FirstAndRest(sorted: seq<string>)
    requires Ascending(sorted) && sorted != []
    ensures Ascending(sorted[1..]) && ToSet(sorted) == ToSet(sorted[1..]) + {sorted[0]}
    ensures forall n :: n in ToSet(sorted[1..]) ==> Below(sorted[0], n)
  {
    hide Below;
    assert sorted == [sorted[0]] + sorted[1..];
  }

  lemma {:induction false} InsertMeaning(n: string, sorted: seq<string>)
    requires Ascending(sorted) && n !in sorted
    ensures Ascending(Insert(n, sorted)) && ToSet(Insert(n, sorted)) == ToSet(sorted) + {n}
    ensures |Insert(n, sorted)| == |sorted| + 1
  {
    if sorted != [] {
      hide Below, Ascending, ToSet;
      if AtMost(n, sorted[0]) {
        InFront(n, sorted);
      } else {
        BelowTotal(n, sorted[0]);
        FirstAndRest(sorted);
        InsertMeaning(n, sorted[1..]);
        Behind(sorted[0], Insert(n, sorted[1..]));
      }
    }
  }

  /** Sorting names that do not repeat lists each of them once, in ascending order. */
  lemma {:induction false} SortMeaning(names: seq<string>)
    requires NoRepeats(names)
    ensures Ascending(SortStrings(names)) && ToSet(SortStrings(names)) == ToSet(names)
    ensures |SortStrings(names)| == |names|
  {
    if names != [] {
      SortMeaning(names[1..]);
      var rest := SortStrings(names[1..]);
      assert forall n :: n in rest ==> n in ToSet(rest);
      InsertMeaning(names[0], rest);
      assert names == [names[0]] + names[1..];
    }
  }

  // ---------------------------------------------------------------- the sorted listing of a set

  lemma {:induction false} SortedExists(names: set<string>)
    ensures exists q :: Ascending(q) && ToSet(q) == names
  {
    var q := ListOf(names);
    SortMeaning(q);
    assert Ascending(SortStrings(q));
  }

  lemma {:induction false} ListOf(names: set<string>) returns (q: seq<string>)
    ensures NoRepeats(q) && ToSet(q) == names
  {
    if names == {} {
      q := [];
    } else {
      var n :| n in names;
      var rest := ListOf(names - {n});
      assert n !in ToSet(rest);
      q := rest + [n];
      assert ToSet(q) == ToSet(rest) + {n};
    }
  }

  ghost function InOrder(names: set<string>): (q: seq<string>)
    ensures Ascending(q) && ToSet(q) == names && |q| == |names|
  {
    SortedExists(names);
    var q :| Ascending(q) && ToSet(q) == names;
    AscendingSize(q);
    q
  }

  lemma {:induction false} AscendingSize(q: seq<string>)
    requires Ascending(q)
    ensures |ToSet(q)| == |q|
  {
    if q != [] {
      var n := |q| - 1;
      AscendingSize(q[..n]);
      BelowIrreflexive(q[n]);
      assert ToSet(q) == ToSet(q[..n]) + {q[n]};
      assert forall i :: 0 <= i < n ==> q[i] != q[n];
    }
  }
}
