/** Finding a JSON Web Token in an Authorization header and splitting it
    (rinser/auth.go:73-97, jwt/jwt.go:38-48). */
module Token {
  import opened Basics
  import opened Text

  // ---------------------------------------------------------------- the matcher

  /** The characters of a base64url segment, and the full stop. */
  datatype Class = Base64Url | FullStop

  predicate In(c: Class, ch: char) {
    match c
    case Base64Url => 'a' <= ch <= 'z' || 'A' <= ch <= 'Z' || '0' <= ch <= '9' || ch == '_' || ch == '-'
    case FullStop => ch == '.'
  }

  /** The alphabet of section 5 of RFC 4648, letter by letter. */
  lemma ClassMeans(ch: char)
    ensures In(Base64Url, ch)
       <==> ch in CAPITAL_LETTERS + SMALL_LETTERS + DECIMAL_DIGITS + {'-', '_'}
    ensures In(FullStop, ch) <==> ch == '.'
  {
    Ranges(ch);
  }

  datatype Regexp = One(c: Class) | Plus(c: Class) | Cat(first: Regexp, second: Regexp)

  /** [\w\-\_]+\.[\w\-\_]+\.[\w\-\_]+ */
  const TOKEN := Cat(Plus(Base64Url), Cat(One(FullStop), Cat(Plus(Base64Url), Cat(One(FullStop), Plus(Base64Url)))))

  /** Where a match that begins at i may end, in order of preference: a greedy plus prefers
      the longest, and what comes first in the pattern decides first. */
  function Ends(re: Regexp, s: string, i: nat): (ends: seq<nat>)
    requires i <= |s|
    ensures forall k :: 0 <= k < |ends| ==> i < ends[k] <= |s|
    decreases re, |s| - i
  {
    match re
    case One(c) => if i < |s| && In(c, s[i]) then [i + 1] else []
    case Plus(c) => if i < |s| && In(c, s[i]) then Ends(re, s, i + 1) + [i + 1] else []
    case Cat(first, second) => AllEnds(second, s, i, Ends(first, s, i))
  }

  /** The ends of matches that begin at one of `starts`, all of them at `lo` or after. */
  function AllEnds(re: Regexp, s: string, lo: nat, starts: seq<nat>): (ends: seq<nat>)
    requires forall k :: 0 <= k < |starts| ==> lo <= starts[k] <= |s|
    ensures forall k :: 0 <= k < |ends| ==> lo < ends[k] <= |s|
    decreases re, |s| + 1, |starts|
  {
    if starts == [] then [] else Ends(re, s, starts[0]) + AllEnds(re, s, lo, starts[1..])
  }

  /** FindString: the leftmost match, and of those the preferred one. */
  function FindFrom(re: Regexp, s: string, i: nat): Option<(nat, nat)>
    requires i <= |s|
    decreases |s| - i
  {
    if Ends(re, s, i) != [] then Some((i, Ends(re, s, i)[0]))
    else if i == |s| then None
    else FindFrom(re, s, i + 1)
  }

  function FindString(re: Regexp, s: string): string {
    match FindFrom(re, s, 0)
    case None => []
    case Some((i, j)) => if i <= j <= |s| then s[i..j] else []
  }

  datatype TokenError = NoTokenInHeader | InvalidForm

  datatype Found = Found(token: string) | Failed(error: TokenError)

  /** `auth` is the value of the header, empty when there is none. */
  function GetJWTFromHeader(auth: string): Found {
    if auth == "" then Failed(NoTokenInHeader)
    else
      var token := FindString(TOKEN, auth);
      if token == "" then Failed(InvalidForm) else Found(token)
  }

  datatype Segments = Segments(header: string, payload: string, signature: string) | Malformed

  function ExtractHeaderPayloadSignature(jwt: string): Segments {
    var parts := Split(jwt, '.');
    if |parts| != 3 then Malformed else Segments(parts[0], parts[1], parts[2])
  }

  // ---------------------------------------------------------------- what a match is

  predicate Run(s: string, i: nat, j: nat) {
    i < j <= |s| && forall k :: i <= k < j ==> In(Base64Url, s[k])
  }

  /** Three runs of base64url characters, none empty, joined by full stops. */
  predicate TokenAt(s: string, i: nat, a: nat, b: nat, j: nat) {
    && Run(s, i, a) && a < |s| && s[a] == '.'
    && Run(s, a + 1, b) && b < |s| && s[b] == '.'
    && Run(s, b + 1, j)
  }

  function RunEnd(s: string, i: nat): (e: nat)
    requires i <= |s|
    ensures i <= e <= |s|
    ensures i < e ==> Run(s, i, e)
    ensures e < |s| ==> !In(Base64Url, s[e])
    decreases |s| - i
  {
    if i < |s| && In(Base64Url, s[i]) then RunEnd(s, i + 1) else i
  }

  lemma RunEndIsLast(s: string, i: nat, j: nat)
    requires Run(s, i, j)
    ensures j <= RunEnd(s, i)
    ensures j < |s| && s[j] == '.' ==> j == RunEnd(s, i)
  {
  }

  lemma {:induction false} PlusEnds(s: string, i: nat)
    requires i <= |s|
    ensures var ends := Ends(Plus(Base64Url), s, i);
            if RunEnd(s, i) == i then ends == [] else ends != [] && ends[0] == RunEnd(s, i)
    decreases |s| - i
  {
    if i < |s| && In(Base64Url, s[i]) {
      PlusEnds(s, i + 1);
    }
  }

  lemma PlusUnfolds(s: string, i: nat)
    requires i <= |s|
    ensures Ends(Plus(Base64Url), s, i)
            == if RunEnd(s, i) > i then Ends(Plus(Base64Url), s, i + 1) + [i + 1] else []
    ensures RunEnd(s, i) > i ==> RunEnd(s, i + 1) == RunEnd(s, i)
  {
  }

  /** The ends of re after the run that begins at i and the full stop that follows it. */
  function AfterStop(re: Regexp, s: string, e: nat): seq<nat>
    requires e <= |s|
  {
    if e < |s| && s[e] == '.' then Ends(re, s, e + 1) else []
  }

  /** A run must go on to the next full stop: only its last end can be followed by one. */
  lemma {:induction false} RunThenStop(re: Regexp, s: string, lo: nat, i: nat)
    requires lo <= i <= |s|
    ensures var e := RunEnd(s, i);
            AllEnds(Cat(One(FullStop), re), s, lo, Ends(Plus(Base64Url), s, i))
            == if e > i then AfterStop(re, s, e) else []
    decreases |s| - i
  {
    hide Ends, AllEnds, AfterStop, RunEnd, In;
    PlusUnfolds(s, i);
    if RunEnd(s, i) > i {
      var stop := Cat(One(FullStop), re);
      RunThenStop(re, s, lo, i + 1);
      AllEndsConcat(stop, s, lo, Ends(Plus(Base64Url), s, i + 1), [i + 1]);
      OneEnd(stop, s, lo, i + 1);
      StopEnds(re, s, i + 1);
      NotStopInRun(re, s, i);
    } else {
      NoEnds(Cat(One(FullStop), re), s, lo);
    }
  }

  lemma NoEnds(re: Regexp, s: string, lo: nat)
    ensures AllEnds(re, s, lo, []) == []
  {
  }

  lemma NotStopInRun(re: Regexp, s: string, i: nat)
    requires i < |s| && i < RunEnd(s, i)
    ensures RunEnd(s, i + 1) > i + 1 ==> AfterStop(re, s, i + 1) == []
    ensures RunEnd(s, i + 1) == i + 1 ==> RunEnd(s, i) == i + 1
  {
  }

  lemma OneEnd(re: Regexp, s: string, lo: nat, i: nat)
    requires lo <= i <= |s|
    ensures AllEnds(re, s, lo, [i]) == Ends(re, s, i)
  {
    assert [i][1..] == [];
    assert AllEnds(re, s, lo, []) == [];
  }

  lemma StopEnds(re: Regexp, s: string, i: nat)
    requires i <= |s|
    ensures Ends(Cat(One(FullStop), re), s, i) == AfterStop(re, s, i)
  {
    if i < |s| && s[i] == '.' {
      assert Ends(One(FullStop), s, i) == [i + 1];
      OneEnd(re, s, i, i + 1);
    }
  }

  lemma {:induction false} AllEndsConcat(re: Regexp, s: string, lo: nat, xs: seq<nat>, ys: seq<nat>)
    requires forall k :: 0 <= k < |xs| ==> lo <= xs[k] <= |s|
    requires forall k :: 0 <= k < |ys| ==> lo <= ys[k] <= |s|
    ensures AllEnds(re, s, lo, xs + ys) == AllEnds(re, s, lo, xs) + AllEnds(re, s, lo, ys)
  {
    if xs == [] {
      assert xs + ys == ys;
    } else {
      assert (xs + ys)[1..] == xs[1..] + ys;
      AllEndsConcat(re, s, lo, xs[1..], ys);
    }
  }

  const SECOND := Cat(Plus(Base64Url), Cat(One(FullStop), Plus(Base64Url)))

  lemma SecondEnds(s: string, i: nat)
    requires i <= |s|
    ensures var b := RunEnd(s, i);
            Ends(SECOND, s, i) == if b > i then AfterStop(Plus(Base64Url), s, b) else []
  {
    RunThenStop(Plus(Base64Url), s, i, i);
  }

  lemma FirstEnds(s: string, i: nat)
    requires i <= |s|
    ensures var a := RunEnd(s, i);
            Ends(TOKEN, s, i) == if a > i then AfterStop(SECOND, s, a) else []
  {
    RunThenStop(SECOND, s, i, i);
  }

  /** Where the three runs of a token at i must end. */
  lemma TokenIsRigid(s: string, i: nat, a: nat, b: nat, j: nat)
    requires TokenAt(s, i, a, b, j)
    ensures a == RunEnd(s, i) && b == RunEnd(s, a + 1) && j <= RunEnd(s, b + 1)
  {
    RunEndIsLast(s, i, a);
    RunEndIsLast(s, a + 1, b);
    RunEndIsLast(s, b + 1, j);
  }

  lemma TokenEndsMean(s: string, i: nat)
    requires i <= |s| && Ends(TOKEN, s, i) != []
    ensures var a := RunEnd(s, i);
            && a < |s| && RunEnd(s, a + 1) < |s|
            && var b := RunEnd(s, a + 1);
               TokenAt(s, i, a, b, RunEnd(s, b + 1)) && Ends(TOKEN, s, i)[0] == RunEnd(s, b + 1)
  {
    hide Ends, In;
    FirstEnds(s, i);
    var a := RunEnd(s, i);
    assert Ends(TOKEN, s, i) == Ends(SECOND, s, a + 1);
    SecondEnds(s, a + 1);
    var b := RunEnd(s, a + 1);
    assert Ends(SECOND, s, a + 1) == Ends(Plus(Base64Url), s, b + 1);
    PlusEnds(s, b + 1);
  }

  lemma TokenIsFound(s: string, i: nat, a: nat, b: nat, j: nat)
    requires TokenAt(s, i, a, b, j)
    ensures Ends(TOKEN, s, i) != []
  {
    hide Ends, RunEnd, In;
    TokenInside(s, i, a, b, j);
    TokenIsRigid(s, i, a, b, j);
    hide TokenAt, Run;
    FirstEnds(s, i);
    assert Ends(TOKEN, s, i) == Ends(SECOND, s, a + 1);
    SecondEnds(s, a + 1);
    assert Ends(SECOND, s, a + 1) == Ends(Plus(Base64Url), s, b + 1);
    PlusEnds(s, b + 1);
  }

  lemma {:induction false} FindMeaning(s: string, from: nat)
    requires from <= |s|
    ensures
      match FindFrom(TOKEN, s, from)
      case None => forall i: nat, a: nat, b: nat, j: nat :: from <= i ==> !TokenAt(s, i, a, b, j)
      case Some((i, j)) =>
        && from <= i < j <= |s|
        && (exists a: nat, b: nat :: TokenAt(s, i, a, b, j))
        && (forall x: nat, a: nat, b: nat, y: nat :: from <= x < i ==> !TokenAt(s, x, a, b, y))
        && (forall a: nat, b: nat, y: nat :: TokenAt(s, i, a, b, y) ==> y <= j)
    decreases |s| - from
  {
    hide Ends, In, TokenAt, RunEnd;
    if Ends(TOKEN, s, from) != [] {
      TokenEndsMean(s, from);
      var j := Ends(TOKEN, s, from)[0];
      forall a: nat, b: nat, y: nat | TokenAt(s, from, a, b, y)
        ensures y <= j
      {
        TokenIsRigid(s, from, a, b, y);
      }
    } else {
      forall a: nat, b: nat, j: nat
        ensures !TokenAt(s, from, a, b, j)
      {
        if TokenAt(s, from, a, b, j) {
          TokenIsFound(s, from, a, b, j);
        }
      }
      if from < |s| {
        FindMeaning(s, from + 1);
      } else {
        forall i: nat, a: nat, b: nat, j: nat | TokenAt(s, i, a, b, j)
          ensures i <= from
        {
          TokenInside(s, i, a, b, j);
        }
      }
    }
  }

  lemma TokenInside(s: string, i: nat, a: nat, b: nat, j: nat)
    requires TokenAt(s, i, a, b, j)
    ensures i < a && a + 1 < b && b + 1 < j <= |s| && s[a] == '.' && s[b] == '.'
  {
  }

  // ---------------------------------------------------------------- scan and split agree

  predicate IsSegment(p: string) {
    p != [] && forall k :: 0 <= k < |p| ==> In(Base64Url, p[k])
  }

  /** A token found in a header always splits into three non-empty base64url segments, and
      these, joined by full stops, are the token again. */
  lemma FoundTokenSplits(auth: string)
    requires GetJWTFromHeader(auth).Found?
    ensures
      var token := GetJWTFromHeader(auth).token;
      var parts := ExtractHeaderPayloadSignature(token);
      && parts.Segments?
      && IsSegment(parts.header) && IsSegment(parts.payload) && IsSegment(parts.signature)
      && token == parts.header + "." + parts.payload + "." + parts.signature
  {
    hide FindFrom, ExtractHeaderPayloadSignature;
    FindMeaning(auth, 0);
    var (i, j) := FindFrom(TOKEN, auth, 0).value;
    var a: nat, b: nat :| TokenAt(auth, i, a, b, j);
    SegmentsSplit(auth[i..a], auth[a + 1..b], auth[b + 1..j]);
    TokenInside(auth, i, a, b, j);
    CutAtStop(auth, i, a, j);
    CutAtStop(auth, a + 1, b, j);
    var h, p, g := auth[i..a], auth[a + 1..b], auth[b + 1..j];
    assert h + "." + (p + "." + g) == h + "." + p + "." + g;
  }

  lemma CutAtStop(s: string, i: nat, a: nat, j: nat)
    requires i <= a < j <= |s| && s[a] == '.'
    ensures s[i..j] == s[i..a] + "." + s[a + 1..j]
  {
    assert s[i..j] == s[i..a] + [s[a]] + s[a + 1..j];
  }

  lemma JoinThree(h: string, p: string, g: string)
    ensures Join([h, p, g], '.') == h + "." + p + "." + g
  {
    assert [h, p, g][1..] == [p, g] && [p, g][1..] == [g];
    assert Join([g], '.') == g;
    assert Join([p, g], '.') == p + "." + g;
    assert h + "." + (p + "." + g) == h + "." + p + "." + g;
  }

  lemma SegmentsSplit(h: string, p: string, g: string)
    requires IsSegment(h) && IsSegment(p) && IsSegment(g)
    ensures ExtractHeaderPayloadSignature(h + "." + p + "." + g) == Segments(h, p, g)
  {
    JoinThree(h, p, g);
    SplitJoin([h, p, g], '.');
  }

  /** The header yields a token exactly when three non-empty base64url runs joined by full
      stops stand somewhere in it; an empty header is told apart from one without a token. */
  lemma HeaderMeaning(auth: string)
    ensures GetJWTFromHeader(auth).Found? <==> exists i: nat, a: nat, b: nat, j: nat :: TokenAt(auth, i, a, b, j)
    ensures GetJWTFromHeader(auth) == Failed(NoTokenInHeader) <==> auth == ""
  {
    FindMeaning(auth, 0);
    if FindFrom(TOKEN, auth, 0).Some? {
      var (i, j) := FindFrom(TOKEN, auth, 0).value;
      var a: nat, b: nat :| TokenAt(auth, i, a, b, j);
    }
    forall i: nat, a: nat, b: nat, j: nat | TokenAt(auth, i, a, b, j)
      ensures auth != ""
    {
      TokenInside(auth, i, a, b, j);
    }
  }

  /** The token is the leftmost match and reaches as far as a match from there can. */
  lemma TokenIsLeftmostLongest(auth: string)
    requires GetJWTFromHeader(auth).Found?
    ensures
      exists i: nat, j: nat ::
        && i <= j <= |auth| && GetJWTFromHeader(auth).token == auth[i..j]
        && (exists a: nat, b: nat :: TokenAt(auth, i, a, b, j))
        && (forall x: nat, a: nat, b: nat, y: nat :: TokenAt(auth, x, a, b, y) ==> i <= x && (x == i ==> y <= j))
  {
    FindMeaning(auth, 0);
    var (i, j) := FindFrom(TOKEN, auth, 0).value;
    assert GetJWTFromHeader(auth).token == auth[i..j];
  }

  /** Any string splits into three segments exactly when it has two full stops, and the
      segments always join to it again. */
  lemma SplitterMeaning(jwt: string)
    ensures ExtractHeaderPayloadSignature(jwt).Segments? <==> Occurrences(jwt, '.') == 2
    ensures
      var parts := ExtractHeaderPayloadSignature(jwt);
      parts.Segments? ==> jwt == parts.header + "." + parts.payload + "." + parts.signature
  {
    SplitMeaning(jwt, '.');
    JoinSplit(jwt, '.');
    var parts := Split(jwt, '.');
    if |parts| == 3 {
      assert parts == [parts[0], parts[1], parts[2]];
      JoinThree(parts[0], parts[1], parts[2]);
    }
  }
}
