/** Finding DetectedLanguage[code:confidence] in a line of output: the scan for matches that do
    not overlap, and why it misses none (rinser/jobprocess.go:259, 267-271). */
module Detection {
  import opened Basics
  import opened Text

  const MARK := "DetectedLanguage["

  predicate WordChar(ch: char) {
    'a' <= ch <= 'z' || 'A' <= ch <= 'Z' || '0' <= ch <= '9' || ch == '_'
  }

  predicate Digit(ch: char) {
    '0' <= ch <= '9'
  }

  lemma WordMeans(ch: char)
    ensures WordChar(ch)
       <==> ch in CAPITAL_LETTERS + SMALL_LETTERS + DECIMAL_DIGITS + {'_'}
    ensures Digit(ch) <==> ch in DECIMAL_DIGITS
  {
    Ranges(ch);
  }

  predicate OneOf(digits: bool, ch: char) {
    if digits then Digit(ch) else WordChar(ch)
  }

  /** The end of the longest run of such characters that begins at i. */
  function RunEnd(s: string, i: nat, digits: bool): (e: nat)
    requires i <= |s|
    ensures i <= e <= |s|
    ensures forall k :: i <= k < e ==> OneOf(digits, s[k])
    ensures e < |s| ==> !OneOf(digits, s[e])
    decreases |s| - i
  {
    if i < |s| && OneOf(digits, s[i]) then RunEnd(s, i + 1, digits) else i
  }

  datatype Found = Found(code: string, number: string, end: nat)

  predicate MarkAt(s: string, i: nat) {
    i + |MARK| <= |s| && forall k :: 0 <= k < |MARK| ==> s[i + k] == MARK[k]
  }

  /** The match of DetectedLanguage\[(\w+):(\d\.\d+)\] that begins at i. No run can be followed by
      one of its own characters, so that there is nothing to backtrack over. */
  function MatchAt(s: string, i: nat): Option<Found> {
    if !MarkAt(s, i) then None
    else
      var a := i + |MARK|;
      var b := RunEnd(s, a, false);
      if b == a || b + 2 >= |s| || s[b] != ':' || !Digit(s[b + 1]) || s[b + 2] != '.' then None
      else
        var e := RunEnd(s, b + 3, true);
        if e == b + 3 || e >= |s| || s[e] != ']' then None
        else Some(Found(s[a..b], s[b + 1..e], e + 1))
  }

  /** Where the leftmost matches that do not overlap begin. */
  function Starts(s: string, i: nat): (starts: seq<nat>)
    ensures forall k :: 0 <= k < |starts| ==> i <= starts[k]
    decreases |s| - i
  {
    if i >= |s| then []
    else
      var m := MatchAt(s, i);
      if m.Some? && i < m.value.end then [i] + Starts(s, m.value.end) else Starts(s, i + 1)
  }

  // ---------------------------------------------------------------- what a match is

  /** The text of a match: the mark, a word, a colon, a digit, a full stop, digits, a bracket. */
  ghost predicate Occurs(s: string, i: nat, f: Found) {
    && MarkAt(s, i)
    && |f.code| > 0 && |f.number| > 2
    && f.end == i + |MARK| + |f.code| + 1 + |f.number| + 1 && f.end <= |s|
    && (forall k :: 0 <= k < |f.code| ==> WordChar(f.code[k]) && s[i + |MARK| + k] == f.code[k])
    && s[i + |MARK| + |f.code|] == ':'
    && (forall k :: 0 <= k < |f.number| ==> s[f.end - 1 - |f.number| + k] == f.number[k])
    && Digit(f.number[0]) && f.number[1] == '.'
    && (forall k :: 2 <= k < |f.number| ==> Digit(f.number[k]))
    && s[f.end - 1] == ']'
  }

  /** A word as Tika writes it, and a number with one digit before the full stop. */
  ghost predicate WellFormed(f: Found) {
    && f.code != [] && (forall k :: 0 <= k < |f.code| ==> WordChar(f.code[k]))
    && |f.number| > 2 && Digit(f.number[0]) && f.number[1] == '.'
    && (forall k :: 2 <= k < |f.number| ==> Digit(f.number[k]))
  }

  /** The match in one piece. */
  ghost predicate Stands(s: string, i: nat, f: Found) {
    i <= f.end <= |s| && s[i..f.end] == "DetectedLanguage[" + f.code + ":" + f.number + "]"
  }

  /** The parts of a text that consists of them. */
  ghost predicate MadeOf(said: string, mark: string, code: string, number: string) {
    && |said| == |mark| + |code| + |number| + 2
    && (forall k :: 0 <= k < |mark| ==> said[k] == mark[k])
    && (forall k :: 0 <= k < |code| ==> said[|mark| + k] == code[k])
    && said[|mark| + |code|] == ':'
    && (forall k :: 0 <= k < |number| ==> said[|mark| + |code| + 1 + k] == number[k])
    && said[|said| - 1] == ']'
  }

  lemma Parts(mark: string, code: string, number: string)
    ensures MadeOf(mark + code + ":" + number + "]", mark, code, number)
  {
  }

  lemma SameParts(said: string, text: string, mark: string, code: string, number: string)
    requires MadeOf(said, mark, code, number) && MadeOf(text, mark, code, number)
    ensures said == text
  {
    var c := |mark| + |code|;
    forall k | 0 <= k < |said|
      ensures said[k] == text[k]
    {
      if |mark| <= k < c {
        assert said[|mark| + (k - |mark|)] == code[k - |mark|] == text[|mark| + (k - |mark|)];
      } else if c < k < |said| - 1 {
        assert said[c + 1 + (k - c - 1)] == number[k - c - 1] == text[c + 1 + (k - c - 1)];
      }
    }
  }

  lemma OccursParts(s: string, i: nat, f: Found)
    requires Occurs(s, i, f)
    ensures MadeOf(s[i..f.end], MARK, f.code, f.number)
  {
    hide WordChar, Digit;
    var said, c := s[i..f.end], |MARK| + |f.code|;
    forall k | 0 <= k < |f.number|
      ensures said[c + 1 + k] == f.number[k]
    {
      assert s[f.end - 1 - |f.number| + k] == f.number[k];
    }
    forall k | 0 <= k < |f.code|
      ensures said[|MARK| + k] == f.code[k]
    {
      assert s[i + |MARK| + k] == f.code[k];
    }
  }

  lemma OccursStands(s: string, i: nat, f: Found)
    requires Occurs(s, i, f)
    ensures WellFormed(f) && Stands(s, i, f)
  {
    hide WordChar, Digit, MadeOf, MarkAt;
    OccursParts(s, i, f);
    Parts(MARK, f.code, f.number);
    SameParts(s[i..f.end], MARK + f.code + ":" + f.number + "]", MARK, f.code, f.number);
  }

  lemma PartsOccur(s: string, i: nat, f: Found, said: string)
    requires WellFormed(f) && f.end == i + |said| <= |s| && MadeOf(said, MARK, f.code, f.number)
    requires forall k :: 0 <= k < |said| ==> s[i + k] == said[k]
    ensures Occurs(s, i, f)
  {
    hide WordChar, Digit;
    var c := |MARK| + |f.code|;
    assert MarkAt(s, i);
    hide MarkAt;
    forall k | 0 <= k < |f.code|
      ensures s[i + |MARK| + k] == f.code[k]
    {
      assert s[i + (|MARK| + k)] == said[|MARK| + k];
    }
    forall k | 0 <= k < |f.number|
      ensures s[f.end - 1 - |f.number| + k] == f.number[k]
    {
      assert s[i + (c + 1 + k)] == said[c + 1 + k];
    }
    assert s[i + c] == said[c] && s[i + (|said| - 1)] == said[|said| - 1];
  }

  lemma TextStands(s: string, i: nat, end: nat, said: string)
    requires i <= end <= |s| && s[i..end] == said
    ensures end == i + |said| && forall k :: 0 <= k < |said| ==> s[i + k] == said[k]
  {
  }

  lemma StandsOccurs(s: string, i: nat, f: Found)
    requires WellFormed(f) && Stands(s, i, f)
    ensures Occurs(s, i, f)
  {
    hide WellFormed, MadeOf, Occurs;
    Parts(MARK, f.code, f.number);
    var said := MARK + f.code + ":" + f.number + "]";
    TextStands(s, i, f.end, said);
    PartsOccur(s, i, f, said);
  }

  /** What stands there is DetectedLanguage[code:number]. */
  lemma OccursMeans(s: string, i: nat, f: Found)
    ensures Occurs(s, i, f) <==> WellFormed(f) && Stands(s, i, f)
  {
    hide Occurs, WellFormed, Stands;
    if Occurs(s, i, f) {
      OccursStands(s, i, f);
    }
    if WellFormed(f) && Stands(s, i, f) {
      StandsOccurs(s, i, f);
    }
  }

  lemma RunStops(s: string, i: nat, e: nat, digits: bool)
    requires i <= e < |s| && !OneOf(digits, s[e]) && forall k :: i <= k < e ==> OneOf(digits, s[k])
    ensures RunEnd(s, i, digits) == e
  {
  }

  lemma MatchOccurs(s: string, i: nat)
    ensures MatchAt(s, i).Some? ==> Occurs(s, i, MatchAt(s, i).value)
  {
    hide MarkAt, RunEnd;
  }

  lemma CodeRun(s: string, i: nat, f: Found)
    requires Occurs(s, i, f)
    ensures var a := i + |MARK|; RunEnd(s, a, false) == a + |f.code| && s[a..a + |f.code|] == f.code
  {
    hide MarkAt;
    var a := i + |MARK|;
    var b := a + |f.code|;
    forall k | a <= k < b
      ensures WordChar(s[k])
    {
      assert s[i + |MARK| + (k - a)] == f.code[k - a];
    }
    RunStops(s, a, b, false);
  }

  lemma NumberRun(s: string, i: nat, f: Found)
    requires Occurs(s, i, f)
    ensures
      var c, e := f.end - 1 - |f.number|, f.end - 1;
      && Digit(s[c]) && s[c + 1] == '.' && RunEnd(s, c + 2, true) == e && s[c..e] == f.number
  {
    hide MarkAt;
    var c, e := f.end - 1 - |f.number|, f.end - 1;
    assert s[c + 0] == f.number[0] && s[c + 1] == f.number[1];
    forall k | c + 2 <= k < e
      ensures Digit(s[k])
    {
      assert s[c + (k - c)] == f.number[k - c];
    }
    RunStops(s, c + 2, e, true);
  }

  lemma OccurrenceMatches(s: string, i: nat, f: Found)
    requires Occurs(s, i, f)
    ensures MatchAt(s, i) == Some(f)
  {
    hide MarkAt, RunEnd;
    CodeRun(s, i, f);
    NumberRun(s, i, f);
  }

  /** The matcher finds, at every place, exactly the text of a match. */
  lemma MatchMeaning(s: string, i: nat, f: Found)
    ensures MatchAt(s, i) == Some(f) <==> Occurs(s, i, f)
  {
    hide MatchAt, Occurs;
    MatchOccurs(s, i);
    if Occurs(s, i, f) {
      OccurrenceMatches(s, i, f);
    }
  }

  // ---------------------------------------------------------------- none is missed

  lemma MarkChars(s: string, i: nat)
    ensures MarkAt(s, i) ==> s[i + |MARK| - 1] == '[' && forall k :: i <= k < i + |MARK| ==> s[k] != ']'
  {
    if MarkAt(s, i) {
      assert s[i + 16] == MARK[16];
      forall k | i <= k < i + |MARK|
        ensures s[k] != ']'
      {
        assert s[i + (k - i)] == MARK[k - i];
      }
    }
  }

  lemma NoBracketInside(s: string, i: nat, f: Found)
    requires Occurs(s, i, f)
    ensures forall k :: i + |MARK| <= k < f.end ==> s[k] != '['
  {
    hide MarkAt;
    var b := i + |MARK| + |f.code|;
    forall k | i + |MARK| <= k < f.end
      ensures s[k] != '['
    {
      if k < b {
        assert s[i + |MARK| + (k - i - |MARK|)] == f.code[k - i - |MARK|];
      } else if b < k < f.end - 1 {
        assert s[f.end - 1 - |f.number| + (k - b - 1)] == f.number[k - b - 1];
      }
    }
  }

  /** Two matches never overlap: the later one's opening bracket would have to stand in the
      earlier one, or the earlier one's closing bracket in the later one's mark. */
  lemma NoOverlap(s: string, i: nat, j: nat)
    requires MatchAt(s, i).Some? && i < j < MatchAt(s, i).value.end
    ensures MatchAt(s, j).None?
  {
    MatchOccurs(s, i);
    NoMarkInside(s, i, MatchAt(s, i).value, j);
  }

  lemma NoMarkInside(s: string, i: nat, f: Found, j: nat)
    requires Occurs(s, i, f) && i < j < f.end
    ensures !MarkAt(s, j)
  {
    NoBracketInside(s, i, f);
    MarkChars(s, j);
  }

  /** The scan reports every place where a match begins, once and in order. */
  lemma {:induction false} StartsAreAll(s: string, i: nat)
    ensures forall j :: j in Starts(s, i) <==> i <= j < |s| && MatchAt(s, j).Some?
    ensures forall k, m :: 0 <= k < m < |Starts(s, i)| ==> Starts(s, i)[k] < Starts(s, i)[m]
    decreases |s| - i
  {
    hide MatchAt;
    if i < |s| {
      var m := MatchAt(s, i);
      MatchOccurs(s, i);
      if m.Some? {
        EndsLater(s, i, m.value);
        StartsAreAll(s, m.value.end);
        forall j | i < j < m.value.end
          ensures MatchAt(s, j).None?
        {
          NoOverlap(s, i, j);
        }
      } else {
        StartsAreAll(s, i + 1);
      }
    }
  }

  lemma EndsLater(s: string, i: nat, f: Found)
    requires Occurs(s, i, f)
    ensures i < f.end <= |s|
  {
  }

  /** What FindAllStringSubmatch returns, in order. */
  function FindAll(s: string): (all: seq<Found>)
    ensures |all| == |Starts(s, 0)|
    ensures forall k :: 0 <= k < |all| && MatchAt(s, Starts(s, 0)[k]).Some? ==>
              all[k] == MatchAt(s, Starts(s, 0)[k]).value
  {
    var starts := Starts(s, 0);
    seq(|starts|, k requires 0 <= k < |starts| =>
      if MatchAt(s, starts[k]).Some? then MatchAt(s, starts[k]).value else Found([], [], 0))
  }

  /** Exactly the matches that stand in the line. */
  lemma FindAllMeaning(s: string, f: Found)
    ensures f in FindAll(s) <==> exists i :: Occurs(s, i, f)
  {
    hide MatchAt, Occurs;
    StartsAreAll(s, 0);
    var starts := Starts(s, 0);
    if f in FindAll(s) {
      var k :| 0 <= k < |starts| && FindAll(s)[k] == f;
      assert starts[k] in starts;
      MatchMeaning(s, starts[k], f);
    }
    if i :| Occurs(s, i, f) {
      MatchMeaning(s, i, f);
      EndsLaterThan(s, i, f);
      var k :| 0 <= k < |starts| && starts[k] == i;
      assert FindAll(s)[k] == f;
    }
  }

  lemma EndsLaterThan(s: string, i: nat, f: Found)
    requires Occurs(s, i, f)
    ensures i < |s|
  {
  }
}
