/** Guessing a document's languages from Tika's output, and the language string that is handed
    to tesseract (rinser/jobprocess.go:259-297, rinser/job.go:71-78, rinser/langcodes.go:3-22). */
module Language {
  import opened Basics
  import opened Detection
  import opened Text

  // ---------------------------------------------------------------- language strings

  predicate LangChar(ch: char) {
    ch == '+' || ch == '_' || 'a' <= ch <= 'z'
  }

  lemma LangMeans(ch: char)
    ensures LangChar(ch) <==> ch in SMALL_LETTERS + {'+', '_'}
  {
    Ranges(ch);
  }

  method CheckLangString(lang: string) returns (ok: bool)
    ensures ok <==> forall ch :: ch in lang ==> LangChar(ch)
  {
    for i := 0 to |lang|
      invariant forall k :: 0 <= k < i ==> LangChar(lang[k])
    {
      if !LangChar(lang[i]) {
        return false;
      }
    }
    return true;
  }

  /** Tesseract's name for a language that Tika knows. */
  function LanguageTika(code: string): Option<string> {
    match code
    case "da" => Some("dan")
    case "de" => Some("deu")
    case "et" => Some("est")
    case "el" => Some("ell")
    case "en" => Some("eng")
    case "es" => Some("spa")
    case "fi" => Some("fin")
    case "fr" => Some("fra")
    case "hu" => Some("hun")
    case "is" => Some("isl")
    case "it" => Some("ita")
    case "nl" => Some("nld")
    case "no" => Some("nor")
    case "pl" => Some("pol")
    case "pt" => Some("por")
    case "ru" => Some("rus")
    case "sv" => Some("swe")
    case "th" => Some("tha")
    case _ => None
  }

  /** The languages that Tika reports. */
  datatype Spoken =
    | Danish | German | Estonian | Greek | English | Spanish | Finnish | French | Hungarian
    | Icelandic | Italian | Dutch | Norwegian | Polish | Portuguese | Russian | Swedish | Thai

  /** The language that a code of Tika's stands for. */
  function SpokenOfTika(code: string): Option<Spoken> {
    match code
    case "da" => Some(Danish)
    case "de" => Some(German)
    case "et" => Some(Estonian)
    case "el" => Some(Greek)
    case "en" => Some(English)
    case "es" => Some(Spanish)
    case "fi" => Some(Finnish)
    case "fr" => Some(French)
    case "hu" => Some(Hungarian)
    case "is" => Some(Icelandic)
    case "it" => Some(Italian)
    case "nl" => Some(Dutch)
    case "no" => Some(Norwegian)
    case "pl" => Some(Polish)
    case "pt" => Some(Portuguese)
    case "ru" => Some(Russian)
    case "sv" => Some(Swedish)
    case "th" => Some(Thai)
    case _ => None
  }

  /** The language that one of tesseract's names stands for, as far as Tika reports it. */
  function SpokenOfTesseract(name: string): Option<Spoken> {
    match name
    case "dan" => Some(Danish)
    case "deu" => Some(German)
    case "est" => Some(Estonian)
    case "ell" => Some(Greek)
    case "eng" => Some(English)
    case "spa" => Some(Spanish)
    case "fin" => Some(Finnish)
    case "fra" => Some(French)
    case "hun" => Some(Hungarian)
    case "isl" => Some(Icelandic)
    case "ita" => Some(Italian)
    case "nld" => Some(Dutch)
    case "nor" => Some(Norwegian)
    case "pol" => Some(Polish)
    case "por" => Some(Portuguese)
    case "rus" => Some(Russian)
    case "swe" => Some(Swedish)
    case "tha" => Some(Thai)
    case _ => None
  }

  /** Tika's codes are turned into the names of the same languages. */
  lemma SameLanguage(code: string)
    ensures LanguageTika(code).Some? <==> SpokenOfTika(code).Some?
    ensures LanguageTika(code).Some? ==> SpokenOfTesseract(LanguageTika(code).value) == SpokenOfTika(code)
  {
  }

  ghost predicate Letters(s: string) {
    |s| == 3 && forall i :: 0 <= i < |s| ==> 'a' <= s[i] <= 'z'
  }

  lemma TikaLetters(code: string)
    ensures LanguageTika(code).Some? ==> Letters(LanguageTika(code).value)
  {
  }

  // ---------------------------------------------------------------- detection

  /** One occurrence of DetectedLanguage[code:confidence] in the output. The confidence is the
      64-bit floating-point number that was read, which is a real number. */
  datatype Match = Match(code: string, confidence: real)

  /** The 64-bit floating-point number nearest to 0.99. */
  const SURE := 0.98999999999999999111821580299874767661094665527343750

  /** It is: between a half and one such numbers are 1/2^53 apart. */
  lemma SureIsNearest()
    ensures SURE * 9007199254740992.0 == 8917127262193582.0 && 9007199254740992 == 0x20_0000_0000_0000
    ensures -0.5 <= (SURE - 0.99) * 9007199254740992.0 <= 0.5
  {
  }

  /** The highest positive confidence seen for a language, or 0. */
  function Best(lang: string, matches: seq<Match>): real {
    if matches == [] then 0.0
    else
      var front, last := Best(lang, matches[..|matches| - 1]), matches[|matches| - 1];
      if LanguageTika(last.code) == Some(lang) && last.confidence > front then last.confidence else front
  }

  function Confidence(langs: map<string, real>, lang: string): real {
    if lang in langs then langs[lang] else 0.0
  }

  ghost predicate Reflects(langs: map<string, real>, matches: seq<Match>) {
    && (forall l :: Confidence(langs, l) == Best(l, matches))
    && (forall l :: l in langs ==> langs[l] > 0.0 && Letters(l))
  }

  /** The matches in a line; `parse` is strconv.ParseFloat, which accepts every such number. */
  function MatchesIn(line: string, parse: string -> real): (ms: seq<Match>)
    ensures |ms| == |FindAll(line)|
    ensures forall k :: 0 <= k < |ms| ==> ms[k] == Match(FindAll(line)[k].code, parse(FindAll(line)[k].number))
  {
    var all := FindAll(line);
    seq(|all|, k requires 0 <= k < |all| => Match(all[k].code, parse(all[k].number)))
  }

  function AllMatches(lines: seq<string>, parse: string -> real): seq<Match> {
    if lines == [] then []
    else AllMatches(lines[..|lines| - 1], parse) + MatchesIn(lines[|lines| - 1], parse)
  }

  class Detector {
    var language: string
    var langs: map<string, real>

    constructor (language: string)
      ensures this.language == language && langs == map[]
    {
      this.language, langs := language, map[];
    }

    method Handle(line: string, parse: string -> real, ghost before: seq<Match>)
      requires Reflects(langs, before)
      modifies this`langs
      ensures Reflects(langs, before + MatchesIn(line, parse))
    {
      hide LanguageTika, Letters, Best, Reflects, FindAll;
      var matches := MatchesIn(line, parse);
      assert before + matches[..0] == before;
      for i := 0 to |matches|
        invariant Reflects(langs, before + matches[..i])
      {
        var m := matches[i];
        assert before + matches[..i + 1] == (before + matches[..i]) + [m];
        OneMore(langs, before + matches[..i], m);
        var l := LanguageTika(m.code);
        if l.Some? && m.confidence > Confidence(langs, l.value) {
          langs := langs[l.value := m.confidence];
        }
      }
      assert before + matches[..|matches|] == before + matches;
    }

    /** The languages that are sure enough, met in any order, sorted and joined. */
    method Guess() returns (joined: string)
      ensures joined == Join(InOrder(set l | l in langs && langs[l] > SURE), '+')
    {
      var languages: seq<string> := [];
      var rest := langs.Keys;
      while rest != {}
        invariant rest <= langs.Keys && NoRepeats(languages)
        invariant ToSet(languages) == set l | l in langs.Keys - rest && langs[l] > SURE
      {
        var l :| l in rest;
        assert l !in ToSet(languages);
        assert ToSet(languages + [l]) == ToSet(languages) + {l};
        if langs[l] > SURE {
          languages := languages + [l];
        }
        rest := rest - {l};
      }
      SortMeaning(languages);
      AscendingUnique(SortStrings(languages), InOrder(ToSet(languages)));
      assert ToSet(languages) == set l | l in langs && langs[l] > SURE;
      joined := Join(SortStrings(languages), '+');
    }

    /** The stage: detection is skipped for a language already chosen, and a failed tool leaves
        the language open. */
    method DetectLanguage(lines: seq<string>, parse: string -> real, toolFailed: bool)
      modifies this
      ensures language
           == if old(language) != "" || toolFailed then old(language)
              else Join(InOrder(Sure(AllMatches(lines, parse))), '+')
    {
      if language == "" {
        langs := map[];
        for i := 0 to |lines|
          invariant language == old(language) && Reflects(langs, AllMatches(lines[..i], parse))
        {
          assert lines[..i + 1][..i] == lines[..i];
          Handle(lines[i], parse, AllMatches(lines[..i], parse));
        }
        assert lines[..|lines|] == lines;
        if !toolFailed {
          language := Guess();
          SureMeaning(langs, AllMatches(lines, parse));
        }
      }
    }
  }

  lemma BestMore(lang: string, before: seq<Match>, m: Match)
    ensures Best(lang, before + [m])
         == if LanguageTika(m.code) == Some(lang) && m.confidence > Best(lang, before) then m.confidence
            else Best(lang, before)
  {
    hide LanguageTika;
  }

  lemma OneMore(langs: map<string, real>, before: seq<Match>, m: Match)
    requires Reflects(langs, before)
    ensures
      var l := LanguageTika(m.code);
      Reflects(if l.Some? && m.confidence > Confidence(langs, l.value) then langs[l.value := m.confidence] else langs,
               before + [m])
  {
    hide LanguageTika, Letters, Best;
    TikaLetters(m.code);
    forall l: string
      ensures Best(l, before) >= 0.0
      ensures Best(l, before + [m])
           == if LanguageTika(m.code) == Some(l) && m.confidence > Best(l, before) then m.confidence
              else Best(l, before)
    {
      BestPositive(l, before);
      BestMore(l, before, m);
    }
  }

  lemma {:induction false} BestPositive(lang: string, matches: seq<Match>)
    ensures Best(lang, matches) >= 0.0
  {
    if matches != [] {
      BestPositive(lang, matches[..|matches| - 1]);
    }
  }

  // ---------------------------------------------------------------- what is found

  /** The languages that some match names with enough confidence. */
  ghost function Sure(matches: seq<Match>): set<string> {
    set m | m in matches && m.confidence > SURE && LanguageTika(m.code).Some? :: LanguageTika(m.code).value
  }

  lemma {:induction false} BestSure(lang: string, matches: seq<Match>)
    ensures Best(lang, matches) > SURE <==> lang in Sure(matches)
  {
    if matches != [] {
      var front, last := matches[..|matches| - 1], matches[|matches| - 1];
      BestSure(lang, front);
      assert matches == front + [last];
      SureMore(front, last);
    }
  }

  lemma SureMore(front: seq<Match>, last: Match)
    ensures Sure(front + [last]) == Sure(front)
         + if last.confidence > SURE && LanguageTika(last.code).Some? then {LanguageTika(last.code).value} else {}
  {
  }

  lemma SureMeaning(langs: map<string, real>, matches: seq<Match>)
    requires Reflects(langs, matches)
    ensures (set l | l in langs && langs[l] > SURE) == Sure(matches)
  {
    forall l
      ensures (l in langs && langs[l] > SURE) <==> l in Sure(matches)
    {
      BestSure(l, matches);
      assert Confidence(langs, l) == Best(l, matches);
    }
  }

  ghost predicate Says(line: string, parse: string -> real, m: Match) {
    exists i, f :: Occurs(line, i, f) && m == Match(f.code, parse(f.number))
  }

  lemma LineSays(line: string, parse: string -> real, m: Match)
    ensures m in MatchesIn(line, parse) <==> Says(line, parse, m)
  {
    hide Occurs, FindAll;
    if m in MatchesIn(line, parse) {
      var k :| 0 <= k < |FindAll(line)| && MatchesIn(line, parse)[k] == m;
      FindAllMeaning(line, FindAll(line)[k]);
    }
    if i, f :| Occurs(line, i, f) && m == Match(f.code, parse(f.number)) {
      FindAllMeaning(line, f);
      var k :| 0 <= k < |FindAll(line)| && FindAll(line)[k] == f;
      assert MatchesIn(line, parse)[k] == m;
    }
  }

  lemma OneMoreLine(front: seq<string>, last: string, parse: string -> real, m: Match)
    ensures m in AllMatches(front + [last], parse) <==> m in AllMatches(front, parse) || m in MatchesIn(last, parse)
  {
    hide MatchesIn;
    assert (front + [last])[..|front|] == front;
  }

  lemma {:induction false} MatchSaid(lines: seq<string>, parse: string -> real, m: Match)
    ensures m in AllMatches(lines, parse) <==> exists k :: 0 <= k < |lines| && Says(lines[k], parse, m)
  {
    if lines != [] {
      hide MatchesIn, Says, AllMatches;
      var front, last := lines[..|lines| - 1], lines[|lines| - 1];
      assert lines == front + [last];
      MatchSaid(front, parse, m);
      LineSays(last, parse, m);
      OneMoreLine(front, last, parse, m);
      if k :| 0 <= k < |front| && Says(front[k], parse, m) {
        assert Says(lines[k], parse, m);
      }
    }
  }

  /** Some line says, somewhere, that the language has been detected with enough confidence. */
  ghost predicate SaidIn(lines: seq<string>, parse: string -> real, lang: string) {
    exists k, i, f ::
      0 <= k < |lines| && Occurs(lines[k], i, f) && LanguageTika(f.code) == Some(lang) && parse(f.number) > SURE
  }

  /** The languages found are exactly those. */
  lemma SureMeansSaid(lines: seq<string>, parse: string -> real, lang: string)
    ensures lang in Sure(AllMatches(lines, parse)) <==> SaidIn(lines, parse, lang)
  {
    hide Occurs, AllMatches, LanguageTika;
    if lang in Sure(AllMatches(lines, parse)) {
      var m :| m in AllMatches(lines, parse) && m.confidence > SURE && LanguageTika(m.code) == Some(lang);
      MatchSaid(lines, parse, m);
    }
    if k, i, f :| 0 <= k < |lines| && Occurs(lines[k], i, f) && LanguageTika(f.code) == Some(lang)
                  && parse(f.number) > SURE {
      var m := Match(f.code, parse(f.number));
      assert Says(lines[k], parse, m);
      MatchSaid(lines, parse, m);
    }
  }

  /** The best confidence is an upper bound that some match attains, unless it is 0. */
  lemma {:induction false} BestIsMaximum(lang: string, matches: seq<Match>)
    ensures forall m :: m in matches && LanguageTika(m.code) == Some(lang) ==> m.confidence <= Best(lang, matches)
    ensures Best(lang, matches) > 0.0 ==>
              exists m :: m in matches && LanguageTika(m.code) == Some(lang) && m.confidence == Best(lang, matches)
    ensures Best(lang, matches) >= 0.0
  {
    hide LanguageTika;
    if matches != [] {
      var front, last := matches[..|matches| - 1], matches[|matches| - 1];
      assert matches == front + [last];
      BestIsMaximum(lang, front);
      BestMore(lang, front, last);
    }
  }

  /** How the two output streams are interleaved does not matter, nor how often a match is
      repeated: the whole table is the same, and so are the languages found. */
  lemma OrderDoesNotMatter(langs: map<string, real>, matches: seq<Match>, langs': map<string, real>, other: seq<Match>)
    requires Reflects(langs, matches) && Reflects(langs', other)
    requires forall m :: m in matches <==> m in other
    ensures langs == langs' && Sure(matches) == Sure(other)
  {
    hide LanguageTika, Best, Letters;
    forall l: string
      ensures Confidence(langs, l) == Confidence(langs', l)
    {
      assert Confidence(langs, l) == Best(l, matches) && Confidence(langs', l) == Best(l, other);
      BestIsMaximum(l, matches);
      BestIsMaximum(l, other);
    }
    forall l: string
      ensures l in langs <==> l in langs'
      ensures l in langs && l in langs' ==> langs[l] == langs'[l]
    {
      assert Confidence(langs, l) == Confidence(langs', l);
    }
  }

  /** The language string lists each language once, in order; it is a legal language string; and
      unless it is empty, which it is when nothing is sure, it splits back into that list. */
  lemma GuessIsLegal(matches: seq<Match>)
    ensures
      var langs := InOrder(Sure(matches));
      var joined := Join(langs, '+');
      && (forall ch :: ch in joined ==> LangChar(ch))
      && (joined == "" <==> Sure(matches) == {})
      && (joined != "" ==> Split(joined, '+') == langs)
  {
    var langs := InOrder(Sure(matches));
    forall l | l in langs
      ensures Letters(l) && '+' !in l
    {
      assert l in ToSet(langs);
      var m :| m in matches && LanguageTika(m.code) == Some(l);
      TikaLetters(m.code);
    }
    JoinLegal(langs);
    if langs != [] {
      assert langs[0] in ToSet(langs);
      SplitJoin(langs, '+');
    } else {
      assert ToSet(langs) == {};
    }
  }

  lemma {:induction false} JoinLegal(langs: seq<string>)
    requires forall l :: l in langs ==> Letters(l)
    ensures forall ch :: ch in Join(langs, '+') ==> LangChar(ch)
    ensures langs != [] ==> Join(langs, '+') != []
  {
    if |langs| > 1 {
      JoinLegal(langs[1..]);
    }
    if langs != [] {
      assert Letters(langs[0]);
    }
  }
}
