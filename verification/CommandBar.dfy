/** The command bar: how well a command answers what was typed, which letters to light up, and the order
    the answers are listed in. Texts are compared after case folding, which the two halves share. */
module CommandBar {
  import opened Basics

  // ----- Words -----

  predicate IsSpace(c: char) {
    || '\t' <= c <= '\r' || '\U{1C}' <= c <= ' ' || c == '\U{85}' || c == '\U{A0}' || c == '\U{1680}'
    || '\U{2000}' <= c <= '\U{200A}' || c == '\U{2028}' || c == '\U{2029}' || c == '\U{202F}' || c == '\U{205F}'
    || c == '\U{3000}'
  }

  /** Where the word going on at `at` ends. */
  function WordEnd(text: string, at: nat): (end: nat)
    requires at <= |text|
    ensures at <= end <= |text|
    ensures forall i :: at <= i < end ==> !IsSpace(text[i])
    ensures end == |text| || IsSpace(text[end])
    decreases |text| - at
  {
    if at == |text| || IsSpace(text[at]) then at else WordEnd(text, at + 1)
  }

  /** The words of a text, as splitting at white space gives them. */
  function Split(text: string): (parts: seq<string>)
    ensures forall k :: 0 <= k < |parts| ==> parts[k] != [] && forall i :: 0 <= i < |parts[k]| ==> !IsSpace(parts[k][i])
    decreases |text|
  {
    if text == [] then []
    else if IsSpace(text[0]) then Split(text[1..])
    else
      var end := WordEnd(text, 0);
      [text[..end]] + Split(text[end..])
  }

  function Joined(parts: seq<string>, between: string): string {
    if parts == [] then []
    else if |parts| == 1 then parts[0]
    else parts[0] + between + Joined(parts[1..], between)
  }

  function Wanted(query: string): string {
    Joined(Split(query), " ")
  }

  /** Where words start from `at` on; `looking` says the character before was not inside a word. */
  function Starts(text: string, at: nat, looking: bool): (starts: seq<nat>)
    requires at <= |text|
    ensures forall i :: 0 <= i < |starts| ==> at <= starts[i] < |text| && !IsSpace(text[starts[i]])
    ensures forall i, j :: 0 <= i < j < |starts| ==> starts[i] < starts[j]
    decreases |text| - at
  {
    if at == |text| then []
    else if IsSpace(text[at]) then Starts(text, at + 1, true)
    else if looking then [at] + Starts(text, at + 1, false)
    else Starts(text, at + 1, false)
  }

  method WordStarts(text: string) returns (starts: seq<nat>)
    ensures starts == Starts(text, 0, true)
  {
    starts := [];
    var looking := true;
    var index := 0;
    while index < |text|
      invariant 0 <= index <= |text|
      invariant starts + Starts(text, index, looking) == Starts(text, 0, true)
    {
      if IsSpace(text[index]) {
        looking := true;
      } else if looking {
        assert starts + ([index] + Starts(text, index + 1, false)) == starts + [index] + Starts(text, index + 1, false);
        starts := starts + [index];
        looking := false;
      }
      index := index + 1;
    }
    assert starts + [] == starts;
  }

  function WordAt(text: string, start: nat): string
    requires start <= |text|
  {
    text[start..WordEnd(text, start)]
  }

  function WordsAt(text: string, starts: seq<nat>): seq<string>
    requires forall i :: 0 <= i < |starts| ==> starts[i] <= |text|
  {
    seq(|starts|, i requires 0 <= i < |starts| => WordAt(text, starts[i]))
  }

  lemma {:induction false} WordEndOfRest(text: string, from: nat, at: nat)
    requires from <= at <= |text|
    ensures WordEnd(text[from..], at - from) + from == WordEnd(text, at)
    decreases |text| - at
  {
    if at < |text| && !IsSpace(text[at]) {
      WordEndOfRest(text, from, at + 1);
    }
  }

  lemma {:induction false} InsideAWord(text: string, at: nat)
    requires at <= |text|
    ensures Starts(text, at, false) == Starts(text, WordEnd(text, at), true)
    decreases |text| - at
  {
    if at < |text| && !IsSpace(text[at]) {
      InsideAWord(text, at + 1);
    }
  }

  lemma WordThenSplit(text: string, at: nat)
    requires at < |text| && !IsSpace(text[at])
    ensures var end := WordEnd(text, at);
            at < end && Split(text[at..]) == [text[at..end]] + Split(text[end..])
  {
    hide IsSpace;
    var rest, end := text[at..], WordEnd(text, at);
    WordEndOfRest(text, at, at);
    assert rest[..end - at] == text[at..end] && rest[end - at..] == text[end..];
  }

  /** From a word's start: the word, then what follows it. */
  lemma WordThenRest(text: string, at: nat)
    requires at < |text| && !IsSpace(text[at])
    ensures var end := WordEnd(text, at);
            && at < end
            && Split(text[at..]) == [text[at..end]] + Split(text[end..])
            && Starts(text, at, true) == [at] + Starts(text, end, true)
  {
    WordThenSplit(text, at);
    hide Split, IsSpace;
    InsideAWord(text, at + 1);
  }

  lemma ConsWords(text: string, at: nat, starts: seq<nat>)
    requires at <= |text| && forall i :: 0 <= i < |starts| ==> starts[i] <= |text|
    ensures WordsAt(text, [at] + starts) == [WordAt(text, at)] + WordsAt(text, starts)
  {
    hide WordAt;
  }

  /** Splitting and looking for word starts find the same words. */
  lemma {:induction false} SplitIsWordsAtStarts(text: string, at: nat)
    requires at <= |text|
    ensures Split(text[at..]) == WordsAt(text, Starts(text, at, true))
    decreases |text| - at
  {
    if at < |text| {
      if IsSpace(text[at]) {
        assert text[at..][1..] == text[at + 1..];
        SplitIsWordsAtStarts(text, at + 1);
      } else {
        WordThenRest(text, at);
        hide Split, Starts, WordsAt;
        var end := WordEnd(text, at);
        SplitIsWordsAtStarts(text, end);
        ConsWords(text, at, Starts(text, end, true));
      }
    }
  }

  lemma {:induction false} WordEndsAt(text: string, at: nat, end: nat)
    requires at <= end <= |text| && (forall i :: at <= i < end ==> !IsSpace(text[i]))
    requires end == |text| || IsSpace(text[end])
    ensures WordEnd(text, at) == end
    decreases end - at
  {
    if at < end {
      WordEndsAt(text, at + 1, end);
    }
  }

  predicate AreWords(parts: seq<string>) {
    forall k :: 0 <= k < |parts| ==> parts[k] != [] && forall i :: 0 <= i < |parts[k]| ==> !IsSpace(parts[k][i])
  }

  lemma {:induction false} SplitJoined(parts: seq<string>)
    requires AreWords(parts)
    ensures Split(Joined(parts, " ")) == parts
  {
    if parts != [] {
      var text, rest := Joined(parts, " "), Joined(parts[1..], " ");
      SplitJoined(parts[1..]);
      if |parts| == 1 {
        WordEndsAt(text, 0, |text|);
        assert text[..|text|] == text && text[|text|..] == [];
      } else {
        assert text == parts[0] + " " + rest;
        assert text[|parts[0]|] == ' ';
        WordEndsAt(text, 0, |parts[0]|);
        assert text[..|parts[0]|] == parts[0] && text[|parts[0]|..] == " " + rest;
        assert (" " + rest)[1..] == rest;
      }
    }
  }

  /** What is looked for is what was typed with one space between its words and none around them. */
  lemma WantedKeepsTheWords(query: string)
    ensures Split(Wanted(query)) == Split(query) && Wanted(Wanted(query)) == Wanted(query)
  {
    SplitJoined(Split(query));
  }

  // ----- Ranking and lighting up -----

  predicate OccursAt(text: string, wanted: string, at: nat) {
    at + |wanted| <= |text| && text[at..at + |wanted|] == wanted
  }

  predicate Occurs(text: string, wanted: string) {
    exists at: nat :: at <= |text| && OccursAt(text, wanted, at)
  }

  /** The first place from `at` on where `wanted` occurs. */
  function IndexFrom(text: string, wanted: string, at: nat): (found: Option<nat>)
    ensures found.Some? ==> at <= found.value && OccursAt(text, wanted, found.value)
    ensures found.Some? ==> forall i :: at <= i < found.value ==> !OccursAt(text, wanted, i)
    ensures found.None? ==> forall i :: at <= i ==> !OccursAt(text, wanted, i)
    decreases |text| - at
  {
    if OccursAt(text, wanted, at) then Some(at)
    else if at < |text| then IndexFrom(text, wanted, at + 1)
    else None
  }

  function Initials(parts: seq<string>): string
    requires forall k :: 0 <= k < |parts| ==> parts[k] != []
  {
    seq(|parts|, i requires 0 <= i < |parts| => parts[i][0])
  }

  /** `wanted` with its spaces taken out. */
  function Letters(wanted: string): (letters: string)
    ensures ' ' !in letters
  {
    if wanted == [] then []
    else if wanted[0] == ' ' then Letters(wanted[1..])
    else [wanted[0]] + Letters(wanted[1..])
  }

  function RankInText(query: string, text: string): Option<nat> {
    var wanted := Wanted(query);
    var parts := Split(text);
    if wanted == [] then Some(0)
    else if wanted <= text then Some(0)
    else if exists i :: 0 <= i < |parts| && wanted <= parts[i] then Some(1)
    else if Occurs(text, wanted) then Some(2)
    else if Letters(wanted) <= Initials(parts) then Some(3)
    else None
  }

  type Span = (nat, nat)

  /** The first of `starts` whose word begins with `wanted`. */
  function FirstWord(text: string, wanted: string, starts: seq<nat>): (found: Option<nat>)
    requires forall i :: 0 <= i < |starts| ==> starts[i] <= |text|
    ensures found.Some? ==> found.value in starts && found.value <= |text| && wanted <= WordAt(text, found.value)
    ensures found.None? <==> forall i :: 0 <= i < |starts| ==> !(wanted <= WordAt(text, starts[i]))
  {
    if starts == [] then None
    else if wanted <= WordAt(text, starts[0]) then Some(starts[0])
    else FirstWord(text, wanted, starts[1..])
  }

  function MatchSpan(query: string, text: string): seq<Span> {
    var wanted := Wanted(query);
    var starts := Starts(text, 0, true);
    if wanted == [] then []
    else if wanted <= text then [(0, |wanted|)]
    else
      match FirstWord(text, wanted, starts)
      case Some(start) => [(start, start + |wanted|)]
      case None =>
        if Occurs(text, wanted) then
          match IndexFrom(text, wanted, 0)
          case Some(start) => [(start, start + |wanted|)]
          case None => []
        else
          var letters := Letters(wanted);
          if letters != [] && letters <= InitialsAt(text, starts) then
            InitialSpans(starts[..|letters|])
          else []
  }

  lemma {:induction false} LettersOfSomething(wanted: string, at: nat)
    requires at < |wanted| && wanted[at] != ' '
    ensures Letters(wanted) != []
  {
    if wanted[0] == ' ' {
      LettersOfSomething(wanted[1..], at - 1);
    }
  }

  lemma {:induction false} WantedHasLetters(query: string)
    requires Wanted(query) != []
    ensures Letters(Wanted(query)) != []
  {
    var parts := Split(query);
    assert parts != [] && Wanted(query)[0] == parts[0][0] && !IsSpace(parts[0][0]);
    LettersOfSomething(Wanted(query), 0);
  }

  lemma SameInitials(text: string)
    ensures var starts := Starts(text, 0, true);
            Initials(Split(text)) == InitialsAt(text, starts)
  {
    assert text[0..] == text;
    SplitIsWordsAtStarts(text, 0);
  }

  /** The two searches agree: a command is listed for its words exactly when some of its letters light up. */
  lemma RankedExactlyWhenLit(query: string, text: string)
    requires Wanted(query) != []
    ensures RankInText(query, text).Some? <==> MatchSpan(query, text) != []
  {
    hide Split, Starts, Letters, Initials, Occurs, OccursAt, WordEnd, Wanted;
    var wanted, starts, parts := Wanted(query), Starts(text, 0, true), Split(text);
    assert text[0..] == text;
    SplitIsWordsAtStarts(text, 0);
    SameInitials(text);
    WantedHasLetters(query);
    assert forall i | 0 <= i < |parts| :: parts[i] == WordAt(text, starts[i]);
    OccursMeansIndex(text, wanted);
  }

  lemma OccursMeansIndex(text: string, wanted: string)
    ensures Occurs(text, wanted) <==> IndexFrom(text, wanted, 0).Some?
  {
  }

  /** The letters lit up, span by span. */
  function Lit(text: string, spans: seq<Span>): string
    requires forall i :: 0 <= i < |spans| ==> spans[i].0 <= spans[i].1 <= |text|
  {
    if spans == [] then [] else text[spans[0].0..spans[0].1] + Lit(text, spans[1..])
  }

  predicate InOrder(text: string, spans: seq<Span>) {
    && (forall i :: 0 <= i < |spans| ==> spans[i].0 < spans[i].1 <= |text|)
    && (forall i, j :: 0 <= i < j < |spans| ==> spans[i].1 <= spans[j].0)
  }

  /** Spans run left to right without overlap and spell what was typed, or its letters at the starts of
      words. */
  lemma SpansSpellTheQuery(query: string, text: string)
    ensures var spans := MatchSpan(query, text);
            && InOrder(text, spans)
            && (spans != [] ==>
                  || Lit(text, spans) == Wanted(query)
                  || (Lit(text, spans) == Letters(Wanted(query))
                      && forall i :: 0 <= i < |spans| ==>
                                       spans[i].0 in Starts(text, 0, true) && spans[i].1 == spans[i].0 + 1))
  {
    hide Starts, Letters, Wanted, MatchSpan, Lit;
    var spans, wanted, starts := MatchSpan(query, text), Wanted(query), Starts(text, 0, true);
    SpansAre(query, text);
    if spans != [] && OneRun(text, spans, wanted) {
      LitOne(text, spans[0]);
      assert spans == [spans[0]];
    } else if spans != [] {
      InitialsSpell(text, starts, Letters(wanted));
    }
  }

  // ----- Painting the spans on the label -----

  /** What a letter becomes when case is put aside; some become two. */
  type Fold = char -> string

  function Folded(fold: Fold, words: string): string {
    if words == [] then [] else fold(words[0]) + Folded(fold, words[1..])
  }

  /** The first `k` letters of the label are one letter each when folded. */
  predicate LetterForLetter(fold: Fold, words: string, k: nat) {
    k <= |words| && forall i :: 0 <= i < k ==> |fold(words[i])| == 1
  }

  predicate NothingVanishes(fold: Fold, words: string) {
    forall c <- words :: fold(c) != []
  }

  lemma {:induction false} FoldedJoins(fold: Fold, a: string, b: string)
    ensures Folded(fold, a + b) == Folded(fold, a) + Folded(fold, b)
  {
    if a == [] {
      assert a + b == b;
    } else {
      assert (a + b)[1..] == a[1..] + b;
      FoldedJoins(fold, a[1..], b);
    }
  }

  lemma {:induction false} FoldedLength(fold: Fold, words: string)
    requires NothingVanishes(fold, words)
    ensures |Folded(fold, words)| >= |words|
    ensures |Folded(fold, words)| == |words| <==> LetterForLetter(fold, words, |words|)
  {
    if words != [] {
      FoldedLength(fold, words[1..]);
      assert forall i | 0 <= i < |words| - 1 :: words[1..][i] == words[i + 1];
      assert LetterForLetter(fold, words, |words|)
        <==> |fold(words[0])| == 1 && LetterForLetter(fold, words[1..], |words| - 1) by {
        if |fold(words[0])| == 1 && LetterForLetter(fold, words[1..], |words| - 1) {
          forall i | 0 <= i < |words| ensures |fold(words[i])| == 1 {
            assert i > 0 ==> words[i] == words[1..][i - 1];
          }
        }
      }
    }
  }

  /** Letters of the label and of its folded text agree up to a place exactly when every letter before it is
      one letter when folded. */
  lemma PrefixesAgreeExactly(fold: Fold, words: string, k: nat)
    requires NothingVanishes(fold, words) && k <= |words|
    ensures k <= |Folded(fold, words)|
    ensures Folded(fold, words[..k]) == Folded(fold, words)[..k] <==> LetterForLetter(fold, words, k)
  {
    assert words == words[..k] + words[k..];
    FoldedJoins(fold, words[..k], words[k..]);
    FoldedLength(fold, words[..k]);
    assert LetterForLetter(fold, words[..k], k) <==> LetterForLetter(fold, words, k);
  }

  /** What the row paints for a span: the label's letters there, as far as it has any. */
  function Painted(words: string, spans: seq<Span>): string
    requires forall i :: 0 <= i < |spans| ==> spans[i].0 <= spans[i].1
  {
    if spans == [] then [] else Clip(words, spans[0]) + Painted(words, spans[1..])
  }

  function Clip(words: string, span: Span): string
    requires span.0 <= span.1
  {
    var last := if span.1 < |words| then span.1 else |words|;
    words[if span.0 < last then span.0 else last..last]
  }

  lemma {:induction false} PaintedFolds(fold: Fold, words: string, spans: seq<Span>, k: nat)
    requires NothingVanishes(fold, words) && LetterForLetter(fold, words, k)
    requires forall i :: 0 <= i < |spans| ==> spans[i].0 <= spans[i].1 <= k
    ensures k <= |Folded(fold, words)|
    ensures Folded(fold, Painted(words, spans)) == Lit(Folded(fold, words), spans)
  {
    PrefixesAgreeExactly(fold, words, k);
    if spans != [] {
      var (from, to) := spans[0];
      PrefixesAgreeExactly(fold, words, from);
      PrefixesAgreeExactly(fold, words, to);
      assert words[..to] == words[..from] + words[from..to];
      FoldedJoins(fold, words[..from], words[from..to]);
      PaintedFolds(fold, words, spans[1..], k);
      FoldedJoins(fold, words[from..to], Painted(words, spans[1..]));
    }
  }

  /** The letters painted are the letters found, case aside, when every letter of the label up to the last
      span is one letter when folded. */
  lemma PaintsWhatWasFound(fold: Fold, query: string, words: string)
    requires NothingVanishes(fold, words)
    ensures var spans := MatchSpan(query, Folded(fold, words));
            && InOrder(Folded(fold, words), spans)
            && (spans != [] && LetterForLetter(fold, words, spans[|spans| - 1].1) ==>
                  Folded(fold, Painted(words, spans)) == Lit(Folded(fold, words), spans))
  {
    hide MatchSpan, Lit, LetterForLetter, NothingVanishes, Painted, Folded;
    var text := Folded(fold, words);
    var spans := MatchSpan(query, text);
    SpansSpellTheQuery(query, text);
    if spans != [] && LetterForLetter(fold, words, spans[|spans| - 1].1) {
      PaintedFolds(fold, words, spans, spans[|spans| - 1].1);
    }
  }

  /** The sharp s is two letters when folded; of the others here each is itself. */
  function SharpS(c: char): string {
    if c == '\U{00DF}' then "ss" else [c]
  }

  /** With a sharp s before it the painting is one letter late: "al" is found in "\U{00DF} al" and "l" is
      painted. */
  lemma PaintedLate()
    ensures var words, spans := "\U{00DF} al", MatchSpan("al", Folded(SharpS, "\U{00DF} al"));
            && spans == [(3, 5)] && Lit(Folded(SharpS, words), spans) == "al" && Painted(words, spans) == "l"
  {
    hide MatchSpan, Folded;
    SharpSFolds();
    AlIsFound();
    assert Lit("ss al", [(3, 5)]) == "al" by {
      LitOne("ss al", (3, 5));
    }
    assert Painted("\U{00DF} al", [(3, 5)]) == Clip("\U{00DF} al", (3, 5)) + [];
  }

  lemma SharpSFolds()
    ensures Folded(SharpS, "\U{00DF} al") == "ss al"
  {
    var words := "\U{00DF} al";
    assert words[1..] == " al" && " al"[1..] == "al" && "al"[1..] == "l" && "l"[1..] == "";
    assert Folded(SharpS, "l") == "l";
    assert Folded(SharpS, "al") == "al";
    assert Folded(SharpS, " al") == " al";
  }

  lemma AlIsWanted()
    ensures Wanted("al") == "al"
  {
    assert WordEnd("al", 2) == 2 && WordEnd("al", 1) == 2 && WordEnd("al", 0) == 2;
    assert "al"[..2] == "al" && "al"[2..] == "";
    assert Split("al") == ["al"];
  }

  lemma TwoWordsStart()
    ensures Starts("ss al", 0, true) == [0, 3]
    ensures !("al" <= WordAt("ss al", 0)) && "al" <= WordAt("ss al", 3)
  {
    var text := "ss al";
    assert Starts(text, 5, false) == [] && Starts(text, 4, false) == [] && Starts(text, 3, true) == [3];
    assert Starts(text, 2, false) == [3] && Starts(text, 1, false) == [3];
    assert text[0..2][0] == 's' && text[3..5] == "al";
    assert WordEnd(text, 2) == 2 && WordEnd(text, 1) == 2 && WordEnd(text, 0) == 2;
    assert WordEnd(text, 5) == 5 && WordEnd(text, 4) == 5 && WordEnd(text, 3) == 5;
  }

  lemma AlIsFound()
    ensures MatchSpan("al", "ss al") == [(3, 5)]
  {
    hide Wanted, Starts, WordAt;
    AlIsWanted();
    TwoWordsStart();
    assert "al"[0] != "ss al"[0];
    assert [0, 3][1..] == [3];
    assert FirstWord("ss al", "al", [3]) == Some(3);
    assert FirstWord("ss al", "al", [0, 3]) == Some(3);
  }

  predicate OneRun(text: string, spans: seq<Span>, wanted: string) {
    |spans| == 1 && wanted != [] && spans[0].1 == spans[0].0 + |wanted| && OccursAt(text, wanted, spans[0].0)
  }

  function InitialsAt(text: string, starts: seq<nat>): string
    requires forall i :: 0 <= i < |starts| ==> starts[i] < |text|
  {
    seq(|starts|, i requires 0 <= i < |starts| => text[starts[i]])
  }

  lemma SpansAre(query: string, text: string)
    ensures var spans, wanted, starts := MatchSpan(query, text), Wanted(query), Starts(text, 0, true);
            var letters := Letters(wanted);
            || spans == []
            || OneRun(text, spans, wanted)
            || (letters <= InitialsAt(text, starts) && spans == InitialSpans(starts[..|letters|]))
  {
    hide Starts, Letters, Wanted, Occurs, WordAt, FirstWord, IndexFrom, InitialSpans, InitialsAt;
    var wanted, starts := Wanted(query), Starts(text, 0, true);
    var first := FirstWord(text, wanted, starts);
    if first.Some? {
      WordOccurs(text, wanted, first.value);
    }
    OccursMeansIndex(text, wanted);
  }

  lemma WordOccurs(text: string, wanted: string, start: nat)
    requires start <= |text| && wanted <= WordAt(text, start)
    ensures OccursAt(text, wanted, start)
  {
    assert text[start..start + |wanted|] == WordAt(text, start)[..|wanted|];
  }

  lemma InitialsPrefix(text: string, starts: seq<nat>, letters: string)
    requires forall i :: 0 <= i < |starts| ==> starts[i] < |text|
    requires letters <= InitialsAt(text, starts)
    ensures |letters| <= |starts| && InitialsAt(text, starts[..|letters|]) == letters
  {
    var some := starts[..|letters|];
    forall i | 0 <= i < |letters| ensures InitialsAt(text, some)[i] == letters[i] {
      assert some[i] == starts[i] && letters[i] == InitialsAt(text, starts)[i];
    }
  }

  lemma InitialsSpell(text: string, starts: seq<nat>, letters: string)
    requires forall i :: 0 <= i < |starts| ==> starts[i] < |text|
    requires forall i, j :: 0 <= i < j < |starts| ==> starts[i] < starts[j]
    requires letters <= InitialsAt(text, starts)
    ensures var spans := InitialSpans(starts[..|letters|]);
            && InOrder(text, spans) && Lit(text, spans) == letters
            && forall i :: 0 <= i < |spans| ==> spans[i].0 in starts && spans[i].1 == spans[i].0 + 1
  {
    InitialsPrefix(text, starts, letters);
    hide InitialsAt, Lit, InitialSpans, InOrder;
    var some := starts[..|letters|];
    FrontOfStarts(text, starts, |letters|);
    LitInitials(text, some);
    InitialsInOrder(text, some);
    SpansAtStarts(some, starts);
  }

  lemma FrontOfStarts(text: string, starts: seq<nat>, count: nat)
    requires count <= |starts|
    requires forall i :: 0 <= i < |starts| ==> starts[i] < |text|
    requires forall i, j :: 0 <= i < j < |starts| ==> starts[i] < starts[j]
    ensures var some := starts[..count];
            && (forall i :: 0 <= i < |some| ==> some[i] < |text| && some[i] in starts)
            && (forall i, j :: 0 <= i < j < |some| ==> some[i] < some[j])
  {
    forall i | 0 <= i < count ensures starts[..count][i] in starts {
      assert starts[..count][i] == starts[i];
    }
  }

  lemma SpansAtStarts(some: seq<nat>, starts: seq<nat>)
    requires forall i :: 0 <= i < |some| ==> some[i] in starts
    ensures var spans := InitialSpans(some);
            forall i :: 0 <= i < |spans| ==> spans[i].0 in starts && spans[i].1 == spans[i].0 + 1
  {
  }

  function InitialSpans(starts: seq<nat>): seq<Span> {
    seq(|starts|, i requires 0 <= i < |starts| => (starts[i], starts[i] + 1))
  }

  lemma LitOne(text: string, span: Span)
    requires span.0 <= span.1 <= |text|
    ensures Lit(text, [span]) == text[span.0..span.1]
  {
    assert Lit(text, []) == [];
  }

  lemma InitialsInOrder(text: string, starts: seq<nat>)
    requires forall i :: 0 <= i < |starts| ==> starts[i] < |text|
    requires forall i, j :: 0 <= i < j < |starts| ==> starts[i] < starts[j]
    ensures InOrder(text, InitialSpans(starts))
  {
  }

  lemma {:induction false} LitInitials(text: string, starts: seq<nat>)
    requires forall i :: 0 <= i < |starts| ==> starts[i] < |text|
    ensures Lit(text, InitialSpans(starts)) == InitialsAt(text, starts)
  {
    if starts != [] {
      LitInitials(text, starts[1..]);
      assert InitialSpans(starts)[1..] == InitialSpans(starts[1..]);
    }
  }

  // ----- Ranking commands -----

  datatype Command = Command(words: string, tip: string, group: string)

  /** A command that answers: how well, and where it is in the list of commands. */
  datatype Hit = Hit(rank: nat, index: nat)

  const GROUPS := ["Add", "Go to", "Settings", "Homework"]

  function MatchRank(query: string, command: Command): Option<nat> {
    var wanted := Wanted(query);
    if wanted == [] then Some(0)
    else if RankInText(query, command.words).Some? then RankInText(query, command.words)
    else if command.tip != [] && |wanted| >= 3 && Occurs(command.tip, wanted) then Some(2)
    else None
  }

  function Scored(query: string, commands: seq<Command>): (hits: seq<Hit>)
    ensures forall i :: 0 <= i < |hits| ==> hits[i].index < |commands|
                                            && MatchRank(query, commands[hits[i].index]) == Some(hits[i].rank)
  {
    if commands == [] then []
    else
      var last := |commands| - 1;
      var front := Scored(query, commands[..last]);
      match MatchRank(query, commands[last])
      case Some(rank) => front + [Hit(rank, last)]
      case None => front
  }

  predicate Better(a: Hit, b: Hit) {
    a.rank < b.rank || (a.rank == b.rank && a.index < b.index)
  }

  function InsertHit(hits: seq<Hit>, hit: Hit): (more: seq<Hit>)
    ensures multiset(more) == multiset(hits) + multiset{hit}
    ensures forall h :: h in more <==> h == hit || h in hits
  {
    if hits == [] || Better(hit, hits[0]) then [hit] + hits
    else
      assert hits == [hits[0]] + hits[1..];
      [hits[0]] + InsertHit(hits[1..], hit)
  }

  function SortHits(hits: seq<Hit>): (sorted: seq<Hit>)
    ensures multiset(sorted) == multiset(hits)
    ensures forall h :: h in sorted <==> h in hits
  {
    if hits == [] then []
    else
      assert hits == hits[..|hits| - 1] + [hits[|hits| - 1]];
      InsertHit(SortHits(hits[..|hits| - 1]), hits[|hits| - 1])
  }

  predicate BestFirst(hits: seq<Hit>) {
    forall i, j :: 0 <= i < j < |hits| ==> !Better(hits[j], hits[i])
  }

  lemma {:induction false} InsertKeepsOrder(hits: seq<Hit>, hit: Hit)
    requires BestFirst(hits)
    ensures BestFirst(InsertHit(hits, hit))
  {
    if hits != [] && !Better(hit, hits[0]) {
      var rest := InsertHit(hits[1..], hit);
      InsertKeepsOrder(hits[1..], hit);
      forall k | 0 <= k < |rest| ensures !Better(rest[k], hits[0]) {
        assert rest[k] in multiset(rest);
        assert rest[k] == hit || rest[k] in hits[1..];
      }
    }
  }

  lemma {:induction false} SortOrders(hits: seq<Hit>)
    ensures BestFirst(SortHits(hits))
  {
    if hits != [] {
      SortOrders(hits[..|hits| - 1]);
      InsertKeepsOrder(SortHits(hits[..|hits| - 1]), hits[|hits| - 1]);
    }
  }

  function Ranked(query: string, commands: seq<Command>): (hits: seq<Hit>)
    ensures forall hit <- hits :: hit.index < |commands| && MatchRank(query, commands[hit.index]) == Some(hit.rank)
  {
    SortHits(Scored(query, commands))
  }

  /** Every command that answers is ranked once, under its own rank; better ones come first, and of equals the
      one listed first. */
  lemma RankedIsThePermutedMatches(query: string, commands: seq<Command>, index: nat)
    ensures var ranked := Ranked(query, commands);
            && BestFirst(ranked)
            && (index < |commands| ==>
                  (MatchRank(query, commands[index]).Some? <==> exists hit <- ranked :: hit.index == index))
            && (forall i, j :: 0 <= i < j < |ranked| ==> ranked[i].index != ranked[j].index)
  {
    hide MatchRank, SortHits;
    SortOrders(Scored(query, commands));
    ScoredHasEach(query, commands, index);
    ScoredAscends(query, commands);
    OnceEach(Scored(query, commands), Ranked(query, commands));
  }

  predicate BeginsWord(query: string, text: string) {
    var parts := Split(text);
    exists i :: 0 <= i < |parts| && Wanted(query) <= parts[i]
  }

  /** Only the first letters of its words spell what was typed. */
  predicate OnlyInitials(query: string, text: string) {
    !Occurs(text, Wanted(query)) && Letters(Wanted(query)) <= Initials(Split(text))
  }

  lemma BeginningOccurs(query: string, text: string)
    ensures Wanted(query) <= text || BeginsWord(query, text) ==> Occurs(text, Wanted(query))
  {
    hide Split, Wanted, Starts, WordEnd;
    var wanted, starts, parts := Wanted(query), Starts(text, 0, true), Split(text);
    if wanted <= text {
      assert OccursAt(text, wanted, 0);
    } else if BeginsWord(query, text) {
      var i :| 0 <= i < |parts| && wanted <= parts[i];
      assert text[0..] == text;
      SplitIsWordsAtStarts(text, 0);
      hide OccursAt;
      WordOccurs(text, wanted, starts[i]);
    }
  }

  /** A command answers exactly when letters of its name light up or its tip holds three letters or more of
      what was typed. */
  lemma AnswersExactly(query: string, command: Command)
    requires Wanted(query) != []
    ensures MatchRank(query, command).Some?
        <==> MatchSpan(query, command.words) != []
             || (|Wanted(query)| >= 3 && Occurs(command.tip, Wanted(query)))
  {
    hide RankInText, MatchSpan, Wanted;
    RankedExactlyWhenLit(query, command.words);
  }

  /** Of two commands listed, the first is at least as near to what was typed: a name that begins with it
      comes before every one that does not, one with a word that begins with it before those that hold it
      further in or in the tip, and these before those found by initials. Equals keep their order. */
  lemma NearerComesFirst(query: string, commands: seq<Command>, i: nat, j: nat)
    requires Wanted(query) != [] && i < j < |Ranked(query, commands)|
    ensures var wanted := Wanted(query);
            var first, second := Ranked(query, commands)[i].index, Ranked(query, commands)[j].index;
            var a, b := commands[first].words, commands[second].words;
            && (wanted <= b ==> wanted <= a)
            && (wanted <= b || BeginsWord(query, b) ==> wanted <= a || BeginsWord(query, a))
            && (OnlyInitials(query, a) ==> OnlyInitials(query, b))
            && ((wanted <= a ==> wanted <= b)
                && (wanted <= a || BeginsWord(query, a) ==> wanted <= b || BeginsWord(query, b))
                && (OnlyInitials(query, b) ==> OnlyInitials(query, a))
                ==> first < second)
  {
    var hits := Ranked(query, commands);
    RankedIsThePermutedMatches(query, commands, 0);
    NearnessIs(query, commands[hits[i].index], hits[i].rank);
    NearnessIs(query, commands[hits[j].index], hits[j].rank);
    hide Wanted, MatchRank, BeginsWord, OnlyInitials, Ranked;
    assert !Better(hits[j], hits[i]);
  }

  lemma NearnessIs(query: string, command: Command, rank: nat)
    requires Wanted(query) != [] && MatchRank(query, command) == Some(rank)
    ensures rank == if Wanted(query) <= command.words then 0 else if BeginsWord(query, command.words) then 1
                    else if OnlyInitials(query, command.words) then 3 else 2
    ensures OnlyInitials(query, command.words) ==> rank == 3
  {
    hide Split, Wanted, Occurs, Letters, Initials;
    BeginningOccurs(query, command.words);
  }

  /** The first word of a text that begins with `wanted`. */
  predicate FirstWordIs(text: string, wanted: string, starts: seq<nat>, start: nat)
    requires forall i :: 0 <= i < |starts| ==> starts[i] <= |text|
  {
    exists k :: 0 <= k < |starts| && starts[k] == start && wanted <= WordAt(text, start)
                && forall i :: 0 <= i < k ==> !(wanted <= WordAt(text, starts[i]))
  }

  /** Where the letters light up: at the start of the name, at the first word that begins with them, at the
      first place that holds them, or one letter at the start of each of the first words. */
  lemma LitAtTheFirstPlace(query: string, text: string)
    requires Wanted(query) != [] && MatchSpan(query, text) != []
    ensures var wanted, starts, spans := Wanted(query), Starts(text, 0, true), MatchSpan(query, text);
            && (wanted <= text ==> spans == [(0, |wanted|)])
            && (!(wanted <= text) && BeginsWord(query, text) ==>
                  FirstWordIs(text, wanted, starts, spans[0].0) && spans == [(spans[0].0, spans[0].0 + |wanted|)])
            && (!(wanted <= text) && !BeginsWord(query, text) && Occurs(text, wanted) ==>
                  && OccursAt(text, wanted, spans[0].0) && spans == [(spans[0].0, spans[0].0 + |wanted|)]
                  && forall at: nat :: at < spans[0].0 ==> !OccursAt(text, wanted, at))
            && (OnlyInitials(query, text) ==>
                  |spans| == |Letters(wanted)| <= |starts|
                  && forall i :: 0 <= i < |spans| ==> spans[i] == (starts[i], starts[i] + 1))
  {
    hide Split, Starts, Letters, Initials, OccursAt, WordEnd, Wanted, BeginsWord, WordAt, FirstWord, IndexFrom, Occurs,
      InitialsAt, FirstWordIs;
    var wanted, starts := Wanted(query), Starts(text, 0, true);
    BeginningOccurs(query, text);
    SameInitials(text);
    WordsAreFound(query, text);
    if FirstWord(text, wanted, starts).Some? {
      FirstWordIsFirst(text, wanted, starts);
    }
    OccursMeansIndex(text, wanted);
    if OnlyInitials(query, text) {
      InitialsPrefix(text, starts, Letters(wanted));
    }
  }

  lemma WordsAreFound(query: string, text: string)
    ensures BeginsWord(query, text) <==> FirstWord(text, Wanted(query), Starts(text, 0, true)).Some?
  {
    hide Split, Starts, WordEnd, Wanted, WordAt;
    assert text[0..] == text;
    SplitIsWordsAtStarts(text, 0);
    assert forall i | 0 <= i < |Split(text)| :: Split(text)[i] == WordAt(text, Starts(text, 0, true)[i]);
  }

  lemma {:induction false} FirstWordIsFirst(text: string, wanted: string, starts: seq<nat>)
    requires forall i :: 0 <= i < |starts| ==> starts[i] <= |text|
    requires FirstWord(text, wanted, starts).Some?
    ensures FirstWordIs(text, wanted, starts, FirstWord(text, wanted, starts).value)
  {
    hide WordAt;
    if !(wanted <= WordAt(text, starts[0])) {
      FirstWordIsFirst(text, wanted, starts[1..]);
      var start := FirstWord(text, wanted, starts).value;
      var k :| 0 <= k < |starts| - 1 && starts[1..][k] == start && wanted <= WordAt(text, start)
               && forall i :: 0 <= i < k ==> !(wanted <= WordAt(text, starts[1..][i]));
      forall i | 0 <= i < k + 1 ensures !(wanted <= WordAt(text, starts[i])) {
        assert i > 0 ==> starts[i] == starts[1..][i - 1];
      }
      assert starts[k + 1] == start;
    }
  }

  predicate Ascending(hits: seq<Hit>) {
    forall i, j :: 0 <= i < j < |hits| ==> hits[i].index < hits[j].index
  }

  lemma {:induction false} ScoredAscends(query: string, commands: seq<Command>)
    ensures Ascending(Scored(query, commands))
  {
    hide MatchRank;
    if commands != [] {
      var last := |commands| - 1;
      ScoredAscends(query, commands[..last]);
      var front := Scored(query, commands[..last]);
      var rank := MatchRank(query, commands[last]);
      if rank.Some? {
        AscendsOn(front, Hit(rank.value, last));
      }
    }
  }

  lemma AscendsOn(hits: seq<Hit>, last: Hit)
    requires Ascending(hits) && forall i :: 0 <= i < |hits| ==> hits[i].index < last.index
    ensures Ascending(hits + [last])
  {
  }

  /** A reordering of hits of different commands still has each command once. */
  lemma OnceEach(hits: seq<Hit>, sorted: seq<Hit>)
    requires multiset(hits) == multiset(sorted)
    requires forall i, j :: 0 <= i < j < |hits| ==> hits[i].index != hits[j].index
    ensures forall i, j :: 0 <= i < j < |sorted| ==> sorted[i].index != sorted[j].index
  {
    forall i, j | 0 <= i < j < |sorted| ensures sorted[i].index != sorted[j].index {
      if sorted[i].index == sorted[j].index {
        assert sorted[i] in multiset(hits) && sorted[j] in multiset(hits);
        assert sorted[i] == sorted[j];
        TwiceCounts(sorted, i, j);
        OnceCounts(hits, sorted[i]);
      }
    }
  }

  lemma TwiceCounts(hits: seq<Hit>, i: nat, j: nat)
    requires i < j < |hits| && hits[i] == hits[j]
    ensures multiset(hits)[hits[i]] >= 2
  {
    assert hits == hits[..j] + [hits[j]] + hits[j + 1..];
    assert hits[..j][i] == hits[i];
    assert hits[i] in multiset(hits[..j]);
  }

  lemma {:induction false} OnceCounts(hits: seq<Hit>, hit: Hit)
    requires forall i, j :: 0 <= i < j < |hits| ==> hits[i].index != hits[j].index
    ensures multiset(hits)[hit] <= 1
  {
    if hits != [] {
      var front, last := hits[..|hits| - 1], hits[|hits| - 1];
      assert hits == front + [last];
      OnceCounts(front, hit);
      if hit == last {
        assert hit !in front;
      }
    }
  }

  lemma {:induction false} ScoredHasEach(query: string, commands: seq<Command>, index: nat)
    ensures index < |commands| ==>
              (MatchRank(query, commands[index]).Some? <==> exists hit <- Scored(query, commands) :: hit.index == index)
    ensures forall hit <- Scored(query, commands) :: hit.index < |commands|
  {
    if commands != [] {
      var last := |commands| - 1;
      ScoredHasEach(query, commands[..last], index);
      var rank := MatchRank(query, commands[last]);
      if rank.Some? {
        assert Hit(rank.value, last) in Scored(query, commands);
      }
    }
  }

  // ----- Grouping -----

  /** The rows of one group, in the order of `hits`. */
  function RowsOf(hits: seq<Hit>, commands: seq<Command>, group: string): (rows: seq<Hit>)
    requires forall hit <- hits :: hit.index < |commands|
    ensures forall hit <- rows :: hit in hits && commands[hit.index].group == group
  {
    if hits == [] then []
    else
      var front, last := RowsOf(hits[..|hits| - 1], commands, group), hits[|hits| - 1];
      if commands[last.index].group == group then front + [last] else front
  }

  /** The groups of `hits`, in the order they first come up. */
  function GroupsIn(hits: seq<Hit>, commands: seq<Command>): (groups: seq<string>)
    requires forall hit <- hits :: hit.index < |commands|
    ensures Distinct(groups)
  {
    if hits == [] then []
    else
      var front, last := GroupsIn(hits[..|hits| - 1], commands), hits[|hits| - 1];
      if commands[last.index].group in front then front else front + [commands[last.index].group]
  }

  lemma {:induction false} GroupsHaveRows(hits: seq<Hit>, commands: seq<Command>, group: string)
    requires forall hit <- hits :: hit.index < |commands|
    ensures group in GroupsIn(hits, commands) <==> RowsOf(hits, commands, group) != []
  {
    if hits != [] {
      GroupsHaveRows(hits[..|hits| - 1], commands, group);
    }
  }

  function GroupIndex(group: string, groups: seq<string>): (index: nat)
    ensures index <= |groups|
    ensures index < |groups| ==> groups[index] == group
    ensures index == |groups| <==> group !in groups
  {
    if groups == [] then 0
    else if groups[0] == group then 0
    else 1 + GroupIndex(group, groups[1..])
  }

  /** `a` goes before `b`: its best row is better, or as good and its group comes first. */
  predicate Places(best: map<string, nat>, a: string, b: string)
    requires a in best && b in best
  {
    best[a] < best[b] || (best[a] == best[b] && GroupIndex(a, GROUPS) < GroupIndex(b, GROUPS))
  }

  function InsertGroup(groups: seq<string>, best: map<string, nat>, group: string): (more: seq<string>)
    requires group in best && forall g <- groups :: g in best
    ensures multiset(more) == multiset(groups) + multiset{group}
    ensures forall g <- more :: g == group || g in groups
  {
    if groups == [] || Places(best, group, groups[0]) then [group] + groups
    else
      assert groups == [groups[0]] + groups[1..];
      [groups[0]] + InsertGroup(groups[1..], best, group)
  }

  function SortGroups(groups: seq<string>, best: map<string, nat>): (sorted: seq<string>)
    requires forall g <- groups :: g in best
    ensures multiset(sorted) == multiset(groups)
    ensures forall g <- sorted :: g in groups
  {
    if groups == [] then []
    else
      assert groups == groups[..|groups| - 1] + [groups[|groups| - 1]];
      InsertGroup(SortGroups(groups[..|groups| - 1], best), best, groups[|groups| - 1])
  }

  predicate InPlace(groups: seq<string>, best: map<string, nat>)
    requires forall g <- groups :: g in best
  {
    forall i, j :: 0 <= i < j < |groups| ==> !Places(best, groups[j], groups[i])
  }

  lemma {:induction false} InsertKeepsPlaces(groups: seq<string>, best: map<string, nat>, group: string)
    requires group in best && (forall g <- groups :: g in best) && InPlace(groups, best)
    ensures InPlace(InsertGroup(groups, best, group), best)
  {
    hide GroupIndex;
    var more := InsertGroup(groups, best, group);
    if groups == [] {
      assert more == [group];
    } else if Places(best, group, groups[0]) {
      forall j | 0 < j < |more| ensures !Places(best, more[j], group) {
        assert j > 1 ==> !Places(best, groups[j - 1], groups[0]);
      }
    } else {
      var rest := InsertGroup(groups[1..], best, group);
      InsertKeepsPlaces(groups[1..], best, group);
      assert more == [groups[0]] + rest;
      forall k | 0 <= k < |rest| ensures !Places(best, rest[k], groups[0]) {
        assert rest[k] == group || rest[k] in groups[1..];
      }
    }
  }

  lemma {:induction false} SortPlaces(groups: seq<string>, best: map<string, nat>)
    requires forall g <- groups :: g in best
    ensures InPlace(SortGroups(groups, best), best)
  {
    if groups != [] {
      SortPlaces(groups[..|groups| - 1], best);
      InsertKeepsPlaces(SortGroups(groups[..|groups| - 1], best), best, groups[|groups| - 1]);
    }
  }

  function BestOf(hits: seq<Hit>, commands: seq<Command>, group: string): nat
    requires forall hit <- hits :: hit.index < |commands|
    requires group in GroupsIn(hits, commands)
  {
    GroupsHaveRows(hits, commands, group);
    RowsOf(hits, commands, group)[0].rank
  }

  function Bests(hits: seq<Hit>, commands: seq<Command>): (best: map<string, nat>)
    requires forall hit <- hits :: hit.index < |commands|
    ensures best.Keys == Elements(GroupsIn(hits, commands))
  {
    map g | g in GroupsIn(hits, commands) :: BestOf(hits, commands, g)
  }

  type Listing = seq<(string, seq<Hit>)>

  function Grouped(hits: seq<Hit>, commands: seq<Command>): Listing
    requires forall hit <- hits :: hit.index < |commands|
  {
    var order := SortGroups(GroupsIn(hits, commands), Bests(hits, commands));
    seq(|order|, i requires 0 <= i < |order| => (order[i], RowsOf(hits, commands, order[i])))
  }

  /** The two tables are filled row by row, a group entering both when its first row does. */
  method GroupRows(query: string, commands: seq<Command>) returns (listing: Listing)
    ensures listing == Grouped(Ranked(query, commands), commands)
  {
    hide Ranked, MatchRank, SortGroups, RowsOf, GroupsIn, BestOf, Bests;
    var hits := Ranked(query, commands);
    var best: map<string, nat> := map[];
    var rows: map<string, seq<Hit>> := map[];
    var order: seq<string> := [];
    var i := 0;
    NoGroups(commands);
    while i < |hits|
      invariant 0 <= i <= |hits|
      invariant order == GroupsIn(hits[..i], commands)
      invariant best.Keys == Elements(order) && rows.Keys == Elements(order)
      invariant forall g <- order :: g in rows && rows[g] == RowsOf(hits[..i], commands, g)
      invariant forall g <- order :: g in best && best[g] == BestOf(hits[..i], commands, g)
    {
      var hit := hits[i];
      var group := commands[hit.index].group;
      GroupStep(hits[..i], hit, commands);
      assert hits[..i + 1] == hits[..i] + [hit];
      if group !in best {
        best := best[group := hit.rank];
        rows := rows[group := []];
        order := order + [group];
      }
      rows := rows[group := rows[group] + [hit]];
      i := i + 1;
    }
    assert hits[..i] == hits;
    BestsAre(best, hits, commands);
    var sorted := SortGroups(order, best);
    listing := seq(|sorted|, i requires 0 <= i < |sorted| => (sorted[i], rows[sorted[i]]));
  }

  lemma BestsAre(best: map<string, nat>, hits: seq<Hit>, commands: seq<Command>)
    requires forall hit <- hits :: hit.index < |commands|
    requires best.Keys == Elements(GroupsIn(hits, commands))
    requires forall g <- GroupsIn(hits, commands) :: g in best && best[g] == BestOf(hits, commands, g)
    ensures best == Bests(hits, commands)
  {
  }

  lemma NoGroups(commands: seq<Command>)
    ensures GroupsIn([], commands) == []
  {
  }

  /** What one more row does to the groups, to each group's rows and to its best rank. */
  lemma GroupStep(front: seq<Hit>, last: Hit, commands: seq<Command>)
    requires last.index < |commands| && forall hit <- front :: hit.index < |commands|
    ensures var hits, group := front + [last], commands[last.index].group;
            && GroupsIn(hits, commands) == (if group in GroupsIn(front, commands) then GroupsIn(front, commands)
                                            else GroupsIn(front, commands) + [group])
            && RowsOf(hits, commands, group)
               == (if group in GroupsIn(front, commands) then RowsOf(front, commands, group) else []) + [last]
            && BestOf(hits, commands, group)
               == (if group in GroupsIn(front, commands) then BestOf(front, commands, group) else last.rank)
            && forall g | g in GroupsIn(front, commands) && g != group ::
                 RowsOf(hits, commands, g) == RowsOf(front, commands, g)
                 && BestOf(hits, commands, g) == BestOf(front, commands, g)
  {
    var hits, group := front + [last], commands[last.index].group;
    assert hits[..|hits| - 1] == front;
    GroupsHaveRows(front, commands, group);
    forall g | g in GroupsIn(front, commands) && g != group
      ensures RowsOf(hits, commands, g) == RowsOf(front, commands, g)
    {
    }
  }

  // ----- What the listing is -----

  function AllRows(listing: Listing): seq<Hit> {
    if listing == [] then [] else listing[0].1 + AllRows(listing[1..])
  }

  /** The rows of every group but one. */
  function OtherRows(hits: seq<Hit>, commands: seq<Command>, group: string): (rows: seq<Hit>)
    requires forall hit <- hits :: hit.index < |commands|
    ensures forall hit <- rows :: hit in hits && commands[hit.index].group != group
  {
    if hits == [] then []
    else
      var front, last := OtherRows(hits[..|hits| - 1], commands, group), hits[|hits| - 1];
      if commands[last.index].group == group then front else front + [last]
  }

  lemma {:induction false} RowsAndOthers(hits: seq<Hit>, commands: seq<Command>, group: string)
    requires forall hit <- hits :: hit.index < |commands|
    ensures multiset(hits) == multiset(RowsOf(hits, commands, group)) + multiset(OtherRows(hits, commands, group))
  {
    if hits != [] {
      RowsAndOthers(hits[..|hits| - 1], commands, group);
      assert hits == hits[..|hits| - 1] + [hits[|hits| - 1]];
    }
  }

  lemma {:induction false} RowsAmongOthers(hits: seq<Hit>, commands: seq<Command>, group: string, other: string)
    requires other != group && forall hit <- hits :: hit.index < |commands|
    ensures RowsOf(OtherRows(hits, commands, group), commands, other) == RowsOf(hits, commands, other)
  {
    if hits != [] {
      var front, last := hits[..|hits| - 1], hits[|hits| - 1];
      RowsAmongOthers(front, commands, group, other);
      if commands[last.index].group != group {
        var others := OtherRows(hits, commands, group);
        assert others[..|others| - 1] == OtherRows(front, commands, group);
      }
    }
  }

  function Listed(groups: seq<string>, hits: seq<Hit>, commands: seq<Command>): Listing
    requires forall hit <- hits :: hit.index < |commands|
  {
    seq(|groups|, i requires 0 <= i < |groups| => (groups[i], RowsOf(hits, commands, groups[i])))
  }

  lemma FirstIsAHit(hits: seq<Hit>)
    requires hits != []
    ensures hits[0] in hits
  {
  }

  lemma {:induction false} ListedHasAll(groups: seq<string>, hits: seq<Hit>, commands: seq<Command>)
    requires forall hit <- hits :: hit.index < |commands|
    requires Distinct(groups) && forall hit <- hits :: commands[hit.index].group in groups
    ensures multiset(AllRows(Listed(groups, hits, commands))) == multiset(hits)
    decreases groups
  {
    var listing := Listed(groups, hits, commands);
    if groups == [] {
      if hits != [] {
        FirstIsAHit(hits);
      }
    } else {
      var rest, others := groups[1..], OtherRows(hits, commands, groups[0]);
      forall hit <- others ensures commands[hit.index].group in rest {
        assert groups == [groups[0]] + rest;
      }
      ListedHasAll(rest, others, commands);
      RowsAndOthers(hits, commands, groups[0]);
      forall i | 0 <= i < |rest| ensures RowsOf(others, commands, rest[i]) == RowsOf(hits, commands, rest[i]) {
        assert rest[i] == groups[i + 1];
        RowsAmongOthers(hits, commands, groups[0], rest[i]);
      }
      assert listing[1..] == Listed(rest, others, commands);
    }
  }

  lemma {:induction false} RowsStayInOrder(hits: seq<Hit>, commands: seq<Command>, group: string)
    requires BestFirst(hits) && forall hit <- hits :: hit.index < |commands|
    ensures BestFirst(RowsOf(hits, commands, group))
  {
    if hits != [] {
      var front, last := hits[..|hits| - 1], hits[|hits| - 1];
      RowsStayInOrder(front, commands, group);
      var rows := RowsOf(front, commands, group);
      forall i | 0 <= i < |rows| ensures rows[i].rank <= last.rank {
        assert rows[i] in front;
        var k :| 0 <= k < |front| && front[k] == rows[i];
        assert hits[k].rank <= hits[|hits| - 1].rank;
      }
    }
  }

  lemma {:induction false} GroupIsListed(hits: seq<Hit>, commands: seq<Command>, hit: Hit)
    requires hit in hits && forall h <- hits :: h.index < |commands|
    ensures hit in RowsOf(hits, commands, commands[hit.index].group)
    ensures commands[hit.index].group in GroupsIn(hits, commands)
  {
    var front, last := hits[..|hits| - 1], hits[|hits| - 1];
    assert hits == front + [last];
    if hit in front {
      GroupIsListed(front, commands, hit);
    }
  }

  lemma DistinctWhateverTheOrder(a: seq<string>, b: seq<string>)
    requires multiset(a) == multiset(b) && Distinct(a)
    ensures Distinct(b)
  {
    forall i, j | 0 <= i < j < |b| ensures b[i] != b[j] {
      if b[i] == b[j] {
        assert b == b[..j] + [b[j]] + b[j + 1..];
        assert b[..j][i] == b[i] && b[i] in multiset(b[..j]);
        assert multiset(a)[b[i]] >= 2;
        CountedOnce(a, b[i]);
      }
    }
  }

  lemma {:induction false} CountedOnce(a: seq<string>, name: string)
    requires Distinct(a)
    ensures multiset(a)[name] <= 1
  {
    if a != [] {
      var front, last := a[..|a| - 1], a[|a| - 1];
      assert a == front + [last];
      CountedOnce(front, name);
      if name == last {
        assert name !in front;
      }
    }
  }

  /** The listing holds every match once; its first row, the one Enter runs, has the best rank of all; rows of
      a group keep their order; and groups come by their best row, then in the order of GROUPS. */
  lemma ListingHasEveryMatchAndTheBestFirst(query: string, commands: seq<Command>)
    ensures var hits := Ranked(query, commands);
            var listing := Grouped(hits, commands);
            && multiset(AllRows(listing)) == multiset(hits)
            && (hits != [] ==> listing != [] && listing[0].1 != []
                               && forall hit <- hits :: listing[0].1[0].rank <= hit.rank)
            && (forall i :: 0 <= i < |listing| ==> listing[i].1 == RowsOf(hits, commands, listing[i].0))
            && (forall i :: 0 <= i < |listing| ==> listing[i].1 != [])
            && (forall i, j :: 0 <= i < j < |listing| ==>
                  || listing[i].1[0].rank < listing[j].1[0].rank
                  || (listing[i].1[0].rank == listing[j].1[0].rank
                      && GroupIndex(listing[i].0, GROUPS) <= GroupIndex(listing[j].0, GROUPS)))
  {
    hide Ranked, RowsOf, MatchRank, AllRows, Grouped, BestFirst;
    RankedIsThePermutedMatches(query, commands, 0);
    var hits := Ranked(query, commands);
    var order := OrderOf(hits, commands);
    ListedHasAll(order, hits, commands);
    if hits != [] {
      forall hit <- hits ensures RowsOf(hits, commands, order[0])[0].rank <= hit.rank {
        FirstIsBest(hits, commands, order, hit);
      }
    }
  }

  /** The groups in the order they are listed, with what decides it. */
  lemma OrderOf(hits: seq<Hit>, commands: seq<Command>) returns (order: seq<string>)
    requires forall hit <- hits :: hit.index < |commands|
    ensures Grouped(hits, commands) == Listed(order, hits, commands)
    ensures Distinct(order)
    ensures forall hit <- hits :: commands[hit.index].group in order
    ensures hits != [] ==> order != []
    ensures forall i :: 0 <= i < |order| ==> RowsOf(hits, commands, order[i]) != []
    ensures forall i, j :: 0 <= i < j < |order| ==>
              var a, b := RowsOf(hits, commands, order[i])[0].rank, RowsOf(hits, commands, order[j])[0].rank;
              a < b || (a == b && GroupIndex(order[i], GROUPS) <= GroupIndex(order[j], GROUPS))
  {
    hide RowsOf, GroupsIn, SortGroups, GroupIndex, InPlace, Bests, Distinct;
    var best, found := Bests(hits, commands), GroupsIn(hits, commands);
    order := SortGroups(found, best);
    SortPlaces(found, best);
    DistinctWhateverTheOrder(found, order);
    SameMembers(found, order);
    forall hit <- hits ensures commands[hit.index].group in order {
      GroupIsListed(hits, commands, hit);
    }
    if hits != [] {
      assert commands[hits[0].index].group in order;
    }
    RanksInPlace(hits, commands, order);
  }

  lemma SameMembers(a: seq<string>, b: seq<string>)
    requires multiset(a) == multiset(b)
    ensures forall x :: x in a <==> x in b
  {
    forall x ensures x in a <==> x in b {
      assert x in multiset(a) <==> x in multiset(b);
    }
  }

  lemma RanksInPlace(hits: seq<Hit>, commands: seq<Command>, order: seq<string>)
    requires forall hit <- hits :: hit.index < |commands|
    requires forall g <- order :: g in GroupsIn(hits, commands)
    requires InPlace(order, Bests(hits, commands))
    ensures forall i :: 0 <= i < |order| ==> RowsOf(hits, commands, order[i]) != []
    ensures forall i, j :: 0 <= i < j < |order| ==>
              var a, b := RowsOf(hits, commands, order[i])[0].rank, RowsOf(hits, commands, order[j])[0].rank;
              a < b || (a == b && GroupIndex(order[i], GROUPS) <= GroupIndex(order[j], GROUPS))
  {
    hide RowsOf, GroupsIn, GroupIndex;
    forall i | 0 <= i < |order|
      ensures RowsOf(hits, commands, order[i]) != []
      ensures RowsOf(hits, commands, order[i])[0].rank == Bests(hits, commands)[order[i]]
    {
      assert order[i] in GroupsIn(hits, commands);
      GroupsHaveRows(hits, commands, order[i]);
    }
  }

  lemma FirstIsBest(hits: seq<Hit>, commands: seq<Command>, order: seq<string>, hit: Hit)
    requires BestFirst(hits) && hit in hits && forall h <- hits :: h.index < |commands|
    requires commands[hit.index].group in order
    requires forall i :: 0 <= i < |order| ==> RowsOf(hits, commands, order[i]) != []
    requires forall i :: 0 < i < |order| ==>
               RowsOf(hits, commands, order[0])[0].rank <= RowsOf(hits, commands, order[i])[0].rank
    ensures RowsOf(hits, commands, order[0])[0].rank <= hit.rank
  {
    hide RowsOf;
    var group := commands[hit.index].group;
    var k :| 0 <= k < |order| && order[k] == group;
    GroupIsListed(hits, commands, hit);
    RowsStayInOrder(hits, commands, group);
    var rows := RowsOf(hits, commands, group);
    var at :| 0 <= at < |rows| && rows[at] == hit;
  }

  /** With nothing typed every command is listed, and the groups come in the order of GROUPS. */
  lemma NothingTypedListsAll(query: string, commands: seq<Command>, i: nat, j: nat)
    requires Wanted(query) == []
    ensures var listing := Grouped(Ranked(query, commands), commands);
            i < j < |listing| ==> GroupIndex(listing[i].0, GROUPS) <= GroupIndex(listing[j].0, GROUPS)
  {
    ListingHasEveryMatchAndTheBestFirst(query, commands);
    hide GroupIndex, Wanted, AllRows;
    var hits := Ranked(query, commands);
    var listing := Grouped(hits, commands);
    if i < j < |listing| {
      assert listing[i].1[0] in hits && listing[j].1[0] in hits;
      assert MatchRank(query, commands[listing[i].1[0].index]) == Some(0);
      assert MatchRank(query, commands[listing[j].1[0].index]) == Some(0);
    }
  }
}
