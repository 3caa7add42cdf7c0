/** The sentence scanner (internal/handlers/articleanalysis/analyzer.go). Where a sentence
    ends is defined position by position; the scanner is proved to cut exactly there, and the
    cuts to lose no text. */
module Sentences {

  /** The Unicode classes the scanner consults, and lower-casing. */
  datatype Classes = Classes(space: char -> bool, upper: char -> bool, digit: char -> bool, lower: string -> string)
  {
    /** Terminators are not white space. */
    predicate Valid() {
      !space('.') && !space('!') && !space('?')
    }
  }

  const ABBREVIATIONS: set<string> := {"mr", "mrs", "ms", "dr", "prof", "sr", "jr", "st", "vs", "etc", "e.g", "i.e", "fig",
                                       "no", "vol"}

  predicate Terminator(c: char) {
    c == '.' || c == '!' || c == '?'
  }

  predicate Blank(c: char) {
    c == ' ' || c == '\n' || c == '\t' || c == '\r'
  }

  // ------------------------------------------------------------------ strings

  function TrimLeft(s: string, space: char -> bool): string {
    if s != "" && space(s[0]) then TrimLeft(s[1..], space) else s
  }

  function TrimRight(s: string, space: char -> bool): string {
    if s != "" && space(s[|s| - 1]) then TrimRight(s[..|s| - 1], space) else s
  }

  function Trim(s: string, space: char -> bool): string {
    TrimRight(TrimLeft(s, space), space)
  }

  /** What is left after the last blank of a string. */
  function AfterLastBlank(s: string): string {
    if s == "" || s[|s| - 1] in " \n\t" then "" else AfterLastBlank(s[..|s| - 1]) + [s[|s| - 1]]
  }

  function LastWord(s: string): string {
    AfterLastBlank(TrimRight(s, c => c in ". "))
  }

  function TrimDot(s: string): string {
    if s != "" && s[|s| - 1] == '.' then s[..|s| - 1] else s
  }

  predicate Abbreviated(s: string, cls: Classes) {
    cls.lower(TrimDot(LastWord(s))) in ABBREVIATIONS
  }

  // ------------------------------------------------------------------ where sentences end

  /** A maximal run of terminators ends just before position c. */
  predicate RunEnds(text: string, c: nat)
    requires c <= |text|
  {
    c > 0 && Terminator(text[c - 1]) && (c == |text| || !Terminator(text[c]))
  }

  /** Where the run of terminators before c begins. */
  function RunStart(text: string, c: nat): (r: nat)
    requires 0 < c <= |text|
    ensures r < c
  {
    if c >= 2 && Terminator(text[c - 2]) then RunStart(text, c - 1) else c - 1
  }

  /** The first position from c on that is not blank. */
  function NextInk(text: string, c: nat): (j: nat)
    requires c <= |text|
    ensures c <= j <= |text| && (j < |text| ==> !Blank(text[j]))
    ensures forall k :: c <= k < j ==> Blank(text[k])
    decreases |text| - c
  {
    if c < |text| && Blank(text[c]) then NextInk(text, c + 1) else c
  }

  /** What may open the next sentence. */
  predicate Opens(c: char, cls: Classes) {
    cls.upper(c) || cls.digit(c) || c == '"' || c == '\U{201C}'
  }

  /** A full stop that belongs to an abbreviation or a number. */
  predicate InnerStop(text: string, start: nat, c: nat, cls: Classes)
    requires start <= c <= |text| && c > 0
  {
    text[RunStart(text, c)] == '.' && (Abbreviated(text[start..c], cls) || (c < |text| && cls.digit(text[c])))
  }

  /** The sentence that began at `start` ends at c: a run of terminators ends there that is no
      inner stop, and either the text is over or white space and an opening follow. */
  predicate Ends(text: string, start: nat, c: nat, cls: Classes)
    requires start <= c <= |text|
  {
    && RunEnds(text, c) && !InnerStop(text, start, c, cls)
    && (NextInk(text, c) == |text| || (NextInk(text, c) > c && Opens(text[NextInk(text, c)], cls)))
  }

  /** Where the sentence that reaches position k began. */
  function Start(text: string, k: nat, cls: Classes): (r: nat)
    requires k <= |text|
    ensures r <= k
  {
    if k == 0 then 0
    else if Ends(text, Start(text, k - 1, cls), k, cls) then k
    else Start(text, k - 1, cls)
  }

  function Kept(s: string, cls: Classes): seq<string> {
    if Trim(s, cls.space) == "" then [] else [Trim(s, cls.space)]
  }

  /** The sentences that end at or before position k. */
  function Split(text: string, k: nat, cls: Classes): seq<string>
    requires k <= |text|
  {
    if k == 0 then []
    else
      var start := Start(text, k - 1, cls);
      Split(text, k - 1, cls) + if Ends(text, start, k, cls) then Kept(text[start..k], cls) else []
  }

  /** All sentences; whatever follows the last ending is one more. */
  function Sentences(text: string, cls: Classes): seq<string> {
    Split(text, |text|, cls) + Kept(text[Start(text, |text|, cls)..], cls)
  }

  // ------------------------------------------------------------------ the scanner

  /** No sentence ends between two positions without an ending. */
  lemma {:induction false} NoEnding(text: string, i: nat, k: nat, cls: Classes)
    requires i <= k <= |text|
    requires forall c :: i < c <= k ==> !RunEnds(text, c)
    ensures Start(text, k, cls) == Start(text, i, cls) && Split(text, k, cls) == Split(text, i, cls)
    decreases k
  {
    if i < k {
      NoEnding(text, i, k - 1, cls);
    }
  }

  /** The run a scan enters at i starts there. */
  lemma {:induction false} RunStartsAt(text: string, i: nat, c: nat)
    requires i < c <= |text| && (i == 0 || !Terminator(text[i - 1]))
    requires forall k :: i <= k < c ==> Terminator(text[k])
    ensures RunStart(text, c) == i
    decreases c
  {
    if c > i + 1 {
      RunStartsAt(text, i, c - 1);
    }
  }

  /** Whether the run that began at `from` and ended at c ends the sentence begun at start. */
  method AtBoundary(text: string, ghost start: nat, from: nat, c: nat, cur: string, cls: Classes) returns (ends: bool)
    requires start <= from < c <= |text| && cur == text[start..c] && RunEnds(text, c)
    requires (from == 0 || !Terminator(text[from - 1])) && forall k :: from <= k < c ==> Terminator(text[k])
    ensures ends == Ends(text, start, c, cls)
  {
    hide Abbreviated, RunStart, Opens;
    RunStartsAt(text, from, c);
    if text[from] == '.' {
      if Abbreviated(cur, cls) {
        return false;
      }
      if c < |text| && cls.digit(text[c]) {
        return false;
      }
    }
    var j := c;
    while j < |text| && Blank(text[j])
      invariant c <= j <= |text| && NextInk(text, j) == NextInk(text, c)
    {
      j := j + 1;
    }
    return j >= |text| || (j > c && Opens(text[j], cls));
  }

  /** A position reached without an ending on the way. */
  lemma Reach(text: string, from: nat, c: nat, cls: Classes)
    requires from < c <= |text| && forall k :: from < k < c ==> !RunEnds(text, k)
    ensures var start := Start(text, from, cls);
            && start <= c - 1
            && Start(text, c, cls) == (if Ends(text, start, c, cls) then c else start)
            && Split(text, c, cls) == Split(text, from, cls) + if Ends(text, start, c, cls) then Kept(text[start..c], cls) else []
  {
    hide Ends, Kept;
    NoEnding(text, from, c - 1, cls);
  }

  lemma NoRunNoEnd(text: string, start: nat, c: nat, cls: Classes)
    requires start <= c <= |text| && !RunEnds(text, c)
    ensures !Ends(text, start, c, cls)
  {
  }

  /** The rune scanner, with its one word of lookbehind and its lookahead. */
  method SplitSentences(text: string, cls: Classes) returns (sentences: seq<string>)
    ensures sentences == Sentences(text, cls)
  {
    hide Split, Start, Ends, Kept, Terminator;
    sentences := [];
    var cur := "";
    var i := 0;
    NothingYet(text, cls);
    while i < |text|
      invariant 0 <= i <= |text| && cur == text[Start(text, i, cls)..i]
      invariant sentences == Split(text, i, cls)
      invariant i < |text| && Terminator(text[i]) ==> i == 0 || !Terminator(text[i - 1])
    {
      ghost var start := Start(text, i, cls);
      var from := i;
      cur, i := cur + [text[i]], i + 1;
      if !Terminator(text[from]) {
        Reach(text, from, i, cls);
        NoRunNoEnd(text, start, i, cls);
        continue;
      }
      while i < |text| && Terminator(text[i])
        invariant from < i <= |text| && cur == text[start..i]
        invariant forall k :: from <= k < i ==> Terminator(text[k])
        decreases |text| - i
      {
        cur, i := cur + [text[i]], i + 1;
      }
      Reach(text, from, i, cls);
      var ends := AtBoundary(text, start, from, i, cur, cls);
      if ends {
        sentences, cur := sentences + Kept(cur, cls), "";
      }
    }
    assert cur == text[Start(text, |text|, cls)..];
    sentences := sentences + Kept(cur, cls);
  }

  lemma NothingYet(text: string, cls: Classes)
    ensures Start(text, 0, cls) == 0 && Split(text, 0, cls) == []
  {
  }

  // ------------------------------------------------------------------ nothing is lost

  /** A text without its white space. */
  function Ink(s: string, space: char -> bool): string {
    if s == "" then "" else Ink(s[..|s| - 1], space) + if space(s[|s| - 1]) then "" else [s[|s| - 1]]
  }

  function Join(parts: seq<string>): string {
    if parts == [] then "" else Join(parts[..|parts| - 1]) + parts[|parts| - 1]
  }

  lemma {:induction false} InkOfSum(a: string, b: string, space: char -> bool)
    ensures Ink(a + b, space) == Ink(a, space) + Ink(b, space)
  {
    if b == "" {
      assert a + b == a;
    } else {
      InkOfSum(a, b[..|b| - 1], space);
      assert (a + b)[..|a + b| - 1] == a + b[..|b| - 1];
    }
  }

  lemma {:induction false} TrimLeftKeepsInk(s: string, space: char -> bool)
    ensures Ink(TrimLeft(s, space), space) == Ink(s, space)
    ensures TrimLeft(s, space) != "" ==> !space(TrimLeft(s, space)[0])
  {
    if s != "" && space(s[0]) {
      TrimLeftKeepsInk(s[1..], space);
      InkOfSum(s[..1], s[1..], space);
      assert s == s[..1] + s[1..] && Ink(s[..1], space) == Ink("", space);
    }
  }

  lemma {:induction false} TrimRightKeepsInk(s: string, space: char -> bool)
    ensures Ink(TrimRight(s, space), space) == Ink(s, space)
    ensures TrimRight(s, space) <= s
    ensures TrimRight(s, space) != "" ==> !space(TrimRight(s, space)[|TrimRight(s, space)| - 1])
    ensures s != "" && !space(s[|s| - 1]) ==> TrimRight(s, space) == s
  {
    if s != "" && space(s[|s| - 1]) {
      TrimRightKeepsInk(s[..|s| - 1], space);
    }
  }

  lemma {:induction false} TrimLeftKeepsEnd(s: string, space: char -> bool)
    requires s != "" && !space(s[|s| - 1])
    ensures TrimLeft(s, space) != "" && TrimLeft(s, space)[|TrimLeft(s, space)| - 1] == s[|s| - 1]
  {
    if space(s[0]) {
      TrimLeftKeepsEnd(s[1..], space);
    }
  }

  /** A trimmed piece keeps its ink, has none but ink at its two ends, and keeps a final
      character that is ink. */
  lemma TrimKeepsInk(s: string, space: char -> bool)
    ensures var t := Trim(s, space);
            && Ink(t, space) == Ink(s, space)
            && (t != "" ==> !space(t[0]) && !space(t[|t| - 1]))
            && (s != "" && !space(s[|s| - 1]) ==> t != "" && t[|t| - 1] == s[|s| - 1])
  {
    TrimLeftKeepsInk(s, space);
    TrimRightKeepsInk(TrimLeft(s, space), space);
    if s != "" && !space(s[|s| - 1]) {
      TrimLeftKeepsEnd(s, space);
    }
  }

  lemma KeptInk(parts: seq<string>, s: string, cls: Classes)
    ensures Ink(Join(parts + Kept(s, cls)), cls.space) == Ink(Join(parts), cls.space) + Ink(s, cls.space)
  {
    hide Trim, Ink;
    var t := Trim(s, cls.space);
    TrimKeepsInk(s, cls.space);
    if t == "" {
      assert Ink(t, cls.space) == "" by { EmptyInk(cls.space); }
      assert parts + Kept(s, cls) == parts;
    } else {
      assert (parts + [t])[..|parts|] == parts;
      InkOfSum(Join(parts), t, cls.space);
    }
  }

  lemma EmptyInk(space: char -> bool)
    ensures Ink("", space) == ""
  {
  }

  lemma {:induction false} SplitInk(text: string, k: nat, cls: Classes)
    requires k <= |text|
    ensures Ink(Join(Split(text, k, cls)), cls.space) == Ink(text[..Start(text, k, cls)], cls.space)
  {
    hide Ends, Ink, Join, Kept;
    if k == 0 {
      assert text[..0] == "";
      assert Join([]) == "" by { EmptyJoin(); }
    } else {
      var start := Start(text, k - 1, cls);
      SplitInk(text, k - 1, cls);
      if Ends(text, start, k, cls) {
        KeptInk(Split(text, k - 1, cls), text[start..k], cls);
        InkOfSum(text[..start], text[start..k], cls.space);
        assert text[..k] == text[..start] + text[start..k];
      } else {
        assert Split(text, k, cls) == Split(text, k - 1, cls);
      }
    }
  }

  lemma EmptyJoin()
    ensures Join([]) == ""
  {
  }

  /** Joined and without white space, the sentences are the text without white space. */
  lemma NothingIsLost(text: string, cls: Classes)
    ensures Ink(Join(Sentences(text, cls)), cls.space) == Ink(text, cls.space)
  {
    hide Split, Start, Ink, Join, Kept;
    var start := Start(text, |text|, cls);
    SplitInk(text, |text|, cls);
    KeptInk(Split(text, |text|, cls), text[start..], cls);
    InkOfSum(text[..start], text[start..], cls.space);
    assert text == text[..start] + text[start..];
  }

  /** A sentence begins and ends in ink. */
  predicate Tidy(s: string, cls: Classes) {
    s != "" && !cls.space(s[0]) && !cls.space(s[|s| - 1])
  }

  lemma {:induction false} SplitIsTidy(text: string, k: nat, cls: Classes)
    requires k <= |text| && cls.Valid()
    ensures forall s :: s in Split(text, k, cls) ==> Tidy(s, cls) && Terminator(s[|s| - 1])
  {
    hide InnerStop, NextInk, Opens, Kept, Tidy;
    if k > 0 {
      var start := Start(text, k - 1, cls);
      SplitIsTidy(text, k - 1, cls);
      if Ends(text, start, k, cls) {
        EndedIsTidy(text[start..k], cls);
      }
    }
  }

  lemma EndedIsTidy(s: string, cls: Classes)
    requires cls.Valid() && s != "" && Terminator(s[|s| - 1])
    ensures forall t :: t in Kept(s, cls) ==> Tidy(t, cls) && Terminator(t[|t| - 1])
  {
    hide Trim;
    TrimKeepsInk(s, cls.space);
  }

  /** Every sentence is tidy, and all but the last end in a terminator. */
  lemma AllButTheLastEnd(text: string, cls: Classes)
    requires cls.Valid()
    ensures forall s :: s in Sentences(text, cls) ==> Tidy(s, cls)
    ensures forall i :: 0 <= i < |Sentences(text, cls)| - 1 ==>
              var s := Sentences(text, cls)[i];
              s != "" && Terminator(s[|s| - 1])
  {
    hide Split, Start, Trim;
    var start := Start(text, |text|, cls);
    SplitIsTidy(text, |text|, cls);
    TrimKeepsInk(text[start..], cls.space);
  }

  /** A number or a run of terminators is never cut in two: right after a cut comes white
      space or the end of the text. */
  lemma {:induction false} CutsAreFollowedBySpace(text: string, k: nat, cls: Classes)
    requires k <= |text|
    ensures var c := Start(text, k, cls);
            c == 0 || (Terminator(text[c - 1]) && (c == |text| || Blank(text[c])))
  {
    if k > 0 {
      CutsAreFollowedBySpace(text, k - 1, cls);
    }
  }

  // ------------------------------------------------------------------ where the cuts are

  /** A sentence ends at c. */
  predicate Cut(text: string, c: nat, cls: Classes)
    requires 0 < c <= |text|
  {
    Start(text, c, cls) == c
  }

  /** The cuts, spelled out: after a whole run of terminators which is not a full stop behind an
      abbreviation or inside a number, and only where the text is over or where white space and
      then a capital, a digit or an opening quote follow. */
  lemma CutExactly(text: string, c: nat, cls: Classes)
    requires 0 < c <= |text|
    ensures Cut(text, c, cls) <==>
            && text[c - 1] in ".!?" && (c == |text| || text[c] !in ".!?")
            && !(text[RunStart(text, c)] == '.'
                 && (Abbreviated(text[Start(text, c - 1, cls)..c], cls) || (c < |text| && cls.digit(text[c]))))
            && ((forall k :: c <= k < |text| ==> text[k] in " \n\t\r")
                || exists j :: c < j < |text| && text[j] !in " \n\t\r" && (forall k :: c <= k < j ==> text[k] in " \n\t\r")
                               && (cls.upper(text[j]) || cls.digit(text[j]) || text[j] == '"' || text[j] == '\U{201C}'))
  {
    hide Abbreviated, RunStart;
    InkBehind(text, c, cls);
  }

  lemma InkBehind(text: string, c: nat, cls: Classes)
    requires c <= |text|
    ensures NextInk(text, c) == |text| <==> forall k :: c <= k < |text| ==> text[k] in " \n\t\r"
    ensures c < NextInk(text, c) < |text| && Opens(text[NextInk(text, c)], cls) <==>
            exists j :: c < j < |text| && text[j] !in " \n\t\r" && (forall k :: c <= k < j ==> text[k] in " \n\t\r")
                        && (cls.upper(text[j]) || cls.digit(text[j]) || text[j] == '"' || text[j] == '\U{201C}')
  {
    var ink := NextInk(text, c);
    assert forall k :: c <= k < ink ==> Blank(text[k]);
  }

  /** The word before a full stop is what counts as an abbreviation, whatever comes before it. */
  lemma AbbreviationIsTheLastWord(before: string, word: string, cls: Classes)
    requires before == "" || before[|before| - 1] in " \n\t"
    requires word != "" && word[|word| - 1] != '.' && forall i :: 0 <= i < |word| ==> word[i] !in " \n\t"
    ensures Abbreviated(before + word + ".", cls) <==>
            cls.lower(word) in {"mr", "mrs", "ms", "dr", "prof", "sr", "jr", "st", "vs", "etc", "e.g", "i.e", "fig", "no", "vol"}
  {
    var s := before + word;
    assert s[|s| - 1] == word[|word| - 1];
    WithoutTheStop(s);
    AfterTheBlank(before, word);
    assert LastWord(before + word + ".") == word && TrimDot(word) == word;
  }

  lemma WithoutTheStop(s: string)
    requires s != "" && s[|s| - 1] !in ". "
    ensures LastWord(s + ".") == AfterLastBlank(s)
  {
    TrimsOne(s, '.', c => c in ". ");
  }

  lemma TrimsOne(s: string, c: char, drop: char -> bool)
    requires s != "" && !drop(s[|s| - 1]) && drop(c)
    ensures TrimRight(s + [c], drop) == s
  {
    assert (s + [c])[..|s|] == s;
    assert TrimRight(s, drop) == s;
  }

  lemma {:induction false} AfterTheBlank(before: string, word: string)
    requires before == "" || before[|before| - 1] in " \n\t"
    requires forall i :: 0 <= i < |word| ==> word[i] !in " \n\t"
    ensures AfterLastBlank(before + word) == word
  {
    if word == "" {
      assert before + word == before;
    } else {
      AfterTheBlank(before, word[..|word| - 1]);
      assert (before + word)[..|before + word| - 1] == before + word[..|word| - 1];
    }
  }

  // ------------------------------------------------------------------ a text in two parts

  lemma {:induction false} SameRunBefore(a: string, b: string, c: nat)
    requires 0 < c <= |a|
    ensures RunStart(a + b, c) == RunStart(a, c)
  {
    if c >= 2 && Terminator(a[c - 2]) {
      SameRunBefore(a, b, c - 1);
    }
  }

  lemma {:induction false} SameInkBefore(a: string, b: string, c: nat)
    requires c < |a| && !Blank(a[|a| - 1])
    ensures NextInk(a + b, c) == NextInk(a, c) < |a|
    decreases |a| - c
  {
    if Blank(a[c]) {
      SameInkBefore(a, b, c + 1);
    }
  }

  /** Up to its last character, a text that ends in a terminator is split as if nothing followed. */
  lemma {:induction false} SameBefore(a: string, b: string, k: nat, cls: Classes)
    requires k < |a| && Terminator(a[|a| - 1])
    ensures Start(a + b, k, cls) == Start(a, k, cls) && Split(a + b, k, cls) == Split(a, k, cls)
  {
    hide RunStart, NextInk, Kept, Abbreviated, Opens;
    if k > 0 {
      SameBefore(a, b, k - 1, cls);
      SameRunBefore(a, b, k);
      SameInkBefore(a, b, k);
      assert (a + b)[Start(a, k - 1, cls)..k] == a[Start(a, k - 1, cls)..k];
    }
  }

  lemma {:induction false} SameRunAfter(a: string, b: string, j: nat)
    requires 1 < j <= |b| && !Terminator(b[0])
    ensures RunStart(a + b, |a| + j) == |a| + RunStart(b, j)
  {
    if Terminator(b[j - 2]) {
      SameRunAfter(a, b, j - 1);
    }
  }

  lemma {:induction false} SameInkAfter(a: string, b: string, j: nat)
    requires j <= |b|
    ensures NextInk(a + b, |a| + j) == |a| + NextInk(b, j)
    decreases |b| - j
  {
    if j < |b| && Blank(b[j]) {
      SameInkAfter(a, b, j + 1);
    }
  }

  lemma SameEndAfter(a: string, b: string, start: nat, j: nat, cls: Classes)
    requires start <= j <= |b| && 0 < j && !Terminator(b[0])
    ensures Ends(a + b, |a| + start, |a| + j, cls) <==> Ends(b, start, j, cls)
  {
    hide RunStart, NextInk, Abbreviated, Opens;
    if RunEnds(b, j) {
      SameRunAfter(a, b, j);
      SameInkAfter(a, b, j);
      assert (a + b)[|a| + start..|a| + j] == b[start..j];
    }
  }

  /** After a cut the rest is split as a text of its own. */
  lemma {:induction false} SameAfter(a: string, b: string, j: nat, cls: Classes)
    requires j <= |b| && (b != "" ==> !Terminator(b[0])) && Start(a + b, |a|, cls) == |a|
    ensures Start(a + b, |a| + j, cls) == |a| + Start(b, j, cls)
    ensures Split(a + b, |a| + j, cls) == Split(a + b, |a|, cls) + Split(b, j, cls)
  {
    hide Ends, Kept;
    if j > 0 {
      SameAfter(a, b, j - 1, cls);
      var start := Start(b, j - 1, cls);
      SameEndAfter(a, b, start, j, cls);
      assert (a + b)[|a| + start..|a| + j] == b[start..j];
      assert Split(a + b, |a|, cls) + (Split(b, j - 1, cls) + Kept(b[start..j], cls))
             == Split(a + b, |a|, cls) + Split(b, j - 1, cls) + Kept(b[start..j], cls);
    } else {
      assert Split(a + b, |a|, cls) + [] == Split(a + b, |a|, cls);
    }
  }

  /** What ends before something more ends at the end of the text too. */
  lemma EndsAtTheEnd(a: string, b: string, start: nat, cls: Classes)
    requires start < |a| && Ends(a + b, start, |a|, cls)
    ensures Ends(a, start, |a|, cls)
  {
    hide Abbreviated, Opens;
    SameRunBefore(a, b, |a|);
    assert (a + b)[start..|a|] == a[start..|a|];
  }

  /** Wherever a sentence ends, the text is the two texts before and after: its sentences are
      those of the one and then those of the other. */
  lemma SplitsAtEveryCut(a: string, b: string, cls: Classes)
    requires a != "" && Cut(a + b, |a|, cls)
    ensures Sentences(a + b, cls) == Sentences(a, cls) + Sentences(b, cls)
  {
    hide Ends, Kept, RunStart, Abbreviated, RunEnds;
    var n := |a|;
    AtTheCut(a, b, cls);
    assert a[n..] == "";
    NothingKept(cls);
    SameAfter(a, b, |b|, cls);
    var rest := Start(b, |b|, cls);
    assert (a + b)[n + rest..] == b[rest..];
    assert Split(a, n, cls) + Split(b, |b|, cls) + Kept(b[rest..], cls) == Split(a, n, cls) + (Split(b, |b|, cls) + Kept(b[rest..], cls));
  }

  lemma AtTheCut(a: string, b: string, cls: Classes)
    requires a != "" && Cut(a + b, |a|, cls)
    ensures Start(a, |a|, cls) == |a| && Split(a, |a|, cls) == Split(a + b, |a|, cls)
    ensures b != "" ==> !Terminator(b[0])
  {
    hide InnerStop, Kept;
    var n := |a|;
    var start := Start(a + b, n - 1, cls);
    assert Ends(a + b, start, n, cls) && Terminator(a[n - 1]);
    SameBefore(a, b, n - 1, cls);
    EndsAtTheEnd(a, b, start, cls);
    assert (a + b)[start..n] == a[start..n];
  }

  lemma NothingKept(cls: Classes)
    ensures Kept("", cls) == []
  {
  }
}
