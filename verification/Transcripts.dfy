/**
 * What the clean-up of a heard text does, one step at a time and character by character, and
 * that a price is understood from whatever a transcriber makes of its sentence: in any case,
 * with any spaces, hyphens and closing marks, and with a full stop after the dollars.
 */
module Transcripts {
  import opened Prelude
  import opened SpokenNumbers
  import opened Announcements
  import opened DigitRuns

  // ------------------------------------------------------------------- single characters

  /** Which characters are spaces, marks, separators or refused, by their code points. */
  lemma TheCharacters(c: char)
    ensures IsSpace(c) <==>
      c as int in {0x9, 0xA, 0xB, 0xC, 0xD, 0x1C, 0x1D, 0x1E, 0x1F, 0x20, 0x85, 0xA0, 0x1680, 0x2000, 0x2001, 0x2002,
                   0x2003, 0x2004, 0x2005, 0x2006, 0x2007, 0x2008, 0x2009, 0x200A, 0x2028, 0x2029, 0x202F, 0x205F,
                   0x3000}
    ensures IsMark(c) <==> c in {'.', '!', '?'}
    ensures IsSeparator(c) <==> c in {' ', ',', '-'}
    ensures IsControl(c) <==> c as int in {0x9, 0xA, 0xB, 0xC, 0xD}
  {
  }

  /** Lower case moves the capital letters down by 32 and nothing else. */
  lemma LowerCase(s: string, i: nat)
    requires i < |s|
    ensures ToLower(s)[i] as int == s[i] as int + if 65 <= s[i] as int <= 90 then 32 else 0
  {
  }

  /** A hyphen becomes a space exactly between two small letters; everything else stays. */
  lemma HyphensInWords(s: string, i: nat)
    requires i < |s|
    ensures
      var inside := 0 < i && i + 1 < |s| && 'a' <= s[i - 1] <= 'z' && 'a' <= s[i + 1] <= 'z';
      HyphensToSpaces(s)[i] == if s[i] == '-' && inside then ' ' else s[i]
  {
  }

  lemma TrimsOne(s: string)
    requires s != ""
    ensures IsSpace(s[|s| - 1]) ==> TrimSpaces(s) == TrimSpaces(s[..|s| - 1])
    ensures !IsSpace(s[|s| - 1]) && IsSpace(s[0]) ==> TrimSpaces(s) == TrimSpaces(s[1..])
    ensures !IsSpace(s[|s| - 1]) && !IsSpace(s[0]) ==> TrimSpaces(s) == s
  {
    hide IsSpace;
  }

  lemma {:induction false} TrimmedAfter(s: string, after: string)
    requires forall i :: 0 <= i < |after| ==> IsSpace(after[i])
    ensures TrimSpaces(s + after) == TrimSpaces(s)
  {
    hide *;
    if after == "" {
      assert s + after == s;
    } else {
      var t, last := s + after, |after| - 1;
      TrimsOne(t);
      TrimmedAfter(s, after[..last]);
      assert t[..|t| - 1] == s + after[..last];
    }
  }

  lemma {:induction false} TrimmedBefore(before: string, s: string)
    requires forall i :: 0 <= i < |before| ==> IsSpace(before[i])
    requires s != "" && !IsSpace(s[|s| - 1])
    ensures TrimSpaces(before + s) == TrimSpaces(s)
  {
    hide *;
    if before == "" {
      assert before + s == s;
    } else {
      var t := before + s;
      TrimsOne(t);
      TrimmedBefore(before[1..], s);
      assert t[1..] == before[1..] + s && t[|t| - 1] == s[|s| - 1];
    }
  }

  /** Trimming spaces has one answer: the middle that neither begins nor ends with one. */
  lemma TrimmedSpaces(before: string, middle: string, after: string)
    requires forall i :: 0 <= i < |before| ==> IsSpace(before[i])
    requires forall i :: 0 <= i < |after| ==> IsSpace(after[i])
    requires middle != "" ==> !IsSpace(middle[0]) && !IsSpace(middle[|middle| - 1])
    ensures TrimSpaces(before + middle + after) == middle
  {
    TrimmedAfter(before + middle, after);
    if middle == "" {
      TrimmedAfter("", before);
      assert "" + before == before == before + middle;
    } else {
      TrimmedBefore(before, middle);
      TrimsOne(middle);
    }
  }

  /** Closing marks go, all of them and nothing before. */
  lemma {:induction false} TrimmedMarks(s: string, marks: string)
    requires s != "" ==> !IsMark(s[|s| - 1])
    requires forall i :: 0 <= i < |marks| ==> IsMark(marks[i])
    ensures TrimMarks(s + marks) == s
  {
    if marks == "" {
      assert s + marks == s;
    } else {
      var last := |marks| - 1;
      assert (s + marks)[|s| + last] == marks[last] && (s + marks)[..|s| + last] == s + marks[..last];
      TrimmedMarks(s, marks[..last]);
    }
  }

  // -------------------------------------------------------------- between dollars and cents

  /** At `i`: the word dollar or dollars, a mark, at least one space, and the word and, at `k`. */
  ghost predicate BrokenAt(t: string, i: nat, noun: string, k: nat) {
    var stop := i + |noun|;
    && (noun == "dollar" || noun == "dollars")
    && stop + 1 < k && k + 3 <= |t|
    && t[i..stop] == noun && IsMark(t[stop])
    && (forall j :: stop < j < k ==> IsSpace(t[j]))
    && t[k..k + 3] == "and"
    && (i > 0 ==> !IsWordChar(t[i - 1])) && (k + 3 < |t| ==> !IsWordChar(t[k + 3]))
  }

  lemma {:induction false} SpacesEndAt(s: string, i: nat, k: nat)
    requires i <= k <= |s|
    ensures SpacesEnd(s, i) == k <==> (forall j :: i <= j < k ==> IsSpace(s[j])) && (k < |s| ==> !IsSpace(s[k]))
    decreases |s| - i
  {
    hide IsSpace;
    if i < |s| && IsSpace(s[i]) {
      if i < k { SpacesEndAt(s, i + 1, k); }
    }
  }

  lemma StartsAt(t: string, i: nat, prefix: string)
    requires i <= |t|
    ensures Starts(t[i..], prefix) <==> i + |prefix| <= |t| && t[i..i + |prefix|] == prefix
  {
    if i + |prefix| <= |t| { assert t[i..][..|prefix|] == t[i..i + |prefix|]; }
  }

  lemma NounAt(t: string, i: nat, noun: string)
    requires (noun == "dollar" || noun == "dollars") && i + |noun| < |t| && IsMark(t[i + |noun|])
    ensures t[i..i + |noun|] == noun <==>
            Starts(t[i..], "dollar") && i + |noun| == if Starts(t[i..], "dollars") then i + 7 else i + 6
  {
    StartsAt(t, i, "dollar");
    StartsAt(t, i, "dollars");
    hide Starts;
    if i + 7 <= |t| {
      assert t[i..i + 7][..6] == t[i..i + 6] && "dollars"[..6] == "dollar";
      assert t[i..i + 7] == t[i..i + 6] + [t[i + 6]] && "dollars" == "dollar" + "s";
    }
  }

  /** Exactly what is taken for a broken boundary, and how far it reaches. */
  lemma BoundaryIff(t: string, i: nat, noun: string, k: nat)
    requires i < |t| && (noun == "dollar" || noun == "dollars")
    ensures BrokenBoundary(t, i) == Some((i + |noun|, k + 3)) <==> BrokenAt(t, i, noun, k)
  {
    var stop := i + |noun|;
    if stop < |t| && IsMark(t[stop]) {
      NounAt(t, i, noun);
      MarkedBoundaryIff(t, i, noun, k);
    } else {
      UnmarkedBoundary(t, i, noun, k);
    }
  }

  lemma UnmarkedBoundary(t: string, i: nat, noun: string, k: nat)
    requires i < |t| && (i + |noun| < |t| ==> !IsMark(t[i + |noun|]))
    ensures BrokenBoundary(t, i) != Some((i + |noun|, k + 3))
  {
    hide IsMark, Starts, IsWordChar, SpacesEnd;
  }

  lemma MarkedBoundaryIff(t: string, i: nat, noun: string, k: nat)
    requires (noun == "dollar" || noun == "dollars") && i + |noun| < |t| && IsMark(t[i + |noun|])
    requires t[i..i + |noun|] == noun <==>
             Starts(t[i..], "dollar") && i + |noun| == if Starts(t[i..], "dollars") then i + 7 else i + 6
    ensures BrokenBoundary(t, i) == Some((i + |noun|, k + 3)) <==> BrokenAt(t, i, noun, k)
  {
    var stop := i + |noun|;
    if stop + 1 <= k <= |t| { SpacesEndAt(t, stop + 1, k); }
    if k <= |t| { StartsAt(t, k, "and"); }
    if k + 3 <= |t| && t[k..k + 3] == "and" {
      assert t[k] == t[k..k + 3][0];
      LetterIsNoSpace('a');
    }
    hide IsMark, Starts, IsWordChar, SpacesEnd, IsSpace;
  }

  lemma LetterIsNoSpace(c: char)
    requires IsLetter(c)
    ensures !IsSpace(c)
  {
  }

  /** A boundary needs its mark right behind the noun, which has its only d in front. */
  lemma NotBrokenBefore(t: string, at: nat, i: nat)
    requires at < i < |t| && (forall k :: 0 <= k < i ==> !IsMark(t[k])) && t[i] == 'd'
    ensures BrokenBoundary(t, at).None?
  {
    hide IsSpace, IsWordChar, SpacesEnd, Starts;
    StartsAt(t, at, "dollar");
    StartsAt(t, at, "dollars");
  }

  lemma {:induction false} MarklessIsSkipped(t: string, at: nat, i: nat)
    requires at <= i < |t| && (forall k :: 0 <= k < i ==> !IsMark(t[k])) && t[i] == 'd'
    ensures CloseBoundary(t, at) == t[at..i] + CloseBoundary(t, i)
    decreases i - at
  {
    hide *;
    if at < i {
      NotBrokenBefore(t, at, i);
      MarklessIsSkipped(t, at + 1, i);
      StepsOver(t, at);
      assert t[at..i] == [t[at]] + t[at + 1..i];
    } else {
      assert t[at..i] == "";
    }
  }

  lemma StepsOver(t: string, at: nat)
    requires at < |t| && BrokenBoundary(t, at).None?
    ensures CloseBoundary(t, at) == [t[at]] + CloseBoundary(t, at + 1)
  {
  }

  lemma {:induction false} MarklessIsKept(s: string, i: nat)
    requires i <= |s| && forall k :: i <= k < |s| ==> !IsMark(s[k])
    ensures CloseBoundary(s, i) == s[i..]
    decreases |s| - i
  {
    if i < |s| {
      MarklessIsKept(s, i + 1);
      assert s[i..] == [s[i]] + s[i + 1..];
      hide IsMark, SpacesEnd, IsWordChar, Starts;
    }
  }

  /** The only broken boundary is closed, and what stands before and after it stays. */
  lemma BoundaryCloses(t: string, i: nat, noun: string, k: nat)
    requires BrokenAt(t, i, noun, k)
    requires forall j :: 0 <= j < |t| && j != i + |noun| ==> !IsMark(t[j])
    ensures i + |noun| <= k + 3 <= |t| && CloseBoundary(t, 0) == Closed(t, i + |noun|, k + 3)
  {
    hide *;
    BrokenShape(t, i, noun, k);
    MarklessIsSkipped(t, 0, i);
    MarklessIsKept(t, k + 3);
    CutsAndCloses(t, i, i + |noun|, k + 3);
    Rejoined(t, i, i + |noun|, k + 3);
  }

  /** The text with all between `stop` and `after` replaced by the word and. */
  function Closed(t: string, stop: nat, after: nat): string
    requires stop <= after <= |t|
  {
    t[..stop] + " and" + t[after..]
  }

  lemma Rejoined(t: string, i: nat, stop: nat, after: nat)
    requires i <= stop <= after <= |t|
    ensures t[0..i] + (t[i..stop] + " and" + t[after..]) == Closed(t, stop, after)
  {
    assert t[0..i] + t[i..stop] == t[..stop];
  }

  lemma BrokenShape(t: string, i: nat, noun: string, k: nat)
    requires BrokenAt(t, i, noun, k)
    ensures i < i + |noun| < k && k + 3 <= |t| && t[i] == 'd'
    ensures BrokenBoundary(t, i) == Some((i + |noun|, k + 3))
  {
    hide IsSpace, IsWordChar, IsMark, BrokenBoundary;
    assert t[i] == t[i..i + |noun|][0];
    BoundaryIff(t, i, noun, k);
  }

  lemma CutsAndCloses(t: string, i: nat, stop: nat, after: nat)
    requires i < |t| && BrokenBoundary(t, i) == Some((stop, after)) && after <= |t| && i <= stop
    ensures CloseBoundary(t, i) == t[i..stop] + " and" + CloseBoundary(t, after)
  {
  }

  // ------------------------------------------------------------------ whatever was transcribed

  predicate Marks(s: string) {
    forall i :: 0 <= i < |s| ==> IsMark(s[i])
  }

  /** The words up to the amount in dollars, and the words after the "and". */
  function Lead(dollars: nat): seq<string> { OPENING_WORDS + Tokens(dollars) }

  function Rest(cents: nat): seq<string> { Tokens(cents) + [Noun(cents, "cent")] }

  /** The words of a price sentence, the dollars and the last word with what marks are put behind them. */
  function Transcribed(dollars: nat, cents: nat, stop: string, ending: string): seq<string> {
    Lead(dollars) + [Noun(dollars, "dollar") + stop] + ["and"] + Tokens(cents) + [Noun(cents, "cent") + ending]
  }

  lemma WordsAreLower(dollars: nat, cents: nat)
    ensures AllLower(Lead(dollars)) && AllLower(Rest(cents)) && Lead(dollars) != [] && Rest(cents) != []
    ensures Lower(Noun(dollars, "dollar")) && Lower(Noun(cents, "cent")) && Lower("and")
  {
    hide Lower, Tokens, Noun;
    TokensLower(dollars);
    TokensLower(cents);
    NounsAreLower(dollars);
    NounsAreLower(cents);
    ReadsOpening();
    AllLowerAppend(OPENING_WORDS, Tokens(dollars));
    AllLowerAppend(Tokens(cents), [Noun(cents, "cent")]);
  }

  lemma MarkedIsSolid(w: string, marks: string)
    requires Lower(w) && Marks(marks)
    ensures Solid([w + marks], IsSpace)
  {
    assert forall k :: 0 <= k < |[w + marks]| ==> [w + marks][k] == w + marks;
  }

  lemma SolidAppend(a: seq<string>, b: seq<string>)
    requires Solid(a, IsSpace) && Solid(b, IsSpace)
    ensures Solid(a + b, IsSpace)
  {
    hide IsSpace;
  }

  lemma TranscribedIsSolid(dollars: nat, cents: nat, stop: string, ending: string)
    requires Marks(stop) && Marks(ending)
    ensures Solid(Transcribed(dollars, cents, stop, ending), IsSpace)
  {
    hide Lower, Noun, Tokens, Solid, Marks, IsSpace;
    WordsAreLower(dollars, cents);
    TokensLower(cents);
    LowerIsSolid(Lead(dollars));
    LowerIsSolid(Tokens(cents));
    MarkedIsSolid(Noun(dollars, "dollar"), stop);
    MarkedIsSolid("and", "");
    assert "and" + "" == "and";
    NoMarks();
    MarkedIsSolid(Noun(cents, "cent"), ending);
    SolidAppend(Lead(dollars), [Noun(dollars, "dollar") + stop]);
    SolidAppend(Lead(dollars) + [Noun(dollars, "dollar") + stop], ["and"]);
    SolidAppend(Lead(dollars) + [Noun(dollars, "dollar") + stop] + ["and"], Tokens(cents));
    SolidAppend(Lead(dollars) + [Noun(dollars, "dollar") + stop] + ["and"] + Tokens(cents),
                [Noun(cents, "cent") + ending]);
  }

  lemma NoMarks()
    ensures Marks("")
  {
  }

  /** The words joined, in three parts. */
  lemma TranscribedJoins(dollars: nat, cents: nat, stop: string, ending: string)
    ensures Join(Transcribed(dollars, cents, stop, ending))
         == Join(Lead(dollars)) + " " + (Noun(dollars, "dollar") + stop) + " " + "and" + " " + Join(Rest(cents))
            + ending
  {
    hide Join, Tokens, Noun, Lower;
    var lead, d, c, n := Lead(dollars), Noun(dollars, "dollar") + stop, Tokens(cents), Noun(cents, "cent");
    TokensLower(cents);
    JoinAppend(lead, [d]);
    JoinAppend(lead + [d], ["and"]);
    JoinAppend(lead + [d] + ["and"], c);
    JoinAppend(lead + [d] + ["and"] + c, [n + ending]);
    JoinAppend(c, [n]);
    JoinOne([d]);
    JoinOne(["and"]);
    JoinOne([n]);
    JoinOne([n + ending]);
    EndingLast(Join(lead) + " " + d + " " + "and", Join(c), n, ending);
    hide Lead;
  }

  lemma EndingLast(head: string, c: string, n: string, ending: string)
    ensures head + " " + c + " " + (n + ending) == head + " " + (c + " " + n) + ending
  {
  }

  /** Letters and spaces, with letters at both ends. */
  predicate Worded(s: string) {
    && s != "" && IsLetter(s[0]) && IsLetter(s[|s| - 1])
    && forall i :: 0 <= i < |s| ==> IsLetter(s[i]) || s[i] == ' '
  }

  lemma WordedSpace(a: string, b: string)
    requires Worded(a) && Worded(b)
    ensures Worded(a + " " + b)
  {
    hide IsLetter;
    var s := a + " " + b;
    assert forall i :: 0 <= i < |a| ==> s[i] == a[i];
    assert s[|a|] == ' ';
    assert forall i :: |a| < i < |s| ==> s[i] == b[i - |a| - 1];
  }

  lemma LowerIsWorded(w: string)
    requires Lower(w)
    ensures Worded(w)
  {
  }

  lemma {:induction false} JoinIsWorded(words: seq<string>)
    requires words != [] && AllLower(words)
    ensures Worded(Join(words))
  {
    hide Lower, Worded;
    LowerIsWorded(words[0]);
    if |words| > 1 {
      JoinIsWorded(words[1..]);
      WordedSpace(words[0], Join(words[1..]));
    }
  }

  /** A cleaned-up sentence, but for the marks behind the dollars. */
  function Sounded(lead: string, noun: string, rest: string): string {
    lead + " " + noun + " " + "and" + " " + rest
  }

  lemma SoundedIsWorded(lead: string, noun: string, rest: string)
    requires Worded(lead) && Worded(noun) && Worded(rest)
    ensures Worded(Sounded(lead, noun, rest))
  {
    hide Worded;
    LowerIsWorded("and");
    WordedSpace(lead, noun);
    WordedSpace(lead + " " + noun, "and");
    WordedSpace(lead + " " + noun + " " + "and", rest);
  }

  lemma WordedHasNoMarks(s: string)
    requires Worded(s)
    ensures forall i :: 0 <= i < |s| ==> !IsMark(s[i])
    ensures !IsSpace(s[0]) && !IsSpace(s[|s| - 1])
  {
  }

  /** Where the parts of a sentence with a mark behind the dollars stand. */
  lemma StoppedParts(lead: string, noun: string, m: char, rest: string)
    requires (noun == "dollar" || noun == "dollars") && IsMark(m) && Worded(lead) && Worded(rest)
    ensures
      var t, i := Sounded(lead, noun + [m], rest), |lead| + 1;
      && BrokenAt(t, i, noun, i + |noun| + 2)
      && forall j :: 0 <= j < |t| && j != i + |noun| ==> !IsMark(t[j])
  {
    var t, i := Sounded(lead, noun + [m], rest), |lead| + 1;
    var k := i + |noun| + 2;
    assert Worded(noun);
    assert t == lead + " " + noun + [m] + " " + "and" + " " + rest;
    hide Sounded, IsLetter, Worded;
    StoppedSlices(lead, noun, m, rest, t);
    WordedHasNoMarks(lead);
    WordedHasNoMarks(rest);
    WordedHasNoMarks(noun);
    WordedHasNoMarks("and") by { LowerIsWorded("and"); }
    hide IsMark, IsWordChar, IsSpace;
    Blank();
  }

  lemma Blank()
    ensures IsSpace(' ') && !IsWordChar(' ') && !IsMark(' ')
  {
  }

  lemma StoppedSlices(lead: string, noun: string, m: char, rest: string, t: string)
    requires t == lead + " " + noun + [m] + " " + "and" + " " + rest
    ensures
      var i := |lead| + 1;
      var k := i + |noun| + 2;
      && |t| == k + 4 + |rest| && t[i - 1] == ' ' && t[i + |noun|] == m && t[k - 1] == ' ' && t[k + 3] == ' '
      && t[..i + |noun|] == lead + " " + noun && t[i..i + |noun|] == noun && t[k..k + 3] == "and"
      && t[k + 3..] == " " + rest
      && (forall j :: 0 <= j < |lead| ==> t[j] == lead[j])
      && (forall j :: k + 4 <= j < |t| ==> t[j] == rest[j - k - 4])
      && (forall j :: i <= j < i + |noun| ==> t[j] == noun[j - i])
      && (forall j :: k <= j < k + 3 ==> t[j] == "and"[j - k])
  {
    assert t == (lead + " " + noun + [m] + " ") + "and" + (" " + rest);
  }

  /** A mark behind the dollars goes, and the sentence is as if it had not been there. */
  lemma StopGoes(lead: string, noun: string, m: char, rest: string)
    requires (noun == "dollar" || noun == "dollars") && IsMark(m) && Worded(lead) && Worded(rest)
    ensures CloseBoundary(Sounded(lead, noun + [m], rest), 0) == Sounded(lead, noun, rest)
  {
    var t, i := Sounded(lead, noun + [m], rest), |lead| + 1;
    assert t == lead + " " + noun + [m] + " " + "and" + " " + rest;
    hide IsMark, CloseBoundary, BrokenAt, Worded;
    StoppedParts(lead, noun, m, rest);
    BoundaryCloses(t, i, noun, i + |noun| + 2);
    StoppedSlices(lead, noun, m, rest, t);
    ClosedIs(lead + " " + noun, rest);
  }

  lemma ClosedIs(head: string, rest: string)
    ensures head + " and" + (" " + rest) == head + " " + "and" + " " + rest
  {
  }

  lemma SoundedUnfolds(lead: string, noun: string, rest: string)
    ensures Sounded(lead, noun, rest) == lead + " " + noun + " " + "and" + " " + rest
  {
  }

  /** Without a mark behind the dollars, these are the words of the price sentence. */
  lemma SoundedIsTheSentence(dollars: nat, cents: nat)
    ensures Sounded(Join(Lead(dollars)), Noun(dollars, "dollar"), Join(Rest(cents)))
         == Join(OPENING_WORDS + AmountTokens(dollars, cents))
  {
    hide Join, Tokens, Noun, Lead, Rest, Sounded;
    TranscribedJoins(dollars, cents, "", "");
    SoundedUnfolds(Join(Lead(dollars)), Noun(dollars, "dollar"), Join(Rest(cents)));
    assert Noun(dollars, "dollar") + "" == Noun(dollars, "dollar") && Noun(cents, "cent") + "" == Noun(cents, "cent");
    TranscribedPlain(dollars, cents);
  }

  lemma TranscribedPlain(dollars: nat, cents: nat)
    ensures Transcribed(dollars, cents, "", "") == OPENING_WORDS + AmountTokens(dollars, cents)
  {
    hide Tokens, Noun;
    assert Noun(dollars, "dollar") + "" == Noun(dollars, "dollar") && Noun(cents, "cent") + "" == Noun(cents, "cent");
  }

  /** The marks at the end and behind the dollars go in the clean-up of a joined transcript. */
  lemma MarksGo(lead: string, noun: string, stop: string, rest: string, ending: string)
    requires (noun == "dollar" || noun == "dollars") && Worded(lead) && Worded(rest)
    requires |stop| <= 1 && Marks(stop) && Marks(ending)
    ensures CloseBoundary(TrimSpaces(TrimMarks(Sounded(lead, noun + stop, rest) + ending)), 0)
         == Sounded(lead, noun, rest)
  {
    hide CloseBoundary, IsMark, IsSpace, TrimMarks, TrimSpaces;
    var t := Sounded(lead, noun + stop, rest);
    SoundedUnfolds(lead, noun + stop, rest);
    WordedHasNoMarks(lead);
    WordedHasNoMarks(rest);
    assert t[0] == lead[0] && t[|t| - 1] == rest[|rest| - 1];
    hide Sounded, Worded;
    TrimmedMarks(t, ending);
    TrimmedSpaces("", t, "");
    assert "" + t + "" == t;
    if stop == "" {
      assert noun + stop == noun;
      LowerIsWorded(noun);
      SoundedIsWorded(lead, noun, rest);
      WordedHasNoMarks(t);
      NoMarksNoChange(t, 0);
      assert t[0..] == t;
    } else {
      assert stop == [stop[0]];
      StopGoes(lead, noun, stop[0], rest);
    }
  }

  lemma NounIs(n: nat)
    ensures Noun(n, "dollar") == "dollar" || Noun(n, "dollar") == "dollars"
  {
    assert "dollar" + "s" == "dollars";
  }

  lemma WordsClean(dollars: nat, cents: nat, stop: string, ending: string)
    requires |stop| <= 1 && Marks(stop) && Marks(ending)
    ensures CloseBoundary(TrimSpaces(TrimMarks(Join(Transcribed(dollars, cents, stop, ending)))), 0)
         == Join(OPENING_WORDS + AmountTokens(dollars, cents))
  {
    hide *;
    var lead, noun, rest := Join(Lead(dollars)), Noun(dollars, "dollar"), Join(Rest(cents));
    TranscribedJoins(dollars, cents, stop, ending);
    SoundedUnfolds(lead, noun + stop, rest);
    WordsAreLower(dollars, cents);
    JoinIsWorded(Lead(dollars));
    JoinIsWorded(Rest(cents));
    NounIs(dollars);
    MarksGo(lead, noun, stop, rest, ending);
    SoundedIsTheSentence(dollars, cents);
  }

  /** Two texts that clean up to the same are understood alike. */
  lemma CleanedAlike(a: string, b: string)
    requires Normalized(a) == Normalized(b)
    ensures ParseAmount(a) == ParseAmount(b)
  {
  }

  /**
   * Whatever is heard of a price sentence is read back as that price: in capitals or not, with
   * hyphens or spaces inside numbers, with any spaces between the words and around them, with a
   * mark behind the dollars or not, and with any marks at the end.
   */
  lemma TranscriptsComeBack(text: string, gaps: seq<string>, dollars: nat, cents: nat, stop: string, ending: string)
    requires dollars < 10000 && cents < 100
    requires |stop| <= 1 && Marks(stop) && Marks(ending)
    requires |gaps| == |Transcribed(dollars, cents, stop, ending)| + 1 && GapsOf(gaps, IsSpace)
    requires HyphensToSpaces(ToLower(text)) == Weave(gaps, Transcribed(dollars, cents, stop, ending))
    ensures ParseAmount(text) == Some(Money(dollars, cents))
  {
    hide *;
    TranscribedIsSolid(dollars, cents, stop, ending);
    RunsOfWeave(gaps, Transcribed(dollars, cents, stop, ending), IsSpace);
    WordsAreRuns(HyphensToSpaces(ToLower(text)));
    NormalizedUnfolds(text);
    WordsClean(dollars, cents, stop, ending);
    NormalizedSentence(dollars, cents);
    CleanedAlike(text, Sentence(dollars, cents));
    SentenceParses(dollars, cents);
  }

  lemma WordsAreRuns(s: string)
    ensures Words(s) == Runs(s, IsSpace)
  {
  }
}
