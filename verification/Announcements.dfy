/**
 * The price sentence the test IVR speaks and the parser that reads it back: the round trip
 * of every price, and exactly which texts are understood as an amount.
 */
module Announcements {
  import opened Prelude
  import opened SpokenNumbers

  // ------------------------------------------------------------------ the printer

  /** A price as configured: up to four digits without a leading zero, a point and two digits. */
  predicate MoneyLiteral(a: string) {
    |a| >= 4 && a[|a| - 3] == '.' && ShortNumeral(a[..|a| - 3]) && AllDigits(a[|a| - 2..])
  }

  function Dollars(a: string): nat
    requires MoneyLiteral(a)
  {
    NumeralIsDigits(a[..|a| - 3]);
    DigitsValue(a[..|a| - 3])
  }

  function Cents(a: string): nat
    requires MoneyLiteral(a)
  {
    DigitsValue(a[|a| - 2..])
  }

  function Noun(n: nat, one: string): string {
    if n == 1 then one else one + "s"
  }

  function Body(dollars: nat, cents: nat): string {
    IntegerWords(dollars) + " " + Noun(dollars, "dollar") + " " + "and" + " " + IntegerWords(cents) + " "
    + Noun(cents, "cent")
  }

  function Sentence(dollars: nat, cents: nat): string {
    "Your requested value is " + Body(dollars, cents) + "."
  }

  function ResultPrompt(a: string): string
    requires MoneyLiteral(a)
  {
    Sentence(Dollars(a), Cents(a))
  }

  // ------------------------------------------------------------------- the parser

  /** Lower case, for ASCII letters. */
  function ToLower(s: string): (r: string)
    ensures |r| == |s|
  {
    seq(|s|, i requires 0 <= i < |s| => if 'A' <= s[i] <= 'Z' then s[i] - 'A' + 'a' else s[i])
  }

  function IsLetter(c: char): bool { 'a' <= c <= 'z' }

  /** A hyphen between two letters becomes a space. */
  function HyphensToSpaces(s: string): (r: string)
    ensures |r| == |s|
  {
    seq(|s|, i requires 0 <= i < |s| =>
      if s[i] == '-' && 0 < i < |s| - 1 && IsLetter(s[i - 1]) && IsLetter(s[i + 1]) then ' ' else s[i])
  }

  function IsMark(c: char): bool { c == '.' || c == '!' || c == '?' }

  function TrimMarks(s: string): string {
    if s != "" && IsMark(s[|s| - 1]) then TrimMarks(s[..|s| - 1]) else s
  }

  function TrimSpaces(s: string): string
    decreases |s|
  {
    if s == "" then s
    else if IsSpace(s[|s| - 1]) then TrimSpaces(s[..|s| - 1])
    else if IsSpace(s[0]) then TrimSpaces(s[1..])
    else s
  }

  function IsWordChar(c: char): bool { IsLetter(c) || 'A' <= c <= 'Z' || IsDigit(c) || c == '_' }

  /** At `i`: the word dollar or dollars, a closing mark, spaces, and the word and; what follows the "and". */
  function BrokenBoundary(s: string, i: nat): Option<(nat, nat)>
    requires i < |s|
  {
    if (i > 0 && IsWordChar(s[i - 1])) || !Starts(s[i..], "dollar") then None
    else
      var noun := if Starts(s[i..], "dollars") then i + 7 else i + 6;
      if noun >= |s| || !IsMark(s[noun]) then None
      else
        var next := SpacesEnd(s, noun + 1);
        if next == noun + 1 || !Starts(s[next..], "and") || (next + 3 < |s| && IsWordChar(s[next + 3])) then None
        else Some((noun, next + 3))
  }

  function SpacesEnd(s: string, i: nat): (k: nat)
    requires i <= |s|
    ensures i <= k <= |s|
    decreases |s| - i
  {
    if i < |s| && IsSpace(s[i]) then SpacesEnd(s, i + 1) else i
  }

  /** Punctuation a transcriber put between the dollars and the cents is dropped, from `i` on. */
  function CloseBoundary(s: string, i: nat): string
    requires i <= |s|
    decreases |s| - i
  {
    if i == |s| then ""
    else match BrokenBoundary(s, i)
      case None => [s[i]] + CloseBoundary(s, i + 1)
      case Some((noun, after)) => s[i..noun] + " and" + CloseBoundary(s, after)
  }

  function Normalized(text: string): string {
    var squeezed := Join(Words(HyphensToSpaces(ToLower(text))));
    CloseBoundary(TrimSpaces(TrimMarks(squeezed)), 0)
  }

  predicate Ends(s: string, suffix: string) {
    |suffix| <= |s| && s[|s| - |suffix|..] == suffix
  }

  function WithoutComma(s: string): string {
    if |s| >= 2 && s[1] == ',' then [s[0]] + s[2..] else s
  }

  /** A price in figures, with an optional dollar sign, thousands comma and unit. */
  function Figures(body: string): Option<string> {
    var s := if Starts(body, "$") then body[1..] else body;
    var t := if Ends(s, " dollars") then s[..|s| - 8] else if Ends(s, " dollar") then s[..|s| - 7] else s;
    var plain := WithoutComma(t);
    if MoneyLiteral(plain) && (plain == t || (|plain| == 7 && plain[0] != '0')) then Some(plain) else None
  }

  function CentsWords(tail: string): Option<string> {
    if Ends(tail, " cents") && |tail| > 6 then Some(tail[..|tail| - 6])
    else if Ends(tail, " cent") && |tail| > 5 then Some(tail[..|tail| - 5])
    else None
  }

  /** The cents after a dollar boundary at `i`. */
  function SplitAt(body: string, i: nat): Option<string>
    requires i <= |body|
  {
    if Starts(body[i..], " dollars and ") then CentsWords(body[i + 13..])
    else if Starts(body[i..], " dollar and ") then CentsWords(body[i + 12..])
    else None
  }

  /** The last boundary at or before `i`, as a greedy match finds it. */
  function Split(body: string, i: nat): Option<(string, string)>
    requires i <= |body|
  {
    if i == 0 then None
    else match SplitAt(body, i)
      case Some(cents) => Some((body[..i], cents))
      case None => Split(body, i - 1)
  }

  function Money(dollars: nat, cents: nat): string
    requires cents < 100
  {
    Numeral(dollars) + "." + [Digit(cents / 10), Digit(cents % 10)]
  }

  const OPENING := "your requested value is "

  /** What the parser makes of the text after the opening words. */
  function BodyAmount(body: string): Option<string> {
    match Figures(body)
    case Some(amount) => Some(amount)
    case None =>
      match Split(body, |body|)
      case None => None
      case Some((dollars, cents)) =>
        var d, c := Integer(dollars, 9999), Integer(cents, 99);
        if d.Some? && c.Some? then Some(Money(d.value, c.value)) else None
  }

  function ParseAmount(text: string): Option<string> {
    var normalized := Normalized(text);
    if !Starts(normalized, OPENING) || |normalized| == |OPENING| then None
    else BodyAmount(normalized[|OPENING|..])
  }

  lemma KnownBody()
    ensures Body(1, 2) == "one dollar and two cents"
  {
    KnownDigits();
    hide IntegerWords;
    assert "dollar" + "s" == "dollars" && "cent" + "s" == "cents";
  }

  /** A whole sentence, as it is spoken. */
  lemma KnownSentence()
    ensures Sentence(1, 2) == "Your requested value is one dollar and two cents."
  {
    KnownBody();
    hide Body;
    assert Sentence(1, 2) == "Your requested value is " + "one dollar and two cents" + ".";
  }

  lemma TwoDigits(c: nat)
    requires c < 100
    ensures AllDigits([Digit(c / 10), Digit(c % 10)])
  {
  }

  lemma MoneyIsLiteral(dollars: nat, cents: nat)
    requires dollars < 10000 && cents < 100
    ensures MoneyLiteral(Money(dollars, cents))
  {
    hide Numeral, ShortNumeral;
    NumeralIsShort(dollars);
    TwoDigits(cents);
    var a := Money(dollars, cents);
    assert a[..|a| - 3] == Numeral(dollars) && a[|a| - 2..] == [Digit(cents / 10), Digit(cents % 10)];
  }

  /** Whatever text is heard, an accepted amount is a well-formed price below ten thousand dollars. */
  lemma AcceptedAmountsAreMoney(text: string)
    ensures ParseAmount(text).Some? ==> MoneyLiteral(ParseAmount(text).value)
  {
    hide Normalized, MoneyLiteral, Integer, Split;
    var normalized := Normalized(text);
    if Starts(normalized, OPENING) && |normalized| > |OPENING| {
      var body := normalized[|OPENING|..];
      if Figures(body).None? && Split(body, |body|).Some? {
        var (dollars, cents) := Split(body, |body|).value;
        var d, c := Integer(dollars, 9999), Integer(cents, 99);
        if d.Some? && c.Some? {
          IntegerIsExact(dollars, 9999, d.value);
          IntegerIsExact(cents, 99, c.value);
          MoneyIsLiteral(d.value, c.value);
        }
      }
    }
  }

  // ------------------------------------------------- lower-casing and hyphens, undone exactly

  /** Lower-case letters, single hyphens inside words, and spaces; letters at both ends. */
  predicate Tidy(s: string) {
    && s != "" && IsLetter(s[0]) && IsLetter(s[|s| - 1])
    && (forall i :: 0 <= i < |s| ==> IsLetter(s[i]) || s[i] == ' ' || s[i] == '-')
    && (forall i :: 0 <= i < |s| && s[i] == '-' ==> 0 < i < |s| - 1 && IsLetter(s[i - 1]) && IsLetter(s[i + 1]))
  }

  lemma TidySpace(a: string, b: string)
    requires Tidy(a) && Tidy(b)
    ensures Tidy(a + " " + b)
  {
    var s := a + " " + b;
    assert forall i :: 0 <= i < |a| ==> s[i] == a[i];
    assert s[|a|] == ' ';
    assert forall i :: |a| < i < |s| ==> s[i] == b[i - |a| - 1];
    assert s[|s| - 1] == b[|b| - 1];
  }

  lemma TidyHyphen(a: string, b: string)
    requires Lower(a) && Lower(b)
    ensures Tidy(a + "-" + b)
  {
    var s := a + "-" + b;
    assert forall i :: 0 <= i < |a| ==> s[i] == a[i];
    assert forall i :: |a| < i < |s| ==> s[i] == b[i - |a| - 1];
  }

  lemma TidyLower(w: string)
    requires Lower(w)
    ensures Tidy(w)
  {
  }

  lemma SmallWordsAreTidy(n: nat)
    requires n < 100
    ensures Tidy(IntegerWords(n))
  {
    hide *;
    SmallWords(n);
    if n < 20 {
      SmallLower(n);
      TidyLower(IntegerWords(n));
    } else {
      TensLower(n / 10);
      SmallLower(n % 10);
      if n % 10 != 0 { TidyHyphen(TENS[n / 10], SMALL[n % 10]); } else { TidyLower(TENS[n / 10]); }
    }
  }

  lemma {:induction false} WordsAreTidy(n: nat)
    ensures Tidy(IntegerWords(n))
  {
    hide *;
    if n < 100 {
      SmallWordsAreTidy(n);
    } else {
      var divisor, unit := if n < 1000 then 100 else 1000, if n < 1000 then "hundred" else "thousand";
      GroupsUnfold(n, divisor, unit);
      WordsAreTidy(n / divisor);
      WordsAreTidy(n % divisor);
      UnitsLower(unit);
      TidyLower(unit);
      TidySpace(IntegerWords(n / divisor), unit);
      if n % divisor != 0 { TidySpace(IntegerWords(n / divisor) + " " + unit, IntegerWords(n % divisor)); }
    }
  }

  /** On tidy text closed by a full stop, every hyphen becomes a space and nothing else changes. */
  lemma TidyHyphensGo(s: string)
    requires Tidy(s)
    ensures ToLower(s + ".") == s + "." && HyphensToSpaces(s + ".") == Unhyphened(s) + "."
  {
    var t := s + ".";
    assert forall i :: 0 <= i < |s| ==> t[i] == s[i];
    assert ToLower(t) == t;
    forall i | 0 <= i < |t| ensures HyphensToSpaces(t)[i] == (Unhyphened(s) + ".")[i] {
      if i < |s| && s[i] == '-' { assert t[i - 1] == s[i - 1] && t[i + 1] == s[i + 1]; }
    }
    assert HyphensToSpaces(t) == Unhyphened(s) + ".";
  }

  // ----------------------------------------------------------------- the sentence as words

  /** A sentence of tidy parts, and the words each part reads as. */
  ghost predicate Reads(s: string, words: seq<string>) {
    Tidy(s) && AllLower(words) && words != [] && Unhyphened(s) == Join(words)
  }

  lemma ReadsSpace(a: string, b: string, v: seq<string>, w: seq<string>)
    requires Reads(a, v) && Reads(b, w)
    ensures Reads(a + " " + b, v + w)
  {
    hide Tidy, Lower, AllLower;
    TidySpace(a, b);
    UnhyphenedSpace(a, b);
    JoinAppend(v, w);
    AllLowerAppend(v, w);
  }

  lemma ReadsWord(w: string)
    requires Lower(w)
    ensures Reads(w, [w])
  {
    TidyLower(w);
    LowerHasNoHyphen(w);
  }

  lemma ReadsNumber(n: nat)
    ensures Reads(IntegerWords(n), Tokens(n))
  {
    hide *;
    WordsAreTidy(n);
    TokensLower(n);
    SpokenIsJoined(n);
    SpokenUnfolds(n);
    ReadsIs(IntegerWords(n), Tokens(n));
  }

  lemma ReadsIs(s: string, words: seq<string>)
    requires Tidy(s) && AllLower(words) && words != [] && Unhyphened(s) == Join(words)
    ensures Reads(s, words)
  {
  }

  const OPENING_WORDS := ["your", "requested", "value", "is"]

  lemma ReadsOpening()
    ensures Reads("your requested value is", OPENING_WORDS)
  {
    hide Reads, Tidy;
    ReadsWord("your");
    ReadsWord("requested");
    ReadsWord("value");
    ReadsWord("is");
    ReadsSpace("your", "requested", ["your"], ["requested"]);
    assert "your" + " " + "requested" == "your requested";
    ReadsSpace("your requested", "value", ["your"] + ["requested"], ["value"]);
    assert "your requested" + " " + "value" == "your requested value";
    ReadsSpace("your requested value", "is", ["your"] + ["requested"] + ["value"], ["is"]);
    assert "your requested value" + " " + "is" == "your requested value is";
    assert ["your"] + ["requested"] + ["value"] + ["is"] == OPENING_WORDS;
  }

  /** The words of the amount in the sentence. */
  function AmountTokens(dollars: nat, cents: nat): seq<string> {
    Tokens(dollars) + [Noun(dollars, "dollar")] + ["and"] + Tokens(cents) + [Noun(cents, "cent")]
  }

  lemma NounsAreLower(n: nat)
    ensures Lower(Noun(n, "dollar")) && Lower(Noun(n, "cent")) && Lower("and")
  {
  }

  lemma BodyReads(dollars: nat, cents: nat)
    ensures Reads(Body(dollars, cents), AmountTokens(dollars, cents))
  {
    hide Reads, IntegerWords, Tokens, Noun, Lower;
    NounsAreLower(dollars);
    NounsAreLower(cents);
    ReadsNumber(dollars);
    ReadsNumber(cents);
    ReadsWord(Noun(dollars, "dollar"));
    ReadsWord("and");
    ReadsWord(Noun(cents, "cent"));
    var d, noun := IntegerWords(dollars), Noun(dollars, "dollar");
    ReadsSpace(d, noun, Tokens(dollars), [noun]);
    ReadsSpace(d + " " + noun, "and", Tokens(dollars) + [noun], ["and"]);
    ReadsSpace(d + " " + noun + " " + "and", IntegerWords(cents), Tokens(dollars) + [noun] + ["and"], Tokens(cents));
    ReadsSpace(d + " " + noun + " " + "and" + " " + IntegerWords(cents), Noun(cents, "cent"),
               Tokens(dollars) + [noun] + ["and"] + Tokens(cents), [Noun(cents, "cent")]);
  }

  lemma LowerSentence(dollars: nat, cents: nat)
    ensures ToLower(Sentence(dollars, cents)) == "your requested value is" + " " + Body(dollars, cents) + "."
  {
    hide IntegerWords, Noun, Reads, Tidy, Tokens;
    var s := Sentence(dollars, cents);
    var low := "your requested value is" + " " + Body(dollars, cents);
    assert s[0] == 'Y' && s == ['Y'] + (low + ".")[1..] by { Capital(Body(dollars, cents)); }
    BodyReads(dollars, cents);
    ReadsOpening();
    ReadsSpace("your requested value is", Body(dollars, cents), OPENING_WORDS, AmountTokens(dollars, cents));
    ReadsTidy(low, OPENING_WORDS + AmountTokens(dollars, cents));
    TidyHyphensGo(low);
    assert low[0] == 'y';
    LowerTail(low + ".", s);
  }

  lemma ReadsTidy(s: string, words: seq<string>)
    requires Reads(s, words)
    ensures Tidy(s)
  {
  }

  lemma LowerTail(low: string, s: string)
    requires low != "" && low[0] == 'y' && ToLower(low) == low && s == ['Y'] + low[1..]
    ensures ToLower(s) == low
  {
    forall i | 0 <= i < |s| ensures ToLower(s)[i] == low[i] {
      if i > 0 {
        assert s[i] == low[i];
        assert ToLower(low)[i] == low[i];
      }
    }
  }

  lemma Capital(body: string)
    ensures "Your requested value is " + body + "." == ['Y'] + ("your requested value is" + " " + body + ".")[1..]
  {
    var rest := "our requested value is ";
    assert "Your requested value is " == "Y" + rest && "your requested value is" + " " == "y" + rest;
    OtherFirst("Y", "y", rest, body);
  }

  lemma OtherFirst(a: string, b: string, rest: string, body: string)
    requires |a| == |b| == 1
    ensures a + rest + body + "." == a + (b + rest + body + ".")[1..]
  {
    assert a + rest + body + "." == a + (rest + body + ".");
    assert b + rest + body + "." == b + (rest + body + ".");
  }

  // -------------------------------------------------------- squeezing, trimming, closing

  lemma {:induction false} StopJoins(words: seq<string>)
    requires words != []
    ensures var last := |words| - 1;
            Join(words[..last] + [words[last] + "."]) == Join(words) + "."
  {
    var last := |words| - 1;
    if last == 0 {
      assert words[..0] + [words[0] + "."] == [words[0] + "."];
    } else {
      assert words == words[..last] + [words[last]];
      JoinAppend(words[..last], [words[last]]);
      JoinAppend(words[..last], [words[last] + "."]);
      assert Join(words[..last]) + " " + (words[last] + ".") == Join(words[..last]) + " " + words[last] + ".";
    }
  }

  lemma StopIsSolid(words: seq<string>)
    requires AllLower(words) && words != []
    ensures var last := |words| - 1; Solid(words[..last] + [words[last] + "."], IsSpace)
  {
    var last := |words| - 1;
    var stopped := words[..last] + [words[last] + "."];
    forall k, j | 0 <= k < |stopped| && 0 <= j < |stopped[k]| ensures !IsSpace(stopped[k][j]) {
      assert Lower(words[k]);
    }
    forall k | 0 <= k < |stopped| ensures stopped[k] != "" {
      assert Lower(words[k]);
    }
  }

  lemma SqueezeKeeps(words: seq<string>)
    requires AllLower(words) && words != []
    ensures Join(Words(Join(words) + ".")) == Join(words) + "."
  {
    hide Join, Runs, Solid;
    var last := |words| - 1;
    StopJoins(words);
    StopIsSolid(words);
    RunsOfJoin(words[..last] + [words[last] + "."], IsSpace);
  }

  lemma {:induction false} NoMarksNoChange(s: string, i: nat)
    requires i <= |s| && forall k :: 0 <= k < |s| ==> !IsMark(s[k])
    ensures CloseBoundary(s, i) == s[i..]
    decreases |s| - i
  {
    if i < |s| {
      NoMarksNoChange(s, i + 1);
      assert s[i..] == [s[i]] + s[i + 1..];
    }
  }

  /** Tidy text read as words comes back whole from the clean-up, without its full stop. */
  lemma CleanupKeeps(s: string, words: seq<string>)
    requires Reads(s, words)
    ensures CloseBoundary(TrimSpaces(TrimMarks(Join(Words(HyphensToSpaces(s + "."))))), 0) == Join(words)
  {
    hide *;
    var x := Join(words);
    ReadsTidy(s, words);
    ReadsJoin(s, words);
    ReadsLower(s, words);
    TidyHyphensGo(s);
    SqueezeKeeps(words);
    UnhyphenedTidy(s);
    TrimsStop(x);
    NoMarksNoChange(x, 0);
    assert x[0..] == x;
  }

  lemma ReadsJoin(s: string, words: seq<string>)
    requires Reads(s, words)
    ensures words != [] && Unhyphened(s) == Join(words)
  {
  }

  lemma UnhyphenedTidy(s: string)
    requires Tidy(s)
    ensures var x := Unhyphened(s);
            && x != "" && !IsSpace(x[0]) && !IsSpace(x[|x| - 1])
            && forall i :: 0 <= i < |x| ==> !IsMark(x[i])
  {
  }

  lemma TrimsStop(x: string)
    requires x != "" && !IsSpace(x[0]) && !IsSpace(x[|x| - 1]) && !IsMark(x[|x| - 1])
    ensures TrimSpaces(TrimMarks(x + ".")) == x
  {
    assert (x + ".")[..|x|] == x;
  }

  lemma NormalizedSentence(dollars: nat, cents: nat)
    ensures Normalized(Sentence(dollars, cents)) == Join(OPENING_WORDS + AmountTokens(dollars, cents))
  {
    hide *;
    var low := "your requested value is" + " " + Body(dollars, cents);
    BodyReads(dollars, cents);
    ReadsOpening();
    ReadsSpace("your requested value is", Body(dollars, cents), OPENING_WORDS, AmountTokens(dollars, cents));
    LowerSentence(dollars, cents);
    CleanupKeeps(low, OPENING_WORDS + AmountTokens(dollars, cents));
    NormalizedUnfolds(Sentence(dollars, cents));
  }

  lemma NormalizedUnfolds(s: string)
    ensures Normalized(s) == CloseBoundary(TrimSpaces(TrimMarks(Join(Words(HyphensToSpaces(ToLower(s)))))), 0)
  {
  }

  // ------------------------------------------------------------ finding the two numbers

  /** Every space in a join stands between two words. */
  lemma {:induction false} SpacesAreBetween(words: seq<string>, j: nat) returns (m: nat)
    requires Solid(words, IsSpace) && j < |Join(words)| && Join(words)[j] == ' '
    ensures 1 <= m < |words| && j == |Join(words[..m])|
    ensures j + 1 < |Join(words)| && Join(words)[j + 1] == words[m][0]
  {
    hide Join, IsSpace, Solid;
    JoinNone();
    SpaceFree(words, 0);
    if |words| == 1 {
      JoinOne(words);
      assert false;
    } else {
      var rest, first := words[1..], |words[0]|;
      JoinFrom(words);
      SpaceFree(words, 1);
      if j == first {
        m := 1;
        JoinOne(words[..1]);
      } else {
        assert Join(words)[j] == Join(rest)[j - first - 1];
        var k := SpacesAreBetween(rest, j - first - 1);
        m := k + 1;
        assert words[..m] == [words[0]] + rest[..k];
        JoinOne([words[0]]);
        JoinAppend([words[0]], rest[..k]);
        assert Join(words)[j + 1] == Join(rest)[j - first];
      }
    }
  }

  lemma JoinOne(words: seq<string>)
    requires |words| == 1
    ensures Join(words) == words[0]
  {
  }

  lemma JoinFrom(words: seq<string>)
    requires |words| > 1 && Solid(words, IsSpace)
    ensures Join(words) == words[0] + " " + Join(words[1..])
    ensures Solid(words[1..], IsSpace) && Join(words[1..]) != "" && Join(words[1..])[0] == words[1][0]
  {
    hide IsSpace;
    FirstOfJoin(words[1..]);
  }

  lemma FirstOfJoin(words: seq<string>)
    requires words != [] && words[0] != ""
    ensures Join(words) != "" && Join(words)[0] == words[0][0]
  {
  }

  lemma JoinNone()
    ensures Join([]) == ""
  {
  }

  lemma SpaceFree(words: seq<string>, i: nat)
    requires Solid(words, IsSpace) && i < |words|
    ensures words[i] != "" && forall k :: 0 <= k < |words[i]| ==> words[i][k] != ' '
  {
    assert IsSpace(' ');
  }

  lemma SmallNumbersAvoidD(n: nat)
    requires n < 100
    ensures forall k :: 0 <= k < |Tokens(n)| ==> Tokens(n)[k] != "" && Tokens(n)[k][0] != 'd'
  {
    if n < 20 {
      assert SMALL[n] != "" && SMALL[n][0] != 'd';
    } else {
      assert TENS[n / 10] != "" && TENS[n / 10][0] != 'd';
      assert SMALL[n % 10] != "" && SMALL[n % 10][0] != 'd';
    }
  }

  lemma {:induction false} NumbersAvoidD(n: nat)
    ensures forall k :: 0 <= k < |Tokens(n)| ==> Tokens(n)[k] != "" && Tokens(n)[k][0] != 'd'
  {
    if n < 100 {
      SmallNumbersAvoidD(n);
    } else {
      hide *;
      var divisor, unit := if n < 1000 then 100 else 1000, if n < 1000 then "hundred" else "thousand";
      assert unit[0] != 'd';
      TokenGroups(n, divisor, unit);
      NumbersAvoidD(n / divisor);
      NumbersAvoidD(n % divisor);
    }
  }

  /** A dollar boundary can only stand where a word begins with d. */
  lemma SplitNeedsD(body: string, i: nat)
    requires i <= |body| && SplitAt(body, i).Some?
    ensures i + 1 < |body| && body[i] == ' ' && body[i + 1] == 'd'
  {
    var boundary := if Starts(body[i..], " dollars and ") then " dollars and " else " dollar and ";
    assert body[i..][..|boundary|] == boundary;
    assert body[i] == boundary[0] && body[i + 1] == boundary[1];
  }

  lemma {:induction false} SplitFinds(body: string, i: nat, at: nat)
    requires 1 <= at <= i <= |body| && SplitAt(body, at).Some?
    requires forall j :: 0 <= j <= |body| && j != at ==> SplitAt(body, j).None?
    ensures Split(body, i) == Some((body[..at], SplitAt(body, at).value))
  {
    hide SplitAt;
    if i > at { SplitFinds(body, i - 1, at); }
  }

  lemma JoinedAmount(dollars: nat, cents: nat)
    ensures Join(AmountTokens(dollars, cents))
         == Join(Tokens(dollars)) + " " + Noun(dollars, "dollar") + " " + "and" + " " + Join(Tokens(cents)) + " "
            + Noun(cents, "cent")
  {
    hide *;
    BodyReads(dollars, cents);
    TokensLower(dollars);
    TokensLower(cents);
    var d, m, c, n := Tokens(dollars), Noun(dollars, "dollar"), Tokens(cents), Noun(cents, "cent");
    JoinAppend(d, [m]);
    JoinAppend(d + [m], ["and"]);
    JoinAppend(d + [m] + ["and"], c);
    JoinAppend(d + [m] + ["and"] + c, [n]);
    PairIsJoined(m, n);
    PairIsJoined("and", n);
    PairIsJoined(n, n);
    AmountTokensUnfold(dollars, cents);
  }

  lemma AmountTokensUnfold(dollars: nat, cents: nat)
    ensures AmountTokens(dollars, cents)
         == Tokens(dollars) + [Noun(dollars, "dollar")] + ["and"] + Tokens(cents) + [Noun(cents, "cent")]
  {
  }

  lemma SplitHere(body: string, left: string, m: string, right: string, n: string)
    requires m == "dollar" || m == "dollars"
    requires n == "cent" || n == "cents"
    requires right != "" && body == left + " " + m + " " + "and" + " " + right + " " + n
    ensures |left| <= |body| && body[..|left|] == left && SplitAt(body, |left|) == Some(right)
  {
    var tail := right + " " + n;
    var boundary := " " + m + " and ";
    assert boundary == " " + m + " " + "and" + " ";
    assert body == left + (boundary + tail);
    assert body[|left|..] == boundary + tail;
    BoundaryIs(m, tail);
    assert body[|left| + |boundary|..] == tail;
    CentsAre(right, n);
  }

  lemma BoundaryIs(m: string, tail: string)
    requires m == "dollar" || m == "dollars"
    ensures var s := " " + m + " and " + tail;
            && Starts(s, " dollars and ") == (m == "dollars")
            && Starts(s, " dollar and ") == (m == "dollar")
            && |" " + m + " and "| == if m == "dollars" then 13 else 12
  {
    var s := " " + m + " and " + tail;
    if m == "dollars" {
      assert " " + m + " and " == " dollars and ";
      assert s[..13] == " dollars and ";
      assert s[7] == 's' && " dollar and "[7] == ' ';
    } else {
      assert " " + m + " and " == " dollar and ";
      assert s[..12] == " dollar and ";
      assert s[7] == ' ' && " dollars and "[7] == 's';
    }
  }

  lemma CentsAre(right: string, n: string)
    requires right != "" && (n == "cent" || n == "cents")
    ensures CentsWords(right + " " + n) == Some(right)
  {
    var tail := right + " " + n;
    if n == "cents" {
      assert " " + n == " cents";
      assert tail[|tail| - 6..] == " cents" && tail[..|tail| - 6] == right;
    } else {
      assert " " + n == " cent" && tail == right + " cent";
      assert tail[|tail| - 5..] == " cent" && tail[..|tail| - 5] == right;
      assert tail[|tail| - 1] == 't' && " cents"[5] == 's';
      assert |tail| >= 6 ==> tail[|tail| - 6..][5] == 't';
    }
  }

  lemma SplitsAmount(dollars: nat, cents: nat)
    ensures var body := Join(AmountTokens(dollars, cents));
            Split(body, |body|) == Some((Join(Tokens(dollars)), Join(Tokens(cents))))
  {
    hide Join, Tokens, Split, SplitAt, Reads, AllLower, Lower;
    var words := AmountTokens(dollars, cents);
    var body, left, right := Join(words), Join(Tokens(dollars)), Join(Tokens(cents));
    JoinedAmount(dollars, cents);
    NumbersAreSomething(dollars);
    NumbersAreSomething(cents);
    SplitHere(body, left, Noun(dollars, "dollar"), right, Noun(cents, "cent"));
    forall j | 0 <= j <= |body| && j != |left| ensures SplitAt(body, j).None? {
      if SplitAt(body, j).Some? { OnlySplit(dollars, cents, j); }
    }
    SplitFinds(body, |body|, |left|);
  }

  lemma NumbersAreSomething(n: nat)
    ensures Join(Tokens(n)) != ""
  {
    hide Tokens;
    TokensLower(n);
    assert Lower(Tokens(n)[0]);
  }

  lemma OnlySplit(dollars: nat, cents: nat, j: nat)
    requires var body := Join(AmountTokens(dollars, cents)); j <= |body| && SplitAt(body, j).Some?
    ensures j == |Join(Tokens(dollars))|
  {
    hide Join, Tokens, SplitAt, Reads, Lower;
    var words := AmountTokens(dollars, cents);
    SplitNeedsD(Join(words), j);
    BodyReads(dollars, cents);
    ReadsLower(Body(dollars, cents), words);
    LowerIsSolid(words);
    var m := SpacesAreBetween(words, j);
    NumbersAvoidD(dollars);
    NumbersAvoidD(cents);
    assert words[m][0] == 'd';
    assert Noun(cents, "cent")[0] == 'c';
    assert words[..|Tokens(dollars)|] == Tokens(dollars);
  }

  lemma ReadsLower(s: string, words: seq<string>)
    requires Reads(s, words)
    ensures AllLower(words)
  {
  }

  // ------------------------------------------------------------------------ round trips

  lemma LettersAreNoFigures(body: string)
    requires body != "" && IsLetter(body[0])
    ensures Figures(body).None?
  {
    assert body[..1] != "$" by { assert body[..1][0] == body[0]; }
  }

  lemma MoneyOfLiteral(a: string)
    requires MoneyLiteral(a)
    ensures Dollars(a) < 10000 && Cents(a) < 100 && Money(Dollars(a), Cents(a)) == a
  {
    var head, tail := a[..|a| - 3], a[|a| - 2..];
    NumeralIsDigits(head);
    ValueHasNumeral(head);
    assert Power10(4) == 10000 && Power10(2) == 100;
    DigitsBound(head, 4, 10000);
    DigitsBound(tail, 2, 100);
    assert tail[..1][..0] == "";
    assert DigitsValue(tail) == 10 * DigitsValue(tail[..1]) + (tail[1] as int - '0' as int);
    assert DigitsValue(tail[..1]) == tail[0] as int - '0' as int;
    assert tail == [Digit(Cents(a) / 10), Digit(Cents(a) % 10)];
    assert a == head + "." + tail;
  }

  lemma OpeningJoins(words: seq<string>)
    requires words != []
    ensures Join(OPENING_WORDS + words) == OPENING + Join(words)
  {
    JoinAppend(OPENING_WORDS, words);
    assert Join(OPENING_WORDS) == "your requested value is" by {
      ReadsOpening();
      assert Unhyphened("your requested value is") == "your requested value is";
    }
    assert OPENING == "your requested value is" + " ";
  }

  lemma SentenceParses(dollars: nat, cents: nat)
    requires dollars < 10000 && cents < 100
    ensures ParseAmount(Sentence(dollars, cents)) == Some(Money(dollars, cents))
  {
    hide Normalized, Join, Tokens, Split, Figures, Integer, Money, Reads, Sentence, Lower, Spoken;
    var words := AmountTokens(dollars, cents);
    var body := Join(words);
    NormalizedSentence(dollars, cents);
    OpeningJoins(words);
    assert (OPENING + body)[..|OPENING|] == OPENING && (OPENING + body)[|OPENING|..] == body;
    AmountBegins(dollars, cents);
    LettersAreNoFigures(body);
    SplitsAmount(dollars, cents);
    SpokenIsJoined(dollars);
    SpokenIsJoined(cents);
    IntegerIsExact(Spoken(dollars), 9999, dollars);
    IntegerIsExact(Spoken(cents), 99, cents);
  }

  lemma AmountBegins(dollars: nat, cents: nat)
    ensures var body := Join(AmountTokens(dollars, cents)); body != "" && IsLetter(body[0])
  {
    hide Tokens, Join;
    BodyReads(dollars, cents);
    var words := AmountTokens(dollars, cents);
    FirstLetter(words);
  }

  lemma FirstLetter(words: seq<string>)
    requires words != [] && AllLower(words)
    ensures Join(words) != "" && IsLetter(Join(words)[0])
  {
    assert Lower(words[0]);
  }

  /** What the test IVR speaks for a configured price, the caller reads back as that very price. */
  lemma AmountsComeBack(a: string)
    requires MoneyLiteral(a)
    ensures ParseAmount(ResultPrompt(a)) == Some(a)
  {
    hide ParseAmount, Money, MoneyLiteral, Sentence;
    MoneyOfLiteral(a);
    SentenceParses(Dollars(a), Cents(a));
  }

  // ------------------------------------------------- exactly which amounts are understood

  /** A number as figures or as words. */
  predicate Says(text: string, n: nat) {
    text == Numeral(n) || text == Spoken(n)
  }

  /** The amount in figures: a dollar sign, a thousands comma and a unit are optional. */
  ghost predicate FiguresForm(body: string, a: string) {
    && MoneyLiteral(a)
    && exists sign, unit | sign in {"", "$"} && unit in {"", " dollar", " dollars"} ::
         body == sign + a + unit || (|a| == 7 && body == sign + ([a[0]] + "," + a[1..]) + unit)
  }

  /** The amount as two numbers with their units. */
  ghost predicate WordsForm(body: string, a: string, dollars: nat, cents: nat, left: string, m: string, right: string,
                            n: string)
  {
    && dollars < 10000 && cents < 100 && a == Money(dollars, cents)
    && Says(left, dollars) && Says(right, cents)
    && (m == "dollar" || m == "dollars") && (n == "cent" || n == "cents")
    && body == left + " " + m + " " + "and" + " " + right + " " + n
  }

  /** What stands before the sign and unit are taken off. */
  function Unsigned(body: string): string {
    if Starts(body, "$") then body[1..] else body
  }

  function Unitless(s: string): string {
    if Ends(s, " dollars") then s[..|s| - 8] else if Ends(s, " dollar") then s[..|s| - 7] else s
  }

  lemma UnitsGo(t: string, unit: string)
    requires unit in {"", " dollar", " dollars"}
    requires t != "" && IsDigit(t[|t| - 1])
    ensures Unitless(t + unit) == t
  {
    var s := t + unit;
    if unit == " dollars" {
      assert s[|s| - 8..] == unit && s[..|s| - 8] == t;
    } else if unit == " dollar" {
      assert s[|s| - 1] == 'r' && " dollars"[7] == 's';
      assert |s| >= 8 ==> s[|s| - 8..][7] == 'r';
      assert s[|s| - 7..] == unit && s[..|s| - 7] == t;
    } else {
      assert s == t;
      assert |s| >= 8 ==> s[|s| - 8..][7] == t[|t| - 1];
      assert |s| >= 7 ==> s[|s| - 7..][6] == t[|t| - 1];
      assert " dollars"[7] == 's' && " dollar"[6] == 'r';
    }
  }

  lemma UnitsCame(s: string)
    ensures exists unit | unit in {"", " dollar", " dollars"} :: s == Unitless(s) + unit
  {
    if Ends(s, " dollars") {
      assert s == s[..|s| - 8] + s[|s| - 8..];
      assert s == Unitless(s) + " dollars";
    } else if Ends(s, " dollar") {
      assert s == s[..|s| - 7] + s[|s| - 7..];
      assert s == Unitless(s) + " dollar";
    } else {
      assert s == Unitless(s) + "";
    }
  }

  lemma SignsGo(sign: string, t: string)
    requires sign in {"", "$"} && t != "" && IsDigit(t[0])
    ensures Unsigned(sign + t) == t
  {
    if sign == "" {
      assert sign + t == t && t[..1][0] == t[0];
    } else {
      assert (sign + t)[..1] == "$" && (sign + t)[1..] == t;
    }
  }

  lemma MoneyEnds(a: string)
    requires MoneyLiteral(a)
    ensures IsDigit(a[0]) && IsDigit(a[|a| - 1]) && a[1] != ',' && |a| <= 7
    ensures |a| == 7 ==> a[0] != '0'
  {
    var head, tail := a[..|a| - 3], a[|a| - 2..];
    NumeralIsDigits(head);
    assert head[0] == a[0] && tail[1] == a[|a| - 1];
    assert |head| > 1 ==> head[1] == a[1];
  }

  /** The text is read as figures for `a` exactly when it has that form. */
  lemma FiguresAreExact(body: string, a: string)
    ensures Figures(body) == Some(a) <==> FiguresForm(body, a)
  {
    hide MoneyLiteral;
    if FiguresForm(body, a) {
      var sign, unit :| sign in {"", "$"} && unit in {"", " dollar", " dollars"}
        && (body == sign + a + unit || (|a| == 7 && body == sign + ([a[0]] + "," + a[1..]) + unit));
      FiguresRead(body, a, sign, unit);
    }
    if Figures(body) == Some(a) {
      FiguresWritten(body, a);
    }
  }

  lemma FiguresRead(body: string, a: string, sign: string, unit: string)
    requires MoneyLiteral(a) && sign in {"", "$"} && unit in {"", " dollar", " dollars"}
    requires body == sign + a + unit || (|a| == 7 && body == sign + ([a[0]] + "," + a[1..]) + unit)
    ensures Figures(body) == Some(a)
  {
    MoneyEnds(a);
    hide *;
    var t := if body == sign + a + unit then a else [a[0]] + "," + a[1..];
    CommaGoes(a);
    FiguresOf(body, sign, t, unit);
    FiguresUnfold(body);
  }

  lemma CommaGoes(a: string)
    requires |a| >= 2 && a[1] != ','
    ensures WithoutComma(a) == a
    ensures var t := [a[0]] + "," + a[1..]; WithoutComma(t) == a && t[0] == a[0] && t[|t| - 1] == a[|a| - 1]
  {
    var t := [a[0]] + "," + a[1..];
    assert t[1] == ',' && [t[0]] + t[2..] == a;
  }

  lemma FiguresOf(body: string, sign: string, t: string, unit: string)
    requires sign in {"", "$"} && unit in {"", " dollar", " dollars"} && body == sign + t + unit
    requires t != "" && IsDigit(t[0]) && IsDigit(t[|t| - 1])
    ensures Unitless(Unsigned(body)) == t
  {
    hide Unitless, Unsigned;
    assert body == sign + (t + unit) && (t + unit)[0] == t[0];
    SignsGo(sign, t + unit);
    UnitsGo(t, unit);
  }

  lemma FiguresUnfold(body: string)
    ensures
      var t := Unitless(Unsigned(body));
      var plain := WithoutComma(t);
      Figures(body) ==
        if MoneyLiteral(plain) && (plain == t || (|plain| == 7 && plain[0] != '0')) then Some(plain) else None
  {
  }

  lemma FiguresWritten(body: string, a: string)
    requires Figures(body) == Some(a)
    ensures FiguresForm(body, a)
  {
    FiguresUnfold(body);
    var t := Unitless(Unsigned(body));
    var sign, unit := SignAndUnit(body);
    hide *;
    CommaCame(t);
    FormOf(body, a, sign, t, unit);
  }

  lemma SignAndUnit(body: string) returns (sign: string, unit: string)
    ensures sign in {"", "$"} && unit in {"", " dollar", " dollars"}
    ensures body == sign + Unitless(Unsigned(body)) + unit
  {
    hide Unitless;
    var s := Unsigned(body);
    UnitsCame(s);
    unit :| unit in {"", " dollar", " dollars"} && s == Unitless(s) + unit;
    sign := if Starts(body, "$") then "$" else "";
    assert body == sign + s by { if Starts(body, "$") { assert body == body[..1] + body[1..]; } }
    assert sign + (Unitless(s) + unit) == sign + Unitless(s) + unit;
  }

  lemma CommaCame(t: string)
    ensures WithoutComma(t) != t ==> |t| >= 2 && WithoutComma(t) != ""
                                     && t == [WithoutComma(t)[0]] + "," + WithoutComma(t)[1..]
  {
    if |t| >= 2 && t[1] == ',' { assert t == [t[0]] + "," + t[2..]; }
  }

  lemma FormOf(body: string, a: string, sign: string, t: string, unit: string)
    requires sign in {"", "$"} && unit in {"", " dollar", " dollars"} && body == sign + t + unit
    requires MoneyLiteral(a) && (t == a || (|a| == 7 && t == [a[0]] + "," + a[1..]))
    ensures FiguresForm(body, a)
  {
    hide MoneyLiteral;
  }

  /** The words a spoken number consists of, or its figures as one word. */
  function Pieces(text: string, n: nat): seq<string> {
    if text == Numeral(n) then [text] else Tokens(n)
  }

  lemma PiecesHold(text: string, n: nat)
    requires Says(text, n)
    ensures var p := Pieces(text, n);
            && p != [] && Join(p) == text && text != "" && Solid(p, IsSpace)
            && forall k :: 0 <= k < |p| ==> p[k][0] != 'd'
  {
    hide Tokens, Spoken;
    if text == Numeral(n) {
      NumeralDigits(n);
      var p := [text];
      assert forall j :: 0 <= j < |text| ==> IsDigit(text[j]);
      assert Solid(p, IsSpace);
      assert IsDigit(text[0]);
    } else {
      SpokenIsJoined(n);
      TokensLower(n);
      NumbersAvoidD(n);
      LowerIsSolid(Tokens(n));
      NumbersAreSomething(n);
    }
  }

  /** In a sentence of two numbers the only boundary is between them. */
  lemma OnlyBoundary(left: seq<string>, m: string, right: seq<string>, n: string, j: nat)
    requires left != [] && right != [] && Solid(left, IsSpace) && Solid(right, IsSpace)
    requires (forall k :: 0 <= k < |left| ==> left[k][0] != 'd') && forall k :: 0 <= k < |right| ==> right[k][0] != 'd'
    requires (m == "dollar" || m == "dollars") && (n == "cent" || n == "cents")
    requires var body := Join(left + [m] + ["and"] + right + [n]); j <= |body| && SplitAt(body, j).Some?
    ensures j == |Join(left)|
  {
    var words := left + [m] + ["and"] + right + [n];
    SplitNeedsD(Join(words), j);
    WordsAreSolid(left, m, right, n);
    hide SplitAt, Join, Solid;
    var k := SpacesAreBetween(words, j);
    assert words[k][0] == 'd';
    assert n[0] == 'c' && "and"[0] == 'a';
    assert words[..|left|] == left;
  }

  lemma WordsAreSolid(left: seq<string>, m: string, right: seq<string>, n: string)
    requires Solid(left, IsSpace) && Solid(right, IsSpace)
    requires (m == "dollar" || m == "dollars") && (n == "cent" || n == "cents")
    ensures Solid(left + [m] + ["and"] + right + [n], IsSpace)
  {
    assert Lower(m) && Lower("and") && Lower(n);
    LowerIsSolid([m]);
    LowerIsSolid(["and"]);
    LowerIsSolid([n]);
    SolidAppend(left, [m]);
    SolidAppend(left + [m], ["and"]);
    SolidAppend(left + [m] + ["and"], right);
    SolidAppend(left + [m] + ["and"] + right, [n]);
  }

  lemma SolidAppend(a: seq<string>, b: seq<string>)
    requires Solid(a, IsSpace) && Solid(b, IsSpace)
    ensures Solid(a + b, IsSpace)
  {
  }

  lemma SentenceJoins(left: seq<string>, m: string, right: seq<string>, n: string)
    requires left != [] && right != []
    ensures Join(left + [m] + ["and"] + right + [n])
         == Join(left) + " " + m + " " + "and" + " " + Join(right) + " " + n
  {
    hide Join;
    JoinAppend(left, [m]);
    JoinAppend(left + [m], ["and"]);
    JoinAppend(left + [m] + ["and"], right);
    JoinAppend(left + [m] + ["and"] + right, [n]);
    PairIsJoined(m, n);
    PairIsJoined("and", n);
    PairIsJoined(n, n);
  }

  /** A body that says two numbers is split into exactly those. */
  lemma WordsSplit(body: string, a: string, dollars: nat, cents: nat, left: string, m: string, right: string, n: string)
    requires WordsForm(body, a, dollars, cents, left, m, right, n)
    ensures Split(body, |body|) == Some((left, right))
  {
    hide Split, SplitAt, Join, Pieces, Says, Money, Solid;
    PiecesHold(left, dollars);
    PiecesHold(right, cents);
    var l, r := Pieces(left, dollars), Pieces(right, cents);
    SentenceJoins(l, m, r, n);
    SplitHere(body, left, m, right, n);
    forall j | 0 <= j <= |body| && j != |left| ensures SplitAt(body, j).None? {
      if SplitAt(body, j).Some? { OnlyBoundary(l, m, r, n, j); }
    }
    SplitFinds(body, |body|, |left|);
  }

  /** And a split body says two texts with their units. */
  lemma {:induction false} SplitSays(body: string, i: nat) returns (m: string, n: string)
    requires i <= |body| && Split(body, i).Some?
    ensures (m == "dollar" || m == "dollars") && (n == "cent" || n == "cents")
    ensures var (left, right) := Split(body, i).value; body == left + " " + m + " " + "and" + " " + right + " " + n
  {
    hide SplitAt;
    if SplitAt(body, i).Some? {
      m, n := SplitAtSays(body, i);
    } else {
      m, n := SplitSays(body, i - 1);
    }
  }

  lemma SplitAtSays(body: string, i: nat) returns (m: string, n: string)
    requires i <= |body| && SplitAt(body, i).Some?
    ensures (m == "dollar" || m == "dollars") && (n == "cent" || n == "cents")
    ensures body == body[..i] + " " + m + " " + "and" + " " + SplitAt(body, i).value + " " + n
  {
    m := if Starts(body[i..], " dollars and ") then "dollars" else "dollar";
    var boundary := if m == "dollars" then " dollars and " else " dollar and ";
    var tail := body[i + |boundary|..];
    assert CentsWords(tail).Some? && SplitAt(body, i) == CentsWords(tail);
    assert body == body[..i] + boundary + tail by { BoundaryCuts(body, i, boundary); }
    n := if Ends(tail, " cents") && |tail| > 6 then "cents" else "cent";
    var right := CentsWords(tail).value;
    CentsCut(tail, n);
    hide *;
    BoundarySpelled(m, n);
    SentenceRegroups(body[..i], " ", m, "and", right, n);
    assert body == body[..i] + boundary + (right + (" " + n));
  }

  lemma BoundaryCuts(body: string, i: nat, boundary: string)
    requires i <= |body| && Starts(body[i..], boundary)
    ensures i + |boundary| <= |body| && body == body[..i] + boundary + body[i + |boundary|..]
  {
    assert body[i..i + |boundary|] == body[i..][..|boundary|];
    assert body == body[..i] + body[i..i + |boundary|] + body[i + |boundary|..];
  }

  lemma CentsCut(tail: string, n: string)
    requires CentsWords(tail).Some? && n == if Ends(tail, " cents") && |tail| > 6 then "cents" else "cent"
    ensures tail == CentsWords(tail).value + (" " + n)
  {
    if n == "cents" {
      assert " " + n == " cents" && tail == tail[..|tail| - 6] + tail[|tail| - 6..];
    } else {
      assert " " + n == " cent" && tail == tail[..|tail| - 5] + tail[|tail| - 5..];
    }
  }

  lemma BoundarySpelled(m: string, n: string)
    ensures m == "dollars" ==> " dollars and " == " " + m + " " + "and" + " "
    ensures m == "dollar" ==> " dollar and " == " " + m + " " + "and" + " "
  {
  }

  lemma SentenceRegroups(left: string, s: string, m: string, w: string, right: string, n: string)
    ensures left + (s + m + s + w + s) + (right + (s + n)) == left + s + m + s + w + s + right + s + n
  {
    var boundary := s + m + s + w + s;
    assert left + boundary == left + s + m + s + w + s;
    var front := left + s + m + s + w + s;
    assert front + (right + (s + n)) == front + right + s + n;
  }

  /** The text ends like "cent" or "cents". */
  predicate EndsInCents(s: string) {
    |s| >= 8 && (s[|s| - 1] == 't' || (s[|s| - 1] == 's' && s[|s| - 2] == 't'))
  }

  lemma CentsAreNoUnit(s: string)
    requires EndsInCents(s)
    ensures Unitless(s) == s
  {
    assert s[|s| - 8..][7] == s[|s| - 1] && s[|s| - 8..][6] == s[|s| - 2] && s[|s| - 7..][6] == s[|s| - 1];
    assert " dollars"[7] == 's' && " dollars"[6] == 'r' && " dollar"[6] == 'r';
  }

  lemma CentsAreNoMoney(s: string)
    requires EndsInCents(s)
    ensures !MoneyLiteral(WithoutComma(s))
  {
    var plain := WithoutComma(s);
    assert s[1] == ',' ==> plain == [s[0]] + s[2..];
    assert plain[|plain| - 1] == s[|s| - 1] && !IsDigit(plain[|plain| - 1]);
    assert plain[|plain| - 2..][1] == plain[|plain| - 1];
  }

  /** A body that says two numbers is never read as figures. */
  lemma WordsAreNoFigures(body: string, left: string, m: string, right: string, n: string)
    requires (n == "cent" || n == "cents") && right != ""
    requires body == left + " " + m + " " + "and" + " " + right + " " + n
    ensures Figures(body).None?
  {
    var front := left + " " + m + " " + "and" + " " + right + " ";
    assert |front| >= 7 && body == front + n;
    assert body[|body| - 1] == n[|n| - 1] && body[|body| - 2] == n[|n| - 2];
    hide Figures, Unitless, WithoutComma, MoneyLiteral;
    assert EndsInCents(Unsigned(body));
    CentsAreNoUnit(Unsigned(body));
    CentsAreNoMoney(Unsigned(body));
    FiguresUnfold(body);
  }

  ghost predicate SaysAmount(body: string, a: string) {
    || FiguresForm(body, a)
    || exists dollars, cents, left, m, right, n :: WordsForm(body, a, dollars, cents, left, m, right, n)
  }

  lemma WordsAreRead(body: string, a: string, dollars: nat, cents: nat, left: string, m: string, right: string,
                     n: string)
    requires WordsForm(body, a, dollars, cents, left, m, right, n)
    ensures BodyAmount(body) == Some(a)
  {
    WordsSplit(body, a, dollars, cents, left, m, right, n);
    PiecesHold(right, cents);
    WordsAreNoFigures(body, left, m, right, n);
    IntegerIsExact(left, 9999, dollars);
    IntegerIsExact(right, 99, cents);
    hide Figures, Split, Integer, Money, Numeral, Spoken;
  }

  lemma BodyIsExact(body: string, a: string)
    ensures BodyAmount(body) == Some(a) <==> SaysAmount(body, a)
  {
    hide Figures, FiguresForm, Split, Integer, Money;
    FiguresAreExact(body, a);
    if Figures(body).None? && BodyAmount(body) == Some(a) {
      var (left, right) := Split(body, |body|).value;
      var m, n := SplitSays(body, |body|);
      var d, c := Integer(left, 9999).value, Integer(right, 99).value;
      IntegerIsExact(left, 9999, d);
      IntegerIsExact(right, 99, c);
      assert WordsForm(body, a, d, c, left, m, right, n);
    }
    hide BodyAmount, WordsForm;
    forall dollars, cents, left, m, right, n | WordsForm(body, a, dollars, cents, left, m, right, n)
      ensures BodyAmount(body) == Some(a)
    {
      WordsAreRead(body, a, dollars, cents, left, m, right, n);
    }
    FiguresFirst(body, a);
  }

  lemma FiguresFirst(body: string, a: string)
    ensures Figures(body) == Some(a) ==> BodyAmount(body) == Some(a)
    ensures Figures(body).Some? ==> BodyAmount(body) == Figures(body)
  {
  }

  /**
   * The whole language of amounts: a text is understood as `a` exactly when, cleaned up, it
   * is the opening words followed by `a` in figures, with an optional dollar sign, thousands
   * comma and unit, or by two numbers in figures or words with their units that make `a`.
   */
  lemma AmountsAreExact(text: string, a: string)
    ensures ParseAmount(text) == Some(a)
       <==> exists body :: body != "" && Normalized(text) == OPENING + body && SaysAmount(body, a)
  {
    hide Normalized, SaysAmount, Figures, Split, Integer, Money;
    var normalized := Normalized(text);
    if Starts(normalized, OPENING) && |normalized| > |OPENING| {
      var body := normalized[|OPENING|..];
      assert normalized == OPENING + body by { assert normalized == normalized[..|OPENING|] + body; }
      BodyIsExact(body, a);
      assert ParseAmount(text) == BodyAmount(body);
    }
    if body :| body != "" && normalized == OPENING + body && SaysAmount(body, a) {
      assert normalized[..|OPENING|] == OPENING && normalized[|OPENING|..] == body;
    }
  }
}
