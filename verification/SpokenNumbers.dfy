/**
 * The spoken-number language between the test IVR and its automated caller: the words
 * one side prints for an amount, and the grammar by which the other reads them back.
 */
module SpokenNumbers {
  import opened Prelude

  const SMALL: seq<string> := [
    "zero", "one", "two", "three", "four", "five", "six", "seven", "eight", "nine", "ten", "eleven", "twelve",
    "thirteen", "fourteen", "fifteen", "sixteen", "seventeen", "eighteen", "nineteen"]
  const TENS: seq<string> := ["", "", "twenty", "thirty", "forty", "fifty", "sixty", "seventy", "eighty", "ninety"]

  // ------------------------------------------------------------------ the printer

  function IntegerWords(n: nat): string {
    if n < 20 then SMALL[n]
    else if n < 100 then TENS[n / 10] + if n % 10 != 0 then "-" + SMALL[n % 10] else ""
    else
      var (divisor, unit) := if n < 1000 then (100, " hundred") else (1000, " thousand");
      IntegerWords(n / divisor) + unit + if n % divisor != 0 then " " + IntegerWords(n % divisor) else ""
  }

  lemma SmallWords(n: nat)
    requires n < 100
    ensures |SMALL| == 20 && |TENS| == 10
    ensures IntegerWords(n) ==
      if n < 20 then SMALL[n]
      else if n % 10 != 0 then TENS[n / 10] + "-" + SMALL[n % 10]
      else TENS[n / 10]
  {
  }

  /** The words themselves. */
  lemma KnownDigits()
    ensures IntegerWords(0) == "zero" && IntegerWords(1) == "one" && IntegerWords(2) == "two"
    ensures IntegerWords(3) == "three" && IntegerWords(4) == "four" && IntegerWords(5) == "five"
    ensures IntegerWords(6) == "six" && IntegerWords(7) == "seven" && IntegerWords(8) == "eight"
    ensures IntegerWords(9) == "nine"
  {
  }

  lemma KnownTeens()
    ensures IntegerWords(10) == "ten" && IntegerWords(11) == "eleven"
    ensures IntegerWords(12) == "twelve" && IntegerWords(13) == "thirteen" && IntegerWords(14) == "fourteen"
    ensures IntegerWords(15) == "fifteen" && IntegerWords(16) == "sixteen" && IntegerWords(17) == "seventeen"
    ensures IntegerWords(18) == "eighteen" && IntegerWords(19) == "nineteen"
  {
  }

  lemma KnownTens()
    ensures IntegerWords(20) == "twenty" && IntegerWords(30) == "thirty" && IntegerWords(40) == "forty"
    ensures IntegerWords(50) == "fifty" && IntegerWords(60) == "sixty" && IntegerWords(70) == "seventy"
    ensures IntegerWords(80) == "eighty" && IntegerWords(90) == "ninety"
  {
  }

  lemma KnownNumber()
    ensures IntegerWords(1234) == "one thousand two hundred thirty-four"
    ensures IntegerWords(56) == "fifty-six"
  {
    hide *;
    KnownDigits();
    KnownTens();
    TwoDigitWords(34);
    TwoDigitWords(56);
    WordGroups(234, 100, "hundred");
    WordGroups(1234, 1000, "thousand");
    Concatenated();
  }

  lemma TwoDigitWords(n: nat)
    requires 20 < n < 100 && n % 10 != 0
    ensures IntegerWords(n) == IntegerWords(n - n % 10) + "-" + IntegerWords(n % 10)
  {
    hide *;
    var tens := n / 10;
    assert n - n % 10 == 10 * tens + 0;
    Quotient(n - n % 10, 10, tens, 0);
    Quotient(n % 10, 10, 0, n % 10);
    SmallWords(n);
    SmallWords(n % 10);
    SmallWords(n - n % 10);
  }

  lemma Concatenated()
    ensures "one" + " thousand" + (" " + ("two" + " hundred" + (" " + ("thirty" + "-" + "four"))))
         == "one thousand two hundred thirty-four"
    ensures "fifty" + "-" + "six" == "fifty-six"
  {
  }

  /** Hyphens read as spaces, as the amount parser does before it looks at the words. */
  function Unhyphened(s: string): (r: string)
    ensures |r| == |s|
  {
    seq(|s|, i requires 0 <= i < |s| => if s[i] == '-' then ' ' else s[i])
  }

  function Spoken(n: nat): string {
    Unhyphened(IntegerWords(n))
  }

  function Digit(d: nat): char
    requires d < 10
  {
    '0' + d as char
  }

  /** The decimal numeral without leading zeros. */
  function Numeral(n: nat): (s: string)
    ensures |s| > 0
  {
    if n < 10 then [Digit(n)] else Numeral(n / 10) + [Digit(n % 10)]
  }

  // ------------------------------------------------------------------- the parser

  function IsDigit(c: char): bool { '0' <= c <= '9' }

  predicate AllDigits(s: string) {
    forall i :: 0 <= i < |s| ==> IsDigit(s[i])
  }

  /** One to four ASCII digits without a leading zero, or a lone zero. */
  predicate ShortNumeral(s: string) {
    s == "0" || (1 <= |s| <= 4 && s[0] != '0' && AllDigits(s))
  }

  function DigitsValue(s: string): nat
    requires AllDigits(s)
  {
    if s == "" then 0 else 10 * DigitsValue(s[..|s| - 1]) + (s[|s| - 1] as int - '0' as int)
  }

  predicate Starts(s: string, prefix: string) {
    |prefix| <= |s| && s[..|prefix|] == prefix
  }

  predicate Under100(s: string) {
    || (exists i :: 1 <= i < 20 && s == SMALL[i])
    || (exists t :: 2 <= t < 10 && s == TENS[t])
    || (exists t, u :: 2 <= t < 10 && 1 <= u < 10 && s == TENS[t] + " " + SMALL[u])
  }

  predicate Under1000(s: string) {
    || Under100(s)
    || (exists h :: 1 <= h < 10 && s == SMALL[h] + " hundred")
    || (exists h :: 1 <= h < 10 && Starts(s, SMALL[h] + " hundred ") && Under100(s[|SMALL[h] + " hundred "|..]))
  }

  predicate SpokenInteger(s: string) {
    || s == "zero"
    || Under1000(s)
    || (exists k :: 1 <= k < 10 && s == SMALL[k] + " thousand")
    || (exists k :: 1 <= k < 10 && Starts(s, SMALL[k] + " thousand ") && Under1000(s[|SMALL[k] + " thousand "|..]))
  }

  /** What a word adds to the group being heard: zero for a word that is no number. */
  function WordValue(word: string): nat {
    if exists i :: 0 <= i < 20 && SMALL[i] == word then
      var i :| 0 <= i < 20 && SMALL[i] == word; i
    else if exists t :: 2 <= t < 10 && TENS[t] == word then
      var t :| 2 <= t < 10 && TENS[t] == word; 10 * t
    else 0
  }

  /** Finished thousands, and the group still open. */
  datatype Heard = Heard(value: nat, group: nat)

  function Hear(heard: Heard, word: string): Heard {
    if word == "thousand" then Heard(heard.value + heard.group * 1000, 0)
    else if word == "hundred" then heard.(group := heard.group * 100)
    else heard.(group := heard.group + WordValue(word))
  }

  function HearAll(heard: Heard, words: seq<string>): Heard {
    if words == [] then heard else Hear(HearAll(heard, words[..|words| - 1]), words[|words| - 1])
  }

  /** Whitespace as Python's str.split and str.strip see it. */
  predicate IsSpace(c: char) {
    || 0x9 as char <= c <= 0xD as char || 0x1C as char <= c <= ' '
    || c == 0x85 as char || c == 0xA0 as char || c == 0x1680 as char || 0x2000 as char <= c <= 0x200A as char
    || c == 0x2028 as char || c == 0x2029 as char || c == 0x202F as char || c == 0x205F as char || c == 0x3000 as char
  }

  /** Index of the first separator of `s` at or after `i`, or its length. */
  function RunEnd(s: string, i: nat, separator: char -> bool): (k: nat)
    requires i <= |s|
    ensures i <= k <= |s| && (k < |s| ==> separator(s[k])) && (forall j :: i <= j < k ==> !separator(s[j]))
    decreases |s| - i
  {
    if i == |s| || separator(s[i]) then i else RunEnd(s, i + 1, separator)
  }

  /** The maximal runs without a separator. */
  function Runs(s: string, separator: char -> bool): seq<string>
    decreases |s|
  {
    if s == "" then []
    else if separator(s[0]) then Runs(s[1..], separator)
    else
      var end := RunEnd(s, 0, separator);
      [s[..end]] + Runs(s[end..], separator)
  }

  function Words(s: string): seq<string> {
    Runs(s, IsSpace)
  }

  function HeardNumber(text: string): nat {
    var heard := HearAll(Heard(0, 0), Words(text)); heard.value + heard.group
  }

  function Integer(text: string, maximum: nat): Option<nat> {
    var value :=
      if ShortNumeral(text) then Some(DigitsValue(text))
      else if SpokenInteger(text) then Some(HeardNumber(text))
      else None;
    if value.Some? && value.value <= maximum then value else None
  }

  lemma NumeralIsDigits(s: string)
    requires ShortNumeral(s)
    ensures AllDigits(s)
  {
  }

  /** The parser as the program runs it, accumulating the value word by word. */
  method ParseInteger(text: string, maximum: nat) returns (result: Option<nat>)
    ensures result == Integer(text, maximum)
  {
    hide Hear, SpokenInteger, ShortNumeral, Words, DigitsValue, AllDigits;
    var value: nat := 0;
    if ShortNumeral(text) {
      NumeralIsDigits(text);
      value := DigitsValue(text);
    } else if SpokenInteger(text) {
      var group: nat, words := 0, Words(text);
      for i := 0 to |words|
        invariant HearAll(Heard(0, 0), words[..i]) == Heard(value, group)
      {
        assert words[..i + 1][..i] == words[..i];
        var heard := Hear(Heard(value, group), words[i]);
        value, group := heard.value, heard.group;
      }
      assert words[..|words|] == words;
      value := value + group;
    } else {
      return None;
    }
    return if value <= maximum then Some(value) else None;
  }

  // ------------------------------------------------------------------ words and joins

  predicate Lower(w: string) {
    |w| > 0 && forall k :: 0 <= k < |w| ==> 'a' <= w[k] <= 'z'
  }

  predicate AllLower(words: seq<string>) {
    forall k :: 0 <= k < |words| ==> Lower(words[k])
  }

  lemma SmallLower(i: nat)
    requires i < 20
    ensures Lower(SMALL[i])
  {
  }

  lemma TensLower(t: nat)
    requires 2 <= t < 10
    ensures Lower(TENS[t])
  {
  }

  lemma {:induction false} JoinAppend(a: seq<string>, b: seq<string>)
    requires a != [] && b != []
    ensures Join(a + b) == Join(a) + " " + Join(b)
  {
    if |a| == 1 {
      assert (a + b)[1..] == b;
    } else {
      JoinAppend(a[1..], b);
      assert (a + b)[1..] == a[1..] + b;
      assert Join(a + b) == a[0] + " " + (Join(a[1..]) + " " + Join(b));
    }
  }

  /** Non-empty words free of separators. */
  predicate Solid(words: seq<string>, separator: char -> bool) {
    forall k :: 0 <= k < |words| ==> words[k] != "" && forall j :: 0 <= j < |words[k]| ==> !separator(words[k][j])
  }

  lemma RunThenSpace(w: string, rest: string, separator: char -> bool)
    requires Solid([w], separator) && separator(' ')
    ensures Runs(w + " " + rest, separator) == [w] + Runs(rest, separator)
  {
    assert [w][0] == w;
    var s := w + " " + rest;
    assert RunEnd(s, 0, separator) == |w| by {
      assert s[|w|] == ' ';
      assert forall j :: 0 <= j < |w| ==> s[j] == w[j];
    }
    assert s[..|w|] == w && s[|w|..] == " " + rest;
    assert (" " + rest)[1..] == rest;
  }

  lemma {:induction false} RunsOfJoin(words: seq<string>, separator: char -> bool)
    requires Solid(words, separator) && separator(' ')
    ensures Runs(Join(words), separator) == words
  {
    if |words| == 1 {
      var w := words[0];
      assert RunEnd(w, 0, separator) == |w|;
      assert w[..|w|] == w && w[|w|..] == "";
    } else if |words| > 1 {
      RunsOfJoin(words[1..], separator);
      RunThenSpace(words[0], Join(words[1..]), separator);
    }
  }

  lemma LowerIsSolid(words: seq<string>)
    requires AllLower(words)
    ensures Solid(words, IsSpace)
  {
    forall k | 0 <= k < |words| ensures words[k] != "" && forall j :: 0 <= j < |words[k]| ==> !IsSpace(words[k][j]) {
      assert Lower(words[k]);
    }
  }

  lemma WordsOfJoin(words: seq<string>)
    requires AllLower(words)
    ensures Words(Join(words)) == words
  {
    LowerIsSolid(words);
    RunsOfJoin(words, IsSpace);
  }

  /** The words spoken for a number, one by one. */
  function Tokens(n: nat): seq<string> {
    if n < 20 then [SMALL[n]]
    else if n < 100 then [TENS[n / 10]] + if n % 10 != 0 then [SMALL[n % 10]] else []
    else
      var (divisor, unit) := if n < 1000 then (100, "hundred") else (1000, "thousand");
      Tokens(n / divisor) + [unit] + if n % divisor != 0 then Tokens(n % divisor) else []
  }

  lemma TokenGroups(n: nat, divisor: nat, unit: string)
    requires n >= 100 && divisor == (if n < 1000 then 100 else 1000)
    requires unit == if n < 1000 then "hundred" else "thousand"
    ensures Tokens(n) == Tokens(n / divisor) + [unit] + if n % divisor != 0 then Tokens(n % divisor) else []
  {
  }

  lemma AllLowerAppend(a: seq<string>, b: seq<string>)
    requires AllLower(a) && AllLower(b)
    ensures AllLower(a + b)
  {
  }

  lemma {:induction false} TokensLower(n: nat)
    ensures Tokens(n) != [] && AllLower(Tokens(n))
  {
    if n < 20 {
      SmallLower(n);
    } else if n < 100 {
      TensLower(n / 10);
      SmallLower(n % 10);
    } else {
      hide *;
      var divisor, unit := if n < 1000 then 100 else 1000, if n < 1000 then "hundred" else "thousand";
      TokenGroups(n, divisor, unit);
      TokensLower(n / divisor);
      TokensLower(n % divisor);
      UnitsLower(unit);
      AllLowerAppend(Tokens(n / divisor), [unit]);
      if n % divisor != 0 { AllLowerAppend(Tokens(n / divisor) + [unit], Tokens(n % divisor)); }
    }
  }

  lemma UnitsLower(unit: string)
    requires unit == "hundred" || unit == "thousand"
    ensures Lower(unit) && AllLower([unit])
  {
  }

  lemma UnhyphenedAppend(a: string, b: string)
    ensures Unhyphened(a + b) == Unhyphened(a) + Unhyphened(b)
  {
  }

  lemma LowerHasNoHyphen(w: string)
    requires Lower(w)
    ensures Unhyphened(w) == w
  {
  }

  /** Hyphens aside, the printed number is its words with single spaces between them. */
  lemma TwoDigitsAreJoined(n: nat)
    requires 20 <= n < 100
    ensures Spoken(n) == Join(Tokens(n))
  {
    hide *;
    SmallWords(n);
    var t, u := n / 10, n % 10;
    TensIsJoined(t, u);
    TensLower(t);
    LowerHasNoHyphen(TENS[t]);
    SpokenIs(n);
    if u != 0 {
      SmallLower(u);
      LowerHasNoHyphen(SMALL[u]);
      HyphenBetween(TENS[t], SMALL[u]);
    }
  }

  lemma SpokenIs(n: nat)
    ensures Spoken(n) == Unhyphened(IntegerWords(n))
  {
  }

  lemma HyphenBetween(a: string, b: string)
    requires Unhyphened(a) == a && Unhyphened(b) == b
    ensures Unhyphened(a + "-" + b) == a + " " + b
  {
    UnhyphenedAppend(a + "-", b);
    UnhyphenedAppend(a, "-");
    assert Unhyphened("-") == " ";
    hide Unhyphened;
  }

  lemma {:induction false} SpokenIsJoined(n: nat)
    ensures Spoken(n) == Join(Tokens(n))
  {
    if n < 20 {
      SmallLower(n);
      LowerHasNoHyphen(SMALL[n]);
    } else if n < 100 {
      TwoDigitsAreJoined(n);
    } else {
      SpokenGroups(n, if n < 1000 then 100 else 1000, if n < 1000 then "hundred" else "thousand");
    }
  }

  lemma {:induction false} SpokenGroups(n: nat, divisor: nat, unit: string)
    requires n >= 100 && divisor == (if n < 1000 then 100 else 1000)
    requires unit == if n < 1000 then "hundred" else "thousand"
    ensures Spoken(n) == Join(Tokens(n))
    decreases n, 0
  {
    hide *;
    var head, rest := n / divisor, n % divisor;
    SpokenIsJoined(head);
    SpokenIsJoined(rest);
    TokensLower(head);
    TokensLower(rest);
    SpokenUnfolds(n);
    SpokenUnfolds(head);
    SpokenUnfolds(rest);
    StemIsJoined(IntegerWords(head), Tokens(head), unit);
    GroupsUnfold(n, divisor, unit);
    if rest != 0 {
      UnhyphenedSpace(IntegerWords(head) + " " + unit, IntegerWords(rest));
      JoinAppend(Tokens(head) + [unit], Tokens(rest));
    }
  }

  lemma GroupsUnfold(n: nat, divisor: nat, unit: string)
    requires n >= 100 && divisor == (if n < 1000 then 100 else 1000)
    requires unit == if n < 1000 then "hundred" else "thousand"
    ensures var head, rest := n / divisor, n % divisor;
            var stem, tokens := IntegerWords(head) + " " + unit, Tokens(head) + [unit];
            if rest != 0 then
              IntegerWords(n) == stem + " " + IntegerWords(rest) && Tokens(n) == tokens + Tokens(rest)
            else
              IntegerWords(n) == stem && Tokens(n) == tokens
  {
    hide *;
    TokenGroups(n, divisor, unit);
    WordGroups(n, divisor, unit);
    Regroup(IntegerWords(n / divisor), unit, "");
    var rest := " " + IntegerWords(n % divisor);
    Regroup(IntegerWords(n / divisor), unit, rest);
    assert rest[1..] == IntegerWords(n % divisor);
    assert "hundred" != "thousand" by { assert |"hundred"| == 7; }
  }

  lemma WordGroups(n: nat, divisor: nat, unit: string)
    requires n >= 100 && divisor == (if n < 1000 then 100 else 1000)
    requires unit == if n < 1000 then "hundred" else "thousand"
    ensures IntegerWords(n) == IntegerWords(n / divisor) + (if n < 1000 then " hundred" else " thousand")
                             + if n % divisor != 0 then " " + IntegerWords(n % divisor) else ""
  {
  }

  lemma Regroup(head: string, unit: string, rest: string)
    requires unit == "hundred" || unit == "thousand"
    ensures head + (if unit == "hundred" then " hundred" else " thousand") + rest == head + " " + unit + rest
    ensures rest == "" ==> head + " " + unit + rest == head + " " + unit
    ensures rest != "" && rest[0] == ' ' ==> head + " " + unit + rest == head + " " + unit + " " + rest[1..]
  {
    var spaced := if unit == "hundred" then " hundred" else " thousand";
    SpacedUnit(unit);
    Around(head, spaced, unit, rest);
  }

  lemma SpacedUnit(unit: string)
    requires unit == "hundred" || unit == "thousand"
    ensures (if unit == "hundred" then " hundred" else " thousand") == " " + unit
  {
  }

  lemma Around(head: string, spaced: string, unit: string, rest: string)
    requires spaced == " " + unit
    ensures head + spaced + rest == head + " " + unit + rest
    ensures rest == "" ==> head + " " + unit + rest == head + " " + unit
    ensures rest != "" && rest[0] == ' ' ==> head + " " + unit + rest == head + " " + unit + " " + rest[1..]
  {
    assert head + spaced == head + " " + unit;
    if rest != "" && rest[0] == ' ' { assert rest == " " + rest[1..]; }
  }

  lemma SpokenUnfolds(n: nat)
    ensures Spoken(n) == Unhyphened(IntegerWords(n))
  {
  }

  lemma UnhyphenedSpace(a: string, b: string)
    ensures Unhyphened(a + " " + b) == Unhyphened(a) + " " + Unhyphened(b)
  {
    UnhyphenedAppend(a + " ", b);
    UnhyphenedAppend(a, " ");
  }

  lemma StemIsJoined(head: string, tokens: seq<string>, unit: string)
    requires unit == "hundred" || unit == "thousand"
    requires tokens != [] && Unhyphened(head) == Join(tokens)
    ensures Unhyphened(head + " " + unit) == Join(tokens + [unit])
  {
    UnhyphenedSpace(head, unit);
    LowerHasNoHyphen(unit);
    JoinAppend(tokens, [unit]);
  }

  // ----------------------------------------------------------------- words to values

  lemma SmallValue(i: nat)
    requires i < 20
    ensures WordValue(SMALL[i]) == i && SMALL[i] != "hundred" && SMALL[i] != "thousand"
  {
  }

  lemma TensValue(t: nat)
    requires 2 <= t < 10
    ensures WordValue(TENS[t]) == 10 * t && TENS[t] != "hundred" && TENS[t] != "thousand"
  {
  }

  lemma {:induction false} HearAppend(heard: Heard, a: seq<string>, b: seq<string>)
    ensures HearAll(heard, a + b) == HearAll(HearAll(heard, a), b)
  {
    hide Hear;
    if b == [] {
      assert a + b == a;
    } else {
      HearAppend(heard, a, b[..|b| - 1]);
      assert (a + b)[..|a + b| - 1] == a + b[..|b| - 1];
    }
  }

  lemma HearOne(heard: Heard, word: string)
    ensures HearAll(heard, [word]) == Hear(heard, word)
  {
    assert [word][..0] == [];
  }

  lemma HearUnder100(heard: Heard, n: nat)
    requires n < 100
    ensures HearAll(heard, Tokens(n)) == heard.(group := heard.group + n)
  {
    hide WordValue;
    if n < 20 {
      SmallValue(n);
      HearOne(heard, SMALL[n]);
    } else {
      TensValue(n / 10);
      HearOne(heard, TENS[n / 10]);
      if n % 10 != 0 {
        SmallValue(n % 10);
        HearAppend(heard, [TENS[n / 10]], [SMALL[n % 10]]);
        HearOne(HearAll(heard, [TENS[n / 10]]), SMALL[n % 10]);
      }
    }
  }

  lemma HearUnder1000(heard: Heard, n: nat)
    requires n < 1000 && heard.group == 0
    ensures HearAll(heard, Tokens(n)) == heard.(group := n)
  {
    if n < 100 {
      HearUnder100(heard, n);
    } else {
      hide HearAll, WordValue;
      HearUnder100(heard, n / 100);
      HearAppend(heard, Tokens(n / 100), ["hundred"]);
      HearOne(HearAll(heard, Tokens(n / 100)), "hundred");
      if n % 100 != 0 {
        HearAppend(heard, Tokens(n / 100) + ["hundred"], Tokens(n % 100));
        HearUnder100(heard.(group := n / 100 * 100), n % 100);
      } else {
        assert Tokens(n) == Tokens(n / 100) + ["hundred"];
      }
    }
  }

  /** Hearing the words of a number below ten thousand gives that number. */
  lemma HearNumber(n: nat)
    requires n < 10000
    ensures var heard := HearAll(Heard(0, 0), Tokens(n)); heard.value + heard.group == n
  {
    if n < 1000 {
      HearUnder1000(Heard(0, 0), n);
    } else {
      hide HearAll, WordValue;
      HearUnder1000(Heard(0, 0), n / 1000);
      HearAppend(Heard(0, 0), Tokens(n / 1000), ["thousand"]);
      HearOne(HearAll(Heard(0, 0), Tokens(n / 1000)), "thousand");
      if n % 1000 != 0 {
        HearAppend(Heard(0, 0), Tokens(n / 1000) + ["thousand"], Tokens(n % 1000));
        HearUnder1000(Heard(n / 1000 * 1000, 0), n % 1000);
      } else {
        assert Tokens(n) == Tokens(n / 1000) + ["thousand"];
      }
    }
  }

  // ------------------------------------------------------- the grammar is exactly the printer

  lemma PairIsJoined(a: string, b: string)
    ensures Join([a, b]) == a + " " + b && Join([a]) == a
  {
    assert [a, b][1..] == [b];
  }

  lemma SmallIsJoined(i: nat)
    requires i < 20
    ensures Join(Tokens(i)) == SMALL[i]
  {
  }

  /** Tens, alone or followed by a unit. */
  lemma TensIsJoined(t: nat, u: nat)
    requires 2 <= t < 10 && u < 10
    ensures Join(Tokens(10 * t + u)) == if u == 0 then TENS[t] else TENS[t] + " " + SMALL[u]
  {
    var n := 10 * t + u;
    assert n / 10 == t && n % 10 == u;
    assert Tokens(n) == if u == 0 then [TENS[t]] else [TENS[t], SMALL[u]];
    hide Tokens;
    PairIsJoined(TENS[t], SMALL[u]);
  }

  lemma ListSizes()
    ensures |SMALL| == 20 && |TENS| == 10
  {
  }

  lemma Under100Number(s: string) returns (n: nat)
    requires Under100(s)
    ensures 1 <= n < 100 && s == Join(Tokens(n))
  {
    hide Tokens, Join, IntegerWords, WordValue, SMALL, TENS;
    ListSizes();
    if i :| 1 <= i < 20 && s == SMALL[i] {
      n := i;
      SmallIsJoined(i);
    } else if t :| 2 <= t < 10 && s == TENS[t] {
      n := 10 * t;
      TensIsJoined(t, 0);
    } else {
      var t, u :| 2 <= t < 10 && 1 <= u < 10 && s == TENS[t] + " " + SMALL[u];
      n := 10 * t + u;
      TensIsJoined(t, u);
    }
  }

  lemma NumberUnder100(n: nat)
    requires 1 <= n < 100
    ensures Under100(Join(Tokens(n)))
  {
    hide Tokens, Join;
    if n < 20 { SmallIsJoined(n); } else { TensIsJoined(n / 10, n % 10); }
  }

  /** The joined words of `head` units, alone or followed by the words of `rest`. */
  lemma GroupIsJoined(n: nat, head: nat, divisor: nat, unit: string)
    requires n >= 100 && divisor == (if n < 1000 then 100 else 1000)
    requires unit == if n < 1000 then "hundred" else "thousand"
    requires 1 <= head < 10 && n / divisor == head
    ensures Join(Tokens(n)) == SMALL[head] + " " + unit
                             + if n % divisor != 0 then " " + Join(Tokens(n % divisor)) else ""
  {
    hide *;
    SmallIsJoined(head);
    TokensLower(head);
    TokensLower(n % divisor);
    GroupsUnfold(n, divisor, unit);
    JoinAppend(Tokens(head), [unit]);
    PairIsJoined(unit, unit);
    if n % divisor != 0 {
      JoinAppend(Tokens(head) + [unit], Tokens(n % divisor));
    }
  }

  /** `s` begins with `prefix` and continues with `rest`. */
  lemma StartsIsConcat(s: string, prefix: string, rest: string)
    ensures s == prefix + rest ==> Starts(s, prefix) && s[|prefix|..] == rest
    ensures Starts(s, prefix) && s[|prefix|..] == rest ==> s == prefix + rest
  {
    if Starts(s, prefix) { assert s == s[..|prefix|] + s[|prefix|..]; }
    if s == prefix + rest { assert s[..|prefix|] == prefix; }
  }

  lemma Under1000Number(s: string) returns (n: nat)
    requires Under1000(s)
    ensures 1 <= n < 1000 && s == Join(Tokens(n))
  {
    hide Tokens, Join, Under100;
    if Under100(s) {
      n := Under100Number(s);
    } else if h :| 1 <= h < 10 && s == SMALL[h] + " hundred" {
      n := 100 * h;
      GroupIsJoined(n, h, 100, "hundred");
      SpaceUnit(SMALL[h], "hundred", "");
    } else {
      var h :| 1 <= h < 10 && Starts(s, SMALL[h] + " hundred ") && Under100(s[|SMALL[h] + " hundred "|..]);
      var rest := s[|SMALL[h] + " hundred "|..];
      var r := Under100Number(rest);
      n := 100 * h + r;
      GroupIsJoined(n, h, 100, "hundred");
      StartsIsConcat(s, SMALL[h] + " hundred ", rest);
      SpaceUnit(SMALL[h], "hundred", rest);
    }
  }

  lemma SpaceUnit(head: string, unit: string, rest: string)
    requires unit == "hundred" || unit == "thousand"
    ensures unit == "hundred" ==> head + " hundred" == head + " " + unit
    ensures unit == "hundred" ==> head + " hundred " + rest == head + " " + unit + (" " + rest)
    ensures unit == "thousand" ==> head + " thousand" == head + " " + unit
    ensures unit == "thousand" ==> head + " thousand " + rest == head + " " + unit + (" " + rest)
  {
  }

  lemma NumberUnder1000(n: nat)
    requires 1 <= n < 1000
    ensures Under1000(Join(Tokens(n)))
  {
    hide Tokens, Join, Under100;
    var s := Join(Tokens(n));
    if n < 100 {
      NumberUnder100(n);
    } else {
      var h := n / 100;
      var rest := if n % 100 == 0 then "" else Join(Tokens(n % 100));
      GroupIsJoined(n, h, 100, "hundred");
      SpaceUnit(SMALL[h], "hundred", rest);
      if n % 100 == 0 {
        assert s == SMALL[h] + " hundred";
      } else {
        NumberUnder100(n % 100);
        StartsIsConcat(s, SMALL[h] + " hundred ", rest);
      }
    }
  }

  lemma SpokenNumber(s: string) returns (n: nat)
    requires SpokenInteger(s)
    ensures n < 10000 && s == Join(Tokens(n))
  {
    hide Tokens, Join, Under1000;
    if s == "zero" {
      n := 0;
      ZeroIsJoined();
    } else if Under1000(s) {
      n := Under1000Number(s);
    } else if k :| 1 <= k < 10 && s == SMALL[k] + " thousand" {
      n := 1000 * k;
      GroupIsJoined(n, k, 1000, "thousand");
      SpaceUnit(SMALL[k], "thousand", "");
    } else {
      var k :| 1 <= k < 10 && Starts(s, SMALL[k] + " thousand ") && Under1000(s[|SMALL[k] + " thousand "|..]);
      var rest := s[|SMALL[k] + " thousand "|..];
      var r := Under1000Number(rest);
      n := 1000 * k + r;
      GroupIsJoined(n, k, 1000, "thousand");
      StartsIsConcat(s, SMALL[k] + " thousand ", rest);
      SpaceUnit(SMALL[k], "thousand", rest);
    }
  }

  lemma ZeroIsJoined()
    ensures Join(Tokens(0)) == "zero"
  {
  }

  lemma NumberIsSpoken(n: nat)
    requires n < 10000
    ensures SpokenInteger(Join(Tokens(n)))
  {
    hide Tokens, Join, Under1000;
    var s := Join(Tokens(n));
    if n == 0 {
      ZeroIsJoined();
    } else if n < 1000 {
      NumberUnder1000(n);
    } else {
      var k := n / 1000;
      var rest := if n % 1000 == 0 then "" else Join(Tokens(n % 1000));
      GroupIsJoined(n, k, 1000, "thousand");
      SpaceUnit(SMALL[k], "thousand", rest);
      if n % 1000 == 0 {
        assert s == SMALL[k] + " thousand";
      } else {
        NumberUnder1000(n % 1000);
        StartsIsConcat(s, SMALL[k] + " thousand ", rest);
      }
    }
  }

  // ------------------------------------------------------------------------- numerals

  lemma NumeralDigits(n: nat)
    ensures AllDigits(Numeral(n)) && DigitsValue(Numeral(n)) == n
    ensures n > 0 ==> Numeral(n)[0] != '0'
  {
    if n >= 10 {
      NumeralDigits(n / 10);
      assert Numeral(n)[..|Numeral(n)| - 1] == Numeral(n / 10);
    } else {
      assert Numeral(n)[..0] == "";
    }
  }

  lemma NumeralIsShort(n: nat)
    requires n < 10000
    ensures ShortNumeral(Numeral(n)) && DigitsValue(Numeral(n)) == n
  {
    NumeralDigits(n);
    assert |Numeral(n)| <= 4 by {
      assert |Numeral(n / 1000)| == 1;
      if n >= 10 { assert |Numeral(n)| == |Numeral(n / 10)| + 1; }
      if n >= 100 { assert |Numeral(n / 10)| == |Numeral(n / 10 / 10)| + 1 && n / 10 / 10 == n / 100; }
      if n >= 1000 { assert |Numeral(n / 100)| == |Numeral(n / 100 / 10)| + 1 && n / 100 / 10 == n / 1000; }
    }
  }

  lemma {:induction false} ValueHasNumeral(s: string)
    requires s != "" && AllDigits(s) && (|s| == 1 || s[0] != '0')
    ensures Numeral(DigitsValue(s)) == s
    ensures s[0] != '0' ==> DigitsValue(s) > 0
  {
    var last := |s| - 1;
    if last == 0 {
      assert s[..0] == "";
      assert s == [Digit(DigitsValue(s))];
    } else {
      ValueHasNumeral(s[..last]);
      assert s == s[..last] + [s[last]];
    }
  }

  lemma {:induction false} DigitsBound(s: string, k: nat, bound: nat)
    requires AllDigits(s) && |s| <= k && bound == Power10(k)
    ensures DigitsValue(s) < bound
  {
    if s != "" { DigitsBound(s[..|s| - 1], k - 1, Power10(k - 1)); }
  }

  function Power10(k: nat): (p: nat)
    ensures p >= 1
  {
    if k == 0 then 1 else 10 * Power10(k - 1)
  }

  lemma SpokenIsNoNumeral(n: nat)
    ensures !ShortNumeral(Spoken(n))
  {
    SpokenIsJoined(n);
    TokensLower(n);
    assert Lower(Tokens(n)[0]);
    assert Join(Tokens(n))[0] == Tokens(n)[0][0];
  }

  lemma NumeralsAreExact(text: string, n: nat)
    requires ShortNumeral(text)
    ensures AllDigits(text)
    ensures DigitsValue(text) == n <==> n < 10000 && (text == Numeral(n) || text == Spoken(n))
  {
    hide Spoken, Numeral;
    NumeralIsDigits(text);
    ValueHasNumeral(text);
    assert Power10(4) == 10000;
    DigitsBound(text, 4, 10000);
    if n < 10000 { NumeralIsShort(n); }
    SpokenIsNoNumeral(n);
  }

  /** The printed words of a number are in the grammar and are heard as that number. */
  lemma SpokenIsHeard(n: nat)
    requires n < 10000
    ensures SpokenInteger(Spoken(n)) && HeardNumber(Spoken(n)) == n
  {
    hide Tokens, SpokenInteger, HearAll, Words, Join, Spoken;
    SpokenIsJoined(n);
    NumberIsSpoken(n);
    TokensLower(n);
    WordsOfJoin(Tokens(n));
    HearNumber(n);
  }

  /** And nothing else is in the grammar. */
  lemma SpokenAreExact(text: string, n: nat)
    requires SpokenInteger(text)
    ensures HeardNumber(text) == n <==> n < 10000 && text == Spoken(n)
  {
    hide SpokenInteger, HeardNumber, Spoken;
    var m := SpokenNumber(text);
    SpokenIsJoined(m);
    SpokenIsHeard(m);
    if n < 10000 { SpokenIsHeard(n); }
  }

  /**
   * The parser accepts a text as `n` exactly when `n` is within the maximum and below ten
   * thousand, and the text is its numeral without leading zeros or its printed words with
   * hyphens read as spaces.
   */
  lemma IntegerIsExact(text: string, maximum: nat, n: nat)
    ensures Integer(text, maximum) == Some(n)
       <==> n <= maximum && n < 10000 && (text == Numeral(n) || text == Spoken(n))
  {
    hide ShortNumeral, SpokenInteger, Numeral, Spoken, HeardNumber, DigitsValue;
    if ShortNumeral(text) {
      NumeralsAreExact(text, n);
    } else {
      if n < 10000 {
        NumeralIsShort(n);
        SpokenIsHeard(n);
      }
      if SpokenInteger(text) {
        SpokenAreExact(text, n);
      }
    }
  }
}
