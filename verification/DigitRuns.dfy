/**
 * Digit runs spelled as words, figures or both: the printer, the parser, their round trip,
 * and exactly which texts are understood as a run of digits.
 */
module DigitRuns {
  import opened Prelude
  import opened SpokenNumbers
  import opened Announcements

  // ---------------------------------------------------------------------- digit runs

  function DigitWords(digits: string): string
    requires AllDigits(digits)
  {
    Join(seq(|digits|, i requires 0 <= i < |digits| => SMALL[digits[i] as int - '0' as int]))
  }

  predicate IsSeparator(c: char) { c == ' ' || c == ',' || c == '-' }

  /** A spoken digit becomes its figure; any other token stays as it is. */
  function DigitOf(token: string): string {
    if exists k :: 0 <= k < 10 && SMALL[k] == token then
      var k :| 0 <= k < 10 && SMALL[k] == token; [Digit(k)]
    else token
  }

  function Figured(tokens: seq<string>): string {
    if tokens == [] then "" else DigitOf(tokens[0]) + Figured(tokens[1..])
  }

  predicate IsControl(c: char) { c == '\t' || c == '\n' || c == '\r' || c == 0xC as char || c == 0xB as char }

  function ParseDigits(text: string, length: nat): Option<string> {
    if '.' in text || '+' in text || (exists i :: 0 <= i < |text| && IsControl(text[i])) then None
    else if Starts(TrimSpaces(text), "-") then None
    else
      var tokens := Runs(ToLower(TrimSpaces(text)), IsSeparator);
      if tokens == [] then None
      else if AllDigits(Figured(tokens)) && |Figured(tokens)| == length then Some(Figured(tokens))
      else None
  }

  /** A digit word or a run of figures. */
  predicate DigitToken(t: string) {
    (exists k :: 0 <= k < 10 && SMALL[k] == t) || (t != "" && AllDigits(t))
  }

  predicate DigitTokens(tokens: seq<string>) {
    forall k :: 0 <= k < |tokens| ==> DigitToken(tokens[k])
  }

  predicate Plain(s: string) {
    forall i :: 0 <= i < |s| ==> IsLetter(s[i]) || IsDigit(s[i])
  }

  lemma DigitTokenIsPlain(t: string)
    requires DigitToken(t)
    ensures t != "" && Plain(t) && AllDigits(DigitOf(t))
  {
    if k :| 0 <= k < 10 && SMALL[k] == t {
      SmallLower(k);
    }
  }

  lemma {:induction false} FiguredIsDigits(tokens: seq<string>)
    requires DigitTokens(tokens)
    ensures AllDigits(Figured(tokens))
  {
    hide DigitToken, DigitOf;
    if tokens != [] {
      DigitTokenIsPlain(tokens[0]);
      FiguredIsDigits(tokens[1..]);
    }
  }

  predicate PlainOrSpace(s: string) {
    forall i :: 0 <= i < |s| ==> IsLetter(s[i]) || IsDigit(s[i]) || s[i] == ' '
  }

  lemma {:induction false} JoinIsPlain(tokens: seq<string>)
    requires DigitTokens(tokens) && tokens != []
    ensures Join(tokens) != "" && PlainOrSpace(Join(tokens))
    ensures Join(tokens)[0] != ' ' && Join(tokens)[|Join(tokens)| - 1] != ' '
  {
    hide DigitToken;
    DigitTokenIsPlain(tokens[0]);
    if |tokens| > 1 { JoinIsPlain(tokens[1..]); }
  }

  lemma PlainIsUntouched(s: string)
    requires s != "" && PlainOrSpace(s) && s[0] != ' ' && s[|s| - 1] != ' '
    ensures TrimSpaces(s) == s && ToLower(s) == s && !Starts(s, "-")
    ensures '.' !in s && '+' !in s && forall i :: 0 <= i < |s| ==> !IsControl(s[i])
  {
    assert forall i :: 0 <= i < |s| ==> IsLetter(s[i]) || IsDigit(s[i]) || s[i] == ' ';
    assert s[0] != '-';
    assert s[..1][0] == s[0];
    assert ToLower(s) == s;
  }

  lemma DigitTokensAreSolid(tokens: seq<string>)
    requires DigitTokens(tokens)
    ensures Solid(tokens, IsSeparator)
  {
    hide DigitToken;
    forall k | 0 <= k < |tokens|
      ensures tokens[k] != "" && forall j :: 0 <= j < |tokens[k]| ==> !IsSeparator(tokens[k][j])
    {
      DigitTokenIsPlain(tokens[k]);
    }
  }

  /** Digit words and runs of figures, mixed freely, parse to the digits they stand for and to no other length. */
  lemma MixedDigitsParse(tokens: seq<string>, length: nat)
    requires DigitTokens(tokens) && tokens != []
    ensures ParseDigits(Join(tokens), length)
         == if |Figured(tokens)| == length then Some(Figured(tokens)) else None
  {
    hide DigitTokens, Join, Figured, Runs, TrimSpaces, ToLower, PlainOrSpace, Solid, IsControl;
    JoinIsPlain(tokens);
    PlainIsUntouched(Join(tokens));
    DigitTokensAreSolid(tokens);
    RunsOfJoin(tokens, IsSeparator);
    FiguredIsDigits(tokens);
  }

  lemma {:induction false} FiguredWords(digits: string)
    requires AllDigits(digits)
    ensures Figured(seq(|digits|, i requires 0 <= i < |digits| => SMALL[digits[i] as int - '0' as int])) == digits
  {
    if digits != "" {
      var tokens := seq(|digits|, i requires 0 <= i < |digits| => SMALL[digits[i] as int - '0' as int]);
      var rest := digits[1..];
      assert tokens[1..] == seq(|rest|, i requires 0 <= i < |rest| => SMALL[rest[i] as int - '0' as int]);
      FiguredWords(rest);
      DigitOfSmall(digits[0] as int - '0' as int);
      assert digits == [digits[0]] + rest;
    }
  }

  lemma DigitOfSmall(k: nat)
    requires k < 10
    ensures DigitOf(SMALL[k]) == [Digit(k)]
  {
    SmallValue(k);
    assert exists i :: 0 <= i < 10 && SMALL[i] == SMALL[k];
    var j :| 0 <= j < 10 && SMALL[j] == SMALL[k] && DigitOf(SMALL[k]) == [Digit(j)];
    SmallValue(j);
  }

  /** Digits spelled out as words are read back as the same digits, at any positive length. */
  lemma DigitsComeBack(digits: string)
    requires AllDigits(digits) && digits != ""
    ensures ParseDigits(DigitWords(digits), |digits|) == Some(digits)
  {
    var tokens := seq(|digits|, i requires 0 <= i < |digits| => SMALL[digits[i] as int - '0' as int]);
    assert DigitTokens(tokens) by {
      forall k | 0 <= k < |tokens| ensures DigitToken(tokens[k]) {
        assert tokens[k] == SMALL[digits[k] as int - '0' as int];
      }
    }
    hide DigitTokens, ParseDigits, Join, Figured;
    FiguredWords(digits);
    MixedDigitsParse(tokens, |digits|);
  }

  // ------------------------------------------------- exactly which digit runs are understood

  /** Gaps and tokens in turn, a gap first and last. */
  function Weave(gaps: seq<string>, tokens: seq<string>): string
    requires |gaps| == |tokens| + 1
  {
    if tokens == [] then gaps[0] else gaps[0] + tokens[0] + Weave(gaps[1..], tokens[1..])
  }

  /** Gaps consist of separators, and between two tokens there is at least one. */
  predicate GapsOf(gaps: seq<string>, separator: char -> bool) {
    && (forall i, j :: 0 <= i < |gaps| && 0 <= j < |gaps[i]| ==> separator(gaps[i][j]))
    && (forall i :: 0 < i < |gaps| - 1 ==> gaps[i] != "")
  }

  predicate Gaps(gaps: seq<string>) {
    GapsOf(gaps, IsSeparator)
  }

  lemma {:induction false} GapIsSkipped(gap: string, s: string, separator: char -> bool)
    requires forall j :: 0 <= j < |gap| ==> separator(gap[j])
    ensures Runs(gap + s, separator) == Runs(s, separator)
  {
    if gap == "" {
      assert gap + s == s;
    } else {
      GapIsSkipped(gap[1..], s, separator);
      assert (gap + s)[1..] == gap[1..] + s;
    }
  }

  lemma TokenIsTaken(token: string, s: string, separator: char -> bool)
    requires Solid([token], separator) && (s == "" || separator(s[0]))
    ensures Runs(token + s, separator) == [token] + Runs(s, separator)
  {
    assert [token][0] == token;
    var t := token + s;
    assert RunEnd(t, 0, separator) == |token| by {
      assert forall j :: 0 <= j < |token| ==> t[j] == token[j];
      if s != "" { assert t[|token|] == s[0]; }
    }
    assert t[..|token|] == token && t[|token|..] == s;
  }

  /** A weave is taken apart into its tokens. */
  lemma {:induction false} RunsOfWeave(gaps: seq<string>, tokens: seq<string>, separator: char -> bool)
    requires |gaps| == |tokens| + 1 && GapsOf(gaps, separator) && Solid(tokens, separator)
    ensures Runs(Weave(gaps, tokens), separator) == tokens
  {
    if tokens == [] {
      GapIsSkipped(gaps[0], "", separator);
      assert gaps[0] + "" == gaps[0];
    } else {
      var rest := Weave(gaps[1..], tokens[1..]);
      assert GapsOf(gaps[1..], separator) by {
        assert forall i :: 0 <= i < |gaps[1..]| ==> gaps[1..][i] == gaps[i + 1];
      }
      assert Solid([tokens[0]], separator) && Solid(tokens[1..], separator);
      RunsOfWeave(gaps[1..], tokens[1..], separator);
      assert rest == "" || separator(rest[0]) by { WeaveBegins(gaps[1..], tokens[1..], separator); }
      TokenIsTaken(tokens[0], rest, separator);
      GapIsSkipped(gaps[0], tokens[0] + rest, separator);
      assert gaps[0] + (tokens[0] + rest) == Weave(gaps, tokens);
    }
  }

  lemma WeaveBegins(gaps: seq<string>, tokens: seq<string>, separator: char -> bool)
    requires |gaps| == |tokens| + 1
    requires forall j :: 0 <= j < |gaps[0]| ==> separator(gaps[0][j])
    requires tokens != [] ==> gaps[0] != ""
    ensures var s := Weave(gaps, tokens); s == "" || separator(s[0])
  {
  }

  /** Every text is the weave of its runs. */
  lemma {:induction false} WeaveOfRuns(s: string) returns (gaps: seq<string>)
    ensures var tokens := Runs(s, IsSeparator);
            && |gaps| == |tokens| + 1 && Gaps(gaps) && Solid(tokens, IsSeparator) && Weave(gaps, tokens) == s
    decreases |s|
  {
    var tokens := Runs(s, IsSeparator);
    if s == "" {
      gaps := [""];
    } else if IsSeparator(s[0]) {
      var later := WeaveOfRuns(s[1..]);
      gaps := [[s[0]] + later[0]] + later[1..];
      WidenFirst(later, tokens, s[0]);
      assert s == [s[0]] + s[1..];
    } else {
      var end := RunEnd(s, 0, IsSeparator);
      var later := WeaveOfRuns(s[end..]);
      gaps := [""] + later;
      assert tokens == [s[..end]] + Runs(s[end..], IsSeparator);
      FirstRun(s, end, later, Runs(s[end..], IsSeparator));
    }
  }

  lemma WidenFirst(gaps: seq<string>, tokens: seq<string>, c: char)
    requires |gaps| == |tokens| + 1 && Gaps(gaps) && IsSeparator(c)
    ensures var wider := [[c] + gaps[0]] + gaps[1..]; Gaps(wider) && Weave(wider, tokens) == [c] + Weave(gaps, tokens)
  {
    var wider := [[c] + gaps[0]] + gaps[1..];
    assert wider[1..] == gaps[1..];
    assert forall i :: 0 < i < |wider| ==> wider[i] == gaps[i];
    assert Gaps(wider) by {
      hide IsSeparator;
      assert forall j :: 0 < j < |wider[0]| ==> wider[0][j] == gaps[0][j - 1];
    }
    hide Gaps, IsSeparator;
    if tokens == [] {
    } else {
      assert Weave(wider, tokens) == [c] + gaps[0] + tokens[0] + Weave(gaps[1..], tokens[1..]);
      hide Weave;
      PutFirst(c, gaps[0], tokens[0], Weave(gaps[1..], tokens[1..]));
    }
  }

  lemma PutFirst(c: char, a: string, b: string, d: string)
    ensures [c] + a + b + d == [c] + (a + b + d)
  {
  }

  lemma TokenFirst(gaps: seq<string>, tokens: seq<string>)
    requires |gaps| == |tokens| + 1 && Solid(tokens, IsSeparator)
    ensures tokens != [] && gaps[0] == "" ==> var s := Weave(gaps, tokens); s != "" && !IsSeparator(s[0])
  {
    hide IsSeparator;
    if tokens != [] && gaps[0] == "" {
      var rest := Weave(gaps[1..], tokens[1..]);
      assert Weave(gaps, tokens) == gaps[0] + tokens[0] + rest;
      hide Weave;
      assert tokens[0] != "" && !IsSeparator(tokens[0][0]);
      assert (gaps[0] + tokens[0] + rest)[0] == tokens[0][0];
    }
  }

  lemma FirstRun(s: string, end: nat, gaps: seq<string>, tokens: seq<string>)
    requires 0 < end <= |s| && (forall j :: 0 <= j < end ==> !IsSeparator(s[j])) && (end < |s| ==> IsSeparator(s[end]))
    requires |gaps| == |tokens| + 1 && Gaps(gaps) && Solid(tokens, IsSeparator) && Weave(gaps, tokens) == s[end..]
    ensures Gaps([""] + gaps) && Solid([s[..end]] + tokens, IsSeparator) && Weave([""] + gaps, [s[..end]] + tokens) == s
  {
    hide IsSeparator;
    TokenFirst(gaps, tokens);
    assert s[end..] != "" ==> s[end..][0] == s[end];
    assert tokens != [] ==> gaps[0] != "";
    hide Weave;
    GapsBehindNone(gaps);
    MoreSolid(s[..end], tokens);
    WeaveUnfolds(s[..end], gaps, tokens);
    assert s == s[..end] + s[end..];
  }

  lemma WeaveUnfolds(token: string, gaps: seq<string>, tokens: seq<string>)
    requires |gaps| == |tokens| + 1
    ensures Weave([""] + gaps, [token] + tokens) == token + Weave(gaps, tokens)
  {
    assert ([""] + gaps)[1..] == gaps && ([token] + tokens)[1..] == tokens;
    assert "" + token == token;
  }

  lemma GapsBehindNone(gaps: seq<string>)
    requires gaps != [] && Gaps(gaps) && (|gaps| > 1 ==> gaps[0] != "")
    ensures Gaps([""] + gaps)
  {
    hide IsSeparator;
    var wider := [""] + gaps;
    forall i, j | 0 <= i < |wider| && 0 <= j < |wider[i]| ensures IsSeparator(wider[i][j]) {
      assert wider[i] == gaps[i - 1];
    }
    forall i | 0 < i < |wider| - 1 ensures wider[i] != "" {
      assert wider[i] == gaps[i - 1];
    }
  }

  lemma MoreSolid(token: string, tokens: seq<string>)
    requires token != "" && (forall j :: 0 <= j < |token| ==> !IsSeparator(token[j])) && Solid(tokens, IsSeparator)
    ensures Solid([token] + tokens, IsSeparator)
  {
    hide IsSeparator;
    var more := [token] + tokens;
    assert forall k :: 0 < k < |more| ==> more[k] == tokens[k - 1];
  }

  /** Tokens amount to digits only if each is a digit word or a run of figures. */
  lemma {:induction false} FiguredOnlyFromDigits(tokens: seq<string>)
    requires Solid(tokens, IsSeparator) && AllDigits(Figured(tokens))
    ensures DigitTokens(tokens)
  {
    hide DigitOf;
    if tokens != [] {
      var head, rest := DigitOf(tokens[0]), Figured(tokens[1..]);
      assert forall i :: 0 <= i < |head| ==> Figured(tokens)[i] == head[i];
      assert forall i :: 0 <= i < |rest| ==> Figured(tokens)[|head| + i] == rest[i];
      OneToken(tokens[0]);
      assert Solid(tokens[1..], IsSeparator);
      FiguredOnlyFromDigits(tokens[1..]);
      forall k | 0 <= k < |tokens| ensures DigitToken(tokens[k]) {
        if k > 0 { assert tokens[k] == tokens[1..][k - 1]; }
      }
    }
  }

  lemma OneToken(t: string)
    requires t != ""
    ensures AllDigits(DigitOf(t)) ==> DigitToken(t)
  {
  }

  /** The text holds none of the characters that are refused outright. */
  predicate Acceptable(text: string) {
    && '.' !in text && '+' !in text && (forall i :: 0 <= i < |text| ==> !IsControl(text[i]))
    && !Starts(TrimSpaces(text), "-")
  }

  /** Digit words and runs of figures that amount to `digits`, with gaps between them. */
  ghost predicate Spells(s: string, digits: string, gaps: seq<string>, tokens: seq<string>) {
    && |gaps| == |tokens| + 1 && Gaps(gaps) && tokens != [] && DigitTokens(tokens)
    && s == Weave(gaps, tokens) && Figured(tokens) == digits
  }

  lemma UnderstoodAreSpelled(text: string, length: nat, digits: string) returns (gaps: seq<string>, tokens: seq<string>)
    requires ParseDigits(text, length) == Some(digits)
    ensures Acceptable(text) && |digits| == length && Spells(ToLower(TrimSpaces(text)), digits, gaps, tokens)
  {
    var s := ToLower(TrimSpaces(text));
    tokens := Runs(s, IsSeparator);
    gaps := WeaveOfRuns(s);
    hide Runs, Weave, Gaps, Figured, DigitTokens, Solid, TrimSpaces, ToLower, AllDigits, IsControl, IsSeparator;
    FiguredOnlyFromDigits(tokens);
  }

  lemma SpelledAreUnderstood(text: string, digits: string, gaps: seq<string>, tokens: seq<string>)
    requires Acceptable(text) && Spells(ToLower(TrimSpaces(text)), digits, gaps, tokens)
    ensures ParseDigits(text, |digits|) == Some(digits)
  {
    hide Runs, Weave, GapsOf, Figured, DigitTokens, Solid, TrimSpaces, ToLower, AllDigits, IsControl, IsSeparator;
    DigitTokensAreSolid(tokens);
    RunsOfWeave(gaps, tokens, IsSeparator);
    FiguredIsDigits(tokens);
  }

  /**
   * The whole language of digit runs: a text is understood as `digits` exactly when none of
   * its characters is refused and, trimmed and in lower case, it consists of digit words and
   * runs of figures, separated by spaces, commas or hyphens, that amount to `digits`, as
   * many as were asked for.
   */
  lemma DigitsAreExact(text: string, length: nat, digits: string)
    ensures ParseDigits(text, length) == Some(digits)
       <==> && Acceptable(text) && |digits| == length
            && exists gaps, tokens :: Spells(ToLower(TrimSpaces(text)), digits, gaps, tokens)
  {
    hide *;
    if ParseDigits(text, length) == Some(digits) {
      var gaps, tokens := UnderstoodAreSpelled(text, length, digits);
    }
    forall gaps, tokens |
        Acceptable(text) && |digits| == length && Spells(ToLower(TrimSpaces(text)), digits, gaps, tokens)
      ensures ParseDigits(text, length) == Some(digits)
    {
      SpelledAreUnderstood(text, digits, gaps, tokens);
    }
  }
}
