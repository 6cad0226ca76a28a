/**
 * The title rule, written once on the server over code points and once on the
 * client over UTF-16 code units, and the proof that the two agree.
 */
module Titles {
  import opened Prelude

  /** A Python string: code points, unpaired surrogates included. */
  type CodePoint = c: int | 0 <= c <= 0x10FFFF
  type Text = seq<CodePoint>

  /** A JavaScript string: UTF-16 code units. */
  type CodeUnit = u: int | 0 <= u <= 0xFFFF
  type Utf16 = seq<CodeUnit>

  const MAX_TITLE_CODE_POINTS := 120

  /** ECMASCRIPT_TRIM_CHARS of the server. */
  predicate IsTrimChar(c: int) {
    || 0x0009 <= c <= 0x000D || c == 0x0020 || c == 0x00A0 || c == 0x1680
    || 0x2000 <= c <= 0x200A || c == 0x2028 || c == 0x2029 || c == 0x202F
    || c == 0x205F || c == 0x3000 || c == 0xFEFF
  }

  predicate IsSurrogate(c: int) { 0xD800 <= c <= 0xDFFF }
  predicate IsHigh(c: int) { 0xD800 <= c <= 0xDBFF }
  predicate IsLow(c: int) { 0xDC00 <= c <= 0xDFFF }

  // ---------------------------------------------------------------- trimming

  /** How many leading elements are trimmed. */
  function Leading(s: seq<int>): (n: nat)
    ensures n <= |s|
    ensures forall i :: 0 <= i < n ==> IsTrimChar(s[i])
    ensures n < |s| ==> !IsTrimChar(s[n])
  {
    if s == [] || !IsTrimChar(s[0]) then 0 else 1 + Leading(s[1..])
  }

  /** Where the kept part ends, given where it starts. */
  function TrailingFrom(s: seq<int>, start: nat): (end: nat)
    requires start <= |s|
    ensures start <= end <= |s|
    ensures forall i :: end <= i < |s| ==> IsTrimChar(s[i])
    ensures start < end ==> !IsTrimChar(s[end - 1])
  {
    if start == |s| || !IsTrimChar(s[|s| - 1]) then |s| else TrailingFrom(s[..|s| - 1], start)
  }

  function Strip(t: Text): Text {
    var start := Leading(t);
    t[start..TrailingFrom(t, start)]
  }

  function Trim(u: Utf16): Utf16 {
    var start := Leading(u);
    u[start..TrailingFrom(u, start)]
  }

  ghost predicate AllTrim(s: seq<int>) {
    forall i :: 0 <= i < |s| ==> IsTrimChar(s[i])
  }

  /** Which characters are trimmed, one by one. */
  lemma TrimCharacters(c: int)
    ensures IsTrimChar(c) <==>
      c in {0x9, 0xA, 0xB, 0xC, 0xD, 0x20, 0xA0, 0x1680, 0x2000, 0x2001, 0x2002, 0x2003, 0x2004, 0x2005, 0x2006,
            0x2007, 0x2008, 0x2009, 0x200A, 0x2028, 0x2029, 0x202F, 0x205F, 0x3000, 0xFEFF}
  {
  }

  /** Neither end could be trimmed further. */
  ghost predicate Tight(s: seq<int>) {
    s != [] ==> !IsTrimChar(s[0]) && !IsTrimChar(s[|s| - 1])
  }

  lemma StripIsUnique(t: Text, before: Text, middle: Text, after: Text)
    requires t == before + middle + after
    requires AllTrim(before) && AllTrim(after) && Tight(middle)
    ensures Strip(t) == middle
  {
    hide IsTrimChar, Leading, TrailingFrom;
    var stop := |before| + |middle|;
    assert forall i :: 0 <= i < |before| ==> t[i] == before[i];
    assert forall i :: |before| <= i < stop ==> t[i] == middle[i - |before|];
    assert forall i :: stop <= i < |t| ==> t[i] == after[i - stop];
    var start := Leading(t);
    var end := TrailingFrom(t, start);
    if middle == [] {
      assert start == |t|;
    } else {
      assert !IsTrimChar(t[|before|]) && !IsTrimChar(t[stop - 1]);
      assert start == |before| && end == stop;
    }
  }

  // ---------------------------------------------------------------- server

  datatype TitleError = ContainsNul | UnpairedSurrogate | BadLength

  /** Trim, reject NUL and surrogates, and bound the length (`limit` is 120 for titles). */
  function CanonicalizeWithin(text: Text, limit: nat): Result<Text, TitleError> {
    var t := Strip(text);
    if 0 in t then Err(ContainsNul)
    else if exists c :: c in t && IsSurrogate(c) then Err(UnpairedSurrogate)
    else if !(1 <= |t| <= limit) then Err(BadLength)
    else Ok(t)
  }

  function CanonicalizeTitle(title: Text): Result<Text, TitleError> {
    CanonicalizeWithin(title, MAX_TITLE_CODE_POINTS)
  }

  /** What a stored text must be for a second canonicalization to leave it alone. */
  ghost predicate Settled(t: Text, limit: nat) {
    && 1 <= |t| <= limit
    && Tight(t)
    && forall c :: c in t ==> c != 0 && !IsSurrogate(c)
  }

  predicate CanonicalTitle(t: Text) {
    CanonicalizeTitle(t) == Ok(t)
  }

  /** Canonicalization is idempotent, and its fixed points are exactly the settled texts. */
  lemma CanonicalIsSettled(text: Text, limit: nat)
    ensures CanonicalizeWithin(text, limit) == Ok(text) <==> Settled(text, limit)
    ensures CanonicalizeWithin(text, limit).Ok? ==>
              var t := CanonicalizeWithin(text, limit).value;
              Settled(t, limit) && CanonicalizeWithin(t, limit) == Ok(t)
  {
    hide Strip, Tight;
    StripIsTight(text);
    TightIsStripped(Strip(text));
    TightIsStripped(text);
  }

  /**
   * The whole rule: a title is taken apart into its tight middle and what is trimmed around
   * it, and the middle is refused for a NUL, else for a surrogate, else for its length.
   */
  lemma TitleDecides(title: Text, before: Text, middle: Text, after: Text)
    requires title == before + middle + after
    requires AllTrim(before) && AllTrim(after) && Tight(middle)
    ensures CanonicalizeTitle(title) ==
      if 0 in middle then Err(ContainsNul)
      else if exists c :: c in middle && 0xD800 <= c <= 0xDFFF then Err(UnpairedSurrogate)
      else if middle == [] || |middle| > 120 then Err(BadLength)
      else Ok(middle)
  {
    hide Strip, Tight, AllTrim;
    WithinDecides(title, before, middle, after, 120);
  }

  lemma WithinDecides(text: Text, before: Text, middle: Text, after: Text, limit: nat)
    requires text == before + middle + after
    requires AllTrim(before) && AllTrim(after) && Tight(middle)
    ensures CanonicalizeWithin(text, limit) ==
      if 0 in middle then Err(ContainsNul)
      else if exists c :: c in middle && IsSurrogate(c) then Err(UnpairedSurrogate)
      else if middle == [] || |middle| > limit then Err(BadLength)
      else Ok(middle)
  {
    hide Strip, Tight, AllTrim, IsSurrogate;
    StripIsUnique(text, before, middle, after);
  }

  lemma KeptIsTight(s: seq<int>, i: nat, j: nat)
    requires i <= j <= |s|
    requires i < |s| ==> !IsTrimChar(s[i])
    requires i < j ==> !IsTrimChar(s[j - 1])
    ensures Tight(s[i..j])
  {
    hide IsTrimChar;
  }

  lemma StripIsTight(text: Text)
    ensures Tight(Strip(text))
  {
    KeptIsTight(text, Leading(text), TrailingFrom(text, Leading(text)));
  }

  lemma TightIsStripped(text: Text)
    ensures Tight(text) ==> Strip(text) == text
  {
    if Tight(text) {
      hide Strip, Tight, IsTrimChar;
      assert text == [] + text + [];
      StripIsUnique(text, [], text, []);
    }
  }

  // ---------------------------------------------------------------- UTF-16

  function Combine(high: CodeUnit, low: CodeUnit): CodePoint
    requires IsHigh(high) && IsLow(low)
  {
    0x10000 + (high - 0xD800) * 0x400 + (low - 0xDC00)
  }

  /** Pairs combine; an unpaired surrogate decodes to itself. */
  function Decode(u: Utf16): (t: Text)
    ensures |t| <= |u|
    ensures u != [] ==> t != []
  {
    if u == [] then []
    else if IsHigh(u[0]) && |u| > 1 && IsLow(u[1]) then [Combine(u[0], u[1])] + Decode(u[2..])
    else [u[0]] + Decode(u[1..])
  }

  function Encode(t: Text): Utf16 {
    if t == [] then []
    else if t[0] < 0x10000 then [t[0]] + Encode(t[1..])
    else
      var v := t[0] - 0x10000;
      [0xD800 + v / 0x400, 0xDC00 + v % 0x400] + Encode(t[1..])
  }

  lemma {:induction false} EncodeInvertsDecode(u: Utf16)
    ensures Encode(Decode(u)) == u
  {
    if u == [] {
    } else if IsHigh(u[0]) && |u| > 1 && IsLow(u[1]) {
      EncodeInvertsDecode(u[2..]);
      var c := Combine(u[0], u[1]);
      assert Decode(u) == [c] + Decode(u[2..]);
      assert Decode(u)[1..] == Decode(u[2..]);
      assert (c - 0x10000) / 0x400 == u[0] - 0xD800;
      assert u == [u[0], u[1]] + u[2..];
    } else {
      EncodeInvertsDecode(u[1..]);
      assert Decode(u)[1..] == Decode(u[1..]);
      assert u == [u[0]] + u[1..];
    }
  }

  /** Without surrogates among its code points, a text survives the round trip. */
  lemma {:induction false} DecodeInvertsEncode(t: Text)
    requires forall c :: c in t ==> !IsSurrogate(c)
    ensures Decode(Encode(t)) == t
  {
    if t != [] {
      DecodeInvertsEncode(t[1..]);
      var rest := Encode(t[1..]);
      if t[0] < 0x10000 {
        assert Encode(t)[1..] == rest;
        assert t[0] in t;
      } else {
        assert Encode(t)[2..] == rest;
      }
      assert t == [t[0]] + t[1..];
    }
  }

  lemma DecodeUnfolds(u: Utf16)
    requires u != []
    ensures Decode(u) == if IsHigh(u[0]) && |u| > 1 && IsLow(u[1]) then [Combine(u[0], u[1])] + Decode(u[2..])
                         else [u[0]] + Decode(u[1..])
  {
  }

  lemma Regrouped<T>(a: seq<T>, b: seq<T>, c: seq<T>)
    ensures a + (b + c) == (a + b) + c
  {
  }

  lemma {:induction false} DecodeSplits(a: Utf16, b: Utf16)
    requires b == [] || !IsLow(b[0])
    ensures Decode(a + b) == Decode(a) + Decode(b)
  {
    hide Combine, Decode, IsHigh, IsLow;
    var u := a + b;
    if a == [] {
      assert u == b;
      assert Decode(a) == [];
    } else {
      DecodeUnfolds(u);
      DecodeUnfolds(a);
      assert u[0] == a[0] && (|a| > 1 ==> u[1] == a[1]);
      assert |a| == 1 && |u| > 1 ==> u[1] == b[0];
      var n := if IsHigh(a[0]) && |a| > 1 && IsLow(a[1]) then 2 else 1;
      assert u[n..] == a[n..] + b;
      DecodeSplits(a[n..], b);
      Regrouped(Decode(a)[..1], Decode(a[n..]), Decode(b));
    }
  }

  lemma {:induction false} DecodePlain(u: Utf16)
    requires forall i :: 0 <= i < |u| ==> !IsSurrogate(u[i])
    ensures Decode(u) == u
  {
    if u != [] {
      DecodePlain(u[1..]);
      assert u == [u[0]] + u[1..];
    }
  }

  lemma {:induction false} DecodeEnds(u: Utf16)
    requires u != [] && !IsTrimChar(u[0]) && !IsTrimChar(u[|u| - 1])
    ensures Tight(Decode(u))
  {
    var t := Decode(u);
    var last := u[|u| - 1];
    if IsLow(last) {
      DecodeLastAboveTrim(u);
    } else {
      var init := u[..|u| - 1];
      assert u == init + [last];
      DecodeSplits(init, [last]);
      assert Decode([last]) == [last];
    }
  }

  lemma {:induction false} DecodeLastAboveTrim(u: Utf16)
    requires u != [] && IsLow(u[|u| - 1])
    ensures !IsTrimChar(Decode(u)[|Decode(u)| - 1])
  {
    if IsHigh(u[0]) && |u| > 1 && IsLow(u[1]) {
      if |u| > 2 { DecodeLastAboveTrim(u[2..]); } else { assert Decode(u[2..]) == []; }
    } else if |u| > 1 {
      DecodeLastAboveTrim(u[1..]);
    }
  }

  lemma InThree<T>(s: seq<T>, i: nat, j: nat)
    requires i <= j <= |s|
    ensures s == s[..i] + s[i..j] + s[j..]
  {
    assert s[..i] + s[i..j] == s[..j];
  }

  lemma TrimIsTheMiddle(u: Utf16)
    ensures Trim(u) == u[Leading(u)..TrailingFrom(u, Leading(u))]
  {
  }

  lemma TrimmedAreTrim(s: seq<int>, i: nat, j: nat)
    requires i <= j <= |s|
    requires forall k :: 0 <= k < i ==> IsTrimChar(s[k])
    requires forall k :: j <= k < |s| ==> IsTrimChar(s[k])
    ensures AllTrim(s[..i]) && AllTrim(s[j..])
  {
    hide IsTrimChar;
  }

  lemma TrimParts(u: Utf16) returns (before: Utf16, after: Utf16)
    ensures u == before + Trim(u) + after
    ensures AllTrim(before) && AllTrim(after) && Tight(Trim(u))
  {
    hide *;
    var start := Leading(u);
    var end := TrailingFrom(u, start);
    before, after := u[..start], u[end..];
    InThree(u, start, end);
    TrimIsTheMiddle(u);
    KeptIsTight(u, start, end);
    TrimmedAreTrim(u, start, end);
  }

  /** Trimming commutes with decoding. */
  lemma TrimCommutes(u: Utf16)
    ensures Strip(Decode(u)) == Decode(Trim(u))
  {
    hide Strip, Trim, Decode, AllTrim, Tight;
    var before, after := TrimParts(u);
    DecodeThreeParts(u, before, Trim(u), after);
    StripIsUnique(Decode(u), before, Decode(Trim(u)), after);
  }

  lemma TrimIsPlain(s: seq<int>)
    requires AllTrim(s)
    ensures forall i :: 0 <= i < |s| ==> !IsSurrogate(s[i])
  {
  }

  lemma DecodeThreeParts(u: Utf16, before: Utf16, middle: Utf16, after: Utf16)
    requires u == before + middle + after
    requires AllTrim(before) && AllTrim(after) && Tight(middle)
    ensures Decode(u) == before + Decode(middle) + after
    ensures Tight(Decode(middle))
  {
    hide Decode, IsTrimChar, AllTrim;
    TrimIsPlain(before);
    TrimIsPlain(after);
    assert u == before + (middle + after);
    DecodeAfterPlain(before, middle + after);
    DecodeSplits(middle, after);
    DecodePlain(after);
    if middle != [] {
      DecodeEnds(middle);
    }
  }

  lemma {:induction false} DecodeAfterPlain(a: Utf16, b: Utf16)
    requires forall i :: 0 <= i < |a| ==> !IsSurrogate(a[i])
    ensures Decode(a + b) == a + Decode(b)
  {
    if a == [] {
      assert a + b == b;
    } else {
      assert (a + b)[1..] == a[1..] + b;
      DecodeAfterPlain(a[1..], b);
      assert a == [a[0]] + a[1..];
    }
  }

  ghost predicate HasSurrogate(t: Text) {
    exists c :: c in t && IsSurrogate(c)
  }

  lemma {:induction false} NulSurvivesDecoding(u: Utf16)
    ensures 0 in u <==> 0 in Decode(u)
  {
    if u == [] {
    } else if IsHigh(u[0]) && |u| > 1 && IsLow(u[1]) {
      NulSurvivesDecoding(u[2..]);
      assert u == [u[0], u[1]] + u[2..];
    } else {
      NulSurvivesDecoding(u[1..]);
      assert u == [u[0]] + u[1..];
    }
  }

  // ---------------------------------------------------------------- client

  /** The surrogate-aware walk both client functions share. */
  method CountCodePoints(value: Utf16) returns (count: Option<nat>)
    ensures count == if HasSurrogate(Decode(value)) then None else Some(|Decode(value)|)
  {
    var codePoints: nat := 0;
    var index: nat := 0;
    assert value[0..] == value;
    while index < |value|
      invariant index <= |value|
      invariant codePoints + |Decode(value[index..])| == |Decode(value)|
      invariant HasSurrogate(Decode(value)) <==> HasSurrogate(Decode(value[index..]))
    {
      var code := value[index];
      ghost var rest := value[index..];
      if 0xD800 <= code <= 0xDBFF {
        if !(index + 1 < |value| && 0xDC00 <= value[index + 1] <= 0xDFFF) {
          assert code in Decode(rest) by { assert Decode(rest)[0] == code; }
          assert HasSurrogate(Decode(rest));
          return None;
        }
        assert rest[2..] == value[index + 2..];
        assert Decode(rest) == [Combine(rest[0], rest[1])] + Decode(rest[2..]);
        assert HasSurrogate(Decode(rest)) <==> HasSurrogate(Decode(rest[2..]));
        index := index + 1;
      } else {
        if 0xDC00 <= code <= 0xDFFF {
          assert code in Decode(rest) by { assert Decode(rest)[0] == code; }
          assert HasSurrogate(Decode(rest));
          return None;
        }
        assert rest[1..] == value[index + 1..];
        assert Decode(rest) == [code] + Decode(rest[1..]);
        assert HasSurrogate(Decode(rest)) <==> HasSurrogate(Decode(rest[1..]));
      }
      codePoints := codePoints + 1;
      index := index + 1;
    }
    return Some(codePoints);
  }

  /** What the client computes, stated through the server's rule on the decoded string. */
  ghost function NormalizedTitle(input: Utf16): Option<Utf16> {
    match CanonicalizeTitle(Decode(input))
    case Ok(t) => Some(Encode(t))
    case Err(_) => None
  }

  /** The rule in terms of the trimmed code units. */
  lemma ClientRule(input: Utf16)
    ensures
      var title := Trim(input);
      NormalizedTitle(input) ==
        if |title| == 0 || 0 in title || HasSurrogate(Decode(title)) ||
            |Decode(title)| > MAX_TITLE_CODE_POINTS then None
        else Some(title)
  {
    hide Trim, Strip, Decode, Encode, IsSurrogate;
    TrimCommutes(input);
    EncodeInvertsDecode(Trim(input));
    NulSurvivesDecoding(Trim(input));
  }

  /**
   * The client returns null exactly when the server would refuse the decoded
   * string, and otherwise the encoding of the server's canonical title.
   */
  method NormalizeTodoTitle(input: Utf16) returns (r: Option<Utf16>)
    ensures r == NormalizedTitle(input)
  {
    hide *;
    var title := Trim(input);
    ClientRule(input);
    if |title| == 0 { return None; }
    if 0 in title { return None; }
    // The loop of the source is the walk of CountCodePoints, copied in place.
    var codePoints := CountCodePoints(title);
    if codePoints == None { return None; }
    if codePoints.value > MAX_TITLE_CODE_POINTS { return None; }
    return Some(title);
  }

  /** The client rule is idempotent, and decoding its answer gives the server's. */
  lemma NormalizedTitleAgrees(input: Utf16)
    ensures NormalizedTitle(input).None? <==> CanonicalizeTitle(Decode(input)).Err?
    ensures NormalizedTitle(input).Some? ==>
              var r := NormalizedTitle(input).value;
              && CanonicalizeTitle(Decode(input)) == Ok(Decode(r))
              && r == Trim(input)
              && NormalizedTitle(r) == Some(r)
              && CanonicalTitle(Decode(r))
  {
    TrimCommutes(input);
    EncodeInvertsDecode(Trim(input));
    CanonicalIsSettled(Decode(input), MAX_TITLE_CODE_POINTS);
  }

  /** Every canonical server title is one the client would keep unchanged. */
  lemma ServerTitlesAreClientTitles(t: Text)
    requires CanonicalTitle(t)
    ensures NormalizedTitle(Encode(t)) == Some(Encode(t))
  {
    CanonicalIsSettled(t, MAX_TITLE_CODE_POINTS);
    DecodeInvertsEncode(t);
  }
}
