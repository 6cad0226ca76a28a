/** Small vocabulary shared by every module. */
module Prelude {

  datatype Option<+T> = None | Some(value: T)

  datatype Result<+T, +E> = Ok(value: T) | Err(error: E)

  /** Every element read, in order, or nothing when one of them cannot be read. */
  function ReadAll<S, T>(items: seq<S>, read: S -> Option<T>): (r: Option<seq<T>>)
    ensures r.Some? ==> |r.value| == |items|
    ensures r.Some? <==> forall i :: 0 <= i < |items| ==> read(items[i]).Some?
    ensures r.Some? ==> forall i :: 0 <= i < |items| ==> read(items[i]) == Some(r.value[i])
  {
    if items == [] then Some([])
    else
      var last := |items| - 1;
      match (ReadAll(items[..last], read), read(items[last]))
      case (Some(init), Some(t)) => Some(init + [t])
      case _ => None
  }

  /** Number of elements of `s` that satisfy `p`. */
  function Count<T>(s: seq<T>, p: T -> bool): (n: nat)
    ensures n <= |s|
  {
    if s == [] then 0 else Count(s[..|s| - 1], p) + (if p(s[|s| - 1]) then 1 else 0)
  }

  lemma CountAppend<T>(s: seq<T>, x: T, p: T -> bool)
    ensures Count(s + [x], p) == Count(s, p) + (if p(x) then 1 else 0)
  {
    assert (s + [x])[..|s|] == s;
  }

  lemma {:induction false} CountUpdate<T>(s: seq<T>, i: nat, x: T, p: T -> bool)
    requires i < |s|
    ensures Count(s[i := x], p) + (if p(s[i]) then 1 else 0) == Count(s, p) + (if p(x) then 1 else 0)
  {
    var last := |s| - 1;
    if i == last {
      assert s[i := x][..last] == s[..last];
    } else {
      assert s[i := x][..last] == s[..last][i := x];
      CountUpdate(s[..last], i, x, p);
    }
  }

  /** Counting depends only on which positions satisfy the predicate. */
  lemma {:induction false} CountPointwise<S, T>(s: seq<S>, t: seq<T>, p: S -> bool, q: T -> bool)
    requires |s| == |t|
    requires forall i :: 0 <= i < |s| ==> p(s[i]) == q(t[i])
    ensures Count(s, p) == Count(t, q)
  {
    if s != [] {
      CountPointwise(s[..|s| - 1], t[..|t| - 1], p, q);
    }
  }

  lemma {:induction false} CountFromFront<T>(s: seq<T>, p: T -> bool)
    requires s != []
    ensures Count(s, p) == (if p(s[0]) then 1 else 0) + Count(s[1..], p)
  {
    if |s| > 1 {
      CountFromFront(s[..|s| - 1], p);
      assert s[..|s| - 1][1..] == s[1..][..|s| - 2];
    }
  }

  /** The words with single spaces between them. */
  function Join(words: seq<string>): string {
    if words == [] then ""
    else if |words| == 1 then words[0]
    else words[0] + " " + Join(words[1..])
  }

  lemma Multiples(g: nat, a: int, b: int)
    ensures a <= b ==> g * a <= g * b
  {
  }

  /** Quotient and remainder are told from the product. */
  lemma Quotient(n: nat, g: nat, q: nat, r: nat)
    requires g > 0 && n == g * q + r && r < g
    ensures n / g == q && n % g == r
  {
    assert n == g * (n / g) + n % g;
    Multiples(g, q + 1, n / g);
    Multiples(g, n / g + 1, q);
    assert g * (q + 1) == g * q + g && g * (n / g + 1) == g * (n / g) + g;
  }
}
