/**
 * The string operations the indexer relies on: the decimal form of chain
 * integers (`toString()` and `parseInt`), substring search (`includes`),
 * ASCII lower-casing of addresses (`toLowerCase`) and splitting the
 * dash-separated natural keys back into their parts.
 */
module Strings {

  import opened Wrappers

  predicate IsDigit(c: char) {
    '0' <= c <= '9'
  }

  predicate AllDigits(s: string) {
    forall i :: 0 <= i < |s| ==> IsDigit(s[i])
  }

  predicate NoDash(s: string) {
    forall i :: 0 <= i < |s| ==> s[i] != '-'
  }

  function DigitChar(d: nat): (c: char)
    requires d < 10
    ensures IsDigit(c)
  {
    (48 + d) as char
  }

  function DigitValue(c: char): (d: nat)
    requires IsDigit(c)
    ensures d < 10
  {
    c as int - 48
  }

  /** The decimal notation of `n`, as `toString()` of a BigInt or a BigNumber writes it. */
  function Decimal(n: nat): (s: string)
    ensures |s| >= 1 && AllDigits(s)
    ensures |s| > 1 ==> s[0] != '0'
    decreases n
  {
    if n < 10 then [DigitChar(n)] else Decimal(n / 10) + [DigitChar(n % 10)]
  }

  /** The value of a string of decimal digits, as `parseInt` reads it. */
  function ParseDigits(s: string): (n: nat)
    requires AllDigits(s)
  {
    if s == [] then 0 else ParseDigits(s[..|s| - 1]) * 10 + DigitValue(s[|s| - 1])
  }

  /** `parseInt(n.toString())` gives `n` back. */
  lemma {:induction false} ParseDecimal(n: nat)
    ensures ParseDigits(Decimal(n)) == n
  {
    if n >= 10 {
      var s := Decimal(n);
      assert s[..|s| - 1] == Decimal(n / 10);
      ParseDecimal(n / 10);
    }
  }

  lemma DigitsHaveNoDash(s: string)
    requires AllDigits(s)
    ensures NoDash(s)
  {
  }

  predicate OccursAt(s: string, sub: string, i: nat) {
    i + |sub| <= |s| && s[i..i + |sub|] == sub
  }

  /** `s.includes(sub)`. */
  predicate Contains(s: string, sub: string) {
    ContainsFrom(s, sub, 0)
  }

  /** The search for `sub` in `s` from position `i` on. */
  predicate ContainsFrom(s: string, sub: string, i: nat)
    decreases |s| - i
  {
    if i + |sub| > |s| then false
    else OccursAt(s, sub, i) || ContainsFrom(s, sub, i + 1)
  }

  /** The search from `i` finds `sub` exactly when it occurs at some position from `i` on. */
  lemma {:induction false} ContainsFromIff(s: string, sub: string, i: nat)
    ensures ContainsFrom(s, sub, i) <==> exists k :: i <= k <= |s| && OccursAt(s, sub, k)
    decreases |s| - i
  {
    if i + |sub| <= |s| {
      ContainsFromIff(s, sub, i + 1);
    }
  }

  /** `s.includes(sub)` holds exactly when `sub` occurs at some position of `s`. */
  lemma ContainsIff(s: string, sub: string)
    ensures Contains(s, sub) <==> exists i :: 0 <= i <= |s| && OccursAt(s, sub, i)
  {
    ContainsFromIff(s, sub, 0);
  }

  function LowerChar(c: char): char {
    if 'A' <= c <= 'Z' then (c as int + 32) as char else c
  }

  /** `toLowerCase()` restricted to ASCII letters, which is all a hex address holds. */
  function ToLower(s: string): (r: string)
    ensures |r| == |s|
    ensures forall i :: 0 <= i < |s| ==> r[i] == LowerChar(s[i])
    ensures forall i :: 0 <= i < |r| ==> !('A' <= r[i] <= 'Z')
  {
    if s == [] then [] else [LowerChar(s[0])] + ToLower(s[1..])
  }

  /** Splits `s` at its first dash: the part before it (dash-free) and the rest after it. */
  function SplitAtDash(s: string): (r: Option<(string, string)>)
    ensures r.Some? ==> NoDash(r.value.0) && s == r.value.0 + "-" + r.value.1
    ensures r.None? ==> NoDash(s)
  {
    if s == [] then None
    else if s[0] == '-' then Some(([], s[1..]))
    else
      match SplitAtDash(s[1..])
      case None => None
      case Some(parts) => Some(([s[0]] + parts.0, parts.1))
  }

  /** Joining a dash-free head to a tail with a dash, then splitting at the first dash, gives both back. */
  lemma {:induction false} SplitJoin(head: string, tail: string)
    requires NoDash(head)
    ensures SplitAtDash(head + "-" + tail) == Some((head, tail))
  {
    var s := head + "-" + tail;
    if head != [] {
      assert s[0] == head[0] && s[0] != '-';
      assert s[1..] == head[1..] + "-" + tail;
      SplitJoin(head[1..], tail);
      assert [head[0]] + head[1..] == head;
    }
  }
}
