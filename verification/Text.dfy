/** Decimal numerals, trimming and substring search, as Rust's `str` provides them. */
module Text {
  import opened Values

  predicate IsDigit(c: char) {
    '0' <= c <= '9'
  }

  predicate AllDigits(s: string) {
    forall k :: 0 <= k < |s| ==> IsDigit(s[k])
  }

  /** The number a string of decimal digits denotes. */
  function DigitsValue(s: string): nat
    requires AllDigits(s)
  {
    if s == [] then 0 else 10 * DigitsValue(s[..|s| - 1]) + (s[|s| - 1] - '0') as nat
  }

  /** The decimal numeral of `n`, without leading zeros. */
  function PrintNat(n: nat): (s: string)
    ensures s != [] && AllDigits(s)
  {
    var last := ['0' + (n % 10) as char];
    if n < 10 then last else PrintNat(n / 10) + last
  }

  lemma {:induction false} PrintNatValue(n: nat)
    ensures DigitsValue(PrintNat(n)) == n
  {
    var last := ['0' + (n % 10) as char];
    if n < 10 {
      assert PrintNat(n) == last && last[..0] == [];
    } else {
      PrintNatValue(n / 10);
      assert PrintNat(n)[..|PrintNat(n)| - 1] == PrintNat(n / 10);
    }
  }

  /** Unicode's White_Space property. */
  predicate IsSpace(c: char) {
    var n := c as int;
    || 0x9 <= n <= 0xD || n == 0x20 || n == 0x85 || n == 0xA0 || n == 0x1680
    || 0x2000 <= n <= 0x200A || n == 0x2028 || n == 0x2029 || n == 0x202F || n == 0x205F || n == 0x3000
  }

  function TrimStart(s: string): string {
    if s != [] && IsSpace(s[0]) then TrimStart(s[1..]) else s
  }

  function TrimEnd(s: string): string {
    if s != [] && IsSpace(s[|s| - 1]) then TrimEnd(s[..|s| - 1]) else s
  }

  function Trim(s: string): string {
    TrimEnd(TrimStart(s))
  }

  /** A string with no white space at either end. */
  predicate Tight(s: string) {
    s != [] ==> !IsSpace(s[0]) && !IsSpace(s[|s| - 1])
  }

  /** Trimming removes exactly the surrounding white space: what is left is tight, and it is
      all that is left of any string that pads it. */
  lemma {:induction false} TrimPadded(left: string, s: string, right: string)
    requires Tight(s) && s != []
    requires forall c <- left :: IsSpace(c)
    requires forall c <- right :: IsSpace(c)
    ensures Trim(left + s + right) == s
  {
    TrimStartPadded(left, s + right);
    assert left + s + right == left + (s + right);
    TrimEndPadded(s, right);
  }

  lemma {:induction false} TrimStartPadded(left: string, s: string)
    requires s != [] && !IsSpace(s[0])
    requires forall c <- left :: IsSpace(c)
    ensures TrimStart(left + s) == s
  {
    if left == [] {
      assert left + s == s;
    } else {
      assert (left + s)[1..] == left[1..] + s;
      assert left[0] in left;
      TrimStartPadded(left[1..], s);
    }
  }

  lemma {:induction false} TrimEndPadded(s: string, right: string)
    requires s != [] && !IsSpace(s[|s| - 1])
    requires forall c <- right :: IsSpace(c)
    ensures TrimEnd(s + right) == s
  {
    if right == [] {
      assert s + right == s;
    } else {
      var n := |right| - 1;
      assert (s + right)[..|s + right| - 1] == s + right[..n];
      assert right[n] in right;
      TrimEndPadded(s, right[..n]);
    }
  }

  lemma {:induction false} TrimTight(s: string)
    requires Tight(s)
    ensures Trim(s) == s
  {
    if s != [] {
      TrimPadded([], s, []);
      assert [] + s + [] == s;
    }
  }

  /** `pattern` stands in `s` at position `i`. */
  predicate OccursAt(s: string, i: int, pattern: string) {
    0 <= i && i + |pattern| <= |s| && forall k :: 0 <= k < |pattern| ==> s[i + k] == pattern[k]
  }

  /** The first occurrence of `pattern` at or after `start`. */
  function FindFrom(s: string, pattern: string, start: nat): (r: Option<nat>)
    ensures r.Some? ==> start <= r.value && OccursAt(s, r.value, pattern)
    ensures r.Some? ==> forall i :: start <= i < r.value ==> !OccursAt(s, i, pattern)
    ensures r.None? ==> forall i :: start <= i ==> !OccursAt(s, i, pattern)
    decreases |s| - start
  {
    if start + |pattern| > |s| then None
    else if OccursAt(s, start, pattern) then Some(start)
    else if start == |s| then None
    else FindFrom(s, pattern, start + 1)
  }
}
