/** UTF-8 (section 3 of RFC 3629), and the truncation of long values in the history
    (engine-core/src/history/mod.rs). */
module Utf8 {
  import opened Values
  import opened Text

  type Byte = b: nat | b < 256

  /** A Unicode scalar value takes one to four bytes. */
  function EncodeChar(c: char): (r: seq<Byte>)
    ensures 1 <= |r| <= 4
    ensures !IsContinuation(r[0]) && forall k :: 0 < k < |r| ==> IsContinuation(r[k])
  {
    var n := c as int;
    if n < 0x80 then [n]
    else if n < 0x800 then [0xC0 + n / 0x40, 0x80 + n % 0x40]
    else if n < 0x1_0000 then [0xE0 + n / 0x1000, 0x80 + n / 0x40 % 0x40, 0x80 + n % 0x40]
    else [0xF0 + n / 0x4_0000, 0x80 + n / 0x1000 % 0x40, 0x80 + n / 0x40 % 0x40, 0x80 + n % 0x40]
  }

  /** A byte `10xxxxxx`, which starts no character. */
  predicate IsContinuation(b: Byte) {
    0x80 <= b < 0xC0
  }

  function Encode(s: string): seq<Byte> {
    if s == [] then [] else EncodeChar(s[0]) + Encode(s[1..])
  }

  /** Rust's `is_char_boundary`. */
  predicate IsBoundary(bytes: seq<Byte>, i: nat) {
    i == |bytes| || (i < |bytes| && !IsContinuation(bytes[i]))
  }

  /** Where the first `k` characters end. */
  function OffsetOf(s: string, k: nat): nat
    requires k <= |s|
  {
    |Encode(s[..k])|
  }

  lemma {:induction false} EncodeAppend(s: string, t: string)
    ensures Encode(s + t) == Encode(s) + Encode(t)
    decreases |s|
  {
    if s == [] {
      assert s + t == t;
    } else {
      assert (s + t)[1..] == s[1..] + t;
      EncodeAppend(s[1..], t);
    }
  }

  /** The boundaries of an encoded text are the ends of its characters. */
  lemma {:induction false} BoundariesAreCharacters(s: string, i: nat)
    requires i <= |Encode(s)|
    ensures IsBoundary(Encode(s), i) <==> exists k :: 0 <= k <= |s| && OffsetOf(s, k) == i
    decreases |s|
  {
    if i == 0 {
      assert s[..0] == [] && OffsetOf(s, 0) == 0;
    } else {
      var first, rest := EncodeChar(s[0]), Encode(s[1..]);
      assert Encode(s) == first + rest;
      forall k | 0 < k <= |s| ensures OffsetOf(s, k) == |first| + OffsetOf(s[1..], k - 1) {
        assert s[..k][1..] == s[1..][..k - 1] && s[..k][0] == s[0];
      }
      assert OffsetOf(s, 0) == 0;
      if i < |first| {
        assert IsContinuation(Encode(s)[i]);
      } else {
        BoundariesAreCharacters(s[1..], i - |first|);
        assert IsBoundary(Encode(s), i) <==> IsBoundary(rest, i - |first|);
        if IsBoundary(rest, i - |first|) {
          var k :| 0 <= k <= |s[1..]| && OffsetOf(s[1..], k) == i - |first|;
          assert OffsetOf(s, k + 1) == i;
        }
        if k :| 0 <= k <= |s| && OffsetOf(s, k) == i {
          assert k > 0 && OffsetOf(s[1..], k - 1) == i - |first|;
        }
      }
    }
  }

  /** Of four neighbouring positions inside a text at least one is a boundary. */
  lemma {:induction false} BoundaryNearby(s: string, i: nat)
    requires 3 <= i <= |Encode(s)|
    ensures exists j :: i - 3 <= j <= i && IsBoundary(Encode(s), j)
    decreases |s|
  {
    var first, rest := EncodeChar(s[0]), Encode(s[1..]);
    assert Encode(s) == first + rest;
    if i < |first| {
      assert IsBoundary(Encode(s), 0);
    } else if i - |first| < 3 {
      assert |first| <= i <= |first| + 2 ;
      if rest == [] {
        assert IsBoundary(Encode(s), |first|);
      } else {
        assert Encode(s)[|first|] == rest[0] == EncodeChar(s[1])[0];
        assert IsBoundary(Encode(s), |first|);
      }
    } else {
      BoundaryNearby(s[1..], i - |first|);
      var j :| i - |first| - 3 <= j <= i - |first| && IsBoundary(rest, j);
      assert IsBoundary(Encode(s), j + |first|);
    }
  }

  const TEXT_LIMIT: nat := 1024
  const ARRAY_LIMIT: nat := 128

  /** Steps back from the limit to the nearest boundary. */
  method FindBoundary(s: string) returns (boundary: nat, kept: nat)
    requires |Encode(s)| > TEXT_LIMIT
    ensures TEXT_LIMIT - 3 <= boundary <= TEXT_LIMIT && IsBoundary(Encode(s), boundary)
    ensures forall j :: boundary < j <= TEXT_LIMIT ==> !IsBoundary(Encode(s), j)
    ensures kept <= |s| && OffsetOf(s, kept) == boundary && kept == KeptChars(s)
  {
    var bytes := Encode(s);
    boundary := TEXT_LIMIT;
    BoundaryNearby(s, TEXT_LIMIT);
    while boundary > 0 && !IsBoundary(bytes, boundary)
      invariant 0 <= boundary <= TEXT_LIMIT
      invariant forall j :: boundary < j <= TEXT_LIMIT ==> !IsBoundary(bytes, j)
      invariant exists j :: TEXT_LIMIT - 3 <= j <= boundary && IsBoundary(bytes, j)
    {
      boundary := boundary - 1;
    }
    BoundariesAreCharacters(s, boundary);
    ghost var k :| 0 <= k <= |s| && OffsetOf(s, k) == boundary;
    KeptCharsFit(s, k);
    kept := KeptChars(s);
  }

  /** The longest prefix of whole characters that fits the limit. */
  function KeptUpTo(s: string, k: nat): (r: nat)
    requires k <= |s|
    ensures r <= k
  {
    if k == 0 || OffsetOf(s, k) <= TEXT_LIMIT then k else KeptUpTo(s, k - 1)
  }

  function KeptChars(s: string): nat {
    KeptUpTo(s, |s|)
  }

  lemma OffsetsGrow(s: string, k: nat)
    requires k < |s|
    ensures OffsetOf(s, k) < OffsetOf(s, k + 1)
  {
    EncodeAppend(s[..k], [s[k]]);
    assert s[..k + 1] == s[..k] + [s[k]];
    assert [s[k]][1..] == [];
  }

  lemma {:induction false} OffsetsOrdered(s: string, a: nat, b: nat)
    requires a < b <= |s|
    ensures OffsetOf(s, a) < OffsetOf(s, b)
    decreases b
  {
    OffsetsGrow(s, b - 1);
    if a < b - 1 {
      OffsetsOrdered(s, a, b - 1);
    }
  }

  /** The nearest boundary at or below the limit ends the longest prefix that fits. */
  lemma KeptCharsFit(s: string, k: nat)
    requires |Encode(s)| > TEXT_LIMIT && k <= |s| && OffsetOf(s, k) <= TEXT_LIMIT
    requires forall j :: OffsetOf(s, k) < j <= TEXT_LIMIT ==> !IsBoundary(Encode(s), j)
    ensures KeptChars(s) == k
  {
    assert s[..|s|] == s;
    forall m | k < m <= |s| ensures OffsetOf(s, m) > TEXT_LIMIT {
      OffsetsOrdered(s, k, m);
      OffsetOrderedTotal(s, m);
      BoundariesAreCharacters(s, OffsetOf(s, m));
    }
    KeptDown(s, k, |s|);
  }

  lemma OffsetOrderedTotal(s: string, m: nat)
    requires m <= |s|
    ensures OffsetOf(s, m) <= |Encode(s)|
  {
    EncodeAppend(s[..m], s[m..]);
    assert s[..m] + s[m..] == s;
  }

  lemma {:induction false} KeptDown(s: string, k: nat, m: nat)
    requires k <= m <= |s| && (k == 0 || OffsetOf(s, k) <= TEXT_LIMIT)
    requires forall j :: k < j <= m ==> OffsetOf(s, j) > TEXT_LIMIT
    ensures KeptUpTo(s, m) == k
    decreases m
  {
    if m > k {
      KeptDown(s, k, m - 1);
    }
  }

  // ---- Truncating values ----

  /** The first characters, and how many were cut off. */
  function Digest(s: string, kept: nat): string
    requires kept <= |s|
  {
    s[..kept] + "... <truncated " + PrintNat(|s| - kept) + " chars>"
  }

  /** A value as the history shows it: long texts and long arrays are cut short. */
  function Truncate(v: Value): Value {
    match v
    case Str(s) => if |Encode(s)| > TEXT_LIMIT then Str(Digest(s, KeptChars(s))) else v
    case Arr(items) => if |items| > ARRAY_LIMIT then Str("<Large Array: " + PrintNat(|items|) + " elements>") else v
    case _ => v
  }

  /** Truncation never splits a character: what is kept is a prefix of the characters, it ends 1021 to
      1024 bytes in, no longer prefix fits, and kept and reported characters add up to all of them. */
  lemma TruncationRespectsCharacters(s: string)
    requires |Encode(s)| > 1024
    ensures var k := KeptChars(s);
      && k < |s| && 1021 <= OffsetOf(s, k) <= 1024 < OffsetOf(s, k + 1)
      && Truncate(Str(s)) == Str(s[..k] + "... <truncated " + PrintNat(|s| - k) + " chars>")
      && DigitsValue(PrintNat(|s| - k)) + k == |s| && Encode(s)[..OffsetOf(s, k)] == Encode(s[..k])
  {
    var k := KeptChars(s);
    hide KeptChars, Encode, PrintNat, DigitsValue;
    KeptIsNearLimit(s);
    EncodedPrefix(s, k);
    PrintNatValue(|s| - k);
  }

  lemma EncodedPrefix(s: string, k: nat)
    requires k <= |s|
    ensures OffsetOf(s, k) <= |Encode(s)| && Encode(s)[..OffsetOf(s, k)] == Encode(s[..k])
  {
    EncodeAppend(s[..k], s[k..]);
    assert s[..k] + s[k..] == s;
  }

  lemma KeptIsNearLimit(s: string)
    requires |Encode(s)| > TEXT_LIMIT
    ensures var k := KeptChars(s);
      k < |s| && TEXT_LIMIT - 3 <= OffsetOf(s, k) <= TEXT_LIMIT < OffsetOf(s, k + 1)
  {
    BoundaryNearby(s, TEXT_LIMIT);
    assert s[..|s|] == s && OffsetOf(s, |s|) == |Encode(s)|;
    hide IsBoundary, KeptUpTo, Encode, OffsetOf;
    var j :| TEXT_LIMIT - 3 <= j <= TEXT_LIMIT && IsBoundary(Encode(s), j);
    BoundariesAreCharacters(s, j);
    var m :| 0 <= m <= |s| && OffsetOf(s, m) == j;
    KeptMaximal(s, |s|, m);
  }

  lemma {:induction false} KeptMaximal(s: string, n: nat, m: nat)
    requires m <= n <= |s| && OffsetOf(s, m) <= TEXT_LIMIT
    ensures m <= KeptUpTo(s, n) && OffsetOf(s, m) <= OffsetOf(s, KeptUpTo(s, n)) <= TEXT_LIMIT
    ensures KeptUpTo(s, n) < n ==> OffsetOf(s, KeptUpTo(s, n) + 1) > TEXT_LIMIT
    decreases n
  {
    if n > 0 && OffsetOf(s, n) > TEXT_LIMIT {
      KeptMaximal(s, n - 1, m);
    } else if m < n {
      OffsetsOrdered(s, m, n);
    }
  }

  /** Values the history keeps as they are: all but texts of more than 1024 bytes and lists of more than
      128 elements, of which only the number of elements is left. */
  lemma ShortValuesAreKept(v: Value)
    ensures (v.Str? ==> |Encode(v.s)| <= 1024) && (v.Arr? ==> |v.items| <= 128) ==> Truncate(v) == v
    ensures v.Arr? && |v.items| > 128 ==> Truncate(v) == Str("<Large Array: " + PrintNat(|v.items|) + " elements>")
  {
    hide Encode, PrintNat, KeptChars;
  }

  method TruncateValue(v: Value) returns (r: Value)
    ensures r == Truncate(v)
  {
    match v {
      case Str(s) =>
        if |Encode(s)| > TEXT_LIMIT {
          var boundary, kept := FindBoundary(s);
          return Str(Digest(s, kept));
        }
      case Arr(items) =>
        if |items| > ARRAY_LIMIT {
          return Str("<Large Array: " + PrintNat(|items|) + " elements>");
        }
      case _ =>
    }
    r := v;
  }
}
