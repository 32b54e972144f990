/** ISO 8601 durations and repeating intervals as the BPMN parser reads them
    (bpmn-parser/src/parser.rs). */
module Iso8601 {
  import opened Values
  import opened Text
  import opened Definition

  const U64_MAX: nat := 0xffff_ffff_ffff_ffff
  const U32_MAX: nat := 0xffff_ffff

  // ---- The accepted grammar, and what a duration means ----

  /** A piece of a duration after the `P`: the mark that begins the time part, or digits and a unit.
      The parser accepts the mark anywhere between components, and more than once. */
  datatype Item = TimeMark | Component(digits: string, unit: char)

  /** Seconds in a unit, before and after the time mark. */
  function Multiplier(inTime: bool, unit: char): Option<nat> {
    if !inTime then
      if unit == 'Y' then Some(365 * 86400)
      else if unit == 'M' then Some(30 * 86400)
      else if unit == 'W' then Some(7 * 86400)
      else if unit == 'D' then Some(86400)
      else None
    else
      if unit == 'H' then Some(3600)
      else if unit == 'M' then Some(60)
      else if unit == 'S' then Some(1)
      else None
  }

  predicate WellFormed(items: seq<Item>, inTime: bool)
    decreases |items|
  {
    items == [] ||
    match items[0]
    case TimeMark => WellFormed(items[1..], true)
    case Component(digits, unit) =>
      digits != [] && AllDigits(digits) && Multiplier(inTime, unit).Some? && WellFormed(items[1..], inTime)
  }

  function TextOf(items: seq<Item>): string
    decreases |items|
  {
    if items == [] then []
    else (match items[0] case TimeMark => "T" case Component(digits, unit) => digits + [unit]) + TextOf(items[1..])
  }

  /** The sum of all components in seconds, with no bound. */
  function TotalSeconds(items: seq<Item>, inTime: bool): nat
    requires WellFormed(items, inTime)
    decreases |items|
  {
    if items == [] then 0
    else match items[0]
      case TimeMark => TotalSeconds(items[1..], true)
      case Component(digits, unit) =>
        DigitsValue(digits) * Multiplier(inTime, unit).value + TotalSeconds(items[1..], inTime)
  }

  predicate HasComponent(items: seq<Item>) {
    exists k :: 0 <= k < |items| && items[k].Component?
  }

  /** `s` is the text of `items`, which are a duration. */
  ghost predicate Denotes(s: string, items: seq<Item>) {
    Trim(s) == "P" + TextOf(items) && WellFormed(items, false) && HasComponent(items)
  }

  // ---- The parser ----

  /** The loop over the characters: whether the time part was reached, the digits read so far, the sum,
      and whether there was a component. Products and sums are checked against 64 bits. */
  function Scan(body: string, inTime: bool, num: string, total: nat, has: bool): Option<nat>
    requires AllDigits(num)
    decreases |body|
  {
    if body == [] then
      if num != [] || !has then None else Some(total)
    else if body[0] == 'T' then
      if num != [] then None else Scan(body[1..], true, [], total, has)
    else if IsDigit(body[0]) then Scan(body[1..], inTime, num + [body[0]], total, has)
    else if num == [] || DigitsValue(num) > U64_MAX then None
    else match Multiplier(inTime, body[0])
      case None => None
      case Some(m) =>
        if DigitsValue(num) * m > U64_MAX || total + DigitsValue(num) * m > U64_MAX then None
        else Scan(body[1..], inTime, [], total + DigitsValue(num) * m, true)
  }

  function ParseDuration(text: string): Option<nat> {
    var s := Trim(text);
    if s == [] || s[0] != 'P' || s[1..] == [] then None else Scan(s[1..], false, [], 0, false)
  }

  // ---- Parsing is exact ----

  lemma {:induction false} ScanDigits(digits: string, tail: string, inTime: bool, num: string, total: nat, has: bool)
    requires AllDigits(digits) && AllDigits(num)
    ensures Scan(digits + tail, inTime, num, total, has) == Scan(tail, inTime, num + digits, total, has)
    decreases |digits|
  {
    if digits == [] {
      assert digits + tail == tail && num + digits == num;
    } else {
      assert (digits + tail)[1..] == digits[1..] + tail;
      assert num + [digits[0]] + digits[1..] == num + digits;
      ScanDigits(digits[1..], tail, inTime, num + [digits[0]], total, has);
    }
  }

  lemma HasComponentLater(items: seq<Item>)
    requires items != []
    ensures HasComponent(items) <==> items[0].Component? || HasComponent(items[1..])
  {
    if HasComponent(items[1..]) {
      var k :| 0 <= k < |items[1..]| && items[1..][k].Component?;
      assert items[k + 1].Component?;
    }
    assert forall k :: 0 < k < |items| ==> items[k] == items[1..][k - 1];
  }

  lemma ProductFits(value: nat, m: nat)
    requires m > 0
    ensures value <= value * m
  {}

  lemma ScanComponent(digits: string, unit: char, rest: string, inTime: bool, total: nat, has: bool)
    requires digits != [] && AllDigits(digits) && Multiplier(inTime, unit).Some? && total <= U64_MAX
    ensures var sum := total + DigitsValue(digits) * Multiplier(inTime, unit).value;
      Scan(digits + ([unit] + rest), inTime, [], total, has) == if sum <= U64_MAX then Scan(rest, inTime, [], sum, true)
        else None
  {
    ScanDigits(digits, [unit] + rest, inTime, [], total, has);
    assert ([unit] + rest)[1..] == rest && [] + digits == digits;
    ProductFits(DigitsValue(digits), Multiplier(inTime, unit).value);
  }

  ghost predicate SumScanned(items: seq<Item>, inTime: bool, total: nat, has: bool)
    requires WellFormed(items, inTime)
  {
    Scan(TextOf(items), inTime, [], total, has)
      == if total + TotalSeconds(items, inTime) <= U64_MAX && (has || HasComponent(items))
         then Some(total + TotalSeconds(items, inTime)) else None
  }

  lemma MarkScanned(items: seq<Item>, inTime: bool, total: nat, has: bool)
    requires items != [] && items[0].TimeMark? && WellFormed(items, inTime) && SumScanned(items[1..], true, total, has)
    ensures SumScanned(items, inTime, total, has)
  {
    var body := TextOf(items);
    assert body[0] == 'T' && body[1..] == TextOf(items[1..]);
    hide HasComponent, TextOf;
    HasComponentLater(items);
  }

  lemma ComponentScanned(items: seq<Item>, inTime: bool, total: nat, has: bool)
    requires items != [] && items[0].Component? && WellFormed(items, inTime) && total <= U64_MAX
    requires var sum := total + DigitsValue(items[0].digits) * Multiplier(inTime, items[0].unit).value;
      sum <= U64_MAX ==> SumScanned(items[1..], inTime, sum, true)
    ensures SumScanned(items, inTime, total, has)
  {
    var rest, e := TextOf(items[1..]), items[0];
    Associative(e.digits, [e.unit], rest);
    assert TextOf(items) == e.digits + ([e.unit] + rest);
    hide HasComponent, Scan, Multiplier, TextOf;
    HasComponentLater(items);
    ScanComponent(e.digits, e.unit, rest, inTime, total, has);
  }

  /** Scanning the text of well-formed items gives their sum, when it fits 64 bits. */
  lemma {:induction false} ScanSums(items: seq<Item>, inTime: bool, total: nat, has: bool)
    requires WellFormed(items, inTime) && total <= U64_MAX
    ensures SumScanned(items, inTime, total, has)
    decreases |items|
  {
    if items != [] {
      hide SumScanned, Multiplier;
      match items[0] {
        case TimeMark =>
          ScanSums(items[1..], true, total, has);
          MarkScanned(items, inTime, total, has);
        case Component(digits, unit) =>
          var sum := total + DigitsValue(digits) * Multiplier(inTime, unit).value;
          if sum <= U64_MAX {
            ScanSums(items[1..], inTime, sum, true);
          }
          ComponentScanned(items, inTime, total, has);
      }
    }
  }

  /** The items a text that was scanned with success consists of. */
  function ItemsIn(body: string, num: string): seq<Item>
    decreases |body|
  {
    if body == [] then []
    else if body[0] == 'T' then [TimeMark] + ItemsIn(body[1..], [])
    else if IsDigit(body[0]) then ItemsIn(body[1..], num + [body[0]])
    else [Component(num, body[0])] + ItemsIn(body[1..], [])
  }

  ghost predicate ReadBack(body: string, inTime: bool, num: string, has: bool) {
    var items := ItemsIn(body, num);
    WellFormed(items, inTime) && TextOf(items) == num + body && (has || HasComponent(items))
  }

  lemma MarkReadBack(body: string, inTime: bool, has: bool)
    requires body != [] && body[0] == 'T' && ReadBack(body[1..], true, [], has)
    ensures ReadBack(body, inTime, [], has)
  {
    var items := ItemsIn(body, []);
    HasComponentLater(items);
    assert items[1..] == ItemsIn(body[1..], []);
    assert [] + body == "T" + ([] + body[1..]);
  }

  lemma ComponentReadBack(body: string, inTime: bool, num: string, has: bool)
    requires body != [] && body[0] != 'T' && !IsDigit(body[0]) && num != [] && AllDigits(num)
    requires Multiplier(inTime, body[0]).Some? && ReadBack(body[1..], inTime, [], true)
    ensures ReadBack(body, inTime, num, has)
  {
    var items := ItemsIn(body, num);
    HasComponentLater(items);
    assert items[1..] == ItemsIn(body[1..], []);
    assert num + body == num + [body[0]] + ([] + body[1..]);
    hide HasComponent, Multiplier;
  }

  lemma {:induction false} ScannedIsWellFormed(body: string, inTime: bool, num: string, total: nat, has: bool)
    requires AllDigits(num) && Scan(body, inTime, num, total, has).Some?
    ensures ReadBack(body, inTime, num, has)
    decreases |body|
  {
    if body == [] {
      assert TextOf([]) == num + body;
    } else {
      hide ReadBack;
      if body[0] == 'T' {
        ScannedIsWellFormed(body[1..], true, [], total, has);
        MarkReadBack(body, inTime, has);
      } else if IsDigit(body[0]) {
        ScannedIsWellFormed(body[1..], inTime, num + [body[0]], total, has);
        DigitReadBack(body, inTime, num, has);
      } else {
        var m := Multiplier(inTime, body[0]).value;
        ScannedIsWellFormed(body[1..], inTime, [], total + DigitsValue(num) * m, true);
        ComponentReadBack(body, inTime, num, has);
      }
    }
  }

  lemma DigitReadBack(body: string, inTime: bool, num: string, has: bool)
    requires body != [] && body[0] != 'T' && IsDigit(body[0]) && ReadBack(body[1..], inTime, num + [body[0]], has)
    ensures ReadBack(body, inTime, num, has)
  {
    assert num + [body[0]] + body[1..] == num + body;
  }

  /** Parsing succeeds exactly on texts of the grammar whose unbounded sum fits 64 bits, and answers that
      sum. */
  lemma ParsingIsExact(s: string)
    ensures ParseDuration(s).Some? <==>
      exists items :: Denotes(s, items) && TotalSeconds(items, false) <= 18_446_744_073_709_551_615
    ensures forall items :: Denotes(s, items) && TotalSeconds(items, false) <= 18_446_744_073_709_551_615 ==>
      ParseDuration(s) == Some(TotalSeconds(items, false))
  {
    forall items | Denotes(s, items) && TotalSeconds(items, false) <= U64_MAX
      ensures ParseDuration(s) == Some(TotalSeconds(items, false))
    {
      ScanSums(items, false, 0, false);
      assert Trim(s)[1..] == TextOf(items);
      assert TextOf(items) != [] by { TextNotEmpty(items); }
    }
    if ParseDuration(s).Some? {
      var body := Trim(s)[1..];
      ScannedIsWellFormed(body, false, [], 0, false);
      var items := ItemsIn(body, []);
      assert [] + body == body && "P" + body == Trim(s);
      ScanSums(items, false, 0, false);
      assert Denotes(s, items) && TotalSeconds(items, false) <= U64_MAX;
    }
  }

  lemma TextNotEmpty(items: seq<Item>)
    requires HasComponent(items)
    ensures TextOf(items) != []
  {}

  // ---- Printing ----

  function PrintSeconds(n: nat): string {
    "PT" + PrintNat(n) + "S"
  }

  lemma PrintedIsTight(n: nat)
    ensures Trim(PrintSeconds(n)) == PrintSeconds(n)
  {
    TrimTight(PrintSeconds(n));
  }

  /** Printing any number of seconds of 64 bits and parsing gives it back. */
  lemma PrintParse(n: nat)
    requires n <= U64_MAX
    ensures ParseDuration(PrintSeconds(n)) == Some(n)
  {
    var items := [TimeMark, Component(PrintNat(n), 'S')];
    PrintedIsTight(n);
    PrintNatValue(n);
    assert items[1..][1..] == [] && items[1..][0] == Component(PrintNat(n), 'S');
    assert TextOf(items[1..]) == PrintNat(n) + "S" + TextOf([]);
    assert TextOf(items) == "T" + (PrintNat(n) + "S");
    assert PrintSeconds(n) == "P" + TextOf(items);
    assert WellFormed(items[1..], true) && items[1].Component?;
    assert TotalSeconds(items[1..], true) == DigitsValue(PrintNat(n)) * 1 + TotalSeconds([], true);
    ParsingIsExact(PrintSeconds(n));
    assert Denotes(PrintSeconds(n), items);
  }

  // ---- Repeating intervals ----

  /** Rust's `str::parse::<u32>`: digits, perhaps after a plus sign. */
  function ParseU32(s: string): Option<nat> {
    var digits := if s != [] && s[0] == '+' then s[1..] else s;
    if digits == [] || !AllDigits(digits) || DigitsValue(digits) > U32_MAX then None else Some(DigitsValue(digits))
  }

  /** The count and the duration: split at the first slash, or else before the first `PT`. */
  function SplitInterval(s: string): Option<(string, string)>
    requires s != []
  {
    match FindFrom(s, "/", 0)
    case Some(i) => Some((s[..i], s[i + 1..]))
    case None =>
      match FindFrom(s, "PT", 1)
      case Some(i) => Some((s[..i], s[i..]))
      case None => None
  }

  function ParseInterval(count: string, duration: string): Option<TimerDefinition>
    requires count != []
  {
    var repetitions := if count == "R" then Some(None)
      else match ParseU32(count[1..]) case Some(n) => Some(Some(n)) case None => None;
    if repetitions.None? then None
    else match ParseDuration(duration)
      case Some(secs) => Some(RepeatingInterval(repetitions.value, secs))
      case None => None
  }

  /** `s` starts with an `R`. */
  function ParseRepeating(s: string): Option<TimerDefinition>
    requires s != [] && s[0] == 'R'
  {
    match SplitInterval(s)
    case Some((count, duration)) => if count == [] then None else ParseInterval(count, duration)
    case None => None
  }

  lemma OneAt(s: string, c: char, i: nat)
    requires i < |s| && s[i] == c && forall k :: 0 <= k < i ==> s[k] != c
    ensures FindFrom(s, [c], 0) == Some(i)
  {
    assert OccursAt(s, i, [c]);
    var found := FindFrom(s, [c], 0);
    if found.Some? {
      assert s[found.value + 0] == [c][0];
    }
  }

  lemma NoneOf(s: string, c: char)
    requires forall k :: 0 <= k < |s| ==> s[k] != c
    ensures FindFrom(s, [c], 0) == None
  {
    forall i | 0 <= i < |s| ensures !OccursAt(s, i, [c]) {
      assert s[i + 0] != [c][0];
    }
  }

  /** For a duration that starts with `PT` and holds no slash, the form with a slash and the compact form
      mean the same, whatever digits stand for the count. */
  lemma SlashAndCompactAgree(count: string, duration: string)
    requires AllDigits(count) && |duration| >= 2 && duration[..2] == "PT" && '/' !in duration
    ensures ParseRepeating("R" + count + "/" + duration) == ParseRepeating("R" + count + duration)
         == ParseInterval("R" + count, duration)
  {
    var head := "R" + count;
    var slashed, compact := head + "/" + duration, head + duration;
    OneAt(slashed, '/', |head|);
    assert slashed[..|head|] == head && slashed[|head| + 1..] == duration;
    assert forall k :: 0 <= k < |compact| ==> compact[k] != '/' by {
      forall k | 0 <= k < |compact| ensures compact[k] != '/' {
        if k >= |head| { assert compact[k] in duration; }
      }
    }
    NoneOf(compact, '/');
    assert duration[0] == "PT"[0] == 'P' && duration[1] == "PT"[1] == 'T';
    assert OccursAt(compact, |head|, "PT");
    forall i | 1 <= i < |head| ensures !OccursAt(compact, i, "PT") {
      assert IsDigit(compact[i]) && compact[i + 0] != "PT"[0];
    }
    assert FindFrom(compact, "PT", 1) == Some(|head|);
    assert compact[..|head|] == head && compact[|head|..] == duration;
  }

  /** A count of repetitions is a number of 32 bits, perhaps with a plus sign; anything else fails. */
  lemma CountsFit(digits: string, secs: nat)
    requires digits != [] && AllDigits(digits) && secs <= U64_MAX
    ensures var tail := "/" + PrintSeconds(secs);
      && ParseRepeating("R" + digits + tail) == ParseRepeating("R+" + digits + tail)
         == (if DigitsValue(digits) <= 4_294_967_295 then Some(RepeatingInterval(Some(DigitsValue(digits)), secs))
             else None)
      && ParseRepeating("R-" + digits + tail) == None
  {
    hide ParseRepeating, ParseInterval, ParseU32, DigitsValue, PrintSeconds;
    CountRead("", digits, secs);
    CountRead("+", digits, secs);
    CountRead("-", digits, secs);
    assert "R" + "" + digits == "R" + digits && "R" + "+" + digits == "R+" + digits
      && "R" + "-" + digits == "R-" + digits;
  }

  lemma CountRead(sign: string, digits: string, secs: nat)
    requires digits != [] && AllDigits(digits) && secs <= U64_MAX && sign in {"", "+", "-"}
    ensures "R" + sign + digits + ("/" + PrintSeconds(secs)) == "R" + sign + digits + "/" + PrintSeconds(secs)
    ensures ParseRepeating("R" + sign + digits + "/" + PrintSeconds(secs)) ==
      if sign == "-" || DigitsValue(digits) > 4_294_967_295 then None
      else Some(RepeatingInterval(Some(DigitsValue(digits)), secs))
  {
    var count := "R" + sign + digits;
    PrintParse(secs);
    CountAndDuration(count, PrintSeconds(secs));
    SignedCount(sign, digits);
    assert count[1..] == sign + digits && |count| > 1;
    hide ParseRepeating, ParseDuration, PrintSeconds, ParseU32, DigitsValue;
  }

  lemma SignedCount(sign: string, digits: string)
    requires digits != [] && AllDigits(digits) && sign in {"", "+", "-"}
    ensures '/' !in "R" + sign + digits
    ensures ParseU32(sign + digits)
      == if sign == "-" || DigitsValue(digits) > 4_294_967_295 then None else Some(DigitsValue(digits))
  {
    assert IsDigit(digits[0]) && forall c <- digits :: IsDigit(c);
    if sign == "" {
      assert sign + digits == digits;
    } else {
      assert (sign + digits)[1..] == digits && (sign + digits)[0] == sign[0];
    }
    hide DigitsValue;
  }

  lemma CountAndDuration(count: string, duration: string)
    requires count != [] && count[0] == 'R' && '/' !in count
    ensures ParseRepeating(count + "/" + duration) == ParseInterval(count, duration)
  {
    var s := count + "/" + duration;
    assert s[|count|] == '/' && forall k :: 0 <= k < |count| ==> s[k] == count[k] && count[k] in count;
    OneAt(s, '/', |count|);
    assert s[..|count|] == count && s[|count| + 1..] == duration;
    hide ParseInterval, FindFrom;
  }

  function PrintCount(repetitions: Option<nat>): string {
    match repetitions
    case Some(n) => "R" + PrintNat(n)
    case None => "R"
  }

  /** Printing a repeating interval, with a slash or compactly, and parsing it gives it back. */
  lemma IntervalRoundTrip(repetitions: Option<nat>, secs: nat)
    requires secs <= U64_MAX && (repetitions.Some? ==> repetitions.value <= U32_MAX)
    ensures ParseRepeating(PrintCount(repetitions) + "/" + PrintSeconds(secs))
      == Some(RepeatingInterval(repetitions, secs))
    ensures ParseRepeating(PrintCount(repetitions) + PrintSeconds(secs)) == Some(RepeatingInterval(repetitions, secs))
  {
    var count := match repetitions case Some(n) => PrintNat(n) case None => [];
    var duration := PrintSeconds(secs);
    assert PrintCount(repetitions) == "R" + count;
    PrintedHasNoSlash(secs);
    SlashAndCompactAgree(count, duration);
    PrintParse(secs);
    PrintedCount(repetitions, count);
    hide ParseRepeating, ParseDuration, PrintSeconds, PrintNat, ParseU32, PrintCount;
  }

  lemma PrintedHasNoSlash(secs: nat)
    ensures var duration := PrintSeconds(secs); |duration| >= 2 && duration[..2] == "PT" && '/' !in duration
  {
    assert forall c <- PrintNat(secs) :: IsDigit(c);
  }

  lemma PrintedCount(repetitions: Option<nat>, count: string)
    requires repetitions.Some? ==> repetitions.value <= U32_MAX && count == PrintNat(repetitions.value)
    requires repetitions.None? ==> count == []
    ensures AllDigits(count)
    ensures repetitions.None? ==> "R" + count == "R"
    ensures repetitions.Some? ==> "R" + count != "R" && ParseU32(("R" + count)[1..]) == repetitions
  {
    if repetitions.Some? {
      PrintNatValue(repetitions.value);
      assert ("R" + count)[1..] == count && IsDigit(count[0]) && |"R" + count| > 1;
    }
  }

  // ---- The loop ----

  /** Parses a duration character by character. */
  method Parse(text: string) returns (r: Option<nat>)
    ensures r == ParseDuration(text)
  {
    var s := Trim(text);
    if s == [] || s[0] != 'P' {
      return None;
    }
    var body := s[1..];
    if body == [] {
      return None;
    }
    var total: nat, num: string, inTime, has, k := 0, [], false, false, 0;
    assert body[0..] == body;
    while k < |body|
      invariant 0 <= k <= |body| && AllDigits(num) && total <= U64_MAX
      invariant Scan(body[k..], inTime, num, total, has) == Scan(body, false, [], 0, false)
    {
      var c := body[k];
      assert body[k..][0] == c && body[k..][1..] == body[k + 1..];
      if c == 'T' {
        if num != [] {
          return None;
        }
        inTime := true;
      } else if IsDigit(c) {
        num := num + [c];
      } else {
        if num == [] || DigitsValue(num) > U64_MAX {
          return None;
        }
        var m := Multiplier(inTime, c);
        if m.None? {
          return None;
        }
        var added := DigitsValue(num) * m.value;
        if added > U64_MAX || total + added > U64_MAX {
          return None;
        }
        total, num, has := total + added, [], true;
      }
      k := k + 1;
    }
    r := if num != [] || !has then None else Some(total);
  }

  lemma MarkFirst(items: seq<Item>)
    requires WellFormed(items, true) && HasComponent(items)
    ensures var marked := [TimeMark] + items;
      && WellFormed(marked, false) && WellFormed(marked, true) && HasComponent(marked)
         && TextOf(marked) == "T" + TextOf(items)
      && TotalSeconds(marked, false) == TotalSeconds(marked, true) == TotalSeconds(items, true)
  {
    var marked := [TimeMark] + items;
    assert marked[1..] == items;
    HasComponentLater(marked);
  }

  /** The text of well-formed items ends in a mark or a unit. */
  lemma {:induction false} TextEnds(items: seq<Item>, inTime: bool)
    requires WellFormed(items, inTime) && items != []
    ensures var text := TextOf(items); text != [] && text[|text| - 1] in "TYMWDHS"
    decreases |items|
  {
    var text, rest := TextOf(items), TextOf(items[1..]);
    if items[1..] == [] {
      assert text == text[..|text| - |rest|];
    } else {
      TextEnds(items[1..], if items[0].TimeMark? then true else inTime);
    }
  }

  lemma PrefixedIsTight(prefix: string, items: seq<Item>)
    requires WellFormed(items, true) && items != [] && prefix != [] && prefix[0] == 'P'
    ensures Tight(prefix + TextOf(items))
  {
    TextEnds(items, true);
  }

  /** The mark is accepted anywhere between components, and more than once. */
  lemma MarksMayRepeat(items: seq<Item>)
    requires WellFormed(items, true) && HasComponent(items) && TotalSeconds(items, true) <= U64_MAX
    ensures ParseDuration("PTT" + TextOf(items)) == ParseDuration("PT" + TextOf(items))
      == Some(TotalSeconds(items, true))
  {
    hide WellFormed, TextOf, TotalSeconds, ParseDuration, Trim, Tight;
    var one := [TimeMark] + items;
    var two := [TimeMark] + one;
    assert items != [];
    PrefixedIsTight("PT", items);
    PrefixedIsTight("PTT", items);
    TrimTight("PT" + TextOf(items));
    TrimTight("PTT" + TextOf(items));
    MarkFirst(items);
    MarkFirst(one);
    assert "PT" + TextOf(items) == "P" + TextOf(one) && "PTT" + TextOf(items) == "P" + TextOf(two);
    ParsingIsExact("PT" + TextOf(items));
    ParsingIsExact("PTT" + TextOf(items));
    assert Denotes("PT" + TextOf(items), one) && Denotes("PTT" + TextOf(items), two);
  }

  /** How many seconds one of each unit is: years of 365 and months of 30 days before the time mark; hours,
      minutes and seconds after it. */
  lemma UnitsInSeconds(n: nat)
    requires 31536000 * n <= U64_MAX
    ensures ParseDuration("P" + PrintNat(n) + "Y") == Some(31536000 * n)
    ensures ParseDuration("P" + PrintNat(n) + "M") == Some(2592000 * n)
    ensures ParseDuration("P" + PrintNat(n) + "W") == Some(604800 * n)
    ensures ParseDuration("P" + PrintNat(n) + "D") == Some(86400 * n)
    ensures ParseDuration("PT" + PrintNat(n) + "H") == Some(3600 * n)
    ensures ParseDuration("PT" + PrintNat(n) + "M") == Some(60 * n)
    ensures ParseDuration("PT" + PrintNat(n) + "S") == Some(n)
  {
    hide ParseDuration, PrintNat;
    UnitParses(n, 'Y', false, 31536000);
    UnitParses(n, 'M', false, 2592000);
    UnitParses(n, 'W', false, 604800);
    UnitParses(n, 'D', false, 86400);
    UnitParses(n, 'H', true, 3600);
    UnitParses(n, 'M', true, 60);
    UnitParses(n, 'S', true, 1);
  }

  lemma OneComponent(digits: string, unit: char, inTime: bool)
    requires digits != [] && AllDigits(digits) && Multiplier(inTime, unit).Some?
    ensures var one := [Component(digits, unit)];
      && WellFormed(one, inTime) && HasComponent(one) && TextOf(one) == digits + [unit]
      && TotalSeconds(one, inTime) == DigitsValue(digits) * Multiplier(inTime, unit).value
  {
    var one := [Component(digits, unit)];
    var rest := one[1..];
    assert rest == [] && one[0].Component? && WellFormed(rest, inTime);
    assert TotalSeconds(rest, inTime) == 0;
  }

  lemma ItemsParse(text: string, items: seq<Item>)
    requires Trim(text) == "P" + TextOf(items) && WellFormed(items, false) && HasComponent(items)
    requires TotalSeconds(items, false) <= U64_MAX
    ensures ParseDuration(text) == Some(TotalSeconds(items, false))
  {
    hide WellFormed, TextOf, TotalSeconds, Trim, ParseDuration, HasComponent;
    ParsingIsExact(text);
    assert Denotes(text, items);
  }

  lemma UnitParses(n: nat, unit: char, inTime: bool, seconds: nat)
    requires Multiplier(inTime, unit) == Some(seconds) && seconds * n <= U64_MAX
    ensures ParseDuration((if inTime then "PT" else "P") + PrintNat(n) + [unit]) == Some(seconds * n)
  {
    var one := [Component(PrintNat(n), unit)];
    PrintNatValue(n);
    OneComponent(PrintNat(n), unit, inTime);
    var items := if inTime then [TimeMark] + one else one;
    if inTime {
      MarkFirst(one);
    }
    var text := (if inTime then "PT" else "P") + PrintNat(n) + [unit];
    assert text == "P" + TextOf(items);
    assert unit in "YMWDHS";
    TrimTight(text);
    hide WellFormed, TextOf, TotalSeconds, Trim, ParseDuration, Multiplier, HasComponent, PrintNat;
    hide DigitsValue, AllDigits;
    ItemsParse(text, items);
  }

  /** No other character is a unit: only these seven, each on its side of the time mark. */
  lemma OtherUnitsFail(n: nat, c: char)
    requires !IsSpace(c)
    ensures c !in "YMWD" ==> ParseDuration("P" + PrintNat(n) + [c]) == None
    ensures c !in "HMS" ==> ParseDuration("PT" + PrintNat(n) + [c]) == None
  {
    var date, time := "P" + PrintNat(n) + [c], "PT" + PrintNat(n) + [c];
    PrintNatValue(n);
    TrimTight(date);
    TrimTight(time);
    assert date[1..] == PrintNat(n) + [c] && time[1..] == "T" + (PrintNat(n) + [c]);
    hide Trim, Scan, PrintNat, AllDigits, DigitsValue;
    if c !in "YMWD" {
      NumberThen(PrintNat(n), c, false);
    }
    if c !in "HMS" {
      NumberThen(PrintNat(n), c, true);
      MarkThen(PrintNat(n) + [c]);
    }
  }

  lemma MarkThen(rest: string)
    ensures Scan("T" + rest, false, [], 0, false) == Scan(rest, true, [], 0, false)
  {
    assert ("T" + rest)[1..] == rest;
  }

  lemma NumberThen(digits: string, c: char, inTime: bool)
    requires AllDigits(digits) && digits != [] && c !in (if inTime then "HMS" else "YMWD")
    ensures Scan(digits + [c], inTime, [], 0, false) == None
  {
    ScanDigits(digits, [c], inTime, [], 0, false);
    assert [] + digits == digits;
    hide Scan;
    NoUnit(c, inTime, digits);
  }

  lemma NoUnit(c: char, inTime: bool, num: string)
    requires AllDigits(num) && num != [] && c !in (if inTime then "HMS" else "YMWD")
    ensures Scan([c], inTime, num, 0, false) == None
  {
    assert [c][1..] == [];
    assert IsDigit(c) ==> Scan([], inTime, num + [c], 0, false) == None;
  }
}
