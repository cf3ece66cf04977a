/** Helpers around the protocol: hex rendering and parsing of byte
    strings, the relay-list syntax of the command line, the range
    validators and the expected reply length per function code. */
module Utils {
  import opened Base
  import opened Crc
  import opened Frame
  import opened Codec

  // ---------------------------------------------------------------------
  // Hex rendering and parsing

  predicate IsHexChar(c: char) {
    ('0' <= c <= '9') || ('a' <= c <= 'f') || ('A' <= c <= 'F')
  }

  /** An upper-case hex digit, as format spec 'X' writes it. */
  function HexDigit(n: int): (c: char)
    requires 0 <= n < 16
    ensures IsHexChar(c) && !('a' <= c <= 'f')
  {
    if n < 10 then ('0' as int + n) as char else ('A' as int + n - 10) as char
  }

  /** The value of a hex digit of either case. */
  function HexValue(c: char): (n: int)
    requires IsHexChar(c)
    ensures 0 <= n < 16
  {
    if '0' <= c <= '9' then c as int - '0' as int
    else if 'a' <= c <= 'f' then c as int - 'a' as int + 10
    else c as int - 'A' as int + 10
  }

  lemma HexValueOfDigit(n: int)
    requires 0 <= n < 16
    ensures HexValue(HexDigit(n)) == n
  {
  }

  /** f"{byte:02X}". */
  function HexPair(b: byte): string {
    [HexDigit(b as int / 16), HexDigit(b as int % 16)]
  }

  /** separator.join(f"{byte:02X}" for byte in data). */
  function BytesToHexString(data: seq<byte>, separator: string): (s: string)
    ensures |data| > 0 ==> |s| == 2 * |data| + (|data| - 1) * |separator|
    ensures |data| == 0 ==> s == ""
  {
    if |data| == 0 then ""
    else if |data| == 1 then HexPair(data[0])
    else HexPair(data[0]) + separator + BytesToHexString(data[1..], separator)
  }

  /** re.sub(r'[^0-9A-Fa-f]', '', s): the hex digits of s, in order. */
  function Clean(s: string): (t: string)
    ensures |t| <= |s|
    ensures forall i :: 0 <= i < |t| ==> IsHexChar(t[i])
  {
    if |s| == 0 then ""
    else if IsHexChar(s[0]) then [s[0]] + Clean(s[1..])
    else Clean(s[1..])
  }

  /** The byte two hex digits stand for, high digit first. */
  function PairByte(hi: char, lo: char): byte
    requires IsHexChar(hi) && IsHexChar(lo)
  {
    (HexValue(hi) * 16 + HexValue(lo)) as byte
  }

  /** bytes.fromhex on a string of hex digits of even length. */
  function DecodePairs(digits: string): (bs: seq<byte>)
    requires |digits| % 2 == 0
    requires forall i :: 0 <= i < |digits| ==> IsHexChar(digits[i])
    ensures |bs| == |digits| / 2
  {
    if |digits| == 0 then []
    else [PairByte(digits[0], digits[1])] + DecodePairs(digits[2..])
  }

  /** hex_string_to_bytes: keep the hex digits, put a '0' in front of an
      odd number of them, decode pairs. Nothing in the input can make it
      fail. */
  function HexStringToBytes(hexStr: string): (bs: seq<byte>)
    ensures |bs| == (|Clean(hexStr)| + 1) / 2
  {
    var cleaned := Clean(hexStr);
    var even := if |cleaned| % 2 != 0 then "0" + cleaned else cleaned;
    DecodePairs(even)
  }

  /** The digits of every byte, back to back. */
  function AllPairs(data: seq<byte>): string {
    if |data| == 0 then "" else HexPair(data[0]) + AllPairs(data[1..])
  }

  lemma {:induction false} CleanAppend(a: string, b: string)
    ensures Clean(a + b) == Clean(a) + Clean(b)
    decreases |a|
  {
    if |a| == 0 {
      assert a + b == b;
    } else {
      assert (a + b)[1..] == a[1..] + b;
      CleanAppend(a[1..], b);
    }
  }

  lemma {:induction false} CleanRendered(data: seq<byte>, separator: string)
    requires forall i :: 0 <= i < |separator| ==> !IsHexChar(separator[i])
    ensures Clean(BytesToHexString(data, separator)) == AllPairs(data)
    decreases |data|
  {
    if |data| == 0 {
    } else {
      var pair := HexPair(data[0]);
      assert Clean(pair) == pair by {
        assert pair[1..][1..] == "";
      }
      if |data| == 1 {
        assert AllPairs(data) == pair + AllPairs(data[1..]);
      } else {
        CleanNone(separator);
        CleanAppend(pair, separator);
        CleanAppend(pair + separator, BytesToHexString(data[1..], separator));
        CleanRendered(data[1..], separator);
      }
    }
  }

  lemma {:induction false} CleanNone(s: string)
    requires forall i :: 0 <= i < |s| ==> !IsHexChar(s[i])
    ensures Clean(s) == ""
    decreases |s|
  {
    if |s| > 0 {
      CleanNone(s[1..]);
    }
  }

  /** Cleaning one character keeps it exactly when it is a hex digit;
      with CleanAppend this fixes Clean on every string. */
  lemma CleanOne(c: char)
    ensures Clean([c]) == if IsHexChar(c) then [c] else ""
  {
  }

  /** A string of hex digits is already clean. */
  lemma {:induction false} CleanDigits(s: string)
    requires forall i :: 0 <= i < |s| ==> IsHexChar(s[i])
    ensures Clean(s) == s
    decreases |s|
  {
    if |s| > 0 {
      CleanDigits(s[1..]);
      assert s == [s[0]] + s[1..];
    }
  }

  /** A byte survives the trip through its integer value. */
  lemma IntOfByte(b: byte)
    ensures (b as int) as byte == b
  {
    ByteOfInt(b as int);
    assert ((b as int) as byte) as int == b as int;
  }

  lemma DigitsRecombine(n: int)
    requires 0 <= n < 256
    ensures HexValue(HexDigit(n / 16)) * 16 + HexValue(HexDigit(n % 16)) == n
  {
    HexValueOfDigit(n / 16);
    HexValueOfDigit(n % 16);
  }

  lemma PairOfInt(n: int)
    requires 0 <= n < 256
    ensures PairByte(HexDigit(n / 16), HexDigit(n % 16)) == n as byte
  {
    DigitsRecombine(n);
  }

  /** The two digits of a byte decode to that byte. */
  lemma PairDecodes(b: byte)
    ensures PairByte(HexPair(b)[0], HexPair(b)[1]) == b
  {
    var n := b as int;
    PairOfInt(n);
    IntOfByte(b);
  }

  lemma {:induction false} DecodeAllPairs(data: seq<byte>)
    ensures |AllPairs(data)| == 2 * |data|
    ensures forall i :: 0 <= i < |AllPairs(data)| ==> IsHexChar(AllPairs(data)[i])
    ensures DecodePairs(AllPairs(data)) == data
    decreases |data|
  {
    if |data| > 0 {
      var b := data[0];
      DecodeAllPairs(data[1..]);
      var digits := AllPairs(data);
      assert digits == HexPair(b) + AllPairs(data[1..]);
      assert digits[2..] == AllPairs(data[1..]);
      assert digits[0] == HexPair(b)[0] && digits[1] == HexPair(b)[1];
      PairDecodes(b);
    }
  }

  /** hex_string_to_bytes undoes bytes_to_hex_string whenever the
      separator holds no hex digit. */
  lemma HexRoundTrip(data: seq<byte>, separator: string)
    requires forall i :: 0 <= i < |separator| ==> !IsHexChar(separator[i])
    ensures HexStringToBytes(BytesToHexString(data, separator)) == data
  {
    CleanRendered(data, separator);
    DecodeAllPairs(data);
  }

  /** A '0' and a digit c make the byte of value c. */
  lemma ZeroPair(c: char)
    requires IsHexChar(c)
    ensures PairByte('0', c) == HexValue(c) as byte
  {
    assert HexValue('0') * 16 + HexValue(c) == HexValue(c);
  }

  lemma DecodePadded(c: char, digits: string)
    requires IsHexChar(c) && |digits| % 2 == 0
    requires forall i :: 0 <= i < |digits| ==> IsHexChar(digits[i])
    ensures forall i :: 0 <= i < |"0" + [c] + digits| ==> IsHexChar(("0" + [c] + digits)[i])
    ensures DecodePairs("0" + [c] + digits) == [HexValue(c) as byte] + DecodePairs(digits)
  {
    var even := "0" + [c] + digits;
    assert even[2..] == digits;
    ZeroPair(c);
  }

  /** An odd number of digits is read with a '0' in front: a lone leading
      digit c becomes the byte of value c, and the pairs after it decode
      as usual. */
  lemma HexOddPadded(c: char, data: seq<byte>)
    requires IsHexChar(c)
    ensures HexStringToBytes([c] + AllPairs(data)) == [HexValue(c) as byte] + data
  {
    var digits := AllPairs(data);
    DecodeAllPairs(data);
    var cleaned := [c] + digits;
    assert Clean(cleaned) == cleaned by {
      CleanOne(c);
      CleanDigits(digits);
      CleanAppend([c], digits);
    }
    assert "0" + cleaned == "0" + [c] + digits;
    DecodePadded(c, digits);
  }

  /** The rendering the helper checks: 01 02 03 FF. */
  lemma HexFixture()
    ensures BytesToHexString([0x01, 0x02, 0x03, 0xFF], " ") == "01 02 03 FF"
  {
    assert HexPair(0xFF) == "FF";
    assert BytesToHexString([0xFF], " ") == "FF";
    assert BytesToHexString([0x03, 0xFF], " ") == "03 FF";
    assert BytesToHexString([0x02, 0x03, 0xFF], " ") == "02 03 FF";
  }
  // ---------------------------------------------------------------------
  // Relay lists

  /** The characters str.strip() removes: those str.isspace() accepts,
      the ASCII controls 0x09-0x0D and 0x1C-0x1F, the space, and the
      Unicode separators. */
  predicate IsSpace(c: char) {
    var n := c as int;
    (0x09 <= n <= 0x0D) || (0x1C <= n <= 0x20) || n == 0x85 || n == 0xA0 || n == 0x1680
    || (0x2000 <= n <= 0x200A) || n == 0x2028 || n == 0x2029 || n == 0x202F || n == 0x205F || n == 0x3000
  }

  predicate AllSpace(s: string) {
    forall k :: 0 <= k < |s| ==> IsSpace(s[k])
  }

  function StripLeft(s: string): (t: string)
    ensures |t| > 0 ==> !IsSpace(t[0])
  {
    if |s| > 0 && IsSpace(s[0]) then StripLeft(s[1..]) else s
  }

  function StripRight(s: string): (t: string)
    ensures |t| <= |s|
    ensures |t| > 0 ==> t[0] == s[0] && !IsSpace(t[|t| - 1])
  {
    if |s| > 0 && IsSpace(s[|s| - 1]) then StripRight(s[..|s| - 1]) else s
  }

  /** str.strip(). */
  function Strip(s: string): (t: string)
    ensures |t| > 0 ==> !IsSpace(t[0]) && !IsSpace(t[|t| - 1])
  {
    var left := StripLeft(s);
    StripRight(left)
  }

  /** StripLeft drops a prefix of whitespace. */
  lemma {:induction false} StripLeftSuffix(s: string)
    ensures |StripLeft(s)| <= |s|
    ensures StripLeft(s) == s[|s| - |StripLeft(s)|..]
    ensures AllSpace(s[..|s| - |StripLeft(s)|])
    decreases |s|
  {
    if |s| > 0 && IsSpace(s[0]) {
      StripLeftSuffix(s[1..]);
      var n := |s| - |StripLeft(s)|;
      assert s[1..][n - 1..] == s[n..];
      assert s[..n] == [s[0]] + s[1..][..n - 1];
    }
  }

  /** StripRight drops a suffix of whitespace. */
  lemma {:induction false} StripRightPrefix(s: string)
    ensures StripRight(s) == s[..|StripRight(s)|]
    ensures AllSpace(s[|StripRight(s)|..])
    decreases |s|
  {
    if |s| > 0 && IsSpace(s[|s| - 1]) {
      var init := s[..|s| - 1];
      StripRightPrefix(init);
      var n := |StripRight(s)|;
      assert init[..n] == s[..n];
      assert s[n..] == init[n..] + [s[|s| - 1]];
    }
  }

  /** str.strip() keeps the middle of s from its first to its last
      non-whitespace character: what it drops on either side is all
      whitespace, and what it keeps neither starts nor ends with any. */
  lemma StripTrims(s: string)
    ensures var i := |s| - |StripLeft(s)|;
      var j := i + |Strip(s)|;
      && 0 <= i <= j <= |s|
      && Strip(s) == s[i..j]
      && AllSpace(s[..i]) && AllSpace(s[j..])
  {
    var left := StripLeft(s);
    StripLeftSuffix(s);
    StripRightPrefix(left);
    var i := |s| - |left|;
    var j := i + |Strip(s)|;
    assert left[..|Strip(s)|] == s[i..j];
    assert left[|Strip(s)|..] == s[j..];
  }

  /** str.split(sep) for a one-character separator: the pieces between
      separators, empty pieces included; always at least one piece. */
  function Split(s: string, sep: char): (parts: seq<string>)
    ensures |parts| >= 1
    ensures forall k :: 0 <= k < |parts| ==> sep !in parts[k]
  {
    if |s| == 0 then [""]
    else
      var rest := Split(s[1..], sep);
      if s[0] == sep then [""] + rest
      else [[s[0]] + rest[0]] + rest[1..]
  }

  /** sep.join(parts). */
  function Join(parts: seq<string>, sep: char): string
    requires |parts| >= 1
  {
    if |parts| == 1 then parts[0] else parts[0] + [sep] + Join(parts[1..], sep)
  }

  /** Splitting loses nothing: joining the pieces gives the string back. */
  lemma {:induction false} JoinSplit(s: string, sep: char)
    ensures Join(Split(s, sep), sep) == s
    decreases |s|
  {
    if |s| > 0 {
      var rest := Split(s[1..], sep);
      JoinSplit(s[1..], sep);
      if s[0] != sep {
        var parts := Split(s, sep);
        if |rest| == 1 {
          assert parts == [[s[0]] + rest[0]];
        } else {
          assert parts[1..] == rest[1..];
          assert Join(parts, sep) == [s[0]] + (rest[0] + [sep] + Join(rest[1..], sep));
        }
      }
    }
  }

  /** The first position of c in s. */
  function IndexOf(s: string, c: char): (i: nat)
    requires c in s
    ensures i < |s| && s[i] == c && c !in s[..i]
  {
    if s[0] == c then 0
    else
      var j := IndexOf(s[1..], c);
      assert s[..j + 1] == [s[0]] + s[1..][..j];
      j + 1
  }

  predicate IsDigit(c: char) {
    '0' <= c <= '9'
  }

  predicate AllDigits(s: string) {
    forall i :: 0 <= i < |s| ==> IsDigit(s[i])
  }

  /** The value of a string of decimal digits, most significant first. */
  function DigitsValue(ds: string): nat
    requires AllDigits(ds)
  {
    if |ds| == 0 then 0 else DigitsValue(ds[..|ds| - 1]) * 10 + (ds[|ds| - 1] as int - '0' as int)
  }

  /** An optional sign, then one or more decimal digits. */
  predicate IsNumeral(s: string) {
    var ds := if |s| > 0 && (s[0] == '-' || s[0] == '+') then s[1..] else s;
    |ds| > 0 && AllDigits(ds)
  }

  /** int(s) on a string that has been stripped: an optional sign, then
      one or more decimal digits; anything else raises ValueError. */
  function ParseInt(s: string): (r: Result<int>)
    ensures r.Ok? <==> IsNumeral(s)
    ensures r.Err? ==> r.error == ValueError
  {
    if |s| > 0 && (s[0] == '-' || s[0] == '+') then
      var ds := s[1..];
      if |ds| > 0 && AllDigits(ds) then
        var v: int := DigitsValue(ds);
        Ok(if s[0] == '-' then -v else v)
      else Err(ValueError)
    else if |s| > 0 && AllDigits(s) then Ok(DigitsValue(s))
    else Err(ValueError)
  }

  /** The decimal numeral of n, as str() writes it. */
  function Decimal(n: nat): (s: string)
    ensures |s| > 0 && AllDigits(s)
  {
    var d := [('0' as int + n % 10) as char];
    if n < 10 then d else Decimal(n / 10) + d
  }

  lemma {:induction false} DecimalValue(n: nat)
    ensures DigitsValue(Decimal(n)) == n
  {
    if n >= 10 {
      DecimalValue(n / 10);
      var s := Decimal(n);
      assert s[..|s| - 1] == Decimal(n / 10);
    }
  }

  /** int() reads back every numeral str() writes, either sign. */
  lemma ParseDecimal(n: nat)
    ensures ParseInt(Decimal(n)) == Ok(n)
    ensures ParseInt("-" + Decimal(n)) == Ok(-(n as int))
  {
    DecimalValue(n);
    assert ("-" + Decimal(n))[1..] == Decimal(n);
  }

  /** range(start, end + 1) as a set. */
  function Range(start: int, end: int): (r: set<int>)
    ensures forall k :: k in r <==> start <= k <= end
    decreases end - start
  {
    if start > end then {} else {start} + Range(start + 1, end)
  }

  /** The two ends of a part "a-b", split at its first dash, each stripped
      and read as an integer. */
  function RangeBounds(p: string): (r: Result<(int, int)>)
    requires '-' in p
    ensures r.Err? ==> r.error == ValueError
  {
    var i := IndexOf(p, '-');
    var start := ParseInt(Strip(p[..i]));
    var end := ParseInt(Strip(p[i + 1..]));
    if start.Err? || end.Err? then Err(ValueError)
    else Ok((start.value, end.value))
  }

  /** The integers a part "a-b" names: every number from a to b inclusive
      (none when b < a). */
  function RangeSet(p: string): (r: Result<set<int>>)
    requires '-' in p
    ensures r.Err? ==> r.error == ValueError
  {
    var bounds := RangeBounds(p);
    if bounds.Err? then Err(ValueError) else Ok(Range(bounds.value.0, bounds.value.1))
  }

  /** The integers one comma-separated part contributes: a single number,
      or every number of an inclusive range. */
  function PartSet(part: string): (r: Result<set<int>>)
    ensures r.Err? ==> r.error == ValueError
  {
    var p := Strip(part);
    if '-' in p then RangeSet(p)
    else
      var v := ParseInt(p);
      if v.Err? then Err(ValueError) else Ok({v.value})
  }

  /** The integers a sequence of parts contributes, or ValueError as soon
      as one part is malformed. */
  function PartsSet(parts: seq<string>): (r: Result<set<int>>)
    ensures r.Err? ==> r.error == ValueError
  {
    if |parts| == 0 then Ok({})
    else
      var init := PartsSet(parts[..|parts| - 1]);
      var last := PartSet(parts[|parts| - 1]);
      if init.Err? || last.Err? then Err(ValueError) else Ok(init.value + last.value)
  }

  /** The numbers a relay list names. */
  function Listed(relayStr: string): Result<set<int>> {
    PartsSet(Split(relayStr, ','))
  }

  lemma {:induction false} PartsSetErr(parts: seq<string>, j: nat)
    requires j <= |parts| && PartsSet(parts[..j]).Err?
    ensures PartsSet(parts).Err?
    decreases |parts| - j
  {
    if j < |parts| {
      assert parts[..j + 1][..j] == parts[..j];
      PartsSetErr(parts, j + 1);
    } else {
      assert parts[..j] == parts;
    }
  }

  function Elements(xs: seq<int>): set<int> {
    set x | x in xs
  }

  predicate StrictlyIncreasing(xs: seq<int>) {
    forall i, j :: 0 <= i < j < |xs| ==> xs[i] < xs[j]
  }

  /** Adding x to an increasing list without duplicates. */
  function InsertSorted(ys: seq<int>, x: int): (zs: seq<int>)
    requires StrictlyIncreasing(ys)
    ensures StrictlyIncreasing(zs)
    ensures forall z :: z in zs <==> z == x || z in ys
  {
    if |ys| == 0 then [x]
    else if x < ys[0] then [x] + ys
    else if x == ys[0] then ys
    else
      var rest := InsertSorted(ys[1..], x);
      assert forall z :: z in ys[1..] ==> ys[0] < z;
      assert forall k :: 0 <= k < |rest| ==> ys[0] < rest[k] by {
        forall k | 0 <= k < |rest| ensures ys[0] < rest[k] {
          assert rest[k] in rest;
        }
      }
      assert forall z :: z in ys <==> z == ys[0] || z in ys[1..] by {
        assert ys == [ys[0]] + ys[1..];
      }
      [ys[0]] + rest
  }

  /** sorted(list(set(xs))). */
  function SortedSet(xs: seq<int>): (ys: seq<int>)
    ensures StrictlyIncreasing(ys) && Elements(ys) == Elements(xs)
  {
    if |xs| == 0 then []
    else
      var init := xs[..|xs| - 1];
      var rest := SortedSet(init);
      var ys := InsertSorted(rest, xs[|xs| - 1]);
      assert forall z :: z in xs <==> z in init || z == xs[|xs| - 1] by {
        assert xs == init + [xs[|xs| - 1]];
      }
      assert forall z :: z in rest <==> z in init by {
        assert forall z :: z in rest <==> z in Elements(rest);
        assert forall z :: z in init <==> z in Elements(init);
      }
      assert forall z :: z in Elements(ys) <==> z in Elements(xs);
      ys
  }

  lemma FirstIsElement(xs: seq<int>)
    requires |xs| > 0
    ensures xs[0] in Elements(xs)
  {
  }

  /** A set has one increasing listing: two strictly increasing lists
      with the same elements are equal. */
  lemma {:induction false} IncreasingUnique(xs: seq<int>, ys: seq<int>)
    requires StrictlyIncreasing(xs) && StrictlyIncreasing(ys)
    requires Elements(xs) == Elements(ys)
    ensures xs == ys
    decreases |xs|
  {
    if |xs| > 0 && |ys| > 0 {
      assert xs[0] in Elements(ys) && ys[0] in Elements(xs);
      assert xs[0] == ys[0];
      assert Elements(xs[1..]) == Elements(xs) - {xs[0]} by {
        assert forall x :: x in xs[1..] <==> x in xs && x != xs[0];
      }
      assert Elements(ys[1..]) == Elements(ys) - {ys[0]} by {
        assert forall y :: y in ys[1..] <==> y in ys && y != ys[0];
      }
      IncreasingUnique(xs[1..], ys[1..]);
    } else if |xs| > 0 {
      FirstIsElement(xs);
      assert false;
    } else if |ys| > 0 {
      FirstIsElement(ys);
      assert false;
    }
  }

  /** relays.extend(range(start, end + 1)). */
  method ExtendRange(relays: seq<int>, start: int, end: int) returns (extended: seq<int>)
    ensures Elements(extended) == Elements(relays) + Range(start, end)
  {
    extended := relays;
    var k := start;
    while k <= end
      invariant start <= k && (k <= end + 1 || k == start)
      invariant forall x :: x in extended <==> x in relays || start <= x < k
      decreases end - k
    {
      extended := extended + [k];
      k := k + 1;
    }
  }

  /** The range branch of parse_relay_list. */
  method ParseRange(p: string) returns (r: Result<seq<int>>)
    requires '-' in p
    ensures r.Ok? <==> RangeSet(p).Ok?
    ensures r.Ok? ==> Elements(r.value) == RangeSet(p).value
  {
    var bounds := RangeBounds(p);
    if bounds.Err? {
      return Err(ValueError);
    }
    var range := ExtendRange([], bounds.value.0, bounds.value.1);
    return Ok(range);
  }

  /** One part of parse_relay_list: a range when it holds a dash, a single
      number otherwise. */
  method ParsePart(part: string) returns (r: Result<seq<int>>)
    ensures r.Ok? <==> PartSet(part).Ok?
    ensures r.Ok? ==> Elements(r.value) == PartSet(part).value
  {
    var p := Strip(part);
    if '-' in p {
      r := ParseRange(p);
    } else {
      var v := ParseInt(p);
      if v.Err? {
        return Err(ValueError);
      }
      return Ok([v.value]);
    }
  }

  /** One more part: the parts so far, then the new one. */
  lemma PartsSetStep(parts: seq<string>, i: nat)
    requires i < |parts|
    ensures var init := PartsSet(parts[..i]);
            var last := PartSet(parts[i]);
            PartsSet(parts[..i + 1]) == if init.Err? || last.Err? then Err(ValueError) else Ok(init.value + last.value)
  {
    assert parts[..i + 1][..i] == parts[..i];
  }

  lemma ElementsAppend(xs: seq<int>, ys: seq<int>)
    ensures Elements(xs + ys) == Elements(xs) + Elements(ys)
  {
    assert forall z :: z in xs + ys <==> z in xs || z in ys;
  }

  /** parse_relay_list: every listed number once, in increasing order, or
      ValueError for a malformed part. */
  method ParseRelayList(relayStr: string) returns (r: Result<seq<int>>)
    ensures r.Ok? <==> Listed(relayStr).Ok?
    ensures r.Err? ==> r.error == ValueError
    ensures r.Ok? ==> StrictlyIncreasing(r.value) && Elements(r.value) == Listed(relayStr).value
  {
    var parts := Split(relayStr, ',');
    var relays: seq<int> := [];
    for i := 0 to |parts|
      invariant PartsSet(parts[..i]).Ok?
      invariant Elements(relays) == PartsSet(parts[..i]).value
    {
      var p := ParsePart(parts[i]);
      PartsSetStep(parts, i);
      if p.Err? {
        PartsSetErr(parts, i + 1);
        return Err(ValueError);
      }
      ElementsAppend(relays, p.value);
      relays := relays + p.value;
    }
    assert parts[..|parts|] == parts;
    r := Ok(SortedSet(relays));
  }

  /** A piece without the separator comes back whole, followed by the
      pieces of what comes after the separator. */
  lemma {:induction false} SplitPiece(a: string, b: string, sep: char)
    requires sep !in a
    ensures Split(a + [sep] + b, sep) == [a] + Split(b, sep)
    ensures Split(a, sep) == [a]
    decreases |a|
  {
    if |a| == 0 {
      assert a + [sep] + b == [sep] + b;
      assert ([sep] + b)[1..] == b;
    } else {
      SplitPiece(a[1..], b, sep);
      assert (a + [sep] + b)[1..] == a[1..] + [sep] + b;
      assert [a[0]] + a[1..] == a;
    }
  }

  /** Strip leaves a string alone that neither starts nor ends with
      whitespace. */
  lemma StripUnspaced(s: string)
    requires |s| > 0 ==> !IsSpace(s[0]) && !IsSpace(s[|s| - 1])
    ensures Strip(s) == s
  {
  }

  /** int() of one decimal digit. */
  lemma ParseDigit(c: char)
    requires IsDigit(c)
    ensures ParseInt([c]) == Ok(c as int - '0' as int)
  {
    var s := [c];
    assert s[..0] == [];
    assert DigitsValue(s) == DigitsValue([]) * 10 + (c as int - '0' as int);
    assert AllDigits(s);
  }

  /** A part that is one decimal digit names that number. */
  lemma DigitPart(c: char)
    requires IsDigit(c)
    ensures PartSet([c]) == Ok({c as int - '0' as int})
  {
    StripUnspaced([c]);
    ParseDigit(c);
  }

  /** The ends of a part "a-b" of two single digits. */
  lemma DigitBounds(p: string, a: char, b: char)
    requires IsDigit(a) && IsDigit(b) && p == [a, '-', b]
    ensures Strip(p) == p && '-' in p
    ensures RangeBounds(p) == Ok((a as int - '0' as int, b as int - '0' as int))
  {
    StripUnspaced(p);
    assert p[1] == '-';
    assert p[1..][0] == '-';
    assert IndexOf(p, '-') == 1;
    assert p[..1] == [a] && p[2..] == [b];
    StripUnspaced([a]);
    StripUnspaced([b]);
    ParseDigit(a);
    ParseDigit(b);
  }

  /** A stripped part with a dash names the range between its ends. */
  lemma RangePart(p: string, x: int, y: int)
    requires Strip(p) == p && '-' in p && RangeBounds(p) == Ok((x, y))
    ensures PartSet(p) == Ok(Range(x, y))
  {
  }

  lemma DigitRange(p: string, a: char, b: char)
    requires IsDigit(a) && IsDigit(b) && p == [a, '-', b]
    ensures PartSet(p) == Ok(Range(a as int - '0' as int, b as int - '0' as int))
  {
    DigitBounds(p, a, b);
    RangePart(p, a as int - '0' as int, b as int - '0' as int);
  }

  /** Three well-formed parts name what each names. */
  lemma ThreeParts(parts: seq<string>, first: set<int>, second: set<int>, third: set<int>)
    requires |parts| == 3
    requires PartSet(parts[0]) == Ok(first) && PartSet(parts[1]) == Ok(second) && PartSet(parts[2]) == Ok(third)
    ensures PartsSet(parts) == Ok(first + second + third)
  {
    assert parts[..0] == [] && parts[..3] == parts;
    assert {} + first == first;
    PartsSetStep(parts, 0);
    assert PartsSet(parts[..1]) == Ok(first);
    PartsSetStep(parts, 1);
    assert PartsSet(parts[..2]) == Ok(first + second);
    PartsSetStep(parts, 2);
  }

  /** A list "a,b-c,d" of single digits names a, every number from b to c,
      and d. */
  lemma ListedDigits(s: string, a: char, b: char, c: char, d: char)
    requires IsDigit(a) && IsDigit(b) && IsDigit(c) && IsDigit(d)
    requires s == [a, ',', b, '-', c, ',', d]
    ensures Listed(s)
         == Ok({a as int - '0' as int} + Range(b as int - '0' as int, c as int - '0' as int) + {d as int - '0' as int})
  {
    SplitPiece([d], [], ',');
    SplitPiece([b, '-', c], [d], ',');
    SplitPiece([a], [b, '-', c, ',', d], ',');
    assert [a] + [','] + [b, '-', c, ',', d] == s;
    assert [b, '-', c] + [','] + [d] == [b, '-', c, ',', d];
    var parts := Split(s, ',');
    assert parts == [[a], [b, '-', c], [d]];
    DigitPart(a);
    DigitRange(parts[1], b, c);
    DigitPart(d);
    ThreeParts(parts, {a as int - '0' as int}, Range(b as int - '0' as int, c as int - '0' as int), {d as int - '0' as int});
  }

  /** The list "1,3-5,7" names 1, 3, 4, 5 and 7. */
  lemma ListedFixture(s: string)
    requires s == "1,3-5,7"
    ensures Listed(s) == Ok({1, 3, 4, 5, 7})
  {
    ListedDigits(s, '1', '3', '5', '7');
    assert '1' as int - '0' as int == 1 && '3' as int - '0' as int == 3;
    assert '5' as int - '0' as int == 5 && '7' as int - '0' as int == 7;
    assert Range(3, 5) == {3, 4, 5};
    assert {1} + {3, 4, 5} + {7} == {1, 3, 4, 5, 7};
  }

  /** parse_relay_list("1,3-5,7") gives [1, 3, 4, 5, 7]: the list names
      exactly those numbers, and they have one increasing listing. */
  lemma RelayListFixture(s: string, listing: seq<int>)
    requires s == "1,3-5,7"
    requires StrictlyIncreasing(listing) && Listed(s) == Ok(Elements(listing))
    ensures listing == [1, 3, 4, 5, 7]
  {
    ListedFixture(s);
    var expected := [1, 3, 4, 5, 7];
    assert Elements(expected) == {1, 3, 4, 5, 7};
    IncreasingUnique(listing, expected);
  }

  // ---------------------------------------------------------------------
  // Validators

  /** validate_relay_id: relays are numbered from 1 to max_relays. */
  predicate ValidRelayId(relayId: int, maxRelays: int)
    ensures ValidRelayId(relayId, maxRelays) ==> 0 <= relayId - 1 < maxRelays
  {
    1 <= relayId <= maxRelays
  }

  /** validate_input_id: inputs are numbered from 1 to max_inputs. */
  predicate ValidInputId(inputId: int, maxInputs: int)
    ensures ValidInputId(inputId, maxInputs) ==> 0 <= inputId - 1 < maxInputs
  {
    1 <= inputId <= maxInputs
  }

  /** validate_modbus_address: a register or coil address is 16 bits. */
  predicate ValidModbusAddress(address: int)
    ensures ValidModbusAddress(address) <==> IsU16(address)
  {
    0 <= address <= 0xFFFF
  }

  /** validate_slave_id: unicast slave addresses 1 to 247; 0 is the
      broadcast address and 248 to 255 are reserved. */
  predicate ValidSlaveId(slaveId: int)
    ensures ValidSlaveId(slaveId) ==> IsU8(slaveId) && slaveId != 0
  {
    1 <= slaveId <= 247
  }

  /** A valid Modbus address is exactly one struct.pack('>H') accepts: the
      reads of one item at it pack, whatever else is valid. */
  lemma ValidAddressPacks(address: int, count: int)
    requires IsU16(count)
    ensures ValidModbusAddress(address) <==> ReadRequest(address, count).Ok?
  {
  }

  /** With the relays based at coil 0, as the controller is built, relay n
      is coil n - 1: the single-coil write for it packs exactly when n is a
      valid relay id among 65536. */
  lemma RelayIdPacks(relayId: int, on: bool)
    ensures SingleCoilRequest(relayId - 1, on).Ok? <==> ValidRelayId(relayId, 0x10000)
  {
  }

  /** Likewise for inputs based at discrete input 0 and a read of one. */
  lemma InputIdPacks(inputId: int)
    ensures ReadRequest(inputId - 1, 1).Ok? <==> ValidInputId(inputId, 0x10000)
  {
  }

  /** A valid slave id always frames; the frame builder is laxer and also
      accepts the broadcast address 0 and the reserved 248 to 255. */
  lemma ValidSlaveFrames(slaveId: int, functionCode: int, data: seq<byte>)
    requires IsU8(functionCode)
    ensures ValidSlaveId(slaveId) ==> BuildFrame(slaveId, functionCode, data).Ok?
    ensures BuildFrame(slaveId, functionCode, data).Ok? && !ValidSlaveId(slaveId) <==> slaveId == 0 || 248 <= slaveId <= 255
  {
  }

  // ---------------------------------------------------------------------
  // Expected reply length

  /** calculate_expected_response_length: address, function code and CRC
      (4 bytes), plus a byte count and the packed bits for the bit reads, a
      byte count and two bytes per register for the register reads, the
      4-byte echo for the writes, and nothing for other codes. */
  function ExpectedResponseLength(functionCode: int, dataLength: int): (n: int)
    ensures functionCode !in {0x01, 0x02, 0x03, 0x04, 0x05, 0x06, 0x0F, 0x10} ==> n == 4
    ensures dataLength >= 0 ==> n >= 4
  {
    var baseLength := 4;
    if functionCode == 0x01 || functionCode == 0x02 then baseLength + 1 + (dataLength + 7) / 8
    else if functionCode == 0x03 || functionCode == 0x04 then baseLength + 1 + dataLength * 2
    else if functionCode == 0x05 || functionCode == 0x06 then baseLength + 4
    else if functionCode == 0x0F || functionCode == 0x10 then baseLength + 4
    else baseLength
  }

  /** The normal reply to a read of n coils or discrete inputs, framed,
      is as long as predicted for n. */
  lemma BitsReplyLength(slaveId: int, functionCode: int, states: seq<bool>)
    requires IsU8(slaveId) && functionCode in {ReadCoilsCode, ReadDiscreteInputsCode}
    requires |states| <= 2040
    ensures var reply := BuildFrame(slaveId, functionCode, [((|states| + 7) / 8) as byte] + PackBits(states));
            reply.Ok? && |reply.value| == ExpectedResponseLength(functionCode, |states|)
  {
  }

  /** The normal reply to a read of n registers, framed, is as long as
      predicted for n. */
  lemma RegistersReplyLength(slaveId: int, functionCode: int, values: seq<int>)
    requires IsU8(slaveId) && functionCode in {ReadHoldingRegistersCode, ReadInputRegistersCode}
    requires AllU16(values) && |values| <= 127
    ensures var reply := BuildFrame(slaveId, functionCode, [(2 * |values|) as byte] + RegisterBytes(values));
            reply.Ok? && |reply.value| == ExpectedResponseLength(functionCode, |values|)
  {
  }

  /** The normal reply to any of the four writes echoes four bytes; framed,
      it is as long as predicted, whatever the count. */
  lemma WriteReplyLength(slaveId: int, functionCode: int, echo: seq<byte>, dataLength: int)
    requires IsU8(slaveId) && |echo| == 4
    requires functionCode in {WriteSingleCoilCode, WriteSingleRegisterCode, WriteMultipleCoilsCode, WriteMultipleRegistersCode}
    ensures var reply := BuildFrame(slaveId, functionCode, echo);
            reply.Ok? && |reply.value| == ExpectedResponseLength(functionCode, dataLength)
  {
  }

  /** An exception reply carries one byte more than the 4 predicted for
      its function code (bit 0x80 set, so no case above applies). */
  lemma ExceptionReplyLength(slaveId: int, functionCode: int, code: byte)
    requires IsU8(slaveId) && 0x80 <= functionCode < 0x100
    ensures var reply := BuildFrame(slaveId, functionCode, [code]);
            reply.Ok? && |reply.value| == ExpectedResponseLength(functionCode, 0) + 1
  {
  }
}
