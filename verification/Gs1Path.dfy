// Batch numbers inside code URLs: the X character set, percent-encoding of a
// path component (sections 2.1 and 2.3 of RFC 3986) and the code strings built
// from it, with a reader that takes them apart again.
module Gs1Path {
  import opened Wrappers
  import opened Gs1CheckDigit

  /******* The X character set *******/

  predicate IsAlphanumeric(c: char) {
    '0' <= c <= '9' || 'A' <= c <= 'Z' || 'a' <= c <= 'z'
  }

  const SYMBOLS: string := "\"-._!%&+,/()*';:<=>?"

  predicate IsValidGs1X(text: string, maxLength: nat) {
    && 1 <= |text| <= maxLength
    && forall i :: 0 <= i < |text| ==> IsAlphanumeric(text[i]) || text[i] in SYMBOLS
  }

  // gs1_xchar_valid lists the set as ranges of one bracket expression.
  predicate InBracket(c: char) {
    || IsAlphanumeric(c)
    || '!' == c || '"' == c || '%' <= c <= ')' // % & ' ( )
    || '*' <= c <= '/'                           // * + , - . /
    || c == '_' || ':' <= c <= '?'               // : ; < = > ?
  }

  predicate Gs1XCharValid(value: string, maxLength: nat) {
    1 <= |value| <= maxLength && forall i :: 0 <= i < |value| ==> InBracket(value[i])
  }

  // The service and the database accept the same batch numbers.
  lemma XCharTwinsAgree(value: string, maxLength: nat)
    ensures Gs1XCharValid(value, maxLength) <==> IsValidGs1X(value, maxLength)
  {
    forall i | 0 <= i < |value| ensures InBracket(value[i]) <==> IsAlphanumeric(value[i]) || value[i] in SYMBOLS {
      SameSet(value[i]);
    }
  }

  lemma SameSet(c: char)
    ensures InBracket(c) <==> IsAlphanumeric(c) || c in SYMBOLS
  {
    if c in SYMBOLS {
      var i :| 0 <= i < |SYMBOLS| && SYMBOLS[i] == c;
    }
    assert SYMBOLS[0] == '"' && SYMBOLS[1] == '-' && SYMBOLS[2] == '.' && SYMBOLS[3] == '_' && SYMBOLS[4] == '!';
    assert SYMBOLS[5] == '%' && SYMBOLS[6] == '&' && SYMBOLS[7] == '+' && SYMBOLS[8] == ',' && SYMBOLS[9] == '/';
    assert SYMBOLS[10] == '(' && SYMBOLS[11] == ')' && SYMBOLS[12] == '*' && SYMBOLS[13] == '\'' && SYMBOLS[14] == ';';
    assert SYMBOLS[15] == ':' && SYMBOLS[16] == '<' && SYMBOLS[17] == '=' && SYMBOLS[18] == '>' && SYMBOLS[19] == '?';
  }

  /******* Percent-encoding *******/

  function HexDigit(d: nat): char
    requires d < 16
  {
    if d < 10 then ('0' as int + d) as char else ('A' as int + d - 10) as char
  }

  // Two upper-case digits: enough for the ASCII characters that get here.
  function Escaped(c: char): string
    requires c as int < 128
  {
    ['%', HexDigit(c as int / 16), HexDigit(c as int % 16)]
  }

  const LEFT_BY_LIBRARY: string := "-_.!~*'()"

  // encodeURIComponent on ASCII text.
  function EncodeURIComponent(s: string): string
    requires forall i :: 0 <= i < |s| ==> s[i] as int < 128
  {
    if s == "" then ""
    else (if IsAlphanumeric(s[0]) || s[0] in LEFT_BY_LIBRARY then [s[0]] else Escaped(s[0])) + EncodeURIComponent(s[1..])
  }

  const REPLACED: string := "!'()*"

  // The second pass over the encoded text.
  function EscapeReplaced(s: string): string {
    if s == "" then ""
    else (if s[0] in REPLACED then Escaped(s[0]) else [s[0]]) + EscapeReplaced(s[1..])
  }

  function EncodePathComponent(value: string): Result<string, Gs1Error> {
    if IsValidGs1X(value, 20) then
      XIsAscii(value);
      Success(EscapeReplaced(EncodeURIComponent(value)))
    else Failure(InvalidInput)
  }

  lemma XIsAscii(value: string)
    requires IsValidGs1X(value, 20)
    ensures forall i :: 0 <= i < |value| ==> value[i] as int < 128
  {
    forall i | 0 <= i < |value| ensures value[i] as int < 128 { SameSet(value[i]); }
  }

  // The reader of RFC 3986: a percent sign and two hexadecimal digits of
  // either case stand for one character.
  function HexValue(c: char): Option<nat> {
    if '0' <= c <= '9' then Some(c as int - '0' as int)
    else if 'A' <= c <= 'F' then Some(c as int - 'A' as int + 10)
    else if 'a' <= c <= 'f' then Some(c as int - 'a' as int + 10)
    else None
  }

  function Decode(s: string): Option<string>
    decreases |s|
  {
    if s == "" then Some("")
    else if s[0] != '%' then Prepend(s[0], Decode(s[1..]))
    else if |s| < 3 || HexValue(s[1]).None? || HexValue(s[2]).None? then None
    else Prepend((16 * HexValue(s[1]).value + HexValue(s[2]).value) as char, Decode(s[3..]))
  }

  function Prepend(c: char, rest: Option<string>): Option<string> {
    if rest.None? then None else Some([c] + rest.value)
  }

  predicate IsUnreserved(c: char) {
    IsAlphanumeric(c) || c == '-' || c == '.' || c == '_' || c == '~'
  }

  predicate IsUpperHex(c: char) {
    '0' <= c <= '9' || 'A' <= c <= 'F'
  }

  // Only unreserved characters and %HH.
  predicate IsSegment(s: string)
    decreases |s|
  {
    || s == ""
    || (IsUnreserved(s[0]) && IsSegment(s[1..]))
    || (|s| >= 3 && s[0] == '%' && IsUpperHex(s[1]) && IsUpperHex(s[2]) && IsSegment(s[3..]))
  }

  // What the two passes make of one character.
  function EncodedChar(c: char): string
    requires c as int < 128
  {
    if IsUnreserved(c) then [c] else Escaped(c)
  }

  lemma {:induction false} ReplaceConcat(a: string, b: string)
    ensures EscapeReplaced(a + b) == EscapeReplaced(a) + EscapeReplaced(b)
    decreases |a|
  {
    if a == "" {
      assert a + b == b;
    } else {
      assert (a + b)[1..] == a[1..] + b;
      ReplaceConcat(a[1..], b);
    }
  }

  // One pass over the text, character by character.
  function Encoded(value: string): string
    requires forall i :: 0 <= i < |value| ==> value[i] as int < 128
  {
    if value == "" then "" else EncodedChar(value[0]) + Encoded(value[1..])
  }

  lemma TwoPasses(c: char, rest: string)
    requires InBracket(c) && forall i :: 0 <= i < |rest| ==> rest[i] as int < 128
    ensures EscapeReplaced(EncodeURIComponent([c] + rest)) == EncodedChar(c) + EscapeReplaced(EncodeURIComponent(rest))
  {
    hide HexDigit, EscapeReplaced, EncodedChar, Escaped;
    var first := if IsAlphanumeric(c) || c in LEFT_BY_LIBRARY then [c] else Escaped(c);
    assert ([c] + rest)[1..] == rest;
    ReplaceConcat(first, EncodeURIComponent(rest));
    OneCharacter(c);
  }

  lemma HexDigitIsHex(d: nat)
    requires d < 16
    ensures IsUpperHex(HexDigit(d)) && HexValue(HexDigit(d)) == Some(d) && HexDigit(d) !in REPLACED
  {
  }

  lemma OneCharacter(c: char)
    requires InBracket(c)
    ensures EscapeReplaced(if IsAlphanumeric(c) || c in LEFT_BY_LIBRARY then [c] else Escaped(c)) == EncodedChar(c)
  {
    if IsAlphanumeric(c) || c in LEFT_BY_LIBRARY {
      assert EscapeReplaced([c][1..]) == "";
    } else {
      var e := Escaped(c);
      HexDigitIsHex(c as int / 16);
      HexDigitIsHex(c as int % 16);
      assert e[1..][1..][1..] == "";
      assert EscapeReplaced(e) == [e[0]] + EscapeReplaced(e[1..]);
      assert EscapeReplaced(e[1..]) == [e[1]] + EscapeReplaced(e[1..][1..]);
    }
  }

  lemma DecodeFirst(c: char, rest: string)
    requires InBracket(c)
    ensures Decode(EncodedChar(c) + rest) == Prepend(c, Decode(rest))
    ensures IsSegment(rest) ==> IsSegment(EncodedChar(c) + rest)
  {
    var s := EncodedChar(c) + rest;
    if IsUnreserved(c) {
      assert s[1..] == rest;
    } else {
      HexDigitIsHex(c as int / 16);
      HexDigitIsHex(c as int % 16);
      assert s[3..] == rest;
    }
  }

  lemma {:induction false} EncodedRest(value: string)
    requires forall i :: 0 <= i < |value| ==> InBracket(value[i]) && value[i] as int < 128
    ensures var e := EscapeReplaced(EncodeURIComponent(value)); Decode(e) == Some(value) && IsSegment(e)
    decreases |value|
  {
    if value != "" {
      hide Decode, EscapeReplaced, EncodeURIComponent, EncodedChar;
      EncodedRest(value[1..]);
      assert [value[0]] + value[1..] == value;
      TwoPasses(value[0], value[1..]);
      DecodeFirst(value[0], EscapeReplaced(EncodeURIComponent(value[1..])));
    }
  }

  // The library's encoding and the pass over it percent-encode exactly the
  // characters that are not unreserved.
  lemma {:induction false} TwoPassesAreOne(value: string)
    requires forall i :: 0 <= i < |value| ==> InBracket(value[i]) && value[i] as int < 128
    ensures EscapeReplaced(EncodeURIComponent(value)) == Encoded(value)
    decreases |value|
  {
    if value != "" {
      hide EscapeReplaced, EncodeURIComponent, EncodedChar;
      TwoPassesAreOne(value[1..]);
      assert [value[0]] + value[1..] == value;
      TwoPasses(value[0], value[1..]);
    }
  }

  lemma EncodesExactlyReserved(value: string)
    requires IsValidGs1X(value, 20)
    ensures forall i :: 0 <= i < |value| ==> value[i] as int < 128
    ensures EncodePathComponent(value) == Success(Encoded(value))
  {
    hide EscapeReplaced, EncodeURIComponent, Encoded;
    forall i | 0 <= i < |value| ensures InBracket(value[i]) && value[i] as int < 128 { SameSet(value[i]); }
    TwoPassesAreOne(value);
  }

  // Decoding inverts encoding; what is encoded is safe inside one path segment.
  lemma EncodingRoundTrip(value: string)
    ensures EncodePathComponent(value).Success? <==> IsValidGs1X(value, 20)
    ensures EncodePathComponent(value).Success? ==>
      Decode(EncodePathComponent(value).value) == Some(value) && IsSegment(EncodePathComponent(value).value)
  {
    if IsValidGs1X(value, 20) {
      forall i | 0 <= i < |value| ensures InBracket(value[i]) && value[i] as int < 128 { SameSet(value[i]); }
      EncodedRest(value);
    }
  }

  /******* Code strings *******/

  // base/01/gtin[/10/lot]/21/serial; a batch that is absent or empty leaves
  // its part out.
  function ItemCode(base: string, gtin: string, lot: string, serial: string): Result<string, Gs1Error> {
    if lot == "" then Success(base + "/01/" + gtin + "/21/" + serial)
    else
      var segment := EncodePathComponent(lot);
      if segment.Failure? then Failure(InvalidInput)
      else Success(base + "/01/" + gtin + "/10/" + segment.value + "/21/" + serial)
  }

  function PalletCode(base: string, sscc: string): string {
    base + "/00/" + sscc
  }

  datatype Parts = Item(gtin: string, lot: string, serial: string) | Pallet(sscc: string)

  function UntilSlash(s: string): (n: nat)
    ensures n <= |s|
  {
    if s == "" || s[0] == '/' then 0 else 1 + UntilSlash(s[1..])
  }

  predicate StartsWith(s: string, prefix: string) {
    |s| >= |prefix| && s[..|prefix|] == prefix
  }

  // Takes a code string of the given base apart.
  function ReadCode(base: string, code: string): Option<Parts> {
    if !StartsWith(code, base) then None else
    var path := code[|base|..];
    if StartsWith(path, "/00/") then Some(Pallet(path[4..])) else
    if !StartsWith(path, "/01/") || |path| < 18 then None else
    ReadQualifiers(path[4..18], path[18..])
  }

  function ReadQualifiers(gtin: string, rest: string): Option<Parts> {
    if StartsWith(rest, "/21/") then Some(Item(gtin, "", rest[4..])) else
    if !StartsWith(rest, "/10/") then None else
    var tail := rest[4..];
    var end := UntilSlash(tail);
    var lot := Decode(tail[..end]);
    if lot.None? || !StartsWith(tail[end..], "/21/") then None
    else Some(Item(gtin, lot.value, tail[end + 4..]))
  }

  lemma {:induction false} SegmentHasNoSlash(segment: string, rest: string)
    requires IsSegment(segment) && StartsWith(rest, "/")
    ensures UntilSlash(segment + rest) == |segment|
    decreases |segment|
  {
    if segment == "" {
      assert segment + rest == rest;
    } else if IsUnreserved(segment[0]) && IsSegment(segment[1..]) {
      assert (segment + rest)[1..] == segment[1..] + rest;
      SegmentHasNoSlash(segment[1..], rest);
    } else {
      var s := segment + rest;
      assert s[1..][1..][1..] == segment[3..] + rest;
      SegmentHasNoSlash(segment[3..], rest);
      assert UntilSlash(s[1..]) == 1 + UntilSlash(s[1..][1..]);
    }
  }

  lemma ReadsQualifiers(gtin: string, lot: string, segment: string, serial: string)
    requires lot != "" && Decode(segment) == Some(lot) && IsSegment(segment)
    ensures ReadQualifiers(gtin, "/10/" + segment + "/21/" + serial) == Some(Item(gtin, lot, serial))
  {
    hide Decode, IsSegment;
    var rest := "/10/" + segment + "/21/" + serial;
    var tail := segment + ("/21/" + serial);
    assert rest[..4] == "/10/" && rest[1] == '1' && rest[4..] == tail;
    SegmentHasNoSlash(segment, "/21/" + serial);
    assert tail[..|segment|] == segment && tail[|segment|..] == "/21/" + serial;
    assert tail[|segment|..][..4] == "/21/" && tail[|segment| + 4..] == serial;
  }

  // A code string determines the GTIN, the batch and the serial it was made from.
  lemma CodeRoundTrip(base: string, gtin: string, lot: string, serial: string)
    requires |gtin| == 14
    ensures ItemCode(base, gtin, lot, serial).Success? <==> lot == "" || IsValidGs1X(lot, 20)
    ensures ItemCode(base, gtin, lot, serial).Success? ==>
      ReadCode(base, ItemCode(base, gtin, lot, serial).value) == Some(Item(gtin, lot, serial))
  {
    hide IsValidGs1X, EncodePathComponent, ReadQualifiers, Decode;
    EncodingRoundTrip(lot);
    var code := ItemCode(base, gtin, lot, serial);
    if code.Success? {
      var rest := if lot == "" then "/21/" + serial else "/10/" + EncodePathComponent(lot).value + "/21/" + serial;
      var path := "/01/" + gtin + rest;
      assert code.value == base + path;
      assert code.value[|base|..] == path && path[..4] == "/01/" && path[2] == '1';
      assert path[4..18] == gtin && path[18..] == rest;
      if lot == "" {
        ReadsPlain(gtin, serial);
      } else {
        ReadsQualifiers(gtin, lot, EncodePathComponent(lot).value, serial);
      }
    }
  }

  lemma ReadsPlain(gtin: string, serial: string)
    ensures ReadQualifiers(gtin, "/21/" + serial) == Some(Item(gtin, "", serial))
  {
    var rest := "/21/" + serial;
    assert rest[..4] == "/21/" && rest[4..] == serial;
  }

  lemma PalletRoundTrip(base: string, sscc: string)
    ensures ReadCode(base, PalletCode(base, sscc)) == Some(Pallet(sscc))
  {
    var path := "/00/" + sscc;
    assert PalletCode(base, sscc) == base + path;
    assert PalletCode(base, sscc)[|base|..] == path && path[..4] == "/00/" && path[4..] == sscc;
  }

  // Distinct triples give distinct codes, and no item code is a pallet code.
  lemma CodesAreDistinct(base: string, gtin: string, lot: string, serial: string, gtin': string, lot': string,
                         serial': string, sscc: string)
    requires |gtin| == |gtin'| == 14
    requires ItemCode(base, gtin, lot, serial).Success?
    ensures ItemCode(base, gtin', lot', serial') == ItemCode(base, gtin, lot, serial)
      <==> gtin == gtin' && lot == lot' && serial == serial'
    ensures ItemCode(base, gtin, lot, serial).value != PalletCode(base, sscc)
  {
    hide ReadCode, ItemCode;
    CodeRoundTrip(base, gtin, lot, serial);
    CodeRoundTrip(base, gtin', lot', serial');
    PalletRoundTrip(base, sscc);
  }

  /******* Serial numbers *******/

  // The database's lpad cuts a text that is too long.
  function Lpad(s: string, width: nat): string {
    if |s| > width then s[..width] else PadStart(s, width)
  }

  function SequentialSerial(index: nat): string {
    Lpad(ToString(index), 12)
  }

  // Serials of different indices differ as long as twelve digits are enough,
  // which the bound on a job's quantity guarantees.
  lemma SequentialSerialsDiffer(i: nat, j: nat)
    requires i < Pow10(12) && j < Pow10(12)
    ensures SequentialSerial(i) == SequentialSerial(j) <==> i == j
  {
    hide Pow10, ToString, ValueOf;
    DecimalLength(i, 12);
    DecimalLength(j, 12);
    PaddedNumber(i, 12);
    PaddedNumber(j, 12);
  }
}
