// GS1 check digits and SSCC keys: the validator the service runs, the two
// database functions that repeat it position by position, and the two builders
// of serial shipping container codes (section 7.9 of the GS1 General
// Specifications for the check digit).
module Gs1CheckDigit {
  import opened Wrappers

  datatype Gs1Error = InvalidInput

  /******* Digits *******/

  predicate IsDigit(c: char) {
    '0' <= c <= '9'
  }

  // The two services' pattern for a number: one digit or more and nothing else.
  predicate IsNumber(s: string) {
    s != "" && AllDigits(s)
  }

  predicate AllDigits(s: string) {
    forall i :: 0 <= i < |s| ==> IsDigit(s[i])
  }

  function DigitOf(c: char): nat
    requires IsDigit(c)
  {
    c as int - '0' as int
  }

  function DigitChar(d: nat): (c: char)
    requires d < 10
    ensures IsDigit(c) && DigitOf(c) == d
  {
    (d + '0' as int) as char
  }

  /******* The weighted sum *******/

  // Weights 3 and 1 alternate from the right; triple says which is rightmost.
  function Sum(s: string, triple: bool): nat
    requires AllDigits(s)
    decreases |s|
  {
    if s == "" then 0
    else var last := DigitOf(s[|s| - 1]);
         Sum(s[..|s| - 1], !triple) + if triple then 3 * last else last
  }

  // The standard's rule: with its check digit in place the sum is a multiple of ten.
  predicate Balanced(s: string)
    requires AllDigits(s)
  {
    Sum(s, false) % 10 == 0
  }

  // The digit that balances the data in front of it.
  function CheckDigit(data: string): nat
    requires AllDigits(data)
  {
    (10 - Sum(data, true) % 10) % 10
  }

  lemma CheckDigitBalances(data: string, c: char)
    requires AllDigits(data) && IsDigit(c)
    ensures AllDigits(data + [c])
    ensures Balanced(data + [c]) <==> DigitOf(c) == CheckDigit(data)
  {
    assert (data + [c])[..|data|] == data;
  }

  /******* The service's validator *******/

  function Digits(s: string): (d: seq<nat>)
    requires AllDigits(s)
    ensures |d| == |s|
  {
    seq(|s|, i requires 0 <= i < |s| => DigitOf(s[i]))
  }

  function Reversed(d: seq<nat>): (r: seq<nat>)
    ensures |r| == |d|
  {
    if d == [] then [] else [d[|d| - 1]] + Reversed(d[..|d| - 1])
  }

  function Reduce(d: seq<nat>, index: nat, total: nat): nat
    decreases |d|
  {
    if d == [] then total
    else Reduce(d[1..], index + 1, total + d[0] * (if index % 2 == 0 then 3 else 1))
  }

  function WeightedSum(s: string): nat
    requires AllDigits(s)
  {
    Reduce(Reversed(Digits(s)), 0, 0)
  }

  predicate IsValidGs1Mod10(text: string, allowedLengths: set<nat>) {
    && |text| in allowedLengths
    && IsNumber(text)
    && (10 - WeightedSum(text[..|text| - 1]) % 10) % 10 == DigitOf(text[|text| - 1])
  }

  const GTIN_LENGTHS: set<nat> := {8, 12, 13, 14}
  const SSCC_LENGTHS: set<nat> := {18}

  predicate IsValidGtin(text: string) {
    IsValidGs1Mod10(text, GTIN_LENGTHS)
  }

  predicate IsValidSscc(text: string) {
    IsValidGs1Mod10(text, SSCC_LENGTHS)
  }

  lemma {:induction false} ReduceIsSum(s: string, index: nat, total: nat)
    requires AllDigits(s)
    ensures Reduce(Reversed(Digits(s)), index, total) == total + Sum(s, index % 2 == 0)
    decreases |s|
  {
    if s != "" {
      var n := |s| - 1;
      var d := Digits(s);
      assert d[..n] == Digits(s[..n]);
      assert Reversed(d)[1..] == Reversed(d[..n]);
      ReduceIsSum(s[..n], index + 1, total + d[n] * (if index % 2 == 0 then 3 else 1));
    }
  }

  // The reversed-index sum accepts exactly the balanced numbers.
  lemma ValidIsBalanced(text: string, allowedLengths: set<nat>)
    ensures IsValidGs1Mod10(text, allowedLengths) <==> |text| in allowedLengths && IsNumber(text) && Balanced(text)
  {
    if IsNumber(text) {
      var data := text[..|text| - 1];
      ReduceIsSum(data, 0, 0);
      CheckDigitBalances(data, text[|text| - 1]);
      assert data + [text[|text| - 1]] == text;
    }
  }

  /******* The database functions *******/

  lemma SumOfPrefix(s: string, n: nat, triple: bool)
    requires AllDigits(s) && 0 < n <= |s|
    ensures Sum(s[..n], triple) == Sum(s[..n - 1], !triple) + DigitOf(s[n - 1]) * (if triple then 3 else 1)
  {
    assert s[..n][..n - 1] == s[..n - 1];
  }

  // gs1_mod10_valid walks the positions from the left and picks the weight by
  // the distance to the end.
  method Gs1Mod10Valid(value: string, allowedLengths: set<nat>) returns (valid: bool)
    ensures valid == IsValidGs1Mod10(value, allowedLengths)
  {
    if !IsNumber(value) || |value| !in allowedLengths { return false; }
    var dataLength := |value| - 1;
    var total := 0;
    var position := 1;
    assert Sum("", true) == Sum("", false) == 0;
    assert value[..0] == "";
    hide Sum;
    while position <= dataLength
      invariant 1 <= position <= dataLength + 1
      invariant total == Sum(value[..position - 1], (dataLength - (position - 1)) % 2 == 0)
    {
      var digit := DigitOf(value[position - 1]);
      SumOfPrefix(value, position, (dataLength - position) % 2 == 0);
      total := total + digit * (if (dataLength - position) % 2 == 0 then 3 else 1);
      position := position + 1;
    }
    ReduceIsSum(value[..dataLength], 0, 0);
    valid := (10 - total % 10) % 10 == DigitOf(value[|value| - 1]);
  }

  // gs1_mod10_check_digit, which raises on anything but digits.
  method Gs1Mod10CheckDigit(value: string) returns (r: Result<nat, Gs1Error>)
    ensures r.Success? <==> IsNumber(value)
    ensures r.Success? ==> r.value < 10 && Balanced(value + [DigitChar(r.value)])
    ensures r.Success? ==> r.value == CheckDigit(value)
  {
    if !IsNumber(value) { return Failure(InvalidInput); }
    var dataLength := |value|;
    var total := 0;
    var position := 1;
    assert Sum("", true) == Sum("", false) == 0;
    assert value[..0] == "";
    hide Sum;
    while position <= dataLength
      invariant 1 <= position <= dataLength + 1
      invariant total == Sum(value[..position - 1], (dataLength - (position - 1)) % 2 == 0)
    {
      var digit := DigitOf(value[position - 1]);
      SumOfPrefix(value, position, (dataLength - position) % 2 == 0);
      total := total + digit * (if (dataLength - position) % 2 == 0 then 3 else 1);
      position := position + 1;
    }
    assert value[..dataLength] == value;
    var check := (10 - total % 10) % 10;
    CheckDigitBalances(value, DigitChar(check));
    r := Success(check);
  }

  /******* What the check digit detects *******/

  predicate Tripled(n: nat, k: nat, triple: bool)
    requires k < n
  {
    ((n - 1 - k) % 2 == 0) == triple
  }

  lemma {:induction false} SumOfChange(s: string, k: nat, c: char, triple: bool)
    requires AllDigits(s) && k < |s| && IsDigit(c)
    ensures AllDigits(s[k := c])
    ensures Sum(s[k := c], triple) - Sum(s, triple)
         == (if Tripled(|s|, k, triple) then 3 else 1) * (DigitOf(c) - DigitOf(s[k]))
    decreases |s|
  {
    var n := |s| - 1;
    if k == n {
      assert s[k := c][..n] == s[..n];
    } else {
      assert s[k := c][..n] == s[..n][k := c];
      SumOfChange(s[..n], k, c, !triple);
    }
  }

  // Neither weight carries one digit into another modulo ten.
  lemma WeightsKeepDigitsApart(sum: int, weight: int, a: nat, b: nat)
    requires sum % 10 == 0 && (weight == 1 || weight == 3) && a < 10 && b < 10
    ensures (sum + weight * (a - b)) % 10 == 0 <==> a == b
  {
  }

  // Every change of a single digit is detected.
  lemma ChangedDigitIsDetected(text: string, allowedLengths: set<nat>, k: nat, c: char)
    requires IsValidGs1Mod10(text, allowedLengths) && k < |text|
    ensures IsValidGs1Mod10(text[k := c], allowedLengths) <==> c == text[k]
  {
    hide Sum, IsValidGs1Mod10;
    ValidIsBalanced(text, allowedLengths);
    ValidIsBalanced(text[k := c], allowedLengths);
    if c == text[k] {
      assert text[k := c] == text;
    } else if IsDigit(c) {
      SumOfChange(text, k, c, false);
      WeightsKeepDigitsApart(Sum(text, false), if Tripled(|text|, k, false) then 3 else 1, DigitOf(c), DigitOf(text[k]));
    } else {
      assert text[k := c][k] == c;
    }
  }

  // Of two neighbours exchanged, only equal digits and digits five apart pass.
  lemma ExchangedDigits(text: string, allowedLengths: set<nat>, k: nat)
    requires IsValidGs1Mod10(text, allowedLengths) && k + 1 < |text|
    ensures IsValidGs1Mod10(text[k := text[k + 1]][k + 1 := text[k]], allowedLengths)
       <==> (DigitOf(text[k]) - DigitOf(text[k + 1])) % 5 == 0
  {
    hide Sum, IsValidGs1Mod10;
    ValidIsBalanced(text, allowedLengths);
    ValidIsBalanced(text[k := text[k + 1]][k + 1 := text[k]], allowedLengths);
    SumOfExchange(text, k);
    FivesApart(Sum(text, false), DigitOf(text[k]), DigitOf(text[k + 1]));
  }

  lemma FivesApart(sum: int, a: nat, b: nat)
    requires sum % 10 == 0
    ensures (sum + 2 * (b - a)) % 10 == 0 <==> (a - b) % 5 == 0
    ensures (sum + 2 * (a - b)) % 10 == 0 <==> (a - b) % 5 == 0
  {
  }

  lemma SumOfExchange(s: string, k: nat)
    requires AllDigits(s) && k + 1 < |s|
    ensures var a, b := DigitOf(s[k]), DigitOf(s[k + 1]);
      Sum(s[k := s[k + 1]][k + 1 := s[k]], false) == Sum(s, false) + if Tripled(|s|, k, false) then 2 * (b - a) else 2 * (a - b)
  {
    hide Sum;
    SumOfChange(s, k, s[k + 1], false);
    SumOfChange(s[k := s[k + 1]], k + 1, s[k], false);
  }

  /******* Decimal numbers *******/

  function ToString(n: nat): (s: string)
    ensures IsNumber(s)
  {
    if n < 10 then [DigitChar(n)] else ToString(n / 10) + [DigitChar(n % 10)]
  }

  function ValueOf(s: string): nat
    requires AllDigits(s)
    decreases |s|
  {
    if s == "" then 0 else 10 * ValueOf(s[..|s| - 1]) + DigitOf(s[|s| - 1])
  }

  function Zeros(n: nat): (s: string)
    ensures |s| == n && AllDigits(s)
    ensures forall i :: 0 <= i < n ==> s[i] == '0'
  {
    seq(n, _ => '0')
  }

  // padStart(width, "0"), and lpad for a text that is not too long.
  function PadStart(s: string, width: nat): string {
    if |s| < width then Zeros(width - |s|) + s else s
  }

  function Pow10(n: nat): (p: nat)
    ensures p > 0
  {
    if n == 0 then 1 else 10 * Pow10(n - 1)
  }

  lemma {:induction false} ValueOfToString(n: nat)
    ensures ValueOf(ToString(n)) == n
  {
    if n >= 10 {
      ValueOfToString(n / 10);
      assert ToString(n)[..|ToString(n)| - 1] == ToString(n / 10);
    }
  }

  lemma {:induction false} ValueOfZerosBefore(n: nat, s: string)
    requires AllDigits(s)
    ensures AllDigits(Zeros(n) + s) && ValueOf(Zeros(n) + s) == ValueOf(s)
    decreases n + |s|
  {
    var t := Zeros(n) + s;
    if s != "" {
      assert t[..|t| - 1] == Zeros(n) + s[..|s| - 1];
      ValueOfZerosBefore(n, s[..|s| - 1]);
    } else if n > 0 {
      assert t[..|t| - 1] == Zeros(n - 1) + "";
      ValueOfZerosBefore(n - 1, s);
    }
  }

  lemma PaddedNumber(n: nat, width: nat)
    ensures AllDigits(PadStart(ToString(n), width)) && ValueOf(PadStart(ToString(n), width)) == n
  {
    ValueOfToString(n);
    if |ToString(n)| < width { ValueOfZerosBefore(width - |ToString(n)|, ToString(n)); }
  }

  // The length test of one builder is the capacity test of the other.
  lemma {:induction false} DecimalLength(n: nat, width: nat)
    requires width > 0
    ensures |ToString(n)| <= width <==> n < Pow10(width)
    decreases n
  {
    if n >= 10 {
      if width == 1 {
        assert Pow10(1) == 10;
      } else {
        DecimalLength(n / 10, width - 1);
      }
    } else {
      assert Pow10(width) >= 10;
    }
  }

  /******* Serial shipping container codes *******/

  function SsccCapacity(companyPrefix: string): Result<nat, Gs1Error> {
    if IsNumber(companyPrefix) && 4 <= |companyPrefix| <= 12 then Success(Pow10(16 - |companyPrefix|))
    else Failure(InvalidInput)
  }

  function SsccBody(companyPrefix: string, extensionDigit: nat, reference: nat): string
    requires extensionDigit < 10 && |companyPrefix| <= 16
  {
    [DigitChar(extensionDigit)] + companyPrefix + PadStart(ToString(reference), 16 - |companyPrefix|)
  }

  function BuildSscc(companyPrefix: string, extensionDigit: int, reference: int): Result<string, Gs1Error> {
    var capacity := SsccCapacity(companyPrefix);
    if capacity.Failure? then Failure(InvalidInput) else
    if extensionDigit < 0 || extensionDigit > 9 || reference < 0 || reference >= capacity.value then Failure(InvalidInput)
    else
      PaddedNumber(reference, 16 - |companyPrefix|);
      var body := SsccBody(companyPrefix, extensionDigit, reference);
      Success(body + [DigitChar((10 - WeightedSum(body) % 10) % 10)])
  }

  lemma ToStringOfDigit(d: nat)
    requires d < 10
    ensures ToString(d) == [DigitChar(d)]
  {
  }

  // gs1_sscc: succeeds on the same inputs with the same key.
  method Gs1Sscc(companyPrefix: string, extensionDigit: int, reference: int) returns (r: Result<string, Gs1Error>)
    ensures r == BuildSscc(companyPrefix, extensionDigit, reference)
  {
    hide Sum, ToString, Pow10, ValueOf, PadStart, Balanced, Reduce;
    if !IsNumber(companyPrefix) || !(4 <= |companyPrefix| <= 12) || !(0 <= extensionDigit <= 9) || reference < 0 {
      return Failure(InvalidInput);
    }
    var width := 16 - |companyPrefix|;
    DecimalLength(reference, width);
    if |ToString(reference)| > width { return Failure(InvalidInput); }
    PaddedNumber(reference, width);
    var body := SsccBody(companyPrefix, extensionDigit, reference);
    var check := Gs1Mod10CheckDigit(body);
    ReduceIsSum(body, 0, 0);
    ToStringOfDigit(check.value);
    r := Success(body + ToString(check.value));
  }

  // A built key is its body and the digit that balances it.
  lemma BuiltSsccParts(companyPrefix: string, extensionDigit: int, reference: int)
    requires BuildSscc(companyPrefix, extensionDigit, reference).Success?
    ensures reference >= 0 && |companyPrefix| <= 16
    ensures var sscc := BuildSscc(companyPrefix, extensionDigit, reference).value;
      && |sscc| == 18 && IsDigit(sscc[0]) && DigitOf(sscc[0]) == extensionDigit
      && sscc[1..1 + |companyPrefix|] == companyPrefix
      && sscc[1 + |companyPrefix|..17] == PadStart(ToString(reference), 16 - |companyPrefix|)
      && AllDigits(sscc[..17]) && sscc[17] == DigitChar((10 - WeightedSum(sscc[..17]) % 10) % 10)
  {
    hide WeightedSum, ToString, Pow10, IsValidSscc;
    var width := 16 - |companyPrefix|;
    var body := SsccBody(companyPrefix, extensionDigit, reference);
    PaddedNumber(reference, width);
    DecimalLength(reference, width);
    assert BuildSscc(companyPrefix, extensionDigit, reference).value[..17] == body;
  }

  // A key that was built has 18 digits, carries its parts in place and is valid.
  lemma BuiltSsccIsValid(companyPrefix: string, extensionDigit: int, reference: int)
    requires BuildSscc(companyPrefix, extensionDigit, reference).Success?
    ensures var sscc := BuildSscc(companyPrefix, extensionDigit, reference).value;
      && IsValidSscc(sscc)
      && DigitOf(sscc[0]) == extensionDigit
      && sscc[1..1 + |companyPrefix|] == companyPrefix
      && ValueOf(sscc[1 + |companyPrefix|..17]) == reference
  {
    hide Sum, ValueOf, ToString, Pow10, PadStart, BuildSscc, IsValidGs1Mod10, SsccCapacity;
    var sscc := BuildSscc(companyPrefix, extensionDigit, reference).value;
    BuiltSsccParts(companyPrefix, extensionDigit, reference);
    PaddedNumber(reference, 16 - |companyPrefix|);
    ReduceIsSum(sscc[..17], 0, 0);
    CheckDigitBalances(sscc[..17], sscc[17]);
    assert sscc[..17] + [sscc[17]] == sscc;
    ValidIsBalanced(sscc, SSCC_LENGTHS);
  }

  // Different allocations never share a key.
  lemma SsccIsInjective(p: string, e: int, n: int, q: string, f: int, m: int)
    requires BuildSscc(p, e, n).Success? && BuildSscc(q, f, m) == BuildSscc(p, e, n)
    requires |p| == |q|
    ensures p == q && e == f && n == m
  {
    BuiltSsccIsValid(p, e, n);
    BuiltSsccIsValid(q, f, m);
  }

  // A reference is accepted exactly below the capacity of a well-formed prefix.
  lemma SsccAccepted(companyPrefix: string, extensionDigit: int, reference: int)
    ensures BuildSscc(companyPrefix, extensionDigit, reference).Success? <==>
      && IsNumber(companyPrefix) && 4 <= |companyPrefix| <= 12
      && 0 <= extensionDigit <= 9
      && 0 <= reference && |ToString(reference)| <= 16 - |companyPrefix|
  {
    if reference >= 0 && 4 <= |companyPrefix| <= 12 {
      DecimalLength(reference, 16 - |companyPrefix|);
    }
  }

  /******* Fourteen-digit GTINs *******/

  function GtinForDigitalLink(value: string): Result<string, Gs1Error> {
    if IsValidGtin(value) then Success(PadStart(value, 14)) else Failure(InvalidInput)
  }

  lemma {:induction false} SumOfZerosBefore(n: nat, s: string, triple: bool)
    requires AllDigits(s)
    ensures AllDigits(Zeros(n) + s) && Sum(Zeros(n) + s, triple) == Sum(s, triple)
    decreases n + |s|
  {
    var t := Zeros(n) + s;
    if s != "" {
      assert t[..|t| - 1] == Zeros(n) + s[..|s| - 1];
      SumOfZerosBefore(n, s[..|s| - 1], !triple);
    } else if n > 0 {
      assert t[..|t| - 1] == Zeros(n - 1) + "";
      SumOfZerosBefore(n - 1, s, !triple);
    }
  }

  // Padding keeps the number and its validity.
  lemma PaddedGtinIsValid(value: string)
    requires IsValidGtin(value)
    ensures var gtin := PadStart(value, 14);
      |gtin| == 14 && IsValidGtin(gtin) && ValueOf(gtin) == ValueOf(value)
  {
    var gtin := PadStart(value, 14);
    ValidIsBalanced(value, GTIN_LENGTHS);
    ValidIsBalanced(gtin, GTIN_LENGTHS);
    if |value| < 14 {
      SumOfZerosBefore(14 - |value|, value, false);
      ValueOfZerosBefore(14 - |value|, value);
    }
  }

  // A text is a GTIN when it has 8, 12, 13 or 14 digits and balances.
  lemma GtinIsValid(value: string)
    ensures IsValidGtin(value) <==>
      && (|value| == 8 || |value| == 12 || |value| == 13 || |value| == 14)
      && IsNumber(value) && Balanced(value)
  {
    hide Sum;
    ValidIsBalanced(value, GTIN_LENGTHS);
  }

  lemma SsccIsValid(value: string)
    ensures IsValidSscc(value) <==> |value| == 18 && IsNumber(value) && Balanced(value)
  {
    hide Sum;
    ValidIsBalanced(value, SSCC_LENGTHS);
  }

  // Digits of one length and value are the same.
  lemma {:induction false} ValueIsText(s: string, t: string)
    requires AllDigits(s) && AllDigits(t) && |s| == |t| && ValueOf(s) == ValueOf(t)
    ensures s == t
    decreases |s|
  {
    if s != "" {
      var n := |s| - 1;
      ValueIsText(s[..n], t[..n]);
      assert s == s[..n] + [s[n]] && t == t[..n] + [t[n]];
    }
  }

  // Two products with the same number, or neither with one.
  predicate SameGtin(a: string, b: string) {
    if IsValidGtin(a) then IsValidGtin(b) && ValueOf(a) == ValueOf(b) else !IsValidGtin(b)
  }

  lemma SameGtinSameKey(a: string, b: string)
    ensures SameGtin(a, b) <==> GtinForDigitalLink(a) == GtinForDigitalLink(b)
  {
    hide GtinForDigitalLink, ValueOf;
    LinkGtinIsSameNumber(a);
    LinkGtinIsSameNumber(b);
    if !IsValidGtin(a) { InvalidHasNoKey(a); }
    if !IsValidGtin(b) { InvalidHasNoKey(b); }
    if IsValidGtin(a) && IsValidGtin(b) && ValueOf(a) == ValueOf(b) {
      ValueIsText(GtinForDigitalLink(a).value, GtinForDigitalLink(b).value);
    }
  }

  lemma InvalidHasNoKey(value: string)
    requires !IsValidGtin(value)
    ensures GtinForDigitalLink(value) == Failure(InvalidInput)
  {
  }

  // The key in a code is the same number in 14 digits, for valid GTINs only.
  lemma LinkGtinIsSameNumber(value: string)
    ensures GtinForDigitalLink(value).Success? <==> IsValidGtin(value)
    ensures GtinForDigitalLink(value).Success? ==>
      var gtin := GtinForDigitalLink(value).value;
      |gtin| == 14 && IsValidGtin(gtin) && ValueOf(gtin) == ValueOf(value)
  {
    hide Sum, ValueOf, Zeros;
    if IsValidGtin(value) { PaddedGtinIsValid(value); }
  }
}
