/** Decimal text and raw amounts (`program/src/lib.rs`). */
module UiAmount {
  import opened Base

  function Pow10(n: nat): (p: nat)
    ensures p > 0
  {
    if n == 0 then 1 else 10 * Pow10(n - 1)
  }

  predicate IsDigit(c: char) {
    '0' <= c <= '9'
  }

  predicate AllDigits(s: string) {
    forall i | 0 <= i < |s| :: IsDigit(s[i])
  }

  function DigitValue(c: char): (d: nat)
    requires IsDigit(c)
    ensures d <= 9
  {
    c as int - '0' as int
  }

  /** The number a string of digits stands for. */
  function ValueOf(s: string): nat
    requires AllDigits(s)
  {
    if s == "" then 0 else 10 * ValueOf(s[..|s| - 1]) + DigitValue(s[|s| - 1])
  }

  /** `u64::to_string`. */
  function Decimal(n: nat): (s: string)
    ensures |s| >= 1 && AllDigits(s)
  {
    var last := [(n % 10 + '0' as int) as char];
    if n < 10 then last else Decimal(n / 10) + last
  }

  function Zeros(n: nat): (s: string)
    ensures |s| == n && forall i | 0 <= i < n :: s[i] == '0'
  {
    seq(n, _ => '0')
  }

  /** `format!("{:01$}", n, width)`. */
  function Padded(n: nat, width: nat): (s: string)
    ensures |s| >= width && AllDigits(s)
  {
    var s := Decimal(n);
    if |s| < width then Zeros(width - |s|) + s else s
  }

  /** `str::trim_end_matches`. */
  function TrimEnd(s: string, c: char): (t: string)
    ensures t <= s && (t != "" ==> t[|t| - 1] != c)
    ensures forall i | |t| <= i < |s| :: s[i] == c
  {
    if s == "" || s[|s| - 1] != c then s else TrimEnd(s[..|s| - 1], c)
  }

  function FirstDot(s: string): (i: nat)
    ensures i <= |s| && '.' !in s[..i] && (i < |s| ==> s[i] == '.')
  {
    if s == "" || s[0] == '.' then 0
    else
      var i := FirstDot(s[1..]);
      assert s[..1 + i] == [s[0]] + s[1..][..i];
      1 + i
  }

  /** `str::split('.')`: always at least one part. */
  function Split(s: string): (parts: seq<string>)
    ensures parts != []
    decreases |s|
  {
    var i := FirstDot(s);
    if i == |s| then [s] else [s[..i]] + Split(s[i + 1..])
  }

  /** `str::parse::<u64>`, which lets a number start with a plus sign. */
  function ParseU64(s: string): Result<u64> {
    var digits := if |s| > 1 && s[0] == '+' then s[1..] else s;
    if digits == "" || !AllDigits(digits) || ValueOf(digits) > U64_MAX then Err(InvalidArgument) else Ok(ValueOf(digits))
  }

  // ---------------------------------------------------------------- the conversions

  /** `amount_to_ui_amount_string`: padded to leave an integer digit, then the point
      is inserted. The text is the one full text of the amount and parses back to it. */
  method AmountToUiAmountString(amount: u64, decimals: u8) returns (s: string)
    ensures s == UiText(amount, decimals)
    ensures IsFullText(s, amount, decimals)
    ensures Parse(s, decimals) == Ok(amount)
  {
    if decimals > 0 {
      s := Padded(amount, decimals + 1);
      s := s[..|s| - decimals] + "." + s[|s| - decimals..];
    } else {
      s := Decimal(amount);
    }
    TextIsFull(s, amount, decimals);
    TextParsesBack(amount, decimals);
  }

  function UiText(amount: nat, decimals: nat): string {
    if decimals == 0 then Decimal(amount)
    else
      var s := Padded(amount, decimals + 1);
      s[..|s| - decimals] + "." + s[|s| - decimals..]
  }

  /** `trim_ui_amount_string`: a numeral keeps its amount exactly when it has a point or
      does not end in zero. */
  method TrimUiAmountString(text: string, decimals: u8) returns (s: string)
    ensures s == Trimmed(text, decimals)
    ensures s <= text && (decimals > 0 && s != "" ==> s[|s| - 1] != '.')
    ensures decimals > 0 && IsNumeral(text) ==> (SameAmounts(text, s, decimals) <==> '.' in text || text[|text| - 1] != '0')
  {
    if decimals > 0 && IsNumeral(text) {
      TrimKeepsAmount(text, decimals);
    }
    s := text;
    if decimals > 0 {
      s := TrimEnd(s, '0');
      s := TrimEnd(s, '.');
    }
  }

  function Trimmed(s: string, decimals: nat): string {
    if decimals > 0 then TrimEnd(TrimEnd(s, '0'), '.') else s
  }

  /** `amount_to_ui_amount_string_trimmed`: the one shortest text of the amount, which
      parses back to it too. */
  method AmountToUiAmountStringTrimmed(amount: u64, decimals: u8) returns (s: string)
    ensures s == Trimmed(UiText(amount, decimals), decimals)
    ensures IsShortText(s, amount, decimals)
    ensures Parse(s, decimals) == Ok(amount)
  {
    s := AmountToUiAmountString(amount, decimals);
    s := TrimUiAmountString(s, decimals);
    TrimmedTextIsShort(s, amount, decimals);
    TrimmedTextParsesBack(amount, decimals);
  }

  /** The padding loop of `try_ui_amount_into_amount`. */
  method PushZeros(s: string, n: nat) returns (r: string)
    ensures r == s + Zeros(n)
  {
    r := s;
    for i := 0 to n
      invariant r == s + Zeros(i)
    {
      r := r + "0";
      assert Zeros(i) + "0" == Zeros(i + 1);
    }
  }

  /** `try_ui_amount_into_amount`. */
  method TryUiAmountIntoAmount(uiAmount: string, decimals: u8) returns (r: Result<u64>)
    ensures r == Parse(uiAmount, decimals)
  {
    var parts := Split(uiAmount);
    var amountStr := parts[0];
    var afterDecimal := if |parts| > 1 then parts[1] else "";
    afterDecimal := TrimEnd(afterDecimal, '0');
    if (amountStr == "" && afterDecimal == "") || |parts| > 2 || |afterDecimal| > decimals {
      return Err(InvalidArgument);
    }
    amountStr := amountStr + afterDecimal;
    amountStr := PushZeros(amountStr, decimals - |afterDecimal|);
    r := ParseU64(amountStr);
  }

  /** Integer and fraction of a text, as far as the second point. */
  function Whole(s: string): string {
    Split(s)[0]
  }

  function Fraction(s: string): string {
    if |Split(s)| > 1 then Split(s)[1] else ""
  }

  function Parse(s: string, decimals: nat): Result<u64> {
    var after := TrimEnd(Fraction(s), '0');
    if (Whole(s) == "" && after == "") || |Split(s)| > 2 || |after| > decimals then Err(InvalidArgument)
    else ParseU64(Whole(s) + after + Zeros(decimals - |after|))
  }

  // ---------------------------------------------------------------- what the text means

  /** A decimal numeral: digits with at most one point, and either an integer part or a
      fraction that is not zero. */
  predicate IsNumeral(s: string) {
    && |Split(s)| <= 2
    && AllDigits(Whole(s)) && AllDigits(Fraction(s))
    && (Whole(s) != "" || exists i | 0 <= i < |Fraction(s)| :: Fraction(s)[i] != '0')
  }

  /** The numeral's value times ten to the `decimals` is exactly `a`: multiplied out,
      its digits as one number over ten to the length of its fraction. */
  predicate IsAmountOf(s: string, decimals: nat, a: nat)
    requires IsNumeral(s)
  {
    ValueOf(Whole(s) + Fraction(s)) * Pow10(decimals) == a * Pow10(|Fraction(s)|)
  }

  /** The integer part has a digit, and starts with zero only if that is all of it. */
  predicate IsPlainInteger(w: string) {
    w != "" && (|w| > 1 ==> w[0] != '0')
  }

  /** The text shows exactly the amount, with a plain integer part. */
  predicate ShowsPlainly(s: string, amount: nat, decimals: nat) {
    IsNumeral(s) && IsAmountOf(s, decimals, amount) && IsPlainInteger(Whole(s))
  }

  /** Every decimal place is written out, and no point without places. */
  predicate IsFullText(s: string, amount: nat, decimals: nat) {
    ShowsPlainly(s, amount, decimals) && |Fraction(s)| == decimals && ('.' in s <==> decimals > 0)
  }

  /** No zero ends the fraction, and no point the text. */
  predicate IsShortText(s: string, amount: nat, decimals: nat) {
    && ShowsPlainly(s, amount, decimals)
    && (Fraction(s) != "" ==> Fraction(s)[|Fraction(s)| - 1] != '0')
    && ('.' in s <==> Fraction(s) != "")
  }

  ghost predicate SameAmounts(s: string, t: string, decimals: nat)
    requires IsNumeral(s)
  {
    IsNumeral(t) && forall a: nat :: IsAmountOf(s, decimals, a) <==> IsAmountOf(t, decimals, a)
  }

  lemma {:induction false} Pow10Sum(m: nat, n: nat)
    ensures Pow10(m + n) == Pow10(m) * Pow10(n)
    decreases m
  {
    if m > 0 {
      Pow10Sum(m - 1, n);
      assert Pow10(m + n) == 10 * (Pow10(m - 1) * Pow10(n));
    }
  }

  lemma {:induction false} ValueOfConcat(a: string, b: string)
    requires AllDigits(a) && AllDigits(b)
    ensures AllDigits(a + b) && ValueOf(a + b) == ValueOf(a) * Pow10(|b|) + ValueOf(b)
    decreases |b|
  {
    if b == "" {
      assert a + b == a;
    } else {
      var init := b[..|b| - 1];
      ValueOfConcat(a, init);
      assert (a + b)[..|a + b| - 1] == a + init;
      assert 10 * (ValueOf(a) * Pow10(|init|)) == ValueOf(a) * Pow10(|b|);
    }
  }

  lemma {:induction false} ValueOfZeros(n: nat)
    ensures ValueOf(Zeros(n)) == 0
  {
    if n > 0 {
      assert Zeros(n)[..n - 1] == Zeros(n - 1);
      ValueOfZeros(n - 1);
    }
  }

  lemma AppendZeros(s: string, n: nat)
    requires AllDigits(s)
    ensures AllDigits(s + Zeros(n)) && ValueOf(s + Zeros(n)) == ValueOf(s) * Pow10(n)
  {
    ValueOfConcat(s, Zeros(n));
    ValueOfZeros(n);
  }

  lemma LeadingZeros(n: nat, s: string)
    requires AllDigits(s)
    ensures AllDigits(Zeros(n) + s) && ValueOf(Zeros(n) + s) == ValueOf(s)
  {
    ValueOfConcat(Zeros(n), s);
    ValueOfZeros(n);
  }

  lemma {:induction false} ValueOfDecimal(n: nat)
    ensures ValueOf(Decimal(n)) == n
  {
    if n >= 10 {
      ValueOfDecimal(n / 10);
      assert Decimal(n)[..|Decimal(n)| - 1] == Decimal(n / 10);
    }
  }

  lemma ValueOfPadded(n: nat, width: nat)
    ensures ValueOf(Padded(n, width)) == n
  {
    ValueOfDecimal(n);
    if |Decimal(n)| < width {
      LeadingZeros(width - |Decimal(n)|, Decimal(n));
    }
  }

  lemma TrimSplits(s: string)
    ensures s == TrimEnd(s, '0') + Zeros(|s| - |TrimEnd(s, '0')|)
  {
  }

  lemma CancelPow10(x: nat, y: nat, n: nat)
    ensures x * Pow10(n) == y * Pow10(n) <==> x == y
  {
    if x < y {
      assert x * Pow10(n) < y * Pow10(n);
    } else if y < x {
      assert y * Pow10(n) < x * Pow10(n);
    }
  }

  lemma Rearrange(x: nat, p: nat, q: nat)
    ensures x * p * q == x * q * p == x * (p * q)
  {
  }

  /** Digits `w`, a fraction `t` and `k` zeros after it, read with room for `t`: the value is what
      `w + t` shows once the remaining places are filled with zeros. */
  lemma ValueWithRoom(w: string, t: string, k: nat, decimals: nat, a: nat)
    requires AllDigits(w + t) && |t| <= decimals
    ensures ValueOf(w + t + Zeros(k)) * Pow10(decimals) == a * Pow10(|t| + k)
            <==> a == ValueOf(w + t + Zeros(decimals - |t|))
  {
    var v, e := ValueOf(w + t), decimals - |t|;
    AppendZeros(w + t, k);
    AppendZeros(w + t, e);
    Pow10Sum(e, |t|);
    Pow10Sum(|t|, k);
    var unit := Pow10(|t|) * Pow10(k);
    assert v * Pow10(k) * Pow10(decimals) == v * Pow10(e) * unit by {
      Rearrange(v, Pow10(k), Pow10(decimals));
      Rearrange(v * Pow10(e), Pow10(|t|), Pow10(k));
      Rearrange(v, Pow10(e), Pow10(|t|));
    }
    CancelPow10(v * Pow10(e), a, |t| + k);
  }

  lemma CancelPlaces(v: nat, a: nat, length: nat, k: nat, decimals: nat)
    requires length >= decimals
    ensures v * Pow10(k) * Pow10(decimals) == a * Pow10(length + k) <==> v == a * Pow10(length - decimals)
  {
    var e, unit := length - decimals, Pow10(k + decimals);
    assert v * Pow10(k) * Pow10(decimals) == v * unit by {
      Pow10Sum(k, decimals);
      Rearrange(v, Pow10(k), Pow10(decimals));
    }
    assert a * Pow10(length + k) == (a * Pow10(e)) * unit by {
      Pow10Sum(e, k + decimals);
      Rearrange(a, Pow10(e), unit);
    }
    CancelPow10(v, a * Pow10(e), k + decimals);
  }

  lemma LastDigit(s: string)
    requires AllDigits(s) && s != "" && s[|s| - 1] != '0'
    ensures ValueOf(s) % 10 != 0
  {
    TensAndOnes(ValueOf(s[..|s| - 1]), DigitValue(s[|s| - 1]));
  }

  lemma TensAndOnes(tens: nat, ones: nat)
    requires ones <= 9
    ensures (10 * tens + ones) % 10 == ones
  {
  }

  lemma MultipleOfTen(a: nat, e: nat)
    requires e > 0
    ensures a * Pow10(e) % 10 == 0
  {
    assert a * Pow10(e) == 10 * (a * Pow10(e - 1));
  }

  /** Without room for a fraction that does not end in zero, no amount is exact. */
  lemma NoRoomNoAmount(w: string, t: string, k: nat, decimals: nat, a: nat)
    requires AllDigits(w + t) && |t| > decimals && t[|t| - 1] != '0'
    ensures ValueOf(w + t + Zeros(k)) * Pow10(decimals) != a * Pow10(|t| + k)
  {
    AppendZeros(w + t, k);
    CancelPlaces(ValueOf(w + t), a, |t|, k, decimals);
    LastDigit(w + t);
    MultipleOfTen(a, |t| - decimals);
  }

  lemma NoPlus(s: string)
    requires '+' !in s
    ensures '+' !in Whole(s) && '+' !in Fraction(s)
  {
    var i := FirstDot(s);
    if i < |s| {
      assert Split(s)[1..] == Split(s[i + 1..]);
    }
  }

  lemma AllZerosTrimAway(s: string)
    ensures TrimEnd(s, '0') == "" <==> forall i | 0 <= i < |s| :: s[i] == '0'
  {
  }

  lemma DigitsOfParts(w: string, t: string, zeros: nat)
    ensures AllDigits(w + t + Zeros(zeros)) <==> AllDigits(w) && AllDigits(t)
  {
    var s := w + t + Zeros(zeros);
    if AllDigits(s) {
      assert forall i | 0 <= i < |w| :: s[i] == w[i];
      assert forall i | 0 <= i < |t| :: s[|w| + i] == t[i];
    }
  }

  lemma RoomyNumeralParses(w: string, t: string, k: nat, decimals: nat, a: u64)
    requires AllDigits(w + t) && |t| <= decimals && (w != "" || t != "")
    ensures ParseU64(w + t + Zeros(decimals - |t|)) == Ok(a) <==>
            ValueOf(w + t + Zeros(k)) * Pow10(decimals) == a * Pow10(|t| + k)
  {
    ValueWithRoom(w, t, k, decimals, a);
    NoPlusAtStart(w + t + Zeros(decimals - |t|));
  }

  lemma NumeralParsesExactly(s: string, decimals: nat, a: u64)
    requires IsNumeral(s)
    ensures Parse(s, decimals) == Ok(a) <==> IsAmountOf(s, decimals, a)
  {
    var w, t := Whole(s), TrimEnd(Fraction(s), '0');
    TrimSplits(Fraction(s));
    NumeralByParts(s);
    var k := |Fraction(s)| - |t|;
    assert w + Fraction(s) == w + t + Zeros(k);
    assert AllDigits(w + t);
    if |t| <= decimals {
      RoomyNumeralParses(w, t, k, decimals, a);
    } else {
      NoRoomNoAmount(w, t, k, decimals, a);
    }
  }

  lemma NumeralByParts(s: string)
    ensures var t := TrimEnd(Fraction(s), '0');
            IsNumeral(s) <==> |Split(s)| <= 2 && (Whole(s) != "" || t != "") && AllDigits(Whole(s)) && AllDigits(t)
  {
    AllZerosTrimAway(Fraction(s));
    TrimSplits(Fraction(s));
    var t := TrimEnd(Fraction(s), '0');
    DigitsOfParts(t, "", |Fraction(s)| - |t|);
    assert t + "" + Zeros(|Fraction(s)| - |t|) == Fraction(s);
  }

  lemma OnlyNumeralsParse(s: string, decimals: nat)
    requires '+' !in s && Parse(s, decimals).Ok?
    ensures IsNumeral(s)
  {
    var w, t := Whole(s), TrimEnd(Fraction(s), '0');
    NumeralByParts(s);
    NoPlus(s);
    DigitsOfParts(w, t, decimals - |t|);
    if !AllDigits(w) || !AllDigits(t) {
      NoPlusInside(w, t, decimals - |t|);
    }
  }

  /** Exact parsing: for every text without a plus sign, parsing returns `a` if and only
      if the text is a numeral whose value times ten to the `decimals` is exactly `a`. In
      particular more places than `decimals` are accepted only if they are zeros. */
  lemma ParsesExactly(s: string, decimals: nat, a: u64)
    requires '+' !in s
    ensures Parse(s, decimals) == Ok(a) <==> IsNumeral(s) && IsAmountOf(s, decimals, a)
  {
    if Parse(s, decimals).Ok? {
      OnlyNumeralsParse(s, decimals);
    }
    if IsNumeral(s) {
      NumeralParsesExactly(s, decimals, a);
    }
  }

  lemma NoPlusAtStart(s: string)
    requires s != "" && AllDigits(s)
    ensures ParseU64(s) == if ValueOf(s) > U64_MAX then Err(InvalidArgument) else Ok(ValueOf(s))
  {
    assert IsDigit(s[0]);
  }

  lemma NoPlusInside(w: string, t: string, zeros: nat)
    requires '+' !in w && '+' !in t && !AllDigits(w + t + Zeros(zeros))
    ensures ParseU64(w + t + Zeros(zeros)).Err?
  {
    assert '+' !in w + t + Zeros(zeros);
  }

  // ---------------------------------------------------------------- round trips

  lemma {:induction false} SplitAtDot(w: string, f: string)
    requires '.' !in w && '.' !in f
    ensures Split(w + "." + f) == [w, f] && Split(w) == [w]
  {
    NoDot(w);
    NoDot(f);
    DotAfter(w, f);
    assert (w + "." + f)[..|w|] == w;
    assert (w + "." + f)[|w| + 1..] == f;
  }

  lemma NoDot(s: string)
    requires '.' !in s
    ensures FirstDot(s) == |s|
  {
  }

  lemma {:induction false} DotAfter(w: string, f: string)
    requires '.' !in w
    ensures FirstDot(w + "." + f) == |w|
    decreases |w|
  {
    var s := w + "." + f;
    if w == "" {
      assert s[0] == '.';
    } else {
      assert s[1..] == w[1..] + "." + f;
      DotAfter(w[1..], f);
    }
  }

  lemma DigitsAreNoPunctuation(s: string)
    requires AllDigits(s)
    ensures '.' !in s && '+' !in s
  {
  }

  /** Digits `w` and `f` show the amount `a` when padded out to `decimals` places. */
  predicate Shows(w: string, f: string, decimals: nat, a: nat) {
    && AllDigits(w) && AllDigits(f) && w != "" && |f| <= decimals
    && AllDigits(w + f + Zeros(decimals - |f|)) && ValueOf(w + f + Zeros(decimals - |f|)) == a
  }

  lemma ShownAmountIsExact(w: string, f: string, decimals: nat, a: nat)
    requires Shows(w, f, decimals, a)
    ensures AllDigits(w + f) && ValueOf(w + f) * Pow10(decimals) == a * Pow10(|f|)
  {
    assert w + f + Zeros(0) == w + f;
    ValueWithRoom(w, f, 0, decimals, a);
  }

  /** An amount shown with a point parses back. */
  lemma ShownWithPointParses(w: string, f: string, decimals: nat, a: u64)
    requires Shows(w, f, decimals, a)
    ensures Parse(w + "." + f, decimals) == Ok(a)
  {
    var s := w + "." + f;
    DigitsAreNoPunctuation(w);
    DigitsAreNoPunctuation(f);
    SplitAtDot(w, f);
    ShownAmountIsExact(w, f, decimals, a);
    assert IsNumeral(s) && IsAmountOf(s, decimals, a);
    ParsesExactly(s, decimals, a);
  }

  /** So does one shown without. */
  lemma ShownWholeParses(w: string, decimals: nat, a: u64)
    requires Shows(w, "", decimals, a)
    ensures Parse(w, decimals) == Ok(a)
  {
    DigitsAreNoPunctuation(w);
    SplitAtDot(w, "");
    ShownAmountIsExact(w, "", decimals, a);
    assert IsNumeral(w) && IsAmountOf(w, decimals, a);
    ParsesExactly(w, decimals, a);
  }

  /** The two parts of a text with a point. */
  function IntegerDigits(amount: nat, decimals: nat): string {
    var s := Padded(amount, decimals + 1);
    s[..|s| - decimals]
  }

  function FractionDigits(amount: nat, decimals: nat): string {
    var s := Padded(amount, decimals + 1);
    s[|s| - decimals..]
  }

  lemma PaddedParts(amount: nat, decimals: nat)
    ensures var w, f := IntegerDigits(amount, decimals), FractionDigits(amount, decimals);
            && AllDigits(w) && AllDigits(f) && w != "" && |f| == decimals
            && AllDigits(w + f) && ValueOf(w + f) == amount
  {
    var s := Padded(amount, decimals + 1);
    assert IntegerDigits(amount, decimals) + FractionDigits(amount, decimals) == s;
    ValueOfPadded(amount, decimals + 1);
  }

  lemma DigitsShowAmount(amount: nat, decimals: nat)
    ensures Shows(IntegerDigits(amount, decimals), FractionDigits(amount, decimals), decimals, amount)
  {
    var w, f := IntegerDigits(amount, decimals), FractionDigits(amount, decimals);
    PaddedParts(amount, decimals);
    assert w + f + Zeros(0) == w + f;
  }

  lemma TrimmedDigitsShowAmount(amount: nat, decimals: nat)
    ensures Shows(IntegerDigits(amount, decimals), TrimEnd(FractionDigits(amount, decimals), '0'), decimals, amount)
  {
    var w, f := IntegerDigits(amount, decimals), FractionDigits(amount, decimals);
    var t := TrimEnd(f, '0');
    TrimSplits(f);
    PaddedParts(amount, decimals);
    assert w + t + Zeros(decimals - |t|) == w + f;
  }

  lemma PlainIntegerParses(amount: u64)
    ensures Parse(Decimal(amount), 0) == Ok(amount)
  {
    var s := Decimal(amount);
    ValueOfDecimal(amount);
    assert s + "" + Zeros(0) == s;
    ShownWholeParses(s, 0, amount);
  }

  /** The text of an amount parses back to it. */
  lemma TextParsesBack(amount: u64, decimals: u8)
    ensures Parse(UiText(amount, decimals), decimals) == Ok(amount)
  {
    if decimals == 0 {
      PlainIntegerParses(amount);
    } else {
      DigitsShowAmount(amount, decimals);
      ShownWithPointParses(IntegerDigits(amount, decimals), FractionDigits(amount, decimals), decimals, amount);
    }
  }

  lemma {:induction false} TrimTail(head: string, tail: string, c: char)
    requires head != "" && head[|head| - 1] != c
    ensures TrimEnd(head + tail, c) == head + TrimEnd(tail, c)
    decreases |tail|
  {
    if tail == "" {
      assert head + tail == head;
    } else {
      assert (head + tail)[..|head + tail| - 1] == head + tail[..|tail| - 1];
      TrimTail(head, tail[..|tail| - 1], c);
    }
  }

  /** So does the trimmed text. */
  lemma TrimmedTextParsesBack(amount: u64, decimals: u8)
    ensures Parse(Trimmed(UiText(amount, decimals), decimals), decimals) == Ok(amount)
  {
    if decimals == 0 {
      PlainIntegerParses(amount);
    } else {
      var w, f := IntegerDigits(amount, decimals), FractionDigits(amount, decimals);
      var t := TrimEnd(f, '0');
      TrimmedParts(w, f);
      TrimmedDigitsShowAmount(amount, decimals);
      if t == "" {
        ShownWholeParses(w, decimals, amount);
      } else {
        ShownWithPointParses(w, t, decimals, amount);
      }
    }
  }

  /** Different amounts have different texts, even trimmed. */
  lemma TextsDiffer(a: u64, b: u64, decimals: u8)
    requires Trimmed(UiText(a, decimals), decimals) == Trimmed(UiText(b, decimals), decimals)
    ensures a == b
  {
    TrimmedTextParsesBack(a, decimals);
    TrimmedTextParsesBack(b, decimals);
  }

  // ---------------------------------------------------------------- the one text of an amount

  lemma {:induction false} DecimalIsPlain(n: nat)
    ensures IsPlainInteger(Decimal(n)) && (n > 0 ==> Decimal(n)[0] != '0')
  {
    if n >= 10 {
      DecimalIsPlain(n / 10);
    }
  }

  lemma PaddedIsPlain(amount: nat, decimals: nat)
    ensures IsPlainInteger(IntegerDigits(amount, decimals))
  {
    DecimalIsPlain(amount);
  }

  lemma PointShows(w: string, f: string)
    ensures '.' in w + "." + f
  {
    assert (w + "." + f)[|w|] == '.';
  }

  lemma WithPoint(w: string, f: string)
    requires AllDigits(w) && AllDigits(f)
    ensures Split(w + "." + f) == [w, f] && Split(w) == [w] && '.' !in w && '.' in w + "." + f
  {
    DigitsAreNoPunctuation(w);
    DigitsAreNoPunctuation(f);
    SplitAtDot(w, f);
    assert (w + "." + f)[|w|] == '.';
  }

  lemma ShownWithPoint(w: string, f: string, amount: nat, decimals: nat)
    requires IsPlainInteger(w) && AllDigits(w) && AllDigits(f) && AllDigits(w + f)
    requires ValueOf(w + f) * Pow10(decimals) == amount * Pow10(|f|)
    ensures var s := w + "." + f; ShowsPlainly(s, amount, decimals) && Fraction(s) == f && '.' in s
  {
    WithPoint(w, f);
  }

  lemma ShownWithoutPoint(w: string, amount: nat, decimals: nat)
    requires IsPlainInteger(w) && AllDigits(w) && ValueOf(w) * Pow10(decimals) == amount
    ensures ShowsPlainly(w, amount, decimals) && Fraction(w) == "" && '.' !in w
  {
    WithPoint(w, "");
    assert w + "" == w;
  }

  lemma TextIsFull(s: string, amount: nat, decimals: nat)
    requires s == UiText(amount, decimals)
    ensures IsFullText(s, amount, decimals)
  {
    if decimals == 0 {
      DecimalIsPlain(amount);
      ValueOfDecimal(amount);
      ShownWithoutPoint(s, amount, 0);
    } else {
      PaddedParts(amount, decimals);
      PaddedIsPlain(amount, decimals);
      ShownWithPoint(IntegerDigits(amount, decimals), FractionDigits(amount, decimals), amount, decimals);
    }
  }

  lemma TrimmedTextIsShort(s: string, amount: nat, decimals: nat)
    requires s == Trimmed(UiText(amount, decimals), decimals)
    ensures IsShortText(s, amount, decimals)
  {
    if decimals == 0 {
      TextIsFull(s, amount, 0);
    } else {
      var w, f := IntegerDigits(amount, decimals), FractionDigits(amount, decimals);
      PaddedParts(amount, decimals);
      PaddedIsPlain(amount, decimals);
      TrimmedParts(w, f);
      TrimmedDigitsShowAmount(amount, decimals);
      ShortTextOfParts(s, w, TrimEnd(f, '0'), amount, decimals);
    }
  }

  lemma ShortTextOfParts(s: string, w: string, t: string, amount: nat, decimals: nat)
    requires IsPlainInteger(w) && Shows(w, t, decimals, amount) && (t != "" ==> t[|t| - 1] != '0')
    requires s == if t == "" then w else w + "." + t
    ensures IsShortText(s, amount, decimals)
  {
    ShownAmountIsExact(w, t, decimals, amount);
    if t == "" {
      assert w + "" == w;
      ShownWithoutPoint(w, amount, decimals);
    } else {
      ShownWithPoint(w, t, amount, decimals);
    }
  }

  lemma {:induction false} ValueBounds(s: string)
    requires AllDigits(s)
    ensures ValueOf(s) < Pow10(|s|)
    ensures s != "" && s[0] != '0' ==> ValueOf(s) >= Pow10(|s| - 1)
    decreases |s|
  {
    if s != "" {
      ValueBounds(s[..|s| - 1]);
    }
  }

  lemma {:induction false} SameValueSameDigits(s: string, t: string)
    requires AllDigits(s) && AllDigits(t) && |s| == |t| && ValueOf(s) == ValueOf(t)
    ensures s == t
    decreases |s|
  {
    if s != "" {
      var n := |s| - 1;
      TensAndOnes(ValueOf(s[..n]), DigitValue(s[n]));
      TensAndOnes(ValueOf(t[..n]), DigitValue(t[n]));
      SameValueSameDigits(s[..n], t[..n]);
      assert s == s[..n] + [s[n]] && t == t[..n] + [t[n]];
    }
  }

  lemma {:induction false} Pow10Grows(m: nat, n: nat)
    requires m <= n
    ensures Pow10(m) <= Pow10(n)
  {
    if m < n {
      Pow10Grows(m, n - 1);
    }
  }

  /** A longer string of digits that does not start with zero stands for more. */
  lemma LongerIsMore(s: string, t: string)
    requires AllDigits(s) && AllDigits(t) && |s| < |t| && t[0] != '0'
    ensures ValueOf(s) < ValueOf(t)
  {
    ValueBounds(s);
    ValueBounds(t);
    Pow10Grows(|s|, |t| - 1);
  }

  lemma FullDigits(s: string, amount: nat, decimals: nat)
    requires IsFullText(s, amount, decimals)
    ensures AllDigits(Whole(s) + Fraction(s)) && ValueOf(Whole(s) + Fraction(s)) == amount
    ensures s == if decimals > 0 then Whole(s) + "." + Fraction(s) else Whole(s)
  {
    CancelPow10(ValueOf(Whole(s) + Fraction(s)), amount, decimals);
    PartsRejoin(s);
    assert decimals > 0 && s == Whole(s) ==> '.' !in Whole(s);
    DigitsAreNoPunctuation(Whole(s));
    PointShows(Whole(s), Fraction(s));
  }

  /** There is only one full text of an amount. */
  lemma FullTextIsUnique(s: string, t: string, amount: nat, decimals: nat)
    requires IsFullText(s, amount, decimals) && IsFullText(t, amount, decimals)
    ensures s == t
  {
    FullDigits(s, amount, decimals);
    FullDigits(t, amount, decimals);
    var a, b := Whole(s) + Fraction(s), Whole(t) + Fraction(t);
    if |a| < |b| {
      LongerIsMore(a, b);
    } else if |b| < |a| {
      LongerIsMore(b, a);
    } else {
      SameValueSameDigits(a, b);
      assert Whole(s) == a[..|Whole(s)|] && Whole(t) == b[..|Whole(s)|];
      assert Fraction(s) == a[|Whole(s)|..] && Fraction(t) == b[|Whole(s)|..];
    }
  }

  /** Zeros at the end of a fraction do not change its amounts. */
  lemma FinalZerosDoNotCount(w: string, t: string, k: nat, decimals: nat, a: nat)
    requires AllDigits(w + t)
    ensures AllDigits(w + t + Zeros(k))
    ensures ValueOf(w + t + Zeros(k)) * Pow10(decimals) == a * Pow10(|t| + k)
            <==> ValueOf(w + t) * Pow10(decimals) == a * Pow10(|t|)
  {
    var v := ValueOf(w + t);
    AppendZeros(w + t, k);
    Pow10Sum(|t|, k);
    Rearrange(v, Pow10(k), Pow10(decimals));
    Rearrange(a, Pow10(|t|), Pow10(k));
    CancelPow10(v * Pow10(decimals), a * Pow10(|t|), k);
  }

  lemma TrimmedParts(w: string, f: string)
    requires AllDigits(w) && AllDigits(f)
    ensures var t := TrimEnd(f, '0');
            TrimEnd(TrimEnd(w + "." + f, '0'), '.') == if t == "" then w else w + "." + t
  {
    var t := TrimEnd(f, '0');
    TrimTail(w + ".", f, '0');
    if t == "" {
      assert w + "." + "" == w + ".";
      assert (w + ".")[..|w|] == w;
      DigitsAreNoPunctuation(w);
    }
  }

  /** The numeral `s` consists of these digits. */
  predicate HasParts(s: string, w: string, f: string) {
    IsNumeral(s) && Whole(s) == w && Fraction(s) == f
  }

  lemma SameAmountsByParts(s: string, t: string, w: string, f: string, k: nat, decimals: nat)
    requires AllDigits(w + f) && HasParts(s, w, f + Zeros(k)) && HasParts(t, w, f)
    ensures SameAmounts(s, t, decimals)
  {
    assert w + (f + Zeros(k)) == w + f + Zeros(k);
    forall a: nat ensures IsAmountOf(s, decimals, a) <==> IsAmountOf(t, decimals, a) {
      FinalZerosDoNotCount(w, f, k, decimals, a);
    }
  }

  lemma PartsOfTrimmed(w: string, t: string)
    requires AllDigits(w) && AllDigits(t) && (w != "" || (t != "" && t[|t| - 1] != '0'))
    ensures HasParts(if t == "" then w else w + "." + t, w, t)
  {
    WithPoint(w, t);
  }

  lemma TrimWithPoint(w: string, f: string, decimals: nat)
    requires decimals > 0 && IsNumeral(w + "." + f) && AllDigits(w) && AllDigits(f)
    ensures SameAmounts(w + "." + f, Trimmed(w + "." + f, decimals), decimals)
  {
    var s, t := w + "." + f, TrimEnd(f, '0');
    WithPoint(w, f);
    NumeralByParts(s);
    TrimSplits(f);
    assert HasParts(s, w, t + Zeros(|f| - |t|));
    PartsOfTrimmed(w, t);
    TrimmedParts(w, f);
    assert AllDigits(w + t);
    SameAmountsByParts(s, Trimmed(s, decimals), w, t, |f| - |t|, decimals);
  }

  lemma {:induction false} NoPointNoTrim(s: string)
    requires '.' !in s
    ensures TrimEnd(s, '.') == s
  {
  }

  lemma IntegerParts(s: string)
    requires AllDigits(s)
    ensures Split(s) == [s] && AllDigits(Whole(s) + Fraction(s)) && Whole(s) + Fraction(s) == s && Fraction(s) == ""
    ensures IsNumeral(s) <==> s != ""
  {
    WithPoint(s, "");
    assert s + "" == s;
  }

  /** Zeros at the end of an integer do count. */
  lemma FinalZerosCount(t: string, k: nat, decimals: nat)
    requires AllDigits(t) && k > 0
    ensures AllDigits(t + Zeros(k)) && IsNumeral(t + Zeros(k))
    ensures t != "" && t[|t| - 1] != '0' ==> !SameAmounts(t + Zeros(k), t, decimals)
  {
    var s := t + Zeros(k);
    AppendZeros(t, k);
    IntegerParts(s);
    IntegerParts(t);
    if t != "" && t[|t| - 1] != '0' {
      LastDigit(t);
      LessDigits(ValueOf(t), k, decimals);
      var a := ValueOf(s) * Pow10(decimals);
      assert IsAmountOf(s, decimals, a) && !IsAmountOf(t, decimals, a);
    }
  }

  lemma TrimWithoutPoint(s: string, decimals: nat)
    requires decimals > 0 && AllDigits(s) && s != ""
    ensures IsNumeral(s) && (SameAmounts(s, Trimmed(s, decimals), decimals) <==> s[|s| - 1] != '0')
  {
    var t := TrimEnd(s, '0');
    TrimSplits(s);
    IntegerParts(s);
    IntegerParts(t);
    NoPointNoTrim(t);
    if s[|s| - 1] == '0' {
      FinalZerosCount(t, |s| - |t|, decimals);
    }
  }

  lemma LessDigits(v: nat, k: nat, decimals: nat)
    requires v > 0 && k > 0
    ensures v * Pow10(decimals) < v * Pow10(k) * Pow10(decimals)
  {
    Pow10Grows(1, k);
    MoreTimes(v, 1, Pow10(k));
    MoreTimes(Pow10(decimals), v, v * Pow10(k));
  }

  lemma MoreTimes(unit: nat, m: nat, n: nat)
    requires unit > 0 && m < n
    ensures unit * m < unit * n && m * unit < n * unit
  {
  }

  /** Trimming a numeral keeps its amounts if and only if it has a point or does not end in
      zero: without a point the zeros it takes away are those of the integer. */
  lemma TrimKeepsAmount(s: string, decimals: nat)
    requires decimals > 0 && IsNumeral(s)
    ensures SameAmounts(s, Trimmed(s, decimals), decimals) <==> '.' in s || s[|s| - 1] != '0'
  {
    PartsRejoin(s);
    DigitsAreNoPunctuation(Whole(s));
    if '.' in s {
      TrimWithPoint(Whole(s), Fraction(s), decimals);
    } else {
      PointShows(Whole(s), Fraction(s));
      WithPoint(Whole(s), "");
      TrimWithoutPoint(s, decimals);
    }
  }

  // ---------------------------------------------------------------- plus signs

  /** What the parser keeps of a text: integer part, then fraction without final zeros. */
  function Kept(s: string): string {
    Whole(s) + TrimEnd(Fraction(s), '0')
  }

  /** A text whose kept characters are a plus sign and then digits, in which the plus sign
      takes up one of the places if there is no integer part. */
  predicate ReadsPastPlus(s: string, decimals: nat) {
    var places := |TrimEnd(Fraction(s), '0')|;
    && |Split(s)| <= 2 && places <= decimals
    && Kept(s) != "" && Kept(s)[0] == '+' && AllDigits(Kept(s)[1..])
    && |Kept(s)| + (decimals - places) > 1
    && ValueOf(Kept(s)[1..]) * Pow10(decimals - places) <= U64_MAX
  }

  lemma PartsRejoin(s: string)
    requires |Split(s)| <= 2
    ensures s == Whole(s) || s == Whole(s) + "." + Fraction(s)
  {
    var i := FirstDot(s);
    if i < |s| {
      var rest := s[i + 1..];
      assert Split(s)[1..] == Split(rest) && FirstDot(rest) == |rest|;
      assert s == s[..i] + "." + rest;
    }
  }

  lemma PlusIsKept(s: string)
    requires '+' in s && |Split(s)| <= 2
    ensures '+' in Kept(s)
  {
    PartsRejoin(s);
    if '+' !in Whole(s) {
      assert '+' in Fraction(s);
      TrimSplits(Fraction(s));
    }
  }

  lemma ParsePastPlus(kept: string, zeros: nat)
    requires '+' in kept
    ensures ParseU64(kept + Zeros(zeros)).Ok? <==>
            && kept[0] == '+' && AllDigits(kept[1..]) && |kept| + zeros > 1
            && ValueOf(kept[1..]) * Pow10(zeros) <= U64_MAX
    ensures ParseU64(kept + Zeros(zeros)).Ok? ==> ParseU64(kept + Zeros(zeros)).value == ValueOf(kept[1..]) * Pow10(zeros)
  {
    var s := kept + Zeros(zeros);
    assert s[1..] == kept[1..] + Zeros(zeros);
    DigitsOfParts(kept[1..], "", zeros);
    assert kept[1..] + "" == kept[1..];
    if AllDigits(kept[1..]) {
      AppendZeros(kept[1..], zeros);
    }
    var i :| 0 <= i < |kept| && kept[i] == '+';
    assert s[i] == '+';
  }

  /** The texts with a plus sign that parse, and what they parse to. */
  lemma PlusParses(s: string, decimals: nat, a: u64)
    requires '+' in s
    ensures Parse(s, decimals) == Ok(a) <==>
            && ReadsPastPlus(s, decimals)
            && a == ValueOf(Kept(s)[1..]) * Pow10(decimals - |TrimEnd(Fraction(s), '0')|)
  {
    var t := TrimEnd(Fraction(s), '0');
    if |Split(s)| <= 2 && |t| <= decimals {
      PlusIsKept(s);
      ParsePastPlus(Kept(s), decimals - |t|);
    }
  }

  /** Parsing is exact for a text and a number of decimals if it returns an amount just
      when the text is a numeral of exactly that amount. */
  ghost predicate ParsedExactly(s: string, decimals: nat) {
    forall a: u64 :: Parse(s, decimals) == Ok(a) <==> IsNumeral(s) && IsAmountOf(s, decimals, a)
  }

  lemma NumeralsHaveNoPlus(s: string)
    requires IsNumeral(s)
    ensures '+' !in s
  {
    TrimSplits(Fraction(s));
    assert forall c | c in Kept(s) :: IsDigit(c);
    if '+' in s {
      PlusIsKept(s);
    }
  }

  /** It is, except for exactly the texts with a plus sign that parse all the same. */
  lemma ExactUnlessPlus(s: string, decimals: nat)
    ensures ParsedExactly(s, decimals) <==> '+' !in s || !ReadsPastPlus(s, decimals)
  {
    if '+' !in s {
      forall a: u64 ensures Parse(s, decimals) == Ok(a) <==> IsNumeral(s) && IsAmountOf(s, decimals, a) {
        ParsesExactly(s, decimals, a);
      }
    } else {
      forall a: u64 ensures !(IsNumeral(s) && IsAmountOf(s, decimals, a)) {
        if IsNumeral(s) { NumeralsHaveNoPlus(s); }
      }
      forall a: u64 ensures Parse(s, decimals) == Ok(a) ==> ReadsPastPlus(s, decimals) {
        PlusParses(s, decimals, a);
      }
      if ReadsPastPlus(s, decimals) {
        PlusParses(s, decimals, ValueOf(Kept(s)[1..]) * Pow10(decimals - |TrimEnd(Fraction(s), '0')|));
      }
    }
  }

  /** In front of the fraction a plus sign takes up a place, so that with three decimals this
      text comes out as 50. */
  lemma PlusExample()
    ensures Parse(".+5", 3) == Ok(50)
  {
    var s := ".+5";
    assert s[1..] == "+5";
    NoDot("+5");
    assert Split(s) == ["", "+5"];
    assert TrimEnd("+5", '0') == "+5";
    var text := "" + "+5" + Zeros(1);
    assert text == "+50" && text[1..] == "50";
    assert "50"[..1] == "5";
    assert "5"[..0] == "";
    assert ValueOf("5") == 5 && ValueOf("50") == 50;
  }
}
