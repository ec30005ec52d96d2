/** Integer amounts (src/units.rs), the fixed-point price of src/chain.rs and the sweep floor. */
module Units {
  import opened Basics
  import opened Text

  const RAO_PER_TAO: nat := 1_000_000_000
  const BPS: nat := 10_000
  const MIN_STAKE_RAO: nat := 2_000_000

  type u64 = n: nat | n <= U64_MAX

  /** Basis points that leave room for the source's u64 addition `BPS + bps`. */
  type Margin = n: nat | n <= U64_MAX - BPS

  // ---------------------------------------------------------------- decimal text

  predicate IsDigit(c: char) {
    '0' <= c <= '9'
  }

  predicate AllDigits(s: string) {
    forall i :: 0 <= i < |s| ==> IsDigit(s[i])
  }

  function DigitValue(c: char): nat
    requires IsDigit(c)
  {
    (c as int) - ('0' as int)
  }

  /** The number a digit string denotes. */
  function Dec(s: string): nat
    requires AllDigits(s)
  {
    if s == "" then 0 else 10 * Dec(s[..|s| - 1]) + DigitValue(s[|s| - 1])
  }

  function Pow10(n: nat): nat
    ensures Pow10(n) > 0
  {
    if n == 0 then 1 else 10 * Pow10(n - 1)
  }

  function Zeros(n: nat): (s: string)
    ensures |s| == n && AllDigits(s)
  {
    seq(n, _ => '0')
  }

  function DigitChar(d: nat): (c: char)
    requires d < 10
    ensures IsDigit(c) && DigitValue(c) == d
  {
    (d + 48) as char
  }

  /** Shortest decimal form, "0" for zero: Rust's `{}` for an unsigned integer. */
  function Digits(n: nat): (s: string)
    ensures s != "" && AllDigits(s)
  {
    if n < 10 then [DigitChar(n)] else Digits(n / 10) + [DigitChar(n % 10)]
  }

  /** First position of the decimal point, or the length when there is none. */
  function PointAt(s: string): (i: nat)
    ensures i <= |s|
    ensures i < |s| ==> s[i] == '.'
    ensures forall k :: 0 <= k < i ==> s[k] != '.'
  {
    if s == "" || s[0] == '.' then 0 else 1 + PointAt(s[1..])
  }

  function ParseU64(s: string): Result<nat>
    requires AllDigits(s)
  {
    if s == "" || Dec(s) > U64_MAX then Err(Config("invalid amount")) else Ok(Dec(s))
  }

  function ParseAmount(text: string): Result<nat> {
    var s := Trim(text);
    var i := PointAt(s);
    var whole := s[..i];
    var frac := if i < |s| then s[i + 1..] else "";
    if (whole == "" && frac == "") || ByteLen(frac) > 9 || !AllDigits(whole) || !AllDigits(frac) then
      Err(Config("invalid amount"))
    else
      var units :- if whole == "" then Ok(0) else ParseU64(whole);
      DigitBytes(frac);
      var padded := frac + Zeros(9 - |frac|);
      var fracRao :- ParseU64(padded);
      if units * RAO_PER_TAO + fracRao > U64_MAX then Err(Config("invalid amount"))
      else Ok(units * RAO_PER_TAO + fracRao)
  }

  function Pad9(n: nat): string {
    var d := Digits(n);
    if |d| < 9 then Zeros(9 - |d|) + d else d
  }

  function FormatAmount(rao: nat): string {
    Digits(rao / RAO_PER_TAO) + "." + Pad9(rao % RAO_PER_TAO)
  }

  lemma {:induction false} DigitBytes(s: string)
    requires AllDigits(s)
    ensures ByteLen(s) == |s|
  {
    if s != "" {
      DigitBytes(s[1..]);
      assert IsDigit(s[0]);
    }
  }

  lemma TenTimes(x: nat, p: nat, low: nat, d: nat)
    ensures 10 * (x * p + low) + d == x * (10 * p) + (10 * low + d)
  {
  }

  lemma {:induction false} DecConcat(a: string, b: string)
    requires AllDigits(a) && AllDigits(b)
    ensures AllDigits(a + b)
    ensures Dec(a + b) == Dec(a) * Pow10(|b|) + Dec(b)
  {
    if b == "" {
      assert a + b == a;
    } else {
      var c := b[..|b| - 1];
      DecConcat(a, c);
      assert (a + b)[..|a + b| - 1] == a + c;
      var d := DigitValue(b[|b| - 1]);
      assert Pow10(|b|) == 10 * Pow10(|c|);
      calc {
        Dec(a + b);
        10 * Dec(a + c) + d;
        10 * (Dec(a) * Pow10(|c|) + Dec(c)) + d;
        { TenTimes(Dec(a), Pow10(|c|), Dec(c), d); }
        Dec(a) * (10 * Pow10(|c|)) + (10 * Dec(c) + d);
        Dec(a) * Pow10(|b|) + Dec(b);
      }
    }
  }

  lemma {:induction false} DecZeros(n: nat)
    ensures Dec(Zeros(n)) == 0
  {
    if n > 0 {
      DecZeros(n - 1);
      assert Zeros(n)[..n - 1] == Zeros(n - 1);
    }
  }

  lemma {:induction false} DecDigits(n: nat)
    ensures Dec(Digits(n)) == n
  {
    if n < 10 {
      assert Digits(n)[..0] == "";
    } else {
      DecDigits(n / 10);
      assert Digits(n)[..|Digits(n)| - 1] == Digits(n / 10);
    }
  }

  lemma {:induction false} DigitsLength(n: nat, k: nat)
    requires n < Pow10(k) && k > 0
    ensures |Digits(n)| <= k
  {
    if n >= 10 {
      assert k > 1;
      DigitsLength(n / 10, k - 1);
    }
  }

  lemma Pow10Nine()
    ensures Pow10(9) == RAO_PER_TAO
  {
  }

  lemma {:induction false} PointAtDigits(a: string, b: string)
    requires AllDigits(a)
    ensures PointAt(a + "." + b) == |a|
  {
    var s := a + "." + b;
    if a != "" {
      PointAtDigits(a[1..], b);
      assert s[1..] == a[1..] + "." + b;
      assert s[0] == a[0] && IsDigit(a[0]);
    }
  }

  lemma {:induction false} NoPoint(a: string)
    requires AllDigits(a)
    ensures PointAt(a) == |a|
  {
  }

  lemma LeadingZeros(k: nat, d: string)
    requires AllDigits(d)
    ensures AllDigits(Zeros(k) + d) && Dec(Zeros(k) + d) == Dec(d)
  {
    DecZeros(k);
    DecConcat(Zeros(k), d);
    assert 0 * Pow10(|d|) == 0;
  }

  lemma PadNine(n: nat)
    requires n < RAO_PER_TAO
    ensures |Pad9(n)| == 9 && AllDigits(Pad9(n)) && Dec(Pad9(n)) == n
  {
    Pow10Nine();
    DigitsLength(n, 9);
    var d := Digits(n);
    DecDigits(n);
    if |d| < 9 {
      LeadingZeros(9 - |d|, d);
    }
  }

  lemma TrimDigitEnds(s: string)
    requires s != "" && IsDigit(s[0]) && IsDigit(s[|s| - 1])
    ensures Trim(s) == s
  {
  }

  /** Printing and reading an amount gives it back, for every u64. */
  lemma FormatParseRoundTrip(x: nat)
    requires x <= U64_MAX
    ensures ParseAmount(FormatAmount(x)) == Ok(x)
  {
    hide Trim, Dec, ParseAmount, Zeros;
    var whole, frac := Digits(x / RAO_PER_TAO), Pad9(x % RAO_PER_TAO);
    var s := FormatAmount(x);
    assert s == whole + "." + frac;
    PadNine(x % RAO_PER_TAO);
    DecDigits(x / RAO_PER_TAO);
    assert s[0] == whole[0] && s[|s| - 1] == frac[8];
    TrimDigitEnds(s);
    DecConcat(whole, frac);
    Pow10Nine();
    ParsesForm(s, whole, frac, x);
  }

  lemma {:induction false} NoLeadingZero(n: nat)
    ensures Digits(n) != "" && AllDigits(Digits(n)) && (Digits(n)[0] == '0' ==> Digits(n) == "0")
  {
    if n >= 10 { NoLeadingZero(n / 10); }
  }

  /** Printed amounts have nine decimals, no superfluous leading zero, and read as the amount when the
      point is dropped. */
  lemma FormatShape(x: nat) returns (whole: string, frac: string)
    ensures FormatAmount(x) == whole + "." + frac && |frac| == 9
    ensures AllDigits(whole + frac) && Dec(whole + frac) == x
    ensures whole != "" && (whole[0] == '0' ==> whole == "0")
  {
    whole, frac := Digits(x / RAO_PER_TAO), Pad9(x % RAO_PER_TAO);
    PadNine(x % RAO_PER_TAO);
    DecDigits(x / RAO_PER_TAO);
    NoLeadingZero(x / RAO_PER_TAO);
    DecConcat(whole, frac);
    Pow10Nine();
  }

  /** `whole` and `frac` are the two sides of the accepted text's decimal point. */
  predicate DecimalForm(s: string, whole: string, frac: string) {
    && AllDigits(whole) && AllDigits(frac)
    && whole + frac != "" && |frac| <= 9
    && (s == whole + "." + frac || (frac == "" && s == whole))
  }

  /** `v` is the decimal times 10^9: all digits read as one number, shifted by the decimals. */
  predicate Denotes(whole: string, frac: string, v: nat) {
    && AllDigits(whole + frac)
    && v * Pow10(|frac|) == Dec(whole + frac) * RAO_PER_TAO
  }

  lemma AcceptedForm(text: string) returns (whole: string, frac: string)
    requires ParseAmount(text).Ok?
    ensures DecimalForm(Trim(text), whole, frac)
    ensures ParseAmount(text).value == FormRao(whole, frac) <= U64_MAX
  {
    hide Trim, Zeros, ByteLen, AllDigits;
    var s := Trim(text);
    var i := PointAt(s);
    whole, frac := s[..i], if i < |s| then s[i + 1..] else "";
    DigitBytes(frac);
    assert i < |s| ==> s == whole + "." + frac;
    assert i == |s| ==> s == whole;
  }

  /** An accepted text is a plain decimal and the amount is exactly that decimal times 10^9; every
      plain decimal whose value fits u64 is accepted. */
  lemma ParseIsExact(text: string, v: nat)
    ensures ParseAmount(text) == Ok(v) <==>
      v <= U64_MAX && exists whole, frac :: DecimalForm(Trim(text), whole, frac) && Denotes(whole, frac, v)
  {
    if ParseAmount(text) == Ok(v) {
      var whole, frac := AcceptedForm(text);
      FormValue(whole, frac);
      assert Denotes(whole, frac, v);
    }
    if v <= U64_MAX && exists whole, frac :: DecimalForm(Trim(text), whole, frac) && Denotes(whole, frac, v) {
      var whole, frac :| DecimalForm(Trim(text), whole, frac) && Denotes(whole, frac, v);
      ParsesForm(text, whole, frac, v);
    }
  }

  function FormRao(whole: string, frac: string): nat
    requires AllDigits(whole) && AllDigits(frac) && |frac| <= 9
  {
    Dec(whole) * RAO_PER_TAO + Dec(frac + Zeros(9 - |frac|))
  }

  lemma {:induction false} Pow10Sum(a: nat, b: nat)
    ensures Pow10(a + b) == Pow10(a) * Pow10(b)
  {
    if a > 0 {
      var p, q := Pow10(a - 1), Pow10(b);
      Pow10Sum(a - 1, b);
      assert Pow10(a) == 10 * p && Pow10(a + b) == 10 * (p * q);
      TenTimes(q, p, 0, 0);
    }
  }

  lemma MulDistribute(a: nat, b: nat, p: nat, q: nat, r: nat)
    requires p * q == r
    ensures (a * r + b * q) * p == (a * p + b) * r
  {
  }

  lemma FormValue(whole: string, frac: string)
    requires AllDigits(whole) && AllDigits(frac) && |frac| <= 9
    ensures AllDigits(whole + frac)
    ensures FormRao(whole, frac) * Pow10(|frac|) == Dec(whole + frac) * RAO_PER_TAO
  {
    var z := 9 - |frac|;
    DecConcat(whole, frac);
    DecZeros(z);
    DecConcat(frac, Zeros(z));
    Pow10Sum(|frac|, z);
    Pow10Nine();
    MulDistribute(Dec(whole), Dec(frac), Pow10(|frac|), Pow10(z), RAO_PER_TAO);
  }

  lemma MulMonotone(a: nat, b: nat, p: nat)
    requires a < b && p > 0
    ensures a * p + p <= b * p
  {
    assert b * p == a * p + (b - a) * p;
    assert (b - a) * p == p + (b - a - 1) * p;
  }

  lemma MulCancel(a: nat, b: nat, p: nat)
    requires p > 0 && a * p == b * p
    ensures a == b
  {
  }

  lemma SplitForm(s: string, whole: string, frac: string)
    requires DecimalForm(s, whole, frac)
    ensures var i := PointAt(s); s[..i] == whole && (if i < |s| then s[i + 1..] else "") == frac
  {
    if s == whole + "." + frac {
      PointAtDigits(whole, frac);
    } else {
      NoPoint(s);
    }
  }

  lemma ParsesForm(text: string, whole: string, frac: string, v: nat)
    requires DecimalForm(Trim(text), whole, frac)
    requires v <= U64_MAX && Denotes(whole, frac, v)
    ensures ParseAmount(text) == Ok(v)
  {
    FormValue(whole, frac);
    MulCancel(v, FormRao(whole, frac), Pow10(|frac|));
    SplitForm(Trim(text), whole, frac);
    DigitBytes(frac);
    var padded := frac + Zeros(9 - |frac|);
    assert ParseU64(padded) == Ok(Dec(padded));
    assert whole != "" ==> ParseU64(whole) == Ok(Dec(whole));
  }

  // ---------------------------------------------------------------- margins and limits

  /** `value * (1 + bps/10000)` rounded up, saturating at u64. `bps` must leave room for the
      u64 addition `BPS + bps`. */
  function AddBpsCeil(value: nat, bps: nat): nat
    requires value <= U64_MAX && bps <= U64_MAX - BPS
  {
    var v := value * (BPS + bps);
    Min((v + BPS - 1) / BPS, U64_MAX)
  }

  function SaturatingAdd(a: nat, b: nat): nat {
    Min(a + b, U64_MAX)
  }

  function SaturatingSub(a: nat, b: nat): nat {
    if a < b then 0 else a - b
  }

  function FundingNeeded(fees: nat, marginBps: nat, existentialDeposit: nat, currentFree: nat): nat
    requires fees <= U64_MAX && marginBps <= U64_MAX - BPS
  {
    SaturatingSub(SaturatingAdd(AddBpsCeil(fees, marginBps), existentialDeposit), currentFree)
  }

  function BuyLimitPrice(currentPrice: nat, slippageBps: nat): nat
    requires currentPrice <= U64_MAX && slippageBps <= U64_MAX - BPS
  {
    Max(AddBpsCeil(currentPrice, slippageBps), 1)
  }

  function Spendable(free: nat, feeReserve: nat, existentialDeposit: nat): nat {
    SaturatingSub(SaturatingSub(free, feeReserve), existentialDeposit)
  }

  /** Exact statement of "rounded up, saturating": an amount covers the margin if and only if it
      is at least the result, whenever the result is below the cap. */
  lemma AddBpsCeilIsLeast(value: nat, bps: nat, w: nat)
    requires value <= U64_MAX && bps <= U64_MAX - BPS && w <= U64_MAX
    ensures w * BPS >= value * (BPS + bps) ==> w >= AddBpsCeil(value, bps)
    ensures w >= AddBpsCeil(value, bps) && AddBpsCeil(value, bps) < U64_MAX ==> w * BPS >= value * (BPS + bps)
  {
  }

  /** A limit price of `w` allows the slippage. */
  predicate Allows(w: nat, price: nat, slippageBps: nat) {
    w * BPS >= price * (BPS + slippageBps)
  }

  /** The limit price is the least u64 of at least one rao that allows the slippage, and the largest
      u64 when none does. */
  lemma BuyLimitIsLeast(price: nat, slippageBps: nat)
    requires price <= U64_MAX && slippageBps <= U64_MAX - BPS
    ensures var limit := BuyLimitPrice(price, slippageBps);
      && 1 <= limit <= U64_MAX
      && (if Allows(U64_MAX, price, slippageBps) then Allows(limit, price, slippageBps) else limit == U64_MAX)
      && (forall w: nat :: 1 <= w < limit ==> !Allows(w, price, slippageBps))
  {
    var v := price * (BPS + slippageBps);
    var c := (v + BPS - 1) / BPS;
    assert c * BPS <= v + BPS - 1 < (c + 1) * BPS;
  }

  /** `free` pays fees and margin above the deposit that must stay. */
  predicate Covers(free: int, fees: nat, marginBps: nat, ed: nat) {
    (free - ed) * BPS >= fees * (BPS + marginBps)
  }

  /** The funding lets the wallet pay if and only if any u64 balance does, and one rao less never does. */
  lemma FundingIsEnoughAndLeast(fees: nat, marginBps: nat, ed: nat, free: nat)
    requires fees <= U64_MAX && marginBps <= U64_MAX - BPS && ed <= U64_MAX && free <= U64_MAX
    ensures var need := FundingNeeded(fees, marginBps, ed, free);
      && (Covers(free + need, fees, marginBps, ed) <==> Covers(U64_MAX, fees, marginBps, ed))
      && (need > 0 ==> !Covers(free + need - 1, fees, marginBps, ed))
      && (need == 0 <==> free == U64_MAX || Covers(free, fees, marginBps, ed))
  {
    var v := fees * (BPS + marginBps);
    var c := (v + BPS - 1) / BPS;
    assert c * BPS <= v + BPS - 1 < (c + 1) * BPS;
  }

  /** What the job may spend plus both reserves never exceeds the balance, and it is all there is. */
  lemma SpendableLeavesReserves(free: nat, feeReserve: nat, ed: nat, amount: nat)
    requires amount > 0
    ensures amount <= Spendable(free, feeReserve, ed) <==> amount + feeReserve + ed <= free
  {
  }

  // ---------------------------------------------------------------- fixed point

  function Pow2(n: nat): nat
    ensures Pow2(n) > 0
  {
    if n == 0 then 1 else 2 * Pow2(n - 1)
  }

  lemma QuotientNonNegative(n: nat, d: nat)
    requires d > 0
    ensures n / d >= 0
  {
  }

  function Shr(n: nat, k: nat): nat {
    var d := Pow2(k);
    QuotientNonNegative(n, d);
    n / d
  }

  function LowBits(n: nat, k: nat): nat {
    n % Pow2(k)
  }

  function SaturatingU128(n: nat): nat {
    if n > U128_MAX then U128_MAX else n
  }

  /** `bits / 2^frac` TAO per alpha as rao, on u128 with saturation. The source shifts by `frac` and
      multiplies the fraction by 10^9 in u128; for `frac <= 98` that product cannot overflow. */
  function FixedBitsToRao(bits: nat, frac: nat): nat
    requires bits <= U128_MAX && frac <= 98
  {
    var scaled := SaturatingU128(Shr(bits, frac) * RAO_PER_TAO);
    var rao := SaturatingU128(scaled + Shr(LowBits(bits, frac) * RAO_PER_TAO, frac));
    if rao > U64_MAX then U64_MAX else rao
  }

  lemma Distribute(a: nat, b: nat, c: nat)
    ensures (a + b) * c == a * c + b * c
  {
  }

  lemma Reorder(a: nat, b: nat, c: nat)
    ensures (a * b) * c == (a * c) * b
  {
  }

  lemma DivSplit(whole: nat, part: nat, m: nat, p: nat)
    requires p > 0
    ensures ((whole * p + part) * m) / p == whole * m + part * m / p
  {
    var n := part * m;
    var q := n / p;
    DivBounds(n, p);
    Distribute(whole * p, part, m);
    Reorder(whole, p, m);
    Distribute(whole * m, q, p);
    DivUnique((whole * p + part) * m, p, whole * m + q, n - q * p);
  }

  lemma DivUnique(n: nat, d: nat, q: nat, r: nat)
    requires d > 0 && n == d * q + r && r < d
    ensures n / d == q
  {
    var k := n / d;
    DivBounds(n, d);
    if k < q {
      MulMonotone(k, q, d);
    } else if q < k {
      MulMonotone(q, k, d);
    }
  }

  lemma DivBounds(n: nat, d: nat)
    requires d > 0
    ensures (n / d) * d <= n < (n / d) * d + d
  {
  }

  /** The price conversion is the exact floor, capped at u64. */
  lemma FixedBitsIsFloor(bits: nat, frac: nat)
    requires bits <= U128_MAX && frac <= 98
    ensures FixedBitsToRao(bits, frac) == Min(Shr(bits * RAO_PER_TAO, frac), U64_MAX)
  {
    var p, whole, part := Pow2(frac), Shr(bits, frac), LowBits(bits, frac);
    DivSplit(whole, part, RAO_PER_TAO, p);
    assert bits == whole * p + part;
    assert Shr(bits * RAO_PER_TAO, frac) == whole * RAO_PER_TAO + Shr(part * RAO_PER_TAO, frac);
  }

  // ---------------------------------------------------------------- sweep floor

  /** Smallest position worth sweeping at a spot price (`sweep_floor`, with `price.max(1)`). */
  function SweepFloor(price: nat, sweepDust: nat): nat {
    var p := Max(price, 1);
    Max(sweepDust, MIN_STAKE_RAO * 3 / 2 * RAO_PER_TAO / p)
  }

  /** The floor is the configured dust or, if larger, the most alpha whose value at spot stays within one
      and a half times the minimum stake of 0.002 TAO. */
  lemma SweepFloorExactly(price: nat, sweepDust: nat)
    ensures var floor, p := SweepFloor(price, sweepDust), if price == 0 then 1 else price;
      && floor >= sweepDust
      && (floor > sweepDust ==> floor * p <= 3_000_000 * RAO_PER_TAO)
      && (floor + 1) * p > 3_000_000 * RAO_PER_TAO
  {
    var p := Max(price, 1);
    var n := MIN_STAKE_RAO * 3 / 2 * RAO_PER_TAO;
    DivBounds(n, p);
    var floor := SweepFloor(price, sweepDust);
    MulAtLeast(n / p + 1, floor + 1, p);
  }

  lemma MulAtLeast(a: nat, b: nat, p: nat)
    requires a <= b
    ensures a * p <= b * p
  {
    assert b * p == a * p + (b - a) * p;
  }

  /** Alpha valued in rao at spot, without the u64 cap. */
  function ValueAt(alpha: nat, price: nat): nat {
    alpha * price / RAO_PER_TAO
  }

  /** Every position the engine sweeps is worth the chain minimum at that price if and only if the
      floor position itself is. */
  lemma SweptWorthExactly(price: nat, sweepDust: nat)
    requires price > 0
    ensures (forall alpha :: alpha >= SweepFloor(price, sweepDust) ==> ValueAt(alpha, price) >= MIN_STAKE_RAO)
       <==> SweepFloor(price, sweepDust) * price >= MIN_STAKE_RAO * RAO_PER_TAO
  {
    var f := SweepFloor(price, sweepDust);
    if f * price >= MIN_STAKE_RAO * RAO_PER_TAO {
      forall alpha | alpha >= f ensures ValueAt(alpha, price) >= MIN_STAKE_RAO {
        assert alpha * price >= f * price by { assert alpha * price == f * price + (alpha - f) * price; }
        WorthMin(alpha * price);
      }
    } else {
      assert ValueAt(f, price) < MIN_STAKE_RAO by { WorthMin(f * price); }
    }
  }

  lemma WorthMin(n: nat)
    ensures n / RAO_PER_TAO >= MIN_STAKE_RAO <==> n >= MIN_STAKE_RAO * RAO_PER_TAO
  {
  }

  /** Up to a price of 10^15 rao the 1.5x margin absorbs the rounding of the floor. */
  lemma SweptWorthMinimum(price: nat, sweepDust: nat, alpha: nat)
    requires 0 < price <= 1_000_000_000_000_000
    requires alpha >= SweepFloor(price, sweepDust)
    ensures ValueAt(alpha, price) >= MIN_STAKE_RAO
  {
    var n := MIN_STAKE_RAO * 3 / 2 * RAO_PER_TAO;
    var q := n / price;
    assert n == price * q + n % price;
    assert q * price > n - price;
    assert alpha * price >= q * price by {
      assert alpha * price == q * price + (alpha - q) * price;
    }
    WorthMin(alpha * price);
  }

  /** Above that price the margin can round away. */
  lemma SweptBelowMinimumAtExtremePrice()
    ensures ValueAt(SweepFloor(1_600_000_000_000_000, 0), 1_600_000_000_000_000) < MIN_STAKE_RAO
  {
  }
}
