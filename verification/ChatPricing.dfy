/** Exact token pricing (src/modules/ai/chat-pricing.ts:292-335). Credits are counted in millionths. */
module ChatPricing {
  import opened JsonValues

  const PER_MILLION: nat := 1000000

  /** Credits per million tokens; the configuration admits whole numbers only. */
  datatype Rates = Rates(input: nat, output: nat, cachedInput: nat, cacheWrite: nat)
  datatype Price = Price(threshold: nat, standard: Rates, extended: Rates)
  datatype Usage = Usage(input: nat, output: nat, cachedInput: nat, cacheWrite: nat)
  datatype Tier = Standard | Extended
  datatype Charge = Charge(tier: Tier, normalInput: nat, cachedInput: nat, rates: Rates, chargedCredits: string)

  // ---- decimal texts -------------------------------------------------------------------------

  /** `n.toString()` */
  function Digits(n: nat): string {
    if n < 10 then [DigitOf(n)] else Digits(n / 10) + [DigitOf(n % 10)]
  }

  function DigitOf(d: nat): char
    requires d < 10
  {
    '0' + d as char
  }

  function PadStart(text: string, width: nat): string
    decreases width - |text|
  {
    if |text| >= width then text else PadStart("0" + text, width)
  }

  /** `formatPerMillionCredits` */
  function FormatPerMillion(numerator: int): string {
    if numerator <= 0 then "0.000000"
    else Digits(numerator / PER_MILLION) + "." + PadStart(Digits(numerator % PER_MILLION), 6)
  }

  // ---- what a decimal text denotes -----------------------------------------------------------

  predicate AllDigits(text: string) {
    forall i :: 0 <= i < |text| ==> '0' <= text[i] <= '9'
  }

  function ValueOf(text: string): nat
    requires AllDigits(text)
  {
    if text == "" then 0 else 10 * ValueOf(text[..|text| - 1]) + (text[|text| - 1] as int - '0' as int)
  }

  /** A plain whole number, a point and exactly six more digits, read in millionths. */
  function Denoted(text: string): Option<nat> {
    if |text| < 8 || text[|text| - 7] != '.' then None
    else
      var (whole, fraction) := (text[..|text| - 7], text[|text| - 6..]);
      if AllDigits(whole) && AllDigits(fraction) && (|whole| == 1 || whole[0] != '0')
      then Some(ValueOf(whole) * PER_MILLION + ValueOf(fraction)) else None
  }

  lemma {:induction false} DigitsDenote(n: nat)
    ensures AllDigits(Digits(n)) && ValueOf(Digits(n)) == n
    ensures |Digits(n)| >= 1 && (|Digits(n)| == 1 || Digits(n)[0] != '0')
  {
    if n < 10 {
      assert Digits(n)[..0] == "";
    } else {
      DigitsDenote(n / 10);
      assert Digits(n)[..|Digits(n)| - 1] == Digits(n / 10);
      assert n / 10 < 10 ==> Digits(n)[0] == DigitOf(n / 10);
    }
  }

  lemma {:induction false} DigitsShort(n: nat, width: nat)
    requires width >= 1 && n < Power10(width)
    ensures |Digits(n)| <= width
  {
    if width > 1 && n >= 10 {
      DigitsShort(n / 10, width - 1);
    }
  }

  function Power10(k: nat): nat {
    if k == 0 then 1 else 10 * Power10(k - 1)
  }

  lemma {:induction false} LeadingZero(text: string)
    requires AllDigits(text)
    ensures AllDigits("0" + text) && ValueOf("0" + text) == ValueOf(text)
  {
    if text == "" {
      assert ("0" + text)[..0] == "";
    } else {
      LeadingZero(text[..|text| - 1]);
      assert ("0" + text)[..|text|] == "0" + text[..|text| - 1];
    }
  }

  lemma {:induction false} PaddingDenotes(text: string, width: nat)
    requires AllDigits(text) && |text| <= width
    ensures |PadStart(text, width)| == width && AllDigits(PadStart(text, width))
            && ValueOf(PadStart(text, width)) == ValueOf(text)
    decreases width - |text|
  {
    if |text| < width {
      LeadingZero(text);
      PaddingDenotes("0" + text, width);
    }
  }

  function Fixed(n: nat): string {
    Digits(n / PER_MILLION) + "." + PadStart(Digits(n % PER_MILLION), 6)
  }

  lemma FixedDenotes(n: nat)
    ensures Denoted(Fixed(n)) == Some(n)
  {
    hide Digits, PadStart, ValueOf;
    var (whole, fraction) := (n / PER_MILLION, n % PER_MILLION);
    DigitsDenote(whole);
    DigitsDenote(fraction);
    assert Power10(6) == PER_MILLION;
    DigitsShort(fraction, 6);
    PaddingDenotes(Digits(fraction), 6);
    assert Fixed(n)[..|Fixed(n)| - 7] == Digits(whole) && Fixed(n)[|Fixed(n)| - 6..] == PadStart(Digits(fraction), 6);
  }

  lemma ZeroText()
    ensures Fixed(0) == "0.000000"
  {
    assert "0" + "0" == "00" && "0" + "00" == "000" && "0" + "000" == "0000";
    assert "0" + "0000" == "00000" && "0" + "00000" == "000000";
    assert PadStart("000", 6) == PadStart("0000", 6) == PadStart("00000", 6) == "000000";
    assert PadStart("0", 6) == PadStart("00", 6) == PadStart("000", 6);
    assert Digits(0) == "0";
  }

  /** The charge text denotes exactly numerator / 10^6, with six fraction digits. */
  lemma FormatDenotes(numerator: int)
    ensures Denoted(FormatPerMillion(numerator)) == Some(if numerator <= 0 then 0 else numerator)
  {
    hide Denoted, Digits, PadStart;
    ZeroText();
    FixedDenotes(if numerator <= 0 then 0 else numerator);
  }

  // ---- the charge ----------------------------------------------------------------------------

  function Min(a: nat, b: nat): nat { if a < b then a else b }

  function RatesFor(price: Price, input: nat): Rates {
    if input > price.threshold then price.extended else price.standard
  }

  function Numerator(rates: Rates, normal: nat, cached: nat, usage: Usage): nat {
    normal * rates.input + cached * rates.cachedInput + usage.output * rates.output
    + usage.cacheWrite * rates.cacheWrite
  }

  /** `calculateChatTokenCharge` */
  function CalculateCharge(price: Price, usage: Usage): (charge: Charge)
    ensures charge.normalInput + charge.cachedInput == usage.input
    ensures charge.cachedInput <= usage.cachedInput
    ensures charge.cachedInput == usage.cachedInput || charge.normalInput == 0
    ensures charge.tier == Extended <==> usage.input > price.threshold
    ensures charge.rates == match charge.tier case Standard => price.standard case Extended => price.extended
  {
    var extended := usage.input > price.threshold;
    var rates := if extended then price.extended else price.standard;
    var cached := if usage.cachedInput > usage.input then usage.input else usage.cachedInput;
    var normal := usage.input - cached;
    var tier := if extended then Extended else Standard;
    Charge(tier, normal, cached, rates, FormatPerMillion(Numerator(rates, normal, cached, usage)))
  }

  /** The charged millionths, as the text says them. */
  function Credits(price: Price, usage: Usage): nat {
    var denoted := Denoted(CalculateCharge(price, usage).chargedCredits);
    if denoted.Some? then denoted.value else 0
  }

  /** The text is what the reported tokens cost at the reported rates. */
  lemma ReportedCharge(price: Price, usage: Usage)
    ensures var charge := CalculateCharge(price, usage);
            Denoted(charge.chargedCredits)
            == Some(charge.normalInput * charge.rates.input + charge.cachedInput * charge.rates.cachedInput
                    + usage.output * charge.rates.output + usage.cacheWrite * charge.rates.cacheWrite)
  {
    hide Denoted, FormatPerMillion;
    var charge := CalculateCharge(price, usage);
    FormatDenotes(Numerator(charge.rates, charge.normalInput, charge.cachedInput, usage));
  }

  /** Each token is charged once, at the tier's rate for its kind; nothing is rounded away. */
  lemma ChargeIsExact(price: Price, usage: Usage)
    ensures var cached := Min(usage.cachedInput, usage.input);
            Credits(price, usage) == Numerator(RatesFor(price, usage.input), usage.input - cached, cached, usage)
  {
    hide Numerator, Denoted, FormatPerMillion;
    var cached := Min(usage.cachedInput, usage.input);
    FormatDenotes(Numerator(RatesFor(price, usage.input), usage.input - cached, cached, usage));
  }

  /** Reporting more cached tokens changes the charge by the difference of the two rates for each
      token that really counts as cached, so it never costs more exactly when the clamp hides it or
      the cached rate is at most the input rate. */
  lemma CachingNeverCostsMore(price: Price, usage: Usage, more: nat)
    requires usage.cachedInput <= more
    ensures Credits(price, usage.(cachedInput := more)) <= Credits(price, usage)
            <==> (Min(usage.cachedInput, usage.input) == Min(more, usage.input)
                  || RatesFor(price, usage.input).cachedInput <= RatesFor(price, usage.input).input)
  {
    hide Denoted, FormatPerMillion, CalculateCharge;
    var rates := RatesFor(price, usage.input);
    var (less, cached) := (Min(usage.cachedInput, usage.input), Min(more, usage.input));
    ChargeIsExact(price, usage);
    ChargeIsExact(price, usage.(cachedInput := more));
    ExchangeRates(usage.input, less, cached, rates.input, rates.cachedInput);
  }

  lemma ExchangeRates(total: nat, less: nat, more: nat, a: nat, b: nat)
    requires less <= more <= total
    ensures (total - more) * a + more * b == (total - less) * a + less * b + (more - less) * b - (more - less) * a
    ensures (more - less) * b <= (more - less) * a <==> less == more || b <= a
  {
  }

  // ---- monotone in the input -----------------------------------------------------------------

  /** What the input tokens cost at one tier's rates. */
  function InputCost(rates: Rates, input: nat, cachedInput: nat): nat {
    (input - Min(cachedInput, input)) * rates.input + Min(cachedInput, input) * rates.cachedInput
  }

  lemma TimesGrows(a: nat, b: nat, k: nat)
    requires a <= b
    ensures a * k <= b * k
  {
  }

  lemma InputCostGrows(rates: Rates, input: nat, more: nat, cachedInput: nat)
    requires input <= more
    ensures InputCost(rates, input, cachedInput) <= InputCost(rates, more, cachedInput)
  {
  }

  lemma CreditsSplit(price: Price, usage: Usage)
    ensures var rates := RatesFor(price, usage.input);
            Credits(price, usage)
            == InputCost(rates, usage.input, usage.cachedInput)
               + usage.output * rates.output + usage.cacheWrite * rates.cacheWrite
  {
    ChargeIsExact(price, usage);
  }

  /** The first token beyond the threshold does not make any request cheaper. */
  ghost predicate CrossesUpward(price: Price) {
    var (t, s, e) := (price.threshold, price.standard, price.extended);
    && s.output <= e.output && s.cacheWrite <= e.cacheWrite
    && t * s.input <= (t + 1) * e.input
    && t * s.cachedInput <= e.input + t * e.cachedInput
    && t * s.cachedInput <= (t + 1) * e.cachedInput
  }

  ghost predicate MonotoneInInput(price: Price) {
    forall usage: Usage, more: nat :: usage.input <= more ==>
      Credits(price, usage) <= Credits(price, usage.(input := more))
  }

  /** At least as expensive in every kind of token: the usual shape of an extended tier. */
  predicate Dominates(price: Price) {
    && price.standard.input <= price.extended.input && price.standard.output <= price.extended.output
    && price.standard.cachedInput <= price.extended.cachedInput
    && price.standard.cacheWrite <= price.extended.cacheWrite
  }

  lemma DominatingCrossesUpward(price: Price)
    requires Dominates(price)
    ensures CrossesUpward(price)
  {
    var (t, s, e) := (price.threshold, price.standard, price.extended);
    TimesGrows(s.input, e.input, t);
    TimesGrows(s.cachedInput, e.cachedInput, t);
    TimesGrows(t, t + 1, e.input);
    TimesGrows(t, t + 1, e.cachedInput);
    assert t * s.input == s.input * t && t * e.input == e.input * t;
    assert t * s.cachedInput == s.cachedInput * t && t * e.cachedInput == e.cachedInput * t;
  }

  lemma LineStaysUp(a: int, b: int, c: nat, t: nat)
    requires a >= 0 && a + t * b >= 0 && c <= t
    ensures a + c * b >= 0
  {
  }

  lemma Spread(k: nat, a: nat, b: nat, c: nat, d: nat)
    ensures k * (a - b - c + d) == k * a - k * b - k * c + k * d
  {
  }

  /** The difference across the threshold is linear in the cached tokens, so its ends decide. */
  lemma BetweenTheEnds(t: nat, c: nat, sIn: nat, sCached: nat, eIn: nat, eCached: nat)
    requires c <= t && t * sIn <= (t + 1) * eIn && t * sCached <= eIn + t * eCached
    ensures (t - c) * sIn + c * sCached <= (t + 1 - c) * eIn + c * eCached
  {
    var (a, b) := ((t + 1) * eIn - t * sIn, eCached - eIn - sCached + sIn);
    Spread(t, eCached, eIn, sCached, sIn);
    Spread(c, eCached, eIn, sCached, sIn);
    assert (t + 1) * eIn == t * eIn + eIn;
    LineStaysUp(a, b, c, t);
    assert (t - c) * sIn == t * sIn - c * sIn;
    assert (t + 1 - c) * eIn == (t + 1) * eIn - c * eIn;
  }

  lemma CrossingCosts(price: Price, cachedInput: nat)
    requires CrossesUpward(price)
    ensures InputCost(price.standard, price.threshold, cachedInput)
         <= InputCost(price.extended, price.threshold + 1, cachedInput)
  {
    var (t, s, e, c) := (price.threshold, price.standard, price.extended, cachedInput);
    if c <= t {
      BetweenTheEnds(t, c, s.input, s.cachedInput, e.input, e.cachedInput);
    } else {
      assert InputCost(s, t, c) == t * s.cachedInput;
      assert InputCost(e, t + 1, c) == (t + 1) * e.cachedInput;
    }
  }

  lemma UpwardIsMonotone(price: Price, usage: Usage, more: nat)
    requires CrossesUpward(price) && usage.input <= more
    ensures Credits(price, usage) <= Credits(price, usage.(input := more))
  {
    hide Credits, InputCost, CrossesUpward;
    var (t, s, e, c) := (price.threshold, price.standard, price.extended, usage.cachedInput);
    CreditsSplit(price, usage);
    CreditsSplit(price, usage.(input := more));
    if usage.input <= t < more {
      InputCostGrows(s, usage.input, t, c);
      CrossingCosts(price, c);
      InputCostGrows(e, t + 1, more, c);
      OtherRatesGrow(price, usage);
    } else {
      InputCostGrows(RatesFor(price, more), usage.input, more, c);
    }
  }

  lemma OtherRatesGrow(price: Price, usage: Usage)
    requires CrossesUpward(price)
    ensures usage.output * price.standard.output <= usage.output * price.extended.output
    ensures usage.cacheWrite * price.standard.cacheWrite <= usage.cacheWrite * price.extended.cacheWrite
  {
  }

  /** One step over the threshold, with the tokens of this usage. */
  lemma StepOver(price: Price, output: nat, cachedInput: nat, cacheWrite: nat)
    requires MonotoneInInput(price)
    ensures var (t, s, e) := (price.threshold, price.standard, price.extended);
            InputCost(s, t, cachedInput) + output * s.output + cacheWrite * s.cacheWrite
            <= InputCost(e, t + 1, cachedInput) + output * e.output + cacheWrite * e.cacheWrite
  {
    hide Credits, InputCost;
    var usage := Usage(price.threshold, output, cachedInput, cacheWrite);
    CreditsSplit(price, usage);
    CreditsSplit(price, usage.(input := price.threshold + 1));
    assert Credits(price, usage) <= Credits(price, usage.(input := price.threshold + 1));
  }

  lemma LargeTokens(k: nat, low: nat, high: nat)
    requires low < high
    ensures (k + 1) * high > k + (k + 1) * low
  {
    assert (k + 1) * high == (k + 1) * low + (k + 1) * (high - low);
    TimesGrows(1, high - low, k + 1);
    assert (high - low) * (k + 1) == (k + 1) * (high - low);
  }

  lemma EndsOfInputCost(rates: Rates, n: nat)
    ensures InputCost(rates, n, 0) == n * rates.input && InputCost(rates, n, n) == n * rates.cachedInput
    ensures InputCost(rates, n + 1, n) == rates.input + n * rates.cachedInput
    ensures InputCost(rates, n, n + 1) == n * rates.cachedInput
  {
  }

  lemma MonotoneCrosses(price: Price)
    requires MonotoneInInput(price)
    ensures CrossesUpward(price)
  {
    hide MonotoneInInput, InputCost;
    var (t, s, e) := (price.threshold, price.standard, price.extended);
    EndsOfInputCost(s, t);
    EndsOfInputCost(e, t);
    EndsOfInputCost(e, t + 1);
    StepOver(price, 0, 0, 0);
    StepOver(price, 0, t, 0);
    StepOver(price, 0, t + 1, 0);
    var k := InputCost(e, t + 1, 0);
    if s.output > e.output {
      StepOver(price, k + 1, 0, 0);
      LargeTokens(k, e.output, s.output);
      assert false;
    }
    if s.cacheWrite > e.cacheWrite {
      StepOver(price, 0, 0, k + 1);
      LargeTokens(k, e.cacheWrite, s.cacheWrite);
      assert false;
    }
  }

  /** A request never gets cheaper by growing, even across the tier threshold and the cache clamp,
      exactly when five comparisons of the configured rates hold. */
  lemma MonotoneIff(price: Price)
    ensures MonotoneInInput(price) <==> CrossesUpward(price)
  {
    hide Credits, CrossesUpward;
    if CrossesUpward(price) {
      forall usage: Usage, more: nat | usage.input <= more
        ensures Credits(price, usage) <= Credits(price, usage.(input := more))
      {
        UpwardIsMonotone(price, usage, more);
      }
    } else if MonotoneInInput(price) {
      MonotoneCrosses(price);
    }
  }

  /** A price whose extended tier is cheaper, and two requests of which the longer costs less. */
  lemma CheaperExtendedTier()
    ensures var price := Price(100, Rates(10, 0, 1, 0), Rates(5, 0, 1, 0));
            && Credits(price, Usage(100, 0, 0, 0)) == 1000 && Credits(price, Usage(101, 0, 0, 0)) == 505
            && !MonotoneInInput(price) && !CrossesUpward(price)
  {
    hide Credits, CrossesUpward;
    var price := Price(100, Rates(10, 0, 1, 0), Rates(5, 0, 1, 0));
    ChargeIsExact(price, Usage(100, 0, 0, 0));
    ChargeIsExact(price, Usage(101, 0, 0, 0));
    assert Usage(100, 0, 0, 0).(input := 101) == Usage(101, 0, 0, 0);
    MonotoneIff(price);
  }
}
