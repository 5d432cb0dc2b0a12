/**
  Charges, upstream costs and their audit. Rates are per million tokens, money is in whole micros or
  whole credits; everything is an integer, as in the BigInt arithmetic of the source.
*/
module Billing {
  function Min(a: int, b: int): int {
    if a < b then a else b
  }

  /** A number as it comes out of JSON or the database. */
  datatype Value = Number(v: real) | NotANumber

  /** `integer`: truncated, and 0 for anything negative or not finite. */
  function Integer(value: Value): nat {
    if value.NotANumber? || value.v < 1.0 then 0 else value.v.Floor
  }

  datatype Rates = Rates(input: nat, output: nat)

  datatype Usage = Usage(input: nat, output: nat)

  /** Products go through this name, so that proofs about them stay linear. */
  function Times(a: int, b: int): int {
    a * b
  }

  function Total(r: Rates, u: Usage): nat {
    TimesIsNat(u.input, r.input);
    TimesIsNat(u.output, r.output);
    Times(u.input, r.input) + Times(u.output, r.output)
  }

  lemma TimesIsNat(a: nat, b: nat)
    ensures Times(a, b) >= 0
  {
  }

  lemma Distributes(a: int, b: int, c: int)
    ensures Times(a + b, c) == Times(a, c) + Times(b, c)
  {
  }

  const MILLION: int := 1000000
  const CAP: int := 2000000000

  /** Rounded up. */
  function CeilMillion(n: int): int {
    (n + 999999) / 1000000
  }

  function CeilHundred(n: int): int {
    (n + 99) / 100
  }

  lemma CeilMillionIs(n: int)
    ensures n <= 1000000 * CeilMillion(n) < n + 1000000
  {
  }

  // ---------------------------------------------------------------- splitting a usage

  function ChargedUnits(r: Rates, u: Usage): nat {
    CeilMillion(Total(r, u))
  }

  function Plus(u: Usage, v: Usage): Usage {
    Usage(u.input + v.input, u.output + v.output)
  }

  function SumOf(us: seq<Usage>): Usage {
    if us == [] then Usage(0, 0) else Plus(us[0], SumOf(us[1..]))
  }

  function SumOfCharges(r: Rates, us: seq<Usage>): nat {
    if us == [] then 0 else ChargedUnits(r, us[0]) + SumOfCharges(r, us[1..])
  }

  lemma TotalAdds(r: Rates, u: Usage, v: Usage)
    ensures Total(r, Plus(u, v)) == Total(r, u) + Total(r, v)
  {
    Distributes(u.input, v.input, r.input);
    Distributes(u.output, v.output, r.output);
  }

  /** Billing a usage in `k` parts costs at least as much as in one, and at most `k - 1` units more. */
  lemma {:induction false} SplittingCostsLittle(r: Rates, us: seq<Usage>)
    requires us != []
    ensures 0 <= SumOfCharges(r, us) - ChargedUnits(r, SumOf(us)) <= |us| - 1
    decreases |us|
  {
    TotalAdds(r, us[0], SumOf(us[1..]));
    if |us| == 1 {
      assert SumOf(us) == us[0];
    } else {
      SplittingCostsLittle(r, us[1..]);
    }
  }

  /** The bound is reached: parts of one token each, at a rate of one unit per million. */
  lemma {:induction false} SplittingCanCostThatMuch(us: seq<Usage>)
    requires 1 <= |us| <= 1000000 && forall i :: 0 <= i < |us| ==> us[i] == Usage(1, 0)
    ensures SumOfCharges(Rates(1, 0), us) == |us| && ChargedUnits(Rates(1, 0), SumOf(us)) == 1
  {
    OneTokenEach(us);
  }

  lemma {:induction false} OneTokenEach(us: seq<Usage>)
    requires forall i :: 0 <= i < |us| ==> us[i] == Usage(1, 0)
    ensures SumOf(us) == Usage(|us|, 0) && Total(Rates(1, 0), SumOf(us)) == |us|
    ensures SumOfCharges(Rates(1, 0), us) == |us|
    decreases |us|
  {
    if us != [] { OneTokenEach(us[1..]); }
  }

  datatype Source = SubscriptionQuota | OverageCredits | CreationCredits

  function ChargedCredits(units: nat, percent: nat, source: Source): nat {
    match source
    case OverageCredits =>
      TimesIsNat(units, percent);
      CeilHundred(Times(units, percent))
    case CreationCredits => units
    case SubscriptionQuota => 0
  }

  function SumOfCredits(r: Rates, us: seq<Usage>, percent: nat, source: Source): nat {
    if us == [] then 0 else ChargedCredits(ChargedUnits(r, us[0]), percent, source) + SumOfCredits(r, us[1..], percent, source)
  }

  lemma TimesGrows(a: int, b: int, c: nat)
    requires a <= b
    ensures Times(a, c) <= Times(b, c)
  {
    Distributes(a, b - a, c);
    TimesIsNat(b - a, c);
  }

  lemma {:induction false} CreditsOfParts(r: Rates, us: seq<Usage>, percent: nat)
    requires us != []
    ensures 0 <= SumOfCredits(r, us, percent, OverageCredits) - CeilHundred(Times(SumOfCharges(r, us), percent)) <= |us| - 1
    decreases |us|
  {
    if |us| == 1 {
      assert us[1..] == [];
      assert SumOfCharges(r, us) == ChargedUnits(r, us[0]);
      assert SumOfCredits(r, us, percent, OverageCredits) == CeilHundred(Times(ChargedUnits(r, us[0]), percent));
    } else {
      Distributes(ChargedUnits(r, us[0]), SumOfCharges(r, us[1..]), percent);
      CreditsOfParts(r, us[1..], percent);
    }
  }

  lemma OverageGrows(whole: int, parts: int, more: nat, percent: nat)
    requires whole <= parts <= whole + more
    ensures 0 <= CeilHundred(Times(parts, percent)) - CeilHundred(Times(whole, percent)) <= CeilHundred(Times(more, percent))
  {
    TimesGrows(whole, parts, percent);
    TimesGrows(parts, whole + more, percent);
    Distributes(whole, more, percent);
  }

  /** Both roundings together: what settling in parts can add, whatever is being charged. */
  lemma SplitSettlementCostsLittle(r: Rates, us: seq<Usage>, percent: nat, source: Source)
    requires us != []
    ensures 0 <= SumOfCredits(r, us, percent, source) - ChargedCredits(ChargedUnits(r, SumOf(us)), percent, source)
              <= |us| - 1 + CeilHundred(Times(|us| - 1, percent))
  {
    SplittingCostsLittle(r, us);
    TimesIsNat(|us| - 1, percent);
    if source.OverageCredits? {
      CreditsOfParts(r, us, percent);
      OverageGrows(ChargedUnits(r, SumOf(us)), SumOfCharges(r, us), |us| - 1, percent);
    } else {
      SimpleCredits(r, us, percent, source);
    }
  }

  lemma {:induction false} SimpleCredits(r: Rates, us: seq<Usage>, percent: nat, source: Source)
    requires !source.OverageCredits?
    ensures SumOfCredits(r, us, percent, source) == if source.CreationCredits? then SumOfCharges(r, us) else 0
    decreases |us|
  {
    if us != [] { SimpleCredits(r, us[1..], percent, source); }
  }

  // ---------------------------------------------------------------- the cost that is recorded and the cost that is audited

  function CeilTrillion(n: int): int {
    (n + 999999999999) / 1000000000000
  }

  /** The exchange rate of a snapshot in millionths; par when there is none. */
  function ExchangeRate(value: Value): (e: nat)
    ensures e > 0
  {
    if Integer(value) == 0 then MILLION else Integer(value)
  }

  function CostMicros(r: Rates, u: Usage, e: nat): int {
    Min(CAP, CeilTrillion(Times(Total(r, u), e)))
  }

  /** The audit's own formula: each kind of token is rounded by itself, and at par. */
  function ExpectedUpstreamCost(r: Rates, u: Usage): int {
    Min(CAP, CeilMillion(Times(u.input, r.input)) + CeilMillion(Times(u.output, r.output)))
  }

  lemma Par(n: int)
    ensures CeilTrillion(Times(n, MILLION)) == CeilMillion(n)
  {
    assert Times(n, MILLION) == 1000000 * n;
  }

  function Remainder(n: int): int {
    n % 1000000
  }

  /** Rounding two parts by themselves gives one more exactly when neither is whole and together they fit in one. */
  predicate RoundsTwice(a: int, b: int) {
    Remainder(a) > 0 && Remainder(b) > 0 && Remainder(a) + Remainder(b) <= 1000000
  }

  lemma RoundedParts(a: int, b: int)
    ensures CeilMillion(a) + CeilMillion(b) == CeilMillion(a + b) + if RoundsTwice(a, b) then 1 else 0
  {
  }

  /** At par the two formulas differ by at most one micro, cap included. */
  lemma AuditIsWithinOne(r: Rates, u: Usage)
    ensures CostMicros(r, u, MILLION) <= ExpectedUpstreamCost(r, u) <= CostMicros(r, u, MILLION) + 1
  {
    Par(Total(r, u));
    RoundedParts(Times(u.input, r.input), Times(u.output, r.output));
  }

  /** A snapshot without a usable exchange rate is at par, whatever stands in its place. */
  lemma NoRateIsPar(r: Rates, u: Usage, rate: Value)
    requires rate.NotANumber? || rate.v < 1.0
    ensures CostMicros(r, u, ExchangeRate(rate)) <= ExpectedUpstreamCost(r, u) <= CostMicros(r, u, ExchangeRate(rate)) + 1
  {
    AuditIsWithinOne(r, u);
  }

  /** And they agree, so that a correct record is not reported, exactly when no rounding is done twice below the cap. */
  lemma AuditAgreesIff(r: Rates, u: Usage)
    ensures CostMicros(r, u, MILLION) == ExpectedUpstreamCost(r, u)
            <==> CostMicros(r, u, MILLION) == CAP || !RoundsTwice(Times(u.input, r.input), Times(u.output, r.output))
  {
    Par(Total(r, u));
    RoundedParts(Times(u.input, r.input), Times(u.output, r.output));
  }

  /** A correct record at par that the audit reports: one token each way, at half a micro a token. */
  lemma AuditCanDisagree()
    ensures var r, u := Rates(500000, 500000), Usage(1, 1);
            CostMicros(r, u, MILLION) == 1 && ExpectedUpstreamCost(r, u) == 2
  {
    assert Times(1, 500000) == 500000;
    Par(1000000);
  }

  lemma RateGrows(n: nat, e: nat, f: nat)
    requires e <= f
    ensures Times(n, e) <= Times(n, f)
  {
    assert Times(n, f) - Times(n, e) == Times(n, f - e);
    TimesIsNat(n, f - e);
  }

  /**
    Away from par the audit ignores the rate: above it the recorded cost may be far higher, but is never
    lower by more than one.
  */
  lemma AuditIgnoresTheRate(r: Rates, u: Usage, e: nat)
    ensures e >= MILLION ==> ExpectedUpstreamCost(r, u) <= CostMicros(r, u, e) + 1
    ensures e <= MILLION ==> CostMicros(r, u, e) <= ExpectedUpstreamCost(r, u)
  {
    AuditIsWithinOne(r, u);
    if e >= MILLION {
      RateGrows(Total(r, u), MILLION, e);
    } else {
      RateGrows(Total(r, u), e, MILLION);
    }
  }

  // ---------------------------------------------------------------- localizing a cost already rounded

  function LocalizedCostMicros(usdMicros: int, e: nat): int {
    Min(CAP, CeilMillion(Times(usdMicros, e)))
  }

  lemma LocalizedBounds(total: nat, c: nat, e: nat)
    requires c == CeilMillion(total)
    ensures CeilTrillion(Times(total, e)) <= CeilMillion(Times(c, e)) <= CeilTrillion(Times(total, e)) + CeilMillion(e)
  {
    CeilMillionIs(total);
    var scaled := 1000000 * c;
    assert Times(scaled, e) == 1000000 * Times(c, e);
    TimesGrows(total, scaled, e);
    TimesGrows(scaled, total + 999999, e);
    Distributes(total, 999999, e);
    assert Times(999999, e) == 999999 * e;
  }

  /** Converting a cost that was rounded, and capped, in dollars overshoots by at most the rate rounded up. */
  lemma LocalizingOvershootsLittle(r: Rates, u: Usage, e: nat)
    ensures LocalizedCostMicros(CostMicros(r, u, MILLION), e) <= CostMicros(r, u, e) + CeilMillion(e)
  {
    var c := CeilMillion(Total(r, u));
    Par(Total(r, u));
    LocalizedBounds(Total(r, u), c, e);
    if c > CAP { TimesGrows(CAP, c, e); }
  }

  lemma CappedFallsShort(total: nat, e: nat)
    requires CeilMillion(total) > CAP && 0 < e < MILLION
    ensures CeilMillion(Times(CAP, e)) < Min(CAP, CeilTrillion(Times(total, e)))
  {
    assert total >= 2000000000000001;
    TimesGrows(2000000000000001, total, e);
    assert Times(2000000000000001, e) == 2000000000000001 * e;
    assert Times(CAP, e) == 2000000000 * e;
  }

  /**
    Beyond the cap and below par it does: 4000 dollars at half a unit each make 2000 units, but the
    2000 dollars they are capped at make 1000.
  */
  lemma LocalizingCanFallShort()
    ensures var r, u := Rates(2000000, 0), Usage(2000000000, 0);
            CostMicros(r, u, 500000) == 2000000000
            && LocalizedCostMicros(CostMicros(r, u, MILLION), 500000) == 1000000000
  {
    var total := 4000000000000000;
    assert Times(2000000000, 2000000) == total;
    assert Total(Rates(2000000, 0), Usage(2000000000, 0)) == total;
    Par(total);
    assert Times(total, 500000) == 2000000000000000000000;
    assert Times(2000000000, 500000) == 1000000000000000;
  }

  /** It never falls short, exactly when the dollar cost was below the cap or the rate is at least par. */
  lemma LocalizingNeverFallsShortIff(r: Rates, u: Usage, e: nat)
    requires e > 0
    ensures LocalizedCostMicros(CostMicros(r, u, MILLION), e) >= CostMicros(r, u, e)
            <==> CeilMillion(Total(r, u)) <= CAP || e >= MILLION
  {
    var total := Total(r, u);
    Par(total);
    if CeilMillion(total) <= CAP {
      LocalizedBounds(total, CeilMillion(total), e);
    } else if e < MILLION {
      CappedFallsShort(total, e);
    } else {
      RateGrows(CAP, MILLION, e);
      assert Times(CAP, MILLION) == 2000000000000000;
    }
  }

  // ---------------------------------------------------------------- what each number is

  /**
    Tokens in both directions are charged, in whole units rounded up once; credits are these units, a
    percentage of them rounded up, or none.
  */
  lemma ChargesAreCeilings(r: Rates, u: Usage, percent: nat)
    ensures var total := u.input * r.input + u.output * r.output;
            var units := ChargedUnits(r, u);
            && total <= 1000000 * units < total + 1000000
            && ChargedCredits(units, percent, CreationCredits) == units
            && ChargedCredits(units, percent, SubscriptionQuota) == 0
            && Times(units, percent) <= 100 * ChargedCredits(units, percent, OverageCredits) < Times(units, percent) + 100
  {
    CeilMillionIs(Total(r, u));
  }

  /**
    The recorded cost is the total at the snapshot's rate, rounded up once and capped; the audited one is
    rounded for each direction.
  */
  lemma CostsAreCeilings(r: Rates, u: Usage, e: nat)
    ensures var total := Times(u.input * r.input + u.output * r.output, e);
            var cost := CostMicros(r, u, e);
            if total > 2000000000 * 1000000000000 then cost == 2000000000
            else total <= 1000000000000 * cost < total + 1000000000000
    ensures exists a: int, b: int ::
              && u.input * r.input <= 1000000 * a < u.input * r.input + 1000000
              && u.output * r.output <= 1000000 * b < u.output * r.output + 1000000
              && ExpectedUpstreamCost(r, u) == if a + b > 2000000000 then 2000000000 else a + b
  {
    CeilMillionIs(u.input * r.input);
    CeilMillionIs(u.output * r.output);
    var a, b := CeilMillion(u.input * r.input), CeilMillion(u.output * r.output);
    assert u.input * r.input <= 1000000 * a < u.input * r.input + 1000000;
    assert u.output * r.output <= 1000000 * b < u.output * r.output + 1000000;
  }

  /** A usable number is truncated and used; anything below 1 is no amount, and no exchange rate. */
  lemma NumbersAreTruncated(value: Value)
    ensures value.Number? && value.v >= 1.0 ==>
              && Integer(value) as real <= value.v < (Integer(value) + 1) as real
              && ExchangeRate(value) == Integer(value)
    ensures value.NotANumber? || value.v < 1.0 ==> Integer(value) == 0 && ExchangeRate(value) == 1000000
  {
  }
}
