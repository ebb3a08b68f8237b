/**
 The price breakdown, field by field: each rate read off the catalog and the rules by itself, and each
 amount as the nearest kobo to what it stands for.
 */
module PriceFields {
  import opened Common
  import opened Rounding
  import opened Pricing

  /** The whole number nearest to x; between two of them, the even one. */
  predicate Nearest(n: int, x: real) {
    && x - 0.5 <= n as real <= x + 0.5
    && (n as real == x - 0.5 || n as real == x + 0.5 ==> n % 2 == 0)
  }

  /** An amount of kobo that is a rate of another. */
  predicate IsShare(share: int, whole: int, rate: real) {
    Nearest(share, whole as real * rate)
  }

  /** An amount of kobo for a quantity charged at so many naira each. */
  predicate IsCharge(fee: int, quantity: real, rate: real) {
    Nearest(fee, 100.0 * (quantity * rate))
  }

  lemma HundredthsNearest(x: real)
    ensures Nearest(Hundredths(x), 100.0 * x)
  {
    RoundsToNearest(100.0 * x, Hundredths(x));
    hide RoundHalfEven;
  }

  // ── Rates in force ──────────────────────────────────────────────────────

  predicate IsNonZero(x: Option<real>) {
    x.Some? && x.value != 0.0
  }

  predicate IsGiven(id: Option<Id>) {
    id.Some? && id.value != ""
  }

  function ServiceOf(c: Catalog, request: Request): Option<Service> {
    if IsGiven(request.service) && request.service.value in c.services then Some(c.services[request.service.value]) else None
  }

  /** The category of the service; without one, the category asked for. */
  function CategoryOf(c: Catalog, request: Request): Option<Id> {
    var service := ServiceOf(c, request);
    if service.Some? && IsGiven(service.value.category) && service.value.category.value in c.categories then service.value.category
    else if IsGiven(request.category) && request.category.value in c.categories then request.category
    else None
  }

  function CategoryRow(c: Catalog, request: Request): Option<Category> {
    match CategoryOf(c, request)
    case Some(id) => if id in c.categories then Some(c.categories[id]) else None
    case None => None
  }

  /** A rule of another category or region does not count, nor an inactive one. */
  predicate Applies(rule: Rule, category: Option<Id>, region: Option<Id>) {
    && rule.active
    && (!IsGiven(category) || rule.category == None || rule.category == category)
    && (!IsGiven(region) || rule.region == None || rule.region == region)
  }

  predicate Sets(rule: Rule, kind: RuleType, category: Option<Id>, region: Option<Id>) {
    rule.kind == kind && Applies(rule, category, region) && rule.value.Some? && rule.value.value > 0.0
  }

  /** What the last rule of this kind says that applies and is positive. */
  function LastRate(rules: seq<Rule>, kind: RuleType, category: Option<Id>, region: Option<Id>, fallback: real): real {
    if |rules| == 0 then fallback
    else if Sets(rules[|rules| - 1], kind, category, region) then rules[|rules| - 1].value.value
    else LastRate(rules[..|rules| - 1], kind, category, region, fallback)
  }

  /** The last surcharge for urgent tasks that applies. */
  function LastSurcharge(rules: seq<Rule>, category: Option<Id>, region: Option<Id>): real {
    if |rules| == 0 then 0.0 else
      var last := rules[|rules| - 1];
      if last.kind == UrgencyFee && Applies(last, category, region) && IsNonZero(last.value) then last.value.value
      else LastSurcharge(rules[..|rules| - 1], category, region)
  }

  function SumOfFlats(rules: seq<Rule>, category: Option<Id>, region: Option<Id>): real {
    if |rules| == 0 then 0.0 else
      var last := rules[|rules| - 1];
      SumOfFlats(rules[..|rules| - 1], category, region) +
      (if last.kind == ComplexityFlat && Applies(last, category, region) && last.value.Some? then last.value.value else 0.0)
  }

  predicate Multiplies(rule: Rule, category: Option<Id>, region: Option<Id>) {
    rule.kind == SurgeMultiplier && Applies(rule, category, region) && IsNonZero(rule.multiplier)
  }

  /** The largest multiplier that applies, and never less than one. */
  predicate IsLargest(surge: real, rules: seq<Rule>, category: Option<Id>, region: Option<Id>) {
    && surge >= 1.0
    && (forall i | 0 <= i < |rules| && Multiplies(rules[i], category, region) :: rules[i].multiplier.value <= surge)
    && (surge == 1.0 || exists i | 0 <= i < |rules| :: Multiplies(rules[i], category, region) && rules[i].multiplier.value == surge)
  }

  function OneMore(r: Rates, rule: Rule, category: Option<Id>, region: Option<Id>, urgent: bool): Rates {
    if Selected(rule, Named(category), Named(region)) then Apply(r, rule, urgent) else r
  }

  lemma SelectOneMore(r: Rates, rules: seq<Rule>, category: Option<Id>, region: Option<Id>, urgent: bool)
    requires |rules| > 0
    ensures ApplyAll(r, Select(rules, Named(category), Named(region)), urgent) ==
      OneMore(ApplyAll(r, Select(rules[..|rules| - 1], Named(category), Named(region)), urgent), rules[|rules| - 1], category, region, urgent)
  {
    var before, last := Select(rules[..|rules| - 1], Named(category), Named(region)), rules[|rules| - 1];
    assert (before + [last])[..|before|] == before;
    hide Apply, Selected;
    assert Select(rules, Named(category), Named(region)) ==
      if Selected(last, Named(category), Named(region)) then before + [last] else before;
  }

  lemma SelectedApplies(rule: Rule, category: Option<Id>, region: Option<Id>)
    ensures Selected(rule, Named(category), Named(region)) <==> Applies(rule, category, region)
  {
  }

  lemma PricesOneMore(r: Rates, q: Rates, rules: seq<Rule>, category: Option<Id>, region: Option<Id>, urgent: bool)
    requires |rules| > 0 && var front := rules[..|rules| - 1];
      && q.basePrice == LastRate(front, BaseRate, category, region, r.basePrice)
      && q.perKm == LastRate(front, PerKm, category, region, r.perKm)
      && q.perMinute == LastRate(front, PerMinute, category, region, r.perMinute)
    ensures var q' := OneMore(q, rules[|rules| - 1], category, region, urgent);
      && q'.basePrice == LastRate(rules, BaseRate, category, region, r.basePrice)
      && q'.perKm == LastRate(rules, PerKm, category, region, r.perKm)
      && q'.perMinute == LastRate(rules, PerMinute, category, region, r.perMinute)
  {
    SelectedApplies(rules[|rules| - 1], category, region);
    hide Selected, Applies;
  }

  lemma FeesOneMore(r: Rates, q: Rates, rules: seq<Rule>, category: Option<Id>, region: Option<Id>, urgent: bool)
    requires |rules| > 0 && var front := rules[..|rules| - 1];
      && q.urgency == (if urgent then LastSurcharge(front, category, region) else 0.0)
      && q.complexity == r.complexity + SumOfFlats(front, category, region)
    ensures var q' := OneMore(q, rules[|rules| - 1], category, region, urgent);
      && q'.urgency == (if urgent then LastSurcharge(rules, category, region) else 0.0)
      && q'.complexity == r.complexity + SumOfFlats(rules, category, region)
  {
    SelectedApplies(rules[|rules| - 1], category, region);
    hide Selected, Applies;
  }

  lemma {:induction false} RatesByRules(r: Rates, rules: seq<Rule>, category: Option<Id>, region: Option<Id>, urgent: bool)
    requires r.urgency == 0.0 && r.surge == 1.0
    ensures var q := ApplyAll(r, Select(rules, Named(category), Named(region)), urgent);
      && q.basePrice == LastRate(rules, BaseRate, category, region, r.basePrice)
      && q.perKm == LastRate(rules, PerKm, category, region, r.perKm)
      && q.perMinute == LastRate(rules, PerMinute, category, region, r.perMinute)
      && q.urgency == (if urgent then LastSurcharge(rules, category, region) else 0.0)
      && q.complexity == r.complexity + SumOfFlats(rules, category, region)
      && IsLargest(q.surge, rules, category, region)
  {
    if |rules| > 0 {
      var front := rules[..|rules| - 1];
      RatesByRules(r, front, category, region, urgent);
      var q := ApplyAll(r, Select(front, Named(category), Named(region)), urgent);
      hide ApplyAll, Select, IsLargest, OneMore, LastRate, LastSurcharge, SumOfFlats;
      SelectOneMore(r, rules, category, region, urgent);
      PricesOneMore(r, q, rules, category, region, urgent);
      FeesOneMore(r, q, rules, category, region, urgent);
      SurgeOneMore(q, rules, category, region, urgent);
    }
  }

  lemma SurgeOneMore(q: Rates, rules: seq<Rule>, category: Option<Id>, region: Option<Id>, urgent: bool)
    requires |rules| > 0 && IsLargest(q.surge, rules[..|rules| - 1], category, region)
    ensures IsLargest(OneMore(q, rules[|rules| - 1], category, region, urgent).surge, rules, category, region)
  {
    var front, last := rules[..|rules| - 1], rules[|rules| - 1];
    SelectedApplies(last, category, region);
    var surge := OneMore(q, last, category, region, urgent).surge;
    assert surge == if Multiplies(last, category, region) then MaxReal(q.surge, last.multiplier.value) else q.surge;
    hide OneMore, Multiplies;
    assert forall i | 0 <= i < |front| :: rules[i] == front[i];
    if surge != 1.0 && surge == q.surge {
      var i :| 0 <= i < |front| && Multiplies(front[i], category, region) && front[i].multiplier.value == surge;
      assert rules[i] == front[i];
    }
  }

  /** The first of two amounts that is not zero, or else a constant. */
  function FirstOf(a: Option<real>, b: Option<real>, fallback: real): real {
    if IsNonZero(a) then a.value else if IsNonZero(b) then b.value else fallback
  }

  lemma DefaultsTell(c: Catalog, request: Request)
    ensures var t := Defaults(c, request); var s, k := ServiceOf(c, request), CategoryRow(c, request);
      && t.rates.perKm == FirstOf(if s.Some? then s.value.perKm else None, if k.Some? then k.value.perKm else None, 150.0)
      && t.rates.perMinute == FirstOf(if s.Some? then s.value.perMinute else None, if k.Some? then k.value.perMinute else None, 20.0)
      && t.rates.basePrice == (if s.Some? && s.value.basePrice.Some? && s.value.basePrice.value > 0.0 then s.value.basePrice.value
           else if k.Some? && k.value.basePrice.Some? then k.value.basePrice.value else 0.0)
      && t.rates.urgency == 0.0 && t.rates.surge == 1.0
      && t.rates.complexity == (if request.complexity.Some? then request.complexity.value else 0.0)
      && t.takeRate == (if s.Some? && s.value.takeRate.Some? then s.value.takeRate.value else 0.15)
      && t.duration == (if s.Some? && s.value.duration.Some? && s.value.duration.value != 0 then s.value.duration.value
           else if k.Some? && k.value.duration.Some? && k.value.duration.value != 0 then k.value.duration.value else 60)
  {
  }

  /**
   Every rate in force: the last rule that sets it, or else what the service says, the category, a
   constant. A price of the service counts when it is positive, its take rate whenever it is given.
   */
  lemma RatesTell(c: Catalog, request: Request)
    ensures var t := PricedTerms(c, request); var s, k := ServiceOf(c, request), CategoryRow(c, request);
      var category := if IsGiven(request.category) then request.category else CategoryOf(c, request);
      var region := request.region;
      && t.rates.perKm == LastRate(c.rules, PerKm, category, region,
           FirstOf(if s.Some? then s.value.perKm else None, if k.Some? then k.value.perKm else None, 150.0))
      && t.rates.perMinute == LastRate(c.rules, PerMinute, category, region,
           FirstOf(if s.Some? then s.value.perMinute else None, if k.Some? then k.value.perMinute else None, 20.0))
      && t.rates.basePrice == LastRate(c.rules, BaseRate, category, region,
           if s.Some? && s.value.basePrice.Some? && s.value.basePrice.value > 0.0 then s.value.basePrice.value
           else if k.Some? && k.value.basePrice.Some? then k.value.basePrice.value else 0.0)
      && t.rates.urgency == (if request.urgent then LastSurcharge(c.rules, category, region) else 0.0)
      && t.rates.complexity == (if request.complexity.Some? then request.complexity.value else 0.0) + SumOfFlats(c.rules, category, region)
      && IsLargest(t.rates.surge, c.rules, category, region)
      && t.takeRate == (if s.Some? && s.value.takeRate.Some? then s.value.takeRate.value else 0.15)
      && t.duration == (if s.Some? && s.value.duration.Some? && s.value.duration.value != 0 then s.value.duration.value
           else if k.Some? && k.value.duration.Some? && k.value.duration.value != 0 then k.value.duration.value else 60)
  {
    var category := if IsGiven(request.category) then request.category else CategoryOf(c, request);
    assert RuleCategory(c, request) == Named(category);
    hide ApplyAll, Select, LastRate, LastSurcharge, SumOfFlats, IsLargest, Defaults, FirstOf, CategoryOf, RuleCategory;
    DefaultsTell(c, request);
    RatesByRules(Defaults(c, request).rates, c.rules, category, request.region, request.urgent);
  }

  // ── Amounts ─────────────────────────────────────────────────────────────

  /** What the demand adds to the multiplier of the rules; an override replaces both. */
  predicate IsSurge(surge: real, rule: real, request: Request) {
    if request.surgeOverride.Some? && request.surgeOverride.value > 0.0 then surge == request.surgeOverride.value
    else if request.openTasks.None? || request.providers.None? then surge == rule
    else
      var open, free := request.openTasks.value, if request.providers.value >= 1 then request.providers.value else 1;
      if open >= 3 * free then surge == MaxReal(rule, 1.5)
      else if open >= 2 * free then surge == MaxReal(rule, 1.25)
      else if open >= free then surge == MaxReal(rule, 1.1)
      else surge == rule
  }

  lemma QuotientAtLeast(open: int, free: int, k: int)
    requires free >= 1
    ensures open as real / free as real >= k as real <==> open >= k * free
  {
    var q := open as real / free as real;
    assert q * free as real == open as real;
    if q >= k as real {
      Product(k as real, q, free as real);
    } else {
      assert (k as real - q) * free as real > 0.0;
    }
  }

  lemma SurgeIs(rule: real, request: Request)
    ensures IsSurge(Surge(rule, request), rule, request)
  {
    if request.openTasks.Some? && request.providers.Some? {
      var open, free := request.openTasks.value, Max(1, request.providers.value);
      QuotientAtLeast(open, free, 1);
      QuotientAtLeast(open, free, 2);
      QuotientAtLeast(open, free, 3);
    }
  }

  lemma FeeNearest(fee: int, x: real, y: real)
    requires fee == Hundredths(Times(x, y))
    ensures IsCharge(fee, x, y)
  {
    HundredthsNearest(Times(x, y));
    hide Hundredths;
  }

  lemma PartsOf(t: Terms, request: Request, km: real, minutes: int, surcharge: real)
    requires km == Distance(request) && minutes == OrInt(request.duration, t.duration)
    requires surcharge == Urgency(t.rates.urgency, request.urgent)
    ensures var b := Finish(t, request);
      && b.distanceFee == Hundredths(Times(km, t.rates.perKm)) && b.timeFee == Hundredths(Times(minutes as real, t.rates.perMinute))
      && b.basePrice == Hundredths(t.rates.basePrice) && b.urgencyFee == Hundredths(surcharge)
      && b.complexityFee == Hundredths(t.rates.complexity)
      && b.subtotal == Hundredths(t.rates.basePrice + Naira(b.distanceFee) + Naira(b.timeFee) + surcharge + t.rates.complexity)
  {
    hide Hundredths, Surge, Scaled, Payout, Times, Naira;
  }

  lemma SubtotalNearest(subtotal: int, base: real, travel: int, labour: int, surcharge: real, complexity: real)
    requires subtotal == Hundredths(base + Naira(travel) + Naira(labour) + surcharge + complexity)
    ensures Nearest(subtotal, 100.0 * base + (travel + labour) as real + 100.0 * surcharge + 100.0 * complexity)
  {
    HundredthsNearest(base + Naira(travel) + Naira(labour) + surcharge + complexity);
    hide Hundredths;
  }

  /** The distance is not charged below zero, the time is the one asked for or else the usual one. */
  lemma PartsTell(c: Catalog, request: Request)
    ensures var t, b := PricedTerms(c, request), Price(c, request);
      var km := if request.distance.Some? && request.distance.value > 0.0 then request.distance.value else 0.0;
      var minutes := if request.duration.Some? && request.duration.value != 0 then request.duration.value else t.duration;
      var surcharge := if request.urgent && t.rates.urgency == 0.0 then 1000.0 else t.rates.urgency;
      && IsCharge(b.distanceFee, km, t.rates.perKm)
      && IsCharge(b.timeFee, minutes as real, t.rates.perMinute)
      && Nearest(b.basePrice, 100.0 * t.rates.basePrice)
      && Nearest(b.urgencyFee, 100.0 * surcharge)
      && Nearest(b.complexityFee, 100.0 * t.rates.complexity)
      && Nearest(b.subtotal,
           100.0 * t.rates.basePrice + (b.distanceFee + b.timeFee) as real + 100.0 * surcharge + 100.0 * t.rates.complexity)
  {
    var t, b := PricedTerms(c, request), Price(c, request);
    var km := if request.distance.Some? && request.distance.value > 0.0 then request.distance.value else 0.0;
    var minutes := if request.duration.Some? && request.duration.value != 0 then request.duration.value else t.duration;
    var surcharge := if request.urgent && t.rates.urgency == 0.0 then 1000.0 else t.rates.urgency;
    PartsOf(t, request, km, minutes, surcharge);
    hide Finish, Hundredths, PricedTerms, Nearest, IsCharge, Times, Naira;
    FeeNearest(b.distanceFee, km, t.rates.perKm);
    FeeNearest(b.timeFee, minutes as real, t.rates.perMinute);
    HundredthsNearest(t.rates.basePrice);
    HundredthsNearest(surcharge);
    HundredthsNearest(t.rates.complexity);
    SubtotalNearest(b.subtotal, t.rates.basePrice, b.distanceFee, b.timeFee, surcharge, t.rates.complexity);
  }

  lemma FinishIs(t: Terms, request: Request)
    ensures var b, surge := Finish(t, request), Surge(t.rates.surge, request);
      && b.total == Scaled(b.subtotal, surge) && b.surge == Hundredths(surge) && b.takeRate == t.takeRate
      && b.platformFee == Scaled(b.total, b.takeRate) && b.payout == Payout(b.total, b.takeRate)
  {
    hide Hundredths, Surge, Scaled, Payout, Subtotal, DistanceFee, Times;
  }

  lemma SplitOf(fee: int, payout: int, total: int, rate: real)
    requires fee == Scaled(total, rate) && payout == Payout(total, rate)
    ensures IsShare(fee, total, rate) && fee + payout == total
    ensures total >= 0 && 0.0 <= rate <= 1.0 ==> 0 <= fee <= total && 0 <= payout <= total
  {
    ScaledIs(total, rate);
    RoundsToNearest(Times(total as real, rate), fee);
    SplitIsExact(total, rate);
    if total >= 0 && 0.0 <= rate <= 1.0 {
      SplitIsFair(total, rate);
    }
    hide RoundHalfEven, Scaled, Payout;
  }

  lemma TotalOf(total: int, shown: int, subtotal: int, surge: real)
    requires total == Scaled(subtotal, surge) && shown == Hundredths(surge)
    ensures IsShare(total, subtotal, surge) && Nearest(shown, 100.0 * surge)
  {
    ScaledIs(subtotal, surge);
    RoundsToNearest(Times(subtotal as real, surge), total);
    HundredthsNearest(surge);
    hide RoundHalfEven, Scaled, Hundredths;
  }

  /**
   The breakdown of every price: the total is nearest to the subtotal times the surge in force, the
   platform's fee nearest to its rate of the total, and the provider gets exactly the rest.
   */
  lemma SplitTells(c: Catalog, request: Request)
    ensures var t, b := PricedTerms(c, request), Price(c, request);
      && IsShare(b.platformFee, b.total, b.takeRate) && b.platformFee + b.payout == b.total
      && b.takeRate == t.takeRate
      && (b.total >= 0 && 0.0 <= b.takeRate <= 1.0 ==> 0 <= b.platformFee <= b.total && 0 <= b.payout <= b.total)
    ensures exists surge :: IsTotal(Price(c, request), surge) && IsSurge(surge, PricedTerms(c, request).rates.surge, request)
  {
    var t, b := PricedTerms(c, request), Price(c, request);
    var surge := Surge(t.rates.surge, request);
    FinishIs(t, request);
    hide Finish, Hundredths, PricedTerms, Nearest, IsShare, Surge, Scaled, Payout, IsSurge;
    SplitOf(b.platformFee, b.payout, b.total, b.takeRate);
    TotalOf(b.total, b.surge, b.subtotal, surge);
    SurgeIs(t.rates.surge, request);
    assert IsTotal(b, surge);
  }

  /** The total is the nearest to the subtotal times the surge, which is shown to two places. */
  predicate IsTotal(b: Breakdown, surge: real) {
    IsShare(b.total, b.subtotal, surge) && Nearest(b.surge, 100.0 * surge)
  }

  /** A price adjustment: the fee is the nearest kobo to the rate, or to 15 per cent without one; no price is below zero. */
  lemma AdjustmentTells(amount: Option<real>, takeRate: Option<real>)
    ensures var price := if amount.Some? && amount.value > 0.0 then amount.value else 0.0;
      && IsCharge(AdjustedFee(amount, takeRate), price, if takeRate.Some? then takeRate.value else 0.15)
      && Nearest(AdjustedPayout(amount, takeRate), 100.0 * price - AdjustedFee(amount, takeRate) as real)
  {
    var price := if amount.Some? && amount.value > 0.0 then amount.value else 0.0;
    var fee := AdjustedFee(amount, takeRate);
    assert AdjustedPrice(amount) == price;
    FeeNearest(fee, price, if takeRate.Some? then takeRate.value else 0.15);
    HundredthsNearest(price - Naira(fee));
    hide Hundredths, AdjustedFee, AdjustedPrice, IsCharge;
    assert 100.0 * (price - Naira(fee)) == 100.0 * price - fee as real;
  }
}
