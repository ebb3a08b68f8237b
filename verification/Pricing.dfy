/**
 Upfront prices. Rates and unrounded amounts are real numbers of naira; amounts the code rounds to
 two places are whole numbers of kobo.
 */
module Pricing {
  import opened Common
  import opened Rounding

  type Id = string

  datatype RuleType = BaseRate | PerKm | PerMinute | UrgencyFee | ComplexityFlat | SurgeMultiplier

  datatype Rule = Rule(kind: RuleType, value: Option<real>, multiplier: Option<real>, active: bool,
                       category: Option<Id>, region: Option<Id>)

  datatype Category = Category(basePrice: Option<real>, duration: Option<int>, perKm: Option<real>, perMinute: Option<real>)

  datatype Service = Service(
    category: Option<Id>, basePrice: Option<real>, duration: Option<int>, perKm: Option<real>, perMinute: Option<real>,
    takeRate: Option<real>)

  datatype Request = Request(
    service: Option<Id>, category: Option<Id>, region: Option<Id>, distance: Option<real>, duration: Option<int>,
    urgent: bool, complexity: Option<real>, openTasks: Option<int>, providers: Option<int>, surgeOverride: Option<real>)

  datatype Catalog = Catalog(services: map<Id, Service>, categories: map<Id, Category>, rules: seq<Rule>)

  datatype Breakdown = Breakdown(
    basePrice: int, distanceFee: int, timeFee: int, urgencyFee: int, complexityFee: int, surge: int,
    subtotal: int, total: int, platformFee: int, payout: int, takeRate: real)

  // ── Defaults ────────────────────────────────────────────────────────────

  /** `x or fallback`: a missing value and zero are the same. */
  function Or(x: Option<real>, fallback: real): real {
    if x.Some? && x.value != 0.0 then x.value else fallback
  }

  function OrInt(x: Option<int>, fallback: int): int {
    if x.Some? && x.value != 0 then x.value else fallback
  }

  function Named(id: Option<Id>): Option<Id> {
    if id == Some("") then None else id
  }

  function FindService(c: Catalog, request: Request): Option<Service> {
    var id := Named(request.service);
    if id.Some? && id.value in c.services then Some(c.services[id.value]) else None
  }

  /** The category of the service, or else the one asked for. */
  function FindCategory(c: Catalog, request: Request): Option<Id> {
    var service := FindService(c, request);
    var own := if service.Some? then Named(service.value.category) else None;
    if own.Some? && own.value in c.categories then own
    else if Named(request.category).Some? && request.category.value in c.categories then request.category
    else None
  }

  /** What is charged, before and while the rules are applied. */
  datatype Rates = Rates(basePrice: real, perKm: real, perMinute: real, urgency: real, complexity: real, surge: real)

  datatype Terms = Terms(rates: Rates, duration: int, takeRate: real)

  function CategoryTerms(category: Option<Category>, complexity: real): Terms {
    match category
    case None => Terms(Rates(0.0, 150.0, 20.0, 0.0, complexity, 1.0), 60, 0.15)
    case Some(k) =>
      Terms(Rates(Or(k.basePrice, 0.0), Or(k.perKm, 150.0), Or(k.perMinute, 20.0), 0.0, complexity, 1.0), OrInt(k.duration, 60), 0.15)
  }

  function ServiceTerms(t: Terms, service: Option<Service>): Terms {
    match service
    case None => t
    case Some(s) =>
      var price := Or(s.basePrice, 0.0);
      Terms(t.rates.(
              basePrice := if price > 0.0 then price else t.rates.basePrice,
              perKm := Or(s.perKm, t.rates.perKm),
              perMinute := Or(s.perMinute, t.rates.perMinute)),
            OrInt(s.duration, t.duration),
            if s.takeRate.Some? then s.takeRate.value else t.takeRate)
  }

  function Defaults(c: Catalog, request: Request): Terms {
    var category := FindCategory(c, request);
    ServiceTerms(
      CategoryTerms(if category.Some? then Some(c.categories[category.value]) else None, Or(request.complexity, 0.0)),
      FindService(c, request))
  }

  // ── Rules ───────────────────────────────────────────────────────────────

  /** The query: active rules of the category and region, or of none in particular. */
  predicate Selected(rule: Rule, category: Option<Id>, region: Option<Id>) {
    && rule.active
    && (category.Some? ==> rule.category == category || rule.category == None)
    && (region.Some? ==> rule.region == region || rule.region == None)
  }

  function RuleCategory(c: Catalog, request: Request): Option<Id> {
    if Named(request.category).Some? then request.category else Named(FindCategory(c, request))
  }

  function Select(rules: seq<Rule>, category: Option<Id>, region: Option<Id>): seq<Rule> {
    if |rules| == 0 then [] else
      var last := rules[|rules| - 1];
      Select(rules[..|rules| - 1], category, region) + (if Selected(last, category, region) then [last] else [])
  }

  function MaxReal(a: real, b: real): real {
    if a >= b then a else b
  }

  function Apply(r: Rates, rule: Rule, urgent: bool): Rates {
    var value := Or(rule.value, 0.0);
    match rule.kind
    case BaseRate => if value > 0.0 then r.(basePrice := value) else r
    case PerKm => if value > 0.0 then r.(perKm := value) else r
    case PerMinute => if value > 0.0 then r.(perMinute := value) else r
    case UrgencyFee => if value != 0.0 && urgent then r.(urgency := value) else r
    case ComplexityFlat => r.(complexity := r.complexity + value)
    case SurgeMultiplier => if Or(rule.multiplier, 0.0) != 0.0 then r.(surge := MaxReal(r.surge, rule.multiplier.value)) else r
  }

  function ApplyAll(r: Rates, rules: seq<Rule>, urgent: bool): Rates {
    if |rules| == 0 then r else Apply(ApplyAll(r, rules[..|rules| - 1], urgent), rules[|rules| - 1], urgent)
  }

  // ── Prices ──────────────────────────────────────────────────────────────

  const URGENCY_FALLBACK := 1000.0

  function Naira(kobo: int): real {
    kobo as real / 100.0
  }

  function Urgency(fee: real, urgent: bool): real {
    if urgent && fee == 0.0 then URGENCY_FALLBACK else fee
  }

  /** What the ratio of open tasks to available providers asks for. */
  function DemandTier(openTasks: int, providers: int): real {
    var ratio := openTasks as real / Max(1, providers) as real;
    if ratio >= 3.0 then 1.5 else if ratio >= 2.0 then 1.25 else if ratio >= 1.0 then 1.1 else 1.0
  }

  /** An override wins; otherwise the demand may raise what the rules say. */
  function Surge(surge: real, request: Request): real {
    if request.surgeOverride.Some? && request.surgeOverride.value > 0.0 then request.surgeOverride.value
    else if request.openTasks.Some? && request.providers.Some? then
      var tier := DemandTier(request.openTasks.value, request.providers.value);
      if tier > 1.0 then MaxReal(surge, tier) else surge
    else surge
  }

  function Times(x: real, y: real): real {
    x * y
  }

  /** An amount in kobo times a factor, rounded to the kobo. */
  function Scaled(kobo: int, factor: real): int {
    Hundredths(Times(Naira(kobo), factor))
  }

  function Payout(total: int, takeRate: real): int {
    Hundredths(Naira(total) - Naira(Scaled(total, takeRate)))
  }

  /** Travelling backwards is free, not refunded. */
  function Distance(request: Request): real {
    MaxReal(0.0, Or(request.distance, 0.0))
  }

  function Subtotal(t: Terms, request: Request, distanceFee: int, timeFee: int): int {
    Hundredths(t.rates.basePrice + Naira(distanceFee) + Naira(timeFee) + Urgency(t.rates.urgency, request.urgent) + t.rates.complexity)
  }

  function DistanceFee(t: Terms, request: Request): int {
    Hundredths(Times(Distance(request), t.rates.perKm))
  }

  function Finish(t: Terms, request: Request): Breakdown {
    var urgency, surge := Urgency(t.rates.urgency, request.urgent), Surge(t.rates.surge, request);
    var distanceFee := DistanceFee(t, request);
    var timeFee := Hundredths(Times(OrInt(request.duration, t.duration) as real, t.rates.perMinute));
    var subtotal := Subtotal(t, request, distanceFee, timeFee);
    var total := Scaled(subtotal, surge);
    Breakdown(
      Hundredths(t.rates.basePrice), distanceFee, timeFee, Hundredths(urgency), Hundredths(t.rates.complexity), Hundredths(surge),
      subtotal, total, Scaled(total, t.takeRate), Payout(total, t.takeRate), t.takeRate)
  }

  function PricedTerms(c: Catalog, request: Request): Terms {
    var t := Defaults(c, request);
    t.(rates := ApplyAll(t.rates, Select(c.rules, RuleCategory(c, request), Named(request.region)), request.urgent))
  }

  function Price(c: Catalog, request: Request): Breakdown {
    Finish(PricedTerms(c, request), request)
  }

  /** The calculation as the code makes it, in its three stages. */
  method CalculatePrice(c: Catalog, request: Request) returns (b: Breakdown)
    ensures b == Price(c, request)
    ensures b.platformFee + b.payout == b.total
    ensures -0.5 <= b.platformFee as real - b.total as real * b.takeRate <= 0.5
  {
    var terms, category := LoadDefaults(c, request);
    terms := ApplyRules(terms, c.rules, category, request);
    b := ComputeFees(terms, request);
    SplitOfFinish(terms, request);
    hide Finish, Defaults, ApplyAll, Select;
  }

  method LoadDefaults(c: Catalog, request: Request) returns (t: Terms, ruleCategory: Option<Id>)
    ensures t == Defaults(c, request) && ruleCategory == RuleCategory(c, request)
  {
    var service: Option<Service>, category: Option<Id> := None, None;
    if Named(request.service).Some? && request.service.value in c.services {
      service := Some(c.services[request.service.value]);
      if Named(service.value.category).Some? && service.value.category.value in c.categories {
        category := service.value.category;
      }
    }
    if category == None && Named(request.category).Some? && request.category.value in c.categories {
      category := request.category;
    }
    var basePrice, duration, perKm, perMinute, takeRate := 0.0, 60, 150.0, 20.0, 0.15;
    if category.Some? {
      var k := c.categories[category.value];
      basePrice := Or(k.basePrice, 0.0);
      duration := OrInt(k.duration, 60);
      perKm := Or(k.perKm, 150.0);
      perMinute := Or(k.perMinute, 20.0);
    }
    if service.Some? {
      var s := service.value;
      if Or(s.basePrice, 0.0) > 0.0 {
        basePrice := s.basePrice.value;
      }
      if OrInt(s.duration, 0) != 0 {
        duration := s.duration.value;
      }
      if Or(s.perKm, 0.0) != 0.0 {
        perKm := s.perKm.value;
      }
      if Or(s.perMinute, 0.0) != 0.0 {
        perMinute := s.perMinute.value;
      }
      if s.takeRate.Some? {
        takeRate := s.takeRate.value;
      }
    }
    t := Terms(Rates(basePrice, perKm, perMinute, 0.0, Or(request.complexity, 0.0), 1.0), duration, takeRate);
    ruleCategory := if Named(request.category).Some? then request.category else category;
  }

  method ApplyRules(t: Terms, rules: seq<Rule>, category: Option<Id>, request: Request) returns (u: Terms)
    ensures u == t.(rates := ApplyAll(t.rates, Select(rules, category, Named(request.region)), request.urgent))
  {
    var active := Select(rules, category, Named(request.region));
    var basePrice, perKm, perMinute := t.rates.basePrice, t.rates.perKm, t.rates.perMinute;
    var urgency, complexity, surge := t.rates.urgency, t.rates.complexity, t.rates.surge;
    var i := 0;
    while i < |active|
      invariant 0 <= i <= |active|
      invariant Rates(basePrice, perKm, perMinute, urgency, complexity, surge) == ApplyAll(t.rates, active[..i], request.urgent)
    {
      assert active[..i + 1][..i] == active[..i];
      var rule := active[i];
      var value := Or(rule.value, 0.0);
      if rule.kind == BaseRate && value > 0.0 {
        basePrice := value;
      } else if rule.kind == PerKm && value > 0.0 {
        perKm := value;
      } else if rule.kind == PerMinute && value > 0.0 {
        perMinute := value;
      } else if rule.kind == UrgencyFee && value != 0.0 {
        if request.urgent {
          urgency := value;
        }
      } else if rule.kind == ComplexityFlat && value != 0.0 {
        complexity := complexity + value;
      } else if rule.kind == SurgeMultiplier && Or(rule.multiplier, 0.0) != 0.0 {
        surge := MaxReal(surge, rule.multiplier.value);
      }
      i := i + 1;
    }
    assert active[..i] == active;
    u := t.(rates := Rates(basePrice, perKm, perMinute, urgency, complexity, surge));
  }

  method ComputeFees(t: Terms, request: Request) returns (b: Breakdown)
    ensures b == Finish(t, request)
  {
    hide Hundredths, Surge, Times;
    var urgency := t.rates.urgency;
    if request.urgent && urgency == 0.0 {
      urgency := URGENCY_FALLBACK;
    }
    var distance := MaxReal(0.0, Or(request.distance, 0.0));
    var distanceFee := Hundredths(Times(distance, t.rates.perKm));
    var timeFee := Hundredths(Times(OrInt(request.duration, t.duration) as real, t.rates.perMinute));
    var surge := ComputeSurge(t.rates.surge, request);
    var subtotal := Hundredths(t.rates.basePrice + Naira(distanceFee) + Naira(timeFee) + urgency + t.rates.complexity);
    var total := Hundredths(Times(Naira(subtotal), surge));
    var platformFee := Hundredths(Times(Naira(total), t.takeRate));
    var payout := Hundredths(Naira(total) - Naira(platformFee));
    b := Breakdown(
      Hundredths(t.rates.basePrice), distanceFee, timeFee, Hundredths(urgency), Hundredths(t.rates.complexity), Hundredths(surge),
      subtotal, total, platformFee, payout, t.takeRate);
  }

  method ComputeSurge(start: real, request: Request) returns (surge: real)
    ensures surge == Surge(start, request)
  {
    surge := start;
    if Or(request.surgeOverride, 0.0) > 0.0 {
      surge := request.surgeOverride.value;
    } else if request.openTasks.Some? && request.providers.Some? {
      var ratio := request.openTasks.value as real / Max(1, request.providers.value) as real;
      if ratio >= 3.0 {
        surge := MaxReal(surge, 1.5);
      } else if ratio >= 2.0 {
        surge := MaxReal(surge, 1.25);
      } else if ratio >= 1.0 {
        surge := MaxReal(surge, 1.1);
      }
    }
  }

  // ── The split ───────────────────────────────────────────────────────────

  lemma Positive(x: real, y: real)
    requires x > 0.0 && y > 0.0
    ensures x * y > 0.0
  {
  }

  lemma Product(x: real, y: real, r: real)
    requires x <= y && r >= 0.0
    ensures Times(x, r) <= Times(y, r) && Times(r, x) <= Times(r, y)
  {
  }

  lemma HundredthsMonotone(x: real, y: real)
    requires x <= y
    ensures Hundredths(x) <= Hundredths(y)
  {
    RoundMonotone(100.0 * x, 100.0 * y);
  }

  lemma GrowsSlower(x: real, y: real, r: real)
    requires x < y && r < 1.0
    ensures Times(y, r) - Times(x, r) < y - x
  {
    assert (y - x) * (1.0 - r) == (y - x) - (y * r - x * r);
    Positive(y - x, 1.0 - r);
  }

  lemma Reorder(x: real, r: real)
    ensures 100.0 * Times(x, r) == Times(100.0 * x, r)
  {
  }

  lemma ScaledIs(kobo: int, factor: real)
    ensures Scaled(kobo, factor) == RoundHalfEven(Times(kobo as real, factor))
  {
    Reorder(Naira(kobo), factor);
    assert 100.0 * Naira(kobo) == kobo as real;
    hide RoundHalfEven, Times;
  }

  /** Scaling is monotone in the amount, and, for amounts from zero, in the factor. */
  lemma ScaledMonotone(x: int, y: int, r: real, s: real)
    requires x <= y && r <= s && ((r >= 0.0 && r == s) || x == y >= 0)
    ensures Scaled(x, r) <= Scaled(y, s)
  {
    hide RoundHalfEven, Scaled, Times;
    ScaledIs(x, r);
    ScaledIs(y, s);
    if r == s && r >= 0.0 {
      Product(x as real, y as real, r);
    } else {
      Product(r, s, x as real);
    }
    RoundMonotone(Times(x as real, r), Times(y as real, s));
  }

  lemma ScaledByOne(kobo: int)
    ensures Scaled(kobo, 1.0) == kobo && Scaled(kobo, 0.0) == 0
  {
    ScaledIs(kobo, 1.0);
    ScaledIs(kobo, 0.0);
    RoundExact(kobo);
    RoundExact(0);
  }

  /** Commission and payout add up to the price, to the kobo. */
  lemma SplitIsExact(total: int, takeRate: real)
    ensures Scaled(total, takeRate) + Payout(total, takeRate) == total
  {
    var fee := Scaled(total, takeRate);
    assert 100.0 * (Naira(total) - Naira(fee)) == (total - fee) as real;
    RoundExact(total - fee);
  }

  lemma SplitOfFinish(t: Terms, request: Request)
    ensures var b := Finish(t, request);
      b.platformFee + b.payout == b.total && -0.5 <= b.platformFee as real - b.total as real * b.takeRate <= 0.5
  {
    var b := Finish(t, request);
    SplitIsExact(b.total, t.takeRate);
    assert 100.0 * Times(Naira(b.total), t.takeRate) == b.total as real * t.takeRate;
    RoundsToNearest(b.total as real * t.takeRate, b.platformFee);
    hide RoundHalfEven, Surge, DistanceFee, Subtotal, Urgency;
  }

  /** Neither side gets less than nothing. */
  lemma SplitIsFair(total: int, takeRate: real)
    requires total >= 0 && 0.0 <= takeRate <= 1.0
    ensures 0 <= Scaled(total, takeRate) <= total && 0 <= Payout(total, takeRate) <= total
  {
    SplitIsExact(total, takeRate);
    ScaledByOne(total);
    ScaledMonotone(total, total, 0.0, takeRate);
    ScaledMonotone(total, total, takeRate, 1.0);
    hide Scaled, Payout;
  }

  /** Less than n away is at most n away after rounding. */
  lemma RoundGap(x: real, y: real, n: int)
    requires y < x + n as real
    ensures RoundHalfEven(y) <= RoundHalfEven(x) + n
  {
    RoundsToNearest(x, RoundHalfEven(x));
    RoundsToNearest(y, RoundHalfEven(y));
    hide RoundHalfEven;
  }

  lemma ScaledGrowsSlower(x: int, y: int, r: real)
    requires x < y && r < 1.0
    ensures Scaled(y, r) <= Scaled(x, r) + (y - x)
  {
    ScaledIs(x, r);
    ScaledIs(y, r);
    GrowsSlower(x as real, y as real, r);
    RoundGap(Times(x as real, r), Times(y as real, r), y - x);
    hide RoundHalfEven, Scaled, Times;
  }

  /** A higher price lowers neither the commission nor the payout. */
  lemma SplitIsMonotone(total: int, more: int, takeRate: real)
    requires total <= more && 0.0 <= takeRate <= 1.0
    ensures Scaled(total, takeRate) <= Scaled(more, takeRate) && Payout(total, takeRate) <= Payout(more, takeRate)
  {
    SplitIsExact(total, takeRate);
    SplitIsExact(more, takeRate);
    ScaledMonotone(total, more, takeRate, takeRate);
    if takeRate == 1.0 {
      ScaledByOne(total);
      ScaledByOne(more);
    } else if total < more {
      ScaledGrowsSlower(total, more, takeRate);
    }
    hide Scaled, Payout;
  }

  /** A price adjustment: the amount is taken as it is, the two shares are rounded. */
  function AdjustedPrice(amount: Option<real>): real {
    MaxReal(0.0, Or(amount, 0.0))
  }

  function AdjustedFee(amount: Option<real>, takeRate: Option<real>): int {
    Hundredths(Times(AdjustedPrice(amount), if takeRate.Some? then takeRate.value else 0.15))
  }

  function AdjustedPayout(amount: Option<real>, takeRate: Option<real>): int {
    Hundredths(AdjustedPrice(amount) - Naira(AdjustedFee(amount, takeRate)))
  }

  /** The shares are within half a kobo of an adjusted price, and add up exactly when it is whole. */
  lemma AdjustmentSplit(amount: Option<real>, takeRate: Option<real>)
    ensures var sum, price := (AdjustedFee(amount, takeRate) + AdjustedPayout(amount, takeRate)) as real, 100.0 * AdjustedPrice(amount);
      && price - 0.5 <= sum <= price + 0.5
      && (sum == price <==> price == price.Floor as real)
  {
    hide RoundHalfEven, AdjustedFee, AdjustedPrice;
    var fee, price := AdjustedFee(amount, takeRate), AdjustedPrice(amount);
    assert 100.0 * (price - Naira(fee)) == 100.0 * price - fee as real;
    RestOf(100.0 * price, fee, AdjustedPayout(amount, takeRate));
  }

  lemma RestOf(whole: real, part: int, rest: int)
    requires rest == RoundHalfEven(whole - part as real)
    ensures whole - 0.5 <= (part + rest) as real <= whole + 0.5
    ensures (part + rest) as real == whole <==> whole == whole.Floor as real
  {
    RoundsToNearest(whole - part as real, rest);
    if whole == whole.Floor as real {
      RoundExact(whole.Floor - part);
    }
    hide RoundHalfEven;
  }

  /** A price of whole kobo is split the same way by an adjustment and by the first calculation. */
  lemma AdjustmentAgrees(total: int, takeRate: real)
    requires total >= 0
    ensures AdjustedFee(Some(Naira(total)), Some(takeRate)) == Scaled(total, takeRate)
    ensures AdjustedPayout(Some(Naira(total)), Some(takeRate)) == Payout(total, takeRate)
  {
    assert AdjustedPrice(Some(Naira(total))) == Naira(total);
    hide RoundHalfEven;
  }

  // ── Components ──────────────────────────────────────────────────────────

  /** The displayed parts add up to the subtotal but for two kobo. */
  lemma ComponentsAddUp(c: Catalog, request: Request)
    ensures var b := Price(c, request);
      -2 <= b.basePrice + b.distanceFee + b.timeFee + b.urgencyFee + b.complexityFee - b.subtotal <= 2
  {
    var t, b := PricedTerms(c, request), Price(c, request);
    var base, complexity := t.rates.basePrice, t.rates.complexity;
    var urgency := Urgency(t.rates.urgency, request.urgent);
    RoundsToNearest(100.0 * base, b.basePrice);
    RoundsToNearest(100.0 * urgency, b.urgencyFee);
    RoundsToNearest(100.0 * complexity, b.complexityFee);
    RoundsToNearest(100.0 * (base + Naira(b.distanceFee) + Naira(b.timeFee) + urgency + complexity), b.subtotal);
    hide RoundHalfEven, PricedTerms;
  }

  lemma HundredthsIs(x: real, kobo: int)
    requires kobo as real - 0.5 <= 100.0 * x <= kobo as real + 0.5 && kobo % 2 == 0
    ensures Hundredths(x) == kobo
  {
    RoundsToNearest(100.0 * x, kobo);
    hide RoundHalfEven;
  }

  lemma FinishParts(t: Terms, request: Request, travel: real, labour: real)
    requires request.distance == None && request.duration == None && request.urgent && t.rates.urgency != 0.0
    requires travel == Times(0.0, t.rates.perKm) && labour == Times(t.duration as real, t.rates.perMinute)
    ensures var b := Finish(t, request);
      && b.basePrice == Hundredths(t.rates.basePrice) && b.urgencyFee == Hundredths(t.rates.urgency)
      && b.complexityFee == Hundredths(t.rates.complexity)
      && b.distanceFee == Hundredths(travel) && b.timeFee == Hundredths(labour)
      && b.subtotal == Hundredths(
           t.rates.basePrice + Naira(b.distanceFee) + Naira(b.timeFee) + t.rates.urgency + t.rates.complexity)
  {
    hide Hundredths, Scaled, Payout, Surge, Times;
  }

  /** Two kobo can be missing: three half kobo round down each, and up together. */
  lemma TwoKoboMissing(t: Terms, request: Request)
    requires t.rates == Rates(0.005, 150.0, 20.0, 0.005, 0.005, 1.0) && t.duration == 60
    requires request.distance == None && request.duration == None && request.urgent
    ensures var b := Finish(t, request);
      b.basePrice + b.distanceFee + b.timeFee + b.urgencyFee + b.complexityFee + 2 == b.subtotal
  {
    FinishParts(t, request, 0.0, 1200.0);
    HundredthsIs(0.005, 0);
    HundredthsIs(0.0, 0);
    HundredthsIs(1200.0, 120000);
    HundredthsIs(1200.015, 120002);
    hide Hundredths, Finish;
  }

  // ── Monotonicity ────────────────────────────────────────────────────────

  /** Whatever the rules say, prices are never scaled by zero or less. */
  lemma {:induction false} SurgeIsPositive(r: Rates, rules: seq<Rule>, urgent: bool)
    requires r.surge >= 1.0
    ensures ApplyAll(r, rules, urgent).surge >= 1.0
  {
    if |rules| > 0 {
      SurgeIsPositive(r, rules[..|rules| - 1], urgent);
    }
  }

  lemma {:induction false} ComplexityShifts(r: Rates, more: real, rules: seq<Rule>, urgent: bool)
    ensures ApplyAll(r.(complexity := r.complexity + more), rules, urgent) ==
      ApplyAll(r, rules, urgent).(complexity := ApplyAll(r, rules, urgent).complexity + more)
  {
    if |rules| > 0 {
      ComplexityShifts(r, more, rules[..|rules| - 1], urgent);
    }
  }

  predicate Farther(a: Request, b: Request) {
    && Or(a.distance, 0.0) <= Or(b.distance, 0.0) && Or(a.complexity, 0.0) <= Or(b.complexity, 0.0)
    && b == a.(distance := b.distance, complexity := b.complexity)
  }

  lemma SameTermsButComplexity(c: Catalog, a: Request, b: Request)
    requires b == a.(distance := b.distance, complexity := b.complexity)
    ensures PricedTerms(c, b) == PricedTerms(c, a).(rates := PricedTerms(c, a).rates.(
      complexity := PricedTerms(c, a).rates.complexity + (Or(b.complexity, 0.0) - Or(a.complexity, 0.0))))
  {
    var t, rules := Defaults(c, a), Select(c.rules, RuleCategory(c, a), Named(a.region));
    ComplexityShifts(t.rates, Or(b.complexity, 0.0) - Or(a.complexity, 0.0), rules, a.urgent);
    hide ApplyAll, Select;
  }

  lemma DistanceFeeMonotone(t: Terms, u: Terms, a: Request, b: Request)
    requires t.rates.perKm == u.rates.perKm >= 0.0 && Or(a.distance, 0.0) <= Or(b.distance, 0.0)
    ensures DistanceFee(t, a) <= DistanceFee(u, b)
  {
    hide Hundredths, Times;
    Product(Distance(a), Distance(b), t.rates.perKm);
    HundredthsMonotone(Times(Distance(a), t.rates.perKm), Times(Distance(b), t.rates.perKm));
  }

  lemma SubtotalMonotone(t: Terms, u: Terms, a: Request, b: Request, d: int, e: int, timeFee: int)
    requires d <= e && t.rates.complexity <= u.rates.complexity && t.rates.basePrice == u.rates.basePrice
    requires t.rates.urgency == u.rates.urgency && a.urgent == b.urgent
    ensures Subtotal(t, a, d, timeFee) <= Subtotal(u, b, e, timeFee)
  {
    var urgency := Urgency(t.rates.urgency, a.urgent);
    HundredthsMonotone(
      t.rates.basePrice + Naira(d) + Naira(timeFee) + urgency + t.rates.complexity,
      t.rates.basePrice + Naira(e) + Naira(timeFee) + urgency + u.rates.complexity);
    hide Hundredths, Urgency;
  }

  lemma FinishMonotone(t: Terms, u: Terms, a: Request, b: Request)
    requires t.rates.perKm >= 0.0 && t.rates.surge >= 1.0 && Farther(a, b)
    requires u == t.(rates := t.rates.(complexity := u.rates.complexity)) && t.rates.complexity <= u.rates.complexity
    ensures Finish(t, a).subtotal <= Finish(u, b).subtotal && Finish(t, a).total <= Finish(u, b).total
  {
    hide Hundredths, Times, Urgency, Payout, Scaled, DistanceFee, Subtotal, DemandTier;
    var x, y := Finish(t, a), Finish(u, b);
    DistanceFeeMonotone(t, u, a, b);
    SubtotalMonotone(t, u, a, b, x.distanceFee, y.distanceFee, x.timeFee);
    var surge := Surge(t.rates.surge, a);
    ScaledMonotone(x.subtotal, y.subtotal, surge, surge);
  }

  /** A longer way or more complexity never makes a task cheaper, unless distance is charged negatively. */
  lemma FartherCostsMore(c: Catalog, a: Request, b: Request)
    requires Farther(a, b) && PricedTerms(c, a).rates.perKm >= 0.0
    ensures Price(c, a).total <= Price(c, b).total
  {
    SameTermsButComplexity(c, a, b);
    SurgeIsPositive(Defaults(c, a).rates, Select(c.rules, RuleCategory(c, a), Named(a.region)), a.urgent);
    FinishMonotone(PricedTerms(c, a), PricedTerms(c, b), a, b);
    hide Finish, ApplyAll, Select;
  }

  lemma Divide(a: real, b: real, q: real)
    requires q > 0.0 && Times(a, q) <= Times(b, q)
    ensures a <= b
  {
    assert a == a * q / q && b == b * q / q;
  }

  lemma QuotientMonotone(x: real, p: real, y: real, q: real)
    requires 0.0 <= x <= y && 0.0 < q <= p
    ensures x / p <= y / q
  {
    var a, b := x / p, y / q;
    assert a * p == x && b * q == y && a >= 0.0;
    Product(q, p, a);
    assert Times(a, q) <= Times(b, q);
    Divide(a, b, q);
  }

  lemma TierMonotone(openTasks: int, providers: int, moreTasks: int, fewerProviders: int)
    requires 0 <= openTasks <= moreTasks && fewerProviders <= providers
    ensures 1.0 <= DemandTier(openTasks, providers) <= DemandTier(moreTasks, fewerProviders) <= 1.5
  {
    var p, q := Max(1, providers) as real, Max(1, fewerProviders) as real;
    QuotientMonotone(openTasks as real, p, moreTasks as real, q);
  }

  /** More open tasks, or fewer providers, never make a task with a non-negative subtotal cheaper. */
  lemma DemandCostsMore(c: Catalog, request: Request, moreTasks: int, fewerProviders: int)
    requires request.openTasks.Some? && request.providers.Some?
    requires 0 <= request.openTasks.value <= moreTasks && fewerProviders <= request.providers.value
    requires Price(c, request).subtotal >= 0
    ensures var busier := request.(openTasks := Some(moreTasks), providers := Some(fewerProviders));
      && Price(c, busier).subtotal == Price(c, request).subtotal
      && Price(c, request).total <= Price(c, busier).total
  {
    var busier := request.(openTasks := Some(moreTasks), providers := Some(fewerProviders));
    assert PricedTerms(c, busier) == PricedTerms(c, request);
    hide Hundredths, Times, PricedTerms, Scaled, Payout, Surge, DistanceFee, Subtotal, Urgency;
    var surge, subtotal := PricedTerms(c, request).rates.surge, Price(c, request).subtotal;
    SurgeMonotone(surge, request, busier);
    ScaledMonotone(subtotal, subtotal, Surge(surge, request), Surge(surge, busier));
    SameSubtotal(PricedTerms(c, request), request, busier);
  }

  lemma SameSubtotal(t: Terms, request: Request, busier: Request)
    requires busier == request.(openTasks := busier.openTasks, providers := busier.providers)
    ensures Finish(t, busier).subtotal == Finish(t, request).subtotal
  {
    hide Hundredths, Times, Scaled, Payout, Surge, Urgency;
  }

  lemma SurgeMonotone(start: real, request: Request, busier: Request)
    requires request.openTasks.Some? && request.providers.Some? && busier.openTasks.Some? && busier.providers.Some?
    requires 0 <= request.openTasks.value <= busier.openTasks.value && busier.providers.value <= request.providers.value
    requires busier.surgeOverride == request.surgeOverride
    ensures Surge(start, request) <= Surge(start, busier)
  {
    TierMonotone(request.openTasks.value, request.providers.value, busier.openTasks.value, busier.providers.value);
    hide DemandTier;
  }

  // ── No negative prices ──────────────────────────────────────────────────

  predicate NotBelowZero(x: Option<real>) {
    x.Some? ==> x.value >= 0.0
  }

  /** Every amount the catalog charges is at least zero. Prices and rates of the rules count only when positive. */
  predicate FairCatalog(c: Catalog) {
    && (forall id | id in c.categories :: var k := c.categories[id];
          NotBelowZero(k.basePrice) && NotBelowZero(k.perKm) && NotBelowZero(k.perMinute) && OrInt(k.duration, 0) >= 0)
    && (forall id | id in c.services :: var s := c.services[id];
          NotBelowZero(s.perKm) && NotBelowZero(s.perMinute) && OrInt(s.duration, 0) >= 0)
    && (forall i | 0 <= i < |c.rules| :: FairRule(c.rules[i]))
  }

  predicate FairRule(rule: Rule) {
    rule.kind == UrgencyFee || rule.kind == ComplexityFlat ==> NotBelowZero(rule.value)
  }

  predicate FairRequest(request: Request) {
    NotBelowZero(request.complexity) && OrInt(request.duration, 0) >= 0
  }

  predicate FairRates(r: Rates) {
    r.basePrice >= 0.0 && r.perKm >= 0.0 && r.perMinute >= 0.0 && r.urgency >= 0.0 && r.complexity >= 0.0 && r.surge >= 1.0
  }

  lemma DefaultsAreFair(c: Catalog, request: Request)
    requires FairCatalog(c) && FairRequest(request)
    ensures FairRates(Defaults(c, request).rates) && Defaults(c, request).duration >= 0
  {
    var service, category := FindService(c, request), FindCategory(c, request);
    assert service.Some? ==> service.value == c.services[request.service.value];
  }

  lemma {:induction false} RulesStayFair(r: Rates, rules: seq<Rule>, category: Option<Id>, region: Option<Id>, urgent: bool)
    requires FairRates(r) && forall i | 0 <= i < |rules| :: FairRule(rules[i])
    ensures FairRates(ApplyAll(r, Select(rules, category, region), urgent))
  {
    if |rules| > 0 {
      var last, before := rules[|rules| - 1], Select(rules[..|rules| - 1], category, region);
      RulesStayFair(r, rules[..|rules| - 1], category, region, urgent);
      assert FairRule(last);
      assert (before + [last])[..|before|] == before;
      assert Select(rules, category, region) == if Selected(last, category, region) then before + [last] else before;
    }
  }

  lemma HundredthsNotNegative(x: real)
    requires x >= 0.0
    ensures Hundredths(x) >= 0
  {
    RoundExact(0);
    HundredthsMonotone(0.0, x);
    hide RoundHalfEven;
  }

  lemma ProductNotNegative(x: real, y: real)
    requires x >= 0.0 && y >= 0.0
    ensures Times(x, y) >= 0.0
  {
    Product(0.0, x, y);
  }

  lemma FinishNotNegative(t: Terms, request: Request)
    requires FairRates(t.rates) && t.duration >= 0 && FairRequest(request)
    ensures Finish(t, request).subtotal >= 0 && Finish(t, request).total >= 0
  {
    hide Hundredths, Times, Payout, Scaled, DemandTier;
    var duration := OrInt(request.duration, t.duration);
    ProductNotNegative(Distance(request), t.rates.perKm);
    HundredthsNotNegative(Times(Distance(request), t.rates.perKm));
    ProductNotNegative(duration as real, t.rates.perMinute);
    HundredthsNotNegative(Times(duration as real, t.rates.perMinute));
    var b := Finish(t, request);
    HundredthsNotNegative(t.rates.basePrice + Naira(b.distanceFee) + Naira(b.timeFee)
                          + Urgency(t.rates.urgency, request.urgent) + t.rates.complexity);
    ScaledMonotone(0, b.subtotal, Surge(t.rates.surge, request), Surge(t.rates.surge, request));
    ZeroScaled(Surge(t.rates.surge, request));
  }

  lemma ZeroScaled(r: real)
    ensures Scaled(0, r) == 0
  {
    RoundExact(0);
  }

  /** Amounts from zero in the catalog and in the request give a price from zero. */
  lemma PriceIsNotNegative(c: Catalog, request: Request)
    requires FairCatalog(c) && FairRequest(request)
    ensures Price(c, request).subtotal >= 0 && Price(c, request).total >= 0
  {
    DefaultsAreFair(c, request);
    RulesStayFair(Defaults(c, request).rates, c.rules, RuleCategory(c, request), Named(request.region), request.urgent);
    FinishNotNegative(PricedTerms(c, request), request);
    hide Finish, Defaults, ApplyAll, Select;
  }

  /** An urgent task always carries a surcharge, any other none. */
  lemma {:induction false} UrgencyIsCharged(c: Catalog, request: Request)
    ensures Urgency(PricedTerms(c, request).rates.urgency, request.urgent) != 0.0 <==> request.urgent
  {
    if !request.urgent {
      UrgencyComesFromRules(Defaults(c, request).rates, Select(c.rules, RuleCategory(c, request), Named(request.region)), false);
    }
    hide ApplyAll, Select;
  }

  lemma {:induction false} UrgencyComesFromRules(r: Rates, rules: seq<Rule>, urgent: bool)
    requires !urgent
    ensures ApplyAll(r, rules, urgent).urgency == r.urgency
  {
    if |rules| > 0 {
      UrgencyComesFromRules(r, rules[..|rules| - 1], urgent);
    }
  }

  // ── The order of the rules ──────────────────────────────────────────────

  predicate Overrides(rule: Rule, urgent: bool) {
    match rule.kind
    case UrgencyFee => Or(rule.value, 0.0) != 0.0 && urgent
    case ComplexityFlat => false
    case SurgeMultiplier => false
    case _ => Or(rule.value, 0.0) > 0.0
  }

  /** Two rules that set the same rate to different values. */
  predicate Conflict(a: Rule, b: Rule, urgent: bool) {
    a.kind == b.kind && Overrides(a, urgent) && Overrides(b, urgent) && a.value != b.value
  }

  /** Swapping two rules matters exactly when they set the same rate to different values. */
  lemma RulesCommute(r: Rates, a: Rule, b: Rule, urgent: bool)
    ensures Apply(Apply(r, a, urgent), b, urgent) == Apply(Apply(r, b, urgent), a, urgent) <==> !Conflict(a, b, urgent)
  {
    hide MaxReal;
    MaxesCommute(r.surge, Or(a.multiplier, 0.0), Or(b.multiplier, 0.0));
  }

  lemma MaxesCommute(x: real, y: real, z: real)
    ensures MaxReal(MaxReal(x, y), z) == MaxReal(MaxReal(x, z), y)
  {
  }

  predicate Harmonious(rules: seq<Rule>, urgent: bool) {
    forall i, j | 0 <= i < j < |rules| :: !Conflict(rules[i], rules[j], urgent)
  }

  /** A rule without a rival may as well be applied last. */
  lemma {:induction false} MoveLast(r: Rates, rules: seq<Rule>, i: nat, urgent: bool)
    requires i < |rules| && Harmonious(rules, urgent)
    ensures ApplyAll(r, rules, urgent) == Apply(ApplyAll(r, rules[..i] + rules[i + 1..], urgent), rules[i], urgent)
  {
    var n := |rules| - 1;
    var rest := rules[..i] + rules[i + 1..];
    if i == n {
      assert rest == rules[..n];
    } else {
      MoveLast(r, rules[..n], i, urgent);
      assert rest[..n - 1] == rules[..n][..i] + rules[..n][i + 1..] && rest[n - 1] == rules[n];
      RulesCommute(ApplyAll(r, rest[..n - 1], urgent), rules[i], rules[n], urgent);
      hide Apply, Conflict;
    }
  }

  /** Without conflicting rules the price does not depend on the order in which the query returns them. */
  lemma {:induction false} OrderDoesNotMatter(r: Rates, rules: seq<Rule>, other: seq<Rule>, urgent: bool)
    requires multiset(rules) == multiset(other) && Harmonious(rules, urgent)
    ensures ApplyAll(r, rules, urgent) == ApplyAll(r, other, urgent)
    decreases |rules|
  {
    assert |rules| == |multiset(rules)| == |multiset(other)| == |other|;
    if |rules| > 0 {
      var n := |rules| - 1;
      var i := FindLast(rules, other);
      var rest := other[..i] + other[i + 1..];
      PermutedHarmonious(rules, other, urgent);
      OrderDoesNotMatter(r, rules[..n], rest, urgent);
      MoveLast(r, other, i, urgent);
    }
  }

  lemma FindLast(rules: seq<Rule>, other: seq<Rule>) returns (i: nat)
    requires multiset(rules) == multiset(other) && |rules| > 0
    ensures i < |other| && other[i] == rules[|rules| - 1]
    ensures multiset(rules[..|rules| - 1]) == multiset(other[..i] + other[i + 1..])
  {
    var last := rules[|rules| - 1];
    assert rules == rules[..|rules| - 1] + [last];
    assert last in multiset(other);
    i :| 0 <= i < |other| && other[i] == last;
    var rest := other[..i] + other[i + 1..];
    assert multiset(other) == multiset(rest) + multiset{last} by {
      assert other == other[..i] + [last] + other[i + 1..];
    }
    assert multiset(rules) == multiset(rules[..|rules| - 1]) + multiset{last};
    assert multiset(rest) == multiset(other) - multiset{last};
  }

  lemma PermutedHarmonious(rules: seq<Rule>, other: seq<Rule>, urgent: bool)
    requires multiset(rules) == multiset(other) && Harmonious(rules, urgent)
    ensures Harmonious(other, urgent)
  {
    forall a, b | a in other && b in other ensures !Conflict(a, b, urgent) {
      assert a in multiset(rules) && b in multiset(rules);
      var i :| 0 <= i < |rules| && rules[i] == a;
      var j :| 0 <= j < |rules| && rules[j] == b;
      assert i < j || j < i || a == b;
    }
  }

  predicate SetsBase(rule: Rule) {
    rule.kind == BaseRate && Or(rule.value, 0.0) > 0.0
  }

  function LastBase(rules: seq<Rule>): (last: Option<nat>)
    ensures last.Some? ==> last.value < |rules| && SetsBase(rules[last.value])
  {
    if |rules| == 0 then None
    else if SetsBase(rules[|rules| - 1]) then Some(|rules| - 1)
    else LastBase(rules[..|rules| - 1])
  }

  /** The base price is that of the last rule the query returns that has one; how specific it is plays no part. */
  lemma {:induction false} LastBaseRateWins(r: Rates, rules: seq<Rule>, urgent: bool)
    ensures ApplyAll(r, rules, urgent).basePrice ==
      match LastBase(rules) case None => r.basePrice case Some(i) => rules[i].value.value
  {
    if |rules| > 0 {
      LastBaseRateWins(r, rules[..|rules| - 1], urgent);
      var last := LastBase(rules[..|rules| - 1]);
      assert last.Some? ==> rules[..|rules| - 1][last.value] == rules[last.value];
    }
  }

  /** A rule for every category replaces the one for this category when the query happens to return it second. */
  lemma GeneralRuleMayWin(r: Rates, specific: Rule, general: Rule, urgent: bool)
    requires specific == Rule(BaseRate, Some(5000.0), None, true, Some("c"), None)
    requires general == Rule(BaseRate, Some(3000.0), None, true, None, None)
    ensures Selected(specific, Some("c"), None) && Selected(general, Some("c"), None)
    ensures ApplyAll(r, [specific, general], urgent).basePrice == 3000.0
    ensures ApplyAll(r, [general, specific], urgent).basePrice == 5000.0
  {
    LastBaseRateWins(r, [specific, general], urgent);
    LastBaseRateWins(r, [general, specific], urgent);
  }
}
