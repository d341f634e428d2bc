/** What each answer of the resolver means, said without the steps that reach it. */
module ResolverPromises {
  import opened Wrappers
  import opened Ranking
  import opened Resolver
  import M = Money
  import R = Rounding

  // ------------------------------------------------------------------- rules

  /** `u` is the amount and the percentage of it, to the nearest, ties to even. */
  predicate ChangedBy(amount: int, p: M.Decimal, u: int) {
    var whole := 100 * p.den;
    M.RoundsTo(amount * whole + amount * p.num, whole, u, u * whole, M.HalfEven)
  }

  /** The price a rule makes of a variant. */
  predicate Makes(rule: Rule, i: Input, u: int) {
    var b := i.baseline;
    match rule
    case PercentChange(p) => ChangedBy(b.price, p, u)
    case FixedChange(a) => a.currency == i.surface.currency && u - b.price == a.minor
    case SetExact(a) => a == Amount(u, i.surface.currency)
    case FromImport(id) => id in i.importedPrices && i.importedPrices[id] == u
    case FromCostMultiplier(f) => b.cost.Some? && M.RoundsTo(b.cost.value * f.num, f.den, u, u * f.den, M.HalfEven)
    case FromCostMargin(m) =>
      var kept := 100 * m.den - m.num;
      b.cost.Some? && kept > 0 && M.RoundsTo(b.cost.value * (100 * m.den), kept, u, u * kept, M.HalfEven)
    case PercentOfCompareAt(p) => b.compareAt.Some? && ChangedBy(b.compareAt.value, p, u)
  }

  /** What a rule lacks. */
  predicate Lacks(rule: Rule, i: Input, e: RuleError) {
    match e
    case CurrencyMismatch => (rule.FixedChange? || rule.SetExact?) && rule.amount.currency != i.surface.currency
    case MissingImport => rule.FromImport? && rule.importId !in i.importedPrices
    case MissingCost => (rule.FromCostMultiplier? || rule.FromCostMargin?) && i.baseline.cost.None?
    case InvalidMargin => rule.FromCostMargin? && i.baseline.cost.Some? && rule.margin.num >= 100 * rule.margin.den
    case MissingCompareAt => rule.PercentOfCompareAt? && i.baseline.compareAt.None?
  }

  /** Every kind of rule makes the price it says, or says what it lacks. */
  lemma RuleMakes(rule: Rule, i: Input)
    requires ValidRule(rule)
    ensures match ApplyRule(rule, i.baseline, i.surface.currency, i.importedPrices)
            case Ok(u) => Makes(rule, i, u)
            case Err(e) => Lacks(rule, i, e)
  {
    var b := i.baseline;
    match rule
    case PercentChange(p) => M.PercentChangeIsThatShare(b.price, p);
    case FromCostMultiplier(f) =>
      if b.cost.Some? {
        M.DividesRightly(b.cost.value * f.num, f.den, M.HalfEven);
      }
    case FromCostMargin(m) =>
      if b.cost.Some? && m.num < 100 * m.den {
        M.DividesRightly(b.cost.value * (100 * m.den), 100 * m.den - m.num, M.HalfEven);
      }
    case PercentOfCompareAt(p) =>
      if b.compareAt.Some? {
        M.PercentChangeIsThatShare(b.compareAt.value, p);
      }
    case _ =>
  }

  /** The rule of the last row the variant is in. */
  ghost predicate DecidedBy(c: Campaign, i: Input, rule: Rule) {
    exists k :: 0 <= k < |c.rules| && Matches(c.rules[k], i.segments) && c.rules[k].rule == rule
      && forall j :: k < j < |c.rules| ==> !Matches(c.rules[j], i.segments)
  }

  predicate NoRow(rows: seq<RuleRow>, segments: set<string>) {
    forall row :: row in rows ==> !Matches(row, segments)
  }

  lemma {:induction false} RuleIsLast(rows: seq<RuleRow>, segments: set<string>) returns (k: nat)
    ensures RuleFor(rows, segments).None? ==> NoRow(rows, segments)
    ensures RuleFor(rows, segments).Some? ==>
              k < |rows| && Matches(rows[k], segments) && RuleFor(rows, segments) == Some(rows[k].rule)
              && forall j :: k < j < |rows| ==> !Matches(rows[j], segments)
  {
    k := 0;
    if rows != [] {
      var last := |rows| - 1;
      if Matches(rows[last], segments) {
        k := last;
      } else {
        k := RuleIsLast(rows[..last], segments);
        assert rows == rows[..last] + [rows[last]];
      }
    }
  }

  // ------------------------------------------------------------------ limits

  /** Above nothing, and within the limits of the store and of the campaign. */
  predicate Allowed(c: Campaign, i: Input, price: int) {
    && price >= 1
    && (i.store.Some? ==> Respects(i.store.value, i.baseline, price))
    && (c.guardrails.Some? ==> Respects(c.guardrails.value, i.baseline, price))
  }

  /** Someone sets a limit. */
  predicate Limited(g: Option<Guardrails>) {
    g.Some? && (g.value.neverBelowCost || g.value.minMargin.Some? || g.value.minPrice.Some?)
  }

  /** Someone sets a limit that only the cost can settle. */
  predicate LimitedByCost(g: Option<Guardrails>) {
    g.Some? && (g.value.neverBelowCost || g.value.minMargin.Some?)
  }

  predicate Uncosted(c: Campaign, i: Input) {
    i.baseline.cost.None? && (LimitedByCost(i.store) || LimitedByCost(c.guardrails))
  }

  /** The campaign's word on a missing cost, or the store's if it has none. */
  predicate UncostedBlocks(c: Campaign, i: Input) {
    if c.guardrails.Some? && c.guardrails.value.missingCost.Some?
    then c.guardrails.value.missingCost.value.ErrorUncosted?
    else i.store.Some? && i.store.value.missingCost == Some(ErrorUncosted)
  }

  /** The floor parts the prices that respect the guardrails from those that do not. */
  lemma FloorParts(b: Baseline, g: Guardrails, q: int)
    requires ValidGuardrails(g) && (NeedsCost(g) ==> b.cost.Some?) && Floor(b, g).Ok?
    ensures Respects(g, b, q) <==> Floor(b, g).value.None? || q >= Floor(b, g).value.value
  {
    if g.minMargin.Some? {
      var m := g.minMargin.value;
      M.MarginFloorMeetsMargin(b.cost.value, m);
      var least := M.PriceAtMargin(b.cost.value, m, M.Ceil).value;
      var kept := 100 * m.den - m.num;
      if q >= least {
        M.MulMonotone(least, q, kept);
      } else {
        M.MulMonotone(q, least - 1, kept);
      }
    }
  }

  /** A price is allowed exactly when it reaches the floor, or the smallest price where that is higher. */
  lemma AllowedAboveFloor(c: Campaign, i: Input, q: int)
    requires ValidCampaign(c) && ValidInput(i) && !Uncosted(c, i)
    requires Floor(i.baseline, Merge(i.store, c.guardrails)).Ok?
    ensures var floor := Floor(i.baseline, Merge(i.store, c.guardrails)).value;
            Allowed(c, i, q) <==> q >= 1 && (floor.None? || q >= floor.value)
    ensures Floor(i.baseline, Merge(i.store, c.guardrails)).value.Some? <==> Limited(i.store) || Limited(c.guardrails)
  {
    FloorParts(i.baseline, Merge(i.store, c.guardrails), q);
    if q >= 1 {
      MergedIsBoth(i.store, c.guardrails, i.baseline, q);
    }
  }

  /** The merged margin is one no price reaches. */
  predicate Unreachable(c: Campaign, i: Input) {
    var m := Merge(i.store, c.guardrails).minMargin;
    m.Some? && m.value.num >= 100 * m.value.den
  }

  // --------------------------------------------------------------- rounding

  predicate Discounts(rule: Rule) {
    match rule
    case PercentChange(p) => p.num < 0
    case FixedChange(a) => a.minor < 0
    case _ => false
  }

  predicate MarksUp(rule: Rule) {
    match rule
    case PercentChange(p) => p.num > 0
    case FixedChange(a) => a.minor > 0
    case _ => false
  }

  /** The profile of the currency, or the campaign's own; an ending under a major unit is a ten where there is none. */
  ghost predicate RoundsBy(c: Campaign, s: Surface, p: R.Profile) {
    exists chosen ::
      && chosen == (if s.currency in c.rounding.byCurrency then c.rounding.byCurrency[s.currency] else c.rounding.default)
      && p == if chosen.Charm? && chosen.ending >= 1 && s.perMajor == 1 then R.Step(10, R.Nearest) else chosen
  }

  /** As the profile rounds; but a discount that would reach the baseline goes down, and an increase that would fall short of it up. */
  predicate RoundedTo(rule: Rule, i: Input, u: int, p: R.Profile, r: int)
    requires R.ValidProfile(p, i.surface.perMajor)
  {
    var asAsked, base := R.Apply(u, p, i.surface.perMajor), i.baseline.price;
    if Discounts(rule) && asAsked >= base then r == R.Apply(u, R.WithDirection(p, R.Down), i.surface.perMajor) && 0 < r < base
    else if MarksUp(rule) && asAsked < base then r == R.Apply(u, R.WithDirection(p, R.Up), i.surface.perMajor)
    else r == asAsked
  }

  /** No price the profile allows lies above nothing and below the baseline, next to the discounted price. */
  predicate NoStepBelow(rule: Rule, i: Input, u: int, p: R.Profile)
    requires R.ValidProfile(p, i.surface.perMajor)
  {
    && Discounts(rule) && R.Apply(u, p, i.surface.perMajor) >= i.baseline.price
    && var below := R.Apply(u, R.WithDirection(p, R.Down), i.surface.perMajor);
       below <= 0 || below >= i.baseline.price
  }

  // ---------------------------------------------------------- strike-through

  /** The strike-through the campaign's policy asks for; none when it asks for none, or cannot say. */
  ghost predicate AsksToStrike(c: Campaign, i: Input, asked: Option<int>) {
    match c.compareAt
    case SetToBaseline => asked == Some(i.baseline.price)
    case FromFile(id) => if id in i.importedCompareAts then asked == Some(i.importedCompareAts[id]) else asked.None?
    case Adjust(rule) =>
      var bare := i.(importedPrices := map[]);
      if asked.Some? then bare.baseline.compareAt.Some? && Makes(rule, bare, asked.value)
      else i.baseline.compareAt.None? || exists e :: Lacks(rule, bare, e)
    case _ => asked.None?
  }

  /** What becomes of it at a price: it shows a saving, or it is not shown. */
  ghost predicate StrikesAs(c: Campaign, i: Input, price: int, shown: NewCompareAt) {
    exists asked :: AsksToStrike(c, i, asked) &&
      match shown
      case Struck(value) => asked == Some(value) && value > price
      case Cleared => c.compareAt.ClearIt? || (asked.Some? && asked.value <= price && c.onCompareAt.ClearAnyway?)
      case Untouched => asked.None? && !c.compareAt.ClearIt?
  }

  ghost predicate NoSaving(c: Campaign, i: Input, price: int) {
    exists asked :: AsksToStrike(c, i, Some(asked)) && asked <= price
  }

  // ----------------------------------------------------------------- answers

  /** The campaign's rule puts the variant at `u`, and the item is not free both ways. */
  ghost predicate PutsAt(c: Campaign, i: Input, rule: Rule, u: int) {
    !Uncosted(c, i) && DecidedBy(c, i, rule) && Makes(rule, i, u) && (i.baseline.price > 0 || u > 0)
  }

  ghost predicate RoundsTo(c: Campaign, i: Input, rule: Rule, u: int, r: int) {
    && PutsAt(c, i, rule, u)
    && exists p :: RoundsBy(c, i.surface, p) && R.ValidProfile(p, i.surface.perMajor) && RoundedTo(rule, i, u, p, r)
  }

  /** The price after the limits: the rounded one if it is allowed, else, where the policy clamps, the least that is. */
  ghost predicate EndsAt(c: Campaign, i: Input, rule: Rule, u: int, price: int, clamped: bool) {
    && Allowed(c, i, price)
    && if !clamped then RoundsTo(c, i, rule, u, price)
       else
         && c.onViolation == Clamp
         && (Discounts(rule) ==> price <= i.baseline.price)
         && (forall less :: less < price ==> !Allowed(c, i, less))
         && exists r :: RoundsTo(c, i, rule, u, r) && r < price
  }

  /** Why a variant is left alone, or stops the run. */
  ghost predicate Reasons(c: Campaign, i: Input, reason: Reason, stops: bool) {
    match reason
    case NoCost =>
      if Uncosted(c, i) then stops == UncostedBlocks(c, i)
      else stops == (c.onViolation == BlockRun)
           && exists rule :: DecidedBy(c, i, rule) && (Lacks(rule, i, MissingCost) || Lacks(rule, i, MissingCompareAt))
    case BadMargin =>
      !Uncosted(c, i) && stops == (c.onViolation == BlockRun) && exists rule :: DecidedBy(c, i, rule) && Lacks(rule, i, InvalidMargin)
    case NotImported =>
      !Uncosted(c, i) && stops == (c.onViolation == BlockRun) && exists rule :: DecidedBy(c, i, rule) && Lacks(rule, i, MissingImport)
    case OtherCurrency => !Uncosted(c, i) && !stops && exists rule :: DecidedBy(c, i, rule) && Lacks(rule, i, CurrencyMismatch)
    case FreeItem =>
      !Uncosted(c, i) && !stops && i.baseline.price <= 0 && exists rule, u :: DecidedBy(c, i, rule) && Makes(rule, i, u) && u <= 0
    case BelowRoundingStep =>
      !stops && exists rule, u, p :: PutsAt(c, i, rule, u) && RoundsBy(c, i.surface, p)
                  && R.ValidProfile(p, i.surface.perMajor) && NoStepBelow(rule, i, u, p)
    case BelowFloor =>
      && c.onViolation != Clamp && stops == (c.onViolation == BlockRun)
      && (Limited(i.store) || Limited(c.guardrails))
      && exists rule, u, r :: RoundsTo(c, i, rule, u, r) && !Allowed(c, i, r)
    case NonPositive =>
      && c.onViolation != Clamp && stops == (c.onViolation == BlockRun)
      && !Limited(i.store) && !Limited(c.guardrails)
      && exists rule, u, r :: RoundsTo(c, i, rule, u, r) && r <= 0
    case FloorAboveBaseline =>
      && !stops && c.onViolation == Clamp && !Allowed(c, i, i.baseline.price)
      && exists rule, u, r :: RoundsTo(c, i, rule, u, r) && Discounts(rule) && !Allowed(c, i, r)
    case BadCompareAt =>
      && !c.onCompareAt.ClearAnyway? && stops == c.onCompareAt.BlockIt?
      && exists rule, u, price, clamped :: EndsAt(c, i, rule, u, price, clamped) && NoSaving(c, i, price)
  }

  /** A profile nothing can be rounded by: no step, or an ending that is not of two digits. */
  predicate Unusable(p: R.Profile, perMajor: R.PerMajor) {
    if p.Step? then p.step <= 0 else perMajor > 1 && (p.ending <= -1 || p.ending >= 100)
  }

  /** What an answer says of the campaign and the variant. */
  ghost predicate Meant(c: Campaign, i: Input, res: Resolution) {
    match res
    case AtBaseline(price, compareAt) =>
      !Uncosted(c, i) && NoRow(c.rules, i.segments) && price == i.baseline.price && compareAt == i.baseline.compareAt
    case Priced(price, shown, clamped, u) =>
      (exists rule :: EndsAt(c, i, rule, u, price, clamped)) && StrikesAs(c, i, price, shown)
    case Skipped(reason) => Reasons(c, i, reason, false)
    case Blocked(reason) => Reasons(c, i, reason, true)
    case Thrown =>
      || (exists p :: RoundsBy(c, i.surface, p) && Unusable(p, i.surface.perMajor))
      || (i.baseline.cost.Some? && Unreachable(c, i))
  }

  lemma ProfileIsTheCurrencys(c: Campaign, s: Surface)
    ensures RoundsBy(c, s, ProfileFor(c.rounding, s))
  {
  }

  /** What the rounding makes of a rule's price, or that no step is left below the baseline. */
  lemma RoundingMeansIt(c: Campaign, i: Input, rule: Rule, u: int)
    requires PutsAt(c, i, rule, u) && R.ValidProfile(ProfileFor(c.rounding, i.surface), i.surface.perMajor)
    ensures match RoundFor(rule, u, i.baseline.price, ProfileFor(c.rounding, i.surface), i.surface.perMajor)
            case Ok(r) => RoundsTo(c, i, rule, u, r)
            case Err(reason) => reason == BelowRoundingStep && Reasons(c, i, reason, false)
  {
    ProfileIsTheCurrencys(c, i.surface);
    var p := ProfileFor(c.rounding, i.surface);
    var rounded := RoundFor(rule, u, i.baseline.price, p, i.surface.perMajor);
    if rounded.Ok? {
      assert RoundedTo(rule, i, u, p, rounded.value);
    } else {
      assert NoStepBelow(rule, i, u, p);
    }
  }

  /** A discount is never rounded to a price for an item that was free. */
  lemma DiscountsAreOfSomething(c: Campaign, i: Input, rule: Rule, u: int, r: int)
    requires RoundsTo(c, i, rule, u, r)
    ensures Discounts(rule) ==> i.baseline.price > 0
  {
    if i.baseline.price <= 0 {
      var p :| RoundsBy(c, i.surface, p) && R.ValidProfile(p, i.surface.perMajor) && RoundedTo(rule, i, u, p, r);
      R.RoundingKeepsDirection(u, p, i.surface.perMajor);
    }
  }

  /** What the floor and the policy make of a rounded price. */
  lemma ClampingMeansIt(c: Campaign, i: Input, rule: Rule, u: int, r: int)
    requires ValidCampaign(c) && ValidInput(i) && RoundsTo(c, i, rule, u, r)
    requires Floor(i.baseline, Merge(i.store, c.guardrails)).Ok?
    ensures match ClampTo(rule, c.onViolation, r, Floor(i.baseline, Merge(i.store, c.guardrails)).value, i.baseline.price)
            case Keep(price, clamped) => EndsAt(c, i, rule, u, price, clamped)
            case Leave(reason) => Reasons(c, i, reason, false)
            case Stop(reason) => Reasons(c, i, reason, true)
  {
    DiscountsAreOfSomething(c, i, rule, u, r);
    AllowedAboveFloor(c, i, r);
    AllowedAboveFloor(c, i, i.baseline.price);
    var k := ClampTo(rule, c.onViolation, r, Floor(i.baseline, Merge(i.store, c.guardrails)).value, i.baseline.price);
    if k.Keep? {
      AllowedAboveFloor(c, i, k.price);
      forall less | less < k.price && k.clamped
        ensures !Allowed(c, i, less)
      {
        AllowedAboveFloor(c, i, less);
      }
    }
  }

  lemma StrikeMeansIt(c: Campaign, i: Input, price: int)
    requires ValidCampaign(c)
    ensures match CompareAtFor(c, i, price)
            case Use(shown) => StrikesAs(c, i, price, shown)
            case LeaveVariant => c.onCompareAt.SkipIt? && NoSaving(c, i, price)
            case StopRun => c.onCompareAt.BlockIt? && NoSaving(c, i, price)
  {
    var asked: Option<int> :=
      match c.compareAt
      case SetToBaseline => Some(i.baseline.price)
      case FromFile(id) => if id in i.importedCompareAts then Some(i.importedCompareAts[id]) else None
      case Adjust(rule) =>
        if i.baseline.compareAt.None? then None
        else
          var adjusted := ApplyRule(rule, i.baseline, i.surface.currency, map[]);
          if adjusted.Err? then None else Some(adjusted.value)
      case _ => None;
    if c.compareAt.Adjust? {
      RuleMakes(c.compareAt.rule, i.(importedPrices := map[]));
    }
    assert AsksToStrike(c, i, asked);
  }

  /** From the rule's price on. */
  lemma PriceFromMeansIt(c: Campaign, i: Input, rule: Rule, u: int)
    requires ValidCampaign(c) && ValidInput(i) && PutsAt(c, i, rule, u)
    ensures Meant(c, i, PriceFrom(c, i, Merge(i.store, c.guardrails), rule, u))
  {
    var p, g := ProfileFor(c.rounding, i.surface), Merge(i.store, c.guardrails);
    ProfileIsTheCurrencys(c, i.surface);
    if R.ValidProfile(p, i.surface.perMajor) {
      RoundingMeansIt(c, i, rule, u);
      var rounded := RoundFor(rule, u, i.baseline.price, p, i.surface.perMajor);
      if rounded.Ok? && Floor(i.baseline, g).Ok? {
        ClampingMeansIt(c, i, rule, u, rounded.value);
        var k := ClampTo(rule, c.onViolation, rounded.value, Floor(i.baseline, g).value, i.baseline.price);
        if k.Keep? {
          StrikeMeansIt(c, i, k.price);
        }
      }
    }
  }

  /**
   * Whatever the resolver answers is so: the baseline when no row is for the variant; a price only the
   * deciding row's rule makes, rounded by the profile, within every limit and no further from it than
   * the limits force, struck through only for a saving; and else the reason it gives.
   */
  lemma AnswersMeanIt(c: Campaign, i: Input)
    requires ValidCampaign(c) && ValidInput(i)
    ensures Meant(c, i, PriceUnder(c, i))
  {
    var k := RuleIsLast(c.rules, i.segments);
    if !Uncosted(c, i) && RuleFor(c.rules, i.segments).Some? {
      var rule := c.rules[k].rule;
      assert DecidedBy(c, i, rule);
      assert ValidRule(rule) by {
        assert c.rules[k] in c.rules;
      }
      RuleMakes(rule, i);
      var u := ApplyRule(rule, i.baseline, i.surface.currency, i.importedPrices);
      if u.Ok? && (i.baseline.price > 0 || u.value > 0) {
        PriceFromMeansIt(c, i, rule, u.value);
      }
    }
  }

  /** What a variant's campaigns make of it: the baseline when there are none, else what the one all others yield to says. */
  ghost predicate Answers(campaigns: seq<Campaign>, i: Input, res: Resolution) {
    if campaigns == [] then res == AtBaseline(i.baseline.price, i.baseline.compareAt)
    else exists c :: c in campaigns && (forall d :: d in campaigns ==> Yields(d.rank, c.rank)) && Meant(c, i, res)
  }

  /** The campaign that prices a variant has the highest priority, then the latest start, then the largest id, and its answer is so. */
  lemma ResolveAnswers(campaigns: seq<Campaign>, i: Input)
    requires ValidInput(i) && forall c :: c in campaigns ==> ValidCampaign(c)
    ensures Answers(campaigns, i, Resolve(campaigns, i))
  {
    if campaigns != [] {
      var ranks := Ranks(campaigns);
      var best := Best(ranks);
      BestTops(ranks);
      forall d | d in campaigns
        ensures Yields(d.rank, campaigns[best].rank)
      {
        var k :| 0 <= k < |campaigns| && campaigns[k] == d;
        assert ranks[k] in ranks;
        ComparesKeyByKey(ranks[best], ranks[k]);
      }
      AnswersMeanIt(campaigns[best], i);
    }
  }
}
