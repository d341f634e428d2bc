/** The resolver: what one variant should cost on one surface, given its baseline and the campaigns on it. */
module Resolver {
  import opened Wrappers
  import opened Ranking
  import M = Money
  import R = Rounding

  // ---------------------------------------------------------------- entities

  datatype Amount = Amount(minor: int, currency: string)

  datatype Rule =
    | PercentChange(percent: M.Decimal)
    | FixedChange(amount: Amount)
    | SetExact(amount: Amount)
    | FromCostMultiplier(factor: M.Decimal)
    | FromCostMargin(margin: M.Decimal)
    | FromImport(importId: string)
    | PercentOfCompareAt(percent: M.Decimal)

  /** No segments means the whole campaign scope. */
  datatype RuleRow = RuleRow(segments: set<string>, rule: Rule)

  datatype CompareAtPolicy = SetToBaseline | Adjust(rule: Rule) | ClearIt | LeaveIt | FromFile(importId: string)

  datatype OnViolation = Clamp | SkipVariant | BlockRun

  datatype OnCompareAt = SkipIt | ClearAnyway | BlockIt

  datatype OnMissingCost = SkipUncosted | ErrorUncosted

  datatype Guardrails = Guardrails(neverBelowCost: bool, minMargin: Option<M.Decimal>, minPrice: Option<int>,
                                   missingCost: Option<OnMissingCost>)

  datatype RoundingPolicy = RoundingPolicy(default: R.Profile, byCurrency: map<string, R.Profile>)

  datatype Campaign = Campaign(rank: Rank, rules: seq<RuleRow>, compareAt: CompareAtPolicy, onCompareAt: OnCompareAt,
                               rounding: RoundingPolicy, guardrails: Option<Guardrails>, onViolation: OnViolation)

  /** A variant's own prices, in the surface's currency. */
  datatype Baseline = Baseline(price: int, compareAt: Option<int>, cost: Option<int>)

  datatype Surface = Surface(currency: string, perMajor: R.PerMajor)

  datatype Input = Input(baseline: Baseline, surface: Surface, store: Option<Guardrails>, segments: set<string>,
                         importedPrices: map<string, int>, importedCompareAts: map<string, int>)

  datatype RuleError = MissingCost | MissingCompareAt | InvalidMargin | MissingImport | CurrencyMismatch

  datatype Reason =
    | NoCost | BadMargin | NotImported | OtherCurrency | FreeItem | BelowRoundingStep
    | BelowFloor | FloorAboveBaseline | NonPositive | BadCompareAt

  datatype NewCompareAt = Untouched | Cleared | Struck(value: int)

  datatype Resolution =
    | AtBaseline(price: int, compareAt: Option<int>)
    | Priced(price: int, newCompareAt: NewCompareAt, clamped: bool, unrounded: int)
    | Skipped(reason: Reason)
    | Blocked(reason: Reason)
    | Thrown

  // ------------------------------------------------------------------- rules

  /** A row without segments is for every variant, any other for those in one of its segments. */
  predicate Matches(row: RuleRow, segments: set<string>): (yes: bool)
    ensures yes <==> row.segments == {} || exists s :: s in row.segments && s in segments
  {
    var shared := row.segments * segments;
    assert forall s :: s in shared <==> s in row.segments && s in segments;
    assert shared != {} ==> exists s :: s in shared;
    row.segments == {} || shared != {}
  }

  /** The last matching row's rule. */
  function RuleFor(rows: seq<RuleRow>, segments: set<string>): Option<Rule> {
    if rows == [] then None
    else if Matches(rows[|rows| - 1], segments) then Some(rows[|rows| - 1].rule)
    else RuleFor(rows[..|rows| - 1], segments)
  }

  /** Walks the rows once, keeping the latest match. */
  method SelectRule(rows: seq<RuleRow>, segments: set<string>) returns (selected: Option<Rule>)
    ensures selected == RuleFor(rows, segments)
    ensures selected.None? <==> forall i :: 0 <= i < |rows| ==> !Matches(rows[i], segments)
    ensures selected.Some? ==> exists i :: 0 <= i < |rows| && Matches(rows[i], segments) && rows[i].rule == selected.value
                                 && forall j :: i < j < |rows| ==> !Matches(rows[j], segments)
  {
    selected := None;
    for i := 0 to |rows|
      invariant selected == RuleFor(rows[..i], segments)
      invariant selected.None? <==> forall k :: 0 <= k < i ==> !Matches(rows[k], segments)
      invariant selected.Some? ==> exists k :: 0 <= k < i && Matches(rows[k], segments) && rows[k].rule == selected.value
                                     && forall j :: k < j < i ==> !Matches(rows[j], segments)
    {
      assert rows[..i + 1][..i] == rows[..i];
      if Matches(rows[i], segments) {
        selected := Some(rows[i].rule);
      }
    }
    assert rows[..|rows|] == rows;
  }

  predicate ValidRule(r: Rule) {
    match r
    case PercentChange(p) => M.ValidDecimal(p)
    case FromCostMultiplier(f) => M.ValidDecimal(f)
    case FromCostMargin(m) => M.ValidDecimal(m)
    case PercentOfCompareAt(p) => M.ValidDecimal(p)
    case _ => true
  }

  function ApplyRule(r: Rule, b: Baseline, currency: string, imported: map<string, int>): Result<int, RuleError>
    requires ValidRule(r)
  {
    match r
    case PercentChange(p) => Ok(M.PercentChange(b.price, p))
    case FixedChange(a) => if a.currency != currency then Err(CurrencyMismatch) else Ok(b.price + a.minor)
    case SetExact(a) => if a.currency != currency then Err(CurrencyMismatch) else Ok(a.minor)
    case FromImport(id) => if id in imported then Ok(imported[id]) else Err(MissingImport)
    case FromCostMultiplier(f) =>
      if b.cost.None? then Err(MissingCost) else Ok(M.DivideRounded(b.cost.value * f.num, f.den, M.HalfEven).value)
    case FromCostMargin(m) =>
      if b.cost.None? then Err(MissingCost)
      else
        var price := M.PriceAtMargin(b.cost.value, m, M.HalfEven);
        if price.None? then Err(InvalidMargin) else Ok(price.value)
    case PercentOfCompareAt(p) =>
      if b.compareAt.None? then Err(MissingCompareAt) else Ok(M.PercentChange(b.compareAt.value, p))
  }

  /** Takes money off the normal price. */
  predicate Reduces(r: Rule) {
    (r.PercentChange? && r.percent.num < 0) || (r.FixedChange? && r.amount.minor < 0)
  }

  /** Adds to the normal price. */
  predicate Raises(r: Rule) {
    (r.PercentChange? && r.percent.num > 0) || (r.FixedChange? && r.amount.minor > 0)
  }

  // -------------------------------------------------------------- guardrails

  const NO_GUARDRAILS := Guardrails(false, None, None, None)

  function Higher(a: Option<int>, b: Option<int>): Option<int> {
    if a.None? then b else if b.None? then a else if a.value >= b.value then a else b
  }

  function Tighter(a: Option<M.Decimal>, b: Option<M.Decimal>): Option<M.Decimal> {
    if a.None? then b else if b.None? then a
    else if a.value.num * b.value.den >= b.value.num * a.value.den then a else b
  }

  /** The store's guardrails and the campaign's: the campaign's may only tighten. */
  function Merge(store: Option<Guardrails>, campaign: Option<Guardrails>): Guardrails {
    if store.None? then (if campaign.None? then NO_GUARDRAILS else campaign.value)
    else if campaign.None? then store.value
    else
      Guardrails(store.value.neverBelowCost || campaign.value.neverBelowCost,
                 Tighter(store.value.minMargin, campaign.value.minMargin),
                 Higher(store.value.minPrice, campaign.value.minPrice),
                 if campaign.value.missingCost.Some? then campaign.value.missingCost else store.value.missingCost)
  }

  predicate NeedsCost(g: Guardrails) {
    g.neverBelowCost || g.minMargin.Some?
  }

  /** The highest of what applies; an unreachable margin throws. A missing cost never gets here. */
  function Floor(b: Baseline, g: Guardrails): Result<Option<int>, ()>
    requires g.minMargin.Some? ==> M.ValidDecimal(g.minMargin.value)
  {
    if b.cost.None? then Ok(g.minPrice)
    else
      var atCost := if g.neverBelowCost then Higher(g.minPrice, b.cost) else g.minPrice;
      if g.minMargin.None? then Ok(atCost)
      else
        var atMargin := M.PriceAtMargin(b.cost.value, g.minMargin.value, M.Ceil);
        if atMargin.None? then Err(()) else Ok(Higher(atCost, atMargin))
  }

  // ---------------------------------------------------------------- resolving

  /** The rounding of one currency. A charm ending means nothing where there is no smaller unit. */
  function ProfileFor(policy: RoundingPolicy, s: Surface): R.Profile {
    var p := if s.currency in policy.byCurrency then policy.byCurrency[s.currency] else policy.default;
    if p.Charm? && p.ending > 0 && s.perMajor == 1 then R.Step(10, R.Nearest) else p
  }

  predicate ValidGuardrails(g: Guardrails) {
    g.minMargin.Some? ==> M.ValidDecimal(g.minMargin.value)
  }

  /** Percentages and factors are decimals a merchant typed. */
  predicate ValidCampaign(c: Campaign) {
    && (forall row :: row in c.rules ==> ValidRule(row.rule))
    && (c.compareAt.Adjust? ==> ValidRule(c.compareAt.rule))
    && (c.guardrails.Some? ==> ValidGuardrails(c.guardrails.value))
  }

  predicate ValidInput(i: Input) {
    i.store.Some? ==> ValidGuardrails(i.store.value)
  }

  /** Rounded, and never past the baseline in the direction the rule did not go. */
  function RoundFor(r: Rule, unrounded: int, baseline: int, p: R.Profile, perMajor: R.PerMajor): Result<int, Reason>
    requires R.ValidProfile(p, perMajor)
  {
    var rounded := R.Apply(unrounded, p, perMajor);
    if Reduces(r) && rounded >= baseline then
      var below := R.Apply(unrounded, R.WithDirection(p, R.Down), perMajor);
      if below >= baseline || below <= 0 then Err(BelowRoundingStep) else Ok(below)
    else if Raises(r) && rounded < baseline then Ok(R.Apply(unrounded, R.WithDirection(p, R.Up), perMajor))
    else Ok(rounded)
  }

  datatype Clamping = Keep(price: int, clamped: bool) | Leave(reason: Reason) | Stop(reason: Reason)

  function Violated(policy: OnViolation, reason: Reason): Clamping
    requires policy != Clamp
  {
    if policy == BlockRun then Stop(reason) else Leave(reason)
  }

  /** The merchant's floor, then the rule that a price is always positive. */
  function ClampTo(r: Rule, policy: OnViolation, price: int, floor: Option<int>, baseline: int): Clamping {
    var effective := if floor.None? then None else Some(if floor.value < 1 then 1 else floor.value);
    if effective.Some? && price < effective.value then
      if policy != Clamp then Violated(policy, BelowFloor)
      else if Reduces(r) && effective.value > baseline then Leave(FloorAboveBaseline)
      else Keep(effective.value, true)
    else if price <= 0 then
      if policy != Clamp then Violated(policy, NonPositive) else Keep(1, true)
    else Keep(price, false)
  }

  datatype Strike = Use(value: NewCompareAt) | LeaveVariant | StopRun

  /** The strike-through: one that would not show a saving is refused, by policy. */
  function CompareAtFor(c: Campaign, i: Input, price: int): Strike
    requires c.compareAt.Adjust? ==> ValidRule(c.compareAt.rule)
  {
    var candidate: Option<int> :=
      match c.compareAt
      case SetToBaseline => Some(i.baseline.price)
      case FromFile(id) => if id in i.importedCompareAts then Some(i.importedCompareAts[id]) else None
      case Adjust(rule) =>
        if i.baseline.compareAt.None? then None
        else
          var adjusted := ApplyRule(rule, i.baseline, i.surface.currency, map[]);
          if adjusted.Err? then None else Some(adjusted.value)
      case _ => None;
    if c.compareAt.ClearIt? then Use(Cleared)
    else if candidate.None? then Use(Untouched)
    else if candidate.value <= price then
      match c.onCompareAt
      case BlockIt => StopRun
      case SkipIt => LeaveVariant
      case ClearAnyway => Use(Cleared)
    else Use(Struck(candidate.value))
  }

  function RuleRefused(c: Campaign, e: RuleError): Resolution {
    match e
    case CurrencyMismatch => Skipped(OtherCurrency)
    case InvalidMargin => if c.onViolation == BlockRun then Blocked(BadMargin) else Skipped(BadMargin)
    case MissingImport => if c.onViolation == BlockRun then Blocked(NotImported) else Skipped(NotImported)
    case _ => if c.onViolation == BlockRun then Blocked(NoCost) else Skipped(NoCost)
  }

  /** What campaign `c` makes of the variant once it has won it. */
  function PriceUnder(c: Campaign, i: Input): Resolution
    requires ValidCampaign(c) && ValidInput(i)
  {
    var g := Merge(i.store, c.guardrails);
    if NeedsCost(g) && i.baseline.cost.None? then
      if g.missingCost == Some(ErrorUncosted) then Blocked(NoCost) else Skipped(NoCost)
    else
      var rule := RuleFor(c.rules, i.segments);
      if rule.None? then AtBaseline(i.baseline.price, i.baseline.compareAt)
      else
        RuleForIsOneOf(c.rules, i.segments);
        var unrounded := ApplyRule(rule.value, i.baseline, i.surface.currency, i.importedPrices);
        if unrounded.Err? then RuleRefused(c, unrounded.error)
        else if i.baseline.price <= 0 && unrounded.value <= 0 then Skipped(FreeItem)
        else PriceFrom(c, i, g, rule.value, unrounded.value)
  }

  /** From the rule's price on: round, clamp, strike through. */
  function PriceFrom(c: Campaign, i: Input, g: Guardrails, rule: Rule, unrounded: int): Resolution
    requires c.compareAt.Adjust? ==> ValidRule(c.compareAt.rule)
    requires ValidGuardrails(g)
  {
    var profile := ProfileFor(c.rounding, i.surface);
    if !R.ValidProfile(profile, i.surface.perMajor) then Thrown
    else
      var rounded := RoundFor(rule, unrounded, i.baseline.price, profile, i.surface.perMajor);
      if rounded.Err? then Skipped(rounded.error)
      else
        var floor := Floor(i.baseline, g);
        if floor.Err? then Thrown
        else
          match ClampTo(rule, c.onViolation, rounded.value, floor.value, i.baseline.price)
          case Stop(reason) => Blocked(reason)
          case Leave(reason) => Skipped(reason)
          case Keep(price, clamped) =>
            match CompareAtFor(c, i, price)
            case StopRun => Blocked(BadCompareAt)
            case LeaveVariant => Skipped(BadCompareAt)
            case Use(compareAt) => Priced(price, compareAt, clamped, unrounded)
  }

  lemma {:induction false} RuleForIsOneOf(rows: seq<RuleRow>, segments: set<string>)
    ensures var r := RuleFor(rows, segments); r.Some? ==> exists row :: row in rows && row.rule == r.value
  {
    if rows != [] && !Matches(rows[|rows| - 1], segments) {
      RuleForIsOneOf(rows[..|rows| - 1], segments);
    }
  }

  function Ranks(campaigns: seq<Campaign>): (ranks: seq<Rank>)
    ensures |ranks| == |campaigns| && forall k :: 0 <= k < |ranks| ==> ranks[k] == campaigns[k].rank
  {
    seq(|campaigns|, k requires 0 <= k < |campaigns| => campaigns[k].rank)
  }

  function Resolve(campaigns: seq<Campaign>, i: Input): Resolution
    requires ValidInput(i) && forall c :: c in campaigns ==> ValidCampaign(c)
  {
    if campaigns == [] then AtBaseline(i.baseline.price, i.baseline.compareAt)
    else PriceUnder(campaigns[Best(Ranks(campaigns))], i)
  }

  // --------------------------------------------------------------- promises

  /** The order the campaigns are listed in changes nothing, ids being distinct. */
  lemma ResolveIgnoresOrder(a: seq<Campaign>, b: seq<Campaign>, i: Input)
    requires ValidInput(i) && forall c :: c in a ==> ValidCampaign(c)
    requires forall c :: c in a <==> c in b
    requires forall c, d :: c in a && d in a && c.rank == d.rank ==> c == d
    ensures forall c :: c in b ==> ValidCampaign(c)
    ensures Resolve(a, i) == Resolve(b, i)
  {
    if a == [] {
      NoneAlike(a, b);
    } else {
      assert a[0] in a && a[0] in b;
      BestTops(Ranks(a));
      BestTops(Ranks(b));
      forall r
        ensures r in Ranks(a) <==> r in Ranks(b)
      {
        SameRanks(a, b, r);
        SameRanks(b, a, r);
      }
      WinnerIsUnique(Ranks(a)[Best(Ranks(a))], Ranks(b)[Best(Ranks(b))], Ranks(a), Ranks(b));
    }
  }

  lemma NoneAlike<T>(a: seq<T>, b: seq<T>)
    requires forall x :: x in b ==> x in a
    ensures a == [] ==> b == []
  {
    if b != [] {
      assert b[0] in a;
    }
  }

  lemma SameRanks(a: seq<Campaign>, b: seq<Campaign>, r: Rank)
    requires forall c :: c in a ==> c in b
    ensures r in Ranks(a) ==> r in Ranks(b)
  {
    if r in Ranks(a) {
      var k :| 0 <= k < |a| && Ranks(a)[k] == r;
      assert a[k] in b;
      var j :| 0 <= j < |b| && b[j] == a[k];
      assert Ranks(b)[j] == r;
    }
  }

  /** The price of a reduction of a normal price. */
  lemma ReducingLowers(r: Rule, i: Input)
    requires ValidRule(r) && i.baseline.price >= 0
    ensures var u := ApplyRule(r, i.baseline, i.surface.currency, i.importedPrices);
            u.Ok? ==> (Reduces(r) ==> u.value <= i.baseline.price) && (Raises(r) ==> u.value >= i.baseline.price)
  {
    if r.PercentChange? {
      M.PercentChangeDirection(i.baseline.price, r.percent);
    }
  }

  /** Rounding does not carry a reduction up to the baseline, nor an increase below it. */
  lemma RoundingStaysOnItsSide(r: Rule, unrounded: int, baseline: int, p: R.Profile, perMajor: R.PerMajor)
    requires R.ValidProfile(p, perMajor)
    requires Raises(r) ==> unrounded >= baseline >= 0
    ensures var rounded := RoundFor(r, unrounded, baseline, p, perMajor);
            rounded.Ok? ==> (Reduces(r) ==> rounded.value < baseline) && (Raises(r) ==> rounded.value >= baseline)
  {
    if Raises(r) {
      R.RoundingKeepsDirection(unrounded, R.WithDirection(p, R.Up), perMajor);
    }
  }

  /** Clamping only raises, to the floor or to the smallest price, and a reduction never past the baseline. */
  lemma ClampingOnlyRaises(r: Rule, policy: OnViolation, price: int, floor: Option<int>, baseline: int)
    requires Reduces(r) ==> price < baseline
    requires Raises(r) ==> price >= baseline
    ensures var k := ClampTo(r, policy, price, floor, baseline);
            k.Keep? ==>
              && k.price >= 1 && k.price >= price && (k.clamped <==> k.price > price)
              && (floor.Some? ==> k.price >= floor.value)
              && (Reduces(r) && baseline >= 1 ==> k.price <= baseline)
              && (Raises(r) ==> k.price >= baseline)
              && (k.clamped ==> policy == Clamp)
  {
  }

  /** A price on the side of the baseline its rule says, above nothing, and clamped only where the policy clamps. */
  predicate SafeUnder(rule: Rule, policy: OnViolation, baseline: int, res: Resolution)
    requires res.Priced?
  {
    && res.price >= 1
    && (res.clamped ==> policy == Clamp)
    && var change := if rule.PercentChange? then rule.percent.num else if rule.FixedChange? then rule.amount.minor else 0;
    && (change < 0 ==> res.price <= baseline && (res.clamped || res.price < baseline))
    && (change > 0 ==> res.price >= baseline)
  }

  /**
   * Every price a campaign sets is strictly positive; a reduction never ends above the original,
   * and below it unless a floor raised it; an increase never ends below it.
   */
  lemma PricedIsSafe(c: Campaign, i: Input)
    requires ValidCampaign(c) && ValidInput(i) && i.baseline.price >= 0
    ensures PriceUnder(c, i).Priced? ==>
              && RuleFor(c.rules, i.segments).Some?
              && SafeUnder(RuleFor(c.rules, i.segments).value, c.onViolation, i.baseline.price, PriceUnder(c, i))
  {
    if PriceUnder(c, i).Priced? {
      var rule := RuleFor(c.rules, i.segments).value;
      RuleForIsOneOf(c.rules, i.segments);
      ReducingLowers(rule, i);
      PricedFromIsSafe(c, i, Merge(i.store, c.guardrails), rule, PriceUnder(c, i).unrounded);
    }
  }

  lemma PricedFromIsSafe(c: Campaign, i: Input, g: Guardrails, rule: Rule, unrounded: int)
    requires c.compareAt.Adjust? ==> ValidRule(c.compareAt.rule)
    requires ValidGuardrails(g) && i.baseline.price >= 0
    requires i.baseline.price > 0 || unrounded > 0
    requires Reduces(rule) ==> unrounded <= i.baseline.price
    requires Raises(rule) ==> unrounded >= i.baseline.price
    requires PriceFrom(c, i, g, rule, unrounded).Priced?
    ensures SafeUnder(rule, c.onViolation, i.baseline.price, PriceFrom(c, i, g, rule, unrounded))
  {
    var profile := ProfileFor(c.rounding, i.surface);
    var rounded := RoundFor(rule, unrounded, i.baseline.price, profile, i.surface.perMajor);
    RoundingStaysOnItsSide(rule, unrounded, i.baseline.price, profile, i.surface.perMajor);
    ClampingOnlyRaises(rule, c.onViolation, rounded.value, Floor(i.baseline, g).value, i.baseline.price);
  }

  /** The strike-through, when there is one, shows a saving. */
  lemma StrikeShowsASaving(c: Campaign, i: Input)
    requires ValidCampaign(c) && ValidInput(i)
    ensures var res := PriceUnder(c, i);
            res.Priced? ==>
            && (res.newCompareAt.Struck? ==> res.newCompareAt.value > res.price)
            && (c.compareAt.SetToBaseline? && i.baseline.price > res.price ==> res.newCompareAt == Struck(i.baseline.price))
            && (c.compareAt.LeaveIt? ==> res.newCompareAt == Untouched)
  {
  }

  /** A price meets a margin: its share over cost is at least that much of it. */
  predicate MeetsMargin(price: int, cost: int, margin: M.Decimal) {
    price * (100 * margin.den - margin.num) >= cost * (100 * margin.den)
  }

  /** What one set of guardrails asks of a price. */
  predicate Respects(g: Guardrails, b: Baseline, price: int) {
    && (g.minPrice.Some? ==> price >= g.minPrice.value)
    && (g.neverBelowCost ==> b.cost.Some? && price >= b.cost.value)
    && (g.minMargin.Some? ==> b.cost.Some? && MeetsMargin(price, b.cost.value, g.minMargin.value))
  }

  lemma PriceMeetsMargin(price: int, floor: int, cost: int, margin: M.Decimal)
    requires M.ValidDecimal(margin) && M.PriceAtMargin(cost, margin, M.Ceil) == Some(floor) && price >= floor
    ensures MeetsMargin(price, cost, margin)
  {
    M.MarginFloorMeetsMargin(cost, margin);
    M.MulMonotone(floor, price, 100 * margin.den - margin.num);
  }

  /** Whatever the rule, rounding and policy: a price written respects the merged guardrails. */
  lemma PricedRespectsMerged(c: Campaign, i: Input)
    requires ValidCampaign(c) && ValidInput(i)
    ensures PriceUnder(c, i).Priced? ==> Respects(Merge(i.store, c.guardrails), i.baseline, PriceUnder(c, i).price)
  {
    var g := Merge(i.store, c.guardrails);
    RuleForIsOneOf(c.rules, i.segments);
    if PriceUnder(c, i).Priced? && g.minMargin.Some? {
      PriceMeetsMargin(PriceUnder(c, i).price, M.PriceAtMargin(i.baseline.cost.value, g.minMargin.value, M.Ceil).value,
                       i.baseline.cost.value, g.minMargin.value);
    }
  }

  /** A tighter margin met is the looser one met, over a cost that is not negative. */
  lemma TighterMeetsLooser(price: int, cost: int, tight: M.Decimal, loose: M.Decimal)
    requires M.ValidDecimal(tight) && M.ValidDecimal(loose)
    requires tight.num * loose.den >= loose.num * tight.den
    requires price >= 0 && MeetsMargin(price, cost, tight)
    ensures MeetsMargin(price, cost, loose)
  {
    var tn, td, ln, ld := tight.num, tight.den, loose.num, loose.den;
    var x := price * (100 * ld - ln) - cost * (100 * ld);
    var y := price * (100 * td - tn) - cost * (100 * td);
    // Scaled to one denominator, the looser side is the tighter plus what it gives away.
    assert x * td == y * ld + price * (tn * ld - ln * td) by {
      Scaled(price, cost, tn, td, ln, ld);
    }
    M.MulMonotone(0, y, ld);
    M.MulMonotone(0, tn * ld - ln * td, price);
    if x < 0 {
      M.MulMonotone(x, -1, td);
    }
  }

  lemma Scaled(price: int, cost: int, tn: int, td: int, ln: int, ld: int)
    ensures (price * (100 * ld - ln) - cost * (100 * ld)) * td
         == (price * (100 * td - tn) - cost * (100 * td)) * ld + price * (tn * ld - ln * td)
  {
    var p, q := price * ld * td, cost * ld * td;
    calc {
      (price * (100 * ld - ln) - cost * (100 * ld)) * td;
      100 * p - price * ln * td - 100 * q;
      (100 * p - price * tn * ld - 100 * q) + (price * tn * ld - price * ln * td);
      (price * (100 * td - tn) - cost * (100 * td)) * ld + price * (tn * ld - ln * td);
    }
  }

  /**
   * A campaign can only tighten: a price it sets respects the store's guardrails and its own,
   * each on its own terms.
   */
  lemma PricedRespectsBoth(c: Campaign, i: Input)
    requires ValidCampaign(c) && ValidInput(i) && i.baseline.price >= 0
    ensures PriceUnder(c, i).Priced? && i.store.Some? ==> Respects(i.store.value, i.baseline, PriceUnder(c, i).price)
    ensures PriceUnder(c, i).Priced? && c.guardrails.Some? ==> Respects(c.guardrails.value, i.baseline, PriceUnder(c, i).price)
  {
    PricedRespectsMerged(c, i);
    PricedIsSafe(c, i);
    if PriceUnder(c, i).Priced? {
      MergedIsBoth(i.store, c.guardrails, i.baseline, PriceUnder(c, i).price);
    }
  }

  /** A price respects two merged guardrails exactly when it respects each. */
  lemma MergedIsBoth(store: Option<Guardrails>, own: Option<Guardrails>, b: Baseline, price: int)
    requires (store.Some? ==> ValidGuardrails(store.value)) && (own.Some? ==> ValidGuardrails(own.value))
    requires price >= 0
    ensures Respects(Merge(store, own), b, price) <==>
              (store.Some? ==> Respects(store.value, b, price)) && (own.Some? ==> Respects(own.value, b, price))
  {
    var g := Merge(store, own);
    if Respects(g, b, price) && store.Some? && own.Some? && store.value.minMargin.Some? && own.value.minMargin.Some? {
      var x, y := store.value.minMargin.value, own.value.minMargin.value;
      if g.minMargin.value == x && x.num * y.den >= y.num * x.den {
        TighterMeetsLooser(price, b.cost.value, x, y);
      } else {
        TighterMeetsLooser(price, b.cost.value, y, x);
      }
    }
  }
}
