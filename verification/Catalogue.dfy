/** The protocol's world, built from real campaigns: its targets are what the resolver resolves. */
module Catalogue {
  import opened Wrappers
  import opened Ranking
  import Resolver
  import Protocol
  import Ledger

  type Variant = Ledger.Variant

  datatype Listed = Listed(campaign: Resolver.Campaign, scope: set<Variant>)

  datatype Shop = Shop(listed: seq<Listed>, inputs: map<Variant, Resolver.Input>)

  predicate ValidShop(shop: Shop) {
    && (forall l :: l in shop.listed ==> Resolver.ValidCampaign(l.campaign) && l.scope <= shop.inputs.Keys)
    && (forall v :: v in shop.inputs ==> Resolver.ValidInput(shop.inputs[v]))
  }

  /** A resolution as the protocol sees it: a price, nothing to write, or a run that must not go. */
  function OfferOf(r: Resolver.Resolution): Protocol.Offer {
    match r
    case AtBaseline(price, _) => Protocol.Priced(price, false)
    case Priced(price, _, clamped, _) => Protocol.Priced(price, clamped)
    case Skipped(_) => Protocol.Skips
    case Blocked(_) => Protocol.Blocks
    case Thrown => Protocol.Blocks
  }

  function DefOf(shop: Shop, l: Listed): Protocol.Def
    requires ValidShop(shop) && l in shop.listed
  {
    Protocol.Def(l.campaign.rank, l.scope,
                 map v | v in l.scope :: OfferOf(Resolver.PriceUnder(l.campaign, shop.inputs[v])))
  }

  function WorldOf(shop: Shop): (w: Protocol.World)
    requires ValidShop(shop)
    ensures |w.defs| == |shop.listed|
    ensures forall c :: 0 <= c < |w.defs| ==> w.defs[c] == DefOf(shop, shop.listed[c])
    ensures forall v :: v in w.baseline <==> v in shop.inputs
  {
    Protocol.World(map v | v in shop.inputs :: shop.inputs[v].baseline.price,
                   seq(|shop.listed|, c requires 0 <= c < |shop.listed| => DefOf(shop, shop.listed[c])))
  }

  /** The pricing campaigns covering a variant, in listed order, as the planner hands them over. */
  function OnVariant(shop: Shop, p: set<nat>, v: Variant, n: nat): (cs: seq<Resolver.Campaign>)
    requires ValidShop(shop) && n <= |shop.listed|
    ensures forall c :: c in cs ==> Resolver.ValidCampaign(c)
  {
    if n == 0 then []
    else
      var rest := OnVariant(shop, p, v, n - 1);
      if n - 1 in p && v in shop.listed[n - 1].scope then rest + [shop.listed[n - 1].campaign] else rest
  }

  /** The protocol's winner is the resolver's. */
  lemma {:induction false} SameWinner(shop: Shop, p: set<nat>, v: Variant, n: nat)
    requires ValidShop(shop) && n <= |shop.listed|
    ensures var winner, cs := Protocol.Winner(WorldOf(shop), p, v, n), OnVariant(shop, p, v, n);
            && (winner.None? <==> cs == [])
            && (winner.Some? ==> winner.value < |shop.listed|
                                 && cs[Best(Resolver.Ranks(cs))] == shop.listed[winner.value].campaign)
  {
    if n > 0 {
      SameWinner(shop, p, v, n - 1);
      var w, rest, last := WorldOf(shop), OnVariant(shop, p, v, n - 1), shop.listed[n - 1];
      assert w.defs[n - 1].rank == last.campaign.rank && w.defs[n - 1].scope == last.scope;
      if rest != [] {
        var best := Protocol.Winner(w, p, v, n - 1).value;
        assert w.defs[best].rank == shop.listed[best].campaign.rank;
        BestOfOneMore(rest, last.campaign);
      }
    }
  }

  lemma BestOfOneMore(rest: seq<Resolver.Campaign>, c: Resolver.Campaign)
    requires rest != []
    ensures var best := Best(Resolver.Ranks(rest));
            Best(Resolver.Ranks(rest + [c])) == if Compare(c.rank, rest[best].rank) > 0 then |rest| else best
  {
    var ranks := Resolver.Ranks(rest + [c]);
    assert ranks[..|ranks| - 1] == Resolver.Ranks(rest);
  }

  /**
   * What the protocol wants on the storefront for a variant, while the campaigns `p` are pricing,
   * is what the resolver makes of those covering it.
   */
  lemma TargetIsResolution(shop: Shop, p: set<nat>, v: Variant)
    requires ValidShop(shop) && v in shop.inputs
    ensures Protocol.Target(WorldOf(shop), p, v)
         == OfferOf(Resolver.Resolve(OnVariant(shop, p, v, |shop.listed|), shop.inputs[v]))
  {
    SameWinner(shop, p, v, |shop.listed|);
  }

  /** So every price the protocol ever aims for is positive, unless it is a baseline put back. */
  lemma TargetsArePositive(shop: Shop, p: set<nat>, v: Variant)
    requires ValidShop(shop) && v in shop.inputs && shop.inputs[v].baseline.price >= 0
    ensures var t := Protocol.Target(WorldOf(shop), p, v);
            t.Priced? ==> t.price >= 1 || t.price == shop.inputs[v].baseline.price
  {
    TargetIsResolution(shop, p, v);
    var cs := OnVariant(shop, p, v, |shop.listed|);
    if cs != [] {
      OfferIsPositive(cs[Best(Resolver.Ranks(cs))], shop.inputs[v]);
    }
  }

  lemma OfferIsPositive(c: Resolver.Campaign, i: Resolver.Input)
    requires Resolver.ValidCampaign(c) && Resolver.ValidInput(i) && i.baseline.price >= 0
    ensures var offer := OfferOf(Resolver.PriceUnder(c, i));
            offer.Priced? ==> offer.price >= 1 || offer.price == i.baseline.price
  {
    if Resolver.PriceUnder(c, i).Priced? {
      Resolver.PricedIsSafe(c, i);
    }
  }
}
