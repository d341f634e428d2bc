/**
 * The resolution script's story: campaigns over the same variants applied and ended one after the
 * other, price by price, with a client that may stop accepting writes part-way through any of them.
 */
module ResolutionRuns {
  import opened Ranking
  import opened Lifecycle
  import opened Ledger
  import opened Protocol
  import opened ProtocolFrame
  import opened ProtocolPromises
  import opened ProtocolTheorems
  import opened ScriptRuns

  /** Every variant with a baseline is on sale or not; a campaign's rule gives every one it covers a price. */
  predicate Priceable(w: World) {
    forall d :: d in w.defs ==> d.scope <= w.baseline.Keys && d.scope <= d.offer.Keys && forall v :: v in d.scope ==> d.offer[v].Priced?
  }

  lemma AlwaysPriced(w: World, p: set<nat>, v: Variant)
    requires Priceable(w) && v in w.baseline
    ensures Target(w, p, v).Priced?
  {
  }

  /** The prices of a storefront where exactly the campaigns `p` are on. */
  function Storewide(w: World, p: set<nat>): map<Variant, Price>
    requires Priceable(w)
  {
    map v | v in w.baseline :: (AlwaysPriced(w, p, v); Target(w, p, v).price)
  }

  /** One campaign started or ended. */
  datatype Turn = Turn(c: nat, kind: Kind)

  function OnAfter(p: set<nat>, turns: seq<Turn>): set<nat> {
    if turns == [] then p
    else With(OnAfter(p, turns[..|turns| - 1]), turns[|turns| - 1].c, turns[|turns| - 1].kind == Apply)
  }

  class Storefront {
    const w: World
    const order: seq<Variant>
    var live: map<Variant, Price>
    var on: set<nat>
    /** The prices the app believes are live; a run that could not write a variant leaves it unknown. */
    var mirror: map<Variant, Price>

    constructor (w: World, order: seq<Variant>)
      requires Priceable(w) && Members(order) == w.baseline.Keys
      ensures this.w == w && this.order == order && live == w.baseline && on == {}
      ensures Valid() && Outstanding() == {}
    {
      this.w := w;
      this.order := order;
      live, on, mirror := w.baseline, {}, w.baseline;
      new;
      forall v | v in w.baseline
        ensures Target(w, {}, v) == Priced(w.baseline[v], false)
      {
        NobodyWins(w, v, |w.defs|);
      }
    }

    /** Variants some run meant to write and could not: nobody knows what they show. */
    function Outstanding(): set<Variant>
      reads this
    {
      live.Keys - mirror.Keys
    }

    /** The mirror is never wrong. */
    predicate MirrorTrue()
      reads this
    {
      mirror.Keys <= live.Keys && forall v :: v in mirror ==> mirror[v] == live[v]
    }

    /** Whatever is not outstanding shows its one price. */
    ghost predicate Valid()
      reads this
    {
      && Priceable(w) && Members(order) == w.baseline.Keys == live.Keys && MirrorTrue()
      && forall v :: v in live && v !in Outstanding() ==> live[v] == Storewide(w, on)[v]
    }

    /** One price of a run: left alone when the mirror already shows it, otherwise sent. */
    method WriteOne(v: Variant, price: Price, client: Client)
      requires v in live
      modifies this`live, this`mirror, client
      ensures var idle := v in old(mirror) && old(mirror)[v] == price;
              var sent := !idle && old(client.writes) < client.limit;
              && live == (if sent then old(live)[v := price] else old(live))
              && mirror == (if idle then old(mirror)
                            else if sent then old(mirror)[v := price] else old(mirror) - {v})
              && client.writes == old(client.writes) + if sent then 1 else 0
    {
      if v !in mirror || mirror[v] != price {
        var ok := client.Request();
        if ok {
          live := live[v := price];
          mirror := mirror[v := price];
        } else {
          mirror := mirror - {v};
        }
      }
    }

    /**
     * One run of campaign `c`, starting or ending it: each variant it covers gets the price of
     * whoever wins it now. Variants outside it are not touched, and nothing is outstanding after a
     * run the client had room for but what was before, elsewhere.
     */
    method Run(c: nat, kind: Kind, client: Client)
      requires Valid() && c < |w.defs|
      modifies this, client
      ensures Valid() && on == With(old(on), c, kind == Apply)
      ensures forall v :: v in live && v !in w.defs[c].scope ==>
                live[v] == old(live)[v] && (v in Outstanding() <==> v in old(Outstanding()))
      ensures old(client.writes) + |order| <= client.limit ==> Outstanding() == old(Outstanding()) - w.defs[c].scope
      ensures client.writes <= old(client.writes) + |order|
    {
      on := With(on, c, kind == Apply);
      ElsewhereStays(w, old(on), c, kind == Apply);
      WriteAll(w.defs[c].scope, Storewide(w, on), client);
    }

    /** The run's loop: each variant of the scope, in order. */
    method WriteAll(scope: set<Variant>, goal: map<Variant, Price>, client: Client)
      requires Members(order) == live.Keys == goal.Keys && MirrorTrue()
      modifies this`live, this`mirror, client
      ensures live.Keys == old(live).Keys && MirrorTrue()
      ensures forall v :: v in live && v !in scope ==>
                live[v] == old(live)[v] && (v in mirror <==> v in old(mirror))
      ensures forall v :: v in mirror && v in scope ==> live[v] == goal[v]
      ensures old(client.writes) + |order| <= client.limit ==> Outstanding() == old(Outstanding()) - scope
      ensures client.writes <= old(client.writes) + |order|
    {
      for i := 0 to |order|
        invariant live.Keys == old(live).Keys && MirrorTrue()
        invariant client.writes <= old(client.writes) + i
        invariant forall v :: v in live && v !in scope ==>
                    live[v] == old(live)[v] && (v in mirror <==> v in old(mirror))
        invariant forall v :: v in order[..i] && v in scope && v in mirror ==> live[v] == goal[v]
        invariant old(client.writes) + |order| <= client.limit ==>
                    old(mirror).Keys <= mirror.Keys && forall v :: v in order[..i] && v in scope ==> v in mirror
      {
        var v := order[i];
        assert v in Members(order);
        assert order[..i + 1] == order[..i] + [v];
        if v in scope {
          WriteOne(v, goal[v], client);
        }
      }
      assert order[..|order|] == order;
      forall v | v in live
        ensures v in order
      {
        assert v in Members(order);
      }
    }

    /** One turn with nothing in the way. */
    method RunOne(t: Turn)
      requires Valid() && Outstanding() == {} && t.c < |w.defs|
      modifies this
      ensures Valid() && Outstanding() == {} && on == With(old(on), t.c, t.kind == Apply)
    {
      var client := new Client(|order|);
      Run(t.c, t.kind, client);
    }

    /** Any number of campaigns started and ended in any order, with nothing in the way. */
    method RunAll(turns: seq<Turn>)
      requires Valid() && Outstanding() == {} && forall t :: t in turns ==> t.c < |w.defs|
      modifies this
      ensures Valid() && Outstanding() == {} && on == OnAfter(old(on), turns) && live == Storewide(w, on)
    {
      for i := 0 to |turns|
        invariant Valid() && Outstanding() == {} && on == OnAfter(old(on), turns[..i])
      {
        assert turns[..i + 1][..i] == turns[..i];
        assert turns[i] in turns;
        RunOne(turns[i]);
      }
      assert turns[..|turns|] == turns;
      AllShown();
    }

    lemma AllShown()
      requires Valid() && Outstanding() == {}
      ensures live == Storewide(w, on)
    {
      assert forall v :: v in live ==> v !in Outstanding();
    }
  }

  /** Starting or ending a campaign moves no price outside it. */
  lemma ElsewhereStays(w: World, p: set<nat>, c: nat, member: bool)
    requires Priceable(w) && c < |w.defs|
    ensures forall v :: v in w.baseline && v !in w.defs[c].scope ==> Storewide(w, With(p, c, member))[v] == Storewide(w, p)[v]
  {
    forall v | v in w.baseline && v !in w.defs[c].scope
      ensures Storewide(w, With(p, c, member))[v] == Storewide(w, p)[v]
    {
      TargetFrame(w, With(p, c, member), p, v);
    }
  }

  /**
   * The resolution script, for any campaigns over any variants: start the quiet one, start the loud
   * one over it, end the loud one, end the quiet one. On a variant both cover the louder's own
   * price shows while both are on, never the two combined; ending it gives the quieter's, not the
   * baseline; ending both gives the baseline, everywhere.
   */
  method ResolutionScript(w: World, order: seq<Variant>, quiet: nat, loud: nat)
    returns (first: map<Variant, Price>, both: map<Variant, Price>, fallen: map<Variant, Price>, back: map<Variant, Price>)
    requires Priceable(w) && Members(order) == w.baseline.Keys && quiet < |w.defs| && loud < |w.defs| && quiet != loud
    requires w.defs[loud].rank != w.defs[quiet].rank && Yields(w.defs[quiet].rank, w.defs[loud].rank)
    ensures forall v :: v in w.defs[quiet].scope ==> v in first && first[v] == w.defs[quiet].offer[v].price
    ensures forall v :: v in w.defs[loud].scope ==> v in both && both[v] == w.defs[loud].offer[v].price
    ensures fallen == first && back == w.baseline
  {
    var s := new Storefront(w, order);
    s.RunAll([Turn(quiet, Apply)]);
    first := s.live;
    assert s.on == {quiet} by {
      assert [Turn(quiet, Apply)][..0] == [];
    }
    s.RunAll([Turn(loud, Apply)]);
    both := s.live;
    assert s.on == {quiet, loud} by {
      assert [Turn(loud, Apply)][..0] == [];
    }
    s.RunAll([Turn(loud, Revert)]);
    fallen := s.live;
    assert s.on == {quiet} by {
      assert [Turn(loud, Revert)][..0] == [];
    }
    s.RunAll([Turn(quiet, Revert)]);
    back := s.live;
    assert s.on == {} by {
      assert [Turn(quiet, Revert)][..0] == [];
    }
    ScriptPrices(w, quiet, loud);
  }

  lemma ScriptPrices(w: World, quiet: nat, loud: nat)
    requires Priceable(w) && quiet < |w.defs| && loud < |w.defs| && quiet != loud
    requires w.defs[loud].rank != w.defs[quiet].rank && Yields(w.defs[quiet].rank, w.defs[loud].rank)
    ensures forall v :: v in w.defs[quiet].scope ==> Storewide(w, {quiet})[v] == w.defs[quiet].offer[v].price
    ensures forall v :: v in w.defs[loud].scope ==> Storewide(w, {quiet, loud})[v] == w.defs[loud].offer[v].price
    ensures Storewide(w, {}) == w.baseline
  {
    ComparesKeyByKey(w.defs[loud].rank, w.defs[quiet].rank);
    CompareIsTotalOrder(w.defs[loud].rank, w.defs[quiet].rank, w.defs[loud].rank);
    forall v | v in w.defs[quiet].scope
      ensures Storewide(w, {quiet})[v] == w.defs[quiet].offer[v].price
    {
      WinnerTops(w, {quiet}, v, |w.defs|, quiet);
    }
    forall v | v in w.defs[loud].scope
      ensures Storewide(w, {quiet, loud})[v] == w.defs[loud].offer[v].price
    {
      WinnerTops(w, {quiet, loud}, v, |w.defs|, loud);
    }
    NobodyOn(w);
  }

  lemma NobodyOn(w: World)
    requires Priceable(w)
    ensures Storewide(w, {}) == w.baseline
  {
    forall v | v in w.baseline
      ensures Storewide(w, {})[v] == w.baseline[v]
    {
      NobodyWins(w, v, |w.defs|);
    }
  }

  /** Two ways of starting and ending campaigns that leave the same ones on leave the same storefront. */
  method AnyOrder(w: World, order: seq<Variant>, some: seq<Turn>, others: seq<Turn>)
    returns (a: map<Variant, Price>, b: map<Variant, Price>)
    requires Priceable(w) && Members(order) == w.baseline.Keys
    requires forall t :: t in some + others ==> t.c < |w.defs|
    ensures OnAfter({}, some) == OnAfter({}, others) ==> a == b
    ensures OnAfter({}, some) == {} ==> a == w.baseline
  {
    var s := new Storefront(w, order);
    var t := new Storefront(w, order);
    s.RunAll(some);
    t.RunAll(others);
    a, b := s.live, t.live;
    NobodyOn(w);
  }
}
