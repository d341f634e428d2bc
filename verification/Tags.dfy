/** Storefront tags: what a campaign adds to a product, claims, and takes off again. */
module Tags {
  import opened Wrappers

  type Camp = nat
  type RunId = nat
  type Product = nat

  /** A tag as the store compares it: trimmed and lower-cased. */
  type Tag = string

  const BLANKS: string :=
    "\t\n\U{000B}\U{000C}\r \U{00A0}\U{1680}\U{2000}\U{2001}\U{2002}\U{2003}\U{2004}\U{2005}\U{2006}"
    + "\U{2007}\U{2008}\U{2009}\U{200A}\U{2028}\U{2029}\U{202F}\U{205F}\U{3000}\U{FEFF}"

  /** What `trim` takes off: white space and line ends, Unicode's among them. */
  predicate Blank(c: char) {
    var n := c as int;
    9 <= n <= 13 || n == 32 || n == 0xA0 || n == 0x1680 || 0x2000 <= n <= 0x200A || n == 0x2028 || n == 0x2029
    || n == 0x202F || n == 0x205F || n == 0x3000 || n == 0xFEFF
  }

  lemma BlanksAre(c: char)
    ensures Blank(c) <==> c in BLANKS
  {
  }

  function TrimLeft(s: string): (r: string)
    ensures r == [] || !Blank(r[0])
    ensures |r| <= |s|
  {
    if s != [] && Blank(s[0]) then TrimLeft(s[1..]) else s
  }

  function TrimRight(s: string): (r: string)
    ensures r == [] || !Blank(r[|r| - 1])
    ensures |r| <= |s| && r == s[..|r|]
  {
    if s != [] && Blank(s[|s| - 1]) then TrimRight(s[..|s| - 1]) else s
  }

  function Lower(s: string): (r: string)
    ensures |r| == |s| && forall k :: 0 <= k < |s| ==> r[k] == if 'A' <= s[k] <= 'Z' then s[k] - 'A' + 'a' else s[k]
  {
    seq(|s|, k requires 0 <= k < |s| => if 'A' <= s[k] <= 'Z' then s[k] - 'A' + 'a' else s[k])
  }

  function Trim(s: string): string {
    TrimRight(TrimLeft(s))
  }

  predicate AllBlank(s: string) {
    forall c :: c in s ==> Blank(c)
  }

  /** `t` is what stands in `s` between blanks at its start and blanks at its end. */
  ghost predicate StandsIn(s: string, t: string) {
    exists before, after :: s == before + t + after && AllBlank(before) && AllBlank(after)
  }

  lemma {:induction false} TrimLeftIs(s: string) returns (before: string)
    ensures s == before + TrimLeft(s) && AllBlank(before)
  {
    before := "";
    if s != [] && Blank(s[0]) {
      var rest := TrimLeftIs(s[1..]);
      before := [s[0]] + rest;
    }
  }

  lemma {:induction false} TrimRightIs(s: string) returns (after: string)
    ensures s == TrimRight(s) + after && AllBlank(after)
  {
    after := "";
    if s != [] && Blank(s[|s| - 1]) {
      var rest := TrimRightIs(s[..|s| - 1]);
      after := rest + [s[|s| - 1]];
    }
  }

  /** Trimming takes off blanks at either end and nothing else, all of them, so nothing is left exactly of what is all blank. */
  lemma TrimIs(s: string)
    ensures StandsIn(s, Trim(s))
    ensures Trim(s) == "" || (!Blank(Trim(s)[0]) && !Blank(Trim(s)[|Trim(s)| - 1]))
    ensures Trim(s) == "" <==> AllBlank(s)
  {
    var before := TrimLeftIs(s);
    var after := TrimRightIs(TrimLeft(s));
    assert s == before + Trim(s) + after;
    if Trim(s) != "" {
      assert Trim(s)[0] == TrimLeft(s)[0];
      assert Trim(s)[0] in s;
    }
  }

  lemma TrimIsStable(s: string)
    ensures Trim(Trim(s)) == Trim(s)
  {
    var t := Trim(s);
    if t != [] {
      assert t[0] == TrimLeft(s)[0];
    }
  }

  function Normalise(s: string): Tag {
    Lower(Trim(s))
  }

  /** Normalising twice is normalising once. */
  lemma NormaliseIsStable(s: string)
    ensures Normalise(Normalise(s)) == Normalise(s)
  {
    var t := TrimRight(TrimLeft(s));
    var n := Lower(t);
    if t != [] {
      assert t[0] == TrimLeft(s)[0];
      assert !Blank(n[0]) && !Blank(n[|n| - 1]);
    }
    assert Lower(n) == n;
  }

  /** The tags a kit asks for: blanks dropped, each once. */
  function KitTags(kit: seq<string>): set<Tag> {
    set k | 0 <= k < |kit| && Normalise(kit[k]) != "" :: Normalise(kit[k])
  }

  lemma KitTagsAppend(kit: seq<string>, s: string)
    ensures KitTags(kit + [s]) == KitTags(kit) + if Normalise(s) == "" then {} else {Normalise(s)}
  {
    var all := kit + [s];
    forall t
      ensures t in KitTags(all) <==> t in KitTags(kit) || (t == Normalise(s) && t != "")
    {
      if t in KitTags(kit) {
        var k :| 0 <= k < |kit| && Normalise(kit[k]) == t;
        assert all[k] == kit[k];
      }
      if t == Normalise(s) && t != "" {
        assert all[|kit|] == s;
      }
    }
  }

  /** The same letter, in either case. */
  predicate SameLetter(a: char, b: char) {
    a == b || ('A' <= a <= 'Z' && b as int == a as int + 32) || ('A' <= b <= 'Z' && a as int == b as int + 32)
  }

  predicate SameSpelling(a: string, b: string) {
    |a| == |b| && forall k :: 0 <= k < |a| ==> SameLetter(a[k], b[k])
  }

  predicate SolidEnds(t: string) {
    t != "" && !Blank(t[0]) && !Blank(t[|t| - 1])
  }

  /** All of `s` but the blanks at its ends. */
  ghost predicate Trimmed(s: string, t: string) {
    StandsIn(s, t) && (t == "" || SolidEnds(t))
  }

  /** The same tag to the store: the same text between the blanks, in whatever case. */
  ghost predicate SameTag(a: string, b: string) {
    exists x, y :: Trimmed(a, x) && Trimmed(b, y) && SameSpelling(x, y)
  }

  lemma LowerIsSpelling(a: string, b: string)
    ensures Lower(a) == Lower(b) <==> SameSpelling(a, b)
  {
    var x, y := Lower(a), Lower(b);
    forall k | 0 <= k < |a| && |a| == |b|
      ensures x[k] == y[k] <==> SameLetter(a[k], b[k])
    {
      Letters(a[k], b[k]);
    }
    if x == y {
      assert forall k :: 0 <= k < |a| ==> x[k] == y[k];
    }
  }

  lemma Letters(a: char, b: char)
    ensures (if 'A' <= a <= 'Z' then a - 'A' + 'a' else a) == (if 'A' <= b <= 'Z' then b - 'A' + 'a' else b) <==> SameLetter(a, b)
  {
  }

  /** There is only one way to trim. */
  lemma TrimmedIsTrim(s: string, t: string)
    ensures Trimmed(s, t) <==> t == Trim(s)
  {
    TrimIs(s);
    if Trimmed(s, t) {
      var b, a :| s == b + t + a && AllBlank(b) && AllBlank(a);
      var b', a' :| s == b' + Trim(s) + a' && AllBlank(b') && AllBlank(a');
      OneWay(b, t, a, b', Trim(s), a');
    }
  }

  lemma OneWay(b: string, t: string, a: string, b': string, u: string, a': string)
    requires b + t + a == b' + u + a' && AllBlank(b) && AllBlank(a) && AllBlank(b') && AllBlank(a')
    requires (t == "" || SolidEnds(t)) && (u == "" || SolidEnds(u))
    ensures t == u
  {
    var s := b + t + a;
    assert t != "" ==> t[0] in s;
    assert u != "" ==> u[0] in b' + u + a';
    if t != "" && u != "" {
      NoFurtherIn(b, t, a, b', u, a');
      NoFurtherIn(b', u, a', b, t, a);
      assert t == s[|b|..|b| + |t|] && u == (b' + u + a')[|b'|..|b'| + |u|];
    }
  }

  /** A text with no blank at its ends lies outside the blanks at the ends of the whole. */
  lemma NoFurtherIn(b: string, t: string, a: string, b': string, u: string, a': string)
    requires b + t + a == b' + u + a' && AllBlank(b') && AllBlank(a') && SolidEnds(t)
    ensures |b| >= |b'| && |a| >= |a'|
  {
    var all := b + t + a;
    assert forall k :: 0 <= k < |b'| ==> all[k] == b'[k];
    assert forall k :: |all| - |a'| <= k < |all| ==> all[k] == a'[k - (|all| - |a'|)];
    assert all[|b|] == t[0] && all[|b| + |t| - 1] == t[|t| - 1];
  }

  /** Normalised tags are equal exactly when the store takes them for one. */
  lemma SameTagIs(a: string, b: string)
    ensures SameTag(a, b) <==> Normalise(a) == Normalise(b)
  {
    TrimmedIsTrim(a, Trim(a));
    TrimmedIsTrim(b, Trim(b));
    LowerIsSpelling(Trim(a), Trim(b));
    forall x, y | Trimmed(a, x) && Trimmed(b, y)
      ensures x == Trim(a) && y == Trim(b)
    {
      TrimmedIsTrim(a, x);
      TrimmedIsTrim(b, y);
    }
  }

  /** An entry of the kit that is not blank, and not the same tag as an earlier one. */
  ghost predicate Taken(kit: seq<string>, k: nat) {
    k < |kit| && !AllBlank(kit[k]) && forall j :: 0 <= j < k ==> !SameTag(kit[j], kit[k])
  }

  /** The tags are the entries taken among the first, in order and trimmed. */
  ghost predicate Spells(kit: seq<string>, i: nat, tags: seq<string>, from: seq<nat>) {
    && i <= |kit| && |from| == |tags|
    && (forall k: nat :: k in from <==> k < i && Taken(kit, k))
    && (forall x, y :: 0 <= x < y < |from| ==> from[x] < from[y])
    && (forall x :: 0 <= x < |from| ==> from[x] < i && Trimmed(kit[from[x]], tags[x]))
  }

  /** A tag has been seen exactly when an earlier entry is the same tag. */
  lemma SeenBefore(kit: seq<string>, i: nat)
    requires i < |kit| && Normalise(kit[i]) != ""
    ensures Normalise(kit[i]) in KitTags(kit[..i]) <==> exists j :: 0 <= j < i && SameTag(kit[j], kit[i])
  {
    forall j | 0 <= j < i
      ensures SameTag(kit[j], kit[i]) <==> Normalise(kit[..i][j]) == Normalise(kit[i])
    {
      SameTagIs(kit[j], kit[i]);
    }
  }

  /** Whether the walk takes the next entry. */
  lemma TakesNext(kit: seq<string>, i: nat)
    requires i < |kit|
    ensures Taken(kit, i) <==> Trim(kit[i]) != "" && Normalise(Trim(kit[i])) !in KitTags(kit[..i])
  {
    assert Normalise(Trim(kit[i])) == Normalise(kit[i]) by {
      TrimIsStable(kit[i]);
    }
    assert AllBlank(kit[i]) <==> Trim(kit[i]) == "" by {
      TrimIs(kit[i]);
    }
    if Trim(kit[i]) != "" {
      SeenBefore(kit, i);
    }
  }

  lemma SeenNext(kit: seq<string>, i: nat)
    requires i < |kit|
    ensures KitTags(kit[..i + 1]) == KitTags(kit[..i]) + if Trim(kit[i]) == "" then {} else {Normalise(Trim(kit[i]))}
  {
    TrimIsStable(kit[i]);
    assert kit[..i + 1] == kit[..i] + [kit[i]];
    KitTagsAppend(kit[..i], kit[i]);
  }

  lemma SpellsNext(kit: seq<string>, i: nat, tags: seq<string>, from: seq<nat>, tag: string)
    requires i < |kit| && Spells(kit, i, tags, from) && Trimmed(kit[i], tag)
    ensures Taken(kit, i) ==> Spells(kit, i + 1, tags + [tag], from + [i])
    ensures !Taken(kit, i) ==> Spells(kit, i + 1, tags, from)
  {
  }

  /** What taking the next entry, or passing it over, comes to. */
  lemma WalksOn(kit: seq<string>, i: nat, tags: seq<string>, from: seq<nat>)
    requires i < |kit| && Spells(kit, i, tags, from)
    ensures var tag, seen := Trim(kit[i]), KitTags(kit[..i]);
            if tag != "" && Normalise(tag) !in seen
            then Spells(kit, i + 1, tags + [tag], from + [i]) && KitTags(kit[..i + 1]) == seen + {Normalise(tag)}
            else Spells(kit, i + 1, tags, from) && KitTags(kit[..i + 1]) == seen
  {
    TakesNext(kit, i);
    SeenNext(kit, i);
    TrimmedIsTrim(kit[i], Trim(kit[i]));
    SpellsNext(kit, i, tags, from, Trim(kit[i]));
  }

  /** One walk over the kit, keeping the first spelling of each tag, trimmed. */
  method TagKitTags(kit: seq<string>) returns (tags: seq<string>, ghost from: seq<nat>)
    ensures Spells(kit, |kit|, tags, from)
  {
    tags, from := [], [];
    var seen: set<Tag> := {};
    for i := 0 to |kit|
      invariant Spells(kit, i, tags, from) && seen == KitTags(kit[..i])
    {
      var tag := Trim(kit[i]);
      WalksOn(kit, i, tags, from);
      if tag != "" && Normalise(tag) !in seen {
        seen := seen + {Normalise(tag)};
        tags, from := tags + [tag], from + [i];
      }
    }
    assert kit[..|kit|] == kit;
  }

  /** What the walk keeps: every entry that is not blank has its tag, and no two are the same tag. */
  lemma KitIsSpelled(kit: seq<string>, tags: seq<string>, from: seq<nat>)
    requires Spells(kit, |kit|, tags, from)
    ensures forall k :: 0 <= k < |kit| && !AllBlank(kit[k]) ==> exists x :: 0 <= x < |tags| && SameTag(tags[x], kit[k])
    ensures forall x, y :: 0 <= x < y < |tags| ==> !SameTag(tags[x], tags[y])
  {
    forall k | 0 <= k < |kit| && !AllBlank(kit[k])
      ensures exists x :: 0 <= x < |tags| && SameTag(tags[x], kit[k])
    {
      var x := Earliest(kit, tags, from, k);
    }
    forall x, y | 0 <= x < y < |tags|
      ensures !SameTag(tags[x], tags[y])
    {
      TakenApart(kit, tags, from, x, y);
    }
  }

  lemma TakenApart(kit: seq<string>, tags: seq<string>, from: seq<nat>, x: nat, y: nat)
    requires Spells(kit, |kit|, tags, from) && x < y < |tags|
    ensures !SameTag(tags[x], tags[y])
  {
    assert from[y] in from;
    SameAsItsEntry(kit[from[x]], tags[x]);
    SameAsItsEntry(kit[from[y]], tags[y]);
    SameTagIs(tags[x], tags[y]);
    SameTagIs(kit[from[x]], kit[from[y]]);
  }

  lemma SameAsItsEntry(entry: string, tag: string)
    requires Trimmed(entry, tag)
    ensures Normalise(tag) == Normalise(entry)
  {
    TrimmedIsTrim(entry, tag);
    TrimIsStable(entry);
  }

  /** An entry that is not blank has the tag of the earliest entry that is the same. */
  lemma Earliest(kit: seq<string>, tags: seq<string>, from: seq<nat>, k: nat) returns (x: nat)
    requires Spells(kit, |kit|, tags, from) && k < |kit| && !AllBlank(kit[k])
    ensures x < |tags| && SameTag(tags[x], kit[k])
    decreases k
  {
    if Taken(kit, k) {
      assert k in from;
      x :| x < |from| && from[x] == k;
      SameAsItsEntry(kit[k], tags[x]);
      SameTagIs(tags[x], kit[k]);
    } else {
      var j :| 0 <= j < k && SameTag(kit[j], kit[k]);
      SameTagIs(kit[j], kit[k]);
      TrimIs(kit[j]);
      TrimIs(kit[k]);
      x := Earliest(kit, tags, from, j);
      SameTagIs(tags[x], kit[j]);
      SameTagIs(tags[x], kit[k]);
    }
  }

  // ---------------------------------------------------------- one product

  datatype Status = TagSkipped | TagVerified | TagFailed | TagReverted

  /** One campaign run's record for a product: the tags it owns there. */
  datatype TagRow = TagRow(added: set<Tag>, status: Status)

  datatype OnProduct = OnProduct(tags: set<Tag>, rows: map<(Camp, RunId), TagRow>)

  predicate Claims(r: TagRow) {
    r.status == TagVerified
  }

  /** The tags a campaign's ledger says it added. */
  function Owned(p: OnProduct, c: Camp): set<Tag> {
    set k, t | k in p.rows && k.0 == c && Claims(p.rows[k]) && t in p.rows[k].added :: t
  }

  /** Tags other running campaigns own here, and those of one more that is ending. */
  function OwedByOthers(p: OnProduct, running: set<Camp>, c: Camp, also: Option<Camp>): set<Tag> {
    set k, t | k in p.rows && k.0 != c && (k.0 in running || also == Some(k.0)) && Claims(p.rows[k]) && t in p.rows[k].added :: t
  }

  datatype TagPlan = TagPlan(toAdd: set<Tag>, shared: set<Tag>, alreadyPresent: set<Tag>)

  /** A kit against what the product carries: new, claimed jointly, or the merchant's own. */
  function PlanTags(kit: set<Tag>, current: set<Tag>, claimed: set<Tag>): (plan: TagPlan)
    ensures kit == plan.toAdd + plan.shared + plan.alreadyPresent
    ensures plan.toAdd !! current && plan.shared + plan.alreadyPresent <= current
    ensures plan.shared <= claimed && plan.alreadyPresent !! claimed
  {
    TagPlan(kit - current, kit * current * claimed, kit * current - claimed)
  }

  /** How a request to add went. One that threw, or whose process died, may have landed first. */
  datatype AddResult = Added | AddThrew(landed: bool)

  datatype RemoveResult = Taken | RemoveThrew(landed: bool)

  /**
   * Tagging one product: planned against its live tags, written, read back and recorded. With
   * nothing to add no request is made; when the request fails the row owns nothing.
   */
  function Tried(p: OnProduct, running: set<Camp>, c: Camp, run: RunId, kit: set<Tag>, also: Option<Camp>,
                 result: AddResult): OnProduct {
    var plan := PlanTags(kit, p.tags, OwedByOthers(p, running, c, also) + Owned(p, c));
    var owned := plan.toAdd + plan.shared;
    if plan.toAdd == {} || result.Added? then
      OnProduct(p.tags + plan.toAdd, p.rows[(c, run) := TagRow(owned, if owned == {} then TagSkipped else TagVerified)])
    else
      OnProduct(if result.landed then p.tags + plan.toAdd else p.tags, p.rows[(c, run) := TagRow(owned, TagFailed)])
  }

  predicate HasRow(p: OnProduct, c: Camp) {
    exists k :: k in p.rows && k.0 == c && p.rows[k].status != TagReverted
  }

  /** A running campaign that takes the product over, with the run its row goes under. */
  datatype Takeover = Takeover(winner: Camp, run: RunId, kit: set<Tag>, result: AddResult)

  /** It is tagged there only if it has no row of its own left. */
  function TakenOver(p: OnProduct, running: set<Camp>, ending: Camp, t: Takeover): OnProduct {
    if HasRow(p, t.winner) then p else Tried(p, running, t.winner, t.run, t.kit, Some(ending), t.result)
  }

  /** Every campaign that takes the product over, one after the other. */
  function Handed(p: OnProduct, running: set<Camp>, ending: Camp, ts: seq<Takeover>): OnProduct {
    if ts == [] then p
    else TakenOver(Handed(p, running, ending, ts[..|ts| - 1]), running, ending, ts[|ts| - 1])
  }

  function ToRemove(p: OnProduct, running: set<Camp>, c: Camp): set<Tag> {
    Owned(p, c) - OwedByOthers(p, running, c, None)
  }

  /**
   * Takes off what the campaign's ledger says it added and nobody running still owes. With nothing to
   * take off its rows stay as they were, and so they do when the request fails, landed or not.
   */
  function Untagged(p: OnProduct, running: set<Camp>, c: Camp, result: RemoveResult): OnProduct {
    if ToRemove(p, running, c) == {} then p
    else if result.Taken? then
      OnProduct(p.tags - ToRemove(p, running, c),
                map k | k in p.rows :: if k.0 == c then p.rows[k].(status := TagReverted) else p.rows[k])
    else if result.landed then p.(tags := p.tags - ToRemove(p, running, c))
    else p
  }

  /** Ending a campaign over one product: whoever takes it over is tagged first, then its own tags come off. */
  function Ended(p: OnProduct, running: set<Camp>, c: Camp, ts: seq<Takeover>, result: RemoveResult): OnProduct {
    Untagged(Handed(p, running, c, ts), running, c, result)
  }

  // ------------------------------------------------------------ what is kept

  /** Owned by some running campaign. */
  ghost predicate OwedNow(p: OnProduct, running: set<Camp>, t: Tag) {
    exists c :: c in running && t in Owned(p, c)
  }

  /** The merchant's tags are on, and nobody claims one. */
  predicate Respects(p: OnProduct, merchant: set<Tag>) {
    merchant <= p.tags && forall k :: k in p.rows && Claims(p.rows[k]) ==> p.rows[k].added !! merchant
  }

  /** While a campaign is ending, its own tags are on the product though nobody running owes them. */
  ghost predicate KeptBut(p: OnProduct, running: set<Camp>, merchant: set<Tag>, leaving: set<Tag>) {
    && Respects(p, merchant)
    && (forall t :: t in p.tags <==> t in merchant || OwedNow(p, running, t) || t in leaving)
    && leaving !! merchant
  }

  /**
   * The merchant's tags are on and nobody's; everything else on the product is owned by a running
   * campaign, and everything a running campaign owns is on.
   */
  ghost predicate Kept(p: OnProduct, running: set<Camp>, merchant: set<Tag>) {
    KeptBut(p, running, merchant, {})
  }

  /** A new row under this key displaces no claim. */
  predicate Free(p: OnProduct, k: (Camp, RunId)) {
    k in p.rows ==> !Claims(p.rows[k])
  }

  lemma OwnedAfterRow(p: OnProduct, tags: set<Tag>, k: (Camp, RunId), row: TagRow, c: Camp, t: Tag)
    requires Free(p, k)
    ensures var p' := OnProduct(tags, p.rows[k := row]);
            t in Owned(p', c) <==> t in Owned(p, c) || (k.0 == c && Claims(row) && t in row.added)
  {
    var p' := OnProduct(tags, p.rows[k := row]);
    if k.0 == c && Claims(row) && t in row.added {
      assert k in p'.rows && p'.rows[k] == row;
    }
    if t in Owned(p, c) {
      var j :| j in p.rows && j.0 == c && Claims(p.rows[j]) && t in p.rows[j].added;
      assert j in p'.rows && p'.rows[j] == p.rows[j];
    }
  }

  /** A new row owes what it claims, for a running campaign, and nothing stops being owed. */
  lemma OwedAfterRow(p: OnProduct, tags: set<Tag>, k: (Camp, RunId), row: TagRow, running: set<Camp>, t: Tag)
    requires Free(p, k) && k.0 in running
    ensures var p' := OnProduct(tags, p.rows[k := row]);
            OwedNow(p', running, t) <==> OwedNow(p, running, t) || (Claims(row) && t in row.added)
  {
    var p' := OnProduct(tags, p.rows[k := row]);
    if OwedNow(p', running, t) {
      var d :| d in running && t in Owned(p', d);
      OwnedAfterRow(p, tags, k, row, d, t);
    }
    if OwedNow(p, running, t) {
      var d :| d in running && t in Owned(p, d);
      OwnedAfterRow(p, tags, k, row, d, t);
    }
    OwnedAfterRow(p, tags, k, row, k.0, t);
  }

  // --------------------------------------------------- the merchant's tags, always

  /** Whatever happens to the request, tagging claims none of the merchant's tags and takes none off. */
  lemma TriedRespects(p: OnProduct, running: set<Camp>, merchant: set<Tag>, c: Camp, run: RunId, kit: set<Tag>,
                      also: Option<Camp>, result: AddResult)
    requires Respects(p, merchant)
    ensures Respects(Tried(p, running, c, run, kit, also, result), merchant)
  {
    ClaimedAreNotTheMerchants(p, running, merchant, c, also);
  }

  /** No claim is on a tag the merchant had first. */
  lemma ClaimedAreNotTheMerchants(p: OnProduct, running: set<Camp>, merchant: set<Tag>, c: Camp, also: Option<Camp>)
    requires Respects(p, merchant)
    ensures (OwedByOthers(p, running, c, also) + Owned(p, c)) !! merchant
  {
  }

  lemma {:induction false} HandedRespects(p: OnProduct, running: set<Camp>, merchant: set<Tag>, c: Camp, ts: seq<Takeover>)
    requires Respects(p, merchant)
    ensures Respects(Handed(p, running, c, ts), merchant)
  {
    if ts != [] {
      var t := ts[|ts| - 1];
      HandedRespects(p, running, merchant, c, ts[..|ts| - 1]);
      TriedRespects(Handed(p, running, c, ts[..|ts| - 1]), running, merchant, t.winner, t.run, t.kit, Some(c), t.result);
    }
  }

  lemma UntaggedRespects(p: OnProduct, running: set<Camp>, merchant: set<Tag>, c: Camp, result: RemoveResult)
    requires Respects(p, merchant)
    ensures Respects(Untagged(p, running, c, result), merchant)
  {
    ClaimedAreNotTheMerchants(p, running, merchant, c, None);
  }

  // ------------------------------------------------------------------- tagging

  /** The add went through, never landed, or had nothing to add. */
  predicate AddOk(p: OnProduct, kit: set<Tag>, result: AddResult) {
    result.Added? || !result.landed || kit <= p.tags
  }

  /** Whose tags are leaving, and which. */
  predicate Leaving(p: OnProduct, running: set<Camp>, c: Camp, also: Option<Camp>, leaving: set<Tag>) {
    if also.None? then leaving == {} else also.value != c && also.value !in running && leaving == Owned(p, also.value)
  }

  /** A tag on the product that is not the merchant's is claimed by somebody asked about. */
  lemma CarriedIsClaimed(p: OnProduct, running: set<Camp>, merchant: set<Tag>, leaving: set<Tag>, c: Camp, also: Option<Camp>, t: Tag)
    requires KeptBut(p, running, merchant, leaving) && Leaving(p, running, c, also, leaving) && t !in merchant
    ensures t in p.tags ==> t in OwedByOthers(p, running, c, also) + Owned(p, c)
  {
    if t in p.tags {
      if OwedNow(p, running, t) {
        var d :| d in running && t in Owned(p, d);
        var k :| k in p.rows && k.0 == d && Claims(p.rows[k]) && t in p.rows[k].added;
      } else {
        var k :| k in p.rows && k.0 == also.value && Claims(p.rows[k]) && t in p.rows[k].added;
      }
    }
  }

  /**
   * Tagging that goes through puts the whole kit on, claims what is not the merchant's, and keeps
   * every promise, whether the campaign has just applied or is taking over from one that is ending.
   */
  lemma TriedKeeps(p: OnProduct, running: set<Camp>, merchant: set<Tag>, leaving: set<Tag>, c: Camp, run: RunId, kit: set<Tag>,
                   also: Option<Camp>, result: AddResult)
    requires KeptBut(p, running, merchant, leaving) && Leaving(p, running, c, also, leaving)
    requires c in running && Free(p, (c, run)) && (result.Added? || kit <= p.tags)
    ensures var p' := Tried(p, running, c, run, kit, also, result);
            KeptBut(p', running, merchant, leaving) && kit <= p'.tags && kit - merchant <= Owned(p', c)
    ensures Tried(p, running, c, run, kit, also, result).rows[(c, run)]
            == TagRow(kit - merchant, if kit <= merchant then TagSkipped else TagVerified)
  {
    var claimed := OwedByOthers(p, running, c, also) + Owned(p, c);
    var plan := PlanTags(kit, p.tags, claimed);
    var owned := plan.toAdd + plan.shared;
    var row := TagRow(owned, if owned == {} then TagSkipped else TagVerified);
    var p' := Tried(p, running, c, run, kit, also, result);
    TriedRespects(p, running, merchant, c, run, kit, also, result);
    forall t
      ensures OwedNow(p', running, t) <==> OwedNow(p, running, t) || t in owned
    {
      OwedAfterRow(p, p'.tags, (c, run), row, running, t);
    }
    forall t
      ensures t in p'.tags <==> t in merchant || OwedNow(p', running, t) || t in leaving
    {
      ClaimedIsOn(p, running, merchant, leaving, c, also, t);
    }
    assert owned == kit - merchant by {
      ClaimedAreNotTheMerchants(p, running, merchant, c, also);
      forall t | t in kit - merchant
        ensures t in owned
      {
        CarriedIsClaimed(p, running, merchant, leaving, c, also, t);
      }
    }
    assert owned == {} ==> kit <= merchant;
    forall t | t in kit - merchant
      ensures t in Owned(p', c)
    {
      OwnedAfterRow(p, p'.tags, (c, run), row, c, t);
    }
  }

  /** What others are asked to account for is owed by somebody running, or by the campaign that is ending. */
  lemma ClaimsAreOwed(p: OnProduct, running: set<Camp>, c: Camp, also: Option<Camp>, t: Tag)
    requires c in running
    ensures t in OwedByOthers(p, running, c, also) + Owned(p, c)
            ==> OwedNow(p, running, t) || (also.Some? && t in Owned(p, also.value))
  {
    if t in OwedByOthers(p, running, c, also) {
      var k :| k in p.rows && k.0 != c && (k.0 in running || also == Some(k.0)) && Claims(p.rows[k]) && t in p.rows[k].added;
      assert t in Owned(p, k.0);
    }
  }

  lemma ClaimedIsOn(p: OnProduct, running: set<Camp>, merchant: set<Tag>, leaving: set<Tag>, c: Camp, also: Option<Camp>, t: Tag)
    requires KeptBut(p, running, merchant, leaving) && c in running && Leaving(p, running, c, also, leaving)
    ensures t in OwedByOthers(p, running, c, also) + Owned(p, c) ==> t in p.tags
  {
    ClaimsAreOwed(p, running, c, also, t);
  }

  /** A tag on the product that is neither the merchant's, nor owed, nor about to come off. */
  ghost predicate Stranded(p: OnProduct, running: set<Camp>, merchant: set<Tag>, leaving: set<Tag>, t: Tag) {
    t in p.tags && t !in merchant && !OwedNow(p, running, t) && t !in leaving
  }

  ghost predicate SomeStranded(p: OnProduct, running: set<Camp>, merchant: set<Tag>, leaving: set<Tag>) {
    exists t :: Stranded(p, running, merchant, leaving, t)
  }

  /** A failed add that never landed changes no tag and no claim; one that landed strands what it added. */
  lemma FailedAdd(p: OnProduct, running: set<Camp>, merchant: set<Tag>, leaving: set<Tag>, c: Camp, run: RunId, kit: set<Tag>,
                  also: Option<Camp>, result: AddResult)
    requires KeptBut(p, running, merchant, leaving) && c in running && Free(p, (c, run))
    requires result.AddThrew? && !(kit <= p.tags)
    ensures var p' := Tried(p, running, c, run, kit, also, result);
            && (!result.landed ==> KeptBut(p', running, merchant, leaving))
            && (result.landed ==> forall t :: t in kit - p.tags ==> Stranded(p', running, merchant, leaving, t))
            && (forall d :: Owned(p', d) == Owned(p, d))
  {
    var p' := Tried(p, running, c, run, kit, also, result);
    assert kit - p.tags != {};
    TriedRespects(p, running, merchant, c, run, kit, also, result);
    forall t
      ensures OwedNow(p', running, t) <==> OwedNow(p, running, t)
    {
      OwedAfterRow(p, p'.tags, (c, run), p'.rows[(c, run)], running, t);
    }
    forall d, t
      ensures t in Owned(p', d) <==> t in Owned(p, d)
    {
      OwnedAfterRow(p, p'.tags, (c, run), p'.rows[(c, run)], d, t);
    }
    forall d
      ensures Owned(p', d) == Owned(p, d)
    {
    }
  }

  /** So tagging keeps every promise exactly when the add went through, never landed, or had nothing to add. */
  lemma TriedExactly(p: OnProduct, running: set<Camp>, merchant: set<Tag>, leaving: set<Tag>, c: Camp, run: RunId, kit: set<Tag>,
                     also: Option<Camp>, result: AddResult)
    requires KeptBut(p, running, merchant, leaving) && Leaving(p, running, c, also, leaving) && c in running && Free(p, (c, run))
    ensures KeptBut(Tried(p, running, c, run, kit, also, result), running, merchant, leaving) <==> AddOk(p, kit, result)
  {
    if result.Added? || kit <= p.tags {
      TriedKeeps(p, running, merchant, leaving, c, run, kit, also, result);
    } else {
      FailedAdd(p, running, merchant, leaving, c, run, kit, also, result);
      if result.landed {
        var t :| t in kit - p.tags;
        assert Stranded(Tried(p, running, c, run, kit, also, result), running, merchant, leaving, t);
      }
    }
  }

  // ---------------------------------------------------------------- taking over

  lemma NoRowIsFree(p: OnProduct, c: Camp, run: RunId)
    requires !HasRow(p, c)
    ensures Free(p, (c, run))
  {
  }

  /** What ending leaves to the campaign that ends: takeovers do not touch it. */
  lemma {:induction false} HandedOwnsElse(p: OnProduct, running: set<Camp>, c: Camp, ts: seq<Takeover>, d: Camp)
    requires forall t :: t in ts ==> t.winner != c
    ensures Owned(Handed(p, running, c, ts), c) == Owned(p, c)
    ensures Owned(p, d) <= Owned(Handed(p, running, c, ts), d)
  {
    if ts != [] {
      var t, before := ts[|ts| - 1], Handed(p, running, c, ts[..|ts| - 1]);
      HandedOwnsElse(p, running, c, ts[..|ts| - 1], d);
      if !HasRow(before, t.winner) {
        NoRowIsFree(before, t.winner, t.run);
        var after := Handed(p, running, c, ts);
        forall tag
          ensures t in ts && (tag in Owned(after, c) <==> tag in Owned(before, c)) && (tag in Owned(before, d) ==> tag in Owned(after, d))
        {
          OwnedAfterRow(before, after.tags, (t.winner, t.run), after.rows[(t.winner, t.run)], c, tag);
          OwnedAfterRow(before, after.tags, (t.winner, t.run), after.rows[(t.winner, t.run)], d, tag);
        }
      }
    }
  }

  /** Each takeover, at its turn, is blocked by a row of the winner's own or its add is in order. */
  predicate HandedOk(p: OnProduct, running: set<Camp>, c: Camp, ts: seq<Takeover>) {
    ts == [] ||
    (HandedOk(p, running, c, ts[..|ts| - 1]) &&
     var t, before := ts[|ts| - 1], Handed(p, running, c, ts[..|ts| - 1]);
     HasRow(before, t.winner) || AddOk(before, t.kit, t.result))
  }

  predicate Winners(ts: seq<Takeover>, running: set<Camp>, c: Camp) {
    c !in running && forall t :: t in ts ==> t.winner in running
  }

  lemma {:induction false} HandedExactly(p: OnProduct, running: set<Camp>, merchant: set<Tag>, c: Camp, ts: seq<Takeover>)
    requires KeptBut(p, running, merchant, Owned(p, c)) && Winners(ts, running, c)
    ensures HandedOk(p, running, c, ts) ==> KeptBut(Handed(p, running, c, ts), running, merchant, Owned(p, c))
    ensures !HandedOk(p, running, c, ts) ==> SomeStranded(Handed(p, running, c, ts), running, merchant, Owned(p, c))
  {
    if ts != [] {
      var t, front := ts[|ts| - 1], ts[..|ts| - 1];
      var before := Handed(p, running, c, front);
      assert forall x :: x in front ==> x in ts;
      assert t in ts;
      HandedExactly(p, running, merchant, c, front);
      HandedOwnsElse(p, running, c, front, c);
      if !HasRow(before, t.winner) {
        NoRowIsFree(before, t.winner, t.run);
        if HandedOk(p, running, c, front) {
          OneTakeover(before, running, merchant, Owned(p, c), c, t);
        } else {
          var tag :| Stranded(before, running, merchant, Owned(p, c), tag);
          StrandedStays(before, running, merchant, Owned(p, c), c, t, tag);
          assert Stranded(Handed(p, running, c, ts), running, merchant, Owned(p, c), tag);
        }
      }
    }
  }

  lemma OneTakeover(p: OnProduct, running: set<Camp>, merchant: set<Tag>, leaving: set<Tag>, c: Camp, t: Takeover)
    requires KeptBut(p, running, merchant, leaving) && leaving == Owned(p, c) && c !in running && t.winner in running
    requires !HasRow(p, t.winner) && Free(p, (t.winner, t.run))
    ensures AddOk(p, t.kit, t.result) ==> KeptBut(TakenOver(p, running, c, t), running, merchant, leaving)
    ensures !AddOk(p, t.kit, t.result) ==> SomeStranded(TakenOver(p, running, c, t), running, merchant, leaving)
  {
    TriedExactly(p, running, merchant, leaving, t.winner, t.run, t.kit, Some(c), t.result);
    if !AddOk(p, t.kit, t.result) {
      FailedAdd(p, running, merchant, leaving, t.winner, t.run, t.kit, Some(c), t.result);
      var tag :| tag in t.kit - p.tags;
      assert Stranded(TakenOver(p, running, c, t), running, merchant, leaving, tag);
    }
  }

  /** A stranded tag is on the product, so a later kit takes it for the merchant's and leaves it stranded. */
  lemma StrandedStays(p: OnProduct, running: set<Camp>, merchant: set<Tag>, leaving: set<Tag>, c: Camp, t: Takeover, tag: Tag)
    requires Stranded(p, running, merchant, leaving, tag) && leaving == Owned(p, c) && t.winner in running
    requires !HasRow(p, t.winner) && Free(p, (t.winner, t.run))
    ensures Stranded(TakenOver(p, running, c, t), running, merchant, leaving, tag)
  {
    var p' := TakenOver(p, running, c, t);
    OwedAfterRow(p, p'.tags, (t.winner, t.run), p'.rows[(t.winner, t.run)], running, tag);
    ClaimsAreOwed(p, running, t.winner, Some(c), tag);
  }

  // ------------------------------------------------------------------ untagging

  /** The removal went through, landed, or had nothing to take off. */
  predicate RemoveOk(p: OnProduct, running: set<Camp>, c: Camp, result: RemoveResult) {
    result.Taken? || result.landed || Owned(p, c) <= OwedByOthers(p, running, c, None)
  }

  /** What removal leaves to others. */
  lemma OwnedAfterRemoval(p: OnProduct, running: set<Camp>, c: Camp, result: RemoveResult, d: Camp)
    requires d != c
    ensures Owned(Untagged(p, running, c, result), d) == Owned(p, d)
  {
    var p' := Untagged(p, running, c, result);
    forall t
      ensures t in Owned(p', d) <==> t in Owned(p, d)
    {
      if t in Owned(p, d) {
        var k :| k in p.rows && k.0 == d && Claims(p.rows[k]) && t in p.rows[k].added;
        assert k in p'.rows && p'.rows[k] == p.rows[k];
      }
      if t in Owned(p', d) {
        var k :| k in p'.rows && k.0 == d && Claims(p'.rows[k]) && t in p'.rows[k].added;
        assert p'.rows[k] == p.rows[k];
      }
    }
  }

  lemma OwedAfterRemoval(p: OnProduct, running: set<Camp>, c: Camp, result: RemoveResult, t: Tag)
    requires c !in running
    ensures OwedNow(Untagged(p, running, c, result), running, t) <==> OwedNow(p, running, t)
    ensures t in OwedByOthers(p, running, c, None) <==> OwedNow(p, running, t)
  {
    var p' := Untagged(p, running, c, result);
    if OwedNow(p, running, t) {
      var d :| d in running && t in Owned(p, d);
      OwnedAfterRemoval(p, running, c, result, d);
      var k :| k in p.rows && k.0 == d && Claims(p.rows[k]) && t in p.rows[k].added;
    }
    if OwedNow(p', running, t) {
      var d :| d in running && t in Owned(p', d);
      OwnedAfterRemoval(p, running, c, result, d);
    }
    if t in OwedByOthers(p, running, c, None) {
      var k :| k in p.rows && k.0 != c && k.0 in running && Claims(p.rows[k]) && t in p.rows[k].added;
      assert t in Owned(p, k.0);
    }
  }

  /**
   * Removal takes off exactly what the campaign added and nobody running owes, and so keeps every
   * promise exactly when the request went through, landed, or was not needed.
   */
  lemma UntaggedExactly(p: OnProduct, running: set<Camp>, merchant: set<Tag>, c: Camp, result: RemoveResult)
    requires KeptBut(p, running, merchant, Owned(p, c)) && c !in running
    ensures Kept(Untagged(p, running, c, result), running, merchant) <==> RemoveOk(p, running, c, result)
  {
    var p' := Untagged(p, running, c, result);
    UntaggedRespects(p, running, merchant, c, result);
    forall t
      ensures OwedNow(p', running, t) <==> OwedNow(p, running, t)
      ensures t in OwedByOthers(p, running, c, None) <==> OwedNow(p, running, t)
    {
      OwedAfterRemoval(p, running, c, result, t);
    }
    if !RemoveOk(p, running, c, result) {
      var t :| t in Owned(p, c) && t !in OwedByOthers(p, running, c, None);
      assert t in p'.tags && t !in merchant && !OwedNow(p', running, t);
    } else if Owned(p, c) <= OwedByOthers(p, running, c, None) {
      assert ToRemove(p, running, c) == {};
    }
  }

  /**
   * A removal that goes through, of tags there are to take off, leaves the campaign no row of its own, so it can take
   * the product over again; any other leaves every row as it was. No other campaign's row is touched either way.
   */
  lemma RemovalClosesRows(p: OnProduct, running: set<Camp>, c: Camp, result: RemoveResult)
    ensures var p', owes := Untagged(p, running, c, result), exists t :: t in Owned(p, c) && t !in OwedByOthers(p, running, c, None);
            && p'.rows.Keys == p.rows.Keys
            && (forall k :: k in p.rows && k.0 != c ==> p'.rows[k] == p.rows[k])
            && (owes && result.Taken? ==> !HasRow(p', c) && forall k :: k in p.rows ==> p'.rows[k].added == p.rows[k].added)
            && (!(owes && result.Taken?) ==> p'.rows == p.rows)
  {
    if ToRemove(p, running, c) != {} {
      var t :| t in ToRemove(p, running, c);
      assert t in Owned(p, c) && t !in OwedByOthers(p, running, c, None);
    } else {
      forall t | t in Owned(p, c)
        ensures t in OwedByOthers(p, running, c, None)
      {
        assert t !in ToRemove(p, running, c);
      }
    }
  }

  /** A tag stranded before a removal is stranded after it. */
  lemma StrandedOutlives(p: OnProduct, running: set<Camp>, merchant: set<Tag>, c: Camp, result: RemoveResult, t: Tag)
    requires c !in running && Stranded(p, running, merchant, Owned(p, c), t)
    ensures !Kept(Untagged(p, running, c, result), running, merchant)
  {
    OwedAfterRemoval(p, running, c, result, t);
    assert t in Untagged(p, running, c, result).tags;
  }

  // --------------------------------------------------------------------- ending

  /**
   * Ending a campaign keeps every promise about a product, exactly when no takeover's failed add
   * landed and the removal was not refused something to take off: each tag is on afterwards exactly
   * when the merchant had it first or a still-running campaign owes it.
   */
  lemma EndedExactly(p: OnProduct, running: set<Camp>, merchant: set<Tag>, c: Camp, ts: seq<Takeover>, result: RemoveResult)
    requires Kept(p, running, merchant) && c in running && Winners(ts, running - {c}, c)
    ensures Kept(Ended(p, running - {c}, c, ts, result), running - {c}, merchant)
            <==> HandedOk(p, running - {c}, c, ts) && RemoveOk(Handed(p, running - {c}, c, ts), running - {c}, c, result)
  {
    var left := running - {c};
    var handed := Handed(p, left, c, ts);
    LeavesItsTags(p, running, merchant, c);
    assert forall t :: t in ts ==> t.winner != c;
    HandedOwnsElse(p, left, c, ts, c);
    HandedExactly(p, left, merchant, c, ts);
    if HandedOk(p, left, c, ts) {
      UntaggedExactly(handed, left, merchant, c, result);
    } else {
      var t :| Stranded(handed, left, merchant, Owned(p, c), t);
      StrandedOutlives(handed, left, merchant, c, result, t);
    }
  }

  lemma LeavesItsTags(p: OnProduct, running: set<Camp>, merchant: set<Tag>, c: Camp)
    requires Kept(p, running, merchant) && c in running
    ensures KeptBut(p, running - {c}, merchant, Owned(p, c))
  {
    forall t
      ensures t in p.tags <==> t in merchant || OwedNow(p, running - {c}, t) || t in Owned(p, c)
    {
      if OwedNow(p, running, t) {
        var d :| d in running && t in Owned(p, d);
        assert d in running - {c} || t in Owned(p, c);
      }
    }
    ClaimedAreNotTheMerchants(p, running, merchant, c, None);
  }

  /** A campaign that takes the product over with no row of its own there, its add going through, carries its kit. */
  lemma TakeoverCarries(p: OnProduct, running: set<Camp>, merchant: set<Tag>, c: Camp, ts: seq<Takeover>, i: nat)
    requires KeptBut(p, running, merchant, Owned(p, c)) && Winners(ts, running, c) && HandedOk(p, running, c, ts)
    requires i < |ts| && !HasRow(Handed(p, running, c, ts[..i]), ts[i].winner)
    requires ts[i].result.Added? || ts[i].kit <= Handed(p, running, c, ts[..i]).tags
    ensures ts[i].kit - merchant <= Owned(Handed(p, running, c, ts), ts[i].winner)
    decreases |ts|
  {
    var t, front := ts[i], ts[..|ts| - 1];
    assert forall x :: x in front ==> x in ts;
    if i == |ts| - 1 {
      var before := Handed(p, running, c, front);
      HandedExactly(p, running, merchant, c, front);
      HandedOwnsElse(p, running, c, front, c);
      NoRowIsFree(before, t.winner, t.run);
      assert t in ts;
      TriedKeeps(before, running, merchant, Owned(p, c), t.winner, t.run, t.kit, Some(c), t.result);
    } else {
      assert front[..i] == ts[..i];
      TakeoverCarries(p, running, merchant, c, front, i);
      var after := Handed(p, running, c, front);
      HandedOwnsElse(after, running, c, [ts[|ts| - 1]], t.winner);
      assert [ts[|ts| - 1]][..0] == [];
      assert Handed(after, running, c, [ts[|ts| - 1]]) == Handed(p, running, c, ts);
    }
  }
}
