/**
 * The synchronous write path: rows grouped by product, split at Shopify's input cap, sent request
 * by request, then read back. What the store does with each request is whatever it does.
 */
module Executor {
  import opened Wrappers
  import opened Ledger

  type Product = nat

  datatype PlannedRow = PlannedRow(variant: Variant, product: Product, price: Price)

  const INPUT_ARRAY_MAX: nat := 250

  // -------------------------------------------------------------- requests

  function Flatten<T>(parts: seq<seq<T>>): seq<T> {
    if parts == [] then [] else parts[0] + Flatten(parts[1..])
  }

  lemma {:induction false} FlattenAppend<T>(parts: seq<seq<T>>, last: seq<T>)
    ensures Flatten(parts + [last]) == Flatten(parts) + last
  {
    if parts == [] {
      assert parts + [last] == [last] && [last][1..] == [];
      assert Flatten([last]) == last + [];
    } else {
      assert (parts + [last])[1..] == parts[1..] + [last];
      FlattenAppend(parts[1..], last);
      assert Flatten(parts + [last]) == parts[0] + (Flatten(parts[1..]) + last);
    }
  }

  lemma FlattenNext<T>(parts: seq<seq<T>>, k: nat)
    requires k < |parts|
    ensures Flatten(parts[..k + 1]) == Flatten(parts[..k]) + parts[k]
  {
    assert parts[..k + 1] == parts[..k] + [parts[k]];
    FlattenAppend(parts[..k], parts[k]);
  }

  /** A list in pieces of at most `size`, in order, none empty. */
  method Chunk<T>(items: seq<T>, size: nat) returns (parts: seq<seq<T>>)
    requires size > 0
    ensures Flatten(parts) == items
    ensures forall k :: 0 <= k < |parts| ==> 1 <= |parts[k]| <= size
  {
    parts := [];
    var i := 0;
    while i < |items|
      invariant 0 <= i <= |items|
      invariant Flatten(parts) == items[..i]
      invariant forall k :: 0 <= k < |parts| ==> 1 <= |parts[k]| <= size
    {
      var end := if i + size <= |items| then i + size else |items|;
      FlattenAppend(parts, items[i..end]);
      assert items[..end] == items[..i] + items[i..end];
      parts := parts + [items[i..end]];
      i := end;
    }
    assert items[..|items|] == items;
  }

  /** The rows of one product, in plan order. */
  function OfProduct(rows: seq<PlannedRow>, p: Product): (r: seq<PlannedRow>)
    ensures forall row :: row in r <==> row in rows && row.product == p
  {
    if rows == [] then []
    else
      var last := |rows| - 1;
      var rest := OfProduct(rows[..last], p);
      assert rows == rows[..last] + [rows[last]];
      if rows[last].product == p then rest + [rows[last]] else rest
  }

  lemma {:induction false} NoneOf(rows: seq<PlannedRow>, p: Product)
    requires forall row :: row in rows ==> row.product != p
    ensures OfProduct(rows, p) == []
  {
    if rows != [] {
      assert rows[|rows| - 1] in rows;
      NoneOf(rows[..|rows| - 1], p);
    }
  }

  /** No variant twice. */
  predicate DistinctVariants(rows: seq<PlannedRow>) {
    forall i, j :: 0 <= i < j < |rows| ==> rows[i].variant != rows[j].variant
  }

  lemma {:induction false} OfProductDistinct(rows: seq<PlannedRow>, p: Product)
    requires DistinctVariants(rows)
    ensures DistinctVariants(OfProduct(rows, p))
  {
    if rows != [] {
      var last := |rows| - 1;
      OfProductDistinct(rows[..last], p);
      var rest := OfProduct(rows[..last], p);
      forall k | 0 <= k < |rest|
        ensures rest[k].variant != rows[last].variant
      {
        assert rest[k] in rows[..last];
      }
    }
  }

  /** Rows of different products, from a list with no variant twice, share no variant. */
  lemma DistinctAcross(rows: seq<PlannedRow>, a: seq<PlannedRow>, b: seq<PlannedRow>)
    requires DistinctVariants(rows) && DistinctVariants(a) && DistinctVariants(b)
    requires forall x :: x in a ==> x in rows
    requires forall y :: y in b ==> y in rows
    requires forall x, y :: x in a && y in b ==> x.product != y.product
    ensures DistinctVariants(a + b)
  {
    forall i, j | 0 <= i < |a| && 0 <= j < |b|
      ensures a[i].variant != b[j].variant
    {
      assert a[i] in rows && b[j] in rows && a[i] != b[j];
    }
  }

  /** Every product of the rows has its group, and nothing else does. */
  predicate Grouped(rows: seq<PlannedRow>, groups: map<Product, seq<PlannedRow>>) {
    && (forall p :: p in groups ==> groups[p] == OfProduct(rows, p) != [])
    && (forall row :: row in rows ==> row.product in groups)
  }

  lemma OneMoreRow(rows: seq<PlannedRow>, row: PlannedRow, p: Product)
    ensures OfProduct(rows + [row], p) == OfProduct(rows, p) + if row.product == p then [row] else []
  {
    assert (rows + [row])[..|rows|] == rows;
  }

  /** One more row goes to the group of its product, a new one if it has none. */
  lemma GroupsGrow(rows: seq<PlannedRow>, groups: map<Product, seq<PlannedRow>>, row: PlannedRow)
    requires Grouped(rows, groups)
    ensures Grouped(rows + [row], groups[row.product := (if row.product in groups then groups[row.product] else []) + [row]])
  {
    var groups' := groups[row.product := (if row.product in groups then groups[row.product] else []) + [row]];
    forall p | p in groups'
      ensures groups'[p] == OfProduct(rows + [row], p) != []
    {
      OneMoreRow(rows, row, p);
      if p !in groups {
        NoneOf(rows, p);
      }
    }
  }

  /** Where a product's first row is; past the end when it has none. */
  function FirstOf(rows: seq<PlannedRow>, p: Product): (k: nat)
    ensures k <= |rows| && (k < |rows| ==> rows[k].product == p)
    ensures forall j :: 0 <= j < k ==> rows[j].product != p
  {
    if rows == [] || rows[0].product == p then 0 else 1 + FirstOf(rows[1..], p)
  }

  /** In the order their first rows came. */
  predicate InTurn(rows: seq<PlannedRow>, products: seq<Product>) {
    forall i, j :: 0 <= i < j < |products| ==> FirstOf(rows, products[i]) < FirstOf(rows, products[j])
  }

  /** The products of the first rows, in their order. */
  ghost predicate Listed(rows: seq<PlannedRow>, products: seq<Product>, i: nat) {
    InTurn(rows, products) && forall p :: p in products <==> FirstOf(rows, p) < i
  }

  lemma ListsMore(rows: seq<PlannedRow>, products: seq<Product>, i: nat)
    requires i < |rows| && Listed(rows, products, i)
    ensures Listed(rows, if rows[i].product in products then products else products + [rows[i].product], i + 1)
  {
    var p := rows[i].product;
    assert p !in products ==> FirstOf(rows, p) == i;
    forall q
      ensures q in products || q == p <==> FirstOf(rows, q) < i + 1
    {
    }
  }

  lemma InTurnIsDistinct(rows: seq<PlannedRow>, products: seq<Product>)
    requires InTurn(rows, products)
    ensures forall i, j :: 0 <= i < j < |products| ==> products[i] != products[j]
  {
    forall i, j | 0 <= i < j < |products|
      ensures products[i] != products[j]
    {
      assert FirstOf(rows, products[i]) < FirstOf(rows, products[j]);
    }
  }

  lemma GroupsAreProducts(rows: seq<PlannedRow>, groups: map<Product, seq<PlannedRow>>)
    requires Grouped(rows, groups)
    ensures forall p :: p in groups <==> exists row :: row in rows && row.product == p
  {
    forall p | p in groups
      ensures exists row :: row in rows && row.product == p
    {
      assert OfProduct(rows, p)[0] in OfProduct(rows, p);
    }
  }

  /** The first rows grouped, and their products listed. */
  ghost predicate GroupedInTurn(rows: seq<PlannedRow>, i: nat, products: seq<Product>, groups: map<Product, seq<PlannedRow>>) {
    i <= |rows| && Listed(rows, products, i) && Grouped(rows[..i], groups) && SameProducts(products, groups)
  }

  ghost predicate SameProducts(products: seq<Product>, groups: map<Product, seq<PlannedRow>>) {
    forall p :: p in products <==> p in groups
  }

  lemma GroupsNext(rows: seq<PlannedRow>, i: nat, products: seq<Product>, groups: map<Product, seq<PlannedRow>>)
    requires i < |rows| && GroupedInTurn(rows, i, products, groups)
    ensures var row := rows[i];
            if row.product in groups then GroupedInTurn(rows, i + 1, products, groups[row.product := groups[row.product] + [row]])
            else GroupedInTurn(rows, i + 1, products + [row.product], groups[row.product := [row]])
  {
    var row := rows[i];
    var group := if row.product in groups then groups[row.product] + [row] else [row];
    assert Grouped(rows[..i + 1], groups[row.product := group]) by {
      assert rows[..i + 1] == rows[..i] + [row] && [] + [row] == [row];
      GroupsGrow(rows[..i], groups, row);
    }
    SameNext(products, groups, row);
    assert Listed(rows, if row.product in products then products else products + [row.product], i + 1) by {
      ListsMore(rows, products, i);
    }
  }

  lemma SameNext(products: seq<Product>, groups: map<Product, seq<PlannedRow>>, row: PlannedRow)
    requires SameProducts(products, groups)
    ensures row.product in products <==> row.product in groups
    ensures row.product in groups ==> SameProducts(products, groups[row.product := groups[row.product] + [row]])
    ensures row.product !in groups ==> SameProducts(products + [row.product], groups[row.product := [row]])
  {
  }

  lemma AllGrouped(rows: seq<PlannedRow>, products: seq<Product>, groups: map<Product, seq<PlannedRow>>)
    requires GroupedInTurn(rows, |rows|, products, groups)
    ensures forall i, j :: 0 <= i < j < |products| ==> products[i] != products[j]
    ensures forall p :: p in groups <==> exists row :: row in rows && row.product == p
    ensures forall p :: p in groups ==> groups[p] == OfProduct(rows, p)
  {
    assert rows[..|rows|] == rows;
    GroupsAreProducts(rows, groups);
    InTurnIsDistinct(rows, products);
  }

  /** One group a product, in order of first appearance, each holding all of that product's rows in order. */
  method GroupByProduct(rows: seq<PlannedRow>) returns (products: seq<Product>, groups: map<Product, seq<PlannedRow>>)
    ensures InTurn(rows, products)
    ensures forall i, j :: 0 <= i < j < |products| ==> products[i] != products[j]
    ensures forall p :: p in products <==> p in groups
    ensures forall p :: p in groups <==> exists row :: row in rows && row.product == p
    ensures forall p :: p in groups ==> groups[p] == OfProduct(rows, p)
  {
    products, groups := [], map[];
    for i := 0 to |rows|
      invariant GroupedInTurn(rows, i, products, groups)
    {
      var row := rows[i];
      GroupsNext(rows, i, products, groups);
      if row.product in groups {
        groups := groups[row.product := groups[row.product] + [row]];
      } else {
        products := products + [row.product];
        groups := groups[row.product := [row]];
      }
    }
    AllGrouped(rows, products, groups);
  }

  predicate WithinCap(requests: seq<seq<PlannedRow>>) {
    forall k :: 0 <= k < |requests| ==> 1 <= |requests[k]| <= INPUT_ARRAY_MAX && OneProduct(requests[k])
  }

  /** One product's rows, split at the cap. */
  method ProductRequests(group: seq<PlannedRow>) returns (parts: seq<seq<PlannedRow>>)
    requires OneProduct(group)
    ensures WithinCap(parts) && Flatten(parts) == group
  {
    parts := Chunk(group, INPUT_ARRAY_MAX);
    forall k | 0 <= k < |parts|
      ensures OneProduct(parts[k])
    {
      PartsOf(parts, k);
    }
  }

  /** Rows of one product go in plan order, and products in the order of their first rows. */
  ghost predicate Ahead(rows: seq<PlannedRow>, a: PlannedRow, b: PlannedRow) {
    if a.product == b.product then exists x, y :: 0 <= x < y < |rows| && rows[x] == a && rows[y] == b
    else FirstOf(rows, a.product) < FirstOf(rows, b.product)
  }

  ghost predicate InOrder(rows: seq<PlannedRow>, sent: seq<PlannedRow>) {
    forall i, j :: 0 <= i < j < |sent| ==> Ahead(rows, sent[i], sent[j])
  }

  lemma {:induction false} OfProductInOrder(rows: seq<PlannedRow>, p: Product)
    ensures InOrder(rows, OfProduct(rows, p))
  {
    if rows != [] {
      var last := |rows| - 1;
      var rest, all := OfProduct(rows[..last], p), OfProduct(rows, p);
      OfProductInOrder(rows[..last], p);
      forall i, j | 0 <= i < j < |all|
        ensures Ahead(rows, all[i], all[j])
      {
        assert all[i] in rest && all[i].product == all[j].product == p;
        if j < |rest| {
          var x, y :| 0 <= x < y < last && rows[..last][x] == rest[i] && rows[..last][y] == rest[j];
          assert rows[x] == all[i] && rows[y] == all[j];
        } else {
          var x :| 0 <= x < last && rows[..last][x] == rest[i];
          assert rows[x] == all[i] && rows[last] == all[j];
        }
      }
    }
  }

  lemma NextInOrder(rows: seq<PlannedRow>, products: seq<Product>, p: Product, sent: seq<PlannedRow>)
    requires InTurn(rows, products + [p]) && InOrder(rows, sent) && p !in products
    requires forall row :: row in sent ==> row.product in products
    ensures InOrder(rows, sent + OfProduct(rows, p))
  {
    var group := OfProduct(rows, p);
    OfProductInOrder(rows, p);
    forall a, b | a in sent && b in group
      ensures Ahead(rows, a, b)
    {
      var k :| 0 <= k < |products| && products[k] == a.product;
      assert (products + [p])[k] == a.product && (products + [p])[|products|] == p;
    }
    forall a, b | 0 <= a < b < |sent + group|
      ensures Ahead(rows, (sent + group)[a], (sent + group)[b])
    {
    }
  }

  /** The rows of the first products, in order. */
  ghost predicate Queued(rows: seq<PlannedRow>, products: seq<Product>, sent: seq<PlannedRow>) {
    && InOrder(rows, sent)
    && (forall row :: row in sent <==> row in rows && row.product in products)
    && (DistinctVariants(rows) ==> DistinctVariants(sent))
  }

  lemma QueuesNext(rows: seq<PlannedRow>, products: seq<Product>, p: Product, sent: seq<PlannedRow>)
    requires Queued(rows, products, sent) && InTurn(rows, products + [p]) && p !in products
    ensures Queued(rows, products + [p], sent + OfProduct(rows, p))
  {
    NextInOrder(rows, products, p, sent);
    if DistinctVariants(rows) {
      OfProductDistinct(rows, p);
      DistinctAcross(rows, sent, OfProduct(rows, p));
    }
  }

  lemma AllQueued(rows: seq<PlannedRow>, products: seq<Product>, sent: seq<PlannedRow>)
    requires Queued(rows, products, sent)
    requires forall p :: p in products <==> exists row :: row in rows && row.product == p
    ensures forall row :: row in rows <==> row in sent
  {
  }

  lemma FrontInTurn(rows: seq<PlannedRow>, products: seq<Product>, i: nat)
    requires InTurn(rows, products) && i < |products|
    ensures products[..i + 1] == products[..i] + [products[i]] && InTurn(rows, products[..i + 1]) && products[i] !in products[..i]
  {
    InTurnIsDistinct(rows, products);
  }

  /** The products' requests, one product after the other. */
  method Queue(rows: seq<PlannedRow>, products: seq<Product>, groups: map<Product, seq<PlannedRow>>)
    returns (requests: seq<seq<PlannedRow>>)
    requires InTurn(rows, products) && forall p :: p in products ==> p in groups && groups[p] == OfProduct(rows, p)
    ensures WithinCap(requests) && Queued(rows, products, Flatten(requests))
  {
    requests := [];
    for i := 0 to |products|
      invariant WithinCap(requests) && Queued(rows, products[..i], Flatten(requests))
    {
      var parts := ProductRequests(groups[products[i]]);
      FlattenConcat(requests, parts);
      FrontInTurn(rows, products, i);
      QueuesNext(rows, products[..i], products[i], Flatten(requests));
      requests := requests + parts;
    }
    assert products[..|products|] == products;
  }

  /**
   * The requests of a run. Each carries rows of one product, at most 250 of them and at least one,
   * and every row goes out, once.
   */
  method Requests(rows: seq<PlannedRow>) returns (requests: seq<seq<PlannedRow>>)
    ensures WithinCap(requests) && InOrder(rows, Flatten(requests))
    ensures forall row :: row in rows <==> row in Flatten(requests)
    ensures DistinctVariants(rows) ==> DistinctVariants(Flatten(requests))
  {
    var products, groups := GroupByProduct(rows);
    requests := Queue(rows, products, groups);
    AllQueued(rows, products, Flatten(requests));
  }

  predicate OneProduct(rows: seq<PlannedRow>) {
    forall a, b :: a in rows && b in rows ==> a.product == b.product
  }

  lemma {:induction false} PartsOf<T>(parts: seq<seq<T>>, k: nat)
    requires k < |parts|
    ensures forall x :: x in parts[k] ==> x in Flatten(parts)
  {
    if k > 0 {
      PartsOf(parts[1..], k - 1);
    }
  }

  lemma {:induction false} FlattenConcat<T>(a: seq<seq<T>>, b: seq<seq<T>>)
    ensures Flatten(a + b) == Flatten(a) + Flatten(b)
  {
    if a == [] {
      assert a + b == b;
    } else {
      assert (a + b)[1..] == a[1..] + b;
      FlattenConcat(a[1..], b);
      assert Flatten(a + b) == a[0] + (Flatten(a[1..]) + Flatten(b));
    }
  }

  // --------------------------------------------------------------- execution

  /** What comes back for a request: row errors by place, or an exception, after landing or not. */
  datatype Answer = Answered(refused: set<nat>) | Threw(landed: bool, stopsTheRun: bool)

  datatype Result = Unverified | VerifiedRow | FailedRow | DeletedRow

  class Store {
    var live: map<Variant, Price>

    constructor (live: map<Variant, Price>)
      ensures this.live == live
    {
      this.live := live;
    }

    /** Partial updates are allowed: each row of a request stands or falls alone. */
    method Update(rows: seq<PlannedRow>, refused: set<nat>)
      modifies this
      ensures live.Keys == old(live).Keys
      ensures forall v :: v in live ==>
                live[v] == old(live)[v] || exists k :: 0 <= k < |rows| && rows[k].variant == v && live[v] == rows[k].price
      ensures (forall i, j :: 0 <= i < j < |rows| ==> rows[i].variant != rows[j].variant) ==>
                forall k :: 0 <= k < |rows| && rows[k].variant in live ==>
                  live[rows[k].variant] == if k in refused then old(live)[rows[k].variant] else rows[k].price
    {
      for i := 0 to |rows|
        invariant live.Keys == old(live).Keys
        invariant forall v :: v in live ==>
                    live[v] == old(live)[v] || exists k :: 0 <= k < i && rows[k].variant == v && live[v] == rows[k].price
        invariant (forall a, b :: 0 <= a < b < |rows| ==> rows[a].variant != rows[b].variant) ==>
                    (forall k :: 0 <= k < i && rows[k].variant in live ==>
                      live[rows[k].variant] == if k in refused then old(live)[rows[k].variant] else rows[k].price)
        invariant (forall a, b :: 0 <= a < b < |rows| ==> rows[a].variant != rows[b].variant) ==>
                    forall k :: i <= k < |rows| && rows[k].variant in live ==> live[rows[k].variant] == old(live)[rows[k].variant]
      {
        if i !in refused && rows[i].variant in live {
          live := live[rows[i].variant := rows[i].price];
        }
      }
    }
  }

  /** What a request's answer makes of each of its rows. */
  function Settles(answer: Answer, k: nat, gone: bool): Result {
    match answer
    case Threw(_, _) => FailedRow
    case Answered(refused) => if k in refused then FailedRow else if gone then DeletedRow else Unverified
  }

  /** A row the store holds as asked, one it never heard of, and one it may hold. */
  ghost predicate TrueOf(live: map<Variant, Price>, before: map<Variant, Price>, row: PlannedRow, r: Result) {
    && (r == VerifiedRow ==> row.variant in live && live[row.variant] == row.price)
    && (r == Unverified ==> row.variant in live && live[row.variant] == row.price)
    && (r == DeletedRow ==> row.variant !in live)
    && (row.variant in live && row.variant in before ==> live[row.variant] == before[row.variant] || live[row.variant] == row.price)
  }

  /** Whether the store took the row at that place: partial updates are allowed, and a request that threw may have landed first. */
  predicate Lands(answer: Answer, k: nat) {
    match answer
    case Answered(refused) => k !in refused
    case Threw(landed, _) => landed
  }

  /** Each row of a request shows its price exactly when it landed, and else what it showed before. */
  predicate Landed(live: map<Variant, Price>, was: map<Variant, Price>, request: seq<PlannedRow>, answer: Answer) {
    forall j :: 0 <= j < |request| && request[j].variant in live && request[j].variant in was ==>
      live[request[j].variant] == if Lands(answer, j) then request[j].price else was[request[j].variant]
  }

  /** And it is reported by what came back for its own place. */
  predicate Answers(live: map<Variant, Price>, was: map<Variant, Price>, request: seq<PlannedRow>, answer: Answer,
                    results: map<Variant, Result>) {
    && Landed(live, was, request, answer)
    && forall j :: 0 <= j < |request| ==>
         request[j].variant in results && results[request[j].variant] == Settles(answer, j, request[j].variant !in live)
  }

  /** Sends one request and notes what came back for each row. */
  method SendRequest(store: Store, request: seq<PlannedRow>, answer: Answer, before: map<Variant, Result>)
    returns (results: map<Variant, Result>)
    requires DistinctVariants(request) && forall row :: row in request ==> row.variant !in before
    modifies store
    ensures store.live.Keys == old(store.live).Keys
    ensures results.Keys == before.Keys + (set row | row in request :: row.variant)
    ensures forall v :: v in before ==> results[v] == before[v]
    ensures forall row :: row in request ==>
              results[row.variant] != VerifiedRow && TrueOf(store.live, old(store.live), row, results[row.variant])
    ensures Answers(store.live, old(store.live), request, answer, results)
    ensures answer == Answered({}) ==> forall row :: row in request ==> results[row.variant] != FailedRow
    ensures forall v :: v in store.live && (forall row :: row in request ==> row.variant != v) ==> store.live[v] == old(store.live)[v]
  {
    match answer {
      case Answered(refused) => store.Update(request, refused);
      case Threw(landed, _) =>
        if landed {
          store.Update(request, {});
        }
    }
    results := SettleRows(request, answer, store.live, before);
    forall row | row in request
      ensures results[row.variant] != VerifiedRow && TrueOf(store.live, old(store.live), row, results[row.variant])
    {
      var j :| 0 <= j < |request| && request[j] == row;
    }
  }

  method SettleRows(request: seq<PlannedRow>, answer: Answer, live: map<Variant, Price>, before: map<Variant, Result>)
    returns (results: map<Variant, Result>)
    requires DistinctVariants(request) && forall row :: row in request ==> row.variant !in before
    ensures results.Keys == before.Keys + (set row | row in request :: row.variant)
    ensures forall v :: v in before ==> results[v] == before[v]
    ensures forall j :: 0 <= j < |request| ==> results[request[j].variant] == Settles(answer, j, request[j].variant !in live)
  {
    results := before;
    for k := 0 to |request|
      invariant results.Keys == before.Keys + (set row | row in request[..k] :: row.variant)
      invariant forall v :: v in before ==> results[v] == before[v]
      invariant forall j :: 0 <= j < k ==> results[request[j].variant] == Settles(answer, j, request[j].variant !in live)
    {
      assert request[..k + 1] == request[..k] + [request[k]];
      results := results[request[k].variant := Settles(answer, k, request[k].variant !in live)];
    }
    assert request[..|request|] == request;
  }

  /** Reads one written row back: it is verified only when the store shows its price. */
  method ReadBack(store: Store, row: PlannedRow, answered: bool) returns (r: Result)
    ensures r == if !answered then Unverified
                 else if row.variant in store.live && store.live[row.variant] == row.price then VerifiedRow
                 else FailedRow
  {
    if !answered {
      r := Unverified;
    } else if row.variant in store.live && store.live[row.variant] == row.price {
      r := VerifiedRow;
    } else {
      r := FailedRow;
    }
  }

  /** What the run reports of a row; a row no request reached has no result. */
  predicate Done(results: map<Variant, Result>, row: PlannedRow) {
    row.variant in results && (results[row.variant] == VerifiedRow || results[row.variant] == DeletedRow)
  }

  predicate Faultless(answers: seq<Answer>) {
    forall a :: a in answers ==> a == Answered({})
  }

  /** The answer to a request; one not listed went through. */
  function AnswerTo(answers: seq<Answer>, k: nat): Answer {
    if k < |answers| then answers[k] else Answered({})
  }

  /** It failed in a way no later request can survive. */
  predicate Stops(a: Answer) {
    a.Threw? && a.stopsTheRun
  }

  /** How many of the first `n` requests go out: all up to the first that stops the run, that one included. */
  function Reached(answers: seq<Answer>, n: nat): (k: nat)
    ensures k <= n && (n > 0 ==> k > 0)
    ensures forall j :: 0 <= j < k - 1 ==> !Stops(AnswerTo(answers, j))
    ensures k < n ==> Stops(AnswerTo(answers, k - 1))
  {
    if n <= 1 then n
    else
      var k := Reached(answers, n - 1);
      if k < n - 1 || Stops(AnswerTo(answers, k - 1)) then k else n
  }

  /** Every request that went out is answered for. */
  ghost predicate AnsweredFor(live: map<Variant, Price>, was: map<Variant, Price>, requests: seq<seq<PlannedRow>>, answers: seq<Answer>,
                              results: map<Variant, Result>) {
    forall k :: 0 <= k < |requests| ==> Answers(live, was, requests[k], AnswerTo(answers, k), results)
  }

  /** What the rows sent so far are reported as is so, and nothing else moved. */
  ghost predicate Told(live: map<Variant, Price>, was: map<Variant, Price>, sent: seq<PlannedRow>, results: map<Variant, Result>) {
    && live.Keys == was.Keys
    && results.Keys == (set row | row in sent :: row.variant)
    && (forall row :: row in sent ==> results[row.variant] != VerifiedRow && TrueOf(live, was, row, results[row.variant]))
    && (forall v :: v in live && v !in results ==> live[v] == was[v])
  }

  predicate NoneFailed(sent: seq<PlannedRow>, results: map<Variant, Result>) {
    forall row :: row in sent ==> row.variant in results && results[row.variant] != FailedRow
  }

  /** One more request leaves what was told of the earlier ones standing. */
  lemma TellsMore(live: map<Variant, Price>, live': map<Variant, Price>, was: map<Variant, Price>, sent: seq<PlannedRow>,
                  request: seq<PlannedRow>, before: map<Variant, Result>, results: map<Variant, Result>)
    requires Told(live, was, sent, before) && live'.Keys == live.Keys
    requires forall a, b :: a in sent && b in request ==> a.variant != b.variant
    requires results.Keys == before.Keys + (set row | row in request :: row.variant)
    requires forall v :: v in before ==> results[v] == before[v]
    requires forall row :: row in request ==>
               results[row.variant] != VerifiedRow && TrueOf(live', live, row, results[row.variant])
    requires forall v :: v in live' && (forall row :: row in request ==> row.variant != v) ==> live'[v] == live[v]
    ensures Told(live', was, sent + request, results)
    ensures NoneFailed(sent, before) && NoneFailed(request, results) ==> NoneFailed(sent + request, results)
  {
    forall row | row in sent + request
      ensures row.variant in results && results[row.variant] != VerifiedRow && TrueOf(live', was, row, results[row.variant])
    {
      if row in sent {
        assert TrueOf(live, was, row, before[row.variant]);
      } else {
        assert row.variant !in before && TrueOf(live', live, row, results[row.variant]);
      }
    }
  }

  /** A later request moves no row of an earlier one, and takes back nothing said of it. */
  lemma StillAnswered(live: map<Variant, Price>, live': map<Variant, Price>, was: map<Variant, Price>, requests: seq<seq<PlannedRow>>,
                      k: nat, answers: seq<Answer>, before: map<Variant, Result>, results: map<Variant, Result>)
    requires k < |requests| && live'.Keys == live.Keys && AnsweredFor(live, was, requests[..k], answers, before)
    requires forall a, b :: a in Flatten(requests[..k]) && b in requests[k] ==> a.variant != b.variant
    requires forall v :: v in before ==> v in results && results[v] == before[v]
    requires forall v :: v in live' && (forall row :: row in requests[k] ==> row.variant != v) ==> live'[v] == live[v]
    requires Answers(live', was, requests[k], AnswerTo(answers, k), results)
    ensures AnsweredFor(live', was, requests[..k + 1], answers, results)
  {
    forall n | 0 <= n < k
      ensures Answers(live', was, requests[n], AnswerTo(answers, n), results)
    {
      assert requests[..k][n] == requests[n];
      PartsOf(requests[..k], n);
      assert forall j :: 0 <= j < |requests[n]| ==> requests[n][j] in requests[n];
    }
  }

  /** What a request finds live is what was live before the run: the earlier ones were for other variants. */
  lemma FirstAnswer(live: map<Variant, Price>, live': map<Variant, Price>, was: map<Variant, Price>, request: seq<PlannedRow>,
                    answer: Answer, results: map<Variant, Result>)
    requires Answers(live', live, request, answer, results) && live'.Keys == live.Keys == was.Keys
    requires forall row :: row in request && row.variant in live ==> live[row.variant] == was[row.variant]
    ensures Answers(live', was, request, answer, results)
  {
    assert forall j :: 0 <= j < |request| ==> request[j] in request;
  }

  /** Sends the requests in order until one fails in a way no later one can survive. */
  method SendAll(store: Store, requests: seq<seq<PlannedRow>>, answers: seq<Answer>)
    returns (results: map<Variant, Result>, stopped: bool, ghost sent: seq<PlannedRow>)
    requires DistinctVariants(Flatten(requests)) && forall k :: 0 <= k < |requests| ==> requests[k] != []
    modifies store
    ensures sent == Flatten(requests[..Reached(answers, |requests|)])
    ensures Told(store.live, old(store.live), sent, results)
    ensures AnsweredFor(store.live, old(store.live), requests[..Reached(answers, |requests|)], answers, results)
    ensures stopped <==> exists k :: 0 <= k < |requests| && Stops(AnswerTo(answers, k))
    ensures stopped ==> exists row :: row in sent && results[row.variant] == FailedRow
    ensures Faultless(answers) ==> NoneFailed(sent, results)
  {
    results, sent, stopped := map[], [], false;
    var k := 0;
    while k < |requests| && !stopped
      invariant 0 <= k <= |requests|
      invariant SentSoFar(store.live, old(store.live), requests[..k], answers, sent, results)
      invariant if stopped then k > 0 && Stops(AnswerTo(answers, k - 1)) else forall j :: 0 <= j < k ==> !Stops(AnswerTo(answers, j))
      invariant forall j :: 0 <= j < k - 1 ==> !Stops(AnswerTo(answers, j))
    {
      results := SendNext(store, old(store.live), requests, k, answers, sent, results);
      sent := sent + requests[k];
      stopped := AnswerTo(answers, k).Threw? && AnswerTo(answers, k).stopsTheRun;
      k := k + 1;
    }
    assert k == Reached(answers, |requests|);
    if stopped {
      FailsItsRows(store.live, old(store.live), requests[..k], answers, results);
    }
  }

  /** What is known once some requests have gone out. */
  ghost predicate SentSoFar(live: map<Variant, Price>, was: map<Variant, Price>, requests: seq<seq<PlannedRow>>, answers: seq<Answer>,
                            sent: seq<PlannedRow>, results: map<Variant, Result>) {
    && sent == Flatten(requests)
    && Told(live, was, sent, results)
    && AnsweredFor(live, was, requests, answers, results)
    && (Faultless(answers) ==> NoneFailed(sent, results))
  }

  lemma FaultlessAnswer(answers: seq<Answer>, k: nat)
    ensures Faultless(answers) ==> AnswerTo(answers, k) == Answered({})
  {
    assert k < |answers| ==> answers[k] in answers;
  }

  method SendNext(store: Store, ghost was: map<Variant, Price>, requests: seq<seq<PlannedRow>>, k: nat, answers: seq<Answer>,
                  ghost sent: seq<PlannedRow>, before: map<Variant, Result>) returns (results: map<Variant, Result>)
    requires DistinctVariants(Flatten(requests)) && k < |requests|
    requires SentSoFar(store.live, was, requests[..k], answers, sent, before)
    modifies store
    ensures SentSoFar(store.live, was, requests[..k + 1], answers, sent + requests[k], results)
  {
    Splits(requests, k);
    FlattenNext(requests, k);
    FaultlessAnswer(answers, k);
    ghost var live := store.live;
    results := SendRequest(store, requests[k], AnswerTo(answers, k), before);
    TellsMore(live, store.live, was, sent, requests[k], before, results);
    FirstAnswer(live, store.live, was, requests[k], AnswerTo(answers, k), results);
    StillAnswered(live, store.live, was, requests, k, answers, before, results);
  }

  /** The request that stopped the run failed, and so did its rows. */
  lemma FailsItsRows(live: map<Variant, Price>, was: map<Variant, Price>, requests: seq<seq<PlannedRow>>, answers: seq<Answer>,
                     results: map<Variant, Result>)
    requires requests != [] && requests[|requests| - 1] != [] && Stops(AnswerTo(answers, |requests| - 1))
    requires AnsweredFor(live, was, requests, answers, results)
    ensures exists row :: row in Flatten(requests) && row.variant in results && results[row.variant] == FailedRow
  {
    var last := |requests| - 1;
    PartsOf(requests, last);
    var row := requests[last][0];
    assert row in requests[last];
  }

  /**
   * The whole run. Whatever the store answers, whichever reads fail: a row reported verified is
   * live at its price, one reported deleted is gone, no other price moves, and the run is clean
   * exactly when every row is one or the other. With nothing refused and every read answered, it is.
   * A request that fails as no other can survive is the last to go out: rows of later ones keep their
   * prices, have no result, and the run is not clean.
   */
  method ExecuteSync(store: Store, rows: seq<PlannedRow>, answers: seq<Answer>, unread: set<Variant>)
    returns (results: map<Variant, Result>, clean: bool, ghost requests: seq<seq<PlannedRow>>)
    requires DistinctVariants(rows)
    modifies store
    ensures store.live.Keys == old(store.live).Keys
    ensures WithinCap(requests) && InOrder(rows, Flatten(requests)) && forall row :: row in rows <==> row in Flatten(requests)
    ensures var sent := Flatten(requests[..Reached(answers, |requests|)]);
            && (forall row :: row in sent ==> row.variant in results)
            && (forall row :: row in rows && row !in sent ==> row.variant !in results)
    ensures forall k :: 0 <= k < Reached(answers, |requests|) ==> Landed(store.live, old(store.live), requests[k], AnswerTo(answers, k))
    ensures (exists k :: 0 <= k < |requests| && Stops(AnswerTo(answers, k))) ==> !clean
    ensures forall row :: row in rows && row.variant in results ==> TrueOf(store.live, old(store.live), row, results[row.variant])
    ensures forall v :: v in results ==> exists row :: row in rows && row.variant == v
    ensures forall v :: v in store.live && v !in results ==> store.live[v] == old(store.live)[v]
    ensures clean <==> forall row :: row in rows ==> Done(results, row)
    ensures forall v :: v in unread && v in results ==> results[v] != VerifiedRow
    ensures Faultless(answers) && unread == {} ==> clean
  {
    var parts := Requests(rows);
    requests := parts;
    ghost var sent;
    var stopped;
    results, stopped, sent := SendAll(store, parts, answers);
    ghost var before := results;
    AllLanded(store.live, old(store.live), requests, Reached(answers, |requests|), answers, before);
    Prefix(requests, Reached(answers, |requests|));
    results := VerifyRows(store, rows, results, unread);
    clean := !stopped && NoneLeft(results);
    Concludes(store.live, old(store.live), rows, sent, before, unread, results);
    ConcludesClean(store.live, old(store.live), rows, sent, before, unread, results);
    WhenFaultless(answers, |requests|);
    if Faultless(answers) && unread == {} {
      NothingLeft(store.live, old(store.live), rows, sent, before, results);
    }
  }

  lemma WhenFaultless(answers: seq<Answer>, n: nat)
    ensures Faultless(answers) ==> forall k :: 0 <= k < n ==> !Stops(AnswerTo(answers, k))
  {
    forall k | 0 <= k < n && Faultless(answers)
      ensures !Stops(AnswerTo(answers, k))
    {
      FaultlessAnswer(answers, k);
    }
  }

  lemma AllLanded(live: map<Variant, Price>, was: map<Variant, Price>, requests: seq<seq<PlannedRow>>, n: nat, answers: seq<Answer>,
                  results: map<Variant, Result>)
    requires n <= |requests| && AnsweredFor(live, was, requests[..n], answers, results)
    ensures forall k :: 0 <= k < n ==> Landed(live, was, requests[k], AnswerTo(answers, k))
  {
    forall k | 0 <= k < n
      ensures Landed(live, was, requests[k], AnswerTo(answers, k))
    {
      assert requests[..n][k] == requests[k];
    }
  }

  /** What the results say once the written rows have been read back. */
  lemma Concludes(live: map<Variant, Price>, was: map<Variant, Price>, rows: seq<PlannedRow>, sent: seq<PlannedRow>,
                  before: map<Variant, Result>, unread: set<Variant>, results: map<Variant, Result>)
    requires DistinctVariants(rows) && Told(live, was, sent, before) && (forall row :: row in sent ==> row in rows)
    requires Reread(live, rows, before, unread, results)
    ensures forall row :: row in rows ==> (row in sent <==> row.variant in results)
    ensures forall v :: v in results ==> exists row :: row in sent && row in rows && row.variant == v
    ensures forall row :: row in rows && row.variant in results ==> TrueOf(live, was, row, results[row.variant])
  {
    SameRows(rows, sent);
    forall row | row in rows
      ensures row in sent <==> row.variant in results
    {
      if row.variant in results {
        var other :| other in sent && other.variant == row.variant;
      }
    }
    forall v | v in results
      ensures exists row :: row in sent && row in rows && row.variant == v
    {
      var row :| row in sent && row.variant == v;
    }
    forall row | row in rows && row.variant in results
      ensures TrueOf(live, was, row, results[row.variant])
    {
      assert TrueOf(live, was, row, before[row.variant]);
    }
  }

  lemma ConcludesClean(live: map<Variant, Price>, was: map<Variant, Price>, rows: seq<PlannedRow>, sent: seq<PlannedRow>,
                       before: map<Variant, Result>, unread: set<Variant>, results: map<Variant, Result>)
    requires Told(live, was, sent, before) && (forall row :: row in sent ==> row in rows)
    requires Reread(live, rows, before, unread, results)
    ensures forall v :: v in unread && v in results ==> results[v] != VerifiedRow
    ensures forall row :: row in sent && before[row.variant] == FailedRow ==> !Done(results, row)
    ensures NoneLeft(results) <==> forall row :: row in sent ==> Done(results, row)
  {
    forall v | v in results
      ensures exists row :: row in sent && row in rows && row.variant == v
    {
      var row :| row in sent && row.variant == v;
    }
  }

  predicate NoneLeft(results: map<Variant, Result>) {
    forall v :: v in results ==> results[v] != FailedRow && results[v] != Unverified
  }

  /** A row that was sent is the only one of its variant. */
  lemma SameRows(rows: seq<PlannedRow>, sent: seq<PlannedRow>)
    requires DistinctVariants(rows) && forall row :: row in sent ==> row in rows
    ensures forall row, other :: row in rows && other in sent && row.variant == other.variant ==> row == other
  {
  }

  /** Nothing refused and everything read back: every row is verified or its variant is gone. */
  lemma NothingLeft(live: map<Variant, Price>, was: map<Variant, Price>, rows: seq<PlannedRow>, sent: seq<PlannedRow>,
                    before: map<Variant, Result>, results: map<Variant, Result>)
    requires Told(live, was, sent, before) && NoneFailed(sent, before)
    requires forall row :: row in sent ==> row in rows
    requires Reread(live, rows, before, {}, results)
    ensures NoneLeft(results)
  {
    forall v | v in results
      ensures results[v] != FailedRow && results[v] != Unverified
    {
      var row :| row in sent && row.variant == v;
      assert TrueOf(live, was, row, before[v]);
    }
  }

  lemma Around<T>(parts: seq<seq<T>>, k: nat)
    requires k < |parts|
    ensures Flatten(parts) == Flatten(parts[..k]) + (parts[k] + Flatten(parts[k + 1..]))
  {
    assert parts == parts[..k] + parts[k..];
    FlattenConcat(parts[..k], parts[k..]);
    assert parts[k..][1..] == parts[k + 1..];
  }

  /** Rows before the cut go out before those after it, and share no variant with them. */
  lemma Splits(requests: seq<seq<PlannedRow>>, k: nat)
    requires k < |requests| && DistinctVariants(Flatten(requests))
    ensures DistinctVariants(requests[k])
    ensures forall a, b :: a in Flatten(requests[..k]) && b in requests[k] ==> a.variant != b.variant
  {
    Around(requests, k);
    MiddleOf(Flatten(requests[..k]), requests[k], Flatten(requests[k + 1..]));
  }

  lemma MiddleOf(a: seq<PlannedRow>, b: seq<PlannedRow>, c: seq<PlannedRow>)
    requires DistinctVariants(a + (b + c))
    ensures DistinctVariants(b)
    ensures forall x, y :: x in a && y in b ==> x.variant != y.variant
  {
    var all := a + (b + c);
    forall i, j | 0 <= i < j < |b|
      ensures b[i].variant != b[j].variant
    {
      assert all[|a| + i] == b[i] && all[|a| + j] == b[j];
    }
    forall x, y | x in a && y in b
      ensures x.variant != y.variant
    {
      var i :| 0 <= i < |a| && a[i] == x;
      var j :| 0 <= j < |b| && b[j] == y;
      assert all[i] == x && all[|a| + j] == y;
    }
  }

  lemma Prefix(requests: seq<seq<PlannedRow>>, k: nat)
    requires k <= |requests|
    ensures forall row :: row in Flatten(requests[..k]) ==> row in Flatten(requests)
    ensures k == |requests| ==> Flatten(requests[..k]) == Flatten(requests)
  {
    assert requests == requests[..k] + requests[k..];
    FlattenConcat(requests[..k], requests[k..]);
    if k == |requests| {
      assert requests[..k] == requests;
    }
  }

  /** A written row is verified when it was read and is live at its price, and failed when it is not; every other result stands. */
  ghost predicate Reread(live: map<Variant, Price>, rows: seq<PlannedRow>, before: map<Variant, Result>, unread: set<Variant>,
                         results: map<Variant, Result>) {
    && results.Keys == before.Keys
    && forall row :: row in rows && row.variant in before ==>
         results[row.variant] ==
           if before[row.variant] != Unverified then before[row.variant]
           else if row.variant in unread then Unverified
           else if row.variant in live && live[row.variant] == row.price then VerifiedRow
           else FailedRow
  }

  /** Every written row read back; the rest keep what they were. */
  method VerifyRows(store: Store, rows: seq<PlannedRow>, before: map<Variant, Result>, unread: set<Variant>)
    returns (results: map<Variant, Result>)
    requires DistinctVariants(rows)
    ensures Reread(store.live, rows, before, unread, results)
  {
    results := before;
    for i := 0 to |rows|
      invariant results.Keys == before.Keys
      invariant forall j :: i <= j < |rows| && rows[j].variant in before ==> results[rows[j].variant] == before[rows[j].variant]
      invariant forall j :: 0 <= j < i && rows[j].variant in before ==>
                  results[rows[j].variant] ==
                    if before[rows[j].variant] != Unverified then before[rows[j].variant]
                    else if rows[j].variant in unread then Unverified
                    else if rows[j].variant in store.live && store.live[rows[j].variant] == rows[j].price then VerifiedRow
                    else FailedRow
    {
      var row := rows[i];
      if row.variant in results && results[row.variant] == Unverified {
        var r := ReadBack(store, row, row.variant !in unread);
        results := results[row.variant := r];
      }
    }
  }
}
