/**
 * The reconciliation engine as functions of the mapping and of the three
 * remote calls: the fetch loop of `get_all_products_stock`, the push loop
 * of `sync_stock`, the run-level result of `sync_stock` and `run`, and the
 * sequence of remote calls each of them makes. The class in module Sync
 * runs the loops and is proved to compute exactly these values.
 */
module Reconcile {
  import opened Wrappers
  import PyInt
  import Config
  import Odoo
  import WooCommerce

  type Search = string -> Odoo.SearchReply
  type Put = (int, WooCommerce.Payload) -> WooCommerce.PutReply

  /** One value of the `products_stock` table, with its barcode key. */
  datatype StockEntry = StockEntry(barcode: string, name: string, qty: real, wcId: int)

  /** The ValueError `int(wc_id)` raises for a value that is not an integer. */
  datatype FetchError = BadWcId(barcode: string, value: string)

  /** A remote call the engine makes. */
  datatype Call =
    | Authenticate(credentials: Odoo.Credentials)
    | SearchRead(barcode: string)
    | Put(productId: int, payload: WooCommerce.Payload)

  // ---------------- fetch ----------------

  /** The lookup of this mapping entry's barcode yields a product. */
  predicate Hit(search: Search, entry: (string, string)) {
    Odoo.ProductStockByBarcode(search, entry.0).Some?
  }

  /** One turn of the fetch loop: a miss is skipped; a hit adds an entry,
      unless its WooCommerce id is not an integer, which raises. */
  function FetchStep(acc: seq<StockEntry>, entry: (string, string), search: Search): (r: Result<seq<StockEntry>, FetchError>)
    ensures r.Err? <==> Hit(search, entry) && PyInt.ParseInt(entry.1).None?
    ensures r.Ok? ==> |r.value| == |acc| + (if Hit(search, entry) then 1 else 0)
  {
    match Odoo.ProductStockByBarcode(search, entry.0)
    case None => Ok(acc)
    case Some(p) =>
      match PyInt.ParseInt(entry.1)
      case None => Err(BadWcId(entry.0, entry.1))
      case Some(id) => Ok(acc + [StockEntry(entry.0, p.name, p.qtyAvailable, id)])
  }

  /** `get_all_products_stock`: the fetch loop run over the whole mapping,
      in mapping order; the first error ends it. */
  function FetchAll(m: Config.Mapping, search: Search): (r: Result<seq<StockEntry>, FetchError>)
    ensures r.Ok? ==> |r.value| <= |m|
  {
    if m == [] then Ok([])
    else match FetchAll(m[..|m| - 1], search)
      case Err(e) => Err(e)
      case Ok(acc) => FetchStep(acc, m[|m| - 1], search)
  }

  /** The `search_read` calls of the fetch loop: one per barcode reached. */
  function FetchCalls(m: Config.Mapping, search: Search): (r: seq<Call>)
    ensures |r| <= |m|
  {
    if m == [] then []
    else if FetchAll(m[..|m| - 1], search).Err? then FetchCalls(m[..|m| - 1], search)
    else FetchCalls(m[..|m| - 1], search) + [SearchRead(m[|m| - 1].0)]
  }

  /** One more turn of the fetch loop, stated on prefixes of the mapping. */
  lemma FetchAllPrefixStep(m: Config.Mapping, i: nat, search: Search)
    requires i < |m|
    ensures FetchAll(m[..i + 1], search) ==
              match FetchAll(m[..i], search)
              case Err(e) => Err(e)
              case Ok(acc) => FetchStep(acc, m[i], search)
    ensures FetchCalls(m[..i + 1], search) ==
              FetchCalls(m[..i], search) + if FetchAll(m[..i], search).Err? then [] else [SearchRead(m[i].0)]
  {
    assert m[..i + 1][..i] == m[..i];
  }

  /** A lookup that faults for every barcode, as before a connection,
      fetches nothing and cannot fail. */
  lemma {:induction false} FetchAllWhenEveryLookupFaults(m: Config.Mapping, search: Search)
    requires forall b :: search(b) == Odoo.RpcFault
    ensures FetchAll(m, search) == Ok([])
  {
    if m != [] {
      FetchAllWhenEveryLookupFaults(m[..|m| - 1], search);
      assert search(m[|m| - 1].0) == Odoo.RpcFault;
    }
  }

  /** Reference definition: the entries of the mapping whose lookup hits,
      in mapping order. */
  function Hits(m: Config.Mapping, search: Search): (r: Config.Mapping)
    ensures |r| <= |m|
  {
    if m == [] then []
    else (if Hit(search, m[0]) then [m[0]] else []) + Hits(m[1..], search)
  }

  /** Every hit entry's WooCommerce id reads as an integer. */
  predicate AllIdsParse(h: Config.Mapping) {
    forall k :: 0 <= k < |h| ==> PyInt.ParseInt(h[k].1).Some?
  }

  /** `e` names the first hit entry whose id does not read as an integer. */
  ghost predicate FirstBadId(h: Config.Mapping, e: FetchError) {
    exists k :: 0 <= k < |h| && h[k] == (e.barcode, e.value) && PyInt.ParseInt(e.value).None? && AllIdsParse(h[..k])
  }

  /** `e` is the table entry for the mapping entry `entry`: the barcode,
      the parsed id, and the name and quantity of the looked-up product. */
  predicate Describes(e: StockEntry, entry: (string, string), search: Search) {
    var p := Odoo.ProductStockByBarcode(search, entry.0);
    && p.Some?
    && e.barcode == entry.0
    && e.name == p.value.name
    && e.qty == p.value.qtyAvailable
    && PyInt.ParseInt(entry.1) == Some(e.wcId)
  }

  /** What one turn of the fetch loop leaves in the table: on a miss the
      table as it was; on a hit with a readable id the table with exactly
      one entry appended, and that entry describes the mapping entry. */
  lemma FetchStepExtends(acc: seq<StockEntry>, entry: (string, string), search: Search)
    ensures FetchStep(acc, entry, search).Ok? && !Hit(search, entry) ==> FetchStep(acc, entry, search).value == acc
    ensures var r := FetchStep(acc, entry, search);
            r.Ok? && Hit(search, entry) ==>
              |acc| < |r.value| && r.value[..|acc|] == acc && Describes(r.value[|acc|], entry, search)
  {
    var r := FetchStep(acc, entry, search);
    if r.Ok? && Hit(search, entry) {
      assert r.value[..|acc|] == acc;
    }
  }

  /** The barcode `search_read` calls, one per entry, in order. */
  function Queries(m: Config.Mapping): (q: seq<Call>)
    ensures |q| == |m|
    ensures forall k :: 0 <= k < |m| ==> q[k] == SearchRead(m[k].0)
  {
    seq(|m|, k requires 0 <= k < |m| => SearchRead(m[k].0))
  }

  lemma {:induction false} HitsAppend(m: Config.Mapping, x: (string, string), search: Search)
    ensures Hits(m + [x], search) == Hits(m, search) + (if Hit(search, x) then [x] else [])
  {
    var tail := if Hit(search, x) then [x] else [];
    if m == [] {
      assert [] + [x] == [x];
      assert [x][1..] == [];
      assert Hits([x], search) == tail + Hits([], search);
    } else {
      var head := if Hit(search, m[0]) then [m[0]] else [];
      var rest := m[1..];
      assert (m + [x])[0] == m[0];
      assert (m + [x])[1..] == rest + [x];
      HitsAppend(rest, x, search);
      assert Hits(m + [x], search) == head + (Hits(rest, search) + tail);
      assert head + (Hits(rest, search) + tail) == (head + Hits(rest, search)) + tail;
    }
  }

  lemma {:induction false} HitsMembers(m: Config.Mapping, search: Search)
    ensures forall p :: p in Hits(m, search) <==> p in m && Hit(search, p)
    ensures |Hits(m, search)| <= |m|
  {
    if m != [] {
      HitsMembers(m[1..], search);
      assert forall p :: p in m <==> p == m[0] || p in m[1..];
    }
  }

  lemma {:induction false} HitsDistinct(m: Config.Mapping, search: Search)
    requires Config.DistinctKeys(m)
    ensures Config.DistinctKeys(Hits(m, search))
  {
    if m != [] {
      var rest := Hits(m[1..], search);
      assert Config.DistinctKeys(m[1..]) by {
        forall i, j | 0 <= i < j < |m[1..]| ensures m[1..][i].0 != m[1..][j].0 {
          assert m[1..][i] == m[i + 1] && m[1..][j] == m[j + 1];
        }
      }
      HitsDistinct(m[1..], search);
      HitsMembers(m[1..], search);
      if Hit(search, m[0]) {
        forall k | 0 <= k < |rest| ensures rest[k].0 != m[0].0 {
          assert rest[k] in m[1..];
          var i :| 0 <= i < |m[1..]| && m[1..][i] == rest[k];
          assert m[i + 1] == rest[k];
        }
        var h := [m[0]] + rest;
        forall i, j | 0 <= i < j < |h| ensures h[i].0 != h[j].0 {
          if i > 0 { assert h[i] == rest[i - 1] && h[j] == rest[j - 1]; }
          else { assert h[j] == rest[j - 1]; }
        }
      } else {
        assert Hits(m, search) == rest;
      }
    }
  }

  /** The fetch loop succeeds exactly when every hit entry's id reads as an
      integer. Its table then holds exactly the hit entries, in mapping
      order, each with its parsed id and its product's name and quantity;
      misses are skipped. Otherwise it fails on the first hit entry whose id
      does not read as an integer. */
  lemma {:induction false} FetchAllOutcome(m: Config.Mapping, search: Search)
    ensures FetchAll(m, search).Ok? <==> AllIdsParse(Hits(m, search))
    ensures FetchAll(m, search).Ok? ==>
              var es, h := FetchAll(m, search).value, Hits(m, search);
              |es| == |h| && forall k :: 0 <= k < |h| ==> Describes(es[k], h[k], search)
    ensures FetchAll(m, search).Err? ==> FirstBadId(Hits(m, search), FetchAll(m, search).error)
  {
    if m != [] {
      var init, x := m[..|m| - 1], m[|m| - 1];
      assert m == init + [x];
      HitsAppend(init, x, search);
      FetchAllOutcome(init, search);
      var hi := Hits(init, search);
      var h := Hits(m, search);
      match FetchAll(init, search)
      case Err(e) =>
        var k :| 0 <= k < |hi| && hi[k] == (e.barcode, e.value) && PyInt.ParseInt(e.value).None? && AllIdsParse(hi[..k]);
        assert h[k] == hi[k] && h[..k] == hi[..k];
        assert !AllIdsParse(h) by { assert PyInt.ParseInt(h[k].1).None?; }
      case Ok(acc) =>
        if Hit(search, x) {
          assert h == hi + [x] && h[..|hi|] == hi && h[|hi|] == x;
          var p := Odoo.ProductStockByBarcode(search, x.0).value;
          match PyInt.ParseInt(x.1)
          case None =>
            assert FirstBadId(h, BadWcId(x.0, x.1));
          case Some(id) =>
            var es := acc + [StockEntry(x.0, p.name, p.qtyAvailable, id)];
            assert FetchAll(m, search) == Ok(es);
            forall k | 0 <= k < |h| ensures Describes(es[k], h[k], search) {
              if k < |hi| { assert es[k] == acc[k] && h[k] == hi[k]; }
            }
        } else {
          assert h == hi;
        }
    }
  }

  function Barcodes(es: seq<StockEntry>): (r: set<string>) {
    set e | e in es :: e.barcode
  }

  function HitBarcodes(m: Config.Mapping, search: Search): (r: set<string>) {
    set p | p in m && Hit(search, p) :: p.0
  }

  /** The table is keyed by barcode: its barcodes are exactly those of the
      hit entries, each once when the mapping's keys are distinct. */
  lemma FetchedBarcodes(m: Config.Mapping, search: Search)
    requires Config.DistinctKeys(m)
    requires FetchAll(m, search).Ok?
    ensures var es := FetchAll(m, search).value;
            forall i, j :: 0 <= i < j < |es| ==> es[i].barcode != es[j].barcode
    ensures Barcodes(FetchAll(m, search).value) == HitBarcodes(m, search)
  {
    var es, h := FetchAll(m, search).value, Hits(m, search);
    FetchAllOutcome(m, search);
    forall k | 0 <= k < |es| ensures es[k].barcode == h[k].0 {
      assert Describes(es[k], h[k], search);
    }
    HitsDistinct(m, search);
    KeyedLikeMapping(es, h);
    HitsMembers(m, search);
    assert HitBarcodes(m, search) == Keys(h);
  }

  /** The barcodes of the entries in `h`. */
  function Keys(h: Config.Mapping): (r: set<string>) {
    set p | p in h :: p.0
  }

  /** A table whose barcodes follow a mapping entry by entry is keyed like
      it: distinct barcodes when its keys are distinct, and the same set. */
  lemma KeyedLikeMapping(es: seq<StockEntry>, h: Config.Mapping)
    requires |es| == |h| && forall k :: 0 <= k < |es| ==> es[k].barcode == h[k].0
    requires Config.DistinctKeys(h)
    ensures forall i, j :: 0 <= i < j < |es| ==> es[i].barcode != es[j].barcode
    ensures Barcodes(es) == Keys(h)
  {
    forall b | b in Barcodes(es) ensures b in Keys(h) {
      var e :| e in es && e.barcode == b;
      var k :| 0 <= k < |es| && es[k] == e;
      assert h[k] in h;
    }
    forall b | b in Keys(h) ensures b in Barcodes(es) {
      var p :| p in h && p.0 == b;
      var k :| 0 <= k < |h| && h[k] == p;
      assert es[k] in es;
    }
  }

  /** Once the loop has failed on a prefix, the rest of the mapping changes
      neither its result nor its calls: no later barcode is looked up. */
  lemma {:induction false} FetchAllStopsAtError(m: Config.Mapping, n: nat, search: Search)
    requires n <= |m|
    requires FetchAll(m[..n], search).Err?
    ensures FetchAll(m, search) == FetchAll(m[..n], search)
    ensures FetchCalls(m, search) == FetchCalls(m[..n], search)
    decreases |m|
  {
    if n < |m| {
      var init := m[..|m| - 1];
      assert init[..n] == m[..n];
      FetchAllStopsAtError(init, n, search);
    } else {
      assert m[..n] == m;
    }
  }

  /** The fetch loop looks the barcodes up one at a time in mapping order:
      all of them when it succeeds, and up to and including the offending
      one when an id does not read as an integer. */
  lemma {:induction false} FetchCallsInOrder(m: Config.Mapping, search: Search)
    ensures |FetchCalls(m, search)| <= |m|
    ensures FetchCalls(m, search) == Queries(m[..|FetchCalls(m, search)|])
    ensures FetchAll(m, search).Ok? ==> FetchCalls(m, search) == Queries(m)
  {
    if m == [] {
      assert m[..0] == m;
    } else {
      var init, x := m[..|m| - 1], m[|m| - 1];
      FetchCallsInOrder(init, search);
      var ci := FetchCalls(init, search);
      assert init[..|ci|] == m[..|ci|];
      if FetchAll(init, search).Ok? {
        assert FetchCalls(m, search) == ci + [SearchRead(x.0)];
        QueriesSnoc(m);
        assert m[..|m|] == m;
      }
    }
  }

  /** When the fetch loop fails, its last lookup is the offending barcode. */
  lemma {:induction false} FetchCallsEndAtError(m: Config.Mapping, search: Search)
    requires FetchAll(m, search).Err?
    ensures FetchCalls(m, search) != []
    ensures FetchCalls(m, search)[|FetchCalls(m, search)| - 1] == SearchRead(FetchAll(m, search).error.barcode)
  {
    var init := m[..|m| - 1];
    if FetchAll(init, search).Err? {
      FetchCallsEndAtError(init, search);
    }
  }

  lemma QueriesSnoc(m: Config.Mapping)
    requires m != []
    ensures Queries(m) == Queries(m[..|m| - 1]) + [SearchRead(m[|m| - 1].0)]
  {
  }

  // ---------------- push ----------------

  /** The push of one table entry reports success. */
  predicate Pushed(put: Put, e: StockEntry) {
    WooCommerce.UpdateWooCommerceStock(put, e.wcId, e.qty)
  }

  /** `total_updated` after the push loop has run over `es`. */
  function CountUpdated(es: seq<StockEntry>, put: Put): (n: nat)
    ensures n <= |es|
  {
    if es == [] then 0
    else CountUpdated(es[..|es| - 1], put) + (if Pushed(put, es[|es| - 1]) then 1 else 0)
  }

  /** `total_errors` after the push loop has run over `es`. */
  function CountErrors(es: seq<StockEntry>, put: Put): (n: nat)
    ensures n <= |es|
  {
    if es == [] then 0
    else CountErrors(es[..|es| - 1], put) + (if Pushed(put, es[|es| - 1]) then 0 else 1)
  }

  /** The PUT requests of the push loop: one per table entry, in order. */
  function PushCalls(es: seq<StockEntry>): (q: seq<Call>)
    ensures |q| == |es|
    ensures forall k :: 0 <= k < |es| ==> q[k] == Put(es[k].wcId, WooCommerce.BuildPayload(es[k].qty))
  {
    seq(|es|, k requires 0 <= k < |es| => Put(es[k].wcId, WooCommerce.BuildPayload(es[k].qty)))
  }

  /** One more turn of the push loop, stated on prefixes of the table. */
  lemma PushPrefixStep(es: seq<StockEntry>, i: nat, put: Put)
    requires i < |es|
    ensures CountUpdated(es[..i + 1], put) == CountUpdated(es[..i], put) + (if Pushed(put, es[i]) then 1 else 0)
    ensures CountErrors(es[..i + 1], put) == CountErrors(es[..i], put) + (if Pushed(put, es[i]) then 0 else 1)
    ensures PushCalls(es[..i + 1]) == PushCalls(es[..i]) + [Put(es[i].wcId, WooCommerce.BuildPayload(es[i].qty))]
  {
    assert es[..i + 1][..i] == es[..i];
  }

  /** Every pushed entry is counted once: as updated or as an error. */
  lemma {:induction false} CountsAddUp(es: seq<StockEntry>, put: Put)
    ensures CountUpdated(es, put) + CountErrors(es, put) == |es|
  {
    if es != [] {
      CountsAddUp(es[..|es| - 1], put);
    }
  }

  /** The counters add over consecutive runs of the loop. */
  lemma {:induction false} CountsAppend(a: seq<StockEntry>, b: seq<StockEntry>, put: Put)
    ensures CountUpdated(a + b, put) == CountUpdated(a, put) + CountUpdated(b, put)
    ensures CountErrors(a + b, put) == CountErrors(a, put) + CountErrors(b, put)
    decreases |b|
  {
    if b == [] {
      assert a + b == a;
    } else {
      assert (a + b)[..|a + b| - 1] == a + b[..|b| - 1];
      assert (a + b)[|a + b| - 1] == b[|b| - 1];
      CountsAppend(a, b[..|b| - 1], put);
    }
  }

  /** `total_updated` is all of the table exactly when every push
      succeeded, and nothing exactly when every push failed. */
  lemma {:induction false} CountsExtremes(es: seq<StockEntry>, put: Put)
    ensures CountUpdated(es, put) == |es| <==> forall k :: 0 <= k < |es| ==> Pushed(put, es[k])
    ensures CountUpdated(es, put) == 0 <==> forall k :: 0 <= k < |es| ==> !Pushed(put, es[k])
  {
    CountsAddUp(es, put);
    if es != [] {
      var init := es[..|es| - 1];
      CountsExtremes(init, put);
      CountsAddUp(init, put);
      assert forall k :: 0 <= k < |init| ==> init[k] == es[k];
    }
  }

  // ---------------- sync_stock and run ----------------

  /** How `sync_stock` ends: nothing fetched, a mapping value that is not an
      integer, or the push loop completed with its two counters. */
  datatype SyncReport =
    | NothingToSync
    | BadMappingValue(error: FetchError)
    | Completed(updated: nat, errors: nat)

  function SyncStockReport(m: Config.Mapping, search: Search, put: Put): (r: SyncReport)
    ensures r.Completed? ==> 0 < r.updated + r.errors && r.updated <= |m| && r.errors <= |m|
  {
    match FetchAll(m, search)
    case Err(e) => BadMappingValue(e)
    case Ok(es) =>
      if es == [] then NothingToSync
      else Completed(CountUpdated(es, put), CountErrors(es, put))
  }

  /** The Boolean `sync_stock` returns. */
  function SyncStock(m: Config.Mapping, search: Search, put: Put): (ok: bool)
    ensures ok ==> m != []
  {
    SyncStockReport(m, search, put).Completed?
  }

  /** The remote calls of `sync_stock`: the lookups, then one PUT per
      fetched entry when the fetch succeeded. */
  function SyncCalls(m: Config.Mapping, search: Search): (r: seq<Call>)
    ensures |r| <= 2 * |m|
  {
    FetchCalls(m, search) + PushedCalls(m, search)
  }

  /** The PUT requests of `sync_stock`: one per fetched entry, none when
      the fetch failed. */
  function PushedCalls(m: Config.Mapping, search: Search): (r: seq<Call>)
    ensures |r| <= |m|
  {
    match FetchAll(m, search)
    case Ok(es) => PushCalls(es)
    case Err(_) => []
  }

  /** The Boolean `run` returns. */
  function Run(c: Odoo.Credentials, m: Config.Mapping, authenticate: Odoo.Credentials -> Odoo.AuthReply,
               search: Search, put: Put): (ok: bool)
    ensures ok ==> Odoo.AllSet(c) && m != []
  {
    Odoo.Connect(c, authenticate).Some? && SyncStock(m, search, put)
  }

  /** The remote calls of `run`. */
  function RunCalls(c: Odoo.Credentials, m: Config.Mapping, authenticate: Odoo.Credentials -> Odoo.AuthReply,
                    search: Search): (r: seq<Call>)
    ensures r == [] <==> !Odoo.AllSet(c)
    ensures r != [] ==> r[0] == Authenticate(c)
  {
    (if Odoo.AllSet(c) then [Authenticate(c)] else [])
    + (if Odoo.Connect(c, authenticate).Some? then SyncCalls(m, search) else [])
  }

  lemma AppendAssoc(a: seq<Call>, b: seq<Call>, c: seq<Call>, d: seq<Call>)
    ensures a + b + c + d == a + (b + c + d)
  {
  }

  /** When the connection fails, the run's only call is the handshake, made
      when no credential is missing. */
  lemma RunCallsWhenNotConnected(c: Odoo.Credentials, m: Config.Mapping, authenticate: Odoo.Credentials -> Odoo.AuthReply,
                                 search: Search)
    requires Odoo.Connect(c, authenticate).None?
    ensures RunCalls(c, m, authenticate, search) == if Odoo.AllSet(c) then [Authenticate(c)] else []
  {
  }

  /** A connected run's calls: the handshake, the lookups, the pushes. */
  lemma RunCallsSplit(c: Odoo.Credentials, m: Config.Mapping, authenticate: Odoo.Credentials -> Odoo.AuthReply,
                      search: Search)
    requires Odoo.Connect(c, authenticate).Some?
    ensures RunCalls(c, m, authenticate, search) == [Authenticate(c)] + FetchCalls(m, search) + PushedCalls(m, search)
  {
  }

  /** `sync_stock` returns true exactly when something was fetched and every
      fetched entry's id reads as an integer, whatever the pushes return;
      an empty fetch gives false. On completion its counters add up to the
      number of fetched entries, so barcodes skipped at fetch are in
      neither, and `total_updated` counts the successful pushes. */
  lemma SyncStockOutcome(m: Config.Mapping, search: Search, put: Put)
    ensures SyncStock(m, search, put) <==> Hits(m, search) != [] && AllIdsParse(Hits(m, search))
    ensures SyncStockReport(m, search, put) == NothingToSync <==> Hits(m, search) == []
    ensures SyncStockReport(m, search, put).BadMappingValue? <==> !AllIdsParse(Hits(m, search))
    ensures SyncStockReport(m, search, put).Completed? ==>
              var r, es := SyncStockReport(m, search, put), FetchAll(m, search).value;
              && r.updated + r.errors == |Hits(m, search)|
              && r.updated == CountUpdated(es, put)
              && (r.errors == 0 <==> forall k :: 0 <= k < |es| ==> Pushed(put, es[k]))
  {
    FetchAllOutcome(m, search);
    if FetchAll(m, search).Ok? {
      var es := FetchAll(m, search).value;
      CountsAddUp(es, put);
      CountsExtremes(es, put);
    }
  }

  /** The pushes decide the counters but never the result of `sync_stock`. */
  lemma SyncStockIgnoresPushOutcomes(m: Config.Mapping, search: Search, put1: Put, put2: Put)
    ensures SyncStock(m, search, put1) == SyncStock(m, search, put2)
  {
  }

  /** `run` fails without looking anything up or pushing anything when the
      connection fails, and without any remote call at all when a
      credential is missing; otherwise its result is that of `sync_stock`. */
  lemma RunOutcome(c: Odoo.Credentials, m: Config.Mapping, authenticate: Odoo.Credentials -> Odoo.AuthReply,
                   search: Search, put: Put)
    ensures Odoo.Connect(c, authenticate).None? ==>
              && !Run(c, m, authenticate, search, put)
              && forall k :: 0 <= k < |RunCalls(c, m, authenticate, search)| ==> RunCalls(c, m, authenticate, search)[k].Authenticate?
    ensures Odoo.MissingVariables(c) != [] ==> RunCalls(c, m, authenticate, search) == []
    ensures Run(c, m, authenticate, search, put) <==>
              Odoo.Connect(c, authenticate).Some? && Hits(m, search) != [] && AllIdsParse(Hits(m, search))
  {
    SyncStockOutcome(m, search, put);
    Odoo.ConnectRules(c, authenticate);
    Odoo.MissingVariablesExact(c);
  }

  /** A run that connects and fetches without error authenticates once,
      looks every barcode up once in mapping order, and then pushes every
      fetched entry once, in the same order. */
  lemma RunCallsWhenConnected(c: Odoo.Credentials, m: Config.Mapping, authenticate: Odoo.Credentials -> Odoo.AuthReply,
                              search: Search)
    requires Odoo.Connect(c, authenticate).Some?
    requires FetchAll(m, search).Ok?
    ensures RunCalls(c, m, authenticate, search) == [Authenticate(c)] + Queries(m) + PushCalls(FetchAll(m, search).value)
  {
    RunCallsSplit(c, m, authenticate, search);
    FetchCallsInOrder(m, search);
    assert PushedCalls(m, search) == PushCalls(FetchAll(m, search).value);
  }
}
