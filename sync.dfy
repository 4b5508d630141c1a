/**
 * The `OdooWooCommerceStockSync` object: its configuration and connection
 * fields, and the methods that change them or loop over the mapping. Each
 * method is proved to compute the function of module Reconcile (or Odoo)
 * that specifies it, so the lemmas proved there hold of the object. The
 * ghost field `calls` records the remote calls made so far.
 */
module Sync {
  import opened Wrappers
  import PyInt
  import Config
  import Odoo
  import WooCommerce
  import Reconcile

  class OdooWooCommerceStockSync {
    var odooUrl: Option<string>
    var odooDb: Option<string>
    var odooUsername: Option<string>
    var odooPassword: Option<string>
    var odooLocationId: int
    var productMapping: Config.Mapping
    /** The session uid; `None` until a connection succeeds. */
    var odooUid: Option<int>
    /** The object endpoint the session talks to; `None` until connected. */
    var odooModels: Option<string>
    ghost var calls: seq<Reconcile.Call>

    ghost predicate Valid()
      reads this
    {
      && Config.DistinctKeys(productMapping)
      && (odooModels.Some? <==> odooUid.Some?)
    }

    function Credentials(): (c: Odoo.Credentials)
      reads this`odooUrl, this`odooDb, this`odooUsername, this`odooPassword
    {
      Odoo.Credentials(odooUrl, odooDb, odooUsername, odooPassword)
    }

    /** The lookup as this object can make it: before a connection the
        object endpoint is unset, the call raises, and every barcode comes
        back as a fault. */
    function Session(search: Reconcile.Search): (r: Reconcile.Search)
      reads this`odooModels
      ensures odooModels.Some? ==> r == search
      ensures odooModels.None? ==> forall b :: r(b) == Odoo.RpcFault
    {
      if odooModels.Some? then search else (_ => Odoo.RpcFault)
    }

    /** `__init__`: reads the configuration and loads the mapping. */
    constructor (env: Config.Env, source: Config.MappingSource)
      requires source.Loaded? ==> Config.DistinctKeys(source.entries)
      ensures Valid()
      ensures Credentials() == Odoo.CredentialsFromEnv(env)
      ensures odooLocationId == Config.LocationId(env.odooLocationId)
      ensures productMapping == Config.LoadProductMapping(source)
      ensures odooUid == None && odooModels == None
      ensures calls == []
    {
      odooUrl := env.odooUrl;
      odooDb := env.odooDb;
      odooUsername := Config.Or(env.odooUsername, env.odooUser);
      odooPassword := env.odooPassword;
      odooLocationId := Config.LocationId(env.odooLocationId);
      productMapping := Config.LoadProductMapping(source);
      odooUid := None;
      odooModels := None;
      calls := [];
    }

    /** `connect_odoo`. Besides its result it hands back the list of
        missing variables that its error message reports. */
    method ConnectOdoo(authenticate: Odoo.Credentials -> Odoo.AuthReply) returns (ok: bool, missing: seq<string>)
      requires Valid()
      modifies this`odooUid, this`odooModels, this`calls
      ensures Valid()
      ensures missing == Odoo.MissingVariables(Credentials())
      ensures ok == Odoo.Connect(Credentials(), authenticate).Some?
      ensures ok ==> odooUid == Odoo.Connect(Credentials(), authenticate)
      ensures ok ==> odooModels == Some(odooUrl.value + "/xmlrpc/2/object")
      ensures !ok ==> odooUid == old(odooUid) && odooModels == old(odooModels)
      ensures calls == old(calls) + if Odoo.AllSet(Credentials()) then [Reconcile.Authenticate(Credentials())] else []
    {
      ghost var c := Credentials();
      missing := [];
      if !Config.Truthy(odooUrl) { missing := missing + ["ODOO_URL"]; }
      ghost var afterUrl := missing;
      if !Config.Truthy(odooDb) { missing := missing + ["ODOO_DB"]; }
      if !Config.Truthy(odooUsername) { missing := missing + ["ODOO_USERNAME/ODOO_USER"]; }
      if !Config.Truthy(odooPassword) { missing := missing + ["ODOO_PASSWORD"]; }
      Odoo.MissingVariablesInOrder(c);
      assert afterUrl == if Config.Truthy(c.url) then [] else ["ODOO_URL"];
      if missing != [] {
        ok := false;
        return;
      }
      calls := calls + [Reconcile.Authenticate(Credentials())];
      var reply := authenticate(Credentials());
      match reply
      case HandshakeFault =>
        ok := false;
      case Uid(uid) =>
        if uid == 0 {
          ok := false;
        } else {
          odooUid := Some(uid);
          odooModels := Some(odooUrl.value + "/xmlrpc/2/object");
          ok := true;
        }
    }

    /** `get_all_products_stock`: one lookup per mapping entry, in mapping
        order, collecting the hits; `Err` is the ValueError of `int(wc_id)`,
        which leaves the loop at once. */
    method GetAllProductsStock(search: Reconcile.Search) returns (r: Result<seq<Reconcile.StockEntry>, Reconcile.FetchError>)
      requires Valid()
      modifies this`calls
      ensures r == Reconcile.FetchAll(productMapping, Session(search))
      ensures odooModels.None? ==> r == Ok([])
      ensures r.Ok? ==> forall i, j :: 0 <= i < j < |r.value| ==> r.value[i].barcode != r.value[j].barcode
      ensures calls == old(calls) + if odooModels.Some? then Reconcile.FetchCalls(productMapping, Session(search)) else []
    {
      var lookup := Session(search);
      var m := productMapping;
      if odooModels.None? {
        Reconcile.FetchAllWhenEveryLookupFaults(m, lookup);
      }
      ghost var live := odooModels.Some?;
      /** The lookups made so far. */
      ghost var trace: seq<Reconcile.Call> := [];
      var stock: seq<Reconcile.StockEntry> := [];
      var i := 0;
      while i < |m|
        invariant 0 <= i <= |m|
        invariant Reconcile.FetchAll(m[..i], lookup) == Ok(stock)
        invariant trace == Reconcile.FetchCalls(m[..i], lookup)
        invariant calls == old(calls)
      {
        var (barcode, wcId) := m[i];
        Reconcile.FetchAllPrefixStep(m, i, lookup);
        trace := trace + [Reconcile.SearchRead(barcode)];
        var product := Odoo.ProductStockByBarcode(lookup, barcode);
        if product.Some? {
          var id := PyInt.ParseInt(wcId);
          if id.None? {
            Reconcile.FetchAllStopsAtError(m, i + 1, lookup);
            if live { calls := calls + trace; }
            return Err(Reconcile.BadWcId(barcode, wcId));
          }
          stock := stock + [Reconcile.StockEntry(barcode, product.value.name, product.value.qtyAvailable, id.value)];
        }
        i := i + 1;
      }
      assert m[..i] == m;
      if live { calls := calls + trace; }
      r := Ok(stock);
      Reconcile.FetchedBarcodes(m, lookup);
    }

    /** `sync_stock`: fetch, then push every fetched entry once, in order,
        counting successes and failures. Besides its result it hands back
        the two counters, which are 0 when it returns early. */
    method SyncStock(search: Reconcile.Search, put: Reconcile.Put) returns (ok: bool, totalUpdated: nat, totalErrors: nat)
      requires Valid()
      modifies this`calls
      ensures var report := Reconcile.SyncStockReport(productMapping, Session(search), put);
              && ok == report.Completed?
              && (ok ==> totalUpdated == report.updated && totalErrors == report.errors)
              && (!ok ==> totalUpdated == 0 && totalErrors == 0)
      ensures calls == old(calls)
                       + (if odooModels.Some? then Reconcile.FetchCalls(productMapping, Session(search)) else [])
                       + Reconcile.PushedCalls(productMapping, Session(search))
    {
      totalUpdated, totalErrors := 0, 0;
      var fetched := GetAllProductsStock(search);
      if fetched.Err? {
        ok := false;
        return;
      }
      var stock := fetched.value;
      if stock == [] {
        ok := false;
        return;
      }
      /** The PUT requests made so far. */
      ghost var trace: seq<Reconcile.Call> := [];
      var i := 0;
      while i < |stock|
        invariant 0 <= i <= |stock|
        invariant totalUpdated == Reconcile.CountUpdated(stock[..i], put)
        invariant totalErrors == Reconcile.CountErrors(stock[..i], put)
        invariant trace == Reconcile.PushCalls(stock[..i])
        invariant calls == old(calls) + (if odooModels.Some? then Reconcile.FetchCalls(productMapping, Session(search)) else [])
      {
        var e := stock[i];
        Reconcile.PushPrefixStep(stock, i, put);
        trace := trace + [Reconcile.Put(e.wcId, WooCommerce.BuildPayload(e.qty))];
        if WooCommerce.UpdateWooCommerceStock(put, e.wcId, e.qty) {
          totalUpdated := totalUpdated + 1;
        } else {
          totalErrors := totalErrors + 1;
        }
        i := i + 1;
      }
      assert stock[..i] == stock;
      calls := calls + trace;
      ok := true;
    }

    /** `run`: connect, and synchronize only when that succeeded. */
    method Run(authenticate: Odoo.Credentials -> Odoo.AuthReply, search: Reconcile.Search, put: Reconcile.Put)
      returns (ok: bool)
      requires Valid()
      modifies this`odooUid, this`odooModels, this`calls
      ensures Valid()
      ensures ok == Reconcile.Run(Credentials(), productMapping, authenticate, search, put)
      ensures Odoo.Connect(Credentials(), authenticate).Some? ==>
                odooUid == Odoo.Connect(Credentials(), authenticate) && odooModels == Some(odooUrl.value + "/xmlrpc/2/object")
      ensures Odoo.Connect(Credentials(), authenticate).None? ==> odooUid == old(odooUid) && odooModels == old(odooModels)
      ensures calls == old(calls) + Reconcile.RunCalls(Credentials(), productMapping, authenticate, search)
    {
      ghost var c := Credentials();
      ghost var start := calls;
      var connected, missing := ConnectOdoo(authenticate);
      if !connected {
        Reconcile.RunCallsWhenNotConnected(c, productMapping, authenticate, search);
        return false;
      }
      Reconcile.RunCallsSplit(c, productMapping, authenticate, search);
      assert Session(search) == search;
      ghost var afterConnect := calls;
      var synced, updated, errors := SyncStock(search, put);
      ok := synced;
      ghost var fc, pc := Reconcile.FetchCalls(productMapping, search), Reconcile.PushedCalls(productMapping, search);
      Reconcile.AppendAssoc(start, [Reconcile.Authenticate(c)], fc, pc);
    }
  }

  /** The script's entry point: build the synchronizer, run it once, and
      exit with 0 on success and 1 on failure. */
  method ExitCode(env: Config.Env, source: Config.MappingSource,
                  authenticate: Odoo.Credentials -> Odoo.AuthReply,
                  search: Reconcile.Search, put: Reconcile.Put)
    returns (code: int)
    requires source.Loaded? ==> Config.DistinctKeys(source.entries)
    ensures code == 0 || code == 1
    ensures code == 0 <==>
              Reconcile.Run(Odoo.CredentialsFromEnv(env), Config.LoadProductMapping(source), authenticate, search, put)
  {
    var sync := new OdooWooCommerceStockSync(env, source);
    var success := sync.Run(authenticate, search, put);
    code := if success then 0 else 1;
  }
}
