/**
 * Whole runs on small mappings, with the remote calls fixed by their
 * replies: a single hit that is pushed, a connection refused by the server,
 * and a miss beside a hit.
 */
module Scenarios {
  import opened Wrappers
  import PyInt
  import Config
  import Odoo
  import WooCommerce
  import Reconcile

  const Widget := Odoo.OdooRow(1, "Widget", "ABC123", Some(12.0))

  /** The fetch step for the Widget entry adds its table entry. */
  lemma FetchedWidget(acc: seq<Reconcile.StockEntry>, entry: (string, string), search: Reconcile.Search)
    requires entry == ("ABC123", "55")
    requires search("ABC123") == Odoo.Rows([Widget])
    ensures Reconcile.FetchStep(acc, entry, search) == Ok(acc + [Reconcile.StockEntry("ABC123", "Widget", 12.0, 55)])
  {
    PyInt.ParseIntPlainExample();
    assert Odoo.ProductStockByBarcode(search, entry.0) == Some(Odoo.ProductInfo(1, "Widget", "ABC123", 12.0));
  }

  const WidgetEntry := Reconcile.StockEntry("ABC123", "Widget", 12.0, 55)

  /** Pushing the Widget entry alone, answered with `status`: one update
      when the status is not an error, one error otherwise. */
  lemma PushedWidget(put: Reconcile.Put, status: int)
    requires put(55, WooCommerce.BuildPayload(12.0)) == WooCommerce.Response(status)
    ensures Reconcile.CountUpdated([WidgetEntry], put) == if WooCommerce.IsErrorStatus(status) then 0 else 1
    ensures Reconcile.CountErrors([WidgetEntry], put) == if WooCommerce.IsErrorStatus(status) then 1 else 0
  {
    assert Reconcile.Pushed(put, WidgetEntry) <==> !WooCommerce.IsErrorStatus(status);
    assert [WidgetEntry][..0] == [];
  }

  /** Mapping {"ABC123": "55"}; Odoo has 12 units of Widget; WooCommerce
      accepts the update. One product is updated, none fails, the run
      succeeds, and the one PUT carries 12 units, in stock. */
  lemma SingleHitIsPushed(c: Odoo.Credentials, authenticate: Odoo.Credentials -> Odoo.AuthReply,
                          search: Reconcile.Search, put: Reconcile.Put)
    requires Odoo.Connect(c, authenticate).Some?
    requires search("ABC123") == Odoo.Rows([Widget])
    requires put(55, WooCommerce.BuildPayload(12.0)) == WooCommerce.Response(200)
    ensures Reconcile.SyncStockReport([("ABC123", "55")], search, put) == Reconcile.Completed(1, 0)
    ensures Reconcile.Run(c, [("ABC123", "55")], authenticate, search, put)
    ensures Reconcile.PushedCalls([("ABC123", "55")], search)
              == [Reconcile.Put(55, WooCommerce.Payload(12, true, WooCommerce.InStock))]
  {
    var m := [("ABC123", "55")];
    assert m[..0] == [];
    FetchedWidget([], m[0], search);
    Reconcile.FetchAllPrefixStep(m, 0, search);
    assert m[..1] == m && [] + [WidgetEntry] == [WidgetEntry];
    PushedWidget(put, 200);
    assert WooCommerce.BuildPayload(12.0) == WooCommerce.Payload(12, true, WooCommerce.InStock);
  }

  /** The same mapping, but WooCommerce answers 404: the push counts as an
      error, not an update, and `sync_stock` still reports success. */
  lemma NotFoundIsCountedAsError(c: Odoo.Credentials, authenticate: Odoo.Credentials -> Odoo.AuthReply,
                                 search: Reconcile.Search, put: Reconcile.Put)
    requires Odoo.Connect(c, authenticate).Some?
    requires search("ABC123") == Odoo.Rows([Widget])
    requires put(55, WooCommerce.BuildPayload(12.0)) == WooCommerce.Response(404)
    ensures Reconcile.SyncStockReport([("ABC123", "55")], search, put) == Reconcile.Completed(0, 1)
    ensures Reconcile.Run(c, [("ABC123", "55")], authenticate, search, put)
  {
    var m := [("ABC123", "55")];
    assert m[..0] == [];
    FetchedWidget([], m[0], search);
    Reconcile.FetchAllPrefixStep(m, 0, search);
    assert m[..1] == m && [] + [WidgetEntry] == [WidgetEntry];
    PushedWidget(put, 404);
  }

  /** The server refuses the credentials (uid False): the run fails, and
      its only remote call is the handshake, whatever the mapping holds. */
  lemma RefusedConnectionStopsTheRun(c: Odoo.Credentials, m: Config.Mapping,
                                     authenticate: Odoo.Credentials -> Odoo.AuthReply,
                                     search: Reconcile.Search, put: Reconcile.Put)
    requires Odoo.AllSet(c)
    requires authenticate(c) == Odoo.Uid(0)
    ensures !Reconcile.Run(c, m, authenticate, search, put)
    ensures Reconcile.RunCalls(c, m, authenticate, search) == [Reconcile.Authenticate(c)]
  {
    Reconcile.RunCallsWhenNotConnected(c, m, authenticate, search);
  }

  /** Mapping {"ABC123": "55", "XYZ789": "56"} where Odoo does not know
      XYZ789: the miss is skipped before the push phase, so one product is
      updated and no error is counted. */
  lemma MissIsSkipped(c: Odoo.Credentials, authenticate: Odoo.Credentials -> Odoo.AuthReply,
                      search: Reconcile.Search, put: Reconcile.Put)
    requires Odoo.Connect(c, authenticate).Some?
    requires search("ABC123") == Odoo.Rows([Widget])
    requires search("XYZ789") == Odoo.Rows([])
    requires put(55, WooCommerce.BuildPayload(12.0)) == WooCommerce.Response(200)
    ensures Reconcile.SyncStockReport([("ABC123", "55"), ("XYZ789", "56")], search, put) == Reconcile.Completed(1, 0)
    ensures Reconcile.Run(c, [("ABC123", "55"), ("XYZ789", "56")], authenticate, search, put)
  {
    var m := [("ABC123", "55"), ("XYZ789", "56")];
    assert m[..0] == [];
    FetchedWidget([], m[0], search);
    Reconcile.FetchAllPrefixStep(m, 0, search);
    assert [] + [WidgetEntry] == [WidgetEntry];
    Reconcile.FetchAllPrefixStep(m, 1, search);
    assert Reconcile.FetchStep([WidgetEntry], m[1], search) == Ok([WidgetEntry]);
    assert m[..2] == m;
    PushedWidget(put, 200);
  }
}
