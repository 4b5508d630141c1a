/**
 * The Odoo side: the credential check and session rule of `connect_odoo`,
 * and how one `search_read` reply for a barcode becomes a product record.
 * The XML-RPC calls themselves are oracles: `authenticate` gives an
 * `AuthReply`, `search_read` a `SearchReply`.
 */
module Odoo {
  import opened Wrappers
  import Config

  /** The four values `connect_odoo` needs. */
  datatype Credentials = Credentials(
    url: Option<string>,
    db: Option<string>,
    username: Option<string>,
    password: Option<string>)

  /** The credentials the constructor takes from the environment; the user
      name is ODOO_USERNAME, or ODOO_USER when that is unset or empty. */
  function CredentialsFromEnv(env: Config.Env): (c: Credentials)
    ensures c.username == Config.Or(env.odooUsername, env.odooUser)
    ensures c.url == env.odooUrl && c.db == env.odooDb && c.password == env.odooPassword
  {
    Credentials(env.odooUrl, env.odooDb, Config.Or(env.odooUsername, env.odooUser), env.odooPassword)
  }

  /** The names the missing-variables error reports, in its fixed order. */
  const CredentialNames: seq<string> := ["ODOO_URL", "ODOO_DB", "ODOO_USERNAME/ODOO_USER", "ODOO_PASSWORD"]

  function CredentialValues(c: Credentials): (vs: seq<Option<string>>)
    ensures |vs| == |CredentialNames|
  {
    [c.url, c.db, c.username, c.password]
  }

  /** Of `names`, those whose value is empty or unset, in their order. */
  function Unset(names: seq<string>, values: seq<Option<string>>): (r: seq<string>)
    requires |names| == |values|
    ensures |r| <= |names|
  {
    if names == [] then []
    else (if Config.Truthy(values[0]) then [] else [names[0]]) + Unset(names[1..], values[1..])
  }

  /** Every credential is set and non-empty, so that none is missing. */
  predicate AllSet(c: Credentials) {
    Config.Truthy(c.url) && Config.Truthy(c.db) && Config.Truthy(c.username) && Config.Truthy(c.password)
  }

  /** The list `connect_odoo` reports as missing. */
  function MissingVariables(c: Credentials): (r: seq<string>)
    ensures |r| <= |CredentialNames|
  {
    Unset(CredentialNames, CredentialValues(c))
  }

  /** `a` is `b` with some elements left out, the rest in their order. */
  predicate IsSubsequence(a: seq<string>, b: seq<string>) {
    if a == [] then true
    else if b == [] then false
    else if a[0] == b[0] then IsSubsequence(a[1..], b[1..])
    else IsSubsequence(a, b[1..])
  }

  lemma {:induction false} UnsetSelects(names: seq<string>, values: seq<Option<string>>)
    requires |names| == |values|
    requires forall i, j :: 0 <= i < j < |names| ==> names[i] != names[j]
    ensures IsSubsequence(Unset(names, values), names)
    ensures forall i :: 0 <= i < |names| ==> (names[i] in Unset(names, values) <==> !Config.Truthy(values[i]))
  {
    if names != [] {
      var rest := Unset(names[1..], values[1..]);
      UnsetSelects(names[1..], values[1..]);
      SubsequenceMembers(rest, names[1..]);
      assert forall k :: 0 <= k < |names[1..]| ==> names[1..][k] != names[0];
      if Config.Truthy(values[0]) {
        assert Unset(names, values) == rest;
        if rest != [] {
          assert rest[0] in rest;
          assert rest[0] != names[0];
        }
      } else {
        assert Unset(names, values) == [names[0]] + rest;
        assert ([names[0]] + rest)[1..] == rest;
      }
      forall i | 0 <= i < |names|
        ensures names[i] in Unset(names, values) <==> !Config.Truthy(values[i])
      {
        if i > 0 {
          assert names[i] == names[1..][i - 1] && values[i] == values[1..][i - 1];
          assert names[i] != names[0];
        } else {
          assert names[0] !in rest;
        }
      }
    }
  }

  lemma {:induction false} SubsequenceMembers(a: seq<string>, b: seq<string>)
    requires IsSubsequence(a, b)
    ensures forall x :: x in a ==> x in b
  {
    if a != [] && b != [] {
      if a[0] == b[0] {
        SubsequenceMembers(a[1..], b[1..]);
        assert forall x :: x in a ==> x == a[0] || x in a[1..];
      } else {
        SubsequenceMembers(a, b[1..]);
      }
    }
  }

  /** The missing list holds exactly the credentials that are empty or
      unset, in the order URL, DB, USERNAME, PASSWORD. */
  lemma MissingVariablesExact(c: Credentials)
    ensures IsSubsequence(MissingVariables(c), CredentialNames)
    ensures forall i :: 0 <= i < 4 ==>
              (CredentialNames[i] in MissingVariables(c) <==> !Config.Truthy(CredentialValues(c)[i]))
    ensures MissingVariables(c) == [] <==> AllSet(c)
  {
    UnsetSelects(CredentialNames, CredentialValues(c));
    var m := MissingVariables(c);
    if m == [] {
      forall i | 0 <= i < 4 ensures Config.Truthy(CredentialValues(c)[i]) {
        assert CredentialNames[i] !in m;
      }
      assert Config.Truthy(CredentialValues(c)[0]) && Config.Truthy(CredentialValues(c)[1]);
      assert Config.Truthy(CredentialValues(c)[2]) && Config.Truthy(CredentialValues(c)[3]);
    } else {
      SubsequenceMembers(m, CredentialNames);
      assert m[0] in CredentialNames;
    }
  }

  /** The missing list is built one check at a time, in the fixed order. */
  lemma MissingVariablesInOrder(c: Credentials)
    ensures MissingVariables(c) ==
              (if Config.Truthy(c.url) then [] else ["ODOO_URL"])
              + (if Config.Truthy(c.db) then [] else ["ODOO_DB"])
              + (if Config.Truthy(c.username) then [] else ["ODOO_USERNAME/ODOO_USER"])
              + (if Config.Truthy(c.password) then [] else ["ODOO_PASSWORD"])
    ensures MissingVariables(c) == [] <==> AllSet(c)
  {
    var ns, vs := CredentialNames, CredentialValues(c);
    assert ns[3..][1..] == [] && vs[3..][1..] == [];
    assert ns[2..][1..] == ns[3..] && vs[2..][1..] == vs[3..];
    assert ns[1..][1..] == ns[2..] && vs[1..][1..] == vs[2..];
    assert Unset(ns[3..], vs[3..]) == (if Config.Truthy(c.password) then [] else ["ODOO_PASSWORD"]);
    assert Unset(ns[2..], vs[2..]) == (if Config.Truthy(c.username) then [] else ["ODOO_USERNAME/ODOO_USER"]) + Unset(ns[3..], vs[3..]);
    assert Unset(ns[1..], vs[1..]) == (if Config.Truthy(c.db) then [] else ["ODOO_DB"]) + Unset(ns[2..], vs[2..]);
  }

  /** What the handshake with the Odoo common endpoint yields: the uid that
      `authenticate` returned (0 standing for Odoo's False), or a fault
      raised by `version` or `authenticate`. */
  datatype AuthReply = Uid(uid: int) | HandshakeFault

  /** The session uid `connect_odoo` ends with, or `None` when it fails. */
  function Connect(c: Credentials, authenticate: Credentials -> AuthReply): (r: Option<int>)
    ensures r.Some? <==> AllSet(c) && authenticate(c).Uid? && authenticate(c).uid != 0
    ensures r.Some? ==> r.value == authenticate(c).uid
  {
    if !AllSet(c) then None
    else match authenticate(c)
      case HandshakeFault => None
      case Uid(uid) => if uid == 0 then None else Some(uid)
  }

  /** Connecting succeeds exactly when every credential is set and the
      server hands back a truthy uid, which becomes the session uid; the
      server is only asked when no credential is missing. */
  lemma ConnectRules(c: Credentials, authenticate: Credentials -> AuthReply)
    ensures Connect(c, authenticate).Some? <==>
              MissingVariables(c) == [] && authenticate(c).Uid? && authenticate(c).uid != 0
    ensures Connect(c, authenticate).Some? ==> Connect(c, authenticate).value == authenticate(c).uid
    ensures MissingVariables(c) != [] ==> forall other :: Connect(c, other).None?
  {
    MissingVariablesExact(c);
  }

  /** One row of `product.product` as `search_read` returns it. */
  datatype OdooRow = OdooRow(id: int, name: string, barcode: string, qtyAvailable: Option<real>)

  /** The reply to a `search_read` by barcode with limit 1: rows, or a
      fault raised by the call. */
  datatype SearchReply = Rows(rows: seq<OdooRow>) | RpcFault

  /** The product record `get_product_stock_by_barcode` returns. */
  datatype ProductInfo = ProductInfo(id: int, name: string, barcode: string, qtyAvailable: real)

  /** A reply with at least one row gives the first row, a missing quantity
      read as 0; an empty reply or a fault gives no product. */
  function ProductFromReply(reply: SearchReply): (p: Option<ProductInfo>)
    ensures p.Some? <==> reply.Rows? && |reply.rows| > 0
    ensures p.Some? ==> var row := reply.rows[0];
              p.value.id == row.id && p.value.name == row.name && p.value.barcode == row.barcode
              && p.value.qtyAvailable == row.qtyAvailable.GetOr(0.0)
  {
    match reply
    case RpcFault => None
    case Rows(rows) =>
      if rows == [] then None
      else
        var row := rows[0];
        Some(ProductInfo(row.id, row.name, row.barcode, row.qtyAvailable.GetOr(0.0)))
  }

  /** `get_product_stock_by_barcode`: one `search_read` for the barcode. */
  function ProductStockByBarcode(search: string -> SearchReply, barcode: string): (r: Option<ProductInfo>)
    ensures r.Some? <==> search(barcode).Rows? && search(barcode).rows != []
    ensures r.Some? ==> r.value.name == search(barcode).rows[0].name
                        && r.value.qtyAvailable == search(barcode).rows[0].qtyAvailable.GetOr(0.0)
  {
    ProductFromReply(search(barcode))
  }
}
