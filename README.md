# Odoo → WooCommerce stock synchronization, modelled in Dafny

`sync.py` holds one class, `OdooWooCommerceStockSync`. Its constructor reads
the Odoo credentials and the stock-location id from the environment, and
loads a barcode → WooCommerce-id mapping from `product_mapping.json`.
`connect_odoo` checks the credentials and authenticates over XML-RPC.
`get_all_products_stock` looks up each mapped barcode in Odoo and builds a
table of `{name, qty, wc_id}` keyed by barcode. `sync_stock` pushes each
table entry to WooCommerce with one HTTP PUT and counts successes and
failures. `run` connects and then synchronizes, and the script exits with 0
or 1 depending on the result.

This project models that engine and proves what it does. The three remote
calls are oracles, passed in as function values:

- `authenticate`: credentials → a uid, where 0 stands for Odoo's `False`, or a fault;
- `search`: barcode → the rows returned by `search_read`, or a fault;
- `put`: (product id, payload) → an HTTP status, or a transport failure.

Modules:

- `Wrappers`: `Option` and `Result`.
- `PyInt`: the Python built-ins the script relies on:
  - `str.strip()`;
  - `int(str)`: surrounding space and TAB..CR, an optional sign, and single underscores between digits;
  - `int(x)` on a number: truncation toward zero.
- `Config`: the environment, the `a or b` of ODOO_USERNAME/ODOO_USER, the location-id rule, and the mapping with its empty-on-failure load.
- `Odoo`: the missing-variable list, the connection rule, and how one `search_read` reply becomes a product record.
- `WooCommerce`: the PUT payload, and how a reply turns into the Boolean that `update_woocommerce_stock` returns.
- `Reconcile`: the fetch loop, the push loop, the run-level result and the sequence of remote calls, all written as functions. The lemmas about them are proved here.
- `Sync`: the class itself. Its methods update its fields and run the loops, and each one is proved to compute the matching `Reconcile` or `Odoo` function. The ghost field `calls` records every remote call made, in order. The module-level method `ExitCode` stands for the script's main block.
- `Scenarios`: whole runs on small mappings with fixed replies.

Where the script does something one might not expect, the model follows the code:

- When nothing is fetched, `sync_stock` returns `False` (sync.py:195-197).
- A mapping value that is not an integer raises at `int(wc_id)` once its barcode is found in Odoo (sync.py:144). On a miss the value is never read. That ends the fetch loop at once, and `sync_stock` returns `False` (sync.py:224-228).
- The stock-location id is parsed and stored (sync.py:29-34), but the `search_read` call never uses it (sync.py:106-111). `qty_available` is therefore whatever Odoo reports, and not a figure for that location.
- A lookup miss is skipped and counted nowhere. A WooCommerce 404 counts as an error.
- Once the push loop has started, `sync_stock` returns `True` whatever the pushes answered.
- `str.strip()` and `int()` do not skip the same whitespace. `strip()` also removes the separators FS, GS, RS and US, which `int()` refuses on an ASCII string. The location id is read as `int(s.strip())` (sync.py:29-31), so a separator around it is accepted. A mapping value goes to `int(wc_id)` unstripped (sync.py:144), so there a separator makes the fetch fail.

`ConnectOdoo` and `SyncStock` hand back two values besides the Boolean:

- the missing-variable list that the exception message prints;
- the two counters that the summary prints.

That way their contracts can state them.

## Model

| member | source | states |
|---|---|---|
| Sync.OdooWooCommerceStockSync.constructor | sync.py:16-42 | It stores the credentials, with the user name as ODOO_USERNAME or else ODOO_USER, the parsed location id and the loaded mapping. No session exists yet. |
| Sync.OdooWooCommerceStockSync.ConnectOdoo | sync.py:66-98 | The missing list is exactly `Odoo.MissingVariables`. The result is `Odoo.Connect`. On success the uid and the object endpoint are set. On failure both stay unchanged. The handshake call is made only when every credential is set. |
| Sync.OdooWooCommerceStockSync.GetAllProductsStock | sync.py:129-150 | Its result is `Reconcile.FetchAll` of the mapping. A successful result holds each barcode once, as the barcode-keyed `products_stock` dict does. Without a session the result is empty. With a session it makes exactly the lookups `Reconcile.FetchCalls`; without one it makes none. |
| Sync.OdooWooCommerceStockSync.SyncStock | sync.py:185-228 | The result and the counters are those of `Reconcile.SyncStockReport`. The counters are 0 when it returns early. The calls are the lookups followed by one PUT per fetched entry. |
| Sync.OdooWooCommerceStockSync.Run | sync.py:231-243 | The result is `Reconcile.Run` and the calls are `Reconcile.RunCalls`. A successful connection sets the uid to the handshake's uid and the object endpoint to the URL's `/xmlrpc/2/object`. A failed connection leaves both unchanged. |
| Sync.ExitCode | sync.py:246-249 | The exit code is 0 or 1. It is 0 exactly when the run on the constructed configuration succeeds. |
| Config.Or | sync.py:25 | Python's `a or b`: the result is truthy iff either argument is. It is `a` when `a` is truthy and `b` otherwise, so the user name falls back to ODOO_USER's value. |
| PyInt.ParseInt | sync.py:144 | Python's `int(str)`, used at sync.py:31 and sync.py:144: a string it reads as a number is non-empty after trimming and ends in a digit. Its meaning is proved in `PyInt.ParseIntDecimalRoundTrip`, `PyInt.ParseIntOfStripped`, `PyInt.RejectsAdjacentUnderscores` and `PyInt.ParseIntRefusesSeparator`. |
| Sync.OdooWooCommerceStockSync.Session | sync.py:125-127 | The lookup as the object can make it (sync.py:106). Before a connection the object endpoint is unset, every call raises, and every barcode comes back as a fault, which sync.py:125-127 turns into no product. With a session it is the `search_read` oracle itself. |
| Config.LocationId | sync.py:28-34 | The location id is either the default 8 or the integer that `int()` reads from the stripped, set value. |
| Config.LocationIdIsParsedOrDefault | sync.py:28-34 | Unset gives 8. A set value gives `int()` of its `strip()`, or 8 when that raises. For a value without FS..US separators this is `int()` of the value itself. |
| Config.LocationIdOfBlank | sync.py:29-34 | An empty value gives 8, and so does one that is all whitespace as `strip()` sees it. |
| Config.LocationIdSeparatorExample | sync.py:29-31 | `"\x1c55"` gives 55: the separator is stripped before `int()` sees it. |
| Config.LocationIdUnsetExample | sync.py:29-34 | An unset value and `""` both give 8, and the fallback text `"8"` reads as the integer 8. |
| Config.LocationIdInvalidExample | sync.py:30-34 | `"abc"` gives 8. |
| Config.LocationIdPaddedExample | sync.py:29-31 | `" 12\n"` gives 12. |
| Config.LoadProductMapping | sync.py:49-63 | A missing or unreadable file gives the empty mapping. A loaded file gives its entries, in order. |
| Odoo.CredentialsFromEnv | sync.py:23-26 | URL, DB and password are copied from the environment, and the user name is `Or(ODOO_USERNAME, ODOO_USER)`. |
| Odoo.MissingVariablesExact | sync.py:73-78 | The missing list is an ordered sub-list of URL, DB, USERNAME, PASSWORD. A name is in it iff its value is unset or empty. The list is empty iff all four are set. |
| Odoo.MissingVariables | sync.py:73-77 | The missing list has at most four names. Its meaning is proved in `Odoo.MissingVariablesExact` and `Odoo.MissingVariablesInOrder`. |
| Odoo.MissingVariablesInOrder | sync.py:73-77 | The list is built by four checks in a fixed order, each adding its name when its value is falsy. |
| Odoo.UnsetSelects | sync.py:73-77 | For any list of distinct names, the falsy-value filter keeps the order and keeps exactly the names whose value is falsy. |
| Odoo.Connect | sync.py:73-94 | A session uid exists iff every credential is set and `authenticate` returns a non-zero uid, and then it is that uid. |
| Odoo.ConnectRules | sync.py:73-94 | Connection succeeds iff nothing is missing and `authenticate` returns a non-zero uid, and that uid becomes the session uid. When something is missing, what `authenticate` would return does not matter. |
| Odoo.ProductFromReply | sync.py:105-127 | A product exists iff the reply has a row. Its fields come from the first row, with a missing quantity read as 0. A fault or an empty reply gives none. |
| Odoo.ProductStockByBarcode | sync.py:100-127 | A product exists iff the `search_read` for the barcode returns at least one row. Its name and quantity are the first row's, with a missing quantity read as 0. |
| WooCommerce.BuildPayload | sync.py:162-166 | The quantity is truncated toward zero and `manage_stock` is on. The status is "instock" iff the untruncated quantity is > 0. |
| WooCommerce.StockStatusFollowsQuantity | sync.py:163-165 | A positive stock quantity implies "instock". "instock" with quantity 0 happens exactly for 0 < q < 1. "outofstock" implies a quantity ≤ 0. |
| WooCommerce.PayloadExamples | sync.py:162-166 | Payloads for 0, -1, 5, 0.5, 12.9 and -2.5, and the wire strings "instock" and "outofstock". |
| WooCommerce.StockStatus.Wire | sync.py:165 | The two stock states go on the wire as "instock" and "outofstock", one for each. |
| WooCommerce.Classify | sync.py:168-182 | A status outside 400-599 is success. 404 is not-found. Any other 4xx/5xx is an HTTP error that carries its status. A transport failure is its own outcome. Each of these holds in both directions. |
| WooCommerce.UpdateWooCommerceStock | sync.py:153-182 | One PUT of `BuildPayload(qty)` to the product. It returns true iff the reply is a response without an error status. |
| WooCommerce.UpdateSucceedsIff | sync.py:168-182 | When a reply arrives, the update gives true exactly when its status is not an error status (400 to 599). A 2xx reply gives true. A 404 and a transport failure both give false. |
| PyInt.Strip | sync.py:29 | The result is no longer than the input, and it neither starts nor ends with whitespace (space, TAB..CR, FS..US). |
| PyInt.TrimIsSlice | sync.py:29 | The result is a slice of the input with only whitespace cut off on either side. |
| PyInt.TrimPadded | sync.py:29 | Stripping a word padded with whitespace gives back the word, for `strip()`'s whitespace as for `int()`'s. |
| PyInt.TrimEmptyIffAllBlank | sync.py:29 | The result is empty iff the input is all whitespace. |
| PyInt.StripIdempotent | sync.py:29 | Stripping twice is stripping once. |
| PyInt.ParseIntOfStripped | sync.py:29-31 | `int()` of a stripped string reads it with nothing more trimmed. For a string without FS..US, `int(s.strip())` equals `int(s)`. |
| PyInt.StripWithoutSeparators | sync.py:29-31 | On a string without FS..US, `strip()` cuts off exactly what `int()` skips. |
| PyInt.ParseIntRefusesSeparator | sync.py:144 | `int("\x1c55")` raises, while `int("\x1c55".strip())` is 55. |
| PyInt.NatToDecimalDigits | sync.py:144 | The decimal spelling of n is a digit string whose value is n. |
| PyInt.ParseIntDecimalRoundTrip | sync.py:144 | `int()` reads back `str(n)` for every integer n, also when space or TAB..CR surrounds it. |
| PyInt.RejectsAdjacentUnderscores | sync.py:144 | `int()` rejects any string with two underscores in a row, signed or padded alike. |
| PyInt.ParseIntRejectsLetters | sync.py:144 | `int()` rejects "abc" and "12a". |
| PyInt.ParseIntRejectsEmpty | sync.py:31-32 | `int("")` raises. |
| PyInt.ParseIntRejectsInnerSpace | sync.py:144 | `int()` rejects "- 5": no space is allowed after the sign. |
| PyInt.ParseIntUnderscoreExample | sync.py:144 | `int("1_000")` is 1000. |
| PyInt.ParseIntNegativeExample | sync.py:144 | `int("-3")` is -3. |
| PyInt.Trunc | sync.py:163 | `int()` of a number: the nearest integer on the side of zero, within one of the number. |
| PyInt.TruncOfInteger | sync.py:163 | Truncating a whole number leaves it unchanged. |
| Reconcile.FetchStep | sync.py:138-147 | One turn of the fetch loop raises iff the lookup hits and the id does not read as an integer. Otherwise the table's length grows by one on a hit and stays the same on a miss. |
| Reconcile.FetchStepExtends | sync.py:138-147 | On a miss the table is unchanged. On a hit with a readable id the old table is kept as a prefix, and the one appended entry has the barcode, the product's name and quantity, and the parsed id. |
| Reconcile.FetchAll | sync.py:129-150 | A successful fetch has at most one entry per mapping entry. Its meaning is proved in `Reconcile.FetchAllOutcome`. |
| Reconcile.FetchCalls | sync.py:138-139 | At most one lookup per mapping entry. The order is proved in `Reconcile.FetchCallsInOrder` and `Reconcile.FetchCallsEndAtError`. |
| Reconcile.Hits | sync.py:138-148 | The reference filter of hit entries is no longer than the mapping. Its members are proved in `Reconcile.HitsMembers`. |
| Reconcile.FetchAllOutcome | sync.py:138-150 | The fetch succeeds iff the id of every hit parses as an integer. Its table then pairs each hit of the mapping, in order, with that hit's barcode, name, quantity and parsed id. Otherwise it fails on the first hit whose id does not parse. |
| Reconcile.HitsMembers | sync.py:138-148 | The hits are exactly the mapping entries whose lookup returns a product, so misses are skipped. |
| Reconcile.HitsAppend | sync.py:138-148 | One more mapping entry adds itself to the hits exactly when its lookup hits. |
| Reconcile.HitsDistinct | sync.py:134-145 | With distinct mapping keys, the hits have distinct keys. |
| Reconcile.FetchedBarcodes | sync.py:134-145 | Each barcode appears in the table once, and the table's barcodes are those of the hit entries. |
| Reconcile.KeyedLikeMapping | sync.py:141 | A table whose barcodes follow a mapping entry by entry has distinct barcodes and the same set of them. |
| Reconcile.FetchAllStopsAtError | sync.py:144 | Once `int(wc_id)` has raised, the rest of the mapping changes neither the result nor the lookups. |
| Reconcile.FetchAllWhenEveryLookupFaults | sync.py:125-127 | When every lookup faults, as before `connect_odoo`, the fetch returns an empty table and no error. |
| Reconcile.FetchAllPrefixStep | sync.py:138-145 | One turn of the fetch loop on the next mapping entry, for both the table and the lookups. |
| Reconcile.FetchCallsInOrder | sync.py:138-139 | The lookups are the barcodes in mapping order, one per entry reached. When the fetch succeeds, that is all of them. |
| Reconcile.FetchCallsEndAtError | sync.py:139-144 | When the fetch fails, the last lookup is the barcode whose id did not parse. |
| Reconcile.CountUpdated | sync.py:201-213 | `total_updated` never exceeds the number of pushed entries. Its value is fixed by its definition and `Reconcile.PushPrefixStep`: one increment per successful push. |
| Reconcile.CountErrors | sync.py:201-215 | `total_errors` never exceeds the number of pushed entries. |
| Reconcile.PushPrefixStep | sync.py:205-215 | One turn of the push loop adds one PUT and increments exactly one of the two counters. |
| Reconcile.CountsAddUp | sync.py:201-215 | `total_updated + total_errors` equals the number of fetched entries. |
| Reconcile.CountsAppend | sync.py:205-215 | Both counters add over consecutive runs of the loop. |
| Reconcile.CountsExtremes | sync.py:212-215 | `total_updated` is the table size iff every push succeeded, and 0 iff every push failed. |
| Reconcile.SyncStockReport | sync.py:185-228 | On completion at least one push was counted, and neither counter exceeds the mapping size. Its meaning is proved in `Reconcile.SyncStockOutcome`. |
| Reconcile.SyncStock | sync.py:185-228 | `sync_stock` never succeeds on an empty mapping. |
| Reconcile.PushedCalls | sync.py:205-212 | At most one PUT per mapping entry. |
| Reconcile.SyncCalls | sync.py:185-215 | At most two calls per mapping entry: the lookups of `FetchCalls`, then the PUTs of `PushedCalls`. |
| Reconcile.SyncStockOutcome | sync.py:193-222 | `sync_stock` is true iff there is a hit and every hit's id parses. An empty fetch is reported as nothing to sync, and a bad id as a bad mapping value. On completion the counters add up to the number of hits, and errors is 0 iff every push succeeded. |
| Reconcile.SyncStockIgnoresPushOutcomes | sync.py:212-222 | The result of `sync_stock` does not depend on what the pushes answer. |
| Reconcile.RunOutcome | sync.py:231-237 | A failed connection means the run fails and only the handshake call is made. A missing credential means no call is made at all. Otherwise the run succeeds iff `sync_stock` does. |
| Reconcile.Run | sync.py:231-237 | `run` succeeds only when every credential is set and the mapping is not empty. Its meaning is proved in `Reconcile.RunOutcome`. |
| Reconcile.RunCalls | sync.py:231-237 | The run makes no call at all iff a credential is missing. Otherwise its first call is the handshake. |
| Reconcile.RunCallsWhenConnected | sync.py:234-237 | A connected run whose fetch succeeds authenticates, looks up every barcode in order, then pushes every fetched entry in order. |
| Reconcile.RunCallsWhenNotConnected | sync.py:234-235 | A failed connection makes only the handshake call, and only when no credential is missing. |
| Reconcile.RunCallsSplit | sync.py:234-237 | A connected run's calls are the handshake, then the lookups, then the pushes. |
| Scenarios.SingleHitIsPushed | sync.py:138-222 | Mapping {"ABC123": "55"}, 12 units in Odoo and a 200 from WooCommerce give 1 updated, 0 errors, and a successful run whose one PUT carries 12, in stock. |
| Scenarios.NotFoundIsCountedAsError | sync.py:174-179 | The same run with a 404 gives 0 updated and 1 error, and a successful run. |
| Scenarios.RefusedConnectionStopsTheRun | sync.py:86-89 | A uid of `False` fails the run, and the handshake is the run's only call. |
| Scenarios.MissIsSkipped | sync.py:138-148 | One hit and one miss give 1 updated and 0 errors. The miss is counted nowhere. |

## Left out

- XML-RPC transport, `ServerProxy` and `common.version()`: the handshake is the `authenticate` oracle, and a fault it raises is `HandshakeFault`.
- The HTTP PUT, its URL, headers, Basic-auth encoding, timeout and `raise_for_status` mechanics: the `put` oracle returns a status or a transport failure. The WooCommerce URL, key and secret fields are not modelled.
- Reading environment variables, files and JSON: the constructor takes the environment as a value and the file's outcome as `MappingSource`. A JSON file whose top level is not an object is not modelled.
- Mapping values that are JSON numbers or booleans rather than strings: the model takes every value as a string. For such values `int()` truncates a float (`int(55.9)` is 55), reads `true` as 1 and `false` as 0, and raises on `null`. None of these cases is modelled.
- CPython's limit on `int()` of a string of more than 4300 digits, which raises ValueError: the model reads digit strings of any length.
- Rows from `search_read` that lack `id`, `name` or `barcode`: in the script the resulting KeyError is caught and the barcode is skipped, but the model's rows always carry those fields.
- Floating point: quantities are exact reals. Infinity and NaN, for which `int()` raises, are not modelled.
- Unicode whitespace and non-ASCII digits accepted by `str.strip()` and `int()`: only ASCII is modelled. `int()` of an ASCII string skips only space and TAB..CR. In a string holding a non-ASCII character, `int()` also skips non-ASCII Unicode whitespace such as U+00A0; that case is not modelled.
- All printing, `datetime`, and `traceback`: these are output only.
- Oracle state: each oracle is a function of its arguments, so it answers the same way every time. The idempotence of repeated identical PUTs therefore holds by construction and is not stated separately.
- The location id is parsed and kept in a field, but no operation reads it, exactly as in the script.
