/**
 * Start-up configuration of the synchronizer: the environment it reads in
 * its constructor, the stock-location setting, and the barcode mapping.
 */
module Config {
  import opened Wrappers
  import PyInt

  /** The environment variables the constructor reads; `None` is unset. */
  datatype Env = Env(
    odooUrl: Option<string>,
    odooDb: Option<string>,
    odooUsername: Option<string>,
    odooUser: Option<string>,
    odooPassword: Option<string>,
    odooLocationId: Option<string>)

  /** Python truthiness of a string-or-None value: a shared helper for the
      `or` of the user name, the `or '8'` of the location id and the
      missing-variable checks. */
  predicate Truthy(v: Option<string>) {
    v.Some? && v.value != ""
  }

  /** Python's `a or b` on two string-or-None values. */
  function Or(a: Option<string>, b: Option<string>): (r: Option<string>)
    ensures Truthy(r) <==> Truthy(a) || Truthy(b)
    ensures Truthy(a) ==> r == a
    ensures !Truthy(a) ==> r == b
  {
    if Truthy(a) then a else b
  }

  const DefaultLocationId: int := 8

  /** The stock-location id: the variable's value, stripped and read as an
      integer, or 8 when it is unset, empty or not an integer. The unset and
      empty cases give 8 directly, which is what reading the fallback text
      "8" as an integer gives (`LocationIdUnsetExample`). */
  function LocationId(v: Option<string>): (r: int)
    ensures r == DefaultLocationId || (Truthy(v) && PyInt.ParseInt(PyInt.Strip(v.value)) == Some(r))
  {
    if Truthy(v) then PyInt.ParseInt(PyInt.Strip(v.value)).GetOr(DefaultLocationId)
    else DefaultLocationId
  }

  /** A JSON object read from the mapping file: pairs of barcode and
      WooCommerce id, in the file's key order. */
  type Mapping = seq<(string, string)>

  /** No barcode occurs twice, as in a Python dict. */
  predicate DistinctKeys(m: Mapping) {
    forall i, j :: 0 <= i < j < |m| ==> m[i].0 != m[j].0
  }

  /** What reading the mapping file can come to. */
  datatype MappingSource =
    | FileMissing
    | Unreadable
    | Loaded(entries: Mapping)

  /** The mapping the synchronizer works with: the file's contents, or the
      empty mapping when the file is missing or cannot be read. */
  function LoadProductMapping(source: MappingSource): (m: Mapping)
    ensures !source.Loaded? ==> m == []
    ensures source.Loaded? ==> m == source.entries
  {
    if source.Loaded? then source.entries else []
  }

  /** The location id is the stripped value read as a Python integer, and 8
      when the variable is unset or the stripped value does not read as one
      (an empty or all-whitespace value among them). For a value without
      separators the stripping changes nothing `int()` would not ignore. */
  lemma LocationIdIsParsedOrDefault(v: Option<string>)
    ensures v.None? ==> LocationId(v) == DefaultLocationId
    ensures v.Some? ==> LocationId(v) == PyInt.ParseInt(PyInt.Strip(v.value)).GetOr(DefaultLocationId)
    ensures v.Some? && (forall k :: 0 <= k < |v.value| ==> !PyInt.IsSeparator(v.value[k])) ==>
              LocationId(v) == PyInt.ParseInt(v.value).GetOr(DefaultLocationId)
  {
    if v.Some? {
      PyInt.ParseIntOfStripped(v.value);
      if !Truthy(v) {
        PyInt.ParseIntRejectsEmpty();
      }
    }
  }

  /** An empty or all-whitespace value, with whitespace as `strip()` sees
      it, gives 8. */
  lemma LocationIdOfBlank(s: string)
    requires PyInt.AllBlank(PyInt.StripBlanks, s)
    ensures LocationId(Some(s)) == DefaultLocationId
  {
    PyInt.TrimEmptyIffAllBlank(PyInt.StripBlanks, s);
    PyInt.ParseIntRejectsEmpty();
  }

  /** A separator before the number is stripped first, so it is read. */
  lemma LocationIdSeparatorExample()
    ensures LocationId(Some("\U{1C}55")) == 55
  {
    PyInt.ParseIntRefusesSeparator();
  }

  lemma LocationIdUnsetExample()
    ensures LocationId(None) == 8
    ensures LocationId(Some("")) == 8
    ensures PyInt.ParseInt("8") == Some(8)
  {
    PyInt.ParseIntDecimalRoundTrip("", 8, "");
    assert "" + PyInt.IntToDecimal(8) + "" == "8";
    LocationIdIsParsedOrDefault(None);
    LocationIdIsParsedOrDefault(Some(""));
  }

  lemma LocationIdInvalidExample()
    ensures LocationId(Some("abc")) == 8
  {
    LocationIdIsParsedOrDefault(Some("abc"));
    PyInt.ParseIntRejectsLetters();
  }

  lemma LocationIdPaddedExample()
    ensures LocationId(Some(" 12\n")) == 12
  {
    LocationIdIsParsedOrDefault(Some(" 12\n"));
    PyInt.ParseIntPaddedExample();
  }
}
