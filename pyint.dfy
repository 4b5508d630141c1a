/**
 * The parts of Python's built-ins that the synchronization relies on:
 * `str.strip()`, `int(str)` in base 10, and `int(x)` on a number, which
 * truncates toward zero.
 */
module PyInt {
  import opened Wrappers

  /** The two sets of whitespace the script meets. `str.strip()` with no
      argument skips ASCII space, the controls TAB through CR and the
      separators FS, GS, RS and US. `int()` on an ASCII string skips only
      space and TAB through CR, so it refuses a separator around a number. */
  datatype Blanks = StripBlanks | IntBlanks

  predicate IsBlank(w: Blanks, c: char) {
    c == ' ' || ('\t' <= c <= '\r') || (w == StripBlanks && '\U{1C}' <= c <= '\U{1F}')
  }

  predicate AllBlank(w: Blanks, s: string) {
    forall i :: 0 <= i < |s| ==> IsBlank(w, s[i])
  }

  /** One of FS, GS, RS and US: whitespace to `strip()`, not to `int()`. */
  predicate IsSeparator(c: char) {
    '\U{1C}' <= c <= '\U{1F}'
  }

  /** Where the run of whitespace that starts at `i` ends: the index of the
      first non-whitespace character from `i` on, or `|s|`. */
  function BlankRunEnd(w: Blanks, s: string, i: nat): (n: nat)
    requires i <= |s|
    ensures i <= n <= |s|
    ensures forall k :: i <= k < n ==> IsBlank(w, s[k])
    ensures n < |s| ==> !IsBlank(w, s[n])
    decreases |s| - i
  {
    if i < |s| && IsBlank(w, s[i]) then BlankRunEnd(w, s, i + 1) else i
  }

  /** Where the run of whitespace that ends just before `j` starts, looking
      no further left than `lo`. */
  function BlankRunStart(w: Blanks, s: string, lo: nat, j: nat): (n: nat)
    requires lo <= j <= |s|
    ensures lo <= n <= j
    ensures forall k :: n <= k < j ==> IsBlank(w, s[k])
    ensures n > lo ==> !IsBlank(w, s[n - 1])
    decreases j
  {
    if j > lo && IsBlank(w, s[j - 1]) then BlankRunStart(w, s, lo, j - 1) else j
  }

  /** The slice of `s` between its leading and its trailing whitespace,
      found left to right and then right to left. */
  function Trim(w: Blanks, s: string): (r: string)
    ensures |r| <= |s|
    ensures r != [] ==> !IsBlank(w, r[0]) && !IsBlank(w, r[|r| - 1])
  {
    var a := BlankRunEnd(w, s, 0);
    var b := BlankRunStart(w, s, a, |s|);
    assert a < |s| ==> b > a;
    s[a..b]
  }

  /** Python's `s.strip()`. */
  function Strip(s: string): (r: string)
    ensures |r| <= |s|
    ensures r != [] ==> !IsBlank(StripBlanks, r[0]) && !IsBlank(StripBlanks, r[|r| - 1])
  {
    Trim(StripBlanks, s)
  }

  /** What trimming cuts off on either side is whitespace only. */
  lemma TrimIsSlice(w: Blanks, s: string)
    ensures exists i, j :: 0 <= i <= j <= |s| && Trim(w, s) == s[i..j] && AllBlank(w, s[..i]) && AllBlank(w, s[j..])
  {
    var a := BlankRunEnd(w, s, 0);
    var b := BlankRunStart(w, s, a, |s|);
    assert AllBlank(w, s[..a]) by { forall k | 0 <= k < a ensures IsBlank(w, s[..a][k]) { assert s[..a][k] == s[k]; } }
    assert AllBlank(w, s[b..]) by { forall k | 0 <= k < |s| - b ensures IsBlank(w, s[b..][k]) { assert s[b..][k] == s[b + k]; } }
  }

  predicate IsDigit(c: char) {
    '0' <= c <= '9'
  }

  function DigitValue(c: char): (d: nat)
    requires IsDigit(c)
    ensures d < 10
  {
    (c as int) - ('0' as int)
  }

  function DigitChar(d: nat): (c: char)
    requires d < 10
    ensures IsDigit(c) && DigitValue(c) == d
  {
    ('0' as int + d) as char
  }

  predicate DigitsOrUnderscores(s: string) {
    forall i :: 0 <= i < |s| ==> IsDigit(s[i]) || s[i] == '_'
  }

  /** The digit part `int()` accepts in base 10: decimal digits, where a
      single underscore may stand between two digits. */
  predicate IsDigitString(s: string) {
    && |s| > 0
    && IsDigit(s[0])
    && IsDigit(s[|s| - 1])
    && DigitsOrUnderscores(s)
    && forall i :: 0 <= i < |s| - 1 ==> IsDigit(s[i]) || IsDigit(s[i + 1])
  }

  /** The number the digits of `s` spell, underscores ignored. */
  function DigitsValue(s: string): (v: nat)
    requires DigitsOrUnderscores(s)
  {
    if s == [] then 0
    else if s[|s| - 1] == '_' then DigitsValue(s[..|s| - 1])
    else 10 * DigitsValue(s[..|s| - 1]) + DigitValue(s[|s| - 1])
  }

  /** Python's `int(s)` for a string `s`: `None` stands for the ValueError it
      raises. Surrounding space and TAB through CR are ignored, one sign is
      allowed, and the rest must be a digit string. */
  function ParseInt(s: string): (r: Option<int>)
    ensures r.Some? ==> var t := Trim(IntBlanks, s); t != [] && IsDigit(t[|t| - 1])
  {
    ParseStripped(Trim(IntBlanks, s))
  }

  /** `int()` on a string that has already been trimmed. */
  function ParseStripped(t: string): (r: Option<int>) {
    if |t| > 0 && (t[0] == '-' || t[0] == '+') then
      if IsDigitString(t[1..]) then
        var v: int := DigitsValue(t[1..]);
        Some(if t[0] == '-' then -v else v)
      else None
    else if IsDigitString(t) then Some(DigitsValue(t))
    else None
  }

  /** The shortest decimal spelling of a natural number, Python's `str(n)`. */
  function NatToDecimal(n: nat): (s: string)
    ensures |s| > 0
  {
    if n < 10 then [DigitChar(n)] else NatToDecimal(n / 10) + [DigitChar(n % 10)]
  }

  /** Python's `str(n)` for an integer. */
  function IntToDecimal(n: int): (s: string) {
    if n < 0 then "-" + NatToDecimal(-n) else NatToDecimal(n)
  }

  /** Python's `int(x)` for a number: truncation toward zero. The result is
      the integer nearest to `q` on the side of zero, less than one away. */
  function Trunc(q: real): (n: int)
    ensures q >= 0.0 ==> 0 <= n && n as real <= q < n as real + 1.0
    ensures q < 0.0 ==> n <= 0 && n as real - 1.0 < q <= n as real
  {
    if q >= 0.0 then q.Floor else -((-q).Floor)
  }

  lemma TruncOfInteger(n: int)
    ensures Trunc(n as real) == n
  {
  }

  /** Whitespace around a word that neither starts nor ends with whitespace
      is exactly what trimming removes. */
  lemma TrimPadded(w: Blanks, left: string, x: string, right: string)
    requires AllBlank(w, left) && AllBlank(w, right)
    requires x != [] && !IsBlank(w, x[0]) && !IsBlank(w, x[|x| - 1])
    ensures Trim(w, left + x + right) == x
  {
    var t := left + x + right;
    var a, b := |left|, |left| + |x|;
    assert forall k :: 0 <= k < a ==> t[k] == left[k];
    assert forall k :: b <= k < |t| ==> t[k] == right[k - b];
    assert t[a] == x[0] && t[b - 1] == x[|x| - 1];
    var a' := BlankRunEnd(w, t, 0);
    assert a' == a;
    var b' := BlankRunStart(w, t, a, |t|);
    assert b' == b;
    assert t[a..b] == x;
  }

  lemma TrimOfWord(w: Blanks, x: string)
    requires x != [] && !IsBlank(w, x[0]) && !IsBlank(w, x[|x| - 1])
    ensures Trim(w, x) == x
  {
    assert "" + x + "" == x;
    TrimPadded(w, "", x, "");
  }

  /** Trimming yields the empty string exactly on all-whitespace input. */
  lemma TrimEmptyIffAllBlank(w: Blanks, s: string)
    ensures Trim(w, s) == [] <==> AllBlank(w, s)
  {
    var a := BlankRunEnd(w, s, 0);
  }

  /** `strip()` is idempotent. */
  lemma StripIdempotent(s: string)
    ensures Strip(Strip(s)) == Strip(s)
  {
    var t := Strip(s);
    if t != [] {
      TrimOfWord(StripBlanks, t);
    }
  }

  /** A run of `int()`'s whitespace is whitespace to `strip()` as well. */
  lemma IntBlanksAreStripBlanks(s: string, lo: nat, hi: nat)
    requires lo <= hi <= |s|
    requires forall k :: lo <= k < hi ==> IsBlank(IntBlanks, s[k])
    ensures AllBlank(StripBlanks, s[lo..hi])
  {
    forall k | 0 <= k < hi - lo ensures IsBlank(StripBlanks, s[lo..hi][k]) {
      assert s[lo..hi][k] == s[lo + k];
    }
  }

  /** `strip()` of a string that is a word between two runs of whitespace. */
  lemma StripAround(s: string, a: nat, b: nat)
    requires a < b <= |s|
    requires AllBlank(StripBlanks, s[0..a]) && AllBlank(StripBlanks, s[b..|s|])
    requires !IsBlank(StripBlanks, s[a]) && !IsBlank(StripBlanks, s[b - 1])
    ensures Strip(s) == s[a..b]
  {
    var u := s[a..b];
    assert s == s[0..a] + u + s[b..|s|];
    assert u[0] == s[a] && u[|u| - 1] == s[b - 1];
    TrimPadded(StripBlanks, s[0..a], u, s[b..|s|]);
  }

  /** Without separators the two kinds of whitespace agree, and so do
      `strip()` and the trimming `int()` does. */
  lemma StripWithoutSeparators(s: string)
    requires forall k :: 0 <= k < |s| ==> !IsSeparator(s[k])
    ensures Strip(s) == Trim(IntBlanks, s)
  {
    var a := BlankRunEnd(IntBlanks, s, 0);
    var b := BlankRunStart(IntBlanks, s, a, |s|);
    IntBlanksAreStripBlanks(s, 0, a);
    IntBlanksAreStripBlanks(s, b, |s|);
    if a < b {
      assert !IsSeparator(s[a]) && !IsSeparator(s[b - 1]);
      StripAround(s, a, b);
    } else {
      assert a == |s|;
      assert s[0..a] == s;
      TrimEmptyIffAllBlank(StripBlanks, s);
    }
  }

  /** `int(s.strip())`: `int()` finds nothing more to trim in a stripped
      string, and when `s` holds no separator the result is `int(s)`. */
  lemma ParseIntOfStripped(s: string)
    ensures ParseInt(Strip(s)) == ParseStripped(Strip(s))
    ensures (forall k :: 0 <= k < |s| ==> !IsSeparator(s[k])) ==> ParseInt(Strip(s)) == ParseInt(s)
  {
    var t := Strip(s);
    if t != [] {
      TrimOfWord(IntBlanks, t);
    }
    if forall k :: 0 <= k < |s| ==> !IsSeparator(s[k]) {
      StripWithoutSeparators(s);
    }
  }

  /** A separator in front of a number: `int()` refuses the text, while
      `int()` of its `strip()` reads the number. */
  lemma ParseIntRefusesSeparator()
    ensures ParseInt("\U{1C}55") == None
    ensures ParseInt(Strip("\U{1C}55")) == Some(55)
  {
    TrimOfWord(IntBlanks, "\U{1C}55");
    assert "\U{1C}" + "55" + "" == "\U{1C}55";
    TrimPadded(StripBlanks, "\U{1C}", "55", "");
    ParseIntPlainExample();
  }

  lemma {:induction false} NatToDecimalDigits(n: nat)
    ensures IsDigitString(NatToDecimal(n))
    ensures DigitsValue(NatToDecimal(n)) == n
  {
    var s := NatToDecimal(n);
    if n >= 10 {
      var p := NatToDecimal(n / 10);
      NatToDecimalDigits(n / 10);
      assert s == p + [DigitChar(n % 10)];
      assert s[..|s| - 1] == p;
      assert forall i :: 0 <= i < |p| ==> s[i] == p[i];
    }
  }

  /** Round trip: `int()` reads back what `str()` writes, also when the
      number is surrounded by the whitespace `int()` skips. */
  lemma ParseIntDecimalRoundTrip(left: string, n: int, right: string)
    requires AllBlank(IntBlanks, left) && AllBlank(IntBlanks, right)
    ensures ParseInt(left + IntToDecimal(n) + right) == Some(n)
  {
    var s := IntToDecimal(n);
    var m: nat := if n < 0 then -n else n;
    var d := NatToDecimal(m);
    NatToDecimalDigits(m);
    if n < 0 {
      assert s == "-" + d && s[1..] == d;
      assert ParseStripped(s) == Some(n);
    } else {
      assert s == d;
      assert ParseStripped(s) == Some(n);
    }
    TrimPadded(IntBlanks, left, s, right);
  }

  lemma ParseIntPlainExample()
    ensures ParseInt("55") == Some(55)
  {
    assert NatToDecimal(5) == "5";
    assert NatToDecimal(55) == NatToDecimal(5) + [DigitChar(5)];
    ParseIntDecimalRoundTrip("", 55, "");
    assert "" + IntToDecimal(55) + "" == "55";
  }

  lemma ParseIntPaddedExample()
    ensures ParseInt(" 12\n") == Some(12)
  {
    assert NatToDecimal(1) == "1";
    assert NatToDecimal(12) == NatToDecimal(1) + [DigitChar(2)];
    ParseIntDecimalRoundTrip(" ", 12, "\n");
    assert " " + IntToDecimal(12) + "\n" == " 12\n";
  }

  lemma ParseIntNegativeExample()
    ensures ParseInt("-3") == Some(-3)
  {
    assert NatToDecimal(3) == "3";
    ParseIntDecimalRoundTrip("", -3, "");
    assert "" + IntToDecimal(-3) + "" == "-3";
  }

  lemma DigitsValueUnderscoreExample()
    ensures IsDigitString("1_000") && DigitsValue("1_000") == 1000
  {
    assert forall i :: 0 <= i < |"1_000"| ==> IsDigit("1_000"[i]) || "1_000"[i] == '_';
    assert "1"[..0] == "";
    assert DigitsValue("1") == 1;
    assert "1_"[..1] == "1";
    assert DigitsValue("1_") == 1;
    assert "1_0"[..2] == "1_";
    assert DigitsValue("1_0") == 10;
    assert "1_00"[..3] == "1_0";
    assert DigitsValue("1_00") == 100;
    assert "1_000"[..4] == "1_00";
  }

  lemma ParseStrippedUnderscoreExample()
    ensures ParseStripped("1_000") == Some(1000)
  {
    DigitsValueUnderscoreExample();
  }

  lemma ParseIntUnderscoreExample()
    ensures ParseInt("1_000") == Some(1000)
  {
    TrimOfWord(IntBlanks, "1_000");
    ParseStrippedUnderscoreExample();
  }

  lemma ParseIntRejectsEmpty()
    ensures ParseInt("") == None
  {
    TrimEmptyIffAllBlank(IntBlanks, "");
  }

  lemma ParseIntRejectsLetters()
    ensures ParseInt("abc") == None
    ensures ParseInt("12a") == None
  {
    TrimPadded(IntBlanks, "", "abc", "");
    TrimPadded(IntBlanks, "", "12a", "");
  }

  /** Two underscores in a row, anywhere in the text: `int()` refuses it,
      whatever sign or whitespace surrounds them. */
  lemma RejectsAdjacentUnderscores(t: string, i: nat)
    requires i + 1 < |t| && t[i] == '_' && t[i + 1] == '_'
    ensures ParseInt(t) == None
  {
    var a := BlankRunEnd(IntBlanks, t, 0);
    var b := BlankRunStart(IntBlanks, t, a, |t|);
    assert a <= i && i + 1 < b;
    var u := Trim(IntBlanks, t);
    assert u == t[a..b];
    var j := i - a;
    assert u[j] == '_' && u[j + 1] == '_';
    if u[0] == '-' || u[0] == '+' {
      var v := u[1..];
      assert j >= 1;
      assert v[j - 1] == '_' && v[j] == '_';
      assert !(IsDigit(v[j - 1]) || IsDigit(v[j]));
    } else {
      assert !(IsDigit(u[j]) || IsDigit(u[j + 1]));
    }
  }

  lemma ParseIntRejectsInnerSpace()
    ensures ParseInt("- 5") == None
  {
    TrimPadded(IntBlanks, "", "- 5", "");
    assert "- 5"[1..] == " 5";
  }
}
