/**
 * The text conventions both sides of the serial link rely on: decimal
 * formatting as C's `%d` and Python's f-strings print an integer, the `%d`
 * conversion of `sscanf`, `strtok` splitting on ',' and Python's `",".join`.
 */
module Text {
  import opened Outcomes

  // ---------------------------------------------------------------- format

  predicate IsDigit(c: char) { '0' <= c <= '9' }

  function DigitChar(d: nat): (c: char)
    requires d < 10
    ensures IsDigit(c) && c as int - '0' as int == d
  {
    ('0' as int + d) as char
  }

  /** Decimal digits of `n`, most significant first, without leading zeros. */
  function NatToString(n: nat): (s: string)
    decreases n
  {
    if n < 10 then [DigitChar(n)] else NatToString(n / 10) + [DigitChar(n % 10)]
  }

  /** `%d` / `str(i)`: a '-' before the digits of a negative number. */
  function IntToString(i: int): (s: string)
  {
    if i < 0 then "-" + NatToString(-i) else NatToString(i)
  }

  predicate AllDigits(s: string) { forall k :: 0 <= k < |s| ==> IsDigit(s[k]) }

  /** Value of a string of decimal digits. */
  function DigitsValue(s: string): nat
    requires AllDigits(s)
  {
    if s == [] then 0
    else DigitsValue(s[..|s| - 1]) * 10 + (s[|s| - 1] as int - '0' as int)
  }

  lemma {:induction false} NatToStringDigits(n: nat)
    ensures 1 <= |NatToString(n)| && AllDigits(NatToString(n))
    ensures DigitsValue(NatToString(n)) == n
    ensures |NatToString(n)| <= 1 + Log10(n)
    decreases n
  {
    if n >= 10 {
      NatToStringDigits(n / 10);
      var s := NatToString(n);
      assert s[..|s| - 1] == NatToString(n / 10);
    }
  }

  /** Number of decimal digits beyond the first. */
  function Log10(n: nat): nat
  {
    if n < 10 then 0 else 1 + Log10(n / 10)
  }

  lemma {:induction false} Log10Bound(n: nat, bound: nat, k: nat)
    requires n < bound
    requires bound == Pow10(k)
    ensures k >= 1 ==> Log10(n) <= k - 1
    decreases k
  {
    if k >= 2 && n >= 10 {
      Log10Bound(n / 10, Pow10(k - 1), k - 1);
    }
  }

  function Pow10(k: nat): (p: nat)
    ensures p >= 1
  {
    if k == 0 then 1 else 10 * Pow10(k - 1)
  }

  // ---------------------------------------------------------------- scan

  /** White space as C's `isspace` knows it. */
  predicate IsSpace(c: char)
  {
    c == ' ' || c == '\t' || c == '\n' || c == '\r' || c == '\U{B}' || c == '\U{C}'
  }

  function SkipSpace(s: string): (r: string)
    ensures |r| <= |s| && r == s[|s| - |r|..]
    ensures r == [] || !IsSpace(r[0])
  {
    if s != [] && IsSpace(s[0]) then SkipSpace(s[1..]) else s
  }

  /** Length of the run of digits that starts `s`. */
  function DigitRun(s: string): (k: nat)
    ensures k <= |s| && AllDigits(s[..k])
    ensures k < |s| ==> !IsDigit(s[k])
  {
    if s != [] && IsDigit(s[0]) then
      var k := 1 + DigitRun(s[1..]);
      assert s[..k] == [s[0]] + s[1..][..k - 1];
      k
    else 0
  }

  /** An unsigned run of at least one digit: its value and the unread rest. */
  function ScanNat(u: string): (r: Option<(nat, string)>)
    ensures r.Some? ==> |r.value.1| < |u|
  {
    var k := DigitRun(u);
    if k == 0 then None else Some((DigitsValue(u[..k]), u[k..]))
  }

  /**
   * The `%d` conversion of `sscanf`: white space is skipped, an optional sign
   * is read, then at least one digit; the number and the unread rest are
   * returned, or None when no digit follows.
   */
  function ScanInt(s: string): (r: Option<(int, string)>)
    ensures r.Some? ==> |r.value.1| < |s|
  {
    var t := SkipSpace(s);
    if t != [] && t[0] == '-' then
      match ScanNat(t[1..])
      case None => None
      case Some((v, rest)) => Some((-(v as int), rest))
    else
      var u := if t != [] && t[0] == '+' then t[1..] else t;
      match ScanNat(u)
      case None => None
      case Some((v, rest)) => Some((v as int, rest))
  }

  lemma DigitRunOf(ds: string, rest: string)
    requires AllDigits(ds)
    requires rest == [] || !IsDigit(rest[0])
    ensures DigitRun(ds + rest) == |ds|
    decreases |ds|
  {
    if ds != [] {
      assert (ds + rest)[1..] == ds[1..] + rest;
      DigitRunOf(ds[1..], rest);
    }
  }

  /** Scanning a run of digits followed by a non-digit reads exactly that run. */
  lemma ScanDigits(ds: string, rest: string)
    requires ds != [] && AllDigits(ds)
    requires rest == [] || !IsDigit(rest[0])
    ensures ScanNat(ds + rest) == Some((DigitsValue(ds), rest))
  {
    var s := ds + rest;
    DigitRunOf(ds, rest);
    assert s[..|ds|] == ds;
    assert s[|ds|..] == rest;
  }

  lemma SkipNoSpace(s: string)
    requires s != [] && !IsSpace(s[0])
    ensures SkipSpace(s) == s
  {
  }

  /** `%d` on text starting with '-': the negated unsigned number after the sign. */
  lemma ScanMinus(t: string)
    requires t != [] && t[0] == '-'
    ensures ScanNat(t[1..]).Some? ==>
              ScanInt(t) == Some((-(ScanNat(t[1..]).value.0 as int), ScanNat(t[1..]).value.1))
  {
    SkipNoSpace(t);
  }

  /** `%d` on text starting with a digit: the unsigned number there. */
  lemma ScanUnsigned(t: string)
    requires t != [] && IsDigit(t[0])
    ensures ScanNat(t).Some? ==> ScanInt(t) == Some((ScanNat(t).value.0 as int, ScanNat(t).value.1))
  {
    SkipNoSpace(t);
  }

  /** `%d` reads a '-' and the digit run after it, up to the first non-digit. */
  lemma ScanNegative(t: string, ds: string, rest: string)
    requires ds != [] && AllDigits(ds)
    requires rest == [] || !IsDigit(rest[0])
    requires t != [] && t[0] == '-' && t[1..] == ds + rest
    ensures ScanInt(t) == Some((-(DigitsValue(ds) as int), rest))
  {
    ScanMinus(t);
    ScanDigits(ds, rest);
  }

  /** `%d` reads a digit run up to the first non-digit. */
  lemma ScanNonNegative(t: string, ds: string, rest: string)
    requires ds != [] && AllDigits(ds)
    requires rest == [] || !IsDigit(rest[0])
    requires t == ds + rest
    ensures ScanInt(t) == Some((DigitsValue(ds) as int, rest))
  {
    assert t[0] == ds[0];
    ScanUnsigned(t);
    ScanDigits(ds, rest);
  }

  /** Scanning what `IntToString` printed gives the number back. */
  lemma {:induction false} ScanIntToString(i: int, rest: string)
    requires rest == [] || !IsDigit(rest[0])
    ensures ScanInt(IntToString(i) + rest) == Some((i, rest))
  {
    var t := IntToString(i) + rest;
    if i < 0 {
      var ds := NatToString(-i);
      NatToStringDigits(-i);
      assert t == "-" + (ds + rest);
      ScanNegative(t, ds, rest);
    } else {
      var ds := NatToString(i);
      NatToStringDigits(i);
      ScanNonNegative(t, ds, rest);
    }
  }

  // ---------------------------------------------------------------- split and join

  /** `sep.join(parts)` of Python. */
  function Join(parts: seq<string>, sep: char): (s: string)
  {
    if parts == [] then ""
    else if |parts| == 1 then parts[0]
    else parts[0] + [sep] + Join(parts[1..], sep)
  }

  /** Splitting at every `sep`, keeping empty pieces (Python's `str.split`). */
  function Split(s: string, sep: char): (parts: seq<string>)
    ensures |parts| >= 1
    ensures forall k :: 0 <= k < |parts| ==> sep !in parts[k]
    decreases |s|
  {
    if sep !in s then [s]
    else
      var i := FirstIndex(s, sep);
      [s[..i]] + Split(s[i + 1..], sep)
  }

  function FirstIndex(s: string, c: char): (i: nat)
    requires c in s
    ensures i < |s| && s[i] == c && c !in s[..i]
  {
    if s[0] == c then 0
    else
      assert c in s[1..];
      var j := FirstIndex(s[1..], c);
      assert s[..j + 1] == [s[0]] + s[1..][..j];
      1 + j
  }

  /** The non-empty pieces, in order. */
  function NonEmpty(parts: seq<string>): (ts: seq<string>)
    ensures |ts| <= |parts|
    ensures forall k :: 0 <= k < |ts| ==> ts[k] != [] && ts[k] in parts
  {
    if parts == [] then []
    else if parts[0] == [] then NonEmpty(parts[1..])
    else [parts[0]] + NonEmpty(parts[1..])
  }

  /** The tokens `strtok(s, ",")` hands out one by one: the non-empty pieces between separators. */
  function Tokens(s: string, sep: char): (ts: seq<string>)
    ensures forall k :: 0 <= k < |ts| ==> ts[k] != [] && sep !in ts[k]
  {
    var parts := Split(s, sep);
    var ts := NonEmpty(parts);
    assert forall k :: 0 <= k < |ts| ==> ts[k] in parts;
    ts
  }

  /** Splitting a joined list gives the list back when no part holds the separator. */
  lemma {:induction false} SplitJoin(parts: seq<string>, sep: char)
    requires |parts| >= 1
    requires forall k :: 0 <= k < |parts| ==> sep !in parts[k]
    ensures Split(Join(parts, sep), sep) == parts
    decreases |parts|
  {
    if |parts| > 1 {
      var s := Join(parts, sep);
      var tail := Join(parts[1..], sep);
      assert s == parts[0] + [sep] + tail;
      assert s[|parts[0]|] == sep;
      var i := FirstIndex(s, sep);
      assert s[..|parts[0]|] == parts[0];
      assert i == |parts[0]|;
      assert s[..i] == parts[0];
      assert s[i + 1..] == tail;
      SplitJoin(parts[1..], sep);
    }
  }

  lemma {:induction false} NonEmptyKeeps(parts: seq<string>)
    requires forall k :: 0 <= k < |parts| ==> parts[k] != []
    ensures NonEmpty(parts) == parts
    decreases |parts|
  {
    if parts != [] {
      NonEmptyKeeps(parts[1..]);
    }
  }

  /** `strtok` hands out exactly the joined parts when none is empty or holds the separator. */
  lemma TokensJoin(parts: seq<string>, sep: char)
    requires |parts| >= 1
    requires forall k :: 0 <= k < |parts| ==> parts[k] != [] && sep !in parts[k]
    ensures Tokens(Join(parts, sep), sep) == parts
  {
    SplitJoin(parts, sep);
    NonEmptyKeeps(parts);
  }

  /** A join whose first part is not empty starts with that part's first character. */
  lemma JoinHead(parts: seq<string>, sep: char)
    requires parts != [] && parts[0] != []
    ensures Join(parts, sep) != [] && Join(parts, sep)[0] == parts[0][0]
  {
  }

  /** A join holds only the separator and characters of its parts: a property of all of those holds of every character. */
  lemma {:induction false} JoinKeeps(parts: seq<string>, sep: char, ok: char -> bool)
    requires ok(sep)
    requires forall i, j :: 0 <= i < |parts| && 0 <= j < |parts[i]| ==> ok(parts[i][j])
    ensures forall k :: 0 <= k < |Join(parts, sep)| ==> ok(Join(parts, sep)[k])
    decreases |parts|
  {
    if |parts| > 1 {
      var head, tail := parts[0], Join(parts[1..], sep);
      assert forall i, j :: 0 <= i < |parts[1..]| && 0 <= j < |parts[1..][i]| ==> parts[1..][i][j] == parts[i + 1][j];
      JoinKeeps(parts[1..], sep, ok);
      var s := Join(parts, sep);
      assert s == head + [sep] + tail;
      forall k | 0 <= k < |s| ensures ok(s[k]) {
        if k < |head| {
          assert s[k] == parts[0][k];
        } else if k > |head| {
          assert s[k] == tail[k - |head| - 1];
        }
      }
    }
  }

  /** Joining one more part appends the separator and the part. */
  lemma {:induction false} JoinSnoc(parts: seq<string>, p: string, sep: char)
    requires parts != []
    ensures Join(parts + [p], sep) == Join(parts, sep) + [sep] + p
    decreases |parts|
  {
    if |parts| > 1 {
      assert (parts + [p])[1..] == parts[1..] + [p];
      JoinSnoc(parts[1..], p, sep);
    }
  }
}
