/**
 * The manual motion command both sides speak: comma-separated fields
 * `id:angle:speed`, each number in decimal. The host prints the fields with
 * f-strings and joins them with ','; the firmware splits them with `strtok`
 * and reads each with `sscanf(field, "%d:%d:%d", ...)`.
 */
module Protocol {
  import opened Outcomes
  import opened Text

  /** One servo target as carried on the wire. */
  datatype Field = Field(id: int, angle: int, speed: int)

  /** `"%d:%d:%d"` / `f"{i}:{angle}:{speed}"`. */
  function FormatField(f: Field): (s: string)
  {
    IntToString(f.id) + ":" + IntToString(f.angle) + ":" + IntToString(f.speed)
  }

  /** A `%d` conversion followed by the literal ':' of the format. */
  function ScanIntColon(s: string): Option<(int, string)>
  {
    match ScanInt(s)
    case None => None
    case Some((v, r)) => if r != [] && r[0] == ':' then Some((v, r[1..])) else None
  }

  /**
   * `sscanf(field, "%d:%d:%d", &id, &angle, &delay)` when all three
   * conversions succeed; characters after the third number are ignored.
   * None stands for a field with fewer than three conversions.
   */
  function ScanField(s: string): Option<Field>
  {
    match ScanIntColon(s)
    case None => None
    case Some((id, r1)) =>
      match ScanIntColon(r1)
      case None => None
      case Some((angle, r2)) =>
        match ScanInt(r2)
        case None => None
        case Some((speed, _)) => Some(Field(id, angle, speed))
  }

  /** The fields of a command line, in order, that scan completely. */
  function ParseCommand(line: string): (fs: seq<Field>)
  {
    ScanAll(Tokens(line, ','))
  }

  function ScanAll(tokens: seq<string>): (fs: seq<Field>)
    ensures |fs| <= |tokens|
    decreases |tokens|
  {
    if tokens == [] then [] else ScanAll(tokens[..|tokens| - 1]) + Scanned(tokens[|tokens| - 1])
  }

  /** A token's field, or nothing when it does not scan. */
  function Scanned(t: string): (fs: seq<Field>)
    ensures |fs| <= 1
  {
    match ScanField(t)
    case None => []
    case Some(f) => [f]
  }

  lemma ScanAllSnoc(tokens: seq<string>, t: string)
    ensures ScanAll(tokens + [t]) == ScanAll(tokens) + Scanned(t)
  {
    assert (tokens + [t])[..|tokens|] == tokens;
  }

  /** The printed fields of a list of targets, in order. */
  function FormatAll(fs: seq<Field>): (parts: seq<string>)
    ensures |parts| == |fs|
    ensures forall k :: 0 <= k < |fs| ==> parts[k] == FormatField(fs[k])
  {
    if fs == [] then [] else [FormatField(fs[0])] + FormatAll(fs[1..])
  }

  /** A command line as the host builds it. */
  function FormatCommand(fs: seq<Field>): (line: string)
  {
    Join(FormatAll(fs), ',')
  }

  lemma FormattedDigitsOnly(i: int)
    ensures IntToString(i) != []
    ensures forall k :: 0 <= k < |IntToString(i)| ==> IntToString(i)[k] == '-' || IsDigit(IntToString(i)[k])
  {
    if i < 0 {
      var ds := NatToString(-i);
      NatToStringDigits(-i);
      assert IntToString(i) == "-" + ds;
      forall k | 1 <= k < |IntToString(i)| ensures IsDigit(IntToString(i)[k]) {
        assert IntToString(i)[k] == ds[k - 1];
      }
    } else {
      NatToStringDigits(i);
    }
  }

  /** The characters a command line is made of: digits, signs and the two separators. */
  predicate WireChar(c: char)
  {
    IsDigit(c) || c == '-' || c == ':' || c == ','
  }

  /** A printed field is never empty, starts with a digit or a sign, and holds only digits, signs and colons. */
  lemma FormatFieldShape(f: Field)
    ensures FormatField(f) != [] && ',' !in FormatField(f)
    ensures IsDigit(FormatField(f)[0]) || FormatField(f)[0] == '-'
    ensures forall k :: 0 <= k < |FormatField(f)| ==> WireChar(FormatField(f)[k])
  {
    FormattedDigitsOnly(f.id);
    FormattedDigitsOnly(f.angle);
    FormattedDigitsOnly(f.speed);
    var s := FormatField(f);
    var a, b, c := IntToString(f.id), IntToString(f.angle), IntToString(f.speed);
    assert s == a + ":" + b + ":" + c;
    assert s[0] == a[0];
    forall k | 0 <= k < |s| ensures s[k] != ',' && WireChar(s[k]) {
      if k < |a| { assert s[k] == a[k]; }
      else if k == |a| { assert s[k] == ':'; }
      else if k < |a| + 1 + |b| { assert s[k] == b[k - |a| - 1]; }
      else if k == |a| + 1 + |b| { assert s[k] == ':'; }
      else { assert s[k] == c[k - |a| - |b| - 2]; }
    }
  }

  /** `%d:` reads back a printed number and its colon. */
  lemma ScanIntColonFormatted(i: int, t: string, rest: string)
    requires t == IntToString(i) + ([':'] + rest)
    ensures ScanIntColon(t) == Some((i, rest))
  {
    var r := [':'] + rest;
    ScanIntToString(i, r);
    assert r[1..] == rest;
  }

  /** Scanning a printed field gives the same three numbers back. */
  lemma {:induction false} ScanFormatField(f: Field)
    ensures ScanField(FormatField(f)) == Some(f)
  {
    var a, b, c := IntToString(f.id), IntToString(f.angle), IntToString(f.speed);
    var t, r1 := FormatField(f), b + ([':'] + c);
    assert t == a + ([':'] + r1);
    ScanIntColonFormatted(f.id, t, r1);
    ScanIntColonFormatted(f.angle, r1, c);
    assert ScanInt(c) == Some((f.speed, [])) by {
      ScanIntToString(f.speed, []);
      assert c + [] == c;
    }
  }

  lemma {:induction false} FormatAllSnoc(fs: seq<Field>, f: Field)
    ensures FormatAll(fs + [f]) == FormatAll(fs) + [FormatField(f)]
  {
    var l := FormatAll(fs + [f]);
    var r := FormatAll(fs) + [FormatField(f)];
    assert |l| == |r|;
    forall k | 0 <= k < |l| ensures l[k] == r[k] {
      if k < |fs| {
        assert (fs + [f])[k] == fs[k];
      }
    }
  }

  /** A printed field scans back to itself. */
  lemma ScannedFormatted(f: Field)
    ensures Scanned(FormatField(f)) == [f]
  {
    ScanFormatField(f);
  }

  lemma {:induction false} ScanAllFormatted(fs: seq<Field>)
    ensures ScanAll(FormatAll(fs)) == fs
    decreases |fs|
  {
    if fs != [] {
      var n := |fs| - 1;
      var init, last := fs[..n], fs[n];
      assert fs == init + [last];
      FormatAllSnoc(init, last);
      ScanAllSnoc(FormatAll(init), FormatField(last));
      ScannedFormatted(last);
      ScanAllFormatted(init);
    }
  }

  /** The command line of one more field is the previous line, a comma, and the new field. */
  lemma FormatCommandSnoc(fs: seq<Field>, k: nat)
    requires 0 < k < |fs|
    ensures FormatCommand(fs[..k + 1]) == FormatCommand(fs[..k]) + [','] + FormatField(fs[k])
  {
    PrefixSnoc(fs, k, fs[k]);
    FormatAllSnoc(fs[..k], fs[k]);
    JoinSnoc(FormatAll(fs[..k]), FormatField(fs[k]), ',');
  }

  /** Parsing a command line the host printed recovers every field, in order. */
  lemma ParseFormatCommand(fs: seq<Field>)
    requires fs != []
    ensures ParseCommand(FormatCommand(fs)) == fs
  {
    var parts := FormatAll(fs);
    forall k | 0 <= k < |parts| ensures parts[k] != [] && ',' !in parts[k] {
      FormatFieldShape(fs[k]);
    }
    TokensJoin(parts, ',');
    ScanAllFormatted(fs);
  }

  /** A decimal of a value below 10^k takes at most k characters. */
  lemma NatToStringLength(n: nat, k: nat)
    requires k >= 1 && n < Pow10(k)
    ensures |IntToString(n)| <= k
  {
    NatToStringDigits(n);
    Log10Bound(n, Pow10(k), k);
  }

  /** A field of a one-digit id and two `uint16_t` values prints in at most 13 characters. */
  lemma FormatFieldLength(f: Field)
    requires 0 <= f.id < 10 && 0 <= f.angle < 0x1_0000 && 0 <= f.speed < 0x1_0000
    ensures |FormatField(f)| <= 13
  {
    NatToStringLength(f.id, 1);
    NatToStringLength(f.angle, 5);
    NatToStringLength(f.speed, 5);
  }

  /** A command line the host builds starts with a digit or a sign and holds only wire characters. */
  lemma FormatCommandShape(fs: seq<Field>)
    requires fs != []
    ensures FormatCommand(fs) != []
    ensures IsDigit(FormatCommand(fs)[0]) || FormatCommand(fs)[0] == '-'
    ensures forall k :: 0 <= k < |FormatCommand(fs)| ==> WireChar(FormatCommand(fs)[k])
  {
    var parts := FormatAll(fs);
    FormatFieldShape(fs[0]);
    JoinHead(parts, ',');
    forall i, j | 0 <= i < |parts| && 0 <= j < |parts[i]| ensures WireChar(parts[i][j]) {
      FormatFieldShape(fs[i]);
    }
    JoinKeeps(parts, ',', WireChar);
  }
}
