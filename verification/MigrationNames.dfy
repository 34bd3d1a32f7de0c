/** The one definition of a migration's file name: <version>_<title>.<up|down>.<extension>. */
module MigrationNames {
  import opened Options

  predicate Digit(c: char) { '0' <= c <= '9' }

  predicate AlphaNumeric(c: char) {
    Digit(c) || 'a' <= c <= 'z' || 'A' <= c <= 'Z'
  }

  ghost predicate Digits(s: string) {
    s != "" && forall i :: 0 <= i < |s| ==> Digit(s[i])
  }

  ghost predicate AlphaNumerics(s: string) {
    s != "" && forall i :: 0 <= i < |s| ==> AlphaNumeric(s[i])
  }

  /** The parts of a name, as the pattern ^([0-9]+)_.+\.(up|down)\.[A-Za-z0-9]+$ reads it. */
  ghost predicate Splits(name: string, version: string, title: string, direction: string, ext: string) {
    && name == version + "_" + title + "." + direction + "." + ext
    && Digits(version) && title != "" && '\n' !in title
    && direction in {"up", "down"} && AlphaNumerics(ext)
  }

  /** The first position that holds no digit. */
  function AfterDigits(s: string, i: nat): (k: nat)
    requires i <= |s|
    ensures i <= k <= |s| && (forall j :: i <= j < k ==> Digit(s[j])) && (k < |s| ==> !Digit(s[k]))
    decreases |s| - i
  {
    if i < |s| && Digit(s[i]) then AfterDigits(s, i + 1) else i
  }

  /** The position of the last dot before n. */
  function LastDot(s: string, n: nat): (k: Option<nat>)
    requires n <= |s|
    ensures k.Some? ==> k.value < n && s[k.value] == '.' && forall j :: k.value < j < n ==> s[j] != '.'
    ensures k.None? ==> forall j :: 0 <= j < n ==> s[j] != '.'
    decreases n
  {
    if n == 0 then None else if s[n - 1] == '.' then Some(n - 1) else LastDot(s, n - 1)
  }

  predicate Extension(s: string) {
    s != "" && forall i :: 0 <= i < |s| ==> AlphaNumeric(s[i])
  }

  datatype Parts = Parts(version: string, direction: string)

  /** The version digits and the direction of a migration name. */
  function Match(name: string): Option<Parts> {
    var i := AfterDigits(name, 0);
    if i == 0 || i == |name| || name[i] != '_' then None else
      var k := LastDot(name, |name|);
      if k.None? || !Extension(name[k.value + 1..]) then None else
        var j := LastDot(name, k.value);
        if j.None? || j.value <= i + 1 || name[j.value + 1..k.value] !in {"up", "down"} || '\n' in name[i + 1..j.value] then None
        else Some(Parts(name[..i], name[j.value + 1..k.value]))
  }

  lemma Reassemble(name: string, i: nat, j: nat, k: nat)
    requires i < j < k < |name| && name[i] == '_' && name[j] == '.' && name[k] == '.'
    ensures name == name[..i] + "_" + name[i + 1..j] + "." + name[j + 1..k] + "." + name[k + 1..]
  {
  }

  lemma MatchMeans(name: string)
    requires Match(name).Some?
    ensures exists title, ext :: Splits(name, Match(name).value.version, title, Match(name).value.direction, ext)
  {
    var i := AfterDigits(name, 0);
    var k := LastDot(name, |name|).value;
    var j := LastDot(name, k).value;
    Reassemble(name, i, j, k);
    assert Splits(name, name[..i], name[i + 1..j], name[j + 1..k], name[k + 1..]);
  }

  /** Where the parts of a split name lie. */
  lemma PartsLie(name: string, version: string, title: string, direction: string, ext: string)
    requires name == version + "_" + title + "." + direction + "." + ext
    ensures var i := |version|; var j := i + 1 + |title|; var k := j + 1 + |direction|;
            && k < |name| && name[..i] == version && name[i] == '_' && name[i + 1..j] == title && name[j] == '.'
            && name[j + 1..k] == direction && name[k] == '.' && name[k + 1..] == ext
  {
  }

  lemma NoDotIn(s: string)
    requires AlphaNumerics(s)
    ensures '.' !in s
  {
  }

  lemma MeansMatch(name: string, version: string, title: string, direction: string, ext: string)
    requires Splits(name, version, title, direction, ext)
    ensures Match(name) == Some(Parts(version, direction))
  {
    var i := |version|;
    var j := i + 1 + |title|;
    var k := j + 1 + |direction|;
    PartsLie(name, version, title, direction, ext);
    assert AfterDigits(name, 0) == i by {
      hide LastDot;
      forall x | 0 <= x < i ensures Digit(name[x]) { assert name[x] == name[..i][x]; }
    }
    NoDotIn(ext);
    assert AlphaNumerics(direction);
    NoDotIn(direction);
    assert LastDot(name, |name|) == Some(k) by {
      hide AfterDigits;
      forall x | k < x < |name| ensures name[x] != '.' { assert name[x] == name[k + 1..][x - k - 1]; }
    }
    assert LastDot(name, k) == Some(j) by {
      hide AfterDigits;
      forall x | j < x < k ensures name[x] != '.' { assert name[x] == name[j + 1..k][x - j - 1]; }
    }
  }

  /** The scan finds exactly the readings the pattern has, and there is never more than one. */
  lemma MatchIsThePattern(name: string, version: string, direction: string)
    ensures Match(name) == Some(Parts(version, direction)) <==>
            exists title, ext :: Splits(name, version, title, direction, ext)
  {
    if Match(name) == Some(Parts(version, direction)) { MatchMeans(name); }
    if title, ext :| Splits(name, version, title, direction, ext) { MeansMatch(name, version, title, direction, ext); }
  }

  // ---------- versions ----------

  const MAX_VERSION := 0x1_0000_0000_0000_0000

  function Value(s: string): nat
    requires forall i :: 0 <= i < |s| ==> Digit(s[i])
  {
    if s == "" then 0 else
      assert Digit(s[|s| - 1]);
      10 * Value(s[..|s| - 1]) + (s[|s| - 1] as int - '0' as int)
  }

  /** Parsing the digits as a 64-bit unsigned number. */
  function Version(name: string): Option<nat> {
    var m := Match(name);
    if m.Some? && Value(m.value.version) < MAX_VERSION then Some(Value(m.value.version)) else None
  }

  /** A name has a version exactly when its digits fit 64 bits. */
  lemma VersionFits(name: string)
    ensures Version(name).Some? <==> Match(name).Some? && Value(Match(name).value.version) <= 0xFFFF_FFFF_FFFF_FFFF
    ensures Version(name).Some? ==> Version(name).value == Value(Match(name).value.version)
  {
  }

  function Decimal(n: nat): (s: string)
    ensures s != "" && forall i :: 0 <= i < |s| ==> Digit(s[i])
  {
    var c := ('0' as int + n % 10) as char;
    if n < 10 then [c] else Decimal(n / 10) + [c]
  }

  lemma {:induction false} DecimalValue(n: nat)
    ensures Value(Decimal(n)) == n
    decreases n
  {
    var s := Decimal(n);
    if n >= 10 {
      DecimalValue(n / 10);
      assert s[..|s| - 1] == Decimal(n / 10);
    } else {
      assert s[..|s| - 1] == "";
    }
  }

  /** At least two digits, as %02d prints them. */
  function TwoDigits(n: nat): (s: string)
    ensures forall i :: 0 <= i < |s| ==> Digit(s[i])
  {
    if n < 10 then "0" + Decimal(n) else Decimal(n)
  }

  lemma TwoDigitsValue(n: nat)
    ensures Value(TwoDigits(n)) == n
  {
    DecimalValue(n);
    if n < 10 {
      var s := TwoDigits(n);
      assert s[..1] == "0" && s[0..1][..0] == "";
      assert Value("0") == 0;
      assert |s| == 2;
    }
  }
}
