/** The two pure helpers of the sandbox storage host test: `encodeToHex`,
    which renders a byte array as uppercase hexadecimal, and the builders of
    the per-user sandbox data paths that the test checks on the device. */
module StoragePaths {
  import opened Common

  /** Java's signed `byte`. */
  newtype JByte = x: int | -128 <= x < 128

  const HEX_DIGITS: string := "0123456789ABCDEF"

  /** `(b >> 4) & 0x0f` on the sign-extended byte: the arithmetic shift is
      division by 16 rounded down, and the mask keeps the value modulo 16. */
  function HighNibble(b: JByte): (n: int)
    ensures 0 <= n < 16
  {
    ((b as int) / 16) % 16
  }

  /** `b & 0x0f` on the sign-extended byte. */
  function LowNibble(b: JByte): (n: int)
    ensures 0 <= n < 16
  {
    (b as int) % 16
  }

  /** The value 0..255 that the bits of `b` stand for. */
  function Unsigned(b: JByte): (u: int)
    ensures 0 <= u < 256
    ensures b >= 0 ==> u == b as int
    ensures b < 0 ==> u == b as int + 256
  {
    if b < 0 then b as int + 256 else b as int
  }

  /** A negative byte is encoded as its unsigned value: the nibbles are the
      two base-16 digits of `Unsigned(b)`. */
  lemma NibblesOfUnsigned(b: JByte)
    ensures HighNibble(b) == Unsigned(b) / 16
    ensures LowNibble(b) == Unsigned(b) % 16
  {
    var x := b as int;
    if x < 0 {
      assert (x + 256) / 16 == x / 16 + 16;
      assert (x + 256) % 16 == x % 16;
    }
  }

  function HexPair(b: JByte): string {
    [HEX_DIGITS[HighNibble(b)], HEX_DIGITS[LowNibble(b)]]
  }

  /** The hexadecimal rendering of `data`, two characters per byte. */
  function HexOf(data: seq<JByte>): (s: string)
    ensures |s| == 2 * |data|
  {
    if data == [] then [] else HexPair(data[0]) + HexOf(data[1..])
  }

  lemma {:induction false} HexOfAppend(data: seq<JByte>, b: JByte)
    ensures HexOf(data + [b]) == HexOf(data) + HexPair(b)
  {
    if data != [] {
      assert (data + [b])[1..] == data[1..] + [b];
      HexOfAppend(data[1..], b);
    }
  }

  /** Characters `2i` and `2i+1` are the digits of byte `i`'s high and low nibble. */
  lemma {:induction false} HexOfAt(data: seq<JByte>, i: nat)
    requires i < |data|
    ensures HexOf(data)[2 * i] == HEX_DIGITS[HighNibble(data[i])]
    ensures HexOf(data)[2 * i + 1] == HEX_DIGITS[LowNibble(data[i])]
  {
    if i > 0 {
      HexOfAt(data[1..], i - 1);
    }
  }

  /** Every character of the rendering is an uppercase hexadecimal digit. */
  lemma HexOfUppercase(data: seq<JByte>)
    ensures forall k | 0 <= k < |HexOf(data)| :: '0' <= HexOf(data)[k] <= '9' || 'A' <= HexOf(data)[k] <= 'F'
  {
    forall k | 0 <= k < |HexOf(data)|
      ensures '0' <= HexOf(data)[k] <= '9' || 'A' <= HexOf(data)[k] <= 'F'
    {
      HexOfAt(data, k / 2);
    }
  }

  /** The inverse of one hexadecimal digit. */
  function DigitValue(c: char): (v: int)
    ensures '0' <= c <= '9' || 'A' <= c <= 'F' ==> 0 <= v < 16 && HEX_DIGITS[v] == c
  {
    if '0' <= c <= '9' then c as int - '0' as int else c as int - 'A' as int + 10
  }

  lemma DigitValueOfDigit(n: int)
    requires 0 <= n < 16
    ensures DigitValue(HEX_DIGITS[n]) == n
  {
  }

  /** Reading two characters back as base-16 digits gives the byte's unsigned value. */
  lemma HexOfDecodes(data: seq<JByte>, i: nat)
    requires i < |data|
    ensures 16 * DigitValue(HexOf(data)[2 * i]) + DigitValue(HexOf(data)[2 * i + 1]) == Unsigned(data[i])
  {
    HexOfAt(data, i);
    NibblesOfUnsigned(data[i]);
    DigitValueOfDigit(HighNibble(data[i]));
    DigitValueOfDigit(LowNibble(data[i]));
  }

  /** Different byte strings have different renderings. */
  lemma HexOfInjective(a: seq<JByte>, b: seq<JByte>)
    requires HexOf(a) == HexOf(b)
    ensures a == b
  {
    forall i | 0 <= i < |a|
      ensures a[i] == b[i]
    {
      HexOfDecodes(a, i);
      HexOfDecodes(b, i);
    }
  }

  /** `encodeToHex`: fills a new array of twice the length, two digits per byte. */
  method EncodeToHex(data: array<JByte>) returns (result: array<char>)
    ensures result.Length == 2 * data.Length
    ensures result[..] == HexOf(data[..])
  {
    result := new char[data.Length * 2];
    for i := 0 to data.Length
      invariant result[..2 * i] == HexOf(data[..i])
    {
      var b := data[i];
      var resultIndex := 2 * i;
      ghost var done := result[..resultIndex];
      result[resultIndex] := HEX_DIGITS[HighNibble(b)];
      result[resultIndex + 1] := HEX_DIGITS[LowNibble(b)];
      assert result[..resultIndex + 2] == done + HexPair(b);
      assert data[..i + 1] == data[..i] + [b];
      HexOfAppend(data[..i], b);
    }
    assert result[..] == result[..2 * data.Length];
    assert data[..] == data[..data.Length];
  }

  /** `/data/<area>/<user>/sdksandbox`, formatted with `%d` for the user (ASCII digits assumed). */
  function DataRootPath(area: string, userId: int): string {
    "/data/" + area + "/" + IntToString(userId) + "/sdksandbox"
  }

  function CeDataRootPath(userId: int): string { DataRootPath("misc_ce", userId) }
  function DeDataRootPath(userId: int): string { DataRootPath("misc_de", userId) }
  function CeDataAppPath(userId: int, packageName: string): string { CeDataRootPath(userId) + "/" + packageName }
  function DeDataAppPath(userId: int, packageName: string): string { DeDataRootPath(userId) + "/" + packageName }
  function CeDataAppSharedPath(userId: int, packageName: string): string { CeDataAppPath(userId, packageName) + "/shared" }
  function DeDataAppSharedPath(userId: int, packageName: string): string { DeDataAppPath(userId, packageName) + "/shared" }

  lemma PrefixOfAppend(a: string, b: string)
    ensures a <= a + b
  {
  }

  /** A directory inside `dir` starts with `dir` and a '/'. */
  lemma ChildPathNests(dir: string, child: string)
    ensures dir + "/" <= dir + "/" + child
  {
    PrefixOfAppend(dir + "/", child);
  }

  /** The paths of one user nest: root, then the app's directory, then its shared directory. */
  lemma PathsNest(userId: int, packageName: string)
    ensures CeDataRootPath(userId) + "/" <= CeDataAppPath(userId, packageName)
    ensures CeDataAppPath(userId, packageName) + "/" <= CeDataAppSharedPath(userId, packageName)
    ensures DeDataRootPath(userId) + "/" <= DeDataAppPath(userId, packageName)
    ensures DeDataAppPath(userId, packageName) + "/" <= DeDataAppSharedPath(userId, packageName)
  {
    var ceApp, deApp := CeDataAppPath(userId, packageName), DeDataAppPath(userId, packageName);
    ChildPathNests(CeDataRootPath(userId), packageName);
    ChildPathNests(DeDataRootPath(userId), packageName);
    ChildPathNests(ceApp, "shared");
    ChildPathNests(deApp, "shared");
    assert ceApp + "/shared" == ceApp + "/" + "shared";
    assert deApp + "/shared" == deApp + "/" + "shared";
  }

  /** Credential-encrypted and device-encrypted paths never coincide, whatever
      the users and packages: they differ in the storage area's name. */
  lemma CeAndDeDisjoint(u: int, v: int, p: string, q: string)
    ensures CeDataRootPath(u) != DeDataRootPath(v)
    ensures CeDataAppPath(u, p) != DeDataAppPath(v, q)
    ensures CeDataAppSharedPath(u, p) != DeDataAppSharedPath(v, q)
  {
    assert CeDataRootPath(u)[11] == 'c' && DeDataRootPath(v)[11] == 'd';
    assert CeDataAppPath(u, p)[11] == 'c' && DeDataAppPath(v, q)[11] == 'd';
    assert CeDataAppSharedPath(u, p)[11] == 'c' && DeDataAppSharedPath(v, q)[11] == 'd';
  }

  /** The position of the first '/' in `s`, or its length. */
  function FirstSlash(s: string): (n: nat)
    ensures n <= |s|
  {
    if s == [] then 0 else if s[0] == '/' then 0 else 1 + FirstSlash(s[1..])
  }

  lemma {:induction false} FirstSlashAfter(a: string, r: string)
    requires forall k | 0 <= k < |a| :: a[k] != '/'
    ensures FirstSlash(a + "/" + r) == |a|
  {
    if a == [] {
      assert (a + "/" + r)[0] == '/';
    } else {
      assert (a + "/" + r)[0] == a[0];
      assert (a + "/" + r)[1..] == a[1..] + "/" + r;
      FirstSlashAfter(a[1..], r);
    }
  }

  /** Two strings without '/' followed by '/' and anything: equal texts split the same way. */
  lemma SplitAtSlash(a: string, b: string, r: string, s: string)
    requires forall k | 0 <= k < |a| :: a[k] != '/'
    requires forall k | 0 <= k < |b| :: b[k] != '/'
    requires a + "/" + r == b + "/" + s
    ensures a == b && r == s
  {
    var x, y := a + "/" + r, b + "/" + s;
    FirstSlashAfter(a, r);
    FirstSlashAfter(b, s);
    assert a == x[..|a|] == y[..|b|] == b;
    assert r == x[|a| + 1..] == y[|b| + 1..] == s;
  }

  /** An app path is the area's prefix, the user, and the rest after a '/'. */
  lemma AppPathShape(area: string, u: int, p: string)
    ensures DataRootPath(area, u) + "/" + p == ("/data/" + area + "/") + (IntToString(u) + "/" + ("sdksandbox/" + p))
  {
  }

  lemma StripPrefix(prefix: string, a: string, b: string)
    requires prefix + a == prefix + b
    ensures a == b
  {
    assert a == (prefix + a)[|prefix|..];
    assert b == (prefix + b)[|prefix|..];
  }

  /** A data root names its user, an app path its user and package, a shared
      path its user and package: distinct inputs give distinct paths. */
  lemma AppPathInjective(area: string, u: int, v: int, p: string, q: string)
    requires DataRootPath(area, u) + "/" + p == DataRootPath(area, v) + "/" + q
    ensures u == v && p == q
  {
    AppPathShape(area, u, p);
    AppPathShape(area, v, q);
    var su, sv := IntToString(u), IntToString(v);
    StripPrefix("/data/" + area + "/", su + "/" + ("sdksandbox/" + p), sv + "/" + ("sdksandbox/" + q));
    SplitAtSlash(su, sv, "sdksandbox/" + p, "sdksandbox/" + q);
    IntToStringInjective(u, v);
    StripPrefix("sdksandbox/", p, q);
  }

  lemma RootPathInjective(u: int, v: int)
    ensures CeDataRootPath(u) == CeDataRootPath(v) ==> u == v
    ensures DeDataRootPath(u) == DeDataRootPath(v) ==> u == v
  {
    if CeDataRootPath(u) == CeDataRootPath(v) {
      AppPathInjective("misc_ce", u, v, "", "");
    }
    if DeDataRootPath(u) == DeDataRootPath(v) {
      AppPathInjective("misc_de", u, v, "", "");
    }
  }

  lemma AppPathsInjective(u: int, v: int, p: string, q: string)
    ensures CeDataAppPath(u, p) == CeDataAppPath(v, q) ==> u == v && p == q
    ensures DeDataAppPath(u, p) == DeDataAppPath(v, q) ==> u == v && p == q
  {
    if CeDataAppPath(u, p) == CeDataAppPath(v, q) {
      AppPathInjective("misc_ce", u, v, p, q);
    }
    if DeDataAppPath(u, p) == DeDataAppPath(v, q) {
      AppPathInjective("misc_de", u, v, p, q);
    }
  }

  lemma SharedPathsInjective(u: int, v: int, p: string, q: string)
    ensures CeDataAppSharedPath(u, p) == CeDataAppSharedPath(v, q) ==> u == v && p == q
    ensures DeDataAppSharedPath(u, p) == DeDataAppSharedPath(v, q) ==> u == v && p == q
  {
    if CeDataAppSharedPath(u, p) == CeDataAppSharedPath(v, q) {
      var x, y := CeDataAppSharedPath(u, p), CeDataAppSharedPath(v, q);
      assert CeDataAppPath(u, p) == x[..|x| - 7] == y[..|y| - 7] == CeDataAppPath(v, q);
      AppPathsInjective(u, v, p, q);
    }
    if DeDataAppSharedPath(u, p) == DeDataAppSharedPath(v, q) {
      var x, y := DeDataAppSharedPath(u, p), DeDataAppSharedPath(v, q);
      assert DeDataAppPath(u, p) == x[..|x| - 7] == y[..|y| - 7] == DeDataAppPath(v, q);
      AppPathsInjective(u, v, p, q);
    }
  }
}
