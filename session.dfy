/**
 * The session manager: a per-visitor key/value store with ", "-joined
 * appends, version-4 UUID session identifiers, value trimming before the
 * store is persisted, and the INI-style line format the store is reloaded
 * from.
 *
 * The random bytes of a UUID, the lines of a session file (and whether the
 * file could be opened) and the formatted current time are parameters; the
 * file writes themselves are not part of this model.
 */
module Session {
  import opened Common
  import opened Http

  // ---------------------------------------------------------------------------
  // Version-4 UUIDs (RFC 4122, sections 4.1.1, 4.1.3 and 4.4)

  const HEX_DIGITS: string := "0123456789abcdef"

  /**
   * The byte emitted at position `i`: byte 6 has its high nibble forced to
   * 0100 (the version), byte 8 its two high bits forced to 10 (the variant);
   * every other byte is emitted as drawn.
   */
  function VersionedByte(i: nat, b: bv8): (r: bv8)
    ensures i != 6 && i != 8 ==> r == b
  {
    if i == 6 then (b & 0x0F) | 0x40
    else if i == 8 then (b & 0x3F) | 0x80
    else b
  }

  /** Two lowercase hex digits, zero-padded, high nibble first. */
  function HexPair(b: bv8): (h: string)
    ensures |h| == 2 && h[0] in HEX_DIGITS && h[1] in HEX_DIGITS
  {
    [HEX_DIGITS[b as int / 16], HEX_DIGITS[b as int % 16]]
  }

  /** A dash follows the hex digits of bytes 3, 5, 7 and 9. */
  predicate DashAfter(i: nat) {
    i == 3 || i == 5 || i == 7 || i == 9
  }

  /** The text the generator has produced after its first `n` bytes. */
  function UuidPrefix(bytes: seq<bv8>, n: nat): (text: string)
    requires n <= |bytes|
  {
    if n == 0 then ""
    else UuidPrefix(bytes, n - 1) + HexPair(VersionedByte(n - 1, bytes[n - 1]))
         + (if DashAfter(n - 1) then "-" else "")
  }

  /** The UUID generated from 16 drawn bytes. */
  function Uuid(bytes: seq<bv8>): (u: string)
    requires |bytes| == 16
    ensures |u| == 36
  {
    UuidPrefixLength(bytes, 16);
    UuidPrefix(bytes, 16)
  }

  function DashesBefore(k: nat): nat {
    (if k > 3 then 1 else 0) + (if k > 5 then 1 else 0) +
    (if k > 7 then 1 else 0) + (if k > 9 then 1 else 0)
  }

  /** Index of the first hex digit of byte `k` in the UUID text. */
  function HexPos(k: nat): nat {
    2 * k + DashesBefore(k)
  }

  predicate IsDashPos(i: int) {
    i == 8 || i == 13 || i == 18 || i == 23
  }

  /** The canonical textual form of a version-4, RFC 4122-variant UUID. */
  predicate IsUuidV4(u: string) {
    |u| == 36 &&
    (forall i :: 0 <= i < 36 ==> (u[i] == '-' <==> IsDashPos(i))) &&
    (forall i :: 0 <= i < 36 && !IsDashPos(i) ==> u[i] in HEX_DIGITS) &&
    u[14] == '4' &&
    u[19] in "89ab"
  }

  /** The text after `n` bytes is as long as the position of the next byte's digits. */
  lemma {:induction false} UuidPrefixLength(bytes: seq<bv8>, n: nat)
    requires n <= |bytes| && n <= 16
    ensures |UuidPrefix(bytes, n)| == HexPos(n)
  {
    if n > 0 {
      UuidPrefixLength(bytes, n - 1);
    }
  }

  /** Byte `k`'s two digits sit at HexPos(k) in the text after `n` > k bytes. */
  lemma {:induction false} UuidPrefixDigits(bytes: seq<bv8>, n: nat, k: nat)
    requires k < n <= |bytes| && n <= 16
    ensures HexPos(k) + 2 <= |UuidPrefix(bytes, n)|
    ensures UuidPrefix(bytes, n)[HexPos(k)..HexPos(k) + 2] == HexPair(VersionedByte(k, bytes[k]))
  {
    var p := UuidPrefix(bytes, n - 1);
    var q := UuidPrefix(bytes, n);
    UuidPrefixLength(bytes, n - 1);
    assert q == p + HexPair(VersionedByte(n - 1, bytes[n - 1])) + (if DashAfter(n - 1) then "-" else "");
    if k < n - 1 {
      UuidPrefixDigits(bytes, n - 1, k);
      assert q[HexPos(k)..HexPos(k) + 2] == p[HexPos(k)..HexPos(k) + 2];
    }
  }

  /** No byte's digits fall on a dash position, and every dash follows its byte's digits. */
  lemma DigitAndDashPositions(k: nat)
    requires k < 16
    ensures !IsDashPos(HexPos(k)) && !IsDashPos(HexPos(k) + 1)
    ensures IsDashPos(HexPos(k) + 2) <==> DashAfter(k)
  {
    assert k <= 3 || k == 4 || k == 5 || k == 6 || k == 7 || k == 8 || k == 9 || k >= 10;
  }

  /** Appending byte n - 1 leaves the earlier text in place. */
  lemma UuidPrefixExtends(bytes: seq<bv8>, n: nat, i: nat)
    requires 0 < n <= |bytes|
    requires i < |UuidPrefix(bytes, n - 1)|
    ensures i < |UuidPrefix(bytes, n)| && UuidPrefix(bytes, n)[i] == UuidPrefix(bytes, n - 1)[i]
  {
  }

  /** The characters appended for byte n - 1: two hex digits off the dash positions, then its dash if any. */
  lemma LastByteChars(bytes: seq<bv8>, n: nat, i: nat)
    requires 0 < n <= |bytes| && n <= 16
    requires |UuidPrefix(bytes, n - 1)| == HexPos(n - 1) <= i < |UuidPrefix(bytes, n)|
    ensures UuidPrefix(bytes, n)[i] == '-' <==> IsDashPos(i)
    ensures !IsDashPos(i) ==> UuidPrefix(bytes, n)[i] in HEX_DIGITS
  {
    var p := UuidPrefix(bytes, n - 1);
    var h := HexPair(VersionedByte(n - 1, bytes[n - 1]));
    var q := UuidPrefix(bytes, n);
    assert q == p + h + (if DashAfter(n - 1) then "-" else "");
    DigitAndDashPositions(n - 1);
    if i < |p| + 2 {
      assert q[i] == h[i - |p|];
      assert '-' !in HEX_DIGITS;
    } else {
      assert DashAfter(n - 1) && q[i] == '-';
    }
  }

  /** In the text after `n` bytes, the dashes are exactly at 8, 13, 18, 23 and all else is hex. */
  lemma {:induction false} UuidPrefixChars(bytes: seq<bv8>, n: nat, i: nat)
    requires n <= |bytes| && n <= 16
    requires i < |UuidPrefix(bytes, n)|
    ensures UuidPrefix(bytes, n)[i] == '-' <==> IsDashPos(i)
    ensures !IsDashPos(i) ==> UuidPrefix(bytes, n)[i] in HEX_DIGITS
  {
    UuidPrefixLength(bytes, n - 1);
    if i < |UuidPrefix(bytes, n - 1)| {
      UuidPrefixChars(bytes, n - 1, i);
      UuidPrefixExtends(bytes, n, i);
    } else {
      LastByteChars(bytes, n, i);
    }
  }

  lemma VersionNibble(b: bv8)
    ensures VersionedByte(6, b) as int / 16 == 4
  {
    assert VersionedByte(6, b) as int == b as int % 16 + 64;
  }

  lemma VariantNibble(b: bv8)
    ensures 8 <= VersionedByte(8, b) as int / 16 < 12
  {
    assert VersionedByte(8, b) as int == b as int % 64 + 128;
  }

  /**
   * Whatever the 16 drawn bytes, the result is 36 lowercase hex digits and
   * dashes, with the dashes exactly at 8, 13, 18 and 23, the version digit
   * '4' at 14 and a variant digit among 8, 9, a, b at 19.
   */
  lemma UuidIsVersion4(bytes: seq<bv8>)
    requires |bytes| == 16
    ensures IsUuidV4(Uuid(bytes))
  {
    var u := Uuid(bytes);
    UuidPrefixLength(bytes, 16);
    forall i | 0 <= i < 36
      ensures (u[i] == '-' <==> IsDashPos(i)) && (!IsDashPos(i) ==> u[i] in HEX_DIGITS)
    {
      UuidPrefixChars(bytes, 16, i);
    }
    UuidPrefixDigits(bytes, 16, 6);
    UuidPrefixDigits(bytes, 16, 8);
    assert u[14..16] == HexPair(VersionedByte(6, bytes[6])) by { assert HexPos(6) == 14; }
    VersionNibble(bytes[6]);
    assert u[14] == HEX_DIGITS[4];
    assert u[19..21] == HexPair(VersionedByte(8, bytes[8])) by { assert HexPos(8) == 19; }
    VariantNibble(bytes[8]);
    var v := VersionedByte(8, bytes[8]) as int / 16;
    assert u[19] == HEX_DIGITS[v];
    assert HEX_DIGITS[v] in "89ab" by {
      assert HEX_DIGITS[8] == '8' && HEX_DIGITS[9] == '9' && HEX_DIGITS[10] == 'a' && HEX_DIGITS[11] == 'b';
    }
  }

  /** The value of a lowercase hex digit. */
  function HexValue(c: char): nat {
    if '0' <= c <= '9' then (c - '0') as nat
    else if 'a' <= c <= 'f' then (c - 'a') as nat + 10
    else 0
  }

  lemma HexValueOfDigit(d: nat)
    requires d < 16
    ensures HexValue(HEX_DIGITS[d]) == d
  {
  }

  /** Reads the 16 byte values back out of a UUID text. */
  function UuidBytes(u: string): (values: seq<nat>)
    requires |u| == 36
    ensures |values| == 16
  {
    seq(16, k requires 0 <= k < 16 => HexValue(u[HexPos(k)]) * 16 + HexValue(u[HexPos(k) + 1]))
  }

  /**
   * The UUID text determines the emitted bytes: reading it back gives every
   * drawn byte, with only the version and variant bits replaced.
   */
  lemma UuidRoundTrip(bytes: seq<bv8>)
    requires |bytes| == 16
    ensures |Uuid(bytes)| == 36
    ensures UuidBytes(Uuid(bytes)) == seq(16, k requires 0 <= k < 16 => VersionedByte(k, bytes[k]) as nat)
  {
    var u := Uuid(bytes);
    UuidPrefixLength(bytes, 16);
    forall k | 0 <= k < 16
      ensures HexValue(u[HexPos(k)]) * 16 + HexValue(u[HexPos(k) + 1]) == VersionedByte(k, bytes[k]) as nat
    {
      var v := VersionedByte(k, bytes[k]) as int;
      UuidPrefixDigits(bytes, 16, k);
      assert u[HexPos(k)..HexPos(k) + 2] == HexPair(VersionedByte(k, bytes[k]));
      assert u[HexPos(k)] == HEX_DIGITS[v / 16] && u[HexPos(k) + 1] == HEX_DIGITS[v % 16];
      HexValueOfDigit(v / 16);
      HexValueOfDigit(v % 16);
    }
  }

  /** Two draws give the same identifier only if they agree outside the version and variant bits. */
  lemma UuidDeterminesBytes(a: seq<bv8>, b: seq<bv8>)
    requires |a| == 16 && |b| == 16
    requires Uuid(a) == Uuid(b)
    ensures forall k :: 0 <= k < 16 ==> VersionedByte(k, a[k]) == VersionedByte(k, b[k])
  {
    UuidRoundTrip(a);
    UuidRoundTrip(b);
    forall k | 0 <= k < 16
      ensures VersionedByte(k, a[k]) == VersionedByte(k, b[k])
    {
      assert UuidBytes(Uuid(a))[k] == UuidBytes(Uuid(b))[k];
    }
  }

  /** generateUUID, the 16 bytes rand() would have drawn being `randomBytes`. */
  method GenerateUuid(randomBytes: seq<bv8>) returns (uuid: string)
    requires |randomBytes| == 16
    ensures uuid == Uuid(randomBytes)
    ensures IsUuidV4(uuid)
  {
    uuid := "";
    var i := 0;
    while i < 16
      invariant 0 <= i <= 16
      invariant uuid == UuidPrefix(randomBytes, i)
    {
      var byte := randomBytes[i];
      if i == 6 {
        byte := byte & 0x0F;
        byte := byte | 0x40;
      }
      if i == 8 {
        byte := byte & 0x3F;
        byte := byte | 0x80;
      }
      uuid := uuid + HexPair(byte);
      if i == 3 || i == 5 || i == 7 || i == 9 {
        uuid := uuid + "-";
      }
      i := i + 1;
    }
    UuidIsVersion4(randomBytes);
  }

  // ---------------------------------------------------------------------------
  // cleanValue

  /** The characters isspace() accepts in the C locale. */
  function IsSpace(c: char): (r: bool)
    ensures r <==> c == ' ' || '\t' <= c <= '\r'
  {
    c == ' ' || c == '\t' || c == '\n' || c == '\U{000B}' || c == '\U{000C}' || c == '\r'
  }

  /** How many whitespace characters `s` starts with. */
  function LeadingSpaces(s: string): (n: nat)
    ensures n <= |s|
    ensures forall i :: 0 <= i < n ==> IsSpace(s[i])
    ensures n < |s| ==> !IsSpace(s[n])
  {
    if s == [] || !IsSpace(s[0]) then 0 else 1 + LeadingSpaces(s[1..])
  }

  /** How many whitespace characters `s` ends with. */
  function TrailingSpaces(s: string): (n: nat)
    ensures n <= |s|
    ensures forall i :: |s| - n <= i < |s| ==> IsSpace(s[i])
    ensures n < |s| ==> !IsSpace(s[|s| - 1 - n])
  {
    if s == [] || !IsSpace(s[|s| - 1]) then 0 else 1 + TrailingSpaces(s[..|s| - 1])
  }

  lemma {:induction false} LeadingSpacesUnique(s: string, k: nat)
    requires k <= |s|
    requires forall i :: 0 <= i < k ==> IsSpace(s[i])
    requires k < |s| ==> !IsSpace(s[k])
    ensures LeadingSpaces(s) == k
  {
    if k > 0 {
      assert IsSpace(s[0]);
      LeadingSpacesUnique(s[1..], k - 1);
    }
  }

  lemma {:induction false} TrailingSpacesUnique(s: string, k: nat)
    requires k <= |s|
    requires forall i :: |s| - k <= i < |s| ==> IsSpace(s[i])
    requires k < |s| ==> !IsSpace(s[|s| - 1 - k])
    ensures TrailingSpaces(s) == k
  {
    if k > 0 {
      assert IsSpace(s[|s| - 1]);
      TrailingSpacesUnique(s[..|s| - 1], k - 1);
    }
  }

  /**
   * `s` without its leading and trailing whitespace: a contiguous piece of `s`
   * starting after its leading whitespace, followed in `s` only by whitespace,
   * and neither starting nor ending with whitespace itself.
   */
  function Trim(s: string): (r: string)
    ensures LeadingSpaces(s) + |r| <= |s|
    ensures r == s[LeadingSpaces(s)..LeadingSpaces(s) + |r|]
    ensures forall i :: LeadingSpaces(s) + |r| <= i < |s| ==> IsSpace(s[i])
    ensures r != [] ==> !IsSpace(r[0]) && !IsSpace(r[|r| - 1])
  {
    var rest := s[LeadingSpaces(s)..];
    rest[..|rest| - TrailingSpaces(rest)]
  }

  /** Trimming twice is trimming once. */
  lemma TrimIdempotent(s: string)
    ensures Trim(Trim(s)) == Trim(s)
  {
    var r := Trim(s);
    LeadingSpacesUnique(r, 0);
    TrailingSpacesUnique(r, 0);
  }

  /** cleanValue: the two index loops of the source, proved to compute Trim. */
  method CleanValue(value: string) returns (r: string)
    ensures r == Trim(value)
    ensures value == "" ==> r == ""
  {
    if |value| == 0 {
      return value;
    }
    var start, end := 0, |value|;
    while start < end && IsSpace(value[start])
      invariant start <= end == |value|
      invariant forall i :: 0 <= i < start ==> IsSpace(value[i])
    {
      start := start + 1;
    }
    LeadingSpacesUnique(value, start);
    while end > start && IsSpace(value[end - 1])
      invariant start <= end <= |value|
      invariant forall i :: end <= i < |value| ==> IsSpace(value[i])
    {
      end := end - 1;
    }
    ghost var rest := value[start..];
    TrailingSpacesUnique(rest, |value| - end);
    r := value[start..end];
    assert r == rest[..|rest| - TrailingSpaces(rest)];
  }

  // ---------------------------------------------------------------------------
  // The key/value store

  /** The store after setData(key, value, append). */
  function SetEntry(data: map<string, string>, key: string, value: string, append: bool): (d: map<string, string>)
    ensures d.Keys == data.Keys + {key}
    ensures append && key in data ==> d[key] == data[key] + ", " + value
    ensures !(append && key in data) ==> d[key] == value
    ensures forall k :: k in data && k != key ==> d[k] == data[k]
  {
    data[key := if append && key in data then data[key] + ", " + value else value]
  }

  /** getData: the stored value, or the empty string for a missing key. */
  function Lookup(data: map<string, string>, key: string): (v: string)
    ensures key in data ==> v == data[key]
    ensures key !in data ==> v == ""
  {
    if key in data then data[key] else ""
  }

  /** Reading back what setData stored: the new value, and every other key as before. */
  lemma SetThenGet(data: map<string, string>, key: string, value: string, append: bool, other: string)
    ensures Lookup(SetEntry(data, key, value, append), key)
         == (if append && key in data then data[key] + ", " + value else value)
    ensures other != key ==> Lookup(SetEntry(data, key, value, append), other) == Lookup(data, other)
  {
  }

  /** persistSession's cleaning pass: every stored value trimmed, no key added or dropped. */
  function CleanAll(data: map<string, string>): (d: map<string, string>)
    ensures d.Keys == data.Keys
    ensures forall k :: k in d ==> d[k] == Trim(data[k])
  {
    map k | k in data :: Trim(data[k])
  }

  /** A cleaned store is left as it is by a second cleaning. */
  lemma CleanAllIdempotent(data: map<string, string>)
    ensures CleanAll(CleanAll(data)).Keys == data.Keys
    ensures forall k :: k in data ==> CleanAll(CleanAll(data))[k] == CleanAll(data)[k]
  {
    forall k | k in data
      ensures CleanAll(CleanAll(data))[k] == CleanAll(data)[k]
    {
      TrimIdempotent(data[k]);
    }
  }

  // ---------------------------------------------------------------------------
  // The session file's line format

  /** The first index of `c` in `s`, if any. */
  function FindChar(s: string, c: char): (r: Option<nat>)
    ensures r.None? ==> c !in s
    ensures r.Some? ==> r.value < |s| && s[r.value] == c && c !in s[..r.value]
  {
    if s == [] then None
    else if s[0] == c then Some(0)
    else match FindChar(s[1..], c)
      case None => None
      case Some(i) =>
        assert s[..i + 1] == [s[0]] + s[1..][..i];
        Some(i + 1)
  }

  /** How loadSession reads one line. */
  datatype LineKind =
    | Skipped                          // empty, or a '#' comment
    | Section(name: string)            // "[name]"
    | Entry(key: string, value: string)
    | NoDelimiter                      // anything else without '='

  function ClassifyLine(line: string): (k: LineKind)
    ensures k == Skipped <==> line == [] || line[0] == '#'
    ensures k.Section? ==> line == "[" + k.name + "]"
    ensures k.Entry? ==> line == k.key + "=" + k.value && '=' !in k.key
    ensures k.NoDelimiter? ==> '=' !in line
    ensures line != [] && line[0] == '[' && line[|line| - 1] == ']' ==> k.Section?
    ensures line != [] && line[0] != '#' && !(line[0] == '[' && line[|line| - 1] == ']') ==>
              (k.Entry? <==> '=' in line)
  {
    if line == [] || line[0] == '#' then Skipped
    else if line[0] == '[' && line[|line| - 1] == ']' then
      assert line == "[" + line[1..|line| - 1] + "]";
      Section(line[1..|line| - 1])
    else match FindChar(line, '=')
      case None => NoDelimiter
      case Some(p) =>
        assert line == line[..p] + "=" + line[p + 1..];
        Entry(line[..p], line[p + 1..])
  }

  predicate Defines(line: string, key: string) {
    ClassifyLine(line).Entry? && ClassifyLine(line).key == key
  }

  /** `key` holds the same value (or is absent) in both stores. */
  predicate SameEntry(d: map<string, string>, data: map<string, string>, key: string) {
    (key in d <==> key in data) && (key in d ==> d[key] == data[key])
  }

  /** The store after one line: only an entry line stores anything. */
  function ApplyLine(data: map<string, string>, line: string): (d: map<string, string>)
    ensures forall k :: Defines(line, k) ==> k in d && d[k] == ClassifyLine(line).value
    ensures forall k :: !Defines(line, k) ==> SameEntry(d, data, k)
  {
    match ClassifyLine(line)
    case Entry(k, v) => data[k := v]
    case _ => data
  }

  /** The store after reading `lines` in order. */
  function LoadLines(data: map<string, string>, lines: seq<string>): (d: map<string, string>)
    ensures data.Keys <= d.Keys
    decreases |lines|
  {
    if lines == [] then data
    else ApplyLine(LoadLines(data, lines[..|lines| - 1]), lines[|lines| - 1])
  }

  predicate DefinedIn(lines: seq<string>, key: string) {
    exists i :: 0 <= i < |lines| && Defines(lines[i], key)
  }

  lemma DefinedInSnoc(lines: seq<string>, key: string)
    requires lines != []
    ensures DefinedIn(lines, key) <==>
              DefinedIn(lines[..|lines| - 1], key) || Defines(lines[|lines| - 1], key)
  {
    var init := lines[..|lines| - 1];
    if DefinedIn(init, key) {
      var i :| 0 <= i < |init| && Defines(init[i], key);
      assert lines[i] == init[i];
    }
    if DefinedIn(lines, key) {
      var i :| 0 <= i < |lines| && Defines(lines[i], key);
      if i < |init| {
        assert init[i] == lines[i];
      }
    }
  }

  /**
   * After loading, a key is present exactly when it was before or some line
   * defines it, and a key no line defines keeps its old value.
   */
  lemma {:induction false} LoadedKeys(data: map<string, string>, lines: seq<string>, key: string)
    ensures key in LoadLines(data, lines) <==> key in data || DefinedIn(lines, key)
    ensures !DefinedIn(lines, key) ==> SameEntry(LoadLines(data, lines), data, key)
    decreases |lines|
  {
    if lines != [] {
      LoadedKeys(data, lines[..|lines| - 1], key);
      DefinedInSnoc(lines, key);
    }
  }

  /** The value a key ends up with is the one on the last line that defines it. */
  lemma {:induction false} LastDefinitionWins(data: map<string, string>, lines: seq<string>, i: nat)
    requires i < |lines| && ClassifyLine(lines[i]).Entry?
    requires forall j :: i < j < |lines| ==> !Defines(lines[j], ClassifyLine(lines[i]).key)
    ensures ClassifyLine(lines[i]).key in LoadLines(data, lines)
    ensures LoadLines(data, lines)[ClassifyLine(lines[i]).key] == ClassifyLine(lines[i]).value
    decreases |lines|
  {
    var init := lines[..|lines| - 1];
    if i < |lines| - 1 {
      assert lines[i] == init[i];
      LastDefinitionWins(data, init, i);
    }
  }

  /** Blank lines, comments, section headers and lines without '=' store nothing. */
  lemma NonEntriesStoreNothing(data: map<string, string>, line: string)
    requires !ClassifyLine(line).Entry?
    ensures LoadLines(data, [line]) == data
  {
    assert [line][..0] == [];
  }

  // ---------------------------------------------------------------------------
  // Per-request bookkeeping

  /** The store as loadSession leaves it: reloaded from the file when it opened. */
  function Loaded(data: map<string, string>, fileOpened: bool, lines: seq<string>): (d: map<string, string>)
    ensures data.Keys <= d.Keys
    ensures !fileOpened ==> d == data
  {
    if fileOpened then LoadLines(data, lines) else data
  }

  /** The status bookkeeping: "new user" on a first connection, promoted to "existing user" on the next. */
  function UpdateStatus(data: map<string, string>, firstCon: bool): (d: map<string, string>)
    ensures firstCon ==> "status" in d && d["status"] == "new user"
    ensures !firstCon && Lookup(data, "status") == "new user" ==> "status" in d && d["status"] == "existing user"
    ensures !firstCon && Lookup(data, "status") != "new user" ==> d == data
    ensures forall k :: k != "status" ==> SameEntry(d, data, k)
  {
    if firstCon then SetEntry(data, "status", "new user", false)
    else if Lookup(data, "status") == "new user" then SetEntry(data, "status", "existing user", false)
    else data
  }

  /** setData(key, value, true) when `value` is non-empty; nothing otherwise. */
  function AppendIfGiven(data: map<string, string>, key: string, value: string): (d: map<string, string>)
    ensures value != "" ==>
              key in d && d[key] == (if key in data then data[key] + ", " + value else value)
    ensures value == "" ==> d == data
    ensures forall k :: k != key ==> SameEntry(d, data, k)
  {
    if value != "" then SetEntry(data, key, value, true) else data
  }

  /** What manageUserSession does to the loaded store, step by step as the source does it. */
  function UpdateForRequest(data: map<string, string>, firstCon: bool, path: string,
                            httpMethod: string, userAgent: string, now: string): (d: map<string, string>)
    ensures data.Keys + {"last_access_time"} <= d.Keys <= data.Keys + TRACKED
  {
    var withStatus := UpdateStatus(data, firstCon);
    var withTime := SetEntry(withStatus, "last_access_time", now, true);
    var withPage := AppendIfGiven(withTime, "requested_pages", path);
    var withMethod := AppendIfGiven(withPage, "methods", httpMethod);
    if userAgent != "" then SetEntry(withMethod, "user_agent", userAgent, false) else withMethod
  }

  /**
   * The status after a request: "new user" on a first connection, promoted
   * from "new user" to "existing user" on a return, otherwise as loaded.
   */
  lemma UpdateSetsStatus(data: map<string, string>, firstCon: bool, path: string,
                         httpMethod: string, userAgent: string, now: string)
    ensures var d := UpdateForRequest(data, firstCon, path, httpMethod, userAgent, now);
      (firstCon ==> "status" in d && d["status"] == "new user") &&
      (!firstCon && Lookup(data, "status") == "new user" ==> "status" in d && d["status"] == "existing user") &&
      (!firstCon && Lookup(data, "status") != "new user" ==> SameEntry(d, data, "status"))
  {
    var withStatus := UpdateStatus(data, firstCon);
    var withTime := SetEntry(withStatus, "last_access_time", now, true);
    var withPage := AppendIfGiven(withTime, "requested_pages", path);
    var withMethod := AppendIfGiven(withPage, "methods", httpMethod);
    assert SameEntry(withTime, withStatus, "status");
    assert SameEntry(withPage, withTime, "status");
    assert SameEntry(withMethod, withPage, "status");
  }

  /**
   * The access time is always appended; the page and the method are appended
   * when the request has one and left as loaded otherwise.
   */
  lemma UpdateAppendsHistory(data: map<string, string>, firstCon: bool, path: string,
                             httpMethod: string, userAgent: string, now: string)
    ensures var d := UpdateForRequest(data, firstCon, path, httpMethod, userAgent, now);
      "last_access_time" in d &&
      d["last_access_time"] == (if "last_access_time" in data then data["last_access_time"] + ", " + now else now) &&
      (path != "" ==>
         "requested_pages" in d &&
         d["requested_pages"] == (if "requested_pages" in data then data["requested_pages"] + ", " + path else path)) &&
      (path == "" ==> SameEntry(d, data, "requested_pages")) &&
      (httpMethod != "" ==>
         "methods" in d &&
         d["methods"] == (if "methods" in data then data["methods"] + ", " + httpMethod else httpMethod)) &&
      (httpMethod == "" ==> SameEntry(d, data, "methods"))
  {
    var withStatus := UpdateStatus(data, firstCon);
    var withTime := SetEntry(withStatus, "last_access_time", now, true);
    var withPage := AppendIfGiven(withTime, "requested_pages", path);
    var withMethod := AppendIfGiven(withPage, "methods", httpMethod);
    var d := UpdateForRequest(data, firstCon, path, httpMethod, userAgent, now);
    assert SameEntry(withStatus, data, "last_access_time");
    assert SameEntry(d, withTime, "last_access_time") by {
      assert SameEntry(withPage, withTime, "last_access_time");
      assert SameEntry(withMethod, withPage, "last_access_time");
    }
    assert SameEntry(withTime, data, "requested_pages") by {
      assert SameEntry(withStatus, data, "requested_pages");
    }
    assert SameEntry(d, withPage, "requested_pages") by {
      assert SameEntry(withMethod, withPage, "requested_pages");
    }
    assert SameEntry(withPage, data, "methods") by {
      assert SameEntry(withStatus, data, "methods");
      assert SameEntry(withTime, withStatus, "methods");
    }
    assert SameEntry(d, withMethod, "methods");
  }

  /** The user agent is overwritten when the request carries one and left as loaded otherwise. */
  lemma UpdateSetsUserAgent(data: map<string, string>, firstCon: bool, path: string,
                            httpMethod: string, userAgent: string, now: string)
    ensures var d := UpdateForRequest(data, firstCon, path, httpMethod, userAgent, now);
      (userAgent != "" ==> "user_agent" in d && d["user_agent"] == userAgent) &&
      (userAgent == "" ==> SameEntry(d, data, "user_agent"))
  {
    var withStatus := UpdateStatus(data, firstCon);
    var withTime := SetEntry(withStatus, "last_access_time", now, true);
    var withPage := AppendIfGiven(withTime, "requested_pages", path);
    var withMethod := AppendIfGiven(withPage, "methods", httpMethod);
    assert SameEntry(withMethod, data, "user_agent") by {
      assert SameEntry(withStatus, data, "user_agent");
      assert SameEntry(withTime, withStatus, "user_agent");
      assert SameEntry(withPage, withTime, "user_agent");
    }
  }

  const TRACKED: set<string> := {"status", "last_access_time", "requested_pages", "methods", "user_agent"}

  /** No entry but the five tracked ones is touched by a request. */
  lemma UpdateKeepsOthers(data: map<string, string>, firstCon: bool, path: string,
                          httpMethod: string, userAgent: string, now: string, key: string)
    requires key !in TRACKED
    ensures SameEntry(UpdateForRequest(data, firstCon, path, httpMethod, userAgent, now), data, key)
  {
    var withStatus := UpdateStatus(data, firstCon);
    var withTime := SetEntry(withStatus, "last_access_time", now, true);
    var withPage := AppendIfGiven(withTime, "requested_pages", path);
    var withMethod := AppendIfGiven(withPage, "methods", httpMethod);
    assert SameEntry(withMethod, data, key) by {
      assert SameEntry(withStatus, data, key);
      assert SameEntry(withTime, withStatus, key);
      assert SameEntry(withPage, withTime, key);
    }
  }

  class SessionManager {
    var sessionId: string
    var firstCon: bool
    var sessionData: map<string, string>

    /**
     * A manager for the session named by the cookie value `sessionId`; with no
     * id, a fresh UUID is generated from `randomBytes` and the visitor counts
     * as new.
     */
    constructor (sessionId: string, randomBytes: seq<bv8>)
      requires |randomBytes| == 16
      ensures sessionId != "" ==> this.sessionId == sessionId && !firstCon
      ensures sessionId == "" ==> this.sessionId == Uuid(randomBytes) && IsUuidV4(this.sessionId) && firstCon
      ensures sessionData == map[]
    {
      var id := sessionId;
      var first := false;
      if |sessionId| == 0 {
        id := GenerateUuid(randomBytes);
        first := true;
      }
      this.sessionId := id;
      firstCon := first;
      sessionData := map[];
    }

    /** getData */
    function GetData(key: string): (v: string)
      reads this
      ensures v == Lookup(sessionData, key)
    {
      Lookup(sessionData, key)
    }

    /** setData: store `value`, or append it after ", " when asked to and the key exists. */
    method SetData(key: string, value: string, append: bool)
      modifies this`sessionData
      ensures sessionData == SetEntry(old(sessionData), key, value, append)
    {
      if append && key in sessionData {
        sessionData := sessionData[key := sessionData[key] + ", " + value];
      } else {
        sessionData := sessionData[key := value];
      }
    }

    /**
     * loadSession, the file holding `lines` when `fileOpened`. A missing file
     * marks a first connection and loads nothing.
     */
    method LoadSession(fileOpened: bool, lines: seq<string>)
      modifies this`sessionData, this`firstCon
      ensures firstCon == !fileOpened
      ensures sessionData == Loaded(old(sessionData), fileOpened, lines)
    {
      if !fileOpened {
        firstCon := true;
        return;
      }
      firstCon := false;
      var currentSection := "";
      var i := 0;
      while i < |lines|
        invariant i <= |lines| && !firstCon
        invariant sessionData == LoadLines(old(sessionData), lines[..i])
      {
        var line := lines[i];
        assert lines[..i + 1][..i] == lines[..i];
        if line == [] || line[0] == '#' {
        } else if line[0] == '[' && line[|line| - 1] == ']' {
          currentSection := line[1..|line| - 1];
        } else {
          var delimiter := FindChar(line, '=');
          if delimiter.Some? {
            sessionData := sessionData[line[..delimiter.value] := line[delimiter.value + 1..]];
          }
        }
        i := i + 1;
      }
      assert lines[..i] == lines;
    }

    /**
     * persistSession as far as the store is concerned: every value is replaced
     * by its cleaned form, one entry at a time.
     */
    method PersistSession()
      modifies this`sessionData
      ensures sessionData == CleanAll(old(sessionData))
    {
      var pending := sessionData.Keys;
      while pending != {}
        invariant pending <= sessionData.Keys && sessionData.Keys == old(sessionData).Keys
        invariant forall k :: k in pending ==> sessionData[k] == old(sessionData)[k]
        invariant forall k :: k in sessionData && k !in pending ==> sessionData[k] == Trim(old(sessionData)[k])
        decreases pending
      {
        var k :| k in pending;
        var cleaned := CleanValue(sessionData[k]);
        sessionData := sessionData[k := cleaned];
        pending := pending - {k};
      }
    }

    /**
     * manageUserSession for `req` at formatted time `now`, the session file
     * being absent or holding `lines`. Returns the Set-Cookie value
     * put on the response for a first connection.
     */
    method ManageUserSession(req: Request, now: string, fileOpened: bool, lines: seq<string>)
      returns (setCookie: Option<string>)
      modifies this`sessionData, this`firstCon
      ensures firstCon == !fileOpened
      ensures setCookie == if firstCon then Some(sessionId + "; Path=/; HttpOnly") else None
      ensures sessionData ==
                UpdateForRequest(Loaded(old(sessionData), fileOpened, lines), firstCon,
                                 req.path, req.httpMethod, StrHeader(req, "User-Agent"), now)
    {
      LoadSession(fileOpened, lines);
      setCookie := None;
      if firstCon {
        setCookie := Some(sessionId + "; Path=/; HttpOnly");
        SetData("status", "new user", false);
      } else {
        if GetData("status") == "new user" {
          SetData("status", "existing user", false);
        }
      }
      SetData("last_access_time", now, true);
      var path := req.path;
      var httpMethod := req.httpMethod;
      var userAgent := StrHeader(req, "User-Agent");
      if path != "" {
        SetData("requested_pages", path, true);
      }
      if httpMethod != "" {
        SetData("methods", httpMethod, true);
      }
      if userAgent != "" {
        SetData("user_agent", userAgent, false);
      }
    }
  }
}
