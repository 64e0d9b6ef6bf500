/** What is fed to the digests of a checkout (`GitInspector._manifest`) and of a runtime tree
    (`python_runtime_sha256`). */
module ManifestEncoding {
  import opened Bytes
  import opened Processes

  const MISSING: seq<Byte> := [109, 105, 115, 115, 105, 110, 103]
  const FILE: seq<Byte> := [102, 105, 108, 101]
  const SYMLINK: seq<Byte> := [115, 121, 109, 108, 105, 110, 107]
  const DIRECTORY: seq<Byte> := [100, 105, 114, 101, 99, 116, 111, 114, 121]
  const DASH: seq<Byte> := [45]
  const DOT: seq<Byte> := [46]
  const NUL: Byte := 0

  // ----- Numbers, fields and separators -----

  datatype Base = EIGHT | TEN

  function Size(base: Base): nat {
    if base.EIGHT? then 8 else 10
  }

  function Quotient(n: nat, base: Base): nat {
    if base.EIGHT? then n / 8 else n / 10
  }

  function Remainder(n: nat, base: Base): (r: nat)
    ensures r < Size(base)
  {
    if base.EIGHT? then n % 8 else n % 10
  }

  function Scaled(n: int, base: Base): int {
    if base.EIGHT? then 8 * n else 10 * n
  }

  function Digits(n: nat, base: Base): (s: seq<Byte>)
    ensures s != [] && NUL !in s
  {
    if n < Size(base) then [48 + n] else Digits(Quotient(n, base), base) + [48 + Remainder(n, base)]
  }

  /** The number that the first n digits write. */
  function Value(s: seq<Byte>, n: nat, base: Base): int
    requires n <= |s|
  {
    if n == 0 then 0 else Scaled(Value(s, n - 1, base), base) + s[n - 1] - 48
  }

  function FromDigits(s: seq<Byte>, base: Base): int {
    Value(s, |s|, base)
  }

  lemma {:induction false} ValueIsLocal(a: seq<Byte>, b: seq<Byte>, n: nat, base: Base)
    requires n <= |a| && n <= |b| && forall i | 0 <= i < n :: a[i] == b[i]
    ensures Value(a, n, base) == Value(b, n, base)
  {
    if n > 0 {
      ValueIsLocal(a, b, n - 1, base);
    }
  }

  lemma LastDigit(front: seq<Byte>, digit: Byte, base: Base)
    ensures FromDigits(front + [digit], base) == Scaled(FromDigits(front, base), base) + digit - 48
  {
    ValueIsLocal(front, front + [digit], |front|, base);
  }

  lemma {:induction false} DigitsRoundTrip(n: nat, base: Base)
    ensures FromDigits(Digits(n, base), base) == n
  {
    if n < Size(base) {
      assert Value(Digits(n, base), 0, base) == 0;
    } else {
      DigitsRoundTrip(Quotient(n, base), base);
      LastDigit(Digits(Quotient(n, base), base), 48 + Remainder(n, base), base);
    }
  }

  /** `oct` */
  function Octal(n: nat): (s: seq<Byte>)
    ensures NUL !in s
  {
    [48, 111] + Digits(n, EIGHT)
  }

  predicate Short(value: seq<Byte>) {
    |value| < Capacity(8)
  }

  /** A length in eight bytes, then the value. */
  function Field(value: seq<Byte>): seq<Byte> {
    BigEndian(|value|, 8) + value
  }

  datatype Cut = Cut(value: seq<Byte>, rest: seq<Byte>)

  function CutField(s: seq<Byte>): Option<Cut> {
    if |s| < 8 then None
    else
      var length := FromBigEndian(s[..8]);
      if |s| - 8 < length then None else Some(Cut(s[8..8 + length], s[8 + length..]))
  }

  lemma FieldRoundTrip(value: seq<Byte>, rest: seq<Byte>)
    requires Short(value)
    ensures CutField(Field(value) + rest) == Some(Cut(value, rest))
  {
    var s := Field(value) + rest;
    BigEndianRoundTrip(|value|, 8);
    assert s[..8] == BigEndian(|value|, 8);
    assert s[8..8 + |value|] == value && s[8 + |value|..] == rest;
  }

  /** What precedes the first separator, and what follows it. */
  function CutNul(s: seq<Byte>): Cut {
    if s == [] then Cut([], [])
    else if s[0] == NUL then Cut([], s[1..])
    else Cut([s[0]] + CutNul(s[1..]).value, CutNul(s[1..]).rest)
  }

  lemma {:induction false} NulRoundTrip(value: seq<Byte>, rest: seq<Byte>)
    requires NUL !in value
    ensures CutNul(value + [NUL] + rest) == Cut(value, rest)
  {
    var s := value + [NUL] + rest;
    if value == [] {
      assert s[1..] == rest;
    } else {
      NulRoundTrip(value[1..], rest);
      assert s[1..] == value[1..] + [NUL] + rest && value == [s[0]] + value[1..];
    }
  }

  // ----- The checkout manifest -----

  /** What `lstat` and hashing find at a path; a digest is hexadecimal text. */
  datatype Found =
    | Missing
    | Regular(mode: nat, digest: seq<Byte>)
    | Link(mode: nat, digest: seq<Byte>)
    | Folder(mode: nat)

  datatype Entry = Entry(path: seq<Byte>, found: Found) {
    predicate Valid() {
      NUL !in path && (found.Regular? || found.Link? ==> NUL !in found.digest) && Short(Record(this))
    }
  }

  function Kind(found: Found): (s: seq<Byte>)
    ensures NUL !in s
  {
    match found
    case Missing => MISSING
    case Regular(_, _) => FILE
    case Link(_, _) => SYMLINK
    case Folder(_) => DIRECTORY
  }

  function Mode(found: Found): (s: seq<Byte>)
    ensures NUL !in s
  {
    if found.Missing? then DASH else Octal(found.mode)
  }

  function ContentDigest(found: Found): seq<Byte> {
    if found.Regular? || found.Link? then found.digest else DASH
  }

  function Record(entry: Entry): seq<Byte> {
    entry.path + [NUL] + (Kind(entry.found) + [NUL] + (Mode(entry.found) + [NUL] + ContentDigest(entry.found)))
  }

  function Manifest(entries: seq<Entry>): seq<Byte> {
    if entries == [] then [] else Field(Record(entries[0])) + Manifest(entries[1..])
  }

  function ReadFound(kind: seq<Byte>, mode: seq<Byte>, digest: seq<Byte>): Option<Found> {
    if kind == MISSING then Some(Missing)
    else if |mode| < 2 || FromDigits(mode[2..], EIGHT) < 0 then None
    else
      var n := FromDigits(mode[2..], EIGHT);
      if kind == FILE then Some(Regular(n, digest))
      else if kind == SYMLINK then Some(Link(n, digest))
      else if kind == DIRECTORY then Some(Folder(n))
      else None
  }

  function ReadRecord(s: seq<Byte>): Option<Entry> {
    var path := CutNul(s);
    var kind := CutNul(path.rest);
    var mode := CutNul(kind.rest);
    var found := ReadFound(kind.value, mode.value, mode.rest);
    if found.None? then None else Some(Entry(path.value, found.value))
  }

  function ReadManifest(s: seq<Byte>): Option<seq<Entry>>
    decreases |s|
  {
    if s == [] then Some([])
    else
      var cut := CutField(s);
      if cut.None? then None
      else
        var entry, later := ReadRecord(cut.value.value), ReadManifest(cut.value.rest);
        if entry.None? || later.None? then None else Some([entry.value] + later.value)
  }

  lemma FoundRoundTrip(found: Found)
    ensures ReadFound(Kind(found), Mode(found), ContentDigest(found)) == Some(found)
  {
    if !found.Missing? {
      DigitsRoundTrip(found.mode, EIGHT);
      assert Mode(found)[2..] == Digits(found.mode, EIGHT);
      assert Kind(found)[0] != MISSING[0];
    }
  }

  lemma RecordRoundTrip(entry: Entry)
    requires entry.Valid()
    ensures ReadRecord(Record(entry)) == Some(entry)
  {
    var found := entry.found;
    NulRoundTrip(entry.path, Kind(found) + [NUL] + (Mode(found) + [NUL] + ContentDigest(found)));
    NulRoundTrip(Kind(found), Mode(found) + [NUL] + ContentDigest(found));
    NulRoundTrip(Mode(found), ContentDigest(found));
    FoundRoundTrip(found);
  }

  lemma FirstEntry(entry: Entry, rest: seq<Byte>)
    requires entry.Valid() && ReadManifest(rest).Some?
    ensures ReadManifest(Field(Record(entry)) + rest) == Some([entry] + ReadManifest(rest).value)
  {
    FieldRoundTrip(Record(entry), rest);
    RecordRoundTrip(entry);
  }

  /** The manifest's entries are read back from what was hashed. */
  lemma {:induction false} ManifestRoundTrip(entries: seq<Entry>)
    requires forall entry | entry in entries :: entry.Valid()
    ensures ReadManifest(Manifest(entries)) == Some(entries)
  {
    if entries != [] {
      FirstAndLater(entries);
      ManifestRoundTrip(entries[1..]);
      FirstEntry(entries[0], Manifest(entries[1..]));
    }
  }

  lemma FirstAndLater(entries: seq<Entry>)
    requires entries != [] && forall entry | entry in entries :: entry.Valid()
    ensures entries[0].Valid() && forall entry | entry in entries[1..] :: entry.Valid()
    ensures entries == [entries[0]] + entries[1..]
  {
    assert forall entry | entry in entries[1..] :: entry in entries;
  }

  /** Equal bytes, equal checkouts: paths, kinds, modes and content digests. */
  lemma ManifestIsUnambiguous(a: seq<Entry>, b: seq<Entry>)
    requires forall entry | entry in a + b :: entry.Valid()
    ensures Manifest(a) == Manifest(b) <==> a == b
  {
    assert forall entry | entry in a || entry in b :: entry in a + b;
    ManifestRoundTrip(a);
    ManifestRoundTrip(b);
  }

  /** What `lstat` answers of a path, and what hashing what is there would give. */
  datatype Metadata = NotFound | RegularFile(mode: nat, contents: seq<Byte>)
    | SymbolicLink(mode: nat, target: seq<Byte>) | DirectoryAt(mode: nat) | OtherEntry(mode: nat)

  function FoundAt(metadata: Metadata, sha256: seq<Byte> -> seq<Byte>): Found
    requires !metadata.OtherEntry?
  {
    match metadata
    case NotFound => Missing
    case RegularFile(mode, contents) => Regular(mode, sha256(contents))
    case SymbolicLink(mode, target) => Link(mode, sha256(target))
    case DirectoryAt(mode) => Folder(mode)
  }

  predicate Listable(path: seq<Byte>, safe: seq<Byte> -> bool, lstat: seq<Byte> -> Metadata) {
    safe(path) && !lstat(path).OtherEntry?
  }

  ghost predicate AllListable(paths: seq<seq<Byte>>, safe: seq<Byte> -> bool, lstat: seq<Byte> -> Metadata) {
    forall path | path in paths :: Listable(path, safe, lstat)
  }

  lemma ListableNext(paths: seq<seq<Byte>>, n: nat, safe: seq<Byte> -> bool, lstat: seq<Byte> -> Metadata)
    requires n < |paths| && AllListable(paths[..n], safe, lstat)
    ensures AllListable(paths[..n + 1], safe, lstat) <==> Listable(paths[n], safe, lstat)
    ensures AllListable(paths, safe, lstat) ==> Listable(paths[n], safe, lstat)
  {
    assert paths[..n + 1] == paths[..n] + [paths[n]];
    assert paths[n] in paths && paths[n] in paths[..n + 1];
  }

  function EntriesAt(paths: seq<seq<Byte>>, lstat: seq<Byte> -> Metadata, sha256: seq<Byte> -> seq<Byte>): seq<Entry>
    requires forall path | path in paths :: !lstat(path).OtherEntry?
  {
    seq(|paths|, i requires 0 <= i < |paths| => Entry(paths[i], FoundAt(lstat(paths[i]), sha256)))
  }

  lemma {:induction false} ManifestAppends(entries: seq<Entry>, entry: Entry)
    ensures Manifest(entries + [entry]) == Manifest(entries) + Field(Record(entry))
  {
    if entries != [] {
      ManifestAppends(entries[1..], entry);
      assert (entries + [entry])[1..] == entries[1..] + [entry];
    }
  }

  lemma NextEntry(paths: seq<seq<Byte>>, n: nat, lstat: seq<Byte> -> Metadata, sha256: seq<Byte> -> seq<Byte>)
    requires n < |paths| && forall path | path in paths[..n + 1] :: !lstat(path).OtherEntry?
    ensures forall path | path in paths[..n] :: !lstat(path).OtherEntry?
    ensures !lstat(paths[n]).OtherEntry?
    ensures Manifest(EntriesAt(paths[..n + 1], lstat, sha256)) ==
            Manifest(EntriesAt(paths[..n], lstat, sha256))
            + Field(Record(Entry(paths[n], FoundAt(lstat(paths[n]), sha256))))
  {
    var before, after := paths[..n], paths[..n + 1];
    assert after == before + [paths[n]] && paths[n] in after;
    assert forall path | path in before :: path in after;
    var entry := Entry(paths[n], FoundAt(lstat(paths[n]), sha256));
    assert EntriesAt(after, lstat, sha256) == EntriesAt(before, lstat, sha256) + [entry];
    ManifestAppends(EntriesAt(before, lstat, sha256), entry);
  }

  /** The four parts of a record, joined; None where what is found is of no supported kind. */
  method RecordAt(path: seq<Byte>, metadata: Metadata, sha256: seq<Byte> -> seq<Byte>)
    returns (record: Option<seq<Byte>>)
    ensures record.None? <==> metadata.OtherEntry?
    ensures record.Some? ==> record.value == Record(Entry(path, FoundAt(metadata, sha256)))
  {
    var kind, mode, contentDigest := MISSING, DASH, DASH;
    if !metadata.NotFound? {
      mode := Octal(metadata.mode);
    }
    match metadata {
      case NotFound =>
      case RegularFile(_, contents) => kind, contentDigest := FILE, sha256(contents);
      case SymbolicLink(_, target) => kind, contentDigest := SYMLINK, sha256(target);
      case DirectoryAt(_) => kind := DIRECTORY;
      case OtherEntry(_) => return None;
    }
    return Some(path + [NUL] + (kind + [NUL] + (mode + [NUL] + contentDigest)));
  }

  /**
   * The bytes hashed for the sorted paths, and how many entries they hold; None where a path is unsafe or what it
   * names is of no supported kind.
   */
  method HashCheckout(paths: seq<seq<Byte>>, safe: seq<Byte> -> bool, lstat: seq<Byte> -> Metadata,
                      sha256: seq<Byte> -> seq<Byte>)
    returns (digested: Option<seq<Byte>>, entries: nat)
    ensures digested.Some? <==> AllListable(paths, safe, lstat)
    ensures digested.Some? ==> entries == |paths| && digested.value == Manifest(EntriesAt(paths, lstat, sha256))
  {
    var stream: seq<Byte> := [];
    entries := 0;
    while entries < |paths|
      invariant entries <= |paths|
      invariant AllListable(paths[..entries], safe, lstat)
      invariant stream == Manifest(EntriesAt(paths[..entries], lstat, sha256))
    {
      var path := paths[entries];
      ListableNext(paths, entries, safe, lstat);
      if !safe(path) {
        return None, entries;
      }
      var record := RecordAt(path, lstat(path), sha256);
      if record.None? {
        return None, entries;
      }
      NextEntry(paths, entries, lstat, sha256);
      stream := stream + (BigEndian(|record.value|, 8) + record.value);
      entries := entries + 1;
    }
    assert paths[..entries] == paths;
    digested := Some(stream);
  }

  /** Two checkouts are hashed from equal bytes exactly when the same is found at the same paths. */
  lemma CheckoutsHashAlikeIff(
    paths: seq<seq<Byte>>, lstat: seq<Byte> -> Metadata,
    others: seq<seq<Byte>>, otherLstat: seq<Byte> -> Metadata,
    sha256: seq<Byte> -> seq<Byte>)
    requires forall path | path in paths :: !lstat(path).OtherEntry?
    requires forall path | path in others :: !otherLstat(path).OtherEntry?
    requires forall entry | entry in EntriesAt(paths, lstat, sha256) + EntriesAt(others, otherLstat, sha256) ::
             entry.Valid()
    ensures Manifest(EntriesAt(paths, lstat, sha256)) == Manifest(EntriesAt(others, otherLstat, sha256)) <==>
            && paths == others
            && forall path | path in paths :: FoundAt(lstat(path), sha256) == FoundAt(otherLstat(path), sha256)
  {
    var a, b := EntriesAt(paths, lstat, sha256), EntriesAt(others, otherLstat, sha256);
    ManifestIsUnambiguous(a, b);
    if a == b {
      forall i | 0 <= i < |paths|
        ensures i < |others| && paths[i] == others[i]
                && FoundAt(lstat(paths[i]), sha256) == FoundAt(otherLstat(paths[i]), sha256)
      {
        assert a[i] == b[i];
      }
    }
  }
}
