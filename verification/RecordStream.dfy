// The byte stream whose hash identifies a snapshot: one record per directory and file, fields ended
// by NUL, and the digest of each file. The stream can be read back in only one way.
module RecordStream {
  import opened Wrappers
  import opened PathNames
  import opened Archive
  import NameOrder

  datatype Record = DirectoryRecord(name: string) | FileRecord(name: string, mode: nat, length: nat, digest: string)

  const DIGEST_LENGTH := 32
  const NUL: string := "\0"

  function Digit(d: nat): (c: char)
    requires d < 10
    ensures c != '\0'
  {
    ('0' as int + d) as char
  }

  function Digits(n: nat, base: nat): (s: string)
    requires 2 <= base <= 10
    ensures s != "" && '\0' !in s
  {
    if n < base then [Digit(n)] else Digits(n / base, base) + [Digit(n % base)]
  }

  /** The number a string of digits stands for. */
  function Value(s: string, base: nat): (n: int) {
    if s == "" then 0 else Value(s[..|s| - 1], base) * base + (s[|s| - 1] as int - '0' as int)
  }

  lemma ValueSnoc(s: string, d: nat, base: nat)
    requires d < 10
    ensures Value(s + [Digit(d)], base) == Value(s, base) * base + d
  {
    assert (s + [Digit(d)])[..|s|] == s;
  }

  lemma Division(n: nat, base: nat)
    requires base > 0
    ensures (n / base) * base + n % base == n
  {
  }

  /** Reading the digits of a number gives the number back. */
  lemma {:induction false} ValueOfDigits(n: nat, base: nat)
    requires 2 <= base <= 10
    ensures Value(Digits(n, base), base) == n
  {
    if n < base {
      ValueSnoc("", n, base);
      assert "" + [Digit(n)] == [Digit(n)];
    } else {
      ValueOfDigits(n / base, base);
      ValueSnoc(Digits(n / base, base), n % base, base);
      Division(n, base);
    }
  }

  lemma DigitsAreUnique(m: nat, n: nat, base: nat)
    requires 2 <= base <= 10 && Digits(m, base) == Digits(n, base)
    ensures m == n
  {
    ValueOfDigits(m, base);
    ValueOfDigits(n, base);
  }

  function Bytes(r: Record): (s: string) {
    match r
    case DirectoryRecord(name) => "D" + NUL + (name + NUL)
    case FileRecord(name, mode, length, digest) =>
      "F" + NUL + (name + NUL + (Digits(mode, 8) + NUL + (Digits(length, 10) + NUL + digest)))
  }

  function Stream(records: seq<Record>): (s: string) {
    if records == [] then "" else Bytes(records[0]) + Stream(records[1..])
  }

  lemma SampleDigits()
    ensures Digits(420, 8) == "644" && Digits(12, 10) == "12"
  {
    assert Digits(6, 8) == "6";
    assert Digits(52, 8) == "6" + "4";
    assert Digits(1, 10) == "1";
  }

  /** The format, on a directory and a file with permissions 644 and twelve bytes. */
  lemma SampleStream(digest: string)
    ensures Stream([DirectoryRecord("a"), FileRecord("a/b", 420, 12, digest)]) ==
      "D" + NUL + ("a" + NUL) + ("F" + NUL + ("a/b" + NUL + ("644" + NUL + ("12" + NUL + digest))))
  {
    hide Digits;
    SampleDigits();
    var d, f := DirectoryRecord("a"), FileRecord("a/b", 420, 12, digest);
    assert Stream([f]) == Bytes(f) + Stream([f][1..]);
    assert Stream([d, f]) == Bytes(d) + Stream([d, f][1..]);
    assert [d, f][1..] == [f] && [f][1..] == [];
    assert Bytes(f) + "" == Bytes(f);
  }

  ghost predicate WellFormed(r: Record) {
    '\0' !in r.name && (r.FileRecord? ==> |r.digest| == DIGEST_LENGTH)
  }

  lemma FirstNul(a: string, x: string)
    requires '\0' !in a
    ensures var s := a + NUL + x; s[|a|] == '\0' && forall i :: 0 <= i < |a| ==> s[i] != '\0'
    ensures var s := a + NUL + x; s[..|a|] == a && s[|a| + 1..] == x
  {
  }

  /** A field ends at the first NUL. */
  lemma FieldEnds(a: string, x: string, b: string, y: string)
    requires '\0' !in a && '\0' !in b
    requires a + NUL + x == b + NUL + y
    ensures a == b && x == y
  {
    FirstNul(a, x);
    FirstNul(b, y);
    assert |a| == |b|;
  }

  lemma DirectoryFirst(name: string, x: string)
    ensures Bytes(DirectoryRecord(name)) + x == "D" + NUL + (name + NUL + x)
  {
  }

  lemma FileFirst(name: string, mode: nat, length: nat, digest: string, x: string)
    ensures Bytes(FileRecord(name, mode, length, digest)) + x ==
              "F" + NUL + (name + NUL + (Digits(mode, 8) + NUL + (Digits(length, 10) + NUL + (digest + x))))
  {
    var l := Digits(length, 10);
    assert (l + NUL + digest) + x == l + NUL + (digest + x);
    var m := Digits(mode, 8);
    assert (m + NUL + (l + NUL + digest)) + x == m + NUL + ((l + NUL + digest) + x);
  }

  /** The first record of a stream is determined by the stream. */
  lemma FirstRecord(r: Record, x: string, q: Record, y: string)
    requires WellFormed(r) && WellFormed(q) && Bytes(r) + x == Bytes(q) + y
    ensures r == q && x == y
  {
    assert (Bytes(r) + x)[0] == Bytes(r)[0] && (Bytes(q) + y)[0] == Bytes(q)[0];
    if r.DirectoryRecord? {
      DirectoryFirst(r.name, x);
      DirectoryFirst(q.name, y);
      FieldEnds("D", r.name + NUL + x, "D", q.name + NUL + y);
      FieldEnds(r.name, x, q.name, y);
    } else {
      FirstFile(r, x, q, y);
    }
  }

  lemma FirstFile(r: Record, x: string, q: Record, y: string)
    requires WellFormed(r) && WellFormed(q) && r.FileRecord? && q.FileRecord? && Bytes(r) + x == Bytes(q) + y
    ensures r == q && x == y
  {
    FileFirst(r.name, r.mode, r.length, r.digest, x);
    FileFirst(q.name, q.mode, q.length, q.digest, y);
    var l, k := Digits(r.length, 10) + NUL + (r.digest + x), Digits(q.length, 10) + NUL + (q.digest + y);
    var m, n := Digits(r.mode, 8) + NUL + l, Digits(q.mode, 8) + NUL + k;
    FieldEnds("F", r.name + NUL + m, "F", q.name + NUL + n);
    FieldEnds(r.name, m, q.name, n);
    FieldEnds(Digits(r.mode, 8), l, Digits(q.mode, 8), k);
    FieldEnds(Digits(r.length, 10), r.digest + x, Digits(q.length, 10), q.digest + y);
    DigitsAreUnique(r.mode, q.mode, 8);
    DigitsAreUnique(r.length, q.length, 10);
    assert r.digest == (r.digest + x)[..DIGEST_LENGTH] && q.digest == (q.digest + y)[..DIGEST_LENGTH];
    assert x == (r.digest + x)[DIGEST_LENGTH..] && y == (q.digest + y)[DIGEST_LENGTH..];
  }

  lemma SomeBytes(records: seq<Record>)
    requires records != []
    ensures Stream(records) != ""
  {
    assert |Bytes(records[0])| > 0;
  }

  lemma StreamStep(a: seq<Record>, b: seq<Record>)
    requires a != [] && b != [] && WellFormed(a[0]) && WellFormed(b[0]) && Stream(a) == Stream(b)
    ensures a[0] == b[0] && Stream(a[1..]) == Stream(b[1..])
  {
    FirstRecord(a[0], Stream(a[1..]), b[0], Stream(b[1..]));
  }

  /** Equal streams come from equal records. */
  lemma {:induction false} StreamIsUniquelyReadable(a: seq<Record>, b: seq<Record>)
    requires forall r :: r in a ==> WellFormed(r)
    requires forall r :: r in b ==> WellFormed(r)
    requires Stream(a) == Stream(b)
    ensures a == b
  {
    if a != [] && b != [] {
      StreamStep(a, b);
      StreamIsUniquelyReadable(a[1..], b[1..]);
      assert a == [a[0]] + a[1..] && b == [b[0]] + b[1..];
    } else if a != [] {
      SomeBytes(a);
    } else if b != [] {
      SomeBytes(b);
    }
  }

  /** The records of a sanitised archive. */
  function Records(out: Sanitized, sha256: string -> string): (records: seq<Record>)
    ensures |records| == |out.directories| + |out.files|
    ensures forall i :: 0 <= i < |records| ==> records[i] == RecordAt(out, sha256, i)
  {
    seq(|out.directories| + |out.files|,
        i requires 0 <= i < |out.directories| + |out.files| => RecordAt(out, sha256, i))
  }

  function RecordAt(out: Sanitized, sha256: string -> string, i: nat): Record
    requires i < |out.directories| + |out.files|
  {
    if i < |out.directories| then DirectoryRecord(out.directories[i])
    else
      var f := out.files[i - |out.directories|];
      FileRecord(f.name, f.mode, |f.content|, sha256(f.content))
  }

  /** The names of a sanitised archive hold no NUL, and digests have their fixed length. */
  ghost predicate Hashable(out: Sanitized, sha256: string -> string) {
    && (forall d :: d in out.directories ==> '\0' !in d)
    && (forall f :: f in out.files ==> '\0' !in f.name)
    && (forall text :: |sha256(text)| == DIGEST_LENGTH)
  }

  lemma RecordsAreWellFormed(out: Sanitized, sha256: string -> string)
    requires Hashable(out, sha256)
    ensures forall r :: r in Records(out, sha256) ==> WellFormed(r)
  {
    var records := Records(out, sha256);
    forall r | r in records ensures WellFormed(r) {
      var i :| 0 <= i < |records| && records[i] == r;
      assert r == RecordAt(out, sha256, i);
      if i < |out.directories| {
        assert out.directories[i] in out.directories;
      } else {
        assert out.files[i - |out.directories|] in out.files;
      }
    }
  }

  lemma SameRecord(a: Sanitized, b: Sanitized, sha256: string -> string, i: nat)
    requires Records(a, sha256) == Records(b, sha256) && i < |a.directories| + |a.files|
    ensures i < |b.directories| + |b.files| && RecordAt(a, sha256, i) == RecordAt(b, sha256, i)
  {
    assert Records(a, sha256)[i] == Records(b, sha256)[i];
  }

  lemma SameDirectories(a: Sanitized, b: Sanitized, sha256: string -> string)
    requires Records(a, sha256) == Records(b, sha256)
    ensures a.directories == b.directories && |a.files| == |b.files|
  {
    if |a.directories| < |b.directories| { SameRecord(b, a, sha256, |a.directories|); }
    if |b.directories| < |a.directories| { SameRecord(a, b, sha256, |b.directories|); }
    forall i | 0 <= i < |a.directories| ensures a.directories[i] == b.directories[i] {
      SameRecord(a, b, sha256, i);
    }
  }

  /** The same entry, as far as its record tells. */
  ghost predicate SameEntry(f: File, g: File, sha256: string -> string) {
    f.name == g.name && f.mode == g.mode && |f.content| == |g.content| && sha256(f.content) == sha256(g.content)
  }

  /** Two archives with the same hashed stream have the same directories, and the same files up to
      equal digests of the contents. */
  lemma SameStreamSameArchive(a: Sanitized, b: Sanitized, sha256: string -> string)
    requires Hashable(a, sha256) && Hashable(b, sha256)
    requires Stream(Records(a, sha256)) == Stream(Records(b, sha256))
    ensures a.directories == b.directories && |a.files| == |b.files|
    ensures forall i :: 0 <= i < |a.files| ==> SameEntry(a.files[i], b.files[i], sha256)
  {
    RecordsAreWellFormed(a, sha256);
    RecordsAreWellFormed(b, sha256);
    StreamIsUniquelyReadable(Records(a, sha256), Records(b, sha256));
    SameDirectories(a, b, sha256);
    forall i | 0 <= i < |a.files| ensures SameEntry(a.files[i], b.files[i], sha256) {
      SameRecord(a, b, sha256, |a.directories| + i);
    }
  }

  /** The rules as the snapshot code applies them, with its own path normalisation. */
  ghost predicate RealRules(rules: Rules) {
    rules.safeName == SafeName
  }

  lemma RealNamesAreStable(rules: Rules)
    requires RealRules(rules)
    ensures NamesAreStable(rules)
  {
    forall raw | rules.safeName(raw).Some? ensures StableName(rules.safeName(raw).value, rules) {
      SafeNameIsNormal(raw);
      NormalIsKept(SafeName(raw).value);
    }
  }

  /** What sanitising writes can be hashed. */
  lemma SanitizedIsHashable(out: Sanitized, members: seq<Member>, rules: Rules, sha256: string -> string)
    requires RealRules(rules) && Acceptable(members, rules) && CanonicalFor(out, members, rules)
    requires forall text :: |sha256(text)| == DIGEST_LENGTH
    ensures Hashable(out, sha256)
  {
    forall d | d in out.directories ensures '\0' !in d {
      assert d in NameOrder.Elements(out.directories);
      var m :| m in members && m.kind == Directory && NameOf(m, rules) == d;
      SafeNameIsNormal(m.name);
      NormalIsKept(d);
    }
    forall f | f in out.files ensures '\0' !in f.name {
      assert f in NameOrder.Elements(out.files);
      var m :| m in members && m.kind == Regular && FileOf(m, rules) == f;
      SafeNameIsNormal(m.name);
      NormalIsKept(f.name);
    }
  }
}
