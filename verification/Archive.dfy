// Sanitising a source archive: which member lists are accepted, the canonical output, and the hashed
// record stream. Tar is a list of members; path blocking and SHA-256 are given from outside.
module Archive {
  import opened Wrappers
  import opened NameOrder

  datatype Kind = Regular | Directory | Link | Special

  /** `data` is what can be read of the member, if anything. */
  datatype Member = Member(name: string, kind: Kind, mode: nat, size: nat, data: Option<string>)

  datatype File = File(name: string, mode: nat, content: string)

  function FileName(f: File): string {
    f.name
  }

  function Itself(name: string): string {
    name
  }

  datatype Rules = Rules(safeName: string -> Option<string>, blocked: string -> bool, maxFileBytes: nat,
                         maxTotalBytes: nat)

  /** A name once made safe stays as it is, also when written as a directory. */
  ghost predicate NamesAreStable(rules: Rules) {
    forall raw :: rules.safeName(raw).Some? ==> StableName(rules.safeName(raw).value, rules)
  }

  ghost predicate StableName(name: string, rules: Rules) {
    rules.safeName(name) == Some(name) && rules.safeName(name + "/") == Some(name)
  }

  datatype Code =
    | UnsafePath | DuplicateEntry | BlockedFile | LinkForbidden | SpecialForbidden | FileTooLarge | Unreadable
    | InvalidSize | ArchiveTooLarge

  datatype Sanitized = Sanitized(directories: seq<string>, files: seq<File>)

  const PERMISSIONS := 512

  /** What is wrong with a member taken by itself, in the order of the checks after its name. */
  function Fault(m: Member, rules: Rules): Option<Code>
    requires rules.safeName(m.name).Some?
  {
    if rules.blocked(rules.safeName(m.name).value) then Some(BlockedFile)
    else match m.kind
      case Link => Some(LinkForbidden)
      case Directory => None
      case Special => Some(SpecialForbidden)
      case Regular =>
        if m.size > rules.maxFileBytes then Some(FileTooLarge)
        else if m.data.None? then Some(Unreadable)
        else if |m.data.value| != m.size then Some(InvalidSize)
        else None
  }

  predicate Sound(m: Member, rules: Rules) {
    rules.safeName(m.name).Some? && Fault(m, rules).None?
  }

  function NameOf(m: Member, rules: Rules): string {
    if rules.safeName(m.name).Some? then rules.safeName(m.name).value else ""
  }

  function FileOf(m: Member, rules: Rules): File {
    File(NameOf(m, rules), m.mode % PERMISSIONS, if m.data.Some? then m.data.value else "")
  }

  function Size(m: Member): nat {
    if m.kind == Regular then m.size else 0
  }

  function TotalSize(members: seq<Member>): (n: nat) {
    Sum(members, Size)
  }

  function Names(members: seq<Member>, rules: Rules): set<string> {
    set m | m in members :: NameOf(m, rules)
  }

  function DirectoryNames(members: seq<Member>, rules: Rules): set<string> {
    set m | m in members && m.kind == Directory :: NameOf(m, rules)
  }

  function Files(members: seq<Member>, rules: Rules): set<File> {
    set m | m in members && m.kind == Regular :: FileOf(m, rules)
  }

  /** Said without reference to any order: each member is sound, no two have the same name, and the
      sizes together are within the limit. */
  ghost predicate Acceptable(members: seq<Member>, rules: Rules) {
    && (forall m :: m in members ==> Sound(m, rules))
    && |Names(members, rules)| == |members|
    && TotalSize(members) <= rules.maxTotalBytes
  }

  /** The canonical form: both lists sorted by name, with exactly the names and files of the members. */
  ghost predicate CanonicalFor(out: Sanitized, members: seq<Member>, rules: Rules) {
    && Sorted(out.directories, Itself) && Elements(out.directories) == DirectoryNames(members, rules)
    && Sorted(out.files, FileName) && Elements(out.files) == Files(members, rules)
  }

  lemma NamesSnoc(members: seq<Member>, m: Member, rules: Rules)
    ensures Names(members + [m], rules) == Names(members, rules) + {NameOf(m, rules)}
    ensures DirectoryNames(members + [m], rules) ==
            DirectoryNames(members, rules) + (if m.kind == Directory then {NameOf(m, rules)} else {})
    ensures Files(members + [m], rules) ==
            Files(members, rules) + (if m.kind == Regular then {FileOf(m, rules)} else {})
    ensures TotalSize(members + [m]) == TotalSize(members) + Size(m)
  {
    assert (members + [m])[..|members|] == members;
    assert forall x :: x in members + [m] <==> x in members || x == m;
  }

  lemma {:induction false} AtMostAsManyNames(members: seq<Member>, rules: Rules)
    ensures |Names(members, rules)| <= |members|
  {
    if members != [] {
      var rest, last := members[..|members| - 1], members[|members| - 1];
      AtMostAsManyNames(rest, rules);
      assert members == rest + [last];
      NamesSnoc(rest, last, rules);
    }
  }

  predicate Fits(members: seq<Member>, m: Member, rules: Rules) {
    && Sound(m, rules)
    && NameOf(m, rules) !in Names(members, rules)
    && TotalSize(members) + Size(m) <= rules.maxTotalBytes
  }

  /** One more member is acceptable exactly if it is sound, new, and fits. */
  lemma OneMore(members: seq<Member>, m: Member, rules: Rules)
    ensures Acceptable(members + [m], rules) <==> Acceptable(members, rules) && Fits(members, m, rules)
  {
    hide Names, DirectoryNames, Files, TotalSize, Sound, NameOf, FileOf;
    NamesSnoc(members, m, rules);
    AllSoundSnoc(members, m, rules);
    NewName(members, m, rules);
  }

  lemma AllSoundSnoc(members: seq<Member>, m: Member, rules: Rules)
    ensures (forall x :: x in members + [m] ==> Sound(x, rules)) <==>
            (forall x :: x in members ==> Sound(x, rules)) && Sound(m, rules)
  {
    assert m in members + [m];
    assert forall x :: x in members ==> x in members + [m];
  }

  lemma NewName(members: seq<Member>, m: Member, rules: Rules)
    ensures |Names(members + [m], rules)| == |members + [m]| <==>
            |Names(members, rules)| == |members| && NameOf(m, rules) !in Names(members, rules)
  {
    NamesSnoc(members, m, rules);
    AtMostAsManyNames(members, rules);
    OneMoreElement(Names(members, rules), NameOf(m, rules), |members|);
  }

  lemma OneMoreElement(names: set<string>, name: string, n: nat)
    requires |names| <= n
    ensures |names + {name}| == n + 1 <==> |names| == n && name !in names
  {
    assert name in names ==> names + {name} == names;
  }

  /** A prefix that breaks a rule spoils the whole list. */
  lemma {:induction false} PrefixAcceptable(members: seq<Member>, n: nat, rules: Rules)
    requires n <= |members| && Acceptable(members, rules)
    ensures Acceptable(members[..n], rules)
    decreases |members|
  {
    if n < |members| {
      var rest, last := members[..|members| - 1], members[|members| - 1];
      assert members == rest + [last];
      OneMore(rest, last, rules);
      PrefixAcceptable(rest, n, rules);
      assert rest[..n] == members[..n];
    } else {
      assert members[..n] == members;
    }
  }

  /** The files in the order of the members. */
  function FileList(members: seq<Member>, rules: Rules): (files: seq<File>) {
    if members == [] then []
    else
      var rest, last := members[..|members| - 1], members[|members| - 1];
      FileList(rest, rules) + (if last.kind == Regular then [FileOf(last, rules)] else [])
  }

  /** What the loop knows after these members. */
  datatype Progress = Progress(seen: set<string>, totalBytes: nat, directories: set<string>, files: seq<File>)

  function ProgressOf(members: seq<Member>, rules: Rules): Progress {
    Progress(Names(members, rules), TotalSize(members), DirectoryNames(members, rules), FileList(members, rules))
  }

  function After(p: Progress, m: Member, rules: Rules): Progress {
    Progress(p.seen + {NameOf(m, rules)}, p.totalBytes + Size(m),
             if m.kind == Directory then p.directories + {NameOf(m, rules)} else p.directories,
             if m.kind == Regular then p.files + [FileOf(m, rules)] else p.files)
  }

  lemma ProgressSnoc(members: seq<Member>, m: Member, rules: Rules)
    ensures ProgressOf(members + [m], rules) == After(ProgressOf(members, rules), m, rules)
  {
    NamesSnoc(members, m, rules);
    assert (members + [m])[..|members|] == members;
  }

  /** An earlier member has the same safe name. */
  ghost predicate IsDuplicate(m: Member, before: seq<Member>, rules: Rules) {
    && rules.safeName(m.name).Some?
    && exists i: nat :: i < |before| && rules.safeName(before[i].name) == rules.safeName(m.name)
  }

  /** The member has a safe and new name, which is not blocked. */
  ghost predicate WellNamed(m: Member, before: seq<Member>, rules: Rules) {
    && rules.safeName(m.name).Some? && !rules.blocked(rules.safeName(m.name).value)
    && !IsDuplicate(m, before, rules)
  }

  ghost predicate IsFile(m: Member, before: seq<Member>, rules: Rules) {
    WellNamed(m, before, rules) && m.kind == Regular
  }

  /** When a member is refused with this code, told from the member and those before it. */
  ghost predicate Refuses(code: Code, m: Member, before: seq<Member>, rules: Rules) {
    match code
    case UnsafePath => rules.safeName(m.name).None?
    case DuplicateEntry => IsDuplicate(m, before, rules)
    case BlockedFile =>
      && rules.safeName(m.name).Some? && rules.blocked(rules.safeName(m.name).value)
      && !IsDuplicate(m, before, rules)
    case LinkForbidden => WellNamed(m, before, rules) && m.kind == Link
    case SpecialForbidden => WellNamed(m, before, rules) && m.kind == Special
    case FileTooLarge => IsFile(m, before, rules) && m.size > rules.maxFileBytes
    case Unreadable => IsFile(m, before, rules) && m.size <= rules.maxFileBytes && m.data.None?
    case InvalidSize =>
      IsFile(m, before, rules) && m.size <= rules.maxFileBytes && m.data.Some? && |m.data.value| != m.size
    case ArchiveTooLarge =>
      && IsFile(m, before, rules) && m.size <= rules.maxFileBytes && m.data.Some? && |m.data.value| == m.size
      && Volume(before, |before|) + |m.data.value| > rules.maxTotalBytes
  }

  /** The bytes of the files among the first `n` members. */
  ghost function Volume(members: seq<Member>, n: nat): (bytes: nat)
    requires n <= |members|
  {
    if n == 0 then 0 else Volume(members, n - 1) + (if members[n - 1].kind == Regular then members[n - 1].size else 0)
  }

  lemma {:induction false} VolumeIsTotal(members: seq<Member>, n: nat)
    requires n <= |members|
    ensures Volume(members, n) == TotalSize(members[..n])
  {
    if n > 0 {
      VolumeIsTotal(members, n - 1);
      assert members[..n] == members[..n - 1] + [members[n - 1]];
      SumSnoc(members[..n - 1], members[n - 1], Size);
    }
  }

  /** A name is taken exactly if an earlier member has it. */
  lemma TakenIff(m: Member, before: seq<Member>, rules: Rules)
    requires rules.safeName(m.name).Some? && forall x :: x in before ==> Sound(x, rules)
    ensures NameOf(m, rules) in Names(before, rules) <==> IsDuplicate(m, before, rules)
  {
    if NameOf(m, rules) in Names(before, rules) {
      var x :| x in before && NameOf(x, rules) == NameOf(m, rules);
      var i :| 0 <= i < |before| && before[i] == x;
      assert rules.safeName(before[i].name) == rules.safeName(m.name);
    }
    if i: nat :| i < |before| && rules.safeName(before[i].name) == rules.safeName(m.name) {
      assert before[i] in before;
    }
  }

  /** The checks of one member against those before it. */
  method CheckMember(m: Member, p: Progress, rules: Rules, ghost before: seq<Member>) returns (fault: Option<Code>)
    requires p == ProgressOf(before, rules) && Acceptable(before, rules)
    ensures fault.None? <==> Fits(before, m, rules)
    ensures fault.Some? ==> Refuses(fault.value, m, before, rules)
  {
    VolumeIsTotal(before, |before|);
    assert before[..|before|] == before;
    if rules.safeName(m.name).Some? { TakenIff(m, before, rules); }
    hide IsDuplicate, Names, Volume;
    var name := rules.safeName(m.name);
    if name.None? { return Some(UnsafePath); }
    if name.value in p.seen { return Some(DuplicateEntry); }
    fault := Fault(m, rules);
    if fault.None? && m.kind == Regular && p.totalBytes + |m.data.value| > rules.maxTotalBytes {
      return Some(ArchiveTooLarge);
    }
  }

  /** One round of the loop: the member is taken, or the list as a whole is refused. */
  lemma RoundDecides(members: seq<Member>, i: nat, rules: Rules)
    requires i < |members|
    ensures Acceptable(members[..i + 1], rules) <==>
              Acceptable(members[..i], rules) && Fits(members[..i], members[i], rules)
    ensures Acceptable(members, rules) ==> Acceptable(members[..i + 1], rules)
    ensures ProgressOf(members[..i + 1], rules) == After(ProgressOf(members[..i], rules), members[i], rules)
  {
    assert members[..i + 1] == members[..i] + [members[i]];
    OneMore(members[..i], members[i], rules);
    ProgressSnoc(members[..i], members[i], rules);
    if Acceptable(members, rules) { PrefixAcceptable(members, i + 1, rules); }
  }

  /** The code tells what is wrong with the first member that cannot be taken. */
  ghost predicate FirstRefused(members: seq<Member>, code: Code, rules: Rules) {
    exists i: nat :: RefusedAt(members, i, code, rules)
  }

  ghost predicate RefusedAt(members: seq<Member>, i: nat, code: Code, rules: Rules) {
    i < |members| && Acceptable(members[..i], rules) && Refuses(code, members[i], members[..i], rules)
  }

  /** Goes through the members one by one, as long as nothing is wrong. */
  method Collect(members: seq<Member>, rules: Rules) returns (r: Result<Progress, Code>)
    ensures r.Ok? <==> Acceptable(members, rules)
    ensures r.Ok? ==> r.value == ProgressOf(members, rules)
    ensures r.Err? ==> FirstRefused(members, r.error, rules)
  {
    var p := Progress({}, 0, {}, []);
    assert p == ProgressOf([], rules) && members[..0] == [];
    for i := 0 to |members|
      invariant Acceptable(members[..i], rules)
      invariant p == ProgressOf(members[..i], rules)
    {
      RoundDecides(members, i, rules);
      var fault := CheckMember(members[i], p, rules, members[..i]);
      if fault.Some? {
        assert RefusedAt(members, i, fault.value, rules);
        return Err(fault.value);
      }
      p := After(p, members[i], rules);
    }
    assert members[..|members|] == members;
    return Ok(p);
  }

  lemma {:induction false} FileListElements(members: seq<Member>, rules: Rules)
    ensures Elements(FileList(members, rules)) == Files(members, rules)
    ensures forall f :: f in FileList(members, rules) ==> f.name in Names(members, rules)
  {
    if members != [] {
      var rest, last := members[..|members| - 1], members[|members| - 1];
      assert members == rest + [last];
      FileListElements(rest, rules);
      NamesSnoc(rest, last, rules);
      assert forall f :: f in FileList(members, rules) <==>
               f in FileList(rest, rules) || (last.kind == Regular && f == FileOf(last, rules));
    }
  }

  ghost predicate NamesDiffer(files: seq<File>) {
    forall i, j :: 0 <= i < j < |files| ==> files[i].name != files[j].name
  }

  lemma {:induction false} FileNamesDiffer(members: seq<Member>, rules: Rules)
    requires Acceptable(members, rules)
    ensures NamesDiffer(FileList(members, rules))
  {
    if members != [] {
      var rest, last := members[..|members| - 1], members[|members| - 1];
      assert members == rest + [last];
      OneMore(rest, last, rules);
      FileNamesDiffer(rest, rules);
      FileListElements(rest, rules);
    }
  }

  method SortNames(names: set<string>) returns (r: seq<string>)
    ensures Sorted(r, Itself) && Elements(r) == names
  {
    r := [];
    var rest := names;
    while rest != {}
      invariant rest <= names && Sorted(r, Itself) && Elements(r) == names - rest
      decreases rest
    {
      var x :| x in rest;
      assert forall y :: y in r ==> y in Elements(r);
      InsertSorts(r, Itself, x);
      r := Insert(r, Itself, x);
      rest := rest - {x};
    }
  }

  method SortFiles(files: seq<File>) returns (r: seq<File>)
    requires NamesDiffer(files)
    ensures Sorted(r, FileName) && Elements(r) == Elements(files)
  {
    r := [];
    for i := 0 to |files|
      invariant Sorted(r, FileName) && Elements(r) == Elements(files[..i])
    {
      forall y | y in r ensures y.name != files[i].name {
        assert y in Elements(r);
      }
      InsertSorts(r, FileName, files[i]);
      r := Insert(r, FileName, files[i]);
      assert files[..i + 1] == files[..i] + [files[i]];
      assert forall y :: y in files[..i + 1] <==> y in files[..i] || y == files[i];
    }
    assert files[..|files|] == files;
  }

  /** Accepts exactly the acceptable member lists and puts them into canonical form. */
  method Sanitize(members: seq<Member>, rules: Rules) returns (r: Result<Sanitized, Code>)
    ensures r.Ok? <==> Acceptable(members, rules)
    ensures r.Ok? ==> CanonicalFor(r.value, members, rules)
    ensures r.Err? ==> FirstRefused(members, r.error, rules)
  {
    hide FirstRefused;
    var collected := Collect(members, rules);
    if collected.Err? { return Err(collected.error); }
    FileNamesDiffer(members, rules);
    FileListElements(members, rules);
    var directories := SortNames(collected.value.directories);
    var files := SortFiles(collected.value.files);
    return Ok(Sanitized(directories, files));
  }

  // ---- What is accepted, and what becomes of it ----

  /** A member that may be taken: a directory, or a file within the limit that can be read whole, under a safe name that
      is not blocked; never a link or anything special. */
  predicate Admissible(m: Member, rules: Rules) {
    && rules.safeName(m.name).Some? && !rules.blocked(rules.safeName(m.name).value)
    && m.kind != Link && m.kind != Special
    && (m.kind == Regular ==> m.size <= rules.maxFileBytes && m.data.Some? && |m.data.value| == m.size)
  }

  ghost predicate AllAdmissible(members: seq<Member>, rules: Rules) {
    forall i :: 0 <= i < |members| ==> Admissible(members[i], rules)
  }

  ghost predicate NoTwoAlike(members: seq<Member>, rules: Rules) {
    forall i, j :: 0 <= i < j < |members| ==> rules.safeName(members[i].name) != rules.safeName(members[j].name)
  }

  /** A list of members is accepted if and only if every one may be taken, no two have the same safe name, and the files
      together are within the limit. */
  lemma AcceptableIff(members: seq<Member>, rules: Rules)
    ensures Acceptable(members, rules) <==>
      && AllAdmissible(members, rules) && NoTwoAlike(members, rules)
      && Volume(members, |members|) <= rules.maxTotalBytes
  {
    VolumeIsTotal(members, |members|);
    assert members[..|members|] == members;
    AllSoundIff(members, rules);
    if AllAdmissible(members, rules) {
      DistinctIff(members, rules);
    }
  }

  lemma AllSoundIff(members: seq<Member>, rules: Rules)
    ensures (forall m :: m in members ==> Sound(m, rules)) <==> AllAdmissible(members, rules)
  {
    assert forall i :: 0 <= i < |members| ==> members[i] in members;
    assert forall m :: Sound(m, rules) <==> Admissible(m, rules);
  }

  lemma {:induction false} DistinctIff(members: seq<Member>, rules: Rules)
    requires AllAdmissible(members, rules)
    ensures |Names(members, rules)| == |members| <==> NoTwoAlike(members, rules)
  {
    if members != [] {
      var n := |members| - 1;
      var rest, last := members[..n], members[n];
      assert members == rest + [last];
      assert AllAdmissible(rest, rules);
      DistinctIff(rest, rules);
      NewName(rest, last, rules);
      AllSoundIff(rest, rules);
      TakenIff(last, rest, rules);
      AlikeSnoc(rest, last, rules);
    }
  }

  lemma AlikeSnoc(rest: seq<Member>, last: Member, rules: Rules)
    requires rules.safeName(last.name).Some?
    ensures NoTwoAlike(rest + [last], rules) <==> NoTwoAlike(rest, rules) && !IsDuplicate(last, rest, rules)
  {
    var all, n := rest + [last], |rest|;
    assert forall i :: 0 <= i < n ==> all[i] == rest[i];
    if NoTwoAlike(all, rules) {
      forall i: nat | i < n ensures rules.safeName(rest[i].name) != rules.safeName(last.name) {
        assert rules.safeName(all[i].name) != rules.safeName(all[n].name);
      }
    }
  }

  /** The file that a member becomes: its safe name, its permission bits, its bytes. */
  ghost predicate Written(f: File, m: Member, rules: Rules) {
    && m.kind == Regular && rules.safeName(m.name) == Some(f.name)
    && m.data == Some(f.content) && f.mode == m.mode % 512
  }

  /** The canonical form holds one file for every regular member and one directory for every directory member, each
      under its safe name and sorted by it, and nothing else. */
  lemma CanonicalMeans(out: Sanitized, members: seq<Member>, rules: Rules)
    requires Acceptable(members, rules) && CanonicalFor(out, members, rules)
    ensures forall f :: f in out.files <==> exists m :: m in members && Written(f, m, rules)
    ensures forall d :: d in out.directories <==>
      exists m :: m in members && m.kind == Directory && rules.safeName(m.name) == Some(d)
    ensures forall i, j :: 0 <= i < j < |out.files| ==> Less(out.files[i].name, out.files[j].name)
    ensures forall i, j :: 0 <= i < j < |out.directories| ==> Less(out.directories[i], out.directories[j])
  {
    forall f ensures f in out.files <==> exists m :: m in members && Written(f, m, rules) {
      assert f in Elements(out.files) <==> f in Files(members, rules);
      if f in out.files {
        var m :| m in members && m.kind == Regular && FileOf(m, rules) == f;
        assert Sound(m, rules) && Written(f, m, rules);
      }
      if m :| m in members && Written(f, m, rules) {
        assert FileOf(m, rules) == f;
      }
    }
    forall d ensures d in out.directories <==>
      exists m :: m in members && m.kind == Directory && rules.safeName(m.name) == Some(d)
    {
      assert d in Elements(out.directories) <==> d in DirectoryNames(members, rules);
      if d in out.directories {
        var m :| m in members && m.kind == Directory && NameOf(m, rules) == d;
        assert Sound(m, rules);
      }
    }
    KeysInOrder(out.files, FileName);
    KeysInOrder(out.directories, Itself);
  }

  lemma KeysInOrder<T(!new)>(items: seq<T>, key: T -> string)
    requires Sorted(items, key)
    ensures forall i, j :: 0 <= i < j < |items| ==> Less(key(items[i]), key(items[j]))
  {
  }

  /** Neither acceptance nor the result depends on the order of the members. */
  lemma OrderDoesNotMatter(a: seq<Member>, b: seq<Member>, rules: Rules)
    requires multiset(a) == multiset(b)
    ensures Acceptable(a, rules) <==> Acceptable(b, rules)
    ensures forall x, y :: CanonicalFor(x, a, rules) && CanonicalFor(y, b, rules) ==> x == y
  {
    forall m ensures m in a <==> m in b {
      assert m in multiset(a) <==> m in a;
      assert m in multiset(b) <==> m in b;
    }
    assert |a| == |multiset(a)| == |multiset(b)| == |b|;
    assert Names(a, rules) == Names(b, rules) && DirectoryNames(a, rules) == DirectoryNames(b, rules);
    assert Files(a, rules) == Files(b, rules);
    SumOfPermutation(a, b, Size);
    forall x, y | CanonicalFor(x, a, rules) && CanonicalFor(y, b, rules) ensures x == y {
      SortedIsUnique(x.directories, y.directories, Itself);
      SortedIsUnique(x.files, y.files, FileName);
    }
  }

  const DIRECTORY_MODE := 493

  function DirectoryMember(name: string): Member {
    Member(name + "/", Directory, DIRECTORY_MODE, 0, None)
  }

  function FileMember(f: File): Member {
    Member(f.name, Regular, f.mode, |f.content|, Some(f.content))
  }

  function DirectoryMembers(names: seq<string>): (members: seq<Member>)
    ensures |members| == |names|
    ensures forall i :: 0 <= i < |names| ==> members[i] == DirectoryMember(names[i])
  {
    seq(|names|, i requires 0 <= i < |names| => DirectoryMember(names[i]))
  }

  function FileMembers(files: seq<File>): (members: seq<Member>)
    ensures |members| == |files|
    ensures forall i :: 0 <= i < |files| ==> members[i] == FileMember(files[i])
  {
    seq(|files|, i requires 0 <= i < |files| => FileMember(files[i]))
  }

  function OutputAt(out: Sanitized, i: nat): Member
    requires i < |out.directories| + |out.files|
  {
    if i < |out.directories| then DirectoryMember(out.directories[i])
    else FileMember(out.files[i - |out.directories|])
  }

  /** The members of the archive that is written: directories first, then files. */
  function Output(out: Sanitized): (members: seq<Member>)
    ensures |members| == |out.directories| + |out.files|
    ensures forall i :: 0 <= i < |members| ==> members[i] == OutputAt(out, i)
  {
    DirectoryMembers(out.directories) + FileMembers(out.files)
  }

  function FileSize(f: File): nat {
    |f.content|
  }

  lemma {:induction false} DistinctNamesCount(members: seq<Member>, rules: Rules)
    requires forall i, j :: 0 <= i < j < |members| ==> NameOf(members[i], rules) != NameOf(members[j], rules)
    ensures |Names(members, rules)| == |members|
  {
    if members != [] {
      var rest, last := members[..|members| - 1], members[|members| - 1];
      assert members == rest + [last];
      DistinctNamesCount(rest, rules);
      LastNameIsNew(members, rules);
      NamesSnoc(rest, last, rules);
    }
  }

  lemma LastNameIsNew(members: seq<Member>, rules: Rules)
    requires members != []
    requires forall i, j :: 0 <= i < j < |members| ==> NameOf(members[i], rules) != NameOf(members[j], rules)
    ensures NameOf(members[|members| - 1], rules) !in Names(members[..|members| - 1], rules)
  {
    var rest, last := members[..|members| - 1], members[|members| - 1];
    forall m | m in rest ensures NameOf(m, rules) != NameOf(last, rules) {
      var i :| 0 <= i < |rest| && rest[i] == m;
      assert members[i] == m;
    }
  }

  lemma {:induction false} SameNameSameMember(members: seq<Member>, a: Member, b: Member, rules: Rules)
    requires Acceptable(members, rules) && a in members && b in members && NameOf(a, rules) == NameOf(b, rules)
    ensures a == b
  {
    var rest, last := members[..|members| - 1], members[|members| - 1];
    assert members == rest + [last];
    OneMore(rest, last, rules);
    if a in rest && b in rest {
      SameNameSameMember(rest, a, b, rules);
    }
  }

  lemma DirectoryMemberIsSound(members: seq<Member>, d: string, rules: Rules)
    requires NamesAreStable(rules) && Acceptable(members, rules) && d in DirectoryNames(members, rules)
    ensures Sound(DirectoryMember(d), rules) && NameOf(DirectoryMember(d), rules) == d
  {
    var m :| m in members && m.kind == Directory && NameOf(m, rules) == d;
  }

  lemma FileMemberIsSound(members: seq<Member>, f: File, rules: Rules)
    requires NamesAreStable(rules) && Acceptable(members, rules) && f in Files(members, rules)
    ensures Sound(FileMember(f), rules) && NameOf(FileMember(f), rules) == f.name && FileOf(FileMember(f), rules) == f
  {
    var m :| m in members && m.kind == Regular && FileOf(m, rules) == f;
  }

  lemma DirectoriesAndFilesDiffer(members: seq<Member>, d: string, f: File, rules: Rules)
    requires Acceptable(members, rules) && d in DirectoryNames(members, rules) && f in Files(members, rules)
    ensures d != f.name
  {
    var m :| m in members && m.kind == Directory && NameOf(m, rules) == d;
    var n :| n in members && n.kind == Regular && FileOf(n, rules) == f;
    if d == f.name {
      SameNameSameMember(members, m, n, rules);
    }
  }

  lemma {:induction false} SizesOfMembers(members: seq<Member>, rules: Rules)
    requires forall m :: m in members ==> Sound(m, rules)
    ensures Sum(members, Size) == Sum(FileList(members, rules), FileSize)
  {
    if members != [] {
      var rest, last := members[..|members| - 1], members[|members| - 1];
      assert members == rest + [last];
      SizesOfMembers(rest, rules);
      assert last in members;
      SizesOfOneMore(rest, last, rules);
    }
  }

  lemma SizesOfOneMore(rest: seq<Member>, last: Member, rules: Rules)
    requires Sum(rest, Size) == Sum(FileList(rest, rules), FileSize) && Sound(last, rules)
    ensures Sum(rest + [last], Size) == Sum(FileList(rest + [last], rules), FileSize)
  {
    SumSnoc(rest, last, Size);
    FileListSnoc(rest, last, rules);
    if last.kind == Regular {
      SumSnoc(FileList(rest, rules), FileOf(last, rules), FileSize);
    } else {
      assert FileList(rest, rules) + [] == FileList(rest, rules);
    }
  }

  lemma FileListSnoc(rest: seq<Member>, last: Member, rules: Rules)
    ensures FileList(rest + [last], rules) ==
            FileList(rest, rules) + (if last.kind == Regular then [FileOf(last, rules)] else [])
  {
    assert (rest + [last])[..|rest|] == rest;
  }

  lemma {:induction false} SizesOfFileMembers(files: seq<File>)
    ensures Sum(FileMembers(files), Size) == Sum(files, FileSize)
  {
    if files != [] {
      var rest := files[..|files| - 1];
      SizesOfFileMembers(rest);
      assert FileMembers(files)[..|files| - 1] == FileMembers(rest);
    }
  }

  lemma {:induction false} DirectoriesWeighNothing(members: seq<Member>)
    requires forall m :: m in members ==> m.kind == Directory
    ensures Sum(members, Size) == 0
  {
    if members != [] {
      DirectoriesWeighNothing(members[..|members| - 1]);
    }
  }

  /** `out` is the canonical form of some acceptable member list. */
  ghost predicate FormOf(out: Sanitized, members: seq<Member>, rules: Rules) {
    NamesAreStable(rules) && Acceptable(members, rules) && CanonicalFor(out, members, rules)
  }

  lemma OutputMembers(out: Sanitized, members: seq<Member>, rules: Rules, i: nat)
    requires FormOf(out, members, rules) && i < |Output(out)|
    ensures Sound(Output(out)[i], rules)
    ensures i < |out.directories| ==>
              && out.directories[i] in DirectoryNames(members, rules)
              && NameOf(Output(out)[i], rules) == out.directories[i]
    ensures i >= |out.directories| ==>
              var f := out.files[i - |out.directories|];
              && f in Files(members, rules) && NameOf(Output(out)[i], rules) == f.name
              && FileOf(Output(out)[i], rules) == f
  {
    if i < |out.directories| {
      assert out.directories[i] in Elements(out.directories);
      DirectoryMemberIsSound(members, out.directories[i], rules);
    } else {
      var f := out.files[i - |out.directories|];
      assert f in Elements(out.files);
      FileMemberIsSound(members, f, rules);
    }
  }

  lemma OutputNamesDiffer(out: Sanitized, members: seq<Member>, rules: Rules, i: nat, j: nat)
    requires FormOf(out, members, rules) && i < j < |Output(out)|
    ensures NameOf(Output(out)[i], rules) != NameOf(Output(out)[j], rules)
  {
    hide NamesAreStable, Acceptable, Names, Files, DirectoryNames, Elements, NameOf, Sorted;
    OutputMembers(out, members, rules, i);
    OutputMembers(out, members, rules, j);
    var n := |out.directories|;
    if j < n {
      SortedKeysDiffer(out.directories, Itself, i, j);
    } else if i >= n {
      SortedKeysDiffer(out.files, FileName, i - n, j - n);
    } else {
      DirectoriesAndFilesDiffer(members, out.directories[i], out.files[j - n], rules);
    }
  }

  lemma SortedIsDistinct(files: seq<File>)
    requires Sorted(files, FileName)
    ensures Distinct(files)
  {
    forall i, j | 0 <= i < j < |files| ensures files[i] != files[j] {
      assert Less(FileName(files[i]), FileName(files[j]));
      LessIsStrict(FileName(files[i]));
    }
  }

  lemma SameFilesSameSize(a: seq<File>, b: seq<File>)
    requires Distinct(a) && Distinct(b) && Elements(a) == Elements(b)
    ensures Sum(a, FileSize) == Sum(b, FileSize)
  {
    DistinctMultiset(a);
    DistinctMultiset(b);
    SumOfPermutation(a, b, FileSize);
  }

  lemma WrittenSize(out: Sanitized)
    ensures TotalSize(Output(out)) == Sum(out.files, FileSize)
  {
    SumConcat(DirectoryMembers(out.directories), FileMembers(out.files), Size);
    DirectoriesWeighNothing(DirectoryMembers(out.directories));
    SizesOfFileMembers(out.files);
  }

  /** Sanitising keeps the total size. */
  lemma OutputSize(out: Sanitized, members: seq<Member>, rules: Rules)
    requires FormOf(out, members, rules)
    ensures TotalSize(Output(out)) == TotalSize(members)
  {
    WrittenSize(out);
    SizesOfMembers(members, rules);
    FileNamesDiffer(members, rules);
    FileListElements(members, rules);
    SortedIsDistinct(out.files);
    SameFilesSameSize(FileList(members, rules), out.files);
  }

  lemma OutputKinds(out: Sanitized, m: Member) returns (i: nat)
    requires m in Output(out)
    ensures i < |Output(out)| && Output(out)[i] == m && (m.kind == Directory <==> i < |out.directories|)
  {
    i :| 0 <= i < |Output(out)| && Output(out)[i] == m;
    assert m == OutputAt(out, i);
  }

  lemma OutputDirectories(out: Sanitized, members: seq<Member>, rules: Rules)
    requires FormOf(out, members, rules)
    ensures DirectoryNames(Output(out), rules) == DirectoryNames(members, rules)
  {
    var o := Output(out);
    forall d | d in DirectoryNames(o, rules) ensures d in DirectoryNames(members, rules) {
      var m :| m in o && m.kind == Directory && NameOf(m, rules) == d;
      var i := OutputKinds(out, m);
      OutputMembers(out, members, rules, i);
    }
    forall d | d in DirectoryNames(members, rules) ensures d in DirectoryNames(o, rules) {
      assert d in Elements(out.directories);
      var i :| 0 <= i < |out.directories| && out.directories[i] == d;
      OutputMembers(out, members, rules, i);
      assert o[i] in o;
    }
  }

  lemma OutputFiles(out: Sanitized, members: seq<Member>, rules: Rules)
    requires FormOf(out, members, rules)
    ensures Files(Output(out), rules) == Files(members, rules)
  {
    var o, n := Output(out), |out.directories|;
    forall f | f in Files(o, rules) ensures f in Files(members, rules) {
      var m :| m in o && m.kind == Regular && FileOf(m, rules) == f;
      var i := OutputKinds(out, m);
      OutputMembers(out, members, rules, i);
    }
    forall f | f in Files(members, rules) ensures f in Files(o, rules) {
      assert f in Elements(out.files);
      var i :| 0 <= i < |out.files| && out.files[i] == f;
      OutputMembers(out, members, rules, n + i);
      assert o[n + i] in o;
    }
  }

  /** Sanitising the written archive again accepts it and changes nothing. */
  lemma SanitizingTwiceIsOnce(out: Sanitized, members: seq<Member>, rules: Rules)
    requires FormOf(out, members, rules)
    ensures Acceptable(Output(out), rules)
    ensures forall again :: CanonicalFor(again, Output(out), rules) <==> again == out
  {
    var o := Output(out);
    forall m | m in o ensures Sound(m, rules) {
      var i :| 0 <= i < |o| && o[i] == m;
      OutputMembers(out, members, rules, i);
    }
    forall i, j | 0 <= i < j < |o| ensures NameOf(o[i], rules) != NameOf(o[j], rules) {
      OutputNamesDiffer(out, members, rules, i, j);
    }
    DistinctNamesCount(o, rules);
    OutputSize(out, members, rules);
    OutputDirectories(out, members, rules);
    OutputFiles(out, members, rules);
    forall again | CanonicalFor(again, o, rules) ensures again == out {
      SortedIsUnique(again.directories, out.directories, Itself);
      SortedIsUnique(again.files, out.files, FileName);
    }
  }
}
