// Relative POSIX paths as the snapshot code normalises them.
module PathNames {
  import opened Wrappers

  /** The pieces of `s` between slashes. */
  function Split(s: string): (parts: seq<string>)
    ensures |parts| >= 1
    ensures forall i :: 0 <= i < |parts| ==> '/' !in parts[i]
  {
    if s == [] then [[]]
    else
      var tail := Split(s[1..]);
      if s[0] == '/' then [[]] + tail else [[s[0]] + tail[0]] + tail[1..]
  }

  function Join(parts: seq<string>): (s: string) {
    if parts == [] then [] else if |parts| == 1 then parts[0] else parts[0] + "/" + Join(parts[1..])
  }

  /** Pieces that name something: not empty and not the current directory. */
  function Kept(parts: seq<string>): (kept: seq<string>)
    ensures forall p :: p in kept ==> p in parts && p != "" && p != "."
  {
    if parts == [] then []
    else if parts[0] == "" || parts[0] == "." then Kept(parts[1..])
    else [parts[0]] + Kept(parts[1..])
  }

  function StripSlashes(s: string): (r: string)
    ensures r <= s
    ensures r == [] || r[|r| - 1] != '/'
  {
    if s != [] && s[|s| - 1] == '/' then StripSlashes(s[..|s| - 1]) else s
  }

  /** The normalised name of an archive member, if it is a safe relative path other than the root. */
  function SafeName(raw: string): (r: Option<string>) {
    var name := StripSlashes(raw);
    if name == "" || '\0' in name || '\\' in name || name[0] == '/' || ".." in Split(name) then None
    else if Kept(Split(name)) == [] then None
    else Some(Join(Kept(Split(name))))
  }

  /** A piece of a normalised name. */
  ghost predicate Piece(p: string) {
    p != "" && p != "." && p != ".." && '/' !in p && '\0' !in p && '\\' !in p
  }

  ghost predicate Normal(name: string) {
    exists parts :: IsJoin(name, parts)
  }

  ghost predicate IsJoin(name: string, parts: seq<string>) {
    parts != [] && (forall i :: 0 <= i < |parts| ==> Piece(parts[i])) && name == Join(parts)
  }

  lemma {:induction false} SplitPiece(p: string)
    requires '/' !in p
    ensures Split(p) == [p]
  {
    if p != [] {
      SplitPiece(p[1..]);
      assert [p[0]] + p[1..] == p;
    }
  }

  lemma {:induction false} SplitAtSlash(p: string, rest: string)
    requires '/' !in p
    ensures Split(p + "/" + rest) == [p] + Split(rest)
  {
    var s := p + "/" + rest;
    if p == [] {
      assert s[1..] == rest;
    } else {
      SplitAtSlash(p[1..], rest);
      assert s[1..] == p[1..] + "/" + rest;
      var tail := Split(s[1..]);
      assert tail[0] == p[1..] && tail[1..] == Split(rest);
      assert [p[0]] + p[1..] == p;
    }
  }

  lemma {:induction false} SplitJoin(parts: seq<string>)
    requires parts != [] && forall i :: 0 <= i < |parts| ==> '/' !in parts[i]
    ensures Split(Join(parts)) == parts
  {
    if |parts| == 1 {
      SplitPiece(parts[0]);
    } else {
      SplitJoin(parts[1..]);
      SplitAtSlash(parts[0], Join(parts[1..]));
    }
  }

  lemma {:induction false} KeptAll(parts: seq<string>)
    requires forall i :: 0 <= i < |parts| ==> parts[i] != "" && parts[i] != "."
    ensures Kept(parts) == parts
  {
    if parts != [] {
      KeptAll(parts[1..]);
    }
  }

  lemma {:induction false} JoinIsClean(parts: seq<string>)
    requires parts != [] && forall i :: 0 <= i < |parts| ==> Piece(parts[i])
    ensures var s := Join(parts);
            s != [] && s[0] != '/' && s[|s| - 1] != '/' && '\0' !in s && '\\' !in s
  {
    if |parts| > 1 {
      JoinIsClean(parts[1..]);
    }
  }

  /** Every safe name is normal. */
  lemma SafeNameIsNormal(raw: string)
    requires SafeName(raw).Some?
    ensures Normal(SafeName(raw).value)
  {
    var name := StripSlashes(raw);
    var parts := Kept(Split(name));
    forall i | 0 <= i < |parts| ensures Piece(parts[i]) {
      assert parts[i] in parts;
      PiecesComeFrom(name, parts[i]);
    }
    assert IsJoin(SafeName(raw).value, parts);
  }

  lemma {:induction false} PiecesComeFrom(s: string, p: string)
    requires p in Split(s)
    ensures '\0' in p ==> '\0' in s
    ensures '\\' in p ==> '\\' in s
  {
    if s != [] {
      var tail := Split(s[1..]);
      if s[0] == '/' {
        if p != "" { PiecesComeFrom(s[1..], p); }
      } else if p == [s[0]] + tail[0] {
        PiecesComeFrom(s[1..], tail[0]);
      } else {
        assert p in tail[1..];
        PiecesComeFrom(s[1..], p);
      }
    }
  }

  /** Normal names are kept as they are, also when written with a slash at the end. */
  lemma NormalIsKept(name: string)
    requires Normal(name)
    ensures SafeName(name) == Some(name) && SafeName(name + "/") == Some(name)
    ensures '\0' !in name
  {
    var parts :| IsJoin(name, parts);
    JoinIsClean(parts);
    SplitJoin(parts);
    KeptAll(parts);
    assert (name + "/")[..|name|] == name;
    assert StripSlashes(name) == name && StripSlashes(name + "/") == name;
  }

  // ---- Exactly which names are safe ----

  /** The pieces are those between the slashes: put together they give the string back. */
  lemma {:induction false} JoinSplit(s: string)
    ensures Join(Split(s)) == s
  {
    if s != [] {
      JoinSplit(s[1..]);
      var tail := Split(s[1..]);
      if s[0] == '/' {
        assert ([[]] + tail)[1..] == tail;
        assert Join([[]] + tail) == [] + "/" + Join(tail);
      } else {
        JoinHead(s[0], tail);
      }
      assert [s[0]] + s[1..] == s;
    }
  }

  lemma JoinHead(c: char, tail: seq<string>)
    requires tail != []
    ensures Join([[c] + tail[0]] + tail[1..]) == [c] + Join(tail)
  {
    var parts := [[c] + tail[0]] + tail[1..];
    assert parts[1..] == tail[1..];
    if |tail| > 1 {
      assert [c] + (tail[0] + "/" + Join(tail[1..])) == [c] + tail[0] + "/" + Join(tail[1..]);
    }
  }

  lemma {:induction false} KeptBoth(a: seq<string>, b: seq<string>)
    ensures Kept(a + b) == Kept(a) + Kept(b)
  {
    if a == [] {
      assert a + b == b;
    } else {
      KeptBoth(a[1..], b);
      assert (a + b)[1..] == a[1..] + b;
    }
  }

  /** Slashes at the end add empty pieces only. */
  lemma {:induction false} SlashAtEnd(s: string)
    ensures Split(s + "/") == Split(s) + [""]
  {
    if s == [] {
      assert ("" + "/")[1..] == "";
    } else {
      SlashAtEnd(s[1..]);
      assert (s + "/")[1..] == s[1..] + "/";
    }
  }

  lemma {:induction false} StrippedPieces(s: string)
    ensures Kept(Split(StripSlashes(s))) == Kept(Split(s))
    ensures ".." in Split(StripSlashes(s)) <==> ".." in Split(s)
  {
    if s != [] && s[|s| - 1] == '/' {
      var init := s[..|s| - 1];
      StrippedPieces(init);
      assert init + "/" == s;
      SlashAtEnd(init);
      KeptBoth(Split(init), [""]);
    }
  }

  lemma {:induction false} StrippedCharacters(s: string, c: char)
    requires c != '/'
    ensures c in StripSlashes(s) <==> c in s
  {
    if s != [] && s[|s| - 1] == '/' {
      StrippedCharacters(s[..|s| - 1], c);
    }
  }

  /** A name is safe if and only if it does not start at the root, has no null character and no backslash, never goes to
      a parent, and names something; the safe name has just the pieces that name something, in order. */
  lemma SafeNameIff(raw: string)
    ensures SafeName(raw).Some? <==>
      && '\0' !in raw && '\\' !in raw && (raw != "" ==> raw[0] != '/')
      && ".." !in Split(raw) && Kept(Split(raw)) != []
    ensures SafeName(raw).Some? ==> Split(SafeName(raw).value) == Kept(Split(raw))
  {
    hide Split, Kept, Join, StripSlashes;
    StrippedPieces(raw);
    StrippedCharacters(raw, '\0');
    StrippedCharacters(raw, '\\');
    StrippedStart(raw);
    KeptSplits(raw);
  }

  lemma KeptSplits(raw: string)
    ensures var kept := Kept(Split(raw)); kept != [] ==> Split(Join(kept)) == kept
  {
    hide Split, Kept, Join;
    var parts := Split(raw);
    var kept := Kept(parts);
    if kept != [] {
      forall i | 0 <= i < |kept| ensures '/' !in kept[i] {
        assert kept[i] in kept;
      }
      SplitJoin(kept);
    }
  }

  lemma StrippedStart(raw: string)
    ensures StripSlashes(raw) == "" ==> Kept(Split(StripSlashes(raw))) == []
    ensures StripSlashes(raw) != "" ==> raw != "" && StripSlashes(raw)[0] == raw[0]
  {
    hide StripSlashes;
  }
}
