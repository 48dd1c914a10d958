/**
 Turning a wire key into a file name and a file name back into its key.
 */
module KeyFiles {
  import opened KeyCodec

  predicate WellFormed(parts: seq<string>)
  {
    4 <= |parts| <= 6
  }

  /** The fields of the flat file name. */
  function FileParts(parts: seq<string>): seq<string>
    requires WellFormed(parts)
  {
    [Safe(parts[0]), "0x" + parts[1], parts[2], parts[3]]
    + (if |parts| == 6 then parts[4..] else if |parts| == 5 && parts[4] != "" then [parts[4]] else [])
  }

  function FlatName(key: string): string
    requires WellFormed(Split(key))
  {
    Join(FileParts(Split(key))) + EXT
  }

  datatype Named = Ok(name: string) | Malformed | ShortHash

  lemma Join4(a: string, b: string, c: string, d: string)
    ensures Join([a, b, c, d]) == a + [SEP] + b + [SEP] + c + [SEP] + d
  {
    JoinMore([a], b);
    JoinMore([a] + [b], c);
    JoinMore([a] + [b] + [c], d);
    assert [a, b, c, d] == [a] + [b] + [c] + [d];
  }

  lemma Chain(a: string, b: string, c: string)
    ensures a + [SEP] + (b + [SEP] + c) == a + [SEP] + b + [SEP] + c
  {
  }

  lemma {:induction false} JoinMore(parts: seq<string>, x: string)
    requires parts != []
    ensures Join(parts + [x]) == Join(parts) + [SEP] + x
  {
    if |parts| > 1 {
      JoinMore(parts[1..], x);
      assert (parts + [x])[1..] == parts[1..] + [x];
      Chain(parts[0], Join(parts[1..]), x);
    }
  }

  /** The name is built field by field; a fifth empty salt is dropped, a sixth field keeps it. */
  method KeyToFilename(key: string, shard: bool) returns (r: Named)
    ensures r.Malformed? <==> !WellFormed(Split(key))
    ensures r.ShortHash? <==> WellFormed(Split(key)) && shard && |Split(key)[3]| < 4
    ensures r.Ok? ==> r.name == (if shard then Split(key)[3][..2] + "/" + Split(key)[3][2..4] + "/" else "") + FlatName(key)
  {
    var parts := SplitKey(key);
    if |parts| != 4 && |parts| != 5 && |parts| != 6 {
      return Malformed;
    }
    var salt := if |parts| >= 5 then parts[4] else "";
    var safe := ReplaceAll(parts[0], "/", SLASH_TEXT);
    var result := safe + [SEP] + ("0x" + parts[1]) + [SEP] + parts[2] + [SEP] + parts[3];
    ghost var fields := [safe, "0x" + parts[1], parts[2], parts[3]];
    Join4(safe, "0x" + parts[1], parts[2], parts[3]);
    if salt != "" || |parts| == 6 {
      JoinMore(fields, salt);
      fields := fields + [salt];
      result := result + [SEP] + salt;
    }
    if |parts| == 6 {
      JoinMore(fields, parts[5]);
      fields := fields + [parts[5]];
      result := result + [SEP] + parts[5];
    }
    assert fields == FileParts(parts);
    result := result + EXT;
    if !shard {
      return Ok(result);
    }
    if |parts[3]| < 4 {
      return ShortHash;
    }
    return Ok(parts[3][..2] + "/" + parts[3][2..4] + "/" + result);
  }

  // ---------------------------------------------------------------- decoding

  function DropHex(rank: string): string
  {
    if StartsWith(rank, "0x") then rank[2..] else rank
  }

  /** The fields of the wire key. */
  function KeyParts(parts: seq<string>): seq<string>
    requires WellFormed(parts)
  {
    [Restored(parts[0]), DropHex(parts[1])] + parts[2..]
  }

  predicate HasExt(name: string)
  {
    |name| > |EXT| && name[|name| - |EXT|..] == EXT
  }

  /** Empty for anything that is not a well-formed data file. */
  function KeyOf(name: string): string
  {
    if !HasExt(name) then "" else
    var parts := Split(name[..|name| - |EXT|]);
    if WellFormed(parts) then Join(KeyParts(parts)) else ""
  }

  method FilenameToKey(name: string) returns (key: string)
    ensures key == KeyOf(name)
  {
    if |name| <= |EXT| || name[|name| - |EXT|..] != EXT {
      return "";
    }
    var parts := SplitKey(name[..|name| - |EXT|]);
    if |parts| != 4 && |parts| != 5 && |parts| != 6 {
      return "";
    }
    var model := ReplaceAll(parts[0], SLASH_TEXT, "/");
    var rank := parts[1];
    if |rank| >= 2 && rank[..2] == "0x" {
      rank := rank[2..];
    }
    key := model + [SEP] + rank;
    ghost var fields := [model, rank];
    assert fields[1..] == [rank];
    var i := 2;
    while i < |parts|
      invariant 2 <= i <= |parts|
      invariant fields == [model, rank] + parts[2..i] && key == Join(fields)
    {
      JoinMore(fields, parts[i]);
      assert parts[2..i] + [parts[i]] == parts[2..i + 1];
      fields := fields + [parts[i]];
      key := key + [SEP] + parts[i];
      i := i + 1;
    }
    assert parts[2..i] == parts[2..];
  }

  /** Only names that are not well-formed data files give the empty key. */
  lemma EmptyKeyIff(name: string)
    ensures KeyOf(name) == "" <==> !(HasExt(name) && WellFormed(Split(name[..|name| - |EXT|])))
  {
    if HasExt(name) && WellFormed(Split(name[..|name| - |EXT|])) {
      var parts := KeyParts(Split(name[..|name| - |EXT|]));
      assert |Join(parts)| >= 1;
    }
  }

  // -------------------------------------------------------------- round trip

  lemma {:induction false} ReplacedNoSep(s: string, from: string, to: string)
    requires from != "" && NoSep(s) && NoSep(to)
    ensures NoSep(Replaced(s, from, to))
  {
    if s != [] {
      if StartsWith(s, from) {
        ReplacedNoSep(s[|from|..], from, to);
      } else {
        ReplacedNoSep(s[1..], from, to);
      }
    }
  }

  /** What can be read back: no dropped empty salt, no ambiguous model name. */
  ghost predicate Readable(parts: seq<string>)
    requires WellFormed(parts)
  {
    (|parts| == 5 ==> parts[4] != "") && !Ambiguous(parts[0])
  }

  ghost predicate Plain(parts: seq<string>)
  {
    parts != [] && forall i :: 0 <= i < |parts| ==> NoSep(parts[i])
  }

  lemma FilePartsPlain(parts: seq<string>)
    requires WellFormed(parts) && Plain(parts)
    ensures Plain(FileParts(parts)) && WellFormed(FileParts(parts))
  {
    ReplacedNoSep(parts[0], "/", SLASH_TEXT);
    var f := FileParts(parts);
    forall i | 0 <= i < |f|
      ensures NoSep(f[i])
    {
      if i >= 4 {
        assert f[i] == parts[i];
      }
    }
  }

  /** Decoding the name gives the fields back, but for the model name and a dropped salt. */
  lemma BackParts(parts: seq<string>)
    requires WellFormed(parts) && Plain(parts)
    ensures var f := FileParts(parts);
            && WellFormed(f)
            && KeyParts(f) == [Restored(Safe(parts[0]))] + parts[1..4] + (if |parts| == 5 && parts[4] == "" then [] else parts[4..])
  {
    var f := FileParts(parts);
    assert f[1][2..] == parts[1];
    assert f[2..] == parts[2..4] + (if |parts| == 5 && parts[4] == "" then [] else parts[4..]);
  }

  lemma KeyPartsPlain(parts: seq<string>)
    requires WellFormed(parts) && Plain(parts)
    ensures Plain(KeyParts(parts))
  {
    ReplacedNoSep(parts[0], SLASH_TEXT, "/");
  }

  lemma NameBody(parts: seq<string>)
    requires WellFormed(parts) && Plain(parts)
    ensures var name := Join(FileParts(parts)) + EXT;
            HasExt(name) && KeyOf(name) == Join(KeyParts(FileParts(parts)))
  {
    var f := FileParts(parts);
    FilePartsPlain(parts);
    SplitJoin(f);
    var name := Join(f) + EXT;
    assert name[..|name| - |EXT|] == Join(f) && name[|name| - |EXT|..] == EXT;
  }

  /** The fields come back exactly when the key is readable. */
  lemma PartsBack(parts: seq<string>)
    requires WellFormed(parts) && Plain(parts)
    ensures WellFormed(FileParts(parts)) && Plain(KeyParts(FileParts(parts)))
    ensures KeyParts(FileParts(parts)) == parts <==> Readable(parts)
  {
    BackParts(parts);
    RestoredIff(parts[0]);
    FilePartsPlain(parts);
    KeyPartsPlain(FileParts(parts));
    var back := KeyParts(FileParts(parts));
    if Readable(parts) {
      assert back == parts;
    } else {
      assert back[0] != parts[0] || |back| != |parts|;
    }
  }

  lemma JoinInjective(p: seq<string>, q: seq<string>)
    requires Plain(p) && Plain(q) && Join(p) == Join(q)
    ensures p == q
  {
    SplitJoin(p);
    SplitJoin(q);
  }

  /** A key of four to six fields survives the file name exactly when it is readable. */
  lemma RoundTripIff(key: string)
    requires WellFormed(Split(key))
    ensures KeyOf(FlatName(key)) == key <==> Readable(Split(key))
  {
    var parts := Split(key);
    SplitFields(key);
    JoinSplit(key);
    NameBody(parts);
    PartsBack(parts);
    var back := KeyParts(FileParts(parts));
    if Join(back) == Join(parts) {
      JoinInjective(back, parts);
    }
  }

  /** An empty salt in last place is lost. */
  lemma EmptySaltLost(model: string, rank: string, group: string, hash: string)
    requires NoSep(model) && NoSep(rank) && NoSep(group) && NoSep(hash)
    ensures var key := Join([model, rank, group, hash, ""]);
            WellFormed(Split(key)) && KeyOf(FlatName(key)) != key
  {
    var parts := [model, rank, group, hash, ""];
    SplitJoin(parts);
    RoundTripIff(Join(parts));
  }

  // ---------------------------------------------------------- names in letters

  /** Fields without the separator. */
  ghost predicate Fields(parts: seq<string>)
  {
    forall i, k :: 0 <= i < |parts| && 0 <= k < |parts[i]| ==> parts[i][k] != '@'
  }

  lemma SafePlain(model: string)
    requires NoSlash(model)
    ensures Safe(model) == model
  {
    SafeHead(model, |model|);
    assert model[|model|..] == "" && model[..|model|] == model;
  }

  /** A slash between two texts without one. */
  lemma SafeSlash(a: string, b: string)
    requires NoSlash(a) && NoSlash(b)
    ensures Safe(a + "/" + b) == a + "-SEP-" + b
  {
    var m := a + "/" + b;
    SafeHead(m, |a|);
    assert m[..|a|] == a && m[|a|..] == "/" + b;
    SafeStep(m[|a|..]);
    assert m[|a|..][1..] == b;
    SafePlain(b);
  }

  lemma NameOfParts(parts: seq<string>)
    requires WellFormed(parts) && Fields(parts)
    ensures Split(Join(parts)) == parts && FlatName(Join(parts)) == Join(FileParts(parts)) + EXT
  {
    assert Plain(parts);
    SplitJoin(parts);
  }

  lemma HexJoin(m: string, r: string, g: string, h: string)
    ensures Join([m, "0x" + r, g, h]) == m + "@0x" + r + "@" + g + "@" + h
  {
    Join4(m, "0x" + r, g, h);
    assert m + [SEP] + ("0x" + r) == m + "@0x" + r;
  }

  /** The file name of a key of four fields. */
  lemma PlainName(m: string, r: string, g: string, h: string)
    requires Fields([m, r, g, h]) && NoSlash(m)
    ensures var key := m + "@" + r + "@" + g + "@" + h;
            WellFormed(Split(key)) && FlatName(key) == m + "@0x" + r + "@" + g + "@" + h + ".data"
  {
    NameOfParts([m, r, g, h]);
    SafePlain(m);
    Join4(m, r, g, h);
    HexJoin(m, r, g, h);
    assert FileParts([m, r, g, h]) == [m, "0x" + r, g, h];
  }

  /** A slash in the model name. */
  lemma SlashName(a: string, b: string, r: string, g: string, h: string)
    requires Fields([a + "/" + b, r, g, h]) && NoSlash(a) && NoSlash(b)
    ensures var key := a + "/" + b + "@" + r + "@" + g + "@" + h;
            WellFormed(Split(key)) && FlatName(key) == a + "-SEP-" + b + "@0x" + r + "@" + g + "@" + h + ".data"
  {
    var m := a + "/" + b;
    NameOfParts([m, r, g, h]);
    SafeSlash(a, b);
    Join4(m, r, g, h);
    HexJoin(a + "-SEP-" + b, r, g, h);
    assert FileParts([m, r, g, h]) == [a + "-SEP-" + b, "0x" + r, g, h];
  }

  /** A fifth field that is not empty is kept. */
  lemma SaltName(m: string, r: string, g: string, h: string, salt: string)
    requires Fields([m, r, g, h, salt]) && NoSlash(m) && salt != ""
    ensures var key := m + "@" + r + "@" + g + "@" + h + "@" + salt;
            WellFormed(Split(key)) && FlatName(key) == m + "@0x" + r + "@" + g + "@" + h + "@" + salt + ".data"
  {
    NameOfParts([m, r, g, h, salt]);
    SafePlain(m);
    Join4(m, r, g, h);
    JoinMore([m, r, g, h], salt);
    assert [m, r, g, h] + [salt] == [m, r, g, h, salt];
    HexJoin(m, r, g, h);
    JoinMore([m, "0x" + r, g, h], salt);
    assert FileParts([m, r, g, h, salt]) == [m, "0x" + r, g, h] + [salt];
  }

  /** File names are injective on the readable keys. */
  lemma NamesInjective(a: string, b: string)
    requires WellFormed(Split(a)) && WellFormed(Split(b)) && Readable(Split(a)) && Readable(Split(b))
    requires FlatName(a) == FlatName(b)
    ensures a == b
  {
    RoundTripIff(a);
    RoundTripIff(b);
  }

  lemma SafeAgain(model: string)
    ensures Safe(Restored(Safe(model))) == Safe(model) && !Ambiguous(Restored(Safe(model)))
  {
    SafeNoSlash(model);
    SafeRestored(Safe(model));
    RestoredIff(Restored(Safe(model)));
  }

  /** What the name is read back as is readable and has the same name. */
  lemma PartsOwner(parts: seq<string>)
    requires WellFormed(parts) && Plain(parts)
    ensures WellFormed(FileParts(parts)) && WellFormed(KeyParts(FileParts(parts)))
    ensures var back := KeyParts(FileParts(parts));
            Readable(back) && FileParts(back) == FileParts(parts)
  {
    BackParts(parts);
    SafeAgain(parts[0]);
  }

  /** Every name is the name of one readable key, the one it is read back as; that is the key itself exactly when it is readable. */
  lemma NameOwner(key: string)
    requires WellFormed(Split(key))
    ensures var b := KeyOf(FlatName(key));
            && WellFormed(Split(b)) && Readable(Split(b)) && FlatName(b) == FlatName(key)
            && (b == key <==> Readable(Split(key)))
  {
    var parts := Split(key);
    SplitFields(key);
    NameBody(parts);
    PartsOwner(parts);
    PartsBack(parts);
    SplitJoin(KeyParts(FileParts(parts)));
    RoundTripIff(key);
  }

  /** Another key, readable itself, has the same name. */
  ghost predicate Shares(key: string, other: string)
    requires WellFormed(Split(key))
  {
    other != key && WellFormed(Split(other)) && Readable(Split(other)) && FlatName(other) == FlatName(key)
  }

  /** A key shares its name with a readable one if and only if it is not readable itself. */
  lemma SharedIff(key: string)
    requires WellFormed(Split(key))
    ensures (exists other :: Shares(key, other)) <==> !Readable(Split(key))
  {
    NameOwner(key);
    if !Readable(Split(key)) {
      assert Shares(key, KeyOf(FlatName(key)));
    } else if other :| Shares(key, other) {
      NamesInjective(key, other);
    }
  }

  /** Two keys share a name if and only if they are read back as the same key. */
  lemma SameNameIff(a: string, b: string)
    requires WellFormed(Split(a)) && WellFormed(Split(b))
    ensures FlatName(a) == FlatName(b) <==> KeyOf(FlatName(a)) == KeyOf(FlatName(b))
  {
    NameOwner(a);
    NameOwner(b);
  }

  /** A family of such pairs, by the model name alone. */
  lemma NamesCollide(rank: string, group: string, hash: string)
    requires NoSep(rank) && NoSep(group) && NoSep(hash)
    ensures var (a, b) := (Join(["-SEP/", rank, group, hash]), Join(["/SEP-", rank, group, hash]));
            a != b && WellFormed(Split(a)) && WellFormed(Split(b)) && FlatName(a) == FlatName(b)
  {
    var (p, q) := (["-SEP/", rank, group, hash], ["/SEP-", rank, group, hash]);
    SplitJoin(p);
    SplitJoin(q);
    SameSafe();
    assert p[0] != q[0];
    assert FileParts(p) == FileParts(q);
  }

  lemma SameSafe()
    ensures Safe("-SEP/") == "-SEP-SEP-" && Safe("/SEP-") == "-SEP-SEP-"
  {
    SafeHead("-SEP/", 4);
    SafeStep("/");
    assert "-SEP/"[4..] == "/" && "/"[1..] == "" && "-SEP/"[..4] == "-SEP";
    SafeStep("/SEP-");
    SafeHead("SEP-", 4);
    assert "/SEP-"[1..] == "SEP-" && "SEP-"[4..] == "" && "SEP-"[..4] == "SEP-";
  }
}
