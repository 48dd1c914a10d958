/**
 Wire keys and the file names they are stored under.
 */
module KeyCodec {

  const SEP := '@'
  const SLASH_TEXT := "-SEP-"
  const EXT := ".data"

  // ---------------------------------------------------------------- splitting

  ghost predicate NoSep(s: string)
  {
    forall i :: 0 <= i < |s| ==> s[i] != SEP
  }

  function Split(s: string): (r: seq<string>)
    ensures r != []
  {
    if s == [] then [""]
    else if s[0] == SEP then [""] + Split(s[1..])
    else var r := Split(s[1..]); [[s[0]] + r[0]] + r[1..]
  }

  function Join(parts: seq<string>): string
    requires parts != []
  {
    if |parts| == 1 then parts[0] else parts[0] + [SEP] + Join(parts[1..])
  }

  lemma {:induction false} SplitNone(s: string)
    requires NoSep(s)
    ensures Split(s) == [s]
  {
    if s != [] {
      SplitNone(s[1..]);
      assert [s[0]] + s[1..] == s;
    }
  }

  lemma {:induction false} SplitFirst(a: string, b: string)
    requires NoSep(a)
    ensures Split(a + [SEP] + b) == [a] + Split(b)
  {
    var s := a + [SEP] + b;
    if a == [] {
      assert s[1..] == b;
    } else {
      SplitFirst(a[1..], b);
      assert s[1..] == a[1..] + [SEP] + b;
      assert [a[0]] + a[1..] == a;
    }
  }

  lemma {:induction false} SplitFields(s: string)
    ensures forall i :: 0 <= i < |Split(s)| ==> NoSep(Split(s)[i])
  {
    if s != [] {
      SplitFields(s[1..]);
    }
  }

  /** Splitting and joining undo each other. */
  lemma {:induction false} JoinSplit(s: string)
    ensures Join(Split(s)) == s
  {
    if s != [] {
      JoinSplit(s[1..]);
      var r := Split(s[1..]);
      if s[0] != SEP && |r| > 1 {
        var t := [[s[0]] + r[0]] + r[1..];
        assert t[1..] == r[1..];
        assert Join(t) == [s[0]] + (r[0] + [SEP] + Join(r[1..]));
      }
    }
  }

  lemma {:induction false} SplitJoin(parts: seq<string>)
    requires parts != [] && forall i :: 0 <= i < |parts| ==> NoSep(parts[i])
    ensures Split(Join(parts)) == parts
  {
    if |parts| == 1 {
      SplitNone(parts[0]);
    } else {
      SplitJoin(parts[1..]);
      SplitFirst(parts[0], Join(parts[1..]));
    }
  }

  ghost predicate NoSepIn(s: string, lo: nat, hi: nat)
  {
    forall i :: lo <= i < hi <= |s| ==> s[i] != SEP
  }

  /** The field that ends at pos, and what is left. */
  lemma NextField(key: string, start: nat, pos: nat)
    requires start <= pos <= |key| && NoSepIn(key, start, pos) && (pos < |key| ==> key[pos] == SEP)
    ensures Split(key[start..]) == [key[start..pos]] + if pos == |key| then [] else Split(key[pos + 1..])
  {
    var field := key[start..pos];
    assert NoSep(field);
    if pos == |key| {
      assert field == key[start..];
      SplitNone(field);
    } else {
      assert key[start..] == field + [SEP] + key[pos + 1..];
      SplitFirst(field, key[pos + 1..]);
    }
  }

  lemma Push(parts: seq<string>, field: string, left: seq<string>)
    ensures parts + ([field] + left) == parts + [field] + left
  {
  }

  /** The fields before start are split off, and the current one goes on to pos. */
  ghost predicate Splitting(key: string, parts: seq<string>, start: nat, pos: nat)
  {
    if pos > |key| then parts == Split(key)
    else start <= pos && NoSepIn(key, start, pos) && parts + Split(key[start..]) == Split(key)
  }

  lemma FieldEnds(key: string, parts: seq<string>, start: nat, pos: nat)
    requires pos <= |key| && Splitting(key, parts, start, pos) && (pos < |key| ==> key[pos] == SEP)
    ensures Splitting(key, parts + [key[start..pos]], pos + 1, pos + 1)
  {
    NextField(key, start, pos);
    Push(parts, key[start..pos], if pos == |key| then [] else Split(key[pos + 1..]));
  }

  /** The field loop of both directions. */
  method SplitKey(key: string) returns (parts: seq<string>)
    ensures parts == Split(key)
  {
    parts := [];
    var start: nat, pos: nat := 0, 0;
    assert key[0..] == key;
    while pos <= |key|
      invariant pos <= |key| + 1 && Splitting(key, parts, start, pos)
    {
      if pos == |key| || key[pos] == SEP {
        FieldEnds(key, parts, start, pos);
        parts := parts + [key[start..pos]];
        start := pos + 1;
      }
      pos := pos + 1;
    }
  }

  // ---------------------------------------------------------------- replacing

  predicate StartsWith(s: string, p: string)
  {
    |p| <= |s| && s[..|p|] == p
  }

  /** Every leftmost non-overlapping occurrence replaced. */
  function Replaced(s: string, from: string, to: string): string
    requires from != ""
  {
    if s == [] then []
    else if StartsWith(s, from) then to + Replaced(s[|from|..], from, to)
    else [s[0]] + Replaced(s[1..], from, to)
  }

  lemma {:induction false} ReplacedSkip(s: string, n: nat, from: string, to: string)
    requires from != "" && n <= |s| && forall k :: 0 <= k < n ==> !StartsWith(s[k..], from)
    ensures Replaced(s, from, to) == s[..n] + Replaced(s[n..], from, to)
  {
    if n > 0 {
      assert s[0..] == s;
      forall k | 0 <= k < n - 1
        ensures !StartsWith(s[1..][k..], from)
      {
        assert s[1..][k..] == s[k + 1..];
      }
      ReplacedSkip(s[1..], n - 1, from, to);
      assert s[1..][n - 1..] == s[n..];
      assert [s[0]] + s[1..][..n - 1] == s[..n];
    }
  }

  /** First occurrence from pos on, or the length. */
  method Find(s: string, from: string, pos: nat) returns (p: nat)
    requires from != "" && pos <= |s|
    ensures pos <= p <= |s| && (p < |s| ==> StartsWith(s[p..], from))
    ensures forall k :: pos <= k < p ==> !StartsWith(s[k..], from)
  {
    p := pos;
    while p < |s| && !StartsWith(s[p..], from)
      invariant pos <= p <= |s|
      invariant forall k :: pos <= k < p ==> !StartsWith(s[k..], from)
    {
      p := p + 1;
    }
  }

  lemma NoneShifted(s: string, pos: nat, n: nat, from: string)
    requires pos + n <= |s| && forall k :: pos <= k < pos + n ==> !StartsWith(s[k..], from)
    ensures forall k :: 0 <= k < n ==> !StartsWith(s[pos..][k..], from)
  {
    forall k | 0 <= k < n
      ensures !StartsWith(s[pos..][k..], from)
    {
      assert s[pos..][k..] == s[pos + k..];
    }
  }

  /** The text from pos on, up to and including the next occurrence. */
  lemma ReplacedNext(s: string, pos: nat, p: nat, from: string, to: string)
    requires from != "" && pos <= p < |s| && StartsWith(s[p..], from) && forall k :: pos <= k < p ==> !StartsWith(s[k..], from)
    ensures Replaced(s[pos..], from, to) == s[pos..p] + (to + Replaced(s[p + |from|..], from, to))
  {
    NoneShifted(s, pos, p - pos, from);
    ReplacedSkip(s[pos..], p - pos, from, to);
    assert s[pos..][p - pos..] == s[p..] && s[pos..][..p - pos] == s[pos..p];
    assert s[p..][|from|..] == s[p + |from|..];
  }

  lemma ReplaceStep(s: string, pos: nat, p: nat, from: string, to: string)
    requires from != "" && pos <= p < |s| && StartsWith(s[p..], from) && forall k :: pos <= k < p ==> !StartsWith(s[k..], from)
    ensures var t := s[..p] + to + s[p + |from|..];
            t[..p + |to|] + Replaced(t[p + |to|..], from, to) == s[..pos] + Replaced(s[pos..], from, to)
  {
    ReplacedNext(s, pos, p, from, to);
    var (tail, rest) := (s[p + |from|..], Replaced(s[p + |from|..], from, to));
    var t := s[..p] + to + tail;
    assert t[..p + |to|] == s[..p] + to && t[p + |to|..] == tail;
    Regroup(s[..pos], s[pos..p], to, rest);
    assert s[..pos] + s[pos..p] == s[..p];
  }

  lemma Regroup(a: string, b: string, c: string, d: string)
    ensures a + (b + (c + d)) == a + b + c + d
  {
  }

  lemma ReplaceLast(s: string, pos: nat, from: string, to: string)
    requires from != "" && pos <= |s| && forall k :: pos <= k < |s| ==> !StartsWith(s[k..], from)
    ensures s[..pos] + Replaced(s[pos..], from, to) == s
  {
    var u := s[pos..];
    NoneShifted(s, pos, |u|, from);
    ReplacedSkip(u, |u|, from, to);
    assert u[|u|..] == [] && u[..|u|] == u;
  }

  /** Find and replace in place, moving past what was put in. */
  method ReplaceAll(s: string, from: string, to: string) returns (result: string)
    requires from != ""
    ensures result == Replaced(s, from, to)
  {
    result := s;
    var pos: nat := 0;
    var p := Find(result, from, pos);
    while p < |result|
      invariant pos <= p <= |result| && (p < |result| ==> StartsWith(result[p..], from))
      invariant forall k :: pos <= k < p ==> !StartsWith(result[k..], from)
      invariant result[..pos] + Replaced(result[pos..], from, to) == Replaced(s, from, to)
      decreases |result| - pos
    {
      ReplaceStep(result, pos, p, from, to);
      result := result[..p] + to + result[p + |from|..];
      pos := p + |to|;
      p := Find(result, from, pos);
    }
    ReplaceLast(result, pos, from, to);
  }

  // ------------------------------------------------------------- model names

  function Safe(model: string): string
  {
    Replaced(model, "/", SLASH_TEXT)
  }

  function Restored(safe: string): string
  {
    Replaced(safe, SLASH_TEXT, "/")
  }

  /** The text an encoded slash would begin with: the replacement itself, or its first four characters before a slash. */
  predicate StartsBad(m: string)
  {
    StartsWith(m, "-SEP-") || StartsWith(m, "-SEP/")
  }

  ghost predicate Ambiguous(m: string)
  {
    exists k :: 0 <= k <= |m| && StartsBad(m[k..])
  }

  lemma AmbiguousTail(m: string)
    requires m != ""
    ensures Ambiguous(m) <==> StartsBad(m) || Ambiguous(m[1..])
  {
    assert m[0..] == m;
    if Ambiguous(m) && !StartsBad(m) {
      var k :| 0 <= k <= |m| && StartsBad(m[k..]);
      assert m[1..][k - 1..] == m[k..];
    }
    if Ambiguous(m[1..]) {
      var k :| 0 <= k <= |m[1..]| && StartsBad(m[1..][k..]);
      assert m[1..][k..] == m[k + 1..];
    }
  }

  lemma SafeStep(m: string)
    requires m != ""
    ensures Safe(m) == (if m[0] == '/' then "-SEP-" else [m[0]]) + Safe(m[1..])
  {
    assert m[..1] == [m[0]];
  }

  /** The first characters of the safe form are those of the name, up to the first slash. */
  lemma {:induction false} SafeHead(m: string, n: nat)
    requires n <= |m| && forall i :: 0 <= i < n ==> m[i] != '/'
    ensures Safe(m) == m[..n] + Safe(m[n..])
  {
    if n > 0 {
      SafeStep(m);
      SafeHead(m[1..], n - 1);
      assert m[1..][n - 1..] == m[n..] && [m[0]] + m[1..][..n - 1] == m[..n];
    }
  }

  /** An encoded slash appears at the front exactly for a leading slash or the ambiguous beginnings. */
  lemma SafeStartsSep(m: string)
    requires m != "" && m[0] != '/'
    ensures StartsWith(Safe(m), "-SEP-") <==> StartsBad(m)
  {
    if StartsBad(m) {
      SafeHead(m, 4);
      SafeStep(m[4..]);
      assert m[..5][..4] == m[..4];
      assert m[..4] == "-SEP";
      assert Safe(m)[..5] == "-SEP-";
    }
    if StartsWith(Safe(m), "-SEP-") {
      SepHead(m, 1);
      SepHead(m, 2);
      SepHead(m, 3);
      SafeHead(m, 4);
      assert Safe(m[4..]) != "";
      SafeStep(m[4..]);
      assert m[..5] == "-SEP-" || m[..5] == "-SEP/";
    }
  }

  /** Character n of "-SEP-" in the safe form is character n of the name while it is not a dash. */
  lemma SepHead(m: string, n: nat)
    requires StartsWith(Safe(m), "-SEP-") && 0 < n < 4 && n <= |m| && forall i :: 0 <= i < n ==> m[i] != '/'
    ensures n < |m| && m[n] == "-SEP-"[n]
    ensures m[..n + 1] == "-SEP-"[..n + 1]
  {
    SafeHead(m, n);
    var t := Safe(m);
    assert t[..n] == m[..n];
    assert t[n] == "-SEP-"[n];
    assert Safe(m[n..]) != "";
    SafeStep(m[n..]);
    assert t[n] == Safe(m[n..])[0];
    assert t[..5][..n] == t[..n];
  }

  ghost predicate NoSlash(s: string)
  {
    forall i :: 0 <= i < |s| ==> s[i] != '/'
  }

  lemma {:induction false} SafeNoSlash(m: string)
    ensures NoSlash(Safe(m))
  {
    if m != "" {
      SafeStep(m);
      SafeNoSlash(m[1..]);
    }
  }

  /** A text without slashes is the safe form of what it is restored to. */
  lemma {:induction false} SafeRestored(t: string)
    requires NoSlash(t)
    ensures Safe(Restored(t)) == t
  {
    if t != "" {
      var n := if StartsWith(t, SLASH_TEXT) then 5 else 1;
      SafeRestored(t[n..]);
      var r := Restored(t);
      assert r[1..] == Restored(t[n..]);
      SafeStep(r);
      assert t[..n] + t[n..] == t;
    }
  }

  /** Restoring undoes the slash replacement exactly for unambiguous names. */
  lemma {:induction false} RestoredIff(m: string)
    ensures Restored(Safe(m)) == m <==> !Ambiguous(m)
  {
    if m != "" {
      AmbiguousTail(m);
      RestoredIff(m[1..]);
      SafeStep(m);
      var rest := Safe(m[1..]);
      if m[0] == '/' {
        assert Safe(m)[..5] == "-SEP-" && Safe(m)[5..] == rest;
        assert Restored(Safe(m)) == "/" + Restored(rest);
        assert Restored(Safe(m))[1..] == Restored(rest);
      } else {
        SafeStartsSep(m);
        assert Safe(m)[1..] == rest;
        if !StartsBad(m) {
          assert Restored(Safe(m)) == [m[0]] + Restored(rest);
          assert Restored(Safe(m))[1..] == Restored(rest);
          assert [m[0]] + m[1..] == m;
        }
      }
    }
  }
}
