/**
 The text form of slot lists: "1,2,[9,12]", its printer and its parser.
 */
module SlotText {
  import Sequences
  import opened SlotRuns

  // ---------------------------------------------------------------- numbers

  predicate IsDigit(c: char)
  {
    '0' <= c <= '9'
  }

  function DigitChar(d: nat): (c: char)
    requires d < 10
    ensures IsDigit(c) && DigitValue(c) == d
  {
    '0' + d as char
  }

  function DigitValue(c: char): nat
  {
    if IsDigit(c) then c as nat - '0' as nat else 0
  }

  predicate AllDigits(s: string)
  {
    s != "" && forall i :: 0 <= i < |s| ==> IsDigit(s[i])
  }

  function NatText(n: nat): (s: string)
    ensures AllDigits(s)
  {
    if n < 10 then [DigitChar(n)] else NatText(n / 10) + [DigitChar(n % 10)]
  }

  /** Decimal value; underscores between digits are skipped. */
  function NatValue(s: string): nat
  {
    if s == "" then 0
    else
      var init := s[..|s| - 1];
      if s[|s| - 1] == '_' then NatValue(init) else 10 * NatValue(init) + DigitValue(s[|s| - 1])
  }

  lemma {:induction false} NatRoundTrip(n: nat)
    ensures NatValue(NatText(n)) == n
  {
    var s := NatText(n);
    if n >= 10 {
      NatRoundTrip(n / 10);
      assert s[..|s| - 1] == NatText(n / 10);
    } else {
      assert s[..0] == "";
    }
  }

  /** A digit, or an underscore between two digits. */
  predicate NumberAt(s: string, i: nat)
    requires i < |s|
  {
    IsDigit(s[i]) || (s[i] == '_' && 0 < i < |s| - 1 && IsDigit(s[i - 1]) && IsDigit(s[i + 1]))
  }

  predicate Number(s: string)
  {
    s != "" && forall i: nat :: i < |s| ==> NumberAt(s, i)
  }

  datatype Option<T> = None | Some(value: T)

  /** int(text) for text without white space. */
  function ParseInt(s: string): Option<int>
  {
    if Number(s) then Some(NatValue(s))
    else if |s| > 1 && (s[0] == '-' || s[0] == '+') && Number(s[1..]) then
      Some(if s[0] == '-' then 0 - NatValue(s[1..]) else NatValue(s[1..]))
    else None
  }

  function IntText(n: int): string
  {
    if n < 0 then "-" + NatText(-n) else NatText(n)
  }

  lemma NotNumber(s: string)
    requires s != "" && !IsDigit(s[0])
    ensures !Number(s) && !AllDigits(s)
  {
    assert !NumberAt(s, 0);
  }

  lemma SignedParses(sign: char, digits: string)
    requires sign == '-' || sign == '+'
    requires Number(digits)
    ensures ParseInt([sign] + digits) == Some(if sign == '-' then 0 - NatValue(digits) else NatValue(digits))
  {
    var s := [sign] + digits;
    assert s[1..] == digits;
    NotNumber(s);
  }

  lemma IntRoundTrip(n: int)
    ensures ParseInt(IntText(n)) == Some(n)
  {
    if n < 0 {
      NatRoundTrip(-n);
      SignedParses('-', NatText(-n));
    } else {
      NatRoundTrip(n);
    }
  }

  // ----------------------------------------------------------------- printer

  function Text(item: Item): string
  {
    match item
    case Single(n) => IntText(n)
    case Range(a, b) => "[" + IntText(a) + "," + IntText(b) + "]"
  }

  function Render(items: seq<Item>): string
  {
    if items == [] then "" else if |items| == 1 then Text(items[0]) else Text(items[0]) + "," + Render(items[1..])
  }

  function Texts(items: seq<Item>): seq<string>
  {
    if items == [] then [] else [Text(items[0])] + Texts(items[1..])
  }

  // ----------------------------------------------------------------- scanner

  datatype ScanError = Nested | Unmatched | Unclosed

  datatype Scanned = Parts(parts: seq<string>) | Failed(error: ScanError)

  function Flush(parts: seq<string>, buffer: string): seq<string>
  {
    if buffer != "" then parts + [buffer] else parts
  }

  /** Cut at commas outside brackets; a closing bracket also ends a part. */
  function Scan(s: string, parts: seq<string>, buffer: string, inside: bool): Scanned
  {
    if s == "" then (if inside then Failed(Unclosed) else Parts(Flush(parts, buffer)))
    else if s[0] == '[' then (if inside then Failed(Nested) else Scan(s[1..], parts, buffer + "[", true))
    else if s[0] == ']' then (if inside then Scan(s[1..], parts + [buffer + "]"], "", false) else Failed(Unmatched))
    else if s[0] == ',' && !inside then Scan(s[1..], Flush(parts, buffer), "", false)
    else Scan(s[1..], parts, buffer + [s[0]], inside)
  }

  method SplitParts(clean: string) returns (r: Scanned)
    ensures r == Scan(clean, [], "", false)
  {
    var parts: seq<string>, buffer: string, inside := [], "", false;
    var i := 0;
    assert clean[0..] == clean;
    while i < |clean|
      invariant 0 <= i <= |clean|
      invariant Scan(clean, [], "", false) == Scan(clean[i..], parts, buffer, inside)
    {
      var c := clean[i];
      assert clean[i..][0] == c && clean[i..][1..] == clean[i + 1..];
      if c == '[' {
        if inside {
          return Failed(Nested);
        }
        inside := true;
        buffer := buffer + "[";
      } else if c == ']' {
        if !inside {
          return Failed(Unmatched);
        }
        inside := false;
        parts := parts + [buffer + "]"];
        buffer := "";
      } else if c == ',' && !inside {
        if buffer != "" {
          parts := parts + [buffer];
          buffer := "";
        }
      } else {
        buffer := buffer + [c];
      }
      i := i + 1;
    }
    if buffer != "" {
      parts := parts + [buffer];
    }
    if inside {
      return Failed(Unclosed);
    }
    return Parts(parts);
  }

  predicate Plain(t: string)
  {
    forall i :: 0 <= i < |t| ==> t[i] != '[' && t[i] != ']' && t[i] != ','
  }

  /** Plain text only fills the buffer. */
  lemma {:induction false} Feed(t: string, rest: string, parts: seq<string>, buffer: string, inside: bool)
    requires Plain(t)
    ensures Scan(t + rest, parts, buffer, inside) == Scan(rest, parts, buffer + t, inside)
  {
    if t == "" {
      assert t + rest == rest && buffer + t == buffer;
    } else {
      assert (t + rest)[0] == t[0] && (t + rest)[1..] == t[1..] + rest;
      Feed(t[1..], rest, parts, buffer + [t[0]], inside);
      assert buffer + [t[0]] + t[1..] == buffer + t;
    }
  }

  lemma IntTextPlain(n: int)
    ensures Plain(IntText(n)) && IntText(n) != ""
  {
  }

  lemma Ahead(c: char, rest: string)
    ensures ([c] + rest)[0] == c && ([c] + rest)[1..] == rest
  {
  }

  /** A printed range is read as one part. */
  lemma ScanRange(a: int, b: int, rest: string, parts: seq<string>)
    ensures Scan("[" + IntText(a) + "," + IntText(b) + "]" + rest, parts, "", false) == Scan(rest, parts + [Text(Range(a, b))], "", false)
  {
    var (x, y) := (IntText(a), IntText(b));
    var s3 := ['['] + (x + ([','] + (y + ([']'] + rest))));
    assert "[" + x + "," + y + "]" + rest == s3;
    Ahead('[', x + ([','] + (y + ([']'] + rest))));
    IntTextPlain(a);
    IntTextPlain(b);
    assert "" + "[" == "[";
    Feed(x, [','] + (y + ([']'] + rest)), parts, "[", true);
    Ahead(',', y + ([']'] + rest));
    Feed(y, [']'] + rest, parts, "[" + x + ",", true);
    Ahead(']', rest);
    assert "[" + x + [','] == "[" + x + ",";
    assert "[" + x + "," + y + "]" == Text(Range(a, b));
  }

  lemma ScanSingle(n: int, rest: string, parts: seq<string>)
    ensures Scan(IntText(n) + "," + rest, parts, "", false) == Scan(rest, parts + [IntText(n)], "", false)
    ensures Scan(IntText(n), parts, "", false) == Parts(parts + [IntText(n)])
  {
    var x := IntText(n);
    IntTextPlain(n);
    assert x + "," + rest == x + ([','] + rest) && x + "" == x && "" + x == x;
    Feed(x, [','] + rest, parts, "", false);
    Ahead(',', rest);
    Feed(x, "", parts, "", false);
  }

  /** An item followed by a comma. */
  lemma ScanItem(item: Item, rest: string, parts: seq<string>)
    ensures Scan(Text(item) + "," + rest, parts, "", false) == Scan(rest, parts + [Text(item)], "", false)
    ensures Scan(Text(item), parts, "", false) == Parts(parts + [Text(item)])
  {
    match item
    case Single(n) => ScanSingle(n, rest, parts);
    case Range(a, b) =>
      ScanRange(a, b, [','] + rest, parts);
      assert Text(item) + "," + rest == "[" + IntText(a) + "," + IntText(b) + "]" + ([','] + rest);
      Ahead(',', rest);
      ScanRange(a, b, "", parts);
      assert "[" + IntText(a) + "," + IntText(b) + "]" + "" == Text(item);
  }

  /** The scanner cuts printed items apart again. */
  lemma {:induction false} ScanRender(items: seq<Item>, parts: seq<string>)
    ensures Scan(Render(items), parts, "", false) == Parts(parts + Texts(items))
  {
    if items == [] {
      assert parts + [] == parts;
    } else {
      var (x, t) := (Text(items[0]), items[1..]);
      ScanItem(items[0], Render(t), parts);
      if |items| == 1 {
        assert t == [] && Texts(t) == [] && [x] + [] == [x];
      } else {
        ScanRender(t, parts + [x]);
        Sequences.ConcatAssoc(parts, [x], Texts(t));
      }
    }
  }

  // ------------------------------------------------------ what the scanner does

  /** Open brackets after the first n characters, starting from d. */
  function Depth(s: string, d: int, n: nat): int
    requires n <= |s|
  {
    if n == 0 then d else Depth(s, d, n - 1) + (if s[n - 1] == '[' then 1 else if s[n - 1] == ']' then -1 else 0)
  }

  lemma {:induction false} DepthTail(s: string, d: int, n: nat)
    requires 0 < n <= |s|
    ensures Depth(s, d, n) == Depth(s[1..], d + (if s[0] == '[' then 1 else if s[0] == ']' then -1 else 0), n - 1)
  {
    if n > 1 {
      DepthTail(s, d, n - 1);
      assert s[1..][n - 2] == s[n - 1];
    }
  }

  /** Brackets never nest and are all closed. */
  ghost predicate Flat(s: string, d: int)
  {
    (forall n: nat :: n <= |s| ==> 0 <= Depth(s, d, n) <= 1) && Depth(s, d, |s|) == 0
  }

  lemma FlatTail(s: string, d: int)
    requires s != "" && 0 <= d <= 1
    ensures var d1 := d + (if s[0] == '[' then 1 else if s[0] == ']' then -1 else 0);
            (Flat(s, d) <==> 0 <= d1 <= 1 && Flat(s[1..], d1))
  {
    var d1 := d + (if s[0] == '[' then 1 else if s[0] == ']' then -1 else 0);
    forall n: nat | n <= |s| - 1
      ensures Depth(s[1..], d1, n) == Depth(s, d, n + 1)
    {
      DepthTail(s, d, n + 1);
    }
    if Flat(s[1..], d1) && 0 <= d1 <= 1 {
      forall n: nat | n <= |s|
        ensures 0 <= Depth(s, d, n) <= 1
      {
        if n > 0 {
          assert Depth(s[1..], d1, n - 1) == Depth(s, d, n);
        }
      }
    }
    if Flat(s, d) {
      assert Depth(s, d, 0 + 1) == Depth(s[1..], d1, 0);
      forall n: nat | n <= |s| - 1
        ensures 0 <= Depth(s[1..], d1, n) <= 1
      {
        assert 0 <= Depth(s, d, n + 1) <= 1;
      }
    }
  }

  /** The first n characters neither nest a bracket nor close one too many. */
  ghost predicate FlatSoFar(s: string, d: int, n: nat)
  {
    n <= |s| && forall m: nat :: m <= n ==> 0 <= Depth(s, d, m) <= 1
  }

  lemma FlatSoFarTail(s: string, d: int, n: nat)
    requires 0 < n && FlatSoFar(s, d, n)
    ensures FlatSoFar(s[1..], Depth(s, d, 1), n - 1)
  {
    assert Depth(s, d, 0) == d;
    forall m: nat | m <= n - 1
      ensures 0 <= Depth(s[1..], Depth(s, d, 1), m) <= 1
    {
      DepthTail(s, d, m + 1);
      assert 0 <= Depth(s, d, m + 1) <= 1;
    }
  }

  /** The state after one more character. */
  lemma ScanOnce(s: string, parts: seq<string>, buffer: string, inside: bool) returns (parts1: seq<string>, buffer1: string, inside1: bool)
    requires s != "" && 0 <= Depth(s, if inside then 1 else 0, 1) <= 1
    ensures Scan(s, parts, buffer, inside) == Scan(s[1..], parts1, buffer1, inside1)
    ensures Depth(s, if inside then 1 else 0, 1) == if inside1 then 1 else 0
  {
    assert Depth(s, if inside then 1 else 0, 0) == if inside then 1 else 0;
    if s[0] == '[' {
      parts1, buffer1, inside1 := parts, buffer + "[", true;
    } else if s[0] == ']' {
      parts1, buffer1, inside1 := parts + [buffer + "]"], "", false;
    } else if s[0] == ',' && !inside {
      parts1, buffer1, inside1 := Flush(parts, buffer), "", false;
    } else {
      parts1, buffer1, inside1 := parts, buffer + [s[0]], inside;
    }
  }

  /** The first bracket out of place decides the error. */
  lemma {:induction false} ScanErrorAt(s: string, parts: seq<string>, buffer: string, inside: bool, n: nat)
    requires n < |s| && FlatSoFar(s, if inside then 1 else 0, n)
    requires Depth(s, if inside then 1 else 0, n + 1) == 2 || Depth(s, if inside then 1 else 0, n + 1) == -1
    ensures Scan(s, parts, buffer, inside) == Failed(if Depth(s, if inside then 1 else 0, n + 1) == 2 then Nested else Unmatched)
    decreases n
  {
    var d := if inside then 1 else 0;
    assert Depth(s, d, 0) == d;
    if n > 0 {
      assert 0 <= Depth(s, d, 1) <= 1;
      FlatSoFarTail(s, d, n);
      DepthTail(s, d, n + 1);
      assert Depth(s, d, 1) == d + (if s[0] == '[' then 1 else if s[0] == ']' then -1 else 0);
      var parts1, buffer1, inside1 := ScanOnce(s, parts, buffer, inside);
      ScanErrorAt(s[1..], parts1, buffer1, inside1, n - 1);
    }
  }

  /** A bracket left open is the remaining error. */
  lemma {:induction false} ScanUnclosed(s: string, parts: seq<string>, buffer: string, inside: bool)
    requires FlatSoFar(s, if inside then 1 else 0, |s|) && Depth(s, if inside then 1 else 0, |s|) == 1
    ensures Scan(s, parts, buffer, inside) == Failed(Unclosed)
  {
    var d := if inside then 1 else 0;
    assert Depth(s, d, 0) == d;
    if s != "" {
      assert 0 <= Depth(s, d, 1) <= 1;
      FlatSoFarTail(s, d, |s|);
      DepthTail(s, d, |s|);
      assert Depth(s, d, 1) == d + (if s[0] == '[' then 1 else if s[0] == ']' then -1 else 0);
      var parts1, buffer1, inside1 := ScanOnce(s, parts, buffer, inside);
      ScanUnclosed(s[1..], parts1, buffer1, inside1);
    }
  }

  /** The scanner succeeds exactly on flat bracketing. */
  lemma {:induction false} ScanSucceedsIff(s: string, parts: seq<string>, buffer: string, inside: bool)
    ensures Scan(s, parts, buffer, inside).Parts? <==> Flat(s, if inside then 1 else 0)
  {
    var d := if inside then 1 else 0;
    if s != "" {
      FlatTail(s, d);
      if s[0] == '[' {
        if !inside { ScanSucceedsIff(s[1..], parts, buffer + "[", true); }
      } else if s[0] == ']' {
        if inside { ScanSucceedsIff(s[1..], parts + [buffer + "]"], "", false); }
      } else if s[0] == ',' && !inside {
        ScanSucceedsIff(s[1..], Flush(parts, buffer), "", false);
      } else {
        ScanSucceedsIff(s[1..], parts, buffer + [s[0]], inside);
      }
    }
  }

  function Concat(parts: seq<string>): string
  {
    if parts == [] then "" else Concat(parts[..|parts| - 1]) + parts[|parts| - 1]
  }

  /** The text without the commas outside brackets. */
  function Uncut(s: string, inside: bool): string
  {
    if s == "" then ""
    else
      var rest := Uncut(s[1..], if s[0] == '[' then true else if s[0] == ']' then false else inside);
      if s[0] == ',' && !inside then rest else [s[0]] + rest
  }

  lemma ConcatMore(parts: seq<string>, x: string)
    ensures Concat(parts + [x]) == Concat(parts) + x
  {
    assert (parts + [x])[..|parts|] == parts;
  }

  lemma FlushKeeps(parts: seq<string>, buffer: string)
    ensures Concat(Flush(parts, buffer)) == Concat(parts) + buffer
  {
    ConcatMore(parts, buffer);
    assert Concat(parts) + "" == Concat(parts);
  }

  /** The parts hold every character but the separating commas, in order. */
  lemma {:induction false} ScanKeepsText(s: string, parts: seq<string>, buffer: string, inside: bool)
    requires Scan(s, parts, buffer, inside).Parts?
    ensures Concat(Scan(s, parts, buffer, inside).parts) == Concat(parts) + buffer + Uncut(s, inside)
  {
    if s == "" {
      FlushKeeps(parts, buffer);
      assert Concat(parts) + buffer + "" == Concat(parts) + buffer;
    } else {
      var (c, t) := ([s[0]], s[1..]);
      if s[0] == '[' {
        ScanKeepsText(t, parts, buffer + c, true);
        Spread(Concat(parts), buffer, c, Uncut(t, true));
      } else if s[0] == ']' {
        ScanKeepsText(t, parts + [buffer + c], "", false);
        ConcatMore(parts, buffer + c);
        Spread(Concat(parts), buffer, c, Uncut(t, false));
      } else if s[0] == ',' && !inside {
        ScanKeepsText(t, Flush(parts, buffer), "", false);
        FlushKeeps(parts, buffer);
        assert Concat(parts) + buffer + "" == Concat(parts) + buffer;
      } else {
        ScanKeepsText(t, parts, buffer + c, inside);
        Spread(Concat(parts), buffer, c, Uncut(t, inside));
      }
    }
  }

  lemma Spread(a: string, b: string, c: string, d: string)
    ensures a + (b + c) + d == a + b + (c + d) && a + (b + c) + "" + d == a + b + (c + d)
  {
  }

  // ------------------------------------------------------------------ parser

  datatype PartError = BadOrder | BadNumber

  datatype Read = Item(item: SlotRuns.Item) | Bad(why: PartError)

  /** Position of the first comma, or the length. */
  function Comma(s: string): (k: nat)
    ensures k <= |s| && (k < |s| ==> s[k] == ',') && forall i :: 0 <= i < k ==> s[i] != ','
  {
    if s == "" || s[0] == ',' then 0 else 1 + Comma(s[1..])
  }

  /** A bracketed pair of digit strings. */
  predicate IsPair(part: string)
  {
    && |part| >= 2 && part[0] == '[' && part[|part| - 1] == ']'
    && var inner := part[1..|part| - 1];
       Comma(inner) < |inner| && AllDigits(inner[..Comma(inner)]) && AllDigits(inner[Comma(inner) + 1..])
  }

  function ReadPart(part: string): Read
  {
    if IsPair(part) then
      var inner := part[1..|part| - 1];
      var (a, b) := (NatValue(inner[..Comma(inner)]), NatValue(inner[Comma(inner) + 1..]));
      if a > b then Bad(BadOrder) else Item(Range(a, b))
    else
      match ParseInt(part)
      case Some(n) => Item(Single(n))
      case None => Bad(BadNumber)
  }

  datatype ReadAll = Items(items: seq<SlotRuns.Item>) | BadPart(why: PartError)

  function ReadParts(parts: seq<string>): ReadAll
  {
    if parts == [] then Items([])
    else
      match ReadPart(parts[0])
      case Bad(why) => BadPart(why)
      case Item(x) =>
        match ReadParts(parts[1..])
        case BadPart(why) => BadPart(why)
        case Items(xs) => Items([x] + xs)
  }

  method ParseParts(parts: seq<string>) returns (r: ReadAll)
    ensures r == ReadParts(parts)
  {
    var items: seq<SlotRuns.Item> := [];
    var i := 0;
    assert parts[0..] == parts;
    while i < |parts|
      invariant 0 <= i <= |parts|
      invariant ReadParts(parts) == Prepend(items, ReadParts(parts[i..]))
    {
      assert parts[i..][0] == parts[i] && parts[i..][1..] == parts[i + 1..];
      var read := ReadPart(parts[i]);
      if read.Bad? {
        return BadPart(read.why);
      }
      PrependOne(items, read.item, ReadParts(parts[i + 1..]));
      items := items + [read.item];
      i := i + 1;
    }
    assert items + [] == items;
    return Items(items);
  }

  ghost function Prepend(items: seq<SlotRuns.Item>, r: ReadAll): ReadAll
  {
    match r
    case BadPart(why) => r
    case Items(xs) => Items(items + xs)
  }

  lemma PrependOne(items: seq<SlotRuns.Item>, x: SlotRuns.Item, r: ReadAll)
    ensures Prepend(items, Prepend([x], r)) == Prepend(items + [x], r)
  {
    if r.Items? {
      assert items + ([x] + r.items) == items + [x] + r.items;
    }
  }

  predicate IsSpace(c: char)
  {
    c == ' ' || '\t' <= c <= '\r' || '\U{1c}' <= c <= '\U{1f}' || c == '\U{85}' || c == '\U{a0}'
  }

  function NoSpace(s: string): string
  {
    if s == "" then "" else (if IsSpace(s[0]) then "" else [s[0]]) + NoSpace(s[1..])
  }

  datatype Parsed = Slots(slots: seq<int>) | ScanFailed(scan: ScanError) | PartFailed(part: PartError)

  function ParseText(text: string): Parsed
  {
    match Scan(NoSpace(text), [], "", false)
    case Failed(e) => ScanFailed(e)
    case Parts(parts) =>
      match ReadParts(parts)
      case BadPart(e) => PartFailed(e)
      case Items(items) => Slots(Expanded(items))
  }

  method ParseMixed(text: string) returns (r: Parsed)
    ensures r == ParseText(text)
  {
    var scanned := SplitParts(NoSpace(text));
    if scanned.Failed? {
      return ScanFailed(scanned.error);
    }
    var read := ParseParts(scanned.parts);
    if read.BadPart? {
      return PartFailed(read.why);
    }
    var slots := Decompress(read.items);
    return Slots(slots);
  }

  // -------------------------------------------------------------- white space

  lemma {:induction false} NoSpaceConcat(a: string, b: string)
    ensures NoSpace(a + b) == NoSpace(a) + NoSpace(b)
  {
    if a == "" {
      assert a + b == b;
    } else {
      var (h, t) := (if IsSpace(a[0]) then "" else [a[0]], a[1..]);
      NoSpaceConcat(t, b);
      assert (a + b)[0] == a[0] && (a + b)[1..] == t + b;
      Sequences.ConcatAssoc(h, NoSpace(t), NoSpace(b));
    }
  }

  lemma {:induction false} BlanksVanish(blanks: string)
    requires forall i :: 0 <= i < |blanks| ==> blanks[i] == ' ' || blanks[i] == '\t' || blanks[i] == '\n' || blanks[i] == '\r'
    ensures NoSpace(blanks) == ""
  {
    if blanks != "" {
      BlanksVanish(blanks[1..]);
    }
  }

  /** Blanks, tabs and line ends anywhere in the text change nothing. */
  lemma BlanksIgnored(a: string, blanks: string, b: string)
    requires forall i :: 0 <= i < |blanks| ==> blanks[i] == ' ' || blanks[i] == '\t' || blanks[i] == '\n' || blanks[i] == '\r'
    ensures ParseText(a + blanks + b) == ParseText(a + b)
  {
    BlanksVanish(blanks);
    NoSpaceConcat(a + blanks, b);
    NoSpaceConcat(a, blanks);
    NoSpaceConcat(a, b);
    assert NoSpace(a) + "" == NoSpace(a);
  }

  /** Visible characters stay. */
  lemma {:induction false} VisibleKept(s: string)
    requires forall i :: 0 <= i < |s| ==> '!' <= s[i] <= '~'
    ensures NoSpace(s) == s
  {
    if s != "" {
      VisibleKept(s[1..]);
      assert [s[0]] + s[1..] == s;
    }
  }

  // -------------------------------------------------------------- round trip

  /** A printed item that reads back: ranges must not start below zero. */
  predicate Printable(item: SlotRuns.Item)
  {
    item.Single? || (0 <= item.start <= item.end)
  }

  lemma CommaAt(a: string, b: string)
    requires forall i :: 0 <= i < |a| ==> a[i] != ','
    ensures Comma(a + "," + b) == |a|
  {
    var s := a + "," + b;
    assert s[|a|] == ',' && s[..|a|] == a;
  }

  lemma SingleReads(n: int)
    ensures ReadPart(IntText(n)) == Item(Single(n))
  {
    IntRoundTrip(n);
    assert IntText(n)[0] != '[';
  }

  lemma PairInner(x: string, y: string)
    requires forall i :: 0 <= i < |x| ==> x[i] != ','
    ensures var part := "[" + x + "," + y + "]";
            && |part| >= 2 && part[0] == '[' && part[|part| - 1] == ']'
            && part[1..|part| - 1] == x + "," + y
            && Comma(x + "," + y) == |x| && (x + "," + y)[..|x|] == x && (x + "," + y)[|x| + 1..] == y
  {
    CommaAt(x, y);
  }

  lemma PairReads(x: string, y: string)
    requires AllDigits(x) && AllDigits(y) && NatValue(x) <= NatValue(y)
    ensures ReadPart("[" + x + "," + y + "]") == Item(Range(NatValue(x), NatValue(y)))
  {
    PairInner(x, y);
  }

  /** A sign in front is accepted. */
  lemma SignRead(n: nat)
    ensures ReadPart("+" + NatText(n)) == Item(Single(n)) && ReadPart("-" + NatText(n)) == Item(Single(0 - n))
  {
    NatRoundTrip(n);
    SignedParses('+', NatText(n));
    SignedParses('-', NatText(n));
    assert ("+" + NatText(n))[0] == '+' && ("-" + NatText(n))[0] == '-';
  }

  lemma {:induction false} ValueConcat(x: string, y: string)
    ensures y != "" ==> NatValue(x + "_" + y) == NatValue(x + y)
  {
    if |y| == 1 {
      assert (x + "_" + y)[..|x| + 1] == x + "_" && (x + "_")[..|x|] == x;
      assert (x + y)[..|x|] == x;
    } else if |y| > 1 {
      var z := y[..|y| - 1];
      ValueConcat(x, z);
      assert (x + "_" + y)[..|x| + |y|] == x + "_" + z;
      assert (x + y)[..|x| + |y| - 1] == x + z;
    }
  }

  /** An underscore between digits is skipped. */
  lemma UnderscoreRead(x: string, y: string)
    requires AllDigits(x) && AllDigits(y)
    ensures ReadPart(x + "_" + y) == Item(Single(NatValue(x + y)))
  {
    ValueConcat(x, y);
    var s := x + "_" + y;
    forall i: nat | i < |s|
      ensures NumberAt(s, i)
    {
      if i < |x| {
        assert s[i] == x[i];
      } else if i == |x| {
        assert s[i - 1] == x[|x| - 1] && s[i + 1] == y[0];
      } else {
        assert s[i] == y[i - |x| - 1];
      }
    }
    assert s[0] == x[0];
  }

  /** Anything that begins with a letter or another mark is no number. */
  lemma StrangeRefused(part: string)
    requires part != "" && !('0' <= part[0] <= '9') && part[0] != '+' && part[0] != '-' && part[0] != '['
    ensures ReadPart(part) == Bad(BadNumber)
  {
    NotNumber(part);
  }

  /** A range that runs backwards is refused. */
  lemma BackwardsRefused(a: nat, b: nat)
    requires a > b
    ensures ReadPart("[" + NatText(a) + "," + NatText(b) + "]") == Bad(BadOrder)
  {
    NatRoundTrip(a);
    NatRoundTrip(b);
    PairInner(NatText(a), NatText(b));
  }

  lemma PairRefused(x: string, y: string)
    requires x != "" && !IsDigit(x[0]) && forall i :: 0 <= i < |x| ==> x[i] != ','
    ensures ReadPart("[" + x + "," + y + "]") == Bad(BadNumber)
  {
    PairInner(x, y);
    NotNumber(x);
    NotNumber("[" + x + "," + y + "]");
  }

  lemma RangeReads(a: int, b: int)
    requires a <= b
    ensures ReadPart(Text(Range(a, b))) == if 0 <= a then Item(Range(a, b)) else Bad(BadNumber)
  {
    if 0 <= a {
      NatRoundTrip(a);
      NatRoundTrip(b);
      PairReads(NatText(a), NatText(b));
    } else {
      IntTextPlain(a);
      PairRefused(IntText(a), IntText(b));
    }
  }

  lemma ItemReads(item: SlotRuns.Item)
    requires item.Range? ==> item.start <= item.end
    ensures ReadPart(Text(item)) == if Printable(item) then Item(item) else Bad(BadNumber)
  {
    match item
    case Single(n) => SingleReads(n);
    case Range(a, b) => RangeReads(a, b);
  }

  ghost predicate AllPrintable(items: seq<SlotRuns.Item>)
  {
    forall i :: 0 <= i < |items| ==> Printable(items[i])
  }

  ghost predicate Ordered(items: seq<SlotRuns.Item>)
  {
    forall i :: 0 <= i < |items| ==> items[i].Range? ==> items[i].start <= items[i].end
  }

  /** Printed items are read back, or refused. */
  ghost predicate ReadBack(items: seq<SlotRuns.Item>)
  {
    ReadParts(Texts(items)) == if AllPrintable(items) then Items(items) else BadPart(BadNumber)
  }

  lemma {:induction false} TextsRead(items: seq<SlotRuns.Item>)
    requires Ordered(items)
    ensures ReadBack(items)
  {
    if items != [] {
      FirstItem(items);
      TextsRead(items[1..]);
      TextsStep(items, items[0], items[1..]);
    }
  }

  lemma TextsStep(items: seq<SlotRuns.Item>, x: SlotRuns.Item, rest: seq<SlotRuns.Item>)
    requires items == [x] + rest && ReadBack(rest) && (x.Range? ==> x.start <= x.end)
    requires AllPrintable(items) <==> Printable(x) && AllPrintable(rest)
    ensures ReadBack(items)
  {
    var parts := Texts(items);
    assert items[0] == x && items[1..] == rest;
    assert parts[0] == Text(x) && parts[1..] == Texts(rest);
    ItemReads(x);
    FirstReads(parts, x, rest);
  }

  lemma FirstReads(parts: seq<string>, x: SlotRuns.Item, rest: seq<SlotRuns.Item>)
    requires parts != []
    requires ReadPart(parts[0]) == if Printable(x) then Item(x) else Bad(BadNumber)
    requires ReadParts(parts[1..]) == if AllPrintable(rest) then Items(rest) else BadPart(BadNumber)
    ensures ReadParts(parts) == if Printable(x) && AllPrintable(rest) then Items([x] + rest) else BadPart(BadNumber)
  {
  }

  lemma FirstItem(items: seq<SlotRuns.Item>)
    requires items != [] && Ordered(items)
    ensures Ordered(items[1..])
    ensures AllPrintable(items) <==> Printable(items[0]) && AllPrintable(items[1..])
  {
    var t := items[1..];
    assert forall i :: 0 <= i < |t| ==> t[i] == items[i + 1];
    if Printable(items[0]) && AllPrintable(t) {
      assert forall i :: 0 < i < |items| ==> items[i] == t[i - 1];
    }
  }

  ghost predicate Spaceless(s: string)
  {
    forall i :: 0 <= i < |s| ==> !IsSpace(s[i])
  }

  lemma {:induction false} NoSpaceKeeps(s: string)
    requires Spaceless(s)
    ensures NoSpace(s) == s
  {
    if s != "" {
      NoSpaceKeeps(s[1..]);
      assert [s[0]] + s[1..] == s;
    }
  }

  lemma SpacelessConcat(a: string, b: string)
    requires Spaceless(a) && Spaceless(b)
    ensures Spaceless(a + b)
  {
  }

  lemma IntSpaceless(n: int)
    ensures Spaceless(IntText(n))
  {
    var s := NatText(if n < 0 then -n else n);
    assert Spaceless(s);
    SpacelessConcat("-", s);
  }

  lemma TextSpaceless(item: SlotRuns.Item)
    ensures Spaceless(Text(item))
  {
    match item
    case Single(n) => IntSpaceless(n);
    case Range(a, b) =>
      IntSpaceless(a);
      IntSpaceless(b);
      SpacelessConcat("[", IntText(a));
      SpacelessConcat("[" + IntText(a), ",");
      SpacelessConcat("[" + IntText(a) + ",", IntText(b));
      SpacelessConcat("[" + IntText(a) + "," + IntText(b), "]");
  }

  lemma {:induction false} RenderSpaceless(items: seq<SlotRuns.Item>)
    ensures Spaceless(Render(items))
  {
    if items != [] {
      TextSpaceless(items[0]);
      RenderSpaceless(items[1..]);
      SpacelessConcat(Text(items[0]), ",");
      SpacelessConcat(Text(items[0]) + ",", Render(items[1..]));
    }
  }

  /** Parsing what was printed from any items in order. */
  lemma RenderParses(items: seq<SlotRuns.Item>)
    requires Ordered(items)
    ensures ParseText(Render(items)) == if AllPrintable(items) then Slots(Expanded(items)) else PartFailed(BadNumber)
  {
    RenderSpaceless(items);
    NoSpaceKeeps(Render(items));
    ScanRender(items, []);
    assert [] + Texts(items) == Texts(items);
    TextsRead(items);
  }

  /** Three consecutive slots that start below zero. */
  ghost predicate NegativeRun(s: seq<int>)
  {
    exists i :: NegativeRunAt(s, i)
  }

  predicate NegativeRunAt(s: seq<int>, i: int)
  {
    0 <= i && i + 2 < |s| && s[i] < 0 && s[i + 1] == s[i] + 1 && s[i + 2] == s[i] + 2
  }

  ghost predicate NegativeFree(s: seq<int>, lo: nat, hi: nat)
  {
    forall i :: lo <= i < hi ==> !NegativeRunAt(s, i)
  }

  lemma FreeSplit(s: seq<int>, lo: nat, mid: nat, hi: nat)
    requires lo <= mid <= hi
    ensures NegativeFree(s, lo, hi) <==> NegativeFree(s, lo, mid) && NegativeFree(s, mid, hi)
  {
  }

  lemma {:induction false} CompressedPrintable(s: seq<int>, p: nat)
    requires p <= |s| && RunStart(s, p)
    ensures Ordered(Compressed(s, p))
    ensures AllPrintable(Compressed(s, p)) <==> NegativeFree(s, p, |s|)
    decreases |s| - p
  {
    if p < |s| {
      var q := RunEnd(s, p);
      CompressedPrintable(s, q);
      PrintableConcat(Emitted(s[p], s[q - 1]), Compressed(s, q));
      RunPrintable(s, p);
      FreeSplit(s, p, q, |s|);
    }
  }

  lemma PrintableConcat(a: seq<SlotRuns.Item>, b: seq<SlotRuns.Item>)
    ensures AllPrintable(a + b) <==> AllPrintable(a) && AllPrintable(b)
    ensures Ordered(a + b) <==> Ordered(a) && Ordered(b)
  {
    if AllPrintable(a + b) || Ordered(a + b) {
      assert forall i :: 0 <= i < |a| ==> (a + b)[i] == a[i];
      assert forall i :: 0 <= i < |b| ==> (a + b)[|a| + i] == b[i];
    }
  }

  /** A run prints readably unless it has three slots and starts below zero. */
  lemma RunPrintable(s: seq<int>, p: nat)
    requires p < |s|
    ensures var q := RunEnd(s, p);
            && s[p] <= s[q - 1]
            && Ordered(Emitted(s[p], s[q - 1]))
            && (AllPrintable(Emitted(s[p], s[q - 1])) <==> NegativeFree(s, p, q))
  {
    var q := RunEnd(s, p);
    assert s[q - 1] == s[p] + (q - 1 - p);
    if q - p >= 3 && s[p] < 0 {
      assert NegativeRunAt(s, p);
      assert !Printable(Emitted(s[p], s[q - 1])[0]);
    } else {
      forall i | p <= i < q
        ensures !NegativeRunAt(s, i)
      {
        if NegativeRunAt(s, i) {
          NegativeInside(s, p, q, i);
        }
      }
    }
  }

  lemma NegativeInside(s: seq<int>, p: nat, q: nat, i: nat)
    requires p <= i < q <= |s| && s[i] == s[p] + (i - p) && (q < |s| ==> s[q] != s[q - 1] + 1) && NegativeRunAt(s, i)
    ensures q - p >= 3 && s[p] < 0
  {
  }

  /** Printing the compressed list and parsing it gives the list back, exactly when no run of three starts below zero. */
  lemma TextRoundTripIff(s: seq<int>)
    ensures ParseText(Render(Compressed(s, 0))) == Slots(s) <==> !NegativeRun(s)
  {
    CompressedPrintable(s, 0);
    RenderParses(Compressed(s, 0));
    RoundTrip(s, 0);
    assert s[0..] == s;
    assert NegativeRun(s) <==> !NegativeFree(s, 0, |s|);
  }

  /** Such a list: its range is refused when read back. */
  lemma NegativeRunLost()
    ensures ParseText(Render(Compressed([-1, 0, 1], 0))) != Slots([-1, 0, 1])
  {
    assert NegativeRunAt([-1, 0, 1], 0);
    TextRoundTripIff([-1, 0, 1]);
  }

  lemma OneDigit(n: nat, word: string)
    requires n < 10 && word == ['0' + n as char]
    ensures NatText(n) == word && Text(Single(n)) == word
  {
  }

  lemma TwoDigits(a: nat, b: nat, word: string)
    requires 1 <= a < 10 && b < 10 && word == ['0' + a as char, '0' + b as char]
    ensures NatText(10 * a + b) == word && Text(Single(10 * a + b)) == word
  {
    OneDigit(a, ['0' + a as char]);
  }

  lemma RenderOne(x: SlotRuns.Item)
    ensures Render([x]) == Text(x)
  {
  }

  lemma RenderMore(x: SlotRuns.Item, rest: seq<SlotRuns.Item>, word: string, text: string, whole: string)
    requires rest != [] && Text(x) == word && Render(rest) == text && whole == word + "," + text
    ensures Render([x] + rest) == whole
  {
    var items := [x] + rest;
    assert items[0] == x && items[1..] == rest;
  }

  lemma ExpandOne(x: SlotRuns.Item, rest: seq<SlotRuns.Item>, slots: seq<int>, whole: seq<int>)
    requires Expanded(rest) == slots && whole == SlotRuns.Slots(x) + slots
    ensures Expanded([x] + rest) == whole
  {
    var items := [x] + rest;
    assert items[0] == x && items[1..] == rest;
  }

  lemma RangeText(a: nat, b: nat, x: string, y: string)
    requires NatText(a) == x && NatText(b) == y
    ensures Text(Range(a, b)) == "[" + x + "," + y + "]"
  {
  }

  /** The example of the parser's documentation. */
  lemma DocumentedExample()
    ensures ParseText("1,2,3,[9,12],17,19") == Slots([1, 2, 3, 9, 10, 11, 12, 17, 19])
  {
    var items := ExampleItems();
    RenderParses(items);
  }

  lemma ExampleItems() returns (items: seq<SlotRuns.Item>)
    ensures Ordered(items) && AllPrintable(items)
    ensures Render(items) == "1,2,3,[9,12],17,19" && Expanded(items) == [1, 2, 3, 9, 10, 11, 12, 17, 19]
  {
    var t1 := [Single(19)];
    var t2 := [Single(17)] + t1;
    var t3 := [Range(9, 12)] + t2;
    var t4 := [Single(3)] + t3;
    var t5 := [Single(2)] + t4;
    items := [Single(1)] + t5;
    ExampleText(t1, t2, t3, t4, t5, items);
    ExampleSlots(t1, t2, t3, t4, t5, items);
    assert items == [Single(1), Single(2), Single(3), Range(9, 12), Single(17), Single(19)];
  }

  lemma ExampleText(t1: seq<SlotRuns.Item>, t2: seq<SlotRuns.Item>, t3: seq<SlotRuns.Item>, t4: seq<SlotRuns.Item>, t5: seq<SlotRuns.Item>, t6: seq<SlotRuns.Item>)
    requires t1 == [Single(19)] && t2 == [Single(17)] + t1 && t3 == [Range(9, 12)] + t2
    requires t4 == [Single(3)] + t3 && t5 == [Single(2)] + t4 && t6 == [Single(1)] + t5
    ensures Render(t6) == "1,2,3,[9,12],17,19"
  {
    ExampleRange(t1, t2, t3);
    ExampleWords();
    Glue3();
    Glue2();
    Glue1();
    RenderMore(Single(3), t3, "3", "[9,12],17,19", "3,[9,12],17,19");
    RenderMore(Single(2), t4, "2", "3,[9,12],17,19", "2,3,[9,12],17,19");
    RenderMore(Single(1), t5, "1", "2,3,[9,12],17,19", "1,2,3,[9,12],17,19");
  }

  lemma ExampleRange(t1: seq<SlotRuns.Item>, t2: seq<SlotRuns.Item>, t3: seq<SlotRuns.Item>)
    requires t1 == [Single(19)] && t2 == [Single(17)] + t1 && t3 == [Range(9, 12)] + t2
    ensures Render(t3) == "[9,12],17,19"
  {
    ExampleWords();
    ShortGlue();
    RenderOne(Single(19));
    RenderMore(Single(17), t1, "17", "19", "17,19");
    RenderMore(Range(9, 12), t2, "[9,12]", "17,19", "[9,12],17,19");
  }

  lemma ExampleWords()
    ensures Text(Single(1)) == "1" && Text(Single(2)) == "2" && Text(Single(3)) == "3"
    ensures Text(Single(17)) == "17" && Text(Single(19)) == "19" && Text(Range(9, 12)) == "[9,12]"
  {
    OneDigit(1, "1");
    OneDigit(2, "2");
    OneDigit(3, "3");
    TwoDigits(1, 7, "17");
    TwoDigits(1, 9, "19");
    OneDigit(9, "9");
    TwoDigits(1, 2, "12");
    RangeText(9, 12, "9", "12");
  }

  lemma ShortGlue()
    ensures "17,19" == "17" + "," + "19"
    ensures "[9,12],17,19" == "[9,12]" + "," + "17,19"
  {
  }

  lemma Glue3()
    ensures "3,[9,12],17,19" == "3" + "," + "[9,12],17,19"
  {
  }

  lemma Glue2()
    ensures "2,3,[9,12],17,19" == "2" + "," + "3,[9,12],17,19"
  {
  }

  lemma Glue1()
    ensures "1,2,3,[9,12],17,19" == "1" + "," + "2,3,[9,12],17,19"
  {
  }

  lemma ExampleSlots(t1: seq<SlotRuns.Item>, t2: seq<SlotRuns.Item>, t3: seq<SlotRuns.Item>, t4: seq<SlotRuns.Item>, t5: seq<SlotRuns.Item>, t6: seq<SlotRuns.Item>)
    requires t1 == [Single(19)] && t2 == [Single(17)] + t1 && t3 == [Range(9, 12)] + t2
    requires t4 == [Single(3)] + t3 && t5 == [Single(2)] + t4 && t6 == [Single(1)] + t5
    ensures Expanded(t6) == [1, 2, 3, 9, 10, 11, 12, 17, 19]
  {
    assert [Single(19)] + [] == t1;
    ExpandOne(Single(19), [], [], [19]);
    ExpandOne(Single(17), t1, [19], [17, 19]);
    assert Span(9, 12) == [9, 10, 11, 12];
    ExpandOne(Range(9, 12), t2, [17, 19], [9, 10, 11, 12, 17, 19]);
    ExpandOne(Single(3), t3, [9, 10, 11, 12, 17, 19], [3, 9, 10, 11, 12, 17, 19]);
    ExpandOne(Single(2), t4, [3, 9, 10, 11, 12, 17, 19], [2, 3, 9, 10, 11, 12, 17, 19]);
    ExpandOne(Single(1), t5, [2, 3, 9, 10, 11, 12, 17, 19], [1, 2, 3, 9, 10, 11, 12, 17, 19]);
  }
}
