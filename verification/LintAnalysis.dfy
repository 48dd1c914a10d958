/**
 The alias analysis as functions: bindings are sets of possible kinds, branches
 join, loops iterate their header to a fixed point.
 */
module LintAnalysis {
  import opened LintSyntax

  datatype Mark = MTorch | MDevice | MAlias

  /** A binding: the marks a name may carry; a missing name carries none. */
  type Scope = map<string, set<Mark>>

  function Look(a: Scope, x: string): set<Mark>
  {
    if x in a then a[x] else {}
  }

  /** Join of two paths. */
  function Merge2(a: Scope, b: Scope): (m: Scope)
    ensures m.Keys == a.Keys + b.Keys
    ensures forall x :: Look(m, x) == Look(a, x) + Look(b, x)
  {
    map x | x in a.Keys + b.Keys :: Look(a, x) + Look(b, x)
  }

  function MergeAll(paths: seq<Scope>): (m: Scope)
    requires paths != []
  {
    if |paths| == 1 then paths[0] else Merge2(paths[0], MergeAll(paths[1..]))
  }

  /** Every path is below the join. */
  lemma {:induction false} MergeAllAbove(paths: seq<Scope>, i: nat)
    requires i < |paths|
    ensures paths[i].Keys <= MergeAll(paths).Keys
    ensures forall x :: Look(paths[i], x) <= Look(MergeAll(paths), x)
  {
    if |paths| > 1 && i > 0 {
      MergeAllAbove(paths[1..], i - 1);
    }
  }

  lemma {:induction false} MergeAllKeys(paths: seq<Scope>, U: set<string>)
    requires paths != [] && forall i :: 0 <= i < |paths| ==> paths[i].Keys <= U
    ensures MergeAll(paths).Keys <= U
  {
    if |paths| > 1 {
      MergeAllKeys(paths[1..], U);
    }
  }

  /** A mark in the join comes from one of the paths. */
  lemma {:induction false} MergeAllFrom(paths: seq<Scope>, x: string, k: Mark) returns (i: nat)
    requires paths != [] && k in Look(MergeAll(paths), x)
    ensures i < |paths| && k in Look(paths[i], x)
  {
    if |paths| == 1 || k in Look(paths[0], x) {
      i := 0;
    } else {
      var j := MergeAllFrom(paths[1..], x, k);
      i := j + 1;
    }
  }

  // ------------------------------------------------------------ expressions

  /** The visitor reports loads marked as device; it never sets the alias mark. */
  predicate LoadMarked(focus: Focus, marks: set<Mark>)
  {
    (MDevice in marks && focus.view != Dropped) || (MAlias in marks && focus.view != Caught)
  }

  predicate UpdateMarked(focus: Focus, marks: set<Mark>)
  {
    focus.view != Caught && (MDevice in marks || MAlias in marks)
  }

  datatype Seen = Seen(marks: set<Mark>, scope: Scope, lines: set<nat>)

  function VisitExpr(e: Expr, focus: Focus, a: Scope): (r: Seen)
    ensures r.scope.Keys <= a.Keys + ExprNames(e)
    decreases e
  {
    match e
    case Const => Seen({}, a, {})
    case Name(x, line) => Seen(Look(a, x), a, if LoadMarked(focus, Look(a, x)) then {line} else {})
    case Attr(base, attr, line) =>
      var r := VisitExpr(base, focus, a);
      if attr in focus.devices && MTorch in r.marks then Seen({MDevice}, r.scope, r.lines + Plain(focus, line)) else Seen({}, r.scope, r.lines)
    case Walrus(x, value) =>
      var r := VisitExpr(value, focus, a);
      Seen(r.marks, r.scope[x := r.marks], r.lines)
    case Cond(test, thn, els) =>
      var t := VisitExpr(test, focus, a);
      var b := VisitExpr(thn, focus, t.scope);
      var c := VisitExpr(els, focus, t.scope);
      Seen(b.marks + c.marks, Merge2(b.scope, c.scope), t.lines + b.lines + c.lines)
    case BoolOp(left, right) =>
      var l := VisitExpr(left, focus, a);
      var r := VisitExpr(right, focus, l.scope);
      Seen(l.marks + r.marks, Merge2(r.scope, l.scope), l.lines + r.lines)
  }

  function ExprNames(e: Expr): set<string>
  {
    match e
    case Const => {}
    case Name(x, _) => {x}
    case Attr(base, _, _) => ExprNames(base)
    case Walrus(x, value) => {x} + ExprNames(value)
    case Cond(test, thn, els) => ExprNames(test) + ExprNames(thn) + ExprNames(els)
    case BoolOp(left, right) => ExprNames(left) + ExprNames(right)
  }

  function StmtNames(s: Stmt): set<string>
    decreases s
  {
    match s
    case Assign(x, value) => {x} + ExprNames(value)
    case AugAssign(x, value, _) => {x} + ExprNames(value)
    case Import(x, _, _) => {x}
    case Del(x) => {x}
    case Eval(value) => ExprNames(value)
    case If(test, body, orelse) => ExprNames(test) + BlockNames(body) + BlockNames(orelse)
    case While(test, body, orelse) => ExprNames(test) + BlockNames(body) + BlockNames(orelse)
    case Break => {}
    case Continue => {}
    case Raise(value) => ExprNames(value)
  }

  function BlockNames(b: seq<Stmt>): set<string>
    decreases b
  {
    if b == [] then {} else StmtNames(b[0]) + BlockNames(b[1..])
  }

  // ------------------------------------------------------------- statements

  /** A jump out of the block: break, continue or raise, with the bindings at that point. */
  datatype Exit = Exit(kind: Kind, scope: Scope)

  ghost predicate JumpsOnly(exits: seq<Exit>)
  {
    forall i :: 0 <= i < |exits| ==> exits[i].kind != Normal
  }

  datatype Flow = Flow(scope: Scope, reachable: bool, exits: seq<Exit>, lines: set<nat>)

  ghost predicate Within(f: Flow, U: set<string>)
  {
    f.scope.Keys <= U && forall i :: 0 <= i < |f.exits| ==> f.exits[i].scope.Keys <= U
  }

  /** The visitor binds an import with as to nothing, so its alias is not followed. */
  function ImportMarks(focus: Focus, kind: ImportKind): set<Mark>
  {
    match kind
    case OfTorch => {MTorch}
    case OfTorchDevice => {MTorch}
    case OfDevice => {MDevice}
    case AsDevice => if focus.view == Caught then {} else {MAlias}
    case FromDevice => {}
    case OfOther => {}
  }

  /** Join of the branches that can be left normally. */
  function JoinBranches(entry: Scope, f: Flow, g: Flow): Scope
  {
    if f.reachable && g.reachable then Merge2(f.scope, g.scope)
    else if f.reachable then f.scope
    else if g.reachable then g.scope
    else entry
  }

  function Scopes(exits: seq<Exit>, kind: Kind): (r: seq<Scope>)
    ensures forall i :: 0 <= i < |r| ==> exists j :: 0 <= j < |exits| && exits[j] == Exit(kind, r[i])
    ensures forall j :: 0 <= j < |exits| && exits[j].kind == kind ==> exits[j].scope in r
  {
    if exits == [] then []
    else (if exits[0].kind == kind then [exits[0].scope] else []) + Scopes(exits[1..], kind)
  }

  function Outer(exits: seq<Exit>): (r: seq<Exit>)
    ensures forall i :: 0 <= i < |r| ==> r[i] in exits && r[i].kind == Raised
    ensures forall j :: 0 <= j < |exits| && exits[j].kind == Raised ==> exits[j] in r
  {
    if exits == [] then []
    else (if exits[0].kind == Raised then [exits[0]] else []) + Outer(exits[1..])
  }

  /** The states a loop can be left in: its else block, or a break. */
  function LeavingPaths(l: Fixed, g: Flow): seq<Scope>
  {
    (if g.reachable then [g.scope] else []) + l.breaks
  }

  function LoopFlow(a: Scope, l: Fixed, g: Flow, ghost U: set<string>): (f: Flow)
    requires a.Keys <= U && Within(g, U) && FixedWithin(l, U)
    ensures Within(f, U)
  {
    var paths := LeavingPaths(l, g);
    if paths == [] then Flow(a, false, l.outer + g.exits, l.lines + g.lines)
    else
      MergeAllKeys(paths, U);
      Flow(MergeAll(paths), true, l.outer + g.exits, l.lines + g.lines)
  }

  ghost predicate FixedWithin(l: Fixed, U: set<string>)
  {
    && l.exhausted.Keys <= U
    && (forall i :: 0 <= i < |l.breaks| ==> l.breaks[i].Keys <= U)
    && (forall i :: 0 <= i < |l.outer| ==> l.outer[i].scope.Keys <= U)
  }

  function VisitStmt(s: Stmt, focus: Focus, a: Scope, ghost U: set<string>): (f: Flow)
    requires a.Keys <= U && StmtNames(s) <= U
    ensures Within(f, U)
    decreases s, 2
  {
    match s
    case Break => Flow(a, false, [Exit(Broke, a)], {})
    case Continue => Flow(a, false, [Exit(Continued, a)], {})
    case Import(x, kind, line) => Flow(a[x := ImportMarks(focus, kind)], true, [], if DirectImport(kind) then Plain(focus, line) else {})
    case Del(x) => Flow(a - {x}, true, [], {})
    case Assign(x, value) =>
      var r := VisitExpr(value, focus, a);
      Flow(r.scope[x := r.marks], true, [], r.lines)
    case AugAssign(x, value, line) =>
      var r := VisitExpr(value, focus, a);
      Flow(r.scope[x := {}], true, [], (if UpdateMarked(focus, Look(a, x)) then {line} else {}) + r.lines)
    case Eval(value) =>
      var r := VisitExpr(value, focus, a);
      Flow(r.scope, true, [], r.lines)
    case Raise(value) =>
      var r := VisitExpr(value, focus, a);
      Flow(r.scope, false, [Exit(Raised, r.scope)], r.lines)
    case If(test, body, orelse) =>
      var r := VisitExpr(test, focus, a);
      var f := VisitBlock(body, focus, r.scope, U);
      var g := VisitBlock(orelse, focus, r.scope, U);
      Flow(JoinBranches(r.scope, f, g), f.reachable || g.reachable, f.exits + g.exits, r.lines + f.lines + g.lines)
    case While(_, _, _) =>
      var l := VisitLoop(s, focus, a, a, [], U);
      var g := VisitBlock(s.orelse, focus, l.exhausted, U);
      LoopFlow(a, l, g, U)
  }

  function VisitBlock(b: seq<Stmt>, focus: Focus, a: Scope, ghost U: set<string>): (f: Flow)
    requires a.Keys <= U && BlockNames(b) <= U
    ensures Within(f, U)
    decreases b, 2
  {
    if b == [] then Flow(a, true, [], {})
    else
      var f := VisitStmt(b[0], focus, a, U);
      if !f.reachable then f
      else
        var g := VisitBlock(b[1..], focus, f.scope, U);
        Flow(g.scope, g.reachable, f.exits + g.exits, f.lines + g.lines)
  }

  /** What the fixed-point loop leaves: last header, the bindings after the test, break states, raise states, lines. */
  datatype Fixed = Fixed(header: Scope, exhausted: Scope, breaks: seq<Scope>, outer: seq<Exit>, lines: set<nat>)

  /** One pass over the test and the body from a header. */
  datatype Pass = Pass(exhausted: Scope, back: seq<Scope>, breaks: seq<Scope>, outer: seq<Exit>, lines: set<nat>)

  function LoopPass(w: Stmt, focus: Focus, header: Scope, ghost U: set<string>): (p: Pass)
    requires w.While? && header.Keys <= U && StmtNames(w) <= U
    ensures p.exhausted.Keys <= U
    ensures forall i :: 0 <= i < |p.back| ==> p.back[i].Keys <= U
    ensures forall i :: 0 <= i < |p.breaks| ==> p.breaks[i].Keys <= U
    ensures forall i :: 0 <= i < |p.outer| ==> p.outer[i].scope.Keys <= U
    decreases w, 0
  {
    var r := VisitExpr(w.test, focus, header);
    var f := VisitBlock(w.body, focus, r.scope, U);
    Pass(r.scope, (if f.reachable then [f.scope] else []) + Scopes(f.exits, Continued), Scopes(f.exits, Broke), Outer(f.exits), r.lines + f.lines)
  }

  /** The header lattice: which names are bound and which marks they carry. */
  function Facts(a: Scope): set<(string, nat)>
  {
    (set x | x in a :: (x, 0)) + (set x | x in a && MTorch in a[x] :: (x, 1)) + (set x | x in a && MDevice in a[x] :: (x, 2)) + (set x | x in a && MAlias in a[x] :: (x, 3))
  }

  function Space(U: set<string>): set<(string, nat)>
  {
    (set x | x in U :: (x, 0)) + (set x | x in U :: (x, 1)) + (set x | x in U :: (x, 2)) + (set x | x in U :: (x, 3))
  }

  /** A header that changed has strictly more facts. */
  lemma HeaderGrows(header: Scope, next: Scope, U: set<string>)
    requires header.Keys <= next.Keys <= U && next != header && forall x :: Look(header, x) <= Look(next, x)
    ensures Space(U) - Facts(next) < Space(U) - Facts(header)
  {
    assert Facts(header) <= Facts(next) by {
      forall p | p in Facts(header)
        ensures p in Facts(next)
      {
        assert p.0 in next && Look(header, p.0) <= Look(next, p.0);
      }
    }
    var p := NewFact(header, next);
    assert p in Space(U);
  }

  lemma NewFact(header: Scope, next: Scope) returns (p: (string, nat))
    requires header.Keys <= next.Keys && next != header && forall x :: Look(header, x) <= Look(next, x)
    ensures p in Facts(next) && p !in Facts(header) && p.0 in next && p.1 <= 3
  {
    if exists x :: x in next && x !in header {
      var x :| x in next && x !in header;
      p := (x, 0);
    } else {
      assert next.Keys == header.Keys;
      var x :| x in next && next[x] != header[x];
      assert Look(header, x) <= Look(next, x);
      var k :| k in next[x] && k !in header[x];
      p := (x, if k == MTorch then 1 else if k == MDevice then 2 else 3);
    }
  }

  /** The next header joins the entry, the header and every way back to it. */
  function NextHeader(entry: Scope, header: Scope, p: Pass): Scope
  {
    MergeAll([entry, header] + p.back)
  }

  lemma JoinAbove(entry: Scope, header: Scope, back: seq<Scope>)
    ensures header.Keys <= MergeAll([entry, header] + back).Keys
    ensures forall x :: Look(header, x) <= Look(MergeAll([entry, header] + back), x)
  {
    var paths := [entry, header] + back;
    assert paths[1] == header;
    MergeAllAbove(paths, 1);
  }

  lemma JoinWithin(entry: Scope, header: Scope, back: seq<Scope>, U: set<string>)
    requires entry.Keys <= U && header.Keys <= U && forall i :: 0 <= i < |back| ==> back[i].Keys <= U
    ensures MergeAll([entry, header] + back).Keys <= U
  {
    var paths := [entry, header] + back;
    forall i | 0 <= i < |paths|
      ensures paths[i].Keys <= U
    {
      assert i >= 2 ==> paths[i] == back[i - 2];
    }
    MergeAllKeys(paths, U);
  }

  lemma NextHeaderAbove(entry: Scope, header: Scope, p: Pass, U: set<string>)
    requires entry.Keys <= U && header.Keys <= U && forall i :: 0 <= i < |p.back| ==> p.back[i].Keys <= U
    ensures header.Keys <= NextHeader(entry, header, p).Keys <= U
    ensures forall x :: Look(header, x) <= Look(NextHeader(entry, header, p), x)
  {
    JoinAbove(entry, header, p.back);
    JoinWithin(entry, header, p.back, U);
  }

  /** Iterate the header until a pass adds nothing; break and raise states and lines accumulate. */
  function VisitLoop(w: Stmt, focus: Focus, entry: Scope, header: Scope, breaks: seq<Scope>, ghost U: set<string>): (l: Fixed)
    requires w.While? && entry.Keys <= U && header.Keys <= U && StmtNames(w) <= U
    requires forall i :: 0 <= i < |breaks| ==> breaks[i].Keys <= U
    ensures FixedWithin(l, U)
    decreases w, 1, Space(U) - Facts(header)
  {
    var p := LoopPass(w, focus, header, U);
    var next := NextHeader(entry, header, p);
    NextHeaderAbove(entry, header, p, U);
    if next == header then Fixed(header, p.exhausted, breaks + p.breaks, p.outer, p.lines)
    else
      HeaderGrows(header, next, U);
      var l := VisitLoop(w, focus, entry, next, breaks + p.breaks, U);
      Fixed(l.header, l.exhausted, l.breaks, p.outer + l.outer, p.lines + l.lines)
  }
}
