/**
 For each form of reference, whatever a run performs is found by the analysis of
 that form, for every program of the fragment and every run of it.
 */
module LintSoundness {
  import opened LintSyntax
  import opened LintAnalysis

  function MarkOf(focus: Focus, v: Value): set<Mark>
  {
    match v
    case Torch => {MTorch}
    case Device => {MDevice}
    case Alias => if focus.view == Caught then {} else {MAlias}
    case Other => {}
  }

  /** The scope accounts for the environment. */
  ghost predicate Covers(focus: Focus, a: Scope, env: Env)
  {
    forall x :: MarkOf(focus, Get(env, x)) <= Look(a, x)
  }

  ghost predicate Below(a: Scope, b: Scope)
  {
    forall x :: Look(a, x) <= Look(b, x)
  }

  lemma CoversBelow(focus: Focus, a: Scope, b: Scope, env: Env)
    requires Covers(focus, a, env) && Below(a, b)
    ensures Covers(focus, b, env)
  {
    forall x
      ensures MarkOf(focus, Get(env, x)) <= Look(b, x)
    {
      assert Look(a, x) <= Look(b, x);
    }
  }

  lemma CoversBind(focus: Focus, a: Scope, env: Env, x: string, marks: set<Mark>, v: Value)
    requires Covers(focus, a, env) && MarkOf(focus, v) <= marks
    ensures Covers(focus, a[x := marks], env[x := v])
  {
    var (a1, env1) := (a[x := marks], env[x := v]);
    forall y
      ensures MarkOf(focus, Get(env1, y)) <= Look(a1, y)
    {
      assert MarkOf(focus, Get(env, y)) <= Look(a, y);
    }
  }

  lemma CoversDrop(focus: Focus, a: Scope, env: Env, x: string)
    requires Covers(focus, a, env)
    ensures Covers(focus, a - {x}, env - {x})
  {
    var (a1, env1) := (a - {x}, env - {x});
    forall y
      ensures MarkOf(focus, Get(env1, y)) <= Look(a1, y)
    {
      assert MarkOf(focus, Get(env, y)) <= Look(a, y);
    }
  }

  lemma {:induction false} SoundExpr(e: Expr, focus: Focus, env: Env, choices: seq<bool>, a: Scope)
    requires Covers(focus, a, env)
    ensures var (r, v) := (Evaluate(e, focus, env, choices), VisitExpr(e, focus, a));
            r.lines <= v.lines && (r.Got? ==> MarkOf(focus, r.value) <= v.marks && Covers(focus, v.scope, r.env))
    decreases e
  {
    match e
    case Const =>
    case Name(x, line) => assert MarkOf(focus, Get(env, x)) <= Look(a, x);
    case Attr(base, attr, line) => SoundExpr(base, focus, env, choices, a);
    case Walrus(x, value) =>
      SoundExpr(value, focus, env, choices, a);
      var (r, v) := (Evaluate(value, focus, env, choices), VisitExpr(value, focus, a));
      if r.Got? {
        CoversBind(focus, v.scope, r.env, x, v.marks, r.value);
      }
    case Cond(test, thn, els) =>
      SoundExpr(test, focus, env, choices, a);
      var t := Evaluate(test, focus, env, choices);
      if t.Got? && t.rest != [] {
        var a1 := VisitExpr(test, focus, a).scope;
        SoundExpr(if t.rest[0] then thn else els, focus, t.env, t.rest[1..], a1);
      }
    case BoolOp(left, right) =>
      SoundExpr(left, focus, env, choices, a);
      var t := Evaluate(left, focus, env, choices);
      if t.Got? && t.rest != [] && t.rest[0] {
        SoundExpr(right, focus, t.env, t.rest[1..], VisitExpr(left, focus, a).scope);
      }
  }

  /** A state of the given kind among the exits covers the environment. */
  ghost predicate ExitCovers(focus: Focus, exits: seq<Exit>, kind: Kind, env: Env)
  {
    exists i :: 0 <= i < |exits| && exits[i].kind == kind && Covers(focus, exits[i].scope, env)
  }

  /** The analysis result accounts for the run's result. */
  ghost predicate Accounts(focus: Focus, f: Flow, r: Ran)
  {
    && r.lines <= f.lines
    && (r.Ended? ==> if r.kind == Normal then f.reachable && Covers(focus, f.scope, r.env) else ExitCovers(focus, f.exits, r.kind, r.env))
  }

  lemma ExitCoversLeft(focus: Focus, a: seq<Exit>, b: seq<Exit>, kind: Kind, env: Env)
    requires ExitCovers(focus, a, kind, env)
    ensures ExitCovers(focus, a + b, kind, env)
  {
    var i :| 0 <= i < |a| && a[i].kind == kind && Covers(focus, a[i].scope, env);
    assert (a + b)[i] == a[i];
  }

  lemma ExitCoversRight(focus: Focus, a: seq<Exit>, b: seq<Exit>, kind: Kind, env: Env)
    requires ExitCovers(focus, b, kind, env)
    ensures ExitCovers(focus, a + b, kind, env)
  {
    var i :| 0 <= i < |b| && b[i].kind == kind && Covers(focus, b[i].scope, env);
    assert (a + b)[|a| + i] == b[i];
  }

  lemma {:induction false} SoundStmt(s: Stmt, focus: Focus, env: Env, choices: seq<bool>, a: Scope, U: set<string>)
    requires a.Keys <= U && StmtNames(s) <= U && Covers(focus, a, env)
    ensures Accounts(focus, VisitStmt(s, focus, a, U), Exec(s, focus, env, choices))
    decreases |choices|, s, 1
  {
    match s
    case Break => assert VisitStmt(s, focus, a, U).exits[0] == Exit(Broke, a);
    case Continue => assert VisitStmt(s, focus, a, U).exits[0] == Exit(Continued, a);
    case Import(x, kind, line) => CoversBind(focus, a, env, x, ImportMarks(focus, kind), Imported(kind));
    case Del(x) => CoversDrop(focus, a, env, x);
    case Assign(x, value) =>
      SoundExpr(value, focus, env, choices, a);
      var (r, v) := (Evaluate(value, focus, env, choices), VisitExpr(value, focus, a));
      if r.Got? {
        CoversBind(focus, v.scope, r.env, x, v.marks, r.value);
      }
    case AugAssign(x, value, line) =>
      assert MarkOf(focus, Get(env, x)) <= Look(a, x);
      SoundExpr(value, focus, env, choices, a);
      var (r, v) := (Evaluate(value, focus, env, choices), VisitExpr(value, focus, a));
      if r.Got? {
        CoversBind(focus, v.scope, r.env, x, {}, Other);
      }
    case Eval(value) => SoundExpr(value, focus, env, choices, a);
    case Raise(value) =>
      SoundExpr(value, focus, env, choices, a);
      assert VisitStmt(s, focus, a, U).exits[0] == Exit(Raised, VisitExpr(value, focus, a).scope);
    case If(test, body, orelse) =>
      SoundExpr(test, focus, env, choices, a);
      var t := Evaluate(test, focus, env, choices);
      if t.Got? && t.rest != [] {
        SoundBlock(if t.rest[0] then body else orelse, focus, t.env, t.rest[1..], VisitExpr(test, focus, a).scope, U);
        SoundIf(s, focus, env, choices, a, U);
      }
    case While(_, _, _) =>
      SoundWhile(s, focus, env, choices, a, U);
  }

  lemma SoundIf(s: Stmt, focus: Focus, env: Env, choices: seq<bool>, a: Scope, U: set<string>)
    requires s.If? && a.Keys <= U && StmtNames(s) <= U && Covers(focus, a, env)
    requires var t := Evaluate(s.test, focus, env, choices);
             var v := VisitExpr(s.test, focus, a);
             && t.Got? && t.rest != [] && t.lines <= v.lines
             && var b := if t.rest[0] then s.body else s.orelse;
                Accounts(focus, VisitBlock(b, focus, v.scope, U), ExecBlock(b, focus, t.env, t.rest[1..]))
    ensures Accounts(focus, VisitStmt(s, focus, a, U), Exec(s, focus, env, choices))
  {
    var t := Evaluate(s.test, focus, env, choices);
    var v := VisitExpr(s.test, focus, a);
    var f, g := VisitBlock(s.body, focus, v.scope, U), VisitBlock(s.orelse, focus, v.scope, U);
    var r := ExecBlock(if t.rest[0] then s.body else s.orelse, focus, t.env, t.rest[1..]);
    if r.Ended? && r.kind != Normal {
      if t.rest[0] {
        ExitCoversLeft(focus, f.exits, g.exits, r.kind, r.env);
      } else {
        ExitCoversRight(focus, f.exits, g.exits, r.kind, r.env);
      }
    } else if r.Ended? {
      CoversBelow(focus, if t.rest[0] then f.scope else g.scope, JoinBranches(v.scope, f, g), r.env);
    }
  }

  lemma {:induction false} SoundBlock(b: seq<Stmt>, focus: Focus, env: Env, choices: seq<bool>, a: Scope, U: set<string>)
    requires a.Keys <= U && BlockNames(b) <= U && Covers(focus, a, env)
    ensures Accounts(focus, VisitBlock(b, focus, a, U), ExecBlock(b, focus, env, choices))
    decreases |choices|, b, 1
  {
    if b != [] {
      SoundStmt(b[0], focus, env, choices, a, U);
      var f, r := VisitStmt(b[0], focus, a, U), Exec(b[0], focus, env, choices);
      if f.reachable {
        var g := VisitBlock(b[1..], focus, f.scope, U);
        if r.Ended? && r.kind == Normal {
          SoundBlock(b[1..], focus, r.env, r.rest, f.scope, U);
          var r2 := ExecBlock(b[1..], focus, r.env, r.rest);
          if r2.Ended? && r2.kind != Normal {
            ExitCoversRight(focus, f.exits, g.exits, r2.kind, r2.env);
          }
        } else if r.Ended? {
          ExitCoversLeft(focus, f.exits, g.exits, r.kind, r.env);
        }
      }
    }
  }

  // ------------------------------------------------------------------ loops

  /** The final header is above the entry and closed under one more pass, whose findings are all kept. */
  ghost predicate Closed(l: Fixed, w: Stmt, focus: Focus, U: set<string>)
    requires w.While? && StmtNames(w) <= U
  {
    && l.header.Keys <= U
    && var p := LoopPass(w, focus, l.header, U);
       && l.exhausted == p.exhausted
       && p.lines <= l.lines
       && (forall i :: 0 <= i < |p.back| ==> Below(p.back[i], l.header))
       && (forall i :: 0 <= i < |p.breaks| ==> p.breaks[i] in l.breaks)
       && (forall i :: 0 <= i < |p.outer| ==> p.outer[i] in l.outer)
  }

  lemma ClosedMore(l: Fixed, m: Fixed, w: Stmt, focus: Focus, U: set<string>)
    requires w.While? && StmtNames(w) <= U && Closed(l, w, focus, U)
    requires m.header == l.header && m.exhausted == l.exhausted && m.breaks == l.breaks && l.lines <= m.lines
    requires forall e :: e in l.outer ==> e in m.outer
    ensures Closed(m, w, focus, U)
  {
  }

  lemma LoopEnds(w: Stmt, focus: Focus, entry: Scope, header: Scope, breaks: seq<Scope>, U: set<string>)
    requires w.While? && entry.Keys <= U && header.Keys <= U && StmtNames(w) <= U
    requires NextHeader(entry, header, LoopPass(w, focus, header, U)) == header
    ensures var p := LoopPass(w, focus, header, U);
            Closed(Fixed(header, p.exhausted, breaks + p.breaks, p.outer, p.lines), w, focus, U)
  {
    PassBelow(entry, header, LoopPass(w, focus, header, U));
  }

  lemma PassBelow(entry: Scope, header: Scope, p: Pass)
    requires NextHeader(entry, header, p) == header
    ensures forall i :: 0 <= i < |p.back| ==> Below(p.back[i], header)
  {
    var paths := [entry, header] + p.back;
    forall i | 0 <= i < |p.back|
      ensures Below(p.back[i], header)
    {
      MergeAllAbove(paths, i + 2);
      assert paths[i + 2] == p.back[i];
    }
  }

  lemma {:induction false} LoopCloses(w: Stmt, focus: Focus, entry: Scope, header: Scope, breaks: seq<Scope>, U: set<string>)
    requires w.While? && entry.Keys <= U && header.Keys <= U && StmtNames(w) <= U && Below(entry, header)
    requires forall i :: 0 <= i < |breaks| ==> breaks[i].Keys <= U
    ensures var l := VisitLoop(w, focus, entry, header, breaks, U);
            Closed(l, w, focus, U) && Below(entry, l.header)
    decreases Space(U) - Facts(header)
  {
    var p := LoopPass(w, focus, header, U);
    var next := NextHeader(entry, header, p);
    NextHeaderAbove(entry, header, p, U);
    if next == header {
      LoopEnds(w, focus, entry, header, breaks, U);
    } else {
      HeaderGrows(header, next, U);
      assert Below(entry, next);
      LoopCloses(w, focus, entry, next, breaks + p.breaks, U);
      ClosedMore(VisitLoop(w, focus, entry, next, breaks + p.breaks, U), VisitLoop(w, focus, entry, header, breaks, U), w, focus, U);
    }
  }

  lemma SoundWhile(s: Stmt, focus: Focus, env: Env, choices: seq<bool>, a: Scope, U: set<string>)
    requires s.While? && a.Keys <= U && StmtNames(s) <= U && Covers(focus, a, env)
    ensures Accounts(focus, VisitStmt(s, focus, a, U), Exec(s, focus, env, choices))
    decreases |choices|, s, 0, 1
  {
    LoopCloses(s, focus, a, a, [], U);
    var l := VisitLoop(s, focus, a, a, [], U);
    CoversBelow(focus, a, l.header, env);
    SoundLoop(s, focus, env, choices, a, l, U);
  }

  /** What the loop does once its test has been evaluated. */
  function AfterTest(w: Stmt, focus: Focus, t: Evaluated): Ran
    requires w.While? && t.Got? && t.rest != []
  {
    if !t.rest[0] then ExecBlock(w.orelse, focus, t.env, t.rest[1..])
    else
      var r := ExecBlock(w.body, focus, t.env, t.rest[1..]);
      if r.Cut? || r.kind == Raised then r
      else if r.kind == Broke then Ended(Normal, r.env, r.rest, r.lines)
      else Then(r.lines, ExecLoop(w, focus, r.env, r.rest))
  }

  lemma ExecLoopByTest(w: Stmt, focus: Focus, env: Env, choices: seq<bool>)
    requires w.While?
    ensures var t := Evaluate(w.test, focus, env, choices);
            ExecLoop(w, focus, env, choices) == if t.Stopped? || t.rest == [] then Cut(t.lines) else Then(t.lines, AfterTest(w, focus, t))
  {
    var t := Evaluate(w.test, focus, env, choices);
    if t.Got? && t.rest != [] && t.rest[0] {
      var r := ExecBlock(w.body, focus, t.env, t.rest[1..]);
      if r.Ended? && (r.kind == Normal || r.kind == Continued) {
        var m := ExecLoop(w, focus, r.env, r.rest).lines;
        assert (t.lines + r.lines) + m == t.lines + (r.lines + m);
      }
    }
  }

  lemma AccountsThen(focus: Focus, f: Flow, l: set<nat>, r: Ran)
    requires Accounts(focus, f, r) && l <= f.lines
    ensures Accounts(focus, f, Then(l, r))
  {
  }

  /** From any environment the closed header covers. */
  lemma {:induction false} SoundLoop(w: Stmt, focus: Focus, env: Env, choices: seq<bool>, a: Scope, l: Fixed, U: set<string>)
    requires w.While? && a.Keys <= U && StmtNames(w) <= U && FixedWithin(l, U) && Closed(l, w, focus, U) && Covers(focus, l.header, env)
    ensures Accounts(focus, LoopFlow(a, l, VisitBlock(w.orelse, focus, l.exhausted, U), U), ExecLoop(w, focus, env, choices))
    decreases |choices|, w, 0, 0
  {
    var f := LoopFlow(a, l, VisitBlock(w.orelse, focus, l.exhausted, U), U);
    SoundExpr(w.test, focus, env, choices, l.header);
    PassLines(w, focus, l, U);
    ExecLoopByTest(w, focus, env, choices);
    var t := Evaluate(w.test, focus, env, choices);
    if t.Got? && t.rest != [] {
      if !t.rest[0] {
        SoundBlock(w.orelse, focus, t.env, t.rest[1..], l.exhausted, U);
        LeaveByElse(w, focus, t, a, l, U);
      } else {
        SoundBlock(w.body, focus, t.env, t.rest[1..], l.exhausted, U);
        var r := ExecBlock(w.body, focus, t.env, t.rest[1..]);
        if r.Ended? && (r.kind == Normal || r.kind == Continued) {
          BackCovered(w, focus, t, l, U);
          SoundLoop(w, focus, r.env, r.rest, a, l, U);
          AccountsThen(focus, f, r.lines, ExecLoop(w, focus, r.env, r.rest));
        } else {
          SoundJump(w, focus, t, a, l, U);
        }
      }
      AccountsThen(focus, f, t.lines, AfterTest(w, focus, t));
    }
  }

  lemma SoundJump(w: Stmt, focus: Focus, t: Evaluated, a: Scope, l: Fixed, U: set<string>)
    requires w.While? && a.Keys <= U && StmtNames(w) <= U && FixedWithin(l, U) && Closed(l, w, focus, U)
    requires t.Got? && t.rest != [] && t.rest[0]
    requires var r := ExecBlock(w.body, focus, t.env, t.rest[1..]);
             Accounts(focus, BodyFlow(w, focus, l, U), r) && (r.Ended? ==> r.kind == Broke || r.kind == Raised)
    ensures Accounts(focus, LoopFlow(a, l, VisitBlock(w.orelse, focus, l.exhausted, U), U), AfterTest(w, focus, t))
  {
    PassLines(w, focus, l, U);
    var r := ExecBlock(w.body, focus, t.env, t.rest[1..]);
    if r.Ended? {
      if r.kind == Broke {
        var m := BreakState(w, focus, r.env, l, U);
        LeaveByBreak(focus, a, l, VisitBlock(w.orelse, focus, l.exhausted, U), U, m, r.env);
      } else {
        LeaveByRaise(w, focus, r.env, a, l, U);
      }
    }
  }

  /** The pass over the body from the closed header. */
  function BodyFlow(w: Stmt, focus: Focus, l: Fixed, U: set<string>): Flow
    requires w.While? && StmtNames(w) <= U && l.exhausted.Keys <= U
  {
    VisitBlock(w.body, focus, l.exhausted, U)
  }

  lemma LeaveByElse(w: Stmt, focus: Focus, t: Evaluated, a: Scope, l: Fixed, U: set<string>)
    requires w.While? && a.Keys <= U && StmtNames(w) <= U && FixedWithin(l, U) && t.Got? && t.rest != []
    requires Accounts(focus, VisitBlock(w.orelse, focus, l.exhausted, U), ExecBlock(w.orelse, focus, t.env, t.rest[1..]))
    ensures var f := LoopFlow(a, l, VisitBlock(w.orelse, focus, l.exhausted, U), U);
            Accounts(focus, f, ExecBlock(w.orelse, focus, t.env, t.rest[1..]))
  {
    var g := VisitBlock(w.orelse, focus, l.exhausted, U);
    var r := ExecBlock(w.orelse, focus, t.env, t.rest[1..]);
    if r.Ended? && r.kind == Normal {
      MergeAllAbove(LeavingPaths(l, g), 0);
      CoversBelow(focus, g.scope, MergeAll(LeavingPaths(l, g)), r.env);
    } else if r.Ended? {
      ExitCoversRight(focus, l.outer, g.exits, r.kind, r.env);
    }
  }

  lemma BackCovered(w: Stmt, focus: Focus, t: Evaluated, l: Fixed, U: set<string>)
    requires w.While? && StmtNames(w) <= U && FixedWithin(l, U) && Closed(l, w, focus, U) && t.Got? && t.rest != []
    requires var r := ExecBlock(w.body, focus, t.env, t.rest[1..]);
             Accounts(focus, BodyFlow(w, focus, l, U), r) && r.Ended? && (r.kind == Normal || r.kind == Continued)
    ensures Covers(focus, l.header, ExecBlock(w.body, focus, t.env, t.rest[1..]).env)
  {
    var f := BodyFlow(w, focus, l, U);
    var r := ExecBlock(w.body, focus, t.env, t.rest[1..]);
    var back := LoopPass(w, focus, l.header, U).back;
    var i: nat;
    if r.kind == Normal {
      i := 0;
      assert back[0] == f.scope;
    } else {
      var j :| 0 <= j < |f.exits| && f.exits[j].kind == Continued && Covers(focus, f.exits[j].scope, r.env);
      assert f.exits[j].scope in back;
      i :| 0 <= i < |back| && back[i] == f.exits[j].scope;
    }
    CoversBelow(focus, back[i], l.header, r.env);
  }

  /** A break state of the body is among the loop's break states. */
  lemma BreakState(w: Stmt, focus: Focus, env: Env, l: Fixed, U: set<string>) returns (m: nat)
    requires w.While? && StmtNames(w) <= U && FixedWithin(l, U) && Closed(l, w, focus, U)
    requires ExitCovers(focus, BodyFlow(w, focus, l, U).exits, Broke, env)
    ensures m < |l.breaks| && Covers(focus, l.breaks[m], env)
  {
    var f := BodyFlow(w, focus, l, U);
    var j :| 0 <= j < |f.exits| && f.exits[j].kind == Broke && Covers(focus, f.exits[j].scope, env);
    var breaks := LoopPass(w, focus, l.header, U).breaks;
    assert f.exits[j].scope in breaks;
    assert f.exits[j].scope in l.breaks;
    m :| 0 <= m < |l.breaks| && l.breaks[m] == f.exits[j].scope;
  }

  /** A break state is a way out of the loop. */
  lemma LeaveByBreak(focus: Focus, a: Scope, l: Fixed, g: Flow, U: set<string>, m: nat, env: Env)
    requires a.Keys <= U && Within(g, U) && FixedWithin(l, U)
    requires m < |l.breaks| && Covers(focus, l.breaks[m], env)
    ensures LoopFlow(a, l, g, U).reachable && Covers(focus, LoopFlow(a, l, g, U).scope, env)
  {
    var paths := LeavingPaths(l, g);
    var i := |paths| - |l.breaks| + m;
    MergeAllAbove(paths, i);
    CoversBelow(focus, paths[i], MergeAll(paths), env);
  }

  /** A raise state of the body leaves the loop too. */
  lemma LeaveByRaise(w: Stmt, focus: Focus, env: Env, a: Scope, l: Fixed, U: set<string>)
    requires w.While? && a.Keys <= U && StmtNames(w) <= U && FixedWithin(l, U) && Closed(l, w, focus, U)
    requires ExitCovers(focus, BodyFlow(w, focus, l, U).exits, Raised, env)
    ensures ExitCovers(focus, LoopFlow(a, l, VisitBlock(w.orelse, focus, l.exhausted, U), U).exits, Raised, env)
  {
    var f := BodyFlow(w, focus, l, U);
    var j :| 0 <= j < |f.exits| && f.exits[j].kind == Raised && Covers(focus, f.exits[j].scope, env);
    var outer := LoopPass(w, focus, l.header, U).outer;
    assert f.exits[j] in outer;
    assert f.exits[j] in l.outer;
    var i :| 0 <= i < |l.outer| && l.outer[i] == f.exits[j];
    ExitCoversLeft(focus, l.outer, VisitBlock(w.orelse, focus, l.exhausted, U).exits, Raised, env);
  }

  /** What a pass from the closed header reports is in the result. */
  lemma PassLines(w: Stmt, focus: Focus, l: Fixed, U: set<string>)
    requires w.While? && StmtNames(w) <= U && FixedWithin(l, U) && Closed(l, w, focus, U)
    ensures VisitExpr(w.test, focus, l.header).scope == l.exhausted
    ensures VisitExpr(w.test, focus, l.header).lines <= l.lines && BodyFlow(w, focus, l, U).lines <= l.lines
  {
  }

  // ---------------------------------------------------------------- theorem

  const START: Env := map["torch" := Torch]
  const START_SCOPE: Scope := map["torch" := {MTorch}]

  /** Nothing is bound to begin with, but perhaps torch. */
  ghost predicate Fresh(env: Env)
  {
    forall x :: Get(env, x) == Other || (x == "torch" && Get(env, x) == Torch)
  }

  function Analysed(program: seq<Stmt>, focus: Focus): set<nat>
  {
    VisitBlock(program, focus, START_SCOPE, {"torch"} + BlockNames(program)).lines
  }

  /** In every view: a reference performed in any run is on a line the analysis finds. */
  lemma RunsFound(program: seq<Stmt>, focus: Focus, env: Env, choices: seq<bool>)
    requires Fresh(env)
    ensures ExecBlock(program, focus, env, choices).lines <= Analysed(program, focus)
  {
    SoundBlock(program, focus, env, choices, START_SCOPE, {"torch"} + BlockNames(program));
  }

  // What the visitor reports.

  function Reported(program: seq<Stmt>, devices: set<string>): set<nat>
  {
    Analysed(program, Focus(devices, Caught))
  }
}
