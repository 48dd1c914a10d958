/**
 The lint as the visitor runs it: one object whose bindings, reachability, exits
 and reported lines are updated in place.
 */
module LintVisitor {
  import opened Sequences
  import opened LintSyntax
  import opened LintAnalysis
  import opened LintSoundness

  /** Break and continue states leave the list, the rest goes on to the enclosing block. */
  method Sort(exits: seq<Exit>) returns (breaks: seq<Scope>, continues: seq<Scope>, outer: seq<Exit>)
    requires JumpsOnly(exits)
    ensures breaks == Scopes(exits, Broke) && continues == Scopes(exits, Continued) && outer == Outer(exits)
  {
    breaks, continues, outer := [], [], [];
    var i := 0;
    assert exits[0..] == exits;
    while i < |exits|
      invariant 0 <= i <= |exits|
      invariant breaks + Scopes(exits[i..], Broke) == Scopes(exits, Broke)
      invariant continues + Scopes(exits[i..], Continued) == Scopes(exits, Continued)
      invariant outer + Outer(exits[i..]) == Outer(exits)
    {
      var x := exits[i];
      ScopesStep(exits, i, Broke, breaks);
      ScopesStep(exits, i, Continued, continues);
      OuterStep(exits, i, outer);
      if x.kind == Broke {
        breaks := breaks + [x.scope];
      } else if x.kind == Continued {
        continues := continues + [x.scope];
      } else {
        outer := outer + [x];
      }
      i := i + 1;
    }
    assert breaks + [] == breaks && continues + [] == continues && outer + [] == outer;
  }

  lemma ScopesStep(exits: seq<Exit>, i: nat, kind: Kind, found: seq<Scope>)
    requires i < |exits|
    ensures (if exits[i].kind == kind then found + [exits[i].scope] else found) + Scopes(exits[i + 1..], kind) == found + Scopes(exits[i..], kind)
  {
    var (x, rest) := (exits[i], Scopes(exits[i + 1..], kind));
    assert exits[i..][0] == x && exits[i..][1..] == exits[i + 1..];
    assert [] + rest == rest;
    ConcatAssoc(found, [x.scope], rest);
  }

  lemma OuterStep(exits: seq<Exit>, i: nat, found: seq<Exit>)
    requires i < |exits|
    ensures (if exits[i].kind == Raised then found + [exits[i]] else found) + Outer(exits[i + 1..]) == found + Outer(exits[i..])
  {
    var (x, rest) := (exits[i], Outer(exits[i + 1..]));
    assert exits[i..][0] == x && exits[i..][1..] == exits[i + 1..];
    assert [] + rest == rest;
    ConcatAssoc(found, [x], rest);
  }

  class DeviceVisitor {
    const devices: set<string>
    var lines: set<nat>
    var scope: Scope
    var reachable: bool
    var exits: seq<Exit>

    ghost function Focused(): Focus { Focus(devices, Caught) }

    constructor (devices: set<string>)
      ensures this.devices == devices && lines == {} && scope == START_SCOPE && reachable && exits == []
    {
      this.devices := devices;
      lines, scope, reachable, exits := {}, START_SCOPE, true, [];
    }

    /** Expressions update bindings and lines; the marks of the value are returned. */
    method Expression(e: Expr) returns (marks: set<Mark>)
      modifies this`lines, this`scope
      ensures var r := VisitExpr(e, Focused(), old(scope));
              marks == r.marks && scope == r.scope && lines == old(lines) + r.lines
      decreases e
    {
      match e
      case Const => marks := {};
      case Name(x, line) =>
        marks := Look(scope, x);
        if MDevice in marks {
          lines := lines + {line};
        }
      case Attr(base, attr, line) =>
        var m := Expression(base);
        if attr in devices && MTorch in m {
          marks := {MDevice};
          lines := lines + {line};
        } else {
          marks := {};
        }
      case Walrus(x, value) =>
        marks := Expression(value);
        scope := scope[x := marks];
      case Cond(test, thn, els) =>
        var _ := Expression(test);
        var entry := scope;
        var m := Expression(thn);
        var first := scope;
        scope := entry;
        var n := Expression(els);
        scope := Merge2(first, scope);
        marks := m + n;
      case BoolOp(left, right) =>
        var m := Expression(left);
        var entry := scope;
        var n := Expression(right);
        scope := Merge2(scope, entry);
        marks := m + n;
    }

    /** The state now is what the analysis says of a flow from the state before. */
    twostate predicate Follows(f: Flow)
      reads this
    {
      scope == f.scope && reachable == f.reachable && exits == old(exits) + f.exits && lines == old(lines) + f.lines
    }

    method Terminate(kind: Kind)
      modifies this`exits, this`reachable
      ensures exits == old(exits) + [Exit(kind, scope)] && !reachable
    {
      exits := exits + [Exit(kind, scope)];
      reachable := false;
    }

    method Statement(s: Stmt, ghost U: set<string>)
      requires reachable && scope.Keys <= U && StmtNames(s) <= U && JumpsOnly(exits)
      modifies this
      ensures Follows(VisitStmt(s, Focused(), old(scope), U)) && JumpsOnly(exits)
      decreases s, 2
    {
      match s
      case Break => Terminate(Broke);
      case Continue => Terminate(Continued);
      case Import(x, kind, line) =>
        if DirectImport(kind) {
          lines := lines + {line};
        }
        scope := scope[x := ImportMarks(Focus(devices, Caught), kind)];
      case Del(x) => scope := scope - {x};
      case Assign(x, value) =>
        var marks := Expression(value);
        scope := scope[x := marks];
      case AugAssign(x, value, _) =>
        var _ := Expression(value);
        scope := scope[x := {}];
      case Eval(value) =>
        var _ := Expression(value);
      case Raise(value) =>
        var _ := Expression(value);
        Terminate(Raised);
      case If(test, body, orelse) => Branches(s, U);
      case While(_, _, _) => Loop(s, U);
    }

    /** Both branches from the same bindings; the reachable outcomes join. */
    method Branches(s: Stmt, ghost U: set<string>)
      requires s.If? && reachable && scope.Keys <= U && StmtNames(s) <= U && JumpsOnly(exits)
      modifies this
      ensures Follows(VisitStmt(s, Focused(), old(scope), U)) && JumpsOnly(exits)
      decreases s, 1
    {
      var _ := Expression(s.test);
      ghost var r := VisitExpr(s.test, Focused(), old(scope));
      var entry := scope;
      Block(s.body, U);
      ghost var f := VisitBlock(s.body, Focused(), entry, U);
      var first, firstReachable := scope, reachable;
      scope, reachable := entry, true;
      Block(s.orelse, U);
      ghost var g := VisitBlock(s.orelse, Focused(), entry, U);
      ConcatAssoc(old(exits), f.exits, g.exits);
      Union(old(lines), r.lines, f.lines, g.lines);
      if firstReachable && reachable {
        scope := Merge2(first, scope);
      } else if firstReachable {
        scope := first;
      } else if !reachable {
        scope := entry;
      }
      reachable := firstReachable || reachable;
    }

    /** Statement after statement while the end of the block can be reached. */
    method Block(b: seq<Stmt>, ghost U: set<string>)
      requires reachable && scope.Keys <= U && BlockNames(b) <= U && JumpsOnly(exits)
      modifies this
      ensures Follows(VisitBlock(b, Focused(), old(scope), U)) && JumpsOnly(exits)
      decreases b, 2
    {
      ghost var f := VisitBlock(b, Focused(), scope, U);
      var i := 0;
      assert b[0..] == b;
      while i < |b| && reachable
        invariant 0 <= i <= |b| && JumpsOnly(exits) && BlockNames(b[i..]) <= U && scope.Keys <= U
        invariant if reachable then Rest(old(exits), old(lines), f, VisitBlock(b[i..], Focused(), scope, U))
                  else scope == f.scope && !f.reachable && exits == old(exits) + f.exits && lines == old(lines) + f.lines
      {
        assert b[i..][0] == b[i] && b[i..][1..] == b[i + 1..];
        ghost var (e0, l0) := (exits, lines);
        ghost var g := VisitStmt(b[i], Focused(), scope, U);
        Statement(b[i], U);
        if reachable {
          ghost var h := VisitBlock(b[i + 1..], Focused(), scope, U);
          ConcatAssoc(e0, g.exits, h.exits);
          assert l0 + (g.lines + h.lines) == l0 + g.lines + h.lines;
        }
        i := i + 1;
      }
    }

    /** What remains to be done, added to what was done, is the whole. */
    ghost predicate Rest(e0: seq<Exit>, l0: set<nat>, f: Flow, g: Flow)
      reads this
    {
      f.scope == g.scope && f.reachable == g.reachable && exits + g.exits == e0 + f.exits && lines + g.lines == l0 + f.lines
    }

    /** Iterate the header until a pass adds nothing, then the else block, then join the ways out. */
    method Loop(w: Stmt, ghost U: set<string>)
      requires w.While? && reachable && scope.Keys <= U && StmtNames(w) <= U && JumpsOnly(exits)
      modifies this
      ensures Follows(VisitStmt(w, Focused(), old(scope), U)) && JumpsOnly(exits)
      decreases w, 1
    {
      var entry := scope;
      ghost var l := VisitLoop(w, Focused(), entry, entry, [], U);
      var breaks := FixedPoint(w, entry, U);
      ghost var (e1, l1) := (exits, lines);
      reachable := true;
      Block(w.orelse, U);
      ghost var g := VisitBlock(w.orelse, Focused(), l.exhausted, U);
      var paths := (if reachable then [scope] else []) + breaks;
      assert paths == LeavingPaths(l, g);
      ConcatAssoc(old(exits), l.outer, g.exits);
      assert old(lines) + l.lines + g.lines == old(lines) + (l.lines + g.lines);
      if paths == [] {
        scope, reachable := entry, false;
      } else {
        scope, reachable := MergeAll(paths), true;
      }
    }

    /** One pass over the test and the body from the current header. */
    method Pass(w: Stmt, header: Scope, ghost U: set<string>) returns (exhausted: Scope, back: seq<Scope>, breaks: seq<Scope>, outer: seq<Exit>)
      requires w.While? && header.Keys <= U && StmtNames(w) <= U
      modifies this
      ensures var p := LoopPass(w, Focused(), header, U);
              exhausted == p.exhausted && back == p.back && breaks == p.breaks && outer == p.outer && lines == old(lines) + p.lines
      ensures JumpsOnly(outer)
      decreases w, 0, 0
    {
      scope, reachable, exits := header, true, [];
      ghost var l0 := lines;
      var _ := Expression(w.test);
      ghost var r := VisitExpr(w.test, Focused(), header);
      exhausted := scope;
      Block(w.body, U);
      ghost var f := VisitBlock(w.body, Focused(), exhausted, U);
      assert [] + f.exits == f.exits;
      assert l0 + r.lines + f.lines == l0 + (r.lines + f.lines);
      var continues;
      breaks, continues, outer := Sort(exits);
      back := (if reachable then [scope] else []) + continues;
    }

    /** A pass, and whether its header was the last. */
    method Advance(w: Stmt, entry: Scope, header: Scope, breaks: seq<Scope>, outer: seq<Exit>, ghost U: set<string>, ghost e0: seq<Exit>, ghost l0: set<nat>, ghost whole: Fixed)
        returns (exhausted: Scope, next: Scope, breaks1: seq<Scope>, outer1: seq<Exit>)
      requires w.While? && entry.Keys <= U && StmtNames(w) <= U && JumpsOnly(outer)
      requires Going(w, Focused(), entry, header, breaks, U, e0, l0, outer, lines, whole)
      modifies this
      ensures JumpsOnly(outer1)
      ensures next == header ==> Finished(e0, l0, outer1, lines, whole, exhausted, breaks1)
      ensures next != header ==>
                && Going(w, Focused(), entry, next, breaks1, U, e0, l0, outer1, lines, whole)
                && Space(U) - Facts(next) < Space(U) - Facts(header)
      decreases w, 0, 1
    {
      ghost var p := LoopPass(w, Focused(), header, U);
      LeftStep(w, Focused(), entry, header, breaks, U, e0, l0, outer, lines, whole, p, NextHeader(entry, header, p));
      var back, more, found;
      exhausted, back, more, found := Pass(w, header, U);
      breaks1 := breaks + more;
      outer1 := outer + found;
      next := MergeAll([entry, header] + back);
    }

    /** Leaves the bindings after the last test in scope and returns the break states. */
    method FixedPoint(w: Stmt, entry: Scope, ghost U: set<string>) returns (breaks: seq<Scope>)
      requires w.While? && entry.Keys <= U && StmtNames(w) <= U && JumpsOnly(exits)
      modifies this
      ensures var l := VisitLoop(w, Focused(), entry, entry, [], U);
              breaks == l.breaks && scope == l.exhausted && exits == old(exits) + l.outer && lines == old(lines) + l.lines
      ensures JumpsOnly(exits)
      decreases w, 0, 2
    {
      ghost var l := VisitLoop(w, Focused(), entry, entry, [], U);
      var header, outer := entry, exits;
      breaks := [];
      while true
        invariant JumpsOnly(outer) && Going(w, Focused(), entry, header, breaks, U, old(exits), old(lines), outer, lines, l)
        decreases Space(U) - Facts(header)
      {
        var exhausted, next;
        exhausted, next, breaks, outer := Advance(w, entry, header, breaks, outer, U, old(exits), old(lines), l);
        if next == header {
          exits, scope := outer, exhausted;
          return;
        }
        header := next;
      }
    }
  }

  /** The loop stands at a header, and the passes still to come complete the whole. */
  ghost predicate Going(w: Stmt, focus: Focus, entry: Scope, header: Scope, breaks: seq<Scope>, U: set<string>,
                        e0: seq<Exit>, l0: set<nat>, outer: seq<Exit>, lines: set<nat>, whole: Fixed)
    requires w.While? && entry.Keys <= U && StmtNames(w) <= U
  {
    && header.Keys <= U && (forall i :: 0 <= i < |breaks| ==> breaks[i].Keys <= U)
    && Left(e0, l0, outer, lines, whole, VisitLoop(w, focus, entry, header, breaks, U))
  }

  /** What was found is the whole. */
  ghost predicate Finished(e0: seq<Exit>, l0: set<nat>, outer: seq<Exit>, lines: set<nat>, whole: Fixed, exhausted: Scope, breaks: seq<Scope>)
  {
    whole.exhausted == exhausted && whole.breaks == breaks && outer == e0 + whole.outer && lines == l0 + whole.lines
  }

  /** What the remaining passes add to what was found so far is the whole. */
  ghost predicate Left(e0: seq<Exit>, l0: set<nat>, outer: seq<Exit>, lines: set<nat>, whole: Fixed, rest: Fixed)
  {
    && whole.exhausted == rest.exhausted && whole.breaks == rest.breaks
    && outer + rest.outer == e0 + whole.outer && lines + rest.lines == l0 + whole.lines
  }

  /** One pass of the fixed point: either it was the last one, or the next header continues. */
  lemma LeftStep(w: Stmt, focus: Focus, entry: Scope, header: Scope, breaks: seq<Scope>, U: set<string>,
                 e0: seq<Exit>, l0: set<nat>, outer: seq<Exit>, lines: set<nat>, whole: Fixed, p: Pass, next: Scope)
    requires w.While? && entry.Keys <= U && StmtNames(w) <= U
    requires Going(w, focus, entry, header, breaks, U, e0, l0, outer, lines, whole)
    requires p == LoopPass(w, focus, header, U) && next == NextHeader(entry, header, p)
    ensures next == header ==> Finished(e0, l0, outer + p.outer, lines + p.lines, whole, p.exhausted, breaks + p.breaks)
    ensures next != header ==>
              && Space(U) - Facts(next) < Space(U) - Facts(header)
              && Going(w, focus, entry, next, breaks + p.breaks, U, e0, l0, outer + p.outer, lines + p.lines, whole)
  {
    NextHeaderAbove(entry, header, p, U);
    if next != header {
      HeaderGrows(header, next, U);
      LeftMore(e0, l0, outer, lines, whole, p, VisitLoop(w, focus, entry, next, breaks + p.breaks, U));
    }
  }

  lemma LeftMore(e0: seq<Exit>, l0: set<nat>, outer: seq<Exit>, lines: set<nat>, whole: Fixed, p: Pass, m: Fixed)
    requires Left(e0, l0, outer, lines, whole, Fixed(m.header, m.exhausted, m.breaks, p.outer + m.outer, p.lines + m.lines))
    ensures Left(e0, l0, outer + p.outer, lines + p.lines, whole, m)
  {
    ConcatAssoc(outer, p.outer, m.outer);
    assert lines + (p.lines + m.lines) == lines + p.lines + m.lines;
  }

  lemma Union(a: set<nat>, b: set<nat>, c: set<nat>, d: set<nat>)
    ensures a + b + c + d == a + (b + c + d)
  {
  }

  /** Two passes, as the lint runs them; the second one reports. */
  method DirectDeviceLines(program: seq<Stmt>, devices: set<string>) returns (lines: set<nat>)
    ensures lines == Reported(program, devices)
  {
    var summary := new DeviceVisitor(devices);
    summary.Block(program, {"torch"} + BlockNames(program));
    var visitor := new DeviceVisitor(devices);
    visitor.Block(program, {"torch"} + BlockNames(program));
    lines := visitor.lines;
  }
}
