/**
 The forms of reference one by one, in programs written out: what a run performs
 and what the lint reports, for every name and set of devices.
 */
module LintForms {
  import opened LintSyntax
  import opened LintAnalysis
  import opened LintSoundness
  import opened LintGaps

  // -------------------------------------------------------- short programs

  lemma FoundFirst(s: Stmt, rest: seq<Stmt>, focus: Focus, a: Scope, U: set<string>)
    requires a.Keys <= U && StmtNames(s) <= U && BlockNames(rest) <= U
    ensures BlockNames([s] + rest) == StmtNames(s) + BlockNames(rest)
    ensures var (f, g) := (VisitStmt(s, focus, a, U), VisitBlock([s] + rest, focus, a, U));
            g.lines == if f.reachable then f.lines + VisitBlock(rest, focus, f.scope, U).lines else f.lines
  {
    var b := [s] + rest;
    assert b[0] == s && b[1..] == rest;
  }

  lemma FoundOne(s: Stmt, focus: Focus, a: Scope, U: set<string>)
    requires a.Keys <= U && StmtNames(s) <= U
    ensures BlockNames([s]) == StmtNames(s) && VisitBlock([s], focus, a, U).lines == VisitStmt(s, focus, a, U).lines
  {
    assert [s] + [] == [s];
    FoundFirst(s, [], focus, a, U);
  }

  lemma FoundPair(s: Stmt, t: Stmt, focus: Focus, a: Scope, U: set<string>)
    requires a.Keys <= U && StmtNames(s) <= U && StmtNames(t) <= U
    ensures BlockNames([s, t]) == StmtNames(s) + StmtNames(t)
    ensures var f := VisitStmt(s, focus, a, U);
            f.reachable ==> VisitBlock([s, t], focus, a, U).lines == f.lines + VisitStmt(t, focus, f.scope, U).lines
  {
    assert [s] + [t] == [s, t];
    FoundOne(t, focus, VisitStmt(s, focus, a, U).scope, U);
    FoundFirst(s, [t], focus, a, U);
  }

  /** What the lint finds in two statements that fall through. */
  lemma FoundTwo(s: Stmt, t: Stmt, focus: Focus)
    ensures var U := {"torch"} + (StmtNames(s) + StmtNames(t));
            var f := VisitStmt(s, focus, START_SCOPE, U);
            f.reachable ==> Analysed([s, t], focus) == f.lines + VisitStmt(t, focus, f.scope, U).lines
  {
    FoundPair(s, t, focus, START_SCOPE, {"torch"} + (StmtNames(s) + StmtNames(t)));
  }

  lemma FoundThree(s: Stmt, t: Stmt, u: Stmt, focus: Focus)
    ensures var U := {"torch"} + (StmtNames(s) + (StmtNames(t) + StmtNames(u)));
            var f := VisitStmt(s, focus, START_SCOPE, U);
            var g := VisitStmt(t, focus, f.scope, U);
            f.reachable && g.reachable ==> Analysed([s, t, u], focus) == f.lines + (g.lines + VisitStmt(u, focus, g.scope, U).lines)
  {
    var U := {"torch"} + (StmtNames(s) + (StmtNames(t) + StmtNames(u)));
    assert [s] + [t, u] == [s, t, u];
    FoundPair(t, u, focus, VisitStmt(s, focus, START_SCOPE, U).scope, U);
    FoundFirst(s, [t, u], focus, START_SCOPE, U);
  }

  lemma RunFirst(s: Stmt, rest: seq<Stmt>, focus: Focus, env: Env, choices: seq<bool>)
    ensures var r := Exec(s, focus, env, choices);
            ExecBlock([s] + rest, focus, env, choices).lines ==
              if r.Ended? && r.kind == Normal then r.lines + ExecBlock(rest, focus, r.env, r.rest).lines else r.lines
  {
    var b := [s] + rest;
    assert b[0] == s && b[1..] == rest;
  }

  lemma RunTwo(s: Stmt, t: Stmt, focus: Focus, env: Env, choices: seq<bool>)
    ensures var r := Exec(s, focus, env, choices);
            ExecBlock([s, t], focus, env, choices).lines ==
              if r.Ended? && r.kind == Normal then r.lines + Exec(t, focus, r.env, r.rest).lines else r.lines
  {
    assert [t] + [] == [t] && [s] + [t] == [s, t];
    RunFirst(s, [t], focus, env, choices);
    var r := Exec(s, focus, env, choices);
    if r.Ended? && r.kind == Normal {
      RunFirst(t, [], focus, r.env, r.rest);
    }
  }

  // ------------------------------------------------------------------ imports

  /** Running an import performs a reference exactly when it names a device. */
  lemma ImportPerforms(x: string, k: ImportKind, n: nat, focus: Focus, env: Env, choices: seq<bool>)
    requires focus.view != Dropped
    ensures Exec(Import(x, k, n), focus, env, choices).lines == if k == OfTorch || k == OfOther then {} else {n}
  {
  }

  lemma ImportReported(x: string, k: ImportKind, n: nat, devices: set<string>)
    ensures Reported([Import(x, k, n)], devices) == if k == OfTorch || k == OfOther then {} else {n}
  {
    var s := Import(x, k, n);
    assert [s] + [] == [s];
    FoundFirst(s, [], Focus(devices, Caught), START_SCOPE, {"torch"} + {x});
    assert {"torch"} + BlockNames([s]) == {"torch"} + {x};
  }

  lemma AttributeSeen(x: string, m: nat, a: string, l: nat, focus: Focus, scope: Scope)
    requires focus.view == Caught
    ensures VisitExpr(Attr(Name(x, m), a, l), focus, scope).lines
         == (if MDevice in Look(scope, x) then {m} else {}) + (if MTorch in Look(scope, x) && a in focus.devices then {l} else {})
  {
    assert VisitExpr(Name(x, m), focus, scope) == Seen(Look(scope, x), scope, if MDevice in Look(scope, x) then {m} else {});
  }

  lemma AttributeDone(x: string, m: nat, a: string, l: nat, focus: Focus, env: Env)
    requires focus.view == Every
    ensures Evaluate(Attr(Name(x, m), a, l), focus, env, []).lines
         == (if Get(env, x) == Device || Get(env, x) == Alias then {m} else {}) + (if Get(env, x) == Torch && a in focus.devices then {l} else {})
  {
    assert Evaluate(Name(x, m), focus, env, []).Got?;
  }

  /** Of the names bound by imports, loading one is reported for "from torch import <device>" only; "import torch.<device> as" is a reference too. */
  lemma ImportThenLoad(x: string, k: ImportKind, n: nat, m: nat, devices: set<string>)
    requires m != n
    ensures m in Reported([Import(x, k, n), Eval(Name(x, m))], devices) <==> k == OfDevice
    ensures m in Performed([Import(x, k, n), Eval(Name(x, m))], devices, START, []) <==> k == OfDevice || k == AsDevice
  {
    FoundTwo(Import(x, k, n), Eval(Name(x, m)), Focus(devices, Caught));
    RunTwo(Import(x, k, n), Eval(Name(x, m)), Focus(devices, Every), START, []);
  }

  /** A device attribute is reported of every name bound to torch, and of no other. */
  lemma ImportThenAttribute(x: string, k: ImportKind, n: nat, m: nat, a: string, l: nat, devices: set<string>)
    requires l != n && l != m
    ensures l in Reported([Import(x, k, n), Eval(Attr(Name(x, m), a, l))], devices) <==> (k == OfTorch || k == OfTorchDevice) && a in devices
    ensures l in Performed([Import(x, k, n), Eval(Attr(Name(x, m), a, l))], devices, START, []) <==> (k == OfTorch || k == OfTorchDevice) && a in devices
  {
    FoundTwo(Import(x, k, n), Eval(Attr(Name(x, m), a, l)), Focus(devices, Caught));
    AttributeSeen(x, m, a, l, Focus(devices, Caught), START_SCOPE[x := ImportMarks(Focus(devices, Caught), k)]);
    AttributeRun(x, k, n, m, a, l, devices);
  }

  lemma AttributeRun(x: string, k: ImportKind, n: nat, m: nat, a: string, l: nat, devices: set<string>)
    requires l != n && l != m
    ensures l in Performed([Import(x, k, n), Eval(Attr(Name(x, m), a, l))], devices, START, []) <==> (k == OfTorch || k == OfTorchDevice) && a in devices
  {
    var s := Import(x, k, n);
    RunTwo(s, Eval(Attr(Name(x, m), a, l)), Focus(devices, Every), START, []);
    AttributeDone(x, m, a, l, Focus(devices, Every), Exec(s, Focus(devices, Every), START, []).env);
  }

  // -------------------------------------------------------------- assignments

  /** torch.a on one line. */
  function TorchDot(a: string, line: nat): Expr
  {
    Attr(Name("torch", line), a, line)
  }

  lemma TorchDotSeen(a: string, line: nat, focus: Focus, scope: Scope)
    requires focus.view == Caught && Look(scope, "torch") == {MTorch}
    ensures VisitExpr(TorchDot(a, line), focus, scope) == if a in focus.devices then Seen({MDevice}, scope, {line}) else Seen({}, scope, {})
  {
    assert VisitExpr(Name("torch", line), focus, scope) == Seen({MTorch}, scope, {});
  }

  /** x = torch.a, then x: both lines when a is a device, none otherwise. */
  lemma AliasReported(x: string, a: string, devices: set<string>)
    ensures Reported([Assign(x, TorchDot(a, 1)), Eval(Name(x, 2))], devices) == if a in devices then {1, 2} else {}
  {
    FoundTwo(Assign(x, TorchDot(a, 1)), Eval(Name(x, 2)), Focus(devices, Caught));
    TorchDotSeen(a, 1, Focus(devices, Caught), START_SCOPE);
  }

  /** x = torch, then x.a: the second line when a is a device. */
  lemma TorchAliasReported(x: string, a: string, devices: set<string>)
    ensures Reported([Assign(x, Name("torch", 1)), Eval(Attr(Name(x, 2), a, 2))], devices) == if a in devices then {2} else {}
  {
    FoundTwo(Assign(x, Name("torch", 1)), Eval(Attr(Name(x, 2), a, 2)), Focus(devices, Caught));
    AttributeSeen(x, 2, a, 2, Focus(devices, Caught), START_SCOPE[x := {MTorch}]);
  }

  /** (x := torch.a), then x. */
  lemma WalrusReported(x: string, a: string, devices: set<string>)
    ensures Reported([Eval(Walrus(x, TorchDot(a, 1))), Eval(Name(x, 2))], devices) == if a in devices then {1, 2} else {}
  {
    FoundTwo(Eval(Walrus(x, TorchDot(a, 1))), Eval(Name(x, 2)), Focus(devices, Caught));
    TorchDotSeen(a, 1, Focus(devices, Caught), START_SCOPE);
  }

  /** x = torch.a, then a statement that rebinds or deletes x, then x: the last line is not reported. */
  lemma UnboundNotReported(x: string, a: string, s: Stmt, devices: set<string>)
    requires s == Del(x) || s == Assign(x, Const) || s == AugAssign(x, Const, 2) || s == Import(x, OfOther, 2)
    ensures Reported([Assign(x, TorchDot(a, 1)), s, Eval(Name(x, 3))], devices) == if a in devices then {1} else {}
  {
    FoundThree(Assign(x, TorchDot(a, 1)), s, Eval(Name(x, 3)), Focus(devices, Caught));
    TorchDotSeen(a, 1, Focus(devices, Caught), START_SCOPE);
  }

  // ------------------------------------------------------------- control flow

  lemma RunTorchDot(x: string, a: string, line: nat, focus: Focus, env: Env, choices: seq<bool>)
    requires Get(env, "torch") == Torch && a in focus.devices
    ensures Exec(Assign(x, TorchDot(a, line)), focus, env, choices) == Ended(Normal, env[x := Device], choices, Plain(focus, line))
  {
    assert Evaluate(Name("torch", line), focus, env, choices) == Got(Torch, env, choices, {});
  }

  /** if ...: x = torch.a; then x: reported, since the branch may have been taken. */
  lemma BranchReported(x: string, a: string, devices: set<string>)
    requires a in devices
    ensures {1, 2} <= Reported([If(Const, [Assign(x, TorchDot(a, 1))], []), Eval(Name(x, 2))], devices)
  {
    var focus := Focus(devices, Caught);
    var (s, b) := (If(Const, [Assign(x, TorchDot(a, 1))], []), [Assign(x, TorchDot(a, 1))]);
    RunTorchDot(x, a, 1, focus, START, []);
    assert b[0] == Assign(x, TorchDot(a, 1)) && b[1..] == [];
    assert ExecBlock(b, focus, START, []) == Ended(Normal, START[x := Device], [], {1});
    assert [true][1..] == [];
    assert Exec(s, focus, START, [true]) == Ended(Normal, START[x := Device], [], {1});
    RunTwo(s, Eval(Name(x, 2)), focus, START, [true]);
    RunsFound([s, Eval(Name(x, 2))], focus, START, [true]);
  }

  /** Nothing after a raise is reported. */
  lemma UnreachableNotReported(rest: seq<Stmt>, devices: set<string>)
    ensures Reported([Raise(Const)] + rest, devices) == {}
  {
    var (s, U) := (Raise(Const), {"torch"} + BlockNames(rest));
    FoundFirst(s, rest, Focus(devices, Caught), START_SCOPE, U);
    assert {"torch"} + BlockNames([s] + rest) == U;
  }

  /** while ...: x (line 1); x = torch.a (line 2): the load is reported, for the second turn. */
  lemma LoopReported(x: string, a: string, devices: set<string>)
    requires a in devices && x != "torch"
    ensures 1 in Reported([While(Const, [Eval(Name(x, 1)), Assign(x, TorchDot(a, 2))], [])], devices)
  {
    var focus := Focus(devices, Caught);
    var w := While(Const, [Eval(Name(x, 1)), Assign(x, TorchDot(a, 2))], []);
    TurnLines(x, a, focus, START, [true]);
    TurnLines(x, a, focus, START[x := Device], []);
    TwoTurns(w, focus, START, START[x := Device], 1);
    RunsFound([w], focus, START, [true, true]);
  }

  lemma TwoTurns(w: Stmt, focus: Focus, env: Env, env1: Env, line: nat)
    requires w.While? && w.test == Const
    requires var r := ExecBlock(w.body, focus, env, [true]); r.Ended? && r.kind == Normal && r.env == env1 && r.rest == [true]
    requires line in ExecBlock(w.body, focus, env1, []).lines
    ensures line in ExecBlock([w], focus, env, [true, true]).lines
  {
    LoopTurn(w, focus, env, [true]);
    LoopTurn(w, focus, env1, []);
    assert [true] + [true] == [true, true] && [true] + [] == [true] && [w] + [] == [w];
    RunFirst(w, [], focus, env, [true, true]);
  }

  lemma LoopTurn(w: Stmt, focus: Focus, env: Env, rest: seq<bool>)
    requires w.While? && w.test == Const
    ensures var (r, q) := (ExecBlock(w.body, focus, env, rest), ExecLoop(w, focus, env, [true] + rest));
            r.lines <= q.lines && (r.Ended? && r.kind == Normal ==> ExecLoop(w, focus, r.env, r.rest).lines <= q.lines)
  {
    var choices := [true] + rest;
    assert choices[0] && choices[1..] == rest;
    assert Evaluate(Const, focus, env, choices) == Got(Other, env, choices, {});
  }

  /** One turn of that loop. */
  lemma TurnLines(x: string, a: string, focus: Focus, env: Env, choices: seq<bool>)
    requires Get(env, "torch") == Torch && a in focus.devices && focus.view == Caught
    ensures var r := ExecBlock([Eval(Name(x, 1)), Assign(x, TorchDot(a, 2))], focus, env, choices);
            && r.Ended? && r.kind == Normal && r.env == env[x := Device] && r.rest == choices
            && r.lines == (if Get(env, x) == Device then {1} else {}) + {2}
  {
    var b := [Eval(Name(x, 1)), Assign(x, TorchDot(a, 2))];
    RunTorchDot(x, a, 2, focus, env, choices);
    assert b[1..] == [Assign(x, TorchDot(a, 2))] && b[1..][1..] == [];
    var r := Exec(b[0], focus, env, choices);
    assert r == Ended(Normal, env, choices, if Get(env, x) == Device then {1} else {});
    assert ExecBlock(b[1..], focus, env, choices) == Then({2}, ExecBlock([], focus, env[x := Device], choices));
  }
}
