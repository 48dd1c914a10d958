/**
 What the lint misses.  Two forms of direct device reference are passed over by
 the visitor: the read of an augmented target, and the load of a name bound by
 an import of a device with as.  Everything else is reported, exactly.
 */
module LintGaps {
  import opened LintSyntax
  import opened LintSoundness
  import opened LintExactness

  // ---------------------------------------- the views of one and the same run

  ghost predicate EvalSplits(r: Evaluated, c: Evaluated, d: Evaluated)
  {
    && r.lines == c.lines + d.lines
    && r.Got? == c.Got? == d.Got?
    && (r.Got? ==> r.value == c.value == d.value && r.env == c.env == d.env && r.rest == c.rest == d.rest)
  }

  ghost predicate RunSplits(r: Ran, c: Ran, d: Ran)
  {
    && r.lines == c.lines + d.lines
    && r.Ended? == c.Ended? == d.Ended?
    && (r.Ended? ==> r.kind == c.kind == d.kind && r.env == c.env == d.env && r.rest == c.rest == d.rest)
  }

  lemma {:induction false} SplitExpr(e: Expr, devices: set<string>, env: Env, choices: seq<bool>)
    ensures EvalSplits(Evaluate(e, Focus(devices, Every), env, choices), Evaluate(e, Focus(devices, Caught), env, choices),
                       Evaluate(e, Focus(devices, Dropped), env, choices))
    decreases e
  {
    match e
    case Const =>
    case Name(x, line) =>
    case Attr(base, attr, line) => SplitExpr(base, devices, env, choices);
    case Walrus(x, value) => SplitExpr(value, devices, env, choices);
    case Cond(test, thn, els) =>
      SplitExpr(test, devices, env, choices);
      var t := Evaluate(test, Focus(devices, Every), env, choices);
      if t.Got? && t.rest != [] {
        SplitExpr(if t.rest[0] then thn else els, devices, t.env, t.rest[1..]);
      }
    case BoolOp(left, right) =>
      SplitExpr(left, devices, env, choices);
      var t := Evaluate(left, Focus(devices, Every), env, choices);
      if t.Got? && t.rest != [] && t.rest[0] {
        SplitExpr(right, devices, t.env, t.rest[1..]);
      }
  }

  lemma {:induction false} SplitStmt(s: Stmt, devices: set<string>, env: Env, choices: seq<bool>)
    ensures RunSplits(Exec(s, Focus(devices, Every), env, choices), Exec(s, Focus(devices, Caught), env, choices),
                      Exec(s, Focus(devices, Dropped), env, choices))
    decreases |choices|, s, 1
  {
    match s
    case Break =>
    case Continue =>
    case Import(x, kind, line) =>
    case Del(x) =>
    case Assign(x, value) => SplitExpr(value, devices, env, choices);
    case AugAssign(x, value, line) => SplitExpr(value, devices, env, choices);
    case Eval(value) => SplitExpr(value, devices, env, choices);
    case Raise(value) => SplitExpr(value, devices, env, choices);
    case If(test, body, orelse) =>
      SplitExpr(test, devices, env, choices);
      var t := Evaluate(test, Focus(devices, Every), env, choices);
      if t.Got? && t.rest != [] {
        SplitBlock(if t.rest[0] then body else orelse, devices, t.env, t.rest[1..]);
      }
    case While(_, _, _) => SplitLoop(s, devices, env, choices);
  }

  lemma {:induction false} SplitBlock(b: seq<Stmt>, devices: set<string>, env: Env, choices: seq<bool>)
    ensures RunSplits(ExecBlock(b, Focus(devices, Every), env, choices), ExecBlock(b, Focus(devices, Caught), env, choices),
                      ExecBlock(b, Focus(devices, Dropped), env, choices))
    decreases |choices|, b, 1
  {
    if b != [] {
      SplitStmt(b[0], devices, env, choices);
      var r := Exec(b[0], Focus(devices, Every), env, choices);
      if r.Ended? && r.kind == Normal {
        SplitBlock(b[1..], devices, r.env, r.rest);
      }
    }
  }

  lemma ThenSplits(l: set<nat>, lc: set<nat>, ld: set<nat>, r: Ran, c: Ran, d: Ran)
    requires l == lc + ld && RunSplits(r, c, d)
    ensures RunSplits(Then(l, r), Then(lc, c), Then(ld, d))
  {
  }

  lemma {:induction false} SplitLoop(w: Stmt, devices: set<string>, env: Env, choices: seq<bool>)
    requires w.While?
    ensures RunSplits(ExecLoop(w, Focus(devices, Every), env, choices), ExecLoop(w, Focus(devices, Caught), env, choices),
                      ExecLoop(w, Focus(devices, Dropped), env, choices))
    decreases |choices|, w, 0, 1
  {
    var (e, c, d) := (Focus(devices, Every), Focus(devices, Caught), Focus(devices, Dropped));
    SplitExpr(w.test, devices, env, choices);
    ExecLoopByTest(w, e, env, choices);
    ExecLoopByTest(w, c, env, choices);
    ExecLoopByTest(w, d, env, choices);
    var (te, tc, td) := (Evaluate(w.test, e, env, choices), Evaluate(w.test, c, env, choices), Evaluate(w.test, d, env, choices));
    if te.Got? && te.rest != [] {
      SplitAfterTest(w, devices, te, tc, td);
      ThenSplits(te.lines, tc.lines, td.lines, AfterTest(w, e, te), AfterTest(w, c, tc), AfterTest(w, d, td));
    }
  }

  lemma {:induction false} SplitAfterTest(w: Stmt, devices: set<string>, te: Evaluated, tc: Evaluated, td: Evaluated)
    requires w.While? && EvalSplits(te, tc, td) && te.Got? && te.rest != []
    ensures RunSplits(AfterTest(w, Focus(devices, Every), te), AfterTest(w, Focus(devices, Caught), tc), AfterTest(w, Focus(devices, Dropped), td))
    decreases |te.rest|, w, 0, 0
  {
    var (e, c, d) := (Focus(devices, Every), Focus(devices, Caught), Focus(devices, Dropped));
    var rest := te.rest[1..];
    if !te.rest[0] {
      SplitBlock(w.orelse, devices, te.env, rest);
    } else {
      SplitBlock(w.body, devices, te.env, rest);
      var (re, rc, rd) := (ExecBlock(w.body, e, te.env, rest), ExecBlock(w.body, c, te.env, rest), ExecBlock(w.body, d, te.env, rest));
      if re.Ended? && (re.kind == Normal || re.kind == Continued) {
        SplitLoop(w, devices, re.env, re.rest);
        ThenSplits(re.lines, rc.lines, rd.lines, ExecLoop(w, e, re.env, re.rest), ExecLoop(w, c, re.env, re.rest), ExecLoop(w, d, re.env, re.rest));
      }
    }
  }

  // ------------------------------------------------------------------ theorems

  /** The direct device references of a run, of every form. */
  function Performed(program: seq<Stmt>, devices: set<string>, env: Env, choices: seq<bool>): set<nat>
  {
    ExecBlock(program, Focus(devices, Every), env, choices).lines
  }

  /**
   Lines where the analysis meets a passed-over form: an augmented assignment to
   a name marked as device or alias there, or a load of a name marked as alias.
   */
  function Gaps(program: seq<Stmt>, devices: set<string>): set<nat>
  {
    Analysed(program, Focus(devices, Dropped))
  }

  /** Any reference of any run is reported or lies in a gap. */
  lemma ReportedOrGap(program: seq<Stmt>, devices: set<string>, env: Env, choices: seq<bool>)
    requires Fresh(env)
    ensures Performed(program, devices, env, choices) <= Reported(program, devices) + Gaps(program, devices)
  {
    SplitBlock(program, devices, env, choices);
    RunsFound(program, Focus(devices, Caught), env, choices);
    RunsFound(program, Focus(devices, Dropped), env, choices);
  }

  /** Whatever is reported, and whatever lies in a gap, is performed by some run. */
  lemma SomeRun(program: seq<Stmt>, devices: set<string>, line: nat) returns (choices: seq<bool>)
    requires line in Reported(program, devices) + Gaps(program, devices)
    ensures line in Performed(program, devices, START, choices)
  {
    choices := FoundRun(program, Focus(devices, if line in Reported(program, devices) then Caught else Dropped), line);
    SplitBlock(program, devices, START, choices);
  }

  /** Some run performs a reference on a line if and only if it is reported or lies in a gap. */
  lemma PerformedIff(program: seq<Stmt>, devices: set<string>, line: nat)
    ensures (exists choices :: line in Performed(program, devices, START, choices))
       <==> line in Reported(program, devices) || line in Gaps(program, devices)
  {
    if line in Reported(program, devices) + Gaps(program, devices) {
      var choices := SomeRun(program, devices, line);
    }
    if choices :| line in Performed(program, devices, START, choices) {
      ReportedOrGap(program, devices, START, choices);
    }
  }

  ghost predicate MissesNothing(program: seq<Stmt>, devices: set<string>)
  {
    forall env, choices :: Fresh(env) ==> Performed(program, devices, env, choices) <= Reported(program, devices)
  }

  /** Nothing is missed, in any run, if and only if every gap is on a line reported anyway. */
  lemma NothingMissedIff(program: seq<Stmt>, devices: set<string>)
    ensures MissesNothing(program, devices) <==> Gaps(program, devices) <= Reported(program, devices)
  {
    if Gaps(program, devices) <= Reported(program, devices) {
      forall env, choices | Fresh(env)
        ensures Performed(program, devices, env, choices) <= Reported(program, devices)
      {
        ReportedOrGap(program, devices, env, choices);
      }
    }
    if MissesNothing(program, devices) {
      forall line | line in Gaps(program, devices)
        ensures line in Reported(program, devices)
      {
        var choices := SomeRun(program, devices, line);
        assert Performed(program, devices, START, choices) <= Reported(program, devices);
      }
    }
  }

  ghost predicate ReportsExactly(program: seq<Stmt>, devices: set<string>)
  {
    forall line :: line in Reported(program, devices) <==> exists choices :: line in Performed(program, devices, START, choices)
  }

  /** Under the same condition, and only then, the report is exactly what runs perform. */
  lemma ReportedIff(program: seq<Stmt>, devices: set<string>)
    ensures ReportsExactly(program, devices) <==> Gaps(program, devices) <= Reported(program, devices)
  {
    forall line: nat
      ensures (exists choices :: line in Performed(program, devices, START, choices))
         <==> line in Reported(program, devices) || line in Gaps(program, devices)
    {
      PerformedIff(program, devices, line);
    }
  }

  // ------------------------------------------- programs without the two forms

  /** No augmented assignment and no import of a device with as. */
  predicate PlainStmt(s: Stmt)
    decreases s
  {
    match s
    case AugAssign(_, _, _) => false
    case Import(_, kind, _) => kind != AsDevice
    case If(_, body, orelse) => PlainBlock(body) && PlainBlock(orelse)
    case While(_, body, orelse) => PlainBlock(body) && PlainBlock(orelse)
    case _ => true
  }

  predicate PlainBlock(b: seq<Stmt>)
    decreases b
  {
    b == [] || (PlainStmt(b[0]) && PlainBlock(b[1..]))
  }

  ghost predicate NoAlias(env: Env)
  {
    forall x :: x in env ==> env[x] != Alias
  }

  ghost predicate Clean(r: Ran)
  {
    r.lines == {} && (r.Ended? ==> NoAlias(r.env))
  }

  lemma {:induction false} CleanExpr(e: Expr, devices: set<string>, env: Env, choices: seq<bool>)
    requires NoAlias(env)
    ensures var r := Evaluate(e, Focus(devices, Dropped), env, choices);
            r.lines == {} && (r.Got? ==> r.value != Alias && NoAlias(r.env))
    decreases e
  {
    match e
    case Const =>
    case Name(x, line) =>
    case Attr(base, attr, line) => CleanExpr(base, devices, env, choices);
    case Walrus(x, value) => CleanExpr(value, devices, env, choices);
    case Cond(test, thn, els) =>
      CleanExpr(test, devices, env, choices);
      var t := Evaluate(test, Focus(devices, Dropped), env, choices);
      if t.Got? && t.rest != [] {
        CleanExpr(if t.rest[0] then thn else els, devices, t.env, t.rest[1..]);
      }
    case BoolOp(left, right) =>
      CleanExpr(left, devices, env, choices);
      var t := Evaluate(left, Focus(devices, Dropped), env, choices);
      if t.Got? && t.rest != [] && t.rest[0] {
        CleanExpr(right, devices, t.env, t.rest[1..]);
      }
  }

  lemma {:induction false} CleanStmt(s: Stmt, devices: set<string>, env: Env, choices: seq<bool>)
    requires PlainStmt(s) && NoAlias(env)
    ensures Clean(Exec(s, Focus(devices, Dropped), env, choices))
    decreases |choices|, s, 1
  {
    match s
    case Break =>
    case Continue =>
    case Import(x, kind, line) =>
    case Del(x) =>
    case Assign(x, value) => CleanExpr(value, devices, env, choices);
    case Eval(value) => CleanExpr(value, devices, env, choices);
    case Raise(value) => CleanExpr(value, devices, env, choices);
    case If(test, body, orelse) =>
      CleanExpr(test, devices, env, choices);
      var t := Evaluate(test, Focus(devices, Dropped), env, choices);
      if t.Got? && t.rest != [] {
        CleanBlock(if t.rest[0] then body else orelse, devices, t.env, t.rest[1..]);
      }
    case While(_, _, _) => CleanLoop(s, devices, env, choices);
  }

  lemma {:induction false} CleanBlock(b: seq<Stmt>, devices: set<string>, env: Env, choices: seq<bool>)
    requires PlainBlock(b) && NoAlias(env)
    ensures Clean(ExecBlock(b, Focus(devices, Dropped), env, choices))
    decreases |choices|, b, 1
  {
    if b != [] {
      CleanStmt(b[0], devices, env, choices);
      var r := Exec(b[0], Focus(devices, Dropped), env, choices);
      if r.Ended? && r.kind == Normal {
        CleanBlock(b[1..], devices, r.env, r.rest);
      }
    }
  }

  lemma {:induction false} CleanLoop(w: Stmt, devices: set<string>, env: Env, choices: seq<bool>)
    requires w.While? && PlainStmt(w) && NoAlias(env)
    ensures Clean(ExecLoop(w, Focus(devices, Dropped), env, choices))
    decreases |choices|, w, 0
  {
    CleanExpr(w.test, devices, env, choices);
    var t := Evaluate(w.test, Focus(devices, Dropped), env, choices);
    if t.Got? && t.rest != [] {
      CleanBlock(if t.rest[0] then w.body else w.orelse, devices, t.env, t.rest[1..]);
      if t.rest[0] {
        var r := ExecBlock(w.body, Focus(devices, Dropped), t.env, t.rest[1..]);
        if r.Ended? && (r.kind == Normal || r.kind == Continued) {
          CleanLoop(w, devices, r.env, r.rest);
        }
      }
    }
  }

  /** Programs without the two forms have no gap. */
  lemma PlainHasNoGap(program: seq<Stmt>, devices: set<string>)
    requires PlainBlock(program)
    ensures Gaps(program, devices) == {}
  {
    if line :| line in Gaps(program, devices) {
      var choices := FoundRun(program, Focus(devices, Dropped), line);
      CleanBlock(program, devices, START, choices);
    }
  }

  // ------------------------------------------------------------ failing inputs

  // x = torch.cuda
  // x += 1
  const UPDATE: seq<Stmt> := [Assign("x", Attr(Name("torch", 1), "cuda", 1)), AugAssign("x", Const, 2)]

  // import torch.cuda as c
  // c
  const ALIAS: seq<Stmt> := [Import("c", AsDevice, 1), Eval(Name("c", 2))]

  lemma UpdateMissed()
    ensures 2 in Performed(UPDATE, {"cuda"}, START, []) && 2 !in Reported(UPDATE, {"cuda"})
  {
  }

  lemma AliasMissed()
    ensures 2 in Performed(ALIAS, {"cuda"}, START, []) && 2 !in Reported(ALIAS, {"cuda"})
  {
  }
}
