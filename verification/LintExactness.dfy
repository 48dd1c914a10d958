/**
 The lint reports nothing it should not: every reported line carries a direct
 device reference that some run performs.  (Tests are arbitrary here, so both
 branches of every test are taken by some run.)
 */
module LintExactness {
  import opened LintSyntax
  import opened LintAnalysis
  import opened LintSoundness

  // ------------------------------------------- unused choices stay unused

  lemma SplitHead(rest: seq<bool>, more: seq<bool>)
    requires rest != []
    ensures (rest + more)[0] == rest[0] && (rest + more)[1..] == rest[1..] + more
  {
  }

  lemma {:induction false} ExtendEval(e: Expr, focus: Focus, env: Env, choices: seq<bool>, more: seq<bool>)
    requires Evaluate(e, focus, env, choices).Got?
    ensures var r := Evaluate(e, focus, env, choices);
            Evaluate(e, focus, env, choices + more) == Got(r.value, r.env, r.rest + more, r.lines)
    decreases e
  {
    match e
    case Const =>
    case Name(x, line) =>
    case Attr(base, attr, line) => ExtendEval(base, focus, env, choices, more);
    case Walrus(x, value) => ExtendEval(value, focus, env, choices, more);
    case Cond(test, thn, els) =>
      ExtendEval(test, focus, env, choices, more);
      var t := Evaluate(test, focus, env, choices);
      SplitHead(t.rest, more);
      ExtendEval(if t.rest[0] then thn else els, focus, t.env, t.rest[1..], more);
    case BoolOp(left, right) =>
      ExtendEval(left, focus, env, choices, more);
      var t := Evaluate(left, focus, env, choices);
      SplitHead(t.rest, more);
      if t.rest[0] {
        ExtendEval(right, focus, t.env, t.rest[1..], more);
      }
  }

  lemma {:induction false} ExtendStmt(s: Stmt, focus: Focus, env: Env, choices: seq<bool>, more: seq<bool>)
    requires Exec(s, focus, env, choices).Ended?
    ensures var r := Exec(s, focus, env, choices);
            Exec(s, focus, env, choices + more) == Ended(r.kind, r.env, r.rest + more, r.lines)
    decreases |choices|, s, 1
  {
    match s
    case Break =>
    case Continue =>
    case Import(x, kind, line) =>
    case Del(x) =>
    case Assign(x, value) => ExtendEval(value, focus, env, choices, more);
    case AugAssign(x, value, line) => ExtendEval(value, focus, env, choices, more);
    case Eval(value) => ExtendEval(value, focus, env, choices, more);
    case Raise(value) => ExtendEval(value, focus, env, choices, more);
    case If(test, body, orelse) =>
      ExtendEval(test, focus, env, choices, more);
      var t := Evaluate(test, focus, env, choices);
      SplitHead(t.rest, more);
      ExtendBlock(if t.rest[0] then body else orelse, focus, t.env, t.rest[1..], more);
    case While(_, _, _) => ExtendLoop(s, focus, env, choices, more);
  }

  lemma {:induction false} ExtendBlock(b: seq<Stmt>, focus: Focus, env: Env, choices: seq<bool>, more: seq<bool>)
    requires ExecBlock(b, focus, env, choices).Ended?
    ensures var r := ExecBlock(b, focus, env, choices);
            ExecBlock(b, focus, env, choices + more) == Ended(r.kind, r.env, r.rest + more, r.lines)
    decreases |choices|, b, 1
  {
    if b != [] {
      ExtendStmt(b[0], focus, env, choices, more);
      var r := Exec(b[0], focus, env, choices);
      if r.kind == Normal {
        ExtendBlock(b[1..], focus, r.env, r.rest, more);
      }
    }
  }

  lemma {:induction false} ExtendLoop(w: Stmt, focus: Focus, env: Env, choices: seq<bool>, more: seq<bool>)
    requires w.While? && ExecLoop(w, focus, env, choices).Ended?
    ensures var r := ExecLoop(w, focus, env, choices);
            ExecLoop(w, focus, env, choices + more) == Ended(r.kind, r.env, r.rest + more, r.lines)
    decreases |choices|, w, 0
  {
    ExtendEval(w.test, focus, env, choices, more);
    var t := Evaluate(w.test, focus, env, choices);
    SplitHead(t.rest, more);
    if !t.rest[0] {
      ExtendBlock(w.orelse, focus, t.env, t.rest[1..], more);
    } else {
      ExtendBlock(w.body, focus, t.env, t.rest[1..], more);
      var r := ExecBlock(w.body, focus, t.env, t.rest[1..]);
      if r.kind == Normal || r.kind == Continued {
        ExtendLoop(w, focus, r.env, r.rest, more);
      }
    }
  }

  // ----------------------------------------------------- witnessed bindings

  /** Some state exists, and every mark of every binding is carried in some state. */
  ghost predicate Witnessed(focus: Focus, S: iset<Env>, a: Scope)
  {
    && (exists c :: c in S)
    && forall x, k :: k in Look(a, x) ==> Carried(focus, S, x, k)
  }

  ghost predicate Carried(focus: Focus, S: iset<Env>, x: string, k: Mark)
  {
    exists c :: c in S && k in MarkOf(focus, Get(c, x))
  }

  lemma WitnessedMore(focus: Focus, S: iset<Env>, T: iset<Env>, a: Scope)
    requires Witnessed(focus, S, a) && S <= T
    ensures Witnessed(focus, T, a)
  {
    forall x, k | k in Look(a, x)
      ensures Carried(focus, T, x, k)
    {
      assert Carried(focus, S, x, k);
    }
  }

  lemma WitnessedMerge(focus: Focus, S: iset<Env>, a: Scope, b: Scope)
    requires Witnessed(focus, S, a) && Witnessed(focus, S, b)
    ensures Witnessed(focus, S, Merge2(a, b))
  {
    forall x, k | k in Look(Merge2(a, b), x)
      ensures Carried(focus, S, x, k)
    {
      assert k in Look(a, x) || k in Look(b, x);
    }
  }

  lemma WitnessedMergeAll(focus: Focus, S: iset<Env>, paths: seq<Scope>)
    requires paths != [] && forall i :: 0 <= i < |paths| ==> Witnessed(focus, S, paths[i])
    ensures Witnessed(focus, S, MergeAll(paths))
  {
    assert Witnessed(focus, S, paths[0]);
    forall x, k | k in Look(MergeAll(paths), x)
      ensures Carried(focus, S, x, k)
    {
      var i := MergeAllFrom(paths, x, k);
      assert Witnessed(focus, S, paths[i]);
    }
  }

  // ------------------------------------------------------------ expressions

  /** Evaluating e from c with exactly these choices gives v and c1. */
  ghost predicate EvalsTo(e: Expr, focus: Focus, c: Env, ch: seq<bool>, v: Value, c1: Env)
  {
    var r := Evaluate(e, focus, c, ch);
    r.Got? && r.rest == [] && r.value == v && r.env == c1
  }

  ghost predicate EvalReaches(e: Expr, focus: Focus, S: iset<Env>, c1: Env)
  {
    exists c, ch, v :: c in S && EvalsTo(e, focus, c, ch, v, c1)
  }

  ghost function EvalStates(e: Expr, focus: Focus, S: iset<Env>): iset<Env>
  {
    iset c1 | EvalReaches(e, focus, S, c1)
  }

  ghost predicate Yields(e: Expr, focus: Focus, S: iset<Env>, k: Mark)
  {
    exists c, ch, v, c1 :: c in S && EvalsTo(e, focus, c, ch, v, c1) && k in MarkOf(focus, v)
  }

  ghost predicate Performs(e: Expr, focus: Focus, S: iset<Env>, line: nat)
  {
    exists c, ch :: c in S && line in Evaluate(e, focus, c, ch).lines
  }

  ghost predicate ExprExact(e: Expr, focus: Focus, S: iset<Env>, v: Seen)
  {
    && Witnessed(focus, EvalStates(e, focus, S), v.scope)
    && (forall k :: k in v.marks ==> Yields(e, focus, S, k))
    && (forall l :: l in v.lines ==> Performs(e, focus, S, l))
  }

  /** A first expression evaluated, one more choice, then a second one. */
  lemma BranchRun(e: Expr, first: Expr, second: Expr, focus: Focus, c: Env, ch: seq<bool>, v: Value, c1: Env, b: bool, ch2: seq<bool>)
    requires EvalsTo(first, focus, c, ch, v, c1)
    requires (e.Cond? && e.test == first && second == (if b then e.thn else e.els)) || (e.BoolOp? && e.left == first && e.right == second && b)
    ensures var r2 := Evaluate(second, focus, c1, ch2);
            var r := Evaluate(e, focus, c, ch + ([b] + ch2));
            r.lines >= r2.lines && (r2.Got? ==> r.Got? && r.value == r2.value && r.env == r2.env && r.rest == r2.rest)
  {
    ExtendEval(first, focus, c, ch, [b] + ch2);
    assert [] + ([b] + ch2) == [b] + ch2;
    SplitHead([b], ch2);
  }

  lemma BranchState(e: Expr, first: Expr, second: Expr, focus: Focus, S: iset<Env>, b: bool, c2: Env)
    requires (e.Cond? && e.test == first && second == (if b then e.thn else e.els)) || (e.BoolOp? && e.left == first && e.right == second && b)
    requires EvalReaches(second, focus, EvalStates(first, focus, S), c2)
    ensures EvalReaches(e, focus, S, c2)
  {
    var c1, ch2, v2 :| c1 in EvalStates(first, focus, S) && EvalsTo(second, focus, c1, ch2, v2, c2);
    var c, ch, v1 :| c in S && EvalsTo(first, focus, c, ch, v1, c1);
    BranchRun(e, first, second, focus, c, ch, v1, c1, b, ch2);
    assert EvalsTo(e, focus, c, ch + ([b] + ch2), v2, c2);
  }

  lemma BranchStates(e: Expr, first: Expr, second: Expr, focus: Focus, S: iset<Env>, b: bool)
    requires (e.Cond? && e.test == first && second == (if b then e.thn else e.els)) || (e.BoolOp? && e.left == first && e.right == second && b)
    ensures EvalStates(second, focus, EvalStates(first, focus, S)) <= EvalStates(e, focus, S)
  {
    forall c2 | c2 in EvalStates(second, focus, EvalStates(first, focus, S))
      ensures c2 in EvalStates(e, focus, S)
    {
      BranchState(e, first, second, focus, S, b, c2);
    }
  }

  lemma BranchYields(e: Expr, first: Expr, second: Expr, focus: Focus, S: iset<Env>, b: bool, k: Mark)
    requires (e.Cond? && e.test == first && second == (if b then e.thn else e.els)) || (e.BoolOp? && e.left == first && e.right == second && b)
    requires Yields(second, focus, EvalStates(first, focus, S), k)
    ensures Yields(e, focus, S, k)
  {
    var S1 := EvalStates(first, focus, S);
    var c1, ch2, v2, c2 :| c1 in S1 && EvalsTo(second, focus, c1, ch2, v2, c2) && k in MarkOf(focus, v2);
    var c, ch, v1 :| c in S && EvalsTo(first, focus, c, ch, v1, c1);
    BranchRun(e, first, second, focus, c, ch, v1, c1, b, ch2);
    assert EvalsTo(e, focus, c, ch + ([b] + ch2), v2, c2);
  }

  lemma BranchPerforms(e: Expr, first: Expr, second: Expr, focus: Focus, S: iset<Env>, b: bool, l: nat)
    requires (e.Cond? && e.test == first && second == (if b then e.thn else e.els)) || (e.BoolOp? && e.left == first && e.right == second && b)
    requires Performs(second, focus, EvalStates(first, focus, S), l)
    ensures Performs(e, focus, S, l)
  {
    var S1 := EvalStates(first, focus, S);
    var c1, ch2 :| c1 in S1 && l in Evaluate(second, focus, c1, ch2).lines;
    var c, ch, v1 :| c in S && EvalsTo(first, focus, c, ch, v1, c1);
    BranchRun(e, first, second, focus, c, ch, v1, c1, b, ch2);
  }

  /** What the second expression does from the states after the first, the whole does. */
  lemma BranchExact(e: Expr, first: Expr, second: Expr, focus: Focus, S: iset<Env>, b: bool, v: Seen)
    requires (e.Cond? && e.test == first && second == (if b then e.thn else e.els)) || (e.BoolOp? && e.left == first && e.right == second && b)
    requires ExprExact(second, focus, EvalStates(first, focus, S), v)
    ensures ExprExact(e, focus, S, v)
  {
    BranchStates(e, first, second, focus, S, b);
    WitnessedMore(focus, EvalStates(second, focus, EvalStates(first, focus, S)), EvalStates(e, focus, S), v.scope);
    forall k | k in v.marks
      ensures Yields(e, focus, S, k)
    {
      BranchYields(e, first, second, focus, S, b, k);
    }
    forall l | l in v.lines
      ensures Performs(e, focus, S, l)
    {
      BranchPerforms(e, first, second, focus, S, b, l);
    }
  }

  /** Lines of the first expression are lines of the whole. */
  lemma FirstLines(e: Expr, first: Expr, focus: Focus, S: iset<Env>, l: nat)
    requires (e.Cond? && e.test == first) || (e.BoolOp? && e.left == first)
    requires Performs(first, focus, S, l)
    ensures Performs(e, focus, S, l)
  {
    var c, ch :| c in S && l in Evaluate(first, focus, c, ch).lines;
    assert l in Evaluate(e, focus, c, ch).lines;
  }

  lemma ExactMerge(e: Expr, focus: Focus, S: iset<Env>, v: Seen, w: Seen)
    requires ExprExact(e, focus, S, v) && ExprExact(e, focus, S, w)
    ensures ExprExact(e, focus, S, Seen(v.marks + w.marks, Merge2(v.scope, w.scope), v.lines + w.lines))
  {
    WitnessedMerge(focus, EvalStates(e, focus, S), v.scope, w.scope);
  }

  /** The operand of and/or alone: the right one is skipped. */
  lemma SkipExact(e: Expr, focus: Focus, S: iset<Env>, v: Seen)
    requires e.BoolOp? && ExprExact(e.left, focus, S, v)
    ensures ExprExact(e, focus, S, v)
  {
    assert EvalStates(e.left, focus, S) <= EvalStates(e, focus, S) by {
      forall c1 | c1 in EvalStates(e.left, focus, S)
        ensures c1 in EvalStates(e, focus, S)
      {
        var c, ch, v1 :| c in S && EvalsTo(e.left, focus, c, ch, v1, c1);
        SkipRun(e, focus, c, ch, v1, c1);
      }
    }
    WitnessedMore(focus, EvalStates(e.left, focus, S), EvalStates(e, focus, S), v.scope);
    forall k | k in v.marks
      ensures Yields(e, focus, S, k)
    {
      var c, ch, v1, c1 :| c in S && EvalsTo(e.left, focus, c, ch, v1, c1) && k in MarkOf(focus, v1);
      SkipRun(e, focus, c, ch, v1, c1);
    }
    forall l | l in v.lines
      ensures Performs(e, focus, S, l)
    {
      FirstLines(e, e.left, focus, S, l);
    }
  }

  lemma SkipRun(e: Expr, focus: Focus, c: Env, ch: seq<bool>, v: Value, c1: Env)
    requires e.BoolOp? && EvalsTo(e.left, focus, c, ch, v, c1)
    ensures EvalsTo(e, focus, c, ch + [false], v, c1)
  {
    ExtendEval(e.left, focus, c, ch, [false]);
    assert [] + [false] == [false];
  }

  lemma NameExact(e: Expr, focus: Focus, S: iset<Env>, a: Scope)
    requires (e.Name? || e.Const?) && Witnessed(focus, S, a)
    ensures ExprExact(e, focus, S, VisitExpr(e, focus, a))
  {
    assert S <= EvalStates(e, focus, S) by {
      forall c | c in S
        ensures c in EvalStates(e, focus, S)
      {
        assert EvalsTo(e, focus, c, [], Evaluate(e, focus, c, []).value, c);
      }
    }
    WitnessedMore(focus, S, EvalStates(e, focus, S), a);
    if e.Name? {
      forall k | k in Look(a, e.id)
        ensures Yields(e, focus, S, k)
        ensures LoadMarked(focus, {k}) ==> Performs(e, focus, S, e.line)
      {
        NameYields(e, focus, S, a, k);
      }
      assert LoadMarked(focus, Look(a, e.id)) ==> Performs(e, focus, S, e.line) by {
        assert MDevice in Look(a, e.id) && focus.view != Dropped ==> LoadMarked(focus, {MDevice});
        assert MAlias in Look(a, e.id) && focus.view != Caught ==> LoadMarked(focus, {MAlias});
      }
    }
  }

  lemma NameYields(e: Expr, focus: Focus, S: iset<Env>, a: Scope, k: Mark)
    requires e.Name? && Witnessed(focus, S, a) && k in Look(a, e.id)
    ensures Yields(e, focus, S, k)
    ensures LoadMarked(focus, {k}) ==> Performs(e, focus, S, e.line)
  {
    assert Carried(focus, S, e.id, k);
    var c :| c in S && k in MarkOf(focus, Get(c, e.id));
    assert EvalsTo(e, focus, c, [], Get(c, e.id), c);
    assert LoadMarked(focus, {k}) ==> e.line in Evaluate(e, focus, c, []).lines;
  }

  lemma AttrExact(e: Expr, focus: Focus, S: iset<Env>, r: Seen)
    requires e.Attr? && ExprExact(e.base, focus, S, r)
    ensures ExprExact(e, focus, S, if e.attr in focus.devices && MTorch in r.marks then Seen({MDevice}, r.scope, r.lines + Plain(focus, e.line)) else Seen({}, r.scope, r.lines))
  {
    assert EvalStates(e.base, focus, S) <= EvalStates(e, focus, S) by {
      forall c1 | c1 in EvalStates(e.base, focus, S)
        ensures c1 in EvalStates(e, focus, S)
      {
        var c, ch, v1 :| c in S && EvalsTo(e.base, focus, c, ch, v1, c1);
        assert EvalsTo(e, focus, c, ch, Evaluate(e, focus, c, ch).value, c1);
      }
    }
    WitnessedMore(focus, EvalStates(e.base, focus, S), EvalStates(e, focus, S), r.scope);
    if e.attr in focus.devices && MTorch in r.marks {
      var c, ch, v1, c1 :| c in S && EvalsTo(e.base, focus, c, ch, v1, c1) && MTorch in MarkOf(focus, v1);
      assert EvalsTo(e, focus, c, ch, Device, c1) && Plain(focus, e.line) <= Evaluate(e, focus, c, ch).lines;
    }
    forall l | l in r.lines
      ensures Performs(e, focus, S, l)
    {
      var c, ch :| c in S && l in Evaluate(e.base, focus, c, ch).lines;
      assert l in Evaluate(e, focus, c, ch).lines;
    }
  }

  /** Binding x to the evaluated value. */
  lemma WalrusExact(e: Expr, focus: Focus, S: iset<Env>, r: Seen)
    requires e.Walrus? && ExprExact(e.value, focus, S, r)
    ensures ExprExact(e, focus, S, Seen(r.marks, r.scope[e.id := r.marks], r.lines))
  {
    var T := EvalStates(e, focus, S);
    forall c, ch, v1, c1 | c in S && EvalsTo(e.value, focus, c, ch, v1, c1)
      ensures EvalsTo(e, focus, c, ch, v1, c1[e.id := v1]) && c1[e.id := v1] in T
    {
      assert EvalsTo(e, focus, c, ch, v1, c1[e.id := v1]);
    }
    forall x, k | k in Look(r.scope[e.id := r.marks], x)
      ensures Carried(focus, T, x, k)
    {
      if x == e.id {
        assert Yields(e.value, focus, S, k);
        var c, ch, v1, c1 :| c in S && EvalsTo(e.value, focus, c, ch, v1, c1) && k in MarkOf(focus, v1);
        assert c1[e.id := v1] in T;
      } else {
        assert k in Look(r.scope, x);
        assert Carried(focus, EvalStates(e.value, focus, S), x, k);
        var c1 :| c1 in EvalStates(e.value, focus, S) && k in MarkOf(focus, Get(c1, x));
        var c, ch, v1 :| c in S && EvalsTo(e.value, focus, c, ch, v1, c1);
        assert c1[e.id := v1] in T && Get(c1[e.id := v1], x) == Get(c1, x);
      }
    }
    var c0 :| c0 in EvalStates(e.value, focus, S);
    var c, ch, v1 :| c in S && EvalsTo(e.value, focus, c, ch, v1, c0);
    assert c0[e.id := v1] in T;
    forall l | l in r.lines
      ensures Performs(e, focus, S, l)
    {
      var c2, ch2 :| c2 in S && l in Evaluate(e.value, focus, c2, ch2).lines;
      assert l in Evaluate(e, focus, c2, ch2).lines;
    }
  }

  lemma {:induction false} CompleteExpr(e: Expr, focus: Focus, S: iset<Env>, a: Scope)
    requires Witnessed(focus, S, a)
    ensures ExprExact(e, focus, S, VisitExpr(e, focus, a))
    decreases e
  {
    match e
    case Const => NameExact(e, focus, S, a);
    case Name(x, line) => NameExact(e, focus, S, a);
    case Attr(base, attr, line) =>
      CompleteExpr(base, focus, S, a);
      AttrExact(e, focus, S, VisitExpr(base, focus, a));
    case Walrus(x, value) =>
      CompleteExpr(value, focus, S, a);
      WalrusExact(e, focus, S, VisitExpr(value, focus, a));
    case Cond(test, thn, els) =>
      CompleteExpr(test, focus, S, a);
      var t := VisitExpr(test, focus, a);
      var S1 := EvalStates(test, focus, S);
      CompleteExpr(thn, focus, S1, t.scope);
      CompleteExpr(els, focus, S1, t.scope);
      BranchExact(e, test, thn, focus, S, true, VisitExpr(thn, focus, t.scope));
      BranchExact(e, test, els, focus, S, false, VisitExpr(els, focus, t.scope));
      ExactMerge(e, focus, S, VisitExpr(thn, focus, t.scope), VisitExpr(els, focus, t.scope));
      forall l | l in t.lines
        ensures Performs(e, focus, S, l)
      {
        FirstLines(e, test, focus, S, l);
      }
    case BoolOp(left, right) =>
      CompleteExpr(left, focus, S, a);
      var t := VisitExpr(left, focus, a);
      CompleteExpr(right, focus, EvalStates(left, focus, S), t.scope);
      BranchExact(e, left, right, focus, S, true, VisitExpr(right, focus, t.scope));
      SkipExact(e, focus, S, t);
      ExactMerge(e, focus, S, VisitExpr(right, focus, t.scope), t);
  }

  // ------------------------------------------------------------- statements

  /** A statement or a block. */
  datatype Code = One(stmt: Stmt) | Many(block: seq<Stmt>)

  function Go(p: Code, focus: Focus, c: Env, ch: seq<bool>): Ran
  {
    match p
    case One(s) => Exec(s, focus, c, ch)
    case Many(b) => ExecBlock(b, focus, c, ch)
  }

  /** Running p from c with exactly these choices ends in c1 by the given kind. */
  ghost predicate Ends(p: Code, focus: Focus, c: Env, ch: seq<bool>, kind: Kind, c1: Env)
  {
    var r := Go(p, focus, c, ch);
    r.Ended? && r.rest == [] && r.kind == kind && r.env == c1
  }

  ghost predicate Reaches(p: Code, focus: Focus, S: iset<Env>, kind: Kind, c1: Env)
  {
    exists c, ch :: c in S && Ends(p, focus, c, ch, kind, c1)
  }

  ghost function States(p: Code, focus: Focus, S: iset<Env>, kind: Kind): iset<Env>
  {
    iset c1 | Reaches(p, focus, S, kind, c1)
  }

  ghost predicate Does(p: Code, focus: Focus, S: iset<Env>, line: nat)
  {
    exists c, ch :: c in S && line in Go(p, focus, c, ch).lines
  }

  ghost predicate FlowExact(p: Code, focus: Focus, S: iset<Env>, f: Flow)
  {
    && (f.reachable ==> Witnessed(focus, States(p, focus, S, Normal), f.scope))
    && (forall i :: 0 <= i < |f.exits| ==> Witnessed(focus, States(p, focus, S, f.exits[i].kind), f.exits[i].scope))
    && (forall l :: l in f.lines ==> Does(p, focus, S, l))
  }

  /** Every run of q from T is the end of a run of p from S. */
  ghost predicate Continues(p: Code, S: iset<Env>, q: Code, T: iset<Env>, focus: Focus)
  {
    forall c1, ch2 :: c1 in T ==> ContinuedBy(p, S, q, focus, c1, ch2)
  }

  ghost predicate ContinuedBy(p: Code, S: iset<Env>, q: Code, focus: Focus, c1: Env, ch2: seq<bool>)
  {
    exists c, ch :: c in S && SameEnd(Go(q, focus, c1, ch2), Go(p, focus, c, ch))
  }

  ghost predicate SameEnd(r: Ran, r1: Ran)
  {
    r.lines <= r1.lines && (r.Ended? ==> r1.Ended? && r1.kind == r.kind && r1.env == r.env && r1.rest == r.rest)
  }

  lemma ContinuesStates(p: Code, S: iset<Env>, q: Code, T: iset<Env>, focus: Focus, kind: Kind)
    requires Continues(p, S, q, T, focus)
    ensures States(q, focus, T, kind) <= States(p, focus, S, kind)
  {
    forall c2 | c2 in States(q, focus, T, kind)
      ensures c2 in States(p, focus, S, kind)
    {
      var c1, ch2 :| c1 in T && Ends(q, focus, c1, ch2, kind, c2);
      assert ContinuedBy(p, S, q, focus, c1, ch2);
      var c, ch :| c in S && SameEnd(Go(q, focus, c1, ch2), Go(p, focus, c, ch));
      assert Ends(p, focus, c, ch, kind, c2);
    }
  }

  /** What q's analysis found from T holds of p from S. */
  lemma ContinuesExact(p: Code, S: iset<Env>, q: Code, T: iset<Env>, focus: Focus, f: Flow)
    requires Continues(p, S, q, T, focus) && FlowExact(q, focus, T, f)
    ensures FlowExact(p, focus, S, f)
  {
    if f.reachable {
      ContinuesStates(p, S, q, T, focus, Normal);
      WitnessedMore(focus, States(q, focus, T, Normal), States(p, focus, S, Normal), f.scope);
    }
    forall i | 0 <= i < |f.exits|
      ensures Witnessed(focus, States(p, focus, S, f.exits[i].kind), f.exits[i].scope)
    {
      ContinuesStates(p, S, q, T, focus, f.exits[i].kind);
      WitnessedMore(focus, States(q, focus, T, f.exits[i].kind), States(p, focus, S, f.exits[i].kind), f.exits[i].scope);
    }
    forall l | l in f.lines
      ensures Does(p, focus, S, l)
    {
      var c1, ch2 :| c1 in T && l in Go(q, focus, c1, ch2).lines;
      assert ContinuedBy(p, S, q, focus, c1, ch2);
      var c, ch :| c in S && SameEnd(Go(q, focus, c1, ch2), Go(p, focus, c, ch));
    }
  }

  /** Both branches: bindings join, jumps and lines add up. */
  lemma FlowMerge(p: Code, focus: Focus, S: iset<Env>, f: Flow, g: Flow, entry: Scope)
    requires FlowExact(p, focus, S, f) && FlowExact(p, focus, S, g)
    ensures FlowExact(p, focus, S, Flow(JoinBranches(entry, f, g), f.reachable || g.reachable, f.exits + g.exits, f.lines + g.lines))
  {
    if f.reachable && g.reachable {
      WitnessedMerge(focus, States(p, focus, S, Normal), f.scope, g.scope);
    }
  }

  /** The binding of x changes and the rest stays. */
  lemma Rebind(focus: Focus, S: iset<Env>, T: iset<Env>, a: Scope, a1: Scope, x: string)
    requires Witnessed(focus, S, a)
    requires forall c :: c in S ==> HasImage(T, c, x)
    requires forall y :: y != x ==> Look(a1, y) == Look(a, y)
    requires forall k :: k in Look(a1, x) ==> Carried(focus, T, x, k)
    ensures Witnessed(focus, T, a1)
  {
    var c0 :| c0 in S;
    assert HasImage(T, c0, x);
    forall y, k | k in Look(a1, y)
      ensures Carried(focus, T, y, k)
    {
      if y != x {
        assert Look(a1, y) == Look(a, y);
        assert Carried(focus, S, y, k);
        var c :| c in S && k in MarkOf(focus, Get(c, y));
        assert HasImage(T, c, x);
        var c1 :| c1 in T && Agree(c, c1, x);
        assert Get(c1, y) == Get(c, y);
      }
    }
  }

  ghost predicate HasImage(T: iset<Env>, c: Env, x: string)
  {
    exists c1 :: c1 in T && Agree(c, c1, x)
  }

  ghost predicate Agree(c: Env, c1: Env, x: string)
  {
    forall y :: y != x ==> Get(c1, y) == Get(c, y)
  }

  lemma AssignExact(s: Stmt, focus: Focus, S: iset<Env>, a: Scope, U: set<string>)
    requires s.Assign? && a.Keys <= U && StmtNames(s) <= U && Witnessed(focus, S, a)
    ensures FlowExact(One(s), focus, S, VisitStmt(s, focus, a, U))
  {
    var e := Walrus(s.id, s.value);
    CompleteExpr(e, focus, S, a);
    EvalCode(s, e, focus, S, Normal);
    WitnessedMore(focus, EvalStates(e, focus, S), States(One(s), focus, S, Normal), VisitExpr(e, focus, a).scope);
  }

  /** A statement that only evaluates an expression. */
  lemma EvalCode(s: Stmt, e: Expr, focus: Focus, S: iset<Env>, kind: Kind)
    requires forall c, ch :: var (r, q) := (Evaluate(e, focus, c, ch), Exec(s, focus, c, ch));
                             q.lines == r.lines && (r.Got? ==> q == Ended(kind, r.env, r.rest, r.lines))
    ensures EvalStates(e, focus, S) <= States(One(s), focus, S, kind)
    ensures forall l :: Performs(e, focus, S, l) ==> Does(One(s), focus, S, l)
  {
    forall c1 | c1 in EvalStates(e, focus, S)
      ensures c1 in States(One(s), focus, S, kind)
    {
      var c, ch, v :| c in S && EvalsTo(e, focus, c, ch, v, c1);
      assert Exec(s, focus, c, ch).Ended?;
      assert Ends(One(s), focus, c, ch, kind, c1);
    }
    forall l | Performs(e, focus, S, l)
      ensures Does(One(s), focus, S, l)
    {
      var c, ch :| c in S && l in Evaluate(e, focus, c, ch).lines;
      assert l in Go(One(s), focus, c, ch).lines;
    }
  }

  lemma EvalExact(s: Stmt, focus: Focus, S: iset<Env>, a: Scope, U: set<string>)
    requires (s.Eval? || s.Raise?) && a.Keys <= U && StmtNames(s) <= U && Witnessed(focus, S, a)
    ensures FlowExact(One(s), focus, S, VisitStmt(s, focus, a, U))
  {
    CompleteExpr(s.value, focus, S, a);
    var kind := if s.Eval? then Normal else Raised;
    EvalCode(s, s.value, focus, S, kind);
    WitnessedMore(focus, EvalStates(s.value, focus, S), States(One(s), focus, S, kind), VisitExpr(s.value, focus, a).scope);
  }

  lemma AugAssignExact(s: Stmt, focus: Focus, S: iset<Env>, a: Scope, U: set<string>)
    requires s.AugAssign? && a.Keys <= U && StmtNames(s) <= U && Witnessed(focus, S, a)
    ensures FlowExact(One(s), focus, S, VisitStmt(s, focus, a, U))
  {
    CompleteExpr(s.value, focus, S, a);
    var r := VisitExpr(s.value, focus, a);
    var T := States(One(s), focus, S, Normal);
    forall c1 | c1 in EvalStates(s.value, focus, S)
      ensures HasImage(T, c1, s.id)
    {
      var c, ch, v :| c in S && EvalsTo(s.value, focus, c, ch, v, c1);
      assert Ends(One(s), focus, c, ch, Normal, c1[s.id := Other]);
      assert c1[s.id := Other] in T && Agree(c1, c1[s.id := Other], s.id);
    }
    Rebind(focus, EvalStates(s.value, focus, S), T, r.scope, r.scope[s.id := {}], s.id);
    forall l | l in r.lines
      ensures Does(One(s), focus, S, l)
    {
      var c, ch :| c in S && l in Evaluate(s.value, focus, c, ch).lines;
      assert l in Go(One(s), focus, c, ch).lines;
    }
    if UpdateMarked(focus, Look(a, s.id)) {
      UpdateDone(s, focus, S, a);
    }
  }

  lemma UpdateDone(s: Stmt, focus: Focus, S: iset<Env>, a: Scope)
    requires s.AugAssign? && Witnessed(focus, S, a) && UpdateMarked(focus, Look(a, s.id))
    ensures Does(One(s), focus, S, s.line)
  {
    var k := if MDevice in Look(a, s.id) then MDevice else MAlias;
    assert Carried(focus, S, s.id, k);
    var c :| c in S && k in MarkOf(focus, Get(c, s.id));
    assert s.line in Go(One(s), focus, c, []).lines;
  }

  /** A statement that only rebinds one name. */
  lemma BindExact(s: Stmt, focus: Focus, S: iset<Env>, a: Scope, a1: Scope, v: Value)
    requires (s.Import? && v == Imported(s.kind)) || (s.Del? && v == Other)
    requires Witnessed(focus, S, a) && Look(a1, s.id) <= MarkOf(focus, v) && forall y :: y != s.id ==> Look(a1, y) == Look(a, y)
    ensures Witnessed(focus, States(One(s), focus, S, Normal), a1)
  {
    var T := States(One(s), focus, S, Normal);
    forall c | c in S
      ensures HasImage(T, c, s.id)
    {
      Rebinds(s, focus, S, c, v);
    }
    forall k | k in Look(a1, s.id)
      ensures Carried(focus, T, s.id, k)
    {
      var c0 :| c0 in S;
      Rebinds(s, focus, S, c0, v);
    }
    Rebind(focus, S, T, a, a1, s.id);
  }

  lemma Rebinds(s: Stmt, focus: Focus, S: iset<Env>, c: Env, v: Value)
    requires (s.Import? && v == Imported(s.kind)) || (s.Del? && v == Other)
    requires c in S
    ensures HasImage(States(One(s), focus, S, Normal), c, s.id)
    ensures forall k :: k in MarkOf(focus, v) ==> Carried(focus, States(One(s), focus, S, Normal), s.id, k)
  {
    var c1 := Exec(s, focus, c, []).env;
    assert Ends(One(s), focus, c, [], Normal, c1);
    assert Agree(c, c1, s.id) && Get(c1, s.id) == v;
  }

  lemma ImportExact(s: Stmt, focus: Focus, S: iset<Env>, a: Scope, U: set<string>)
    requires s.Import? && a.Keys <= U && StmtNames(s) <= U && Witnessed(focus, S, a)
    ensures FlowExact(One(s), focus, S, VisitStmt(s, focus, a, U))
  {
    BindExact(s, focus, S, a, a[s.id := ImportMarks(focus, s.kind)], Imported(s.kind));
    var c0 :| c0 in S;
    assert Go(One(s), focus, c0, []).lines == VisitStmt(s, focus, a, U).lines;
  }

  lemma DelExact(s: Stmt, focus: Focus, S: iset<Env>, a: Scope, U: set<string>)
    requires s.Del? && a.Keys <= U && StmtNames(s) <= U && Witnessed(focus, S, a)
    ensures FlowExact(One(s), focus, S, VisitStmt(s, focus, a, U))
  {
    BindExact(s, focus, S, a, a - {s.id}, Other);
  }

  lemma JumpExact(s: Stmt, focus: Focus, S: iset<Env>, a: Scope, U: set<string>)
    requires (s.Break? || s.Continue?) && a.Keys <= U && StmtNames(s) <= U && Witnessed(focus, S, a)
    ensures FlowExact(One(s), focus, S, VisitStmt(s, focus, a, U))
  {
    var kind := if s.Break? then Broke else Continued;
    assert S <= States(One(s), focus, S, kind) by {
      forall c | c in S
        ensures c in States(One(s), focus, S, kind)
      {
        assert Ends(One(s), focus, c, [], kind, c);
      }
    }
    WitnessedMore(focus, S, States(One(s), focus, S, kind), a);
  }

  // ------------------------------------------------------ branches and blocks

  lemma SameEndTrans(r: Ran, r1: Ran, r2: Ran)
    requires SameEnd(r, r1) && SameEnd(r1, r2)
    ensures SameEnd(r, r2)
  {
  }

  /** A test evaluated, one more choice, then the chosen branch. */
  lemma TestThen(s: Stmt, focus: Focus, c: Env, ch: seq<bool>, v: Value, c1: Env, b: bool, ch2: seq<bool>)
    requires (s.If? || s.While?) && EvalsTo(s.test, focus, c, ch, v, c1)
    ensures var t := Evaluate(s.test, focus, c, ch + ([b] + ch2));
            t.Got? && t.env == c1 && t.rest == [b] + ch2 && t.rest[0] == b && t.rest[1..] == ch2
  {
    ExtendEval(s.test, focus, c, ch, [b] + ch2);
    assert [] + ([b] + ch2) == [b] + ch2;
    SplitHead([b], ch2);
  }

  lemma IfContinues(s: Stmt, focus: Focus, S: iset<Env>, b: bool)
    requires s.If?
    ensures Continues(One(s), S, Many(if b then s.body else s.orelse), EvalStates(s.test, focus, S), focus)
  {
    var q := Many(if b then s.body else s.orelse);
    forall c1, ch2 | c1 in EvalStates(s.test, focus, S)
      ensures ContinuedBy(One(s), S, q, focus, c1, ch2)
    {
      var c, ch, v :| c in S && EvalsTo(s.test, focus, c, ch, v, c1);
      TestThen(s, focus, c, ch, v, c1, b, ch2);
      assert SameEnd(Go(q, focus, c1, ch2), Go(One(s), focus, c, ch + ([b] + ch2)));
    }
  }

  lemma IfTest(s: Stmt, focus: Focus, S: iset<Env>)
    requires s.If? || s.While?
    ensures forall l :: Performs(s.test, focus, S, l) ==> Does(One(s), focus, S, l)
  {
    forall l | Performs(s.test, focus, S, l)
      ensures Does(One(s), focus, S, l)
    {
      var c, ch :| c in S && l in Evaluate(s.test, focus, c, ch).lines;
      if s.While? {
        ExecLoopByTest(s, focus, c, ch);
      }
      assert l in Go(One(s), focus, c, ch).lines;
    }
  }

  /** Nothing lost by adding lines that some run performs. */
  lemma MoreLines(p: Code, focus: Focus, S: iset<Env>, f: Flow, lines: set<nat>)
    requires FlowExact(p, focus, S, f) && forall l :: l in lines ==> Does(p, focus, S, l)
    ensures FlowExact(p, focus, S, Flow(f.scope, f.reachable, f.exits, lines + f.lines))
  {
  }

  lemma BlockContinues(b: seq<Stmt>, focus: Focus, S: iset<Env>)
    requires b != []
    ensures Continues(Many(b), S, Many(b[1..]), States(One(b[0]), focus, S, Normal), focus)
  {
    forall c1, ch2 | c1 in States(One(b[0]), focus, S, Normal)
      ensures ContinuedBy(Many(b), S, Many(b[1..]), focus, c1, ch2)
    {
      var c, ch :| c in S && Ends(One(b[0]), focus, c, ch, Normal, c1);
      ExtendStmt(b[0], focus, c, ch, ch2);
      assert [] + ch2 == ch2;
      assert SameEnd(Go(Many(b[1..]), focus, c1, ch2), Go(Many(b), focus, c, ch + ch2));
    }
  }

  /** What the first statement does, the block does, unless it goes on. */
  lemma FirstExact(b: seq<Stmt>, focus: Focus, S: iset<Env>, f: Flow)
    requires b != [] && FlowExact(One(b[0]), focus, S, f) && forall i :: 0 <= i < |f.exits| ==> f.exits[i].kind != Normal
    ensures FlowExact(Many(b), focus, S, f.(reachable := false))
  {
    forall i | 0 <= i < |f.exits|
      ensures Witnessed(focus, States(Many(b), focus, S, f.exits[i].kind), f.exits[i].scope)
    {
      FirstStates(b, focus, S, f.exits[i].kind);
      WitnessedMore(focus, States(One(b[0]), focus, S, f.exits[i].kind), States(Many(b), focus, S, f.exits[i].kind), f.exits[i].scope);
    }
    forall l | l in f.lines
      ensures Does(Many(b), focus, S, l)
    {
      var c, ch :| c in S && l in Go(One(b[0]), focus, c, ch).lines;
      assert l in Go(Many(b), focus, c, ch).lines;
    }
  }

  lemma FirstStates(b: seq<Stmt>, focus: Focus, S: iset<Env>, kind: Kind)
    requires b != [] && kind != Normal
    ensures States(One(b[0]), focus, S, kind) <= States(Many(b), focus, S, kind)
  {
    forall c1 | c1 in States(One(b[0]), focus, S, kind)
      ensures c1 in States(Many(b), focus, S, kind)
    {
      var c, ch :| c in S && Ends(One(b[0]), focus, c, ch, kind, c1);
      assert Ends(Many(b), focus, c, ch, kind, c1);
    }
  }

  lemma EmptyExact(focus: Focus, S: iset<Env>, a: Scope)
    requires Witnessed(focus, S, a)
    ensures FlowExact(Many([]), focus, S, Flow(a, true, [], {}))
  {
    forall c | c in S
      ensures c in States(Many([]), focus, S, Normal)
    {
      assert Ends(Many([]), focus, c, [], Normal, c);
    }
    WitnessedMore(focus, S, States(Many([]), focus, S, Normal), a);
  }

  // ------------------------------------------------------------------ loops

  /** Every run of the loop from c1 is the end of a run of the loop from S. */
  ghost predicate IsHeader(w: Stmt, focus: Focus, S: iset<Env>, c1: Env)
  {
    forall ch2 :: ContinuedBy(One(w), S, One(w), focus, c1, ch2)
  }

  ghost function Headers(w: Stmt, focus: Focus, S: iset<Env>): iset<Env>
  {
    iset c1 | IsHeader(w, focus, S, c1)
  }

  lemma EntryIsHeader(w: Stmt, focus: Focus, S: iset<Env>)
    ensures S <= Headers(w, focus, S)
    ensures Continues(One(w), S, One(w), Headers(w, focus, S), focus)
  {
    forall c1 | c1 in S
      ensures c1 in Headers(w, focus, S)
    {
      forall ch2
        ensures ContinuedBy(One(w), S, One(w), focus, c1, ch2)
      {
        assert SameEnd(Go(One(w), focus, c1, ch2), Go(One(w), focus, c1, ch2));
      }
    }
    forall c1, ch2 | c1 in Headers(w, focus, S)
      ensures ContinuedBy(One(w), S, One(w), focus, c1, ch2)
    {
      assert IsHeader(w, focus, S, c1);
    }
  }

  /** A loop run that takes the test from c to c1, the given choice, and then what follows. */
  lemma LoopRun(w: Stmt, focus: Focus, c: Env, ch: seq<bool>, v: Value, c1: Env, b: bool, ch2: seq<bool>)
    requires w.While? && EvalsTo(w.test, focus, c, ch, v, c1)
    ensures var t := Evaluate(w.test, focus, c, ch + ([b] + ch2));
            && t.Got? && t.env == c1 && t.rest != [] && t.rest[0] == b && t.rest[1..] == ch2
            && SameEnd(AfterTest(w, focus, t), Go(One(w), focus, c, ch + ([b] + ch2)))
  {
    TestThen(w, focus, c, ch, v, c1, b, ch2);
    ExecLoopByTest(w, focus, c, ch + ([b] + ch2));
  }

  lemma ElseContinues(w: Stmt, focus: Focus, H: iset<Env>)
    requires w.While?
    ensures Continues(One(w), H, Many(w.orelse), EvalStates(w.test, focus, H), focus)
  {
    forall c1, ch2 | c1 in EvalStates(w.test, focus, H)
      ensures ContinuedBy(One(w), H, Many(w.orelse), focus, c1, ch2)
    {
      var c, ch, v :| c in H && EvalsTo(w.test, focus, c, ch, v, c1);
      LoopRun(w, focus, c, ch, v, c1, false, ch2);
      assert SameEnd(Go(Many(w.orelse), focus, c1, ch2), Go(One(w), focus, c, ch + ([false] + ch2)));
    }
  }

  /** One more turn of the loop leads from headers to headers. */
  lemma BackIsHeader(w: Stmt, focus: Focus, S: iset<Env>, kind: Kind)
    requires w.While? && (kind == Normal || kind == Continued)
    ensures States(Many(w.body), focus, EvalStates(w.test, focus, Headers(w, focus, S)), kind) <= Headers(w, focus, S)
  {
    var H := Headers(w, focus, S);
    forall c2 | c2 in States(Many(w.body), focus, EvalStates(w.test, focus, H), kind)
      ensures c2 in H
    {
      var c1, ch1 :| c1 in EvalStates(w.test, focus, H) && Ends(Many(w.body), focus, c1, ch1, kind, c2);
      var c, ch, v :| c in H && EvalsTo(w.test, focus, c, ch, v, c1);
      forall ch2
        ensures ContinuedBy(One(w), S, One(w), focus, c2, ch2)
      {
        Turn(w, focus, c, ch, v, c1, ch1, kind, c2, ch2);
        assert IsHeader(w, focus, S, c);
        Compose(w, focus, S, c2, ch2, c, ch + ([true] + (ch1 + ch2)));
      }
    }
  }

  lemma Compose(w: Stmt, focus: Focus, S: iset<Env>, c2: Env, ch2: seq<bool>, c: Env, ch: seq<bool>)
    requires SameEnd(Go(One(w), focus, c2, ch2), Go(One(w), focus, c, ch)) && ContinuedBy(One(w), S, One(w), focus, c, ch)
    ensures ContinuedBy(One(w), S, One(w), focus, c2, ch2)
  {
    var c0, ch0 :| c0 in S && SameEnd(Go(One(w), focus, c, ch), Go(One(w), focus, c0, ch0));
    SameEndTrans(Go(One(w), focus, c2, ch2), Go(One(w), focus, c, ch), Go(One(w), focus, c0, ch0));
  }

  lemma Turn(w: Stmt, focus: Focus, c: Env, ch: seq<bool>, v: Value, c1: Env, ch1: seq<bool>, kind: Kind, c2: Env, ch2: seq<bool>)
    requires w.While? && (kind == Normal || kind == Continued)
    requires EvalsTo(w.test, focus, c, ch, v, c1) && Ends(Many(w.body), focus, c1, ch1, kind, c2)
    ensures SameEnd(Go(One(w), focus, c2, ch2), Go(One(w), focus, c, ch + ([true] + (ch1 + ch2))))
  {
    LoopRun(w, focus, c, ch, v, c1, true, ch1 + ch2);
    ExtendBlock(w.body, focus, c1, ch1, ch2);
    assert [] + ch2 == ch2;
  }

  /** Leaving the body by break ends the loop normally, by raise it leaves the loop too. */
  lemma JumpLeaves(w: Stmt, focus: Focus, H: iset<Env>, kind: Kind)
    requires w.While? && (kind == Broke || kind == Raised)
    ensures States(Many(w.body), focus, EvalStates(w.test, focus, H), kind)
         <= States(One(w), focus, H, if kind == Broke then Normal else Raised)
  {
    forall c2 | c2 in States(Many(w.body), focus, EvalStates(w.test, focus, H), kind)
      ensures c2 in States(One(w), focus, H, if kind == Broke then Normal else Raised)
    {
      var c1, ch1 :| c1 in EvalStates(w.test, focus, H) && Ends(Many(w.body), focus, c1, ch1, kind, c2);
      var c, ch, v :| c in H && EvalsTo(w.test, focus, c, ch, v, c1);
      LoopRun(w, focus, c, ch, v, c1, true, ch1);
      assert Ends(One(w), focus, c, ch + ([true] + ch1), if kind == Broke then Normal else Raised, c2);
    }
  }

  lemma BodyLine(w: Stmt, focus: Focus, H: iset<Env>, l: nat)
    requires w.While? && Does(Many(w.body), focus, EvalStates(w.test, focus, H), l)
    ensures Does(One(w), focus, H, l)
  {
    var c1, ch1 :| c1 in EvalStates(w.test, focus, H) && l in Go(Many(w.body), focus, c1, ch1).lines;
    var c, ch, v :| c in H && EvalsTo(w.test, focus, c, ch, v, c1);
    LoopRun(w, focus, c, ch, v, c1, true, ch1);
    assert l in Go(One(w), focus, c, ch + ([true] + ch1)).lines;
  }

  ghost predicate AllWitnessed(focus: Focus, T: iset<Env>, paths: seq<Scope>)
  {
    forall i :: 0 <= i < |paths| ==> Witnessed(focus, T, paths[i])
  }

  ghost predicate ExitsWitnessed(focus: Focus, T: iset<Env>, exits: seq<Exit>)
  {
    forall i :: 0 <= i < |exits| ==> exits[i].kind == Raised && Witnessed(focus, T, exits[i].scope)
  }

  /** A pass over test and body finds only what runs from the headers do. */
  ghost predicate PassExact(w: Stmt, focus: Focus, H: iset<Env>, p: Pass)
    requires w.While?
  {
    && Witnessed(focus, EvalStates(w.test, focus, H), p.exhausted)
    && AllWitnessed(focus, H, p.back)
    && AllWitnessed(focus, States(One(w), focus, H, Normal), p.breaks)
    && ExitsWitnessed(focus, States(One(w), focus, H, Raised), p.outer)
    && forall l :: l in p.lines ==> Does(One(w), focus, H, l)
  }

  /** The states of one kind among the exits of an exact flow. */
  lemma ScopesExact(p: Code, focus: Focus, S: iset<Env>, f: Flow, kind: Kind, T: iset<Env>)
    requires FlowExact(p, focus, S, f) && States(p, focus, S, kind) <= T
    ensures AllWitnessed(focus, T, Scopes(f.exits, kind))
  {
    var r := Scopes(f.exits, kind);
    forall i | 0 <= i < |r|
      ensures Witnessed(focus, T, r[i])
    {
      var j :| 0 <= j < |f.exits| && f.exits[j] == Exit(kind, r[i]);
      assert Witnessed(focus, States(p, focus, S, f.exits[j].kind), f.exits[j].scope);
      WitnessedMore(focus, States(p, focus, S, kind), T, r[i]);
    }
  }

  lemma OuterExact(p: Code, focus: Focus, S: iset<Env>, f: Flow, T: iset<Env>)
    requires FlowExact(p, focus, S, f) && States(p, focus, S, Raised) <= T
    ensures ExitsWitnessed(focus, T, Outer(f.exits))
  {
    var r := Outer(f.exits);
    forall i | 0 <= i < |r|
      ensures r[i].kind == Raised && Witnessed(focus, T, r[i].scope)
    {
      assert r[i] in f.exits && r[i].kind == Raised;
      var j :| 0 <= j < |f.exits| && f.exits[j] == r[i];
      assert Witnessed(focus, States(p, focus, S, f.exits[j].kind), f.exits[j].scope);
      WitnessedMore(focus, States(p, focus, S, Raised), T, r[i].scope);
    }
  }

  lemma PassFromBody(w: Stmt, focus: Focus, S: iset<Env>, header: Scope, U: set<string>)
    requires w.While? && header.Keys <= U && StmtNames(w) <= U
    requires ExprExact(w.test, focus, Headers(w, focus, S), VisitExpr(w.test, focus, header))
    requires FlowExact(Many(w.body), focus, EvalStates(w.test, focus, Headers(w, focus, S)), VisitBlock(w.body, focus, VisitExpr(w.test, focus, header).scope, U))
    ensures PassExact(w, focus, Headers(w, focus, S), LoopPass(w, focus, header, U))
  {
    var H := Headers(w, focus, S);
    var E := EvalStates(w.test, focus, H);
    var r := VisitExpr(w.test, focus, header);
    var f := VisitBlock(w.body, focus, r.scope, U);
    BackIsHeader(w, focus, S, Normal);
    BackIsHeader(w, focus, S, Continued);
    JumpLeaves(w, focus, H, Broke);
    JumpLeaves(w, focus, H, Raised);
    ScopesExact(Many(w.body), focus, E, f, Continued, H);
    ScopesExact(Many(w.body), focus, E, f, Broke, States(One(w), focus, H, Normal));
    OuterExact(Many(w.body), focus, E, f, States(One(w), focus, H, Raised));
    if f.reachable {
      WitnessedMore(focus, States(Many(w.body), focus, E, Normal), H, f.scope);
    }
    IfTest(w, focus, H);
    forall l | l in f.lines
      ensures Does(One(w), focus, H, l)
    {
      BodyLine(w, focus, H, l);
    }
  }

  lemma NextWitnessed(focus: Focus, H: iset<Env>, entry: Scope, header: Scope, p: Pass)
    requires Witnessed(focus, H, entry) && Witnessed(focus, H, header) && AllWitnessed(focus, H, p.back)
    ensures Witnessed(focus, H, NextHeader(entry, header, p))
  {
    WitnessedMergeAll(focus, H, [entry, header] + p.back);
  }

  ghost predicate FixedExact(w: Stmt, focus: Focus, H: iset<Env>, l: Fixed)
    requires w.While?
  {
    && Witnessed(focus, EvalStates(w.test, focus, H), l.exhausted)
    && AllWitnessed(focus, States(One(w), focus, H, Normal), l.breaks)
    && ExitsWitnessed(focus, States(One(w), focus, H, Raised), l.outer)
    && forall n :: n in l.lines ==> Does(One(w), focus, H, n)
  }

  /** The whole loop: the else block from the exhausted states, joined with the breaks. */
  lemma LoopFlowExact(w: Stmt, focus: Focus, H: iset<Env>, a: Scope, l: Fixed, g: Flow, U: set<string>)
    requires w.While? && a.Keys <= U && Within(g, U) && FixedWithin(l, U) && FixedExact(w, focus, H, l)
    requires FlowExact(Many(w.orelse), focus, EvalStates(w.test, focus, H), g)
    ensures FlowExact(One(w), focus, H, LoopFlow(a, l, g, U))
  {
    ElseContinues(w, focus, H);
    ContinuesExact(One(w), H, Many(w.orelse), EvalStates(w.test, focus, H), focus, g);
    var paths := LeavingPaths(l, g);
    if paths != [] {
      WitnessedMergeAll(focus, States(One(w), focus, H, Normal), paths);
    }
  }

  // --------------------------------------------------------------- the proof

  lemma {:induction false} CompleteStmt(s: Stmt, focus: Focus, S: iset<Env>, a: Scope, U: set<string>)
    requires a.Keys <= U && StmtNames(s) <= U && Witnessed(focus, S, a)
    ensures FlowExact(One(s), focus, S, VisitStmt(s, focus, a, U))
    ensures JumpsOnly(VisitStmt(s, focus, a, U).exits)
    decreases s, 3
  {
    match s
    case Break => JumpExact(s, focus, S, a, U);
    case Continue => JumpExact(s, focus, S, a, U);
    case Import(x, kind, line) => ImportExact(s, focus, S, a, U);
    case Del(x) => DelExact(s, focus, S, a, U);
    case Assign(x, value) => AssignExact(s, focus, S, a, U);
    case AugAssign(x, value, line) => AugAssignExact(s, focus, S, a, U);
    case Eval(value) => EvalExact(s, focus, S, a, U);
    case Raise(value) => EvalExact(s, focus, S, a, U);
    case If(test, body, orelse) => CompleteIf(s, focus, S, a, U);
    case While(_, _, _) => CompleteWhile(s, focus, S, a, U);
  }

  lemma {:induction false} CompleteIf(s: Stmt, focus: Focus, S: iset<Env>, a: Scope, U: set<string>)
    requires s.If? && a.Keys <= U && StmtNames(s) <= U && Witnessed(focus, S, a)
    ensures FlowExact(One(s), focus, S, VisitStmt(s, focus, a, U))
    ensures JumpsOnly(VisitStmt(s, focus, a, U).exits)
    decreases s, 2
  {
    CompleteExpr(s.test, focus, S, a);
    var r := VisitExpr(s.test, focus, a);
    var E := EvalStates(s.test, focus, S);
    CompleteBlock(s.body, focus, E, r.scope, U);
    CompleteBlock(s.orelse, focus, E, r.scope, U);
    var f, g := VisitBlock(s.body, focus, r.scope, U), VisitBlock(s.orelse, focus, r.scope, U);
    IfContinues(s, focus, S, true);
    IfContinues(s, focus, S, false);
    ContinuesExact(One(s), S, Many(s.body), E, focus, f);
    ContinuesExact(One(s), S, Many(s.orelse), E, focus, g);
    FlowMerge(One(s), focus, S, f, g, r.scope);
    IfTest(s, focus, S);
    MoreLines(One(s), focus, S, Flow(JoinBranches(r.scope, f, g), f.reachable || g.reachable, f.exits + g.exits, f.lines + g.lines), r.lines);
    assert r.lines + (f.lines + g.lines) == r.lines + f.lines + g.lines;
  }

  lemma {:induction false} CompleteBlock(b: seq<Stmt>, focus: Focus, S: iset<Env>, a: Scope, U: set<string>)
    requires a.Keys <= U && BlockNames(b) <= U && Witnessed(focus, S, a)
    ensures FlowExact(Many(b), focus, S, VisitBlock(b, focus, a, U))
    ensures JumpsOnly(VisitBlock(b, focus, a, U).exits)
    decreases b, 2
  {
    if b == [] {
      EmptyExact(focus, S, a);
    } else {
      CompleteStmt(b[0], focus, S, a, U);
      var f := VisitStmt(b[0], focus, a, U);
      FirstExact(b, focus, S, f);
      if f.reachable {
        var T := States(One(b[0]), focus, S, Normal);
        CompleteBlock(b[1..], focus, T, f.scope, U);
        BlockContinues(b, focus, S);
        ContinuesExact(Many(b), S, Many(b[1..]), T, focus, VisitBlock(b[1..], focus, f.scope, U));
      }
    }
  }

  lemma {:induction false} CompleteWhile(s: Stmt, focus: Focus, S: iset<Env>, a: Scope, U: set<string>)
    requires s.While? && a.Keys <= U && StmtNames(s) <= U && Witnessed(focus, S, a)
    ensures FlowExact(One(s), focus, S, VisitStmt(s, focus, a, U))
    ensures JumpsOnly(VisitStmt(s, focus, a, U).exits)
    decreases s, 2
  {
    var H := Headers(s, focus, S);
    EntryIsHeader(s, focus, S);
    WitnessedMore(focus, S, H, a);
    CompleteLoop(s, focus, S, a, a, [], U);
    var l := VisitLoop(s, focus, a, a, [], U);
    CompleteBlock(s.orelse, focus, EvalStates(s.test, focus, H), l.exhausted, U);
    var g := VisitBlock(s.orelse, focus, l.exhausted, U);
    LoopFlowExact(s, focus, H, a, l, g, U);
    ContinuesExact(One(s), S, One(s), H, focus, LoopFlow(a, l, g, U));
  }

  lemma {:induction false} CompletePass(w: Stmt, focus: Focus, S: iset<Env>, header: Scope, U: set<string>)
    requires w.While? && header.Keys <= U && StmtNames(w) <= U && Witnessed(focus, Headers(w, focus, S), header)
    ensures PassExact(w, focus, Headers(w, focus, S), LoopPass(w, focus, header, U))
    decreases w, 0
  {
    var H := Headers(w, focus, S);
    CompleteExpr(w.test, focus, H, header);
    CompleteBlock(w.body, focus, EvalStates(w.test, focus, H), VisitExpr(w.test, focus, header).scope, U);
    PassFromBody(w, focus, S, header, U);
  }

  lemma {:induction false} CompleteLoop(w: Stmt, focus: Focus, S: iset<Env>, entry: Scope, header: Scope, breaks: seq<Scope>, U: set<string>)
    requires w.While? && entry.Keys <= U && header.Keys <= U && StmtNames(w) <= U
    requires forall i :: 0 <= i < |breaks| ==> breaks[i].Keys <= U
    requires Witnessed(focus, Headers(w, focus, S), entry) && Witnessed(focus, Headers(w, focus, S), header)
    requires AllWitnessed(focus, States(One(w), focus, Headers(w, focus, S), Normal), breaks)
    ensures FixedExact(w, focus, Headers(w, focus, S), VisitLoop(w, focus, entry, header, breaks, U))
    decreases w, 1, Space(U) - Facts(header)
  {
    var H := Headers(w, focus, S);
    CompletePass(w, focus, S, header, U);
    var p := LoopPass(w, focus, header, U);
    var next := NextHeader(entry, header, p);
    NextHeaderAbove(entry, header, p, U);
    if next != header {
      HeaderGrows(header, next, U);
      NextWitnessed(focus, H, entry, header, p);
      CompleteLoop(w, focus, S, entry, next, breaks + p.breaks, U);
      FixedMore(w, focus, H, p, VisitLoop(w, focus, entry, next, breaks + p.breaks, U));
    }
  }

  lemma FixedMore(w: Stmt, focus: Focus, H: iset<Env>, p: Pass, l: Fixed)
    requires w.While? && PassExact(w, focus, H, p) && FixedExact(w, focus, H, l)
    ensures FixedExact(w, focus, H, Fixed(l.header, l.exhausted, l.breaks, p.outer + l.outer, p.lines + l.lines))
  {
  }

  // --------------------------------------------------------------- theorem

  lemma FoundRun(program: seq<Stmt>, focus: Focus, line: nat) returns (choices: seq<bool>)
    requires line in Analysed(program, focus)
    ensures line in ExecBlock(program, focus, START, choices).lines
  {
    var S := iset{START};
    assert Witnessed(focus, S, START_SCOPE) by {
      assert START in S;
      assert MarkOf(focus, Get(START, "torch")) == {MTorch};
    }
    CompleteBlock(program, focus, S, START_SCOPE, {"torch"} + BlockNames(program));
    assert Does(Many(program), focus, S, line);
    var c, ch :| c in S && line in Go(Many(program), focus, c, ch).lines;
    choices := ch;
  }

  /** In every view: a line is found if and only if some run performs a reference on it. */
  lemma FoundIff(program: seq<Stmt>, focus: Focus, line: nat)
    ensures line in Analysed(program, focus)
       <==> exists choices :: line in ExecBlock(program, focus, START, choices).lines
  {
    if line in Analysed(program, focus) {
      var choices := FoundRun(program, focus, line);
    }
    if choices :| line in ExecBlock(program, focus, START, choices).lines {
      RunsFound(program, focus, START, choices);
    }
  }
}
