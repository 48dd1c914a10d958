/**
 The fragment of Python the alias lint is modelled on (one scope, scalar
 aliases), and what running such a program does.
 */
module LintSyntax {

  datatype Expr =
    | Name(id: string, line: nat)
    | Attr(base: Expr, attr: string, line: nat)
    | Cond(test: Expr, thn: Expr, els: Expr)   // thn if test else els
    | BoolOp(left: Expr, right: Expr)          // left and/or right
    | Walrus(id: string, value: Expr)          // (id := value)
    | Const

  datatype ImportKind =
    | OfTorch          // import torch [as id]
    | OfDevice         // from torch import <device> [as id]
    | OfTorchDevice    // import torch.<device>
    | AsDevice         // import torch.<device> as id
    | FromDevice       // from torch.<device> import id, import torch.<device>.<part> as id
    | OfOther

  datatype Stmt =
    | Assign(id: string, value: Expr)
    | AugAssign(id: string, value: Expr, line: nat)   // id op= value
    | Import(id: string, kind: ImportKind, line: nat)
    | Del(id: string)
    | Eval(value: Expr)
    | If(test: Expr, body: seq<Stmt>, orelse: seq<Stmt>)
    | While(test: Expr, body: seq<Stmt>, orelse: seq<Stmt>)
    | Break
    | Continue
    | Raise(value: Expr)

  // ------------------------------------------------------- concrete semantics

  /** What a name can hold; Alias is the device module bound by an import with as. */
  datatype Value = Torch | Device | Alias | Other

  type Env = map<string, Value>

  function Get(env: Env, x: string): Value
  {
    if x in env then env[x] else Other
  }

  /**
   Which of the references a run performs are collected: all of them, those of
   the forms the visitor looks at, or those of the two forms it passes over (the
   read of an augmented target, the load of an alias).  The run is the same.
   */
  datatype View = Every | Caught | Dropped

  datatype Focus = Focus(devices: set<string>, view: View)

  /** A load of a name that holds v is collected. */
  predicate Loads(focus: Focus, v: Value)
  {
    (v == Device && focus.view != Dropped) || (v == Alias && focus.view != Caught)
  }

  /** An augmented assignment to a name that holds v is collected. */
  predicate Updates(focus: Focus, v: Value)
  {
    focus.view != Caught && (v == Device || v == Alias)
  }

  /** A line of a reference the visitor looks at. */
  function Plain(focus: Focus, line: nat): set<nat>
  {
    if focus.view == Dropped then {} else {line}
  }

  /**
   Truth values are not modelled: a run is driven by a list of choices, one for
   every test, and is cut off when they run out.  Every prefix of every run is
   thus the run of some list.
   */
  datatype Evaluated = Got(value: Value, env: Env, rest: seq<bool>, lines: set<nat>) | Stopped(lines: set<nat>)

  datatype Kind = Normal | Broke | Continued | Raised

  datatype Ran = Ended(kind: Kind, env: Env, rest: seq<bool>, lines: set<nat>) | Cut(lines: set<nat>)

  /** Lines of the direct device references an expression performs. */
  function Evaluate(e: Expr, focus: Focus, env: Env, choices: seq<bool>): (r: Evaluated)
    ensures r.Got? ==> |r.rest| <= |choices|
    decreases e
  {
    match e
    case Const => Got(Other, env, choices, {})
    case Name(x, line) => Got(Get(env, x), env, choices, if Loads(focus, Get(env, x)) then {line} else {})
    case Attr(base, attr, line) =>
      (match Evaluate(base, focus, env, choices)
       case Stopped(l) => Stopped(l)
       case Got(v, env1, rest, l) =>
         if v == Torch && attr in focus.devices then Got(Device, env1, rest, l + Plain(focus, line)) else Got(Other, env1, rest, l))
    case Walrus(x, value) =>
      (match Evaluate(value, focus, env, choices)
       case Stopped(l) => Stopped(l)
       case Got(v, env1, rest, l) => Got(v, env1[x := v], rest, l))
    case Cond(test, thn, els) =>
      (match Evaluate(test, focus, env, choices)
       case Stopped(l) => Stopped(l)
       case Got(_, env1, rest, l) =>
         if rest == [] then Stopped(l)
         else After(l, Evaluate(if rest[0] then thn else els, focus, env1, rest[1..])))
    case BoolOp(left, right) =>
      (match Evaluate(left, focus, env, choices)
       case Stopped(l) => Stopped(l)
       case Got(v, env1, rest, l) =>
         if rest == [] then Stopped(l)
         else if rest[0] then After(l, Evaluate(right, focus, env1, rest[1..]))
         else Got(v, env1, rest[1..], l))
  }

  /** Lines executed earlier stay executed. */
  function After(l: set<nat>, r: Evaluated): (r1: Evaluated)
    ensures r.Got? <==> r1.Got?
    ensures r.Got? ==> r1.value == r.value && r1.env == r.env && r1.rest == r.rest
    ensures r1.lines == l + r.lines
  {
    match r
    case Stopped(m) => Stopped(l + m)
    case Got(v, env, rest, m) => Got(v, env, rest, l + m)
  }

  function Then(l: set<nat>, r: Ran): (r1: Ran)
    ensures r.Ended? <==> r1.Ended?
    ensures r.Ended? ==> r1.kind == r.kind && r1.env == r.env && r1.rest == r.rest
    ensures r1.lines == l + r.lines
  {
    match r
    case Cut(m) => Cut(l + m)
    case Ended(k, env, rest, m) => Ended(k, env, rest, l + m)
  }

  function Imported(kind: ImportKind): Value
  {
    match kind
    case OfTorch => Torch
    case OfTorchDevice => Torch
    case OfDevice => Device
    case AsDevice => Alias
    case FromDevice => Other
    case OfOther => Other
  }

  predicate DirectImport(kind: ImportKind)
  {
    kind == OfDevice || kind == OfTorchDevice || kind == AsDevice || kind == FromDevice
  }

  function Exec(s: Stmt, focus: Focus, env: Env, choices: seq<bool>): (r: Ran)
    ensures r.Ended? ==> |r.rest| <= |choices|
    decreases |choices|, s, 1
  {
    match s
    case Break => Ended(Broke, env, choices, {})
    case Continue => Ended(Continued, env, choices, {})
    case Import(x, kind, line) => Ended(Normal, env[x := Imported(kind)], choices, if DirectImport(kind) then Plain(focus, line) else {})
    case Del(x) => Ended(Normal, env - {x}, choices, {})
    case Assign(x, value) =>
      (match Evaluate(value, focus, env, choices)
       case Stopped(l) => Cut(l)
       case Got(v, env1, rest, l) => Ended(Normal, env1[x := v], rest, l))
    case AugAssign(x, value, line) =>
      var read := if Updates(focus, Get(env, x)) then {line} else {};
      (match Evaluate(value, focus, env, choices)
       case Stopped(l) => Cut(read + l)
       case Got(_, env1, rest, l) => Ended(Normal, env1[x := Other], rest, read + l))
    case Eval(value) =>
      (match Evaluate(value, focus, env, choices)
       case Stopped(l) => Cut(l)
       case Got(_, env1, rest, l) => Ended(Normal, env1, rest, l))
    case Raise(value) =>
      (match Evaluate(value, focus, env, choices)
       case Stopped(l) => Cut(l)
       case Got(_, env1, rest, l) => Ended(Raised, env1, rest, l))
    case If(test, body, orelse) =>
      (match Evaluate(test, focus, env, choices)
       case Stopped(l) => Cut(l)
       case Got(_, env1, rest, l) =>
         if rest == [] then Cut(l)
         else Then(l, ExecBlock(if rest[0] then body else orelse, focus, env1, rest[1..])))
    case While(_, _, _) => ExecLoop(s, focus, env, choices)
  }

  function ExecBlock(b: seq<Stmt>, focus: Focus, env: Env, choices: seq<bool>): (r: Ran)
    ensures r.Ended? ==> |r.rest| <= |choices|
    decreases |choices|, b, 1
  {
    if b == [] then Ended(Normal, env, choices, {})
    else
      var r := Exec(b[0], focus, env, choices);
      if r.Cut? || r.kind != Normal then r
      else Then(r.lines, ExecBlock(b[1..], focus, r.env, r.rest))
  }

  function ExecLoop(w: Stmt, focus: Focus, env: Env, choices: seq<bool>): (r: Ran)
    requires w.While?
    ensures r.Ended? ==> |r.rest| <= |choices|
    decreases |choices|, w, 0
  {
    match Evaluate(w.test, focus, env, choices)
    case Stopped(l) => Cut(l)
    case Got(_, env1, rest, l) =>
      if rest == [] then Cut(l)
      else if !rest[0] then Then(l, ExecBlock(w.orelse, focus, env1, rest[1..]))
      else
        var r := ExecBlock(w.body, focus, env1, rest[1..]);
        if r.Cut? || r.kind == Raised then Then(l, r)
        else if r.kind == Broke then Then(l, Ended(Normal, r.env, r.rest, r.lines))
        else Then(l + r.lines, ExecLoop(w, focus, r.env, r.rest))
  }
}
