/**
 What a completion says of the calls behind it, and which workers make them:
 two more invariants over every run, on top of the connector's own.
 */
module ConnectorOutcomes {
  import opened Connector
  import opened ConnectorProof
  import opened ConnectorRuns

  // ---------------------------------------------------------- thrown calls

  /** A raising tile has a call that threw its error, and SET and EXISTS calls do not throw unnoticed. */
  ghost predicate Blamed(b: Batch)
  {
    && (forall t :: t in b.raised ==> ThrewSome(b, b.raised[t]))
    && (forall i :: i in b.outcomes && b.outcomes[i].Threw? && (b.op == Set || b.op == Exists) ==> b.raised != map[])
  }

  ghost predicate ThrewSome(b: Batch, error: string)
  {
    exists i :: i in b.outcomes && b.outcomes[i] == Threw(error)
  }

  /** Nothing about the calls differs. */
  ghost predicate SameCalls(b: Batch, b1: Batch)
  {
    b1.op == b.op && b1.outcomes == b.outcomes && b1.raised == b.raised
  }

  lemma SameBlame(b: Batch, b1: Batch)
    requires Blamed(b) && SameCalls(b, b1)
    ensures Blamed(b1)
  {
    forall t | t in b1.raised
      ensures ThrewSome(b1, b1.raised[t])
    {
      assert ThrewSome(b, b.raised[t]);
    }
  }

  lemma CalledBlamed(b: Batch, t: nat, i: nat, o: Outcome)
    requires Blamed(b) && i !in b.outcomes
    ensures Blamed(Called(b, t, i, o))
  {
    var b1 := Called(b, t, i, o);
    if o.Threw? && (b.op == Set || b.op == Exists) {
      assert t in b1.raised;
    } else {
      assert b1.raised == b.raised;
    }
    forall u | u in b1.raised
      ensures ThrewSome(b1, b1.raised[u])
    {
      if u == t && o.Threw? && b1.raised[u] == o.error {
        assert b1.outcomes[i] == Threw(b1.raised[u]);
      } else {
        assert ThrewSome(b, b.raised[u]);
        var k :| k in b.outcomes && b.outcomes[k] == Threw(b.raised[u]);
        assert b1.outcomes[k] == b.outcomes[k];
      }
    }
  }

  ghost predicate AllBlamed(batches: map<nat, Batch>)
  {
    forall f :: f in batches ==> Blamed(batches[f])
  }

  lemma BlamedSet(batches: map<nat, Batch>, f: nat, b: Batch)
    requires AllBlamed(batches) && Blamed(b)
    ensures AllBlamed(batches[f := b])
  {
  }

  // ------------------------------------------------------------------- lanes

  /** The worker serves the queue of the tile's operation: its own lane if it has one. */
  predicate AtHome(p: Worker, queue: QueueId, lanes: set<Op>, batches: map<nat, Batch>)
  {
    HoldsSome(p) ==>
      && p.tile.future in batches
      && var op := batches[p.tile.future].op;
         queue == if op in lanes then Lane(op) else Shared
  }

  ghost predicate AllAtHome(workers: map<nat, Worker>, home: map<nat, QueueId>, lanes: set<Op>, batches: map<nat, Batch>)
  {
    forall w :: w in workers ==> w in home && AtHome(workers[w], home[w], lanes, batches)
  }

  ghost predicate SameOps(batches: map<nat, Batch>, batches1: map<nat, Batch>)
  {
    forall f :: f in batches ==> f in batches1 && batches1[f].op == batches[f].op
  }

  lemma HomeKept(workers: map<nat, Worker>, home: map<nat, QueueId>, lanes: set<Op>, batches: map<nat, Batch>, batches1: map<nat, Batch>)
    requires AllAtHome(workers, home, lanes, batches) && SameOps(batches, batches1)
    ensures AllAtHome(workers, home, lanes, batches1)
  {
    forall w | w in workers
      ensures w in home && AtHome(workers[w], home[w], lanes, batches1)
    {
      assert AtHome(workers[w], home[w], lanes, batches);
    }
  }

  lemma HomeSet(workers: map<nat, Worker>, home: map<nat, QueueId>, lanes: set<Op>, batches: map<nat, Batch>, w: nat, p: Worker)
    requires AllAtHome(workers, home, lanes, batches) && w in workers && AtHome(p, home[w], lanes, batches)
    ensures AllAtHome(workers[w := p], home, lanes, batches)
  {
  }

  // ------------------------------------------------------------------- steps

  ghost predicate Traced(s: State)
  {
    AllBlamed(s.batches) && AllAtHome(s.workers, s.home, s.lanes, s.batches)
  }

  /** The state with worker w and batch f changed, and nothing else these invariants read. */
  ghost predicate Touched(s: State, s1: State, w: nat, p: Worker, f: nat, b: Batch)
  {
    && s1.home == s.home && s1.lanes == s.lanes
    && s1.workers == s.workers[w := p] && s1.batches == s.batches[f := b]
  }

  lemma TouchTraced(s: State, s1: State, w: nat, p: Worker, f: nat, b: Batch)
    requires Traced(s) && Touched(s, s1, w, p, f, b) && w in s.workers && f in s.batches
    requires Blamed(b) && b.op == s.batches[f].op
    requires HoldsSome(p) ==> HoldsSome(s.workers[w]) && p.tile == s.workers[w].tile
    ensures Traced(s1)
  {
    BlamedSet(s.batches, f, b);
    HomeSet(s.workers, s.home, s.lanes, s.batches, w, p);
    HomeKept(s.workers[w := p], s.home, s.lanes, s.batches, s.batches[f := b]);
  }

  /** A batch that changed in nothing about its calls. */
  lemma CalmTraced(s: State, s1: State, w: nat, p: Worker, f: nat, b: Batch)
    requires Traced(s) && Touched(s, s1, w, p, f, b) && w in s.workers && f in s.batches && SameCalls(s.batches[f], b)
    requires HoldsSome(p) ==> HoldsSome(s.workers[w]) && p.tile == s.workers[w].tile
    ensures Traced(s1)
  {
    SameBlame(s.batches[f], b);
    TouchTraced(s, s1, w, p, f, b);
  }

  lemma WorkerTraced(s: State, s1: State, w: nat, p: Worker)
    requires Traced(s) && w in s.workers && s1.workers == s.workers[w := p]
    requires s1.home == s.home && s1.lanes == s.lanes && s1.batches == s.batches
    requires HoldsSome(p) ==> HoldsSome(s.workers[w]) && p.tile == s.workers[w].tile
    ensures Traced(s1)
  {
    HomeSet(s.workers, s.home, s.lanes, s.batches, w, p);
  }

  lemma SubmitTraced(s: State, u: nat, op: Op, n: nat, k: nat)
    requires BatchesOk(s.batches, s.nextId) && Traced(s) && CanSubmit(s, u, n, k)
    ensures Traced(DoSubmit(s, u, op, n, k))
  {
    assert s.nextId !in s.batches;
    BlamedSet(s.batches, s.nextId, NewBatch(op, n, k));
    HomeKept(s.workers, s.home, s.lanes, s.batches, s.batches[s.nextId := NewBatch(op, n, k)]);
  }

  lemma TakeTraced(s: State, w: nat)
    requires QueuesOk(s.queues, s.lanes, s.batches, s.loc) && Traced(s) && CanTake(s, w)
    ensures Traced(DoTake(s, w))
  {
    var t := s.queues[s.home[w]][0];
    assert QueuedOk(s.home[w], t, s.lanes, s.batches, s.loc);
    HomeSet(s.workers, s.home, s.lanes, s.batches, w, Running(t, 0));
  }

  lemma CallTraced(s: State, w: nat, o: Outcome)
    requires Traced(s) && CanCall(s, w)
    requires var t := s.workers[w].tile; s.batches[t.future].starts[t.index] + s.workers[w].done !in s.batches[t.future].outcomes
    ensures Traced(DoCall(s, w, o))
  {
    var t := s.workers[w].tile;
    var b := s.batches[t.future];
    var i := b.starts[t.index] + s.workers[w].done;
    CalledBlamed(b, t.index, i, o);
    TouchTraced(s, DoCall(s, w, o), w, AfterCall(s.workers[w], b.op, o), t.future, Called(b, t.index, i, o));
  }

  lemma FailTraced(s: State, step: Step)
    requires Traced(s) && (step.CheckStop? || step.MarkFailed? || step.RecordError?) && Enabled(s, step)
    ensures Traced(Apply(s, step))
  {
    var (w, s1) := (step.worker, Apply(s, step));
    var f := s.workers[w].tile.future;
    match step
    case CheckStop(_) => WorkerTraced(s, s1, w, s1.workers[w]);
    case MarkFailed(_) => CalmTraced(s, s1, w, s1.workers[w], f, s1.batches[f]);
    case RecordError(_) =>
      if s.batches[f].firstError == "" {
        CalmTraced(s, s1, w, s1.workers[w], f, s1.batches[f]);
      } else {
        WorkerTraced(s, s1, w, s1.workers[w]);
      }
  }

  lemma CloseTraced(s: State, step: Step)
    requires Traced(s) && (step.Count? || step.Push?) && Enabled(s, step)
    ensures Traced(Apply(s, step))
  {
    var (w, s1) := (step.worker, Apply(s, step));
    var f := if step.Count? then s.workers[w].tile.future else s.workers[w].completion.future;
    CalmTraced(s, s1, w, s1.workers[w], f, s1.batches[f]);
  }

  lemma AloneTraced(s: State, step: Step)
    requires Traced(s) && Enabled(s, step)
    requires step.Finish? || step.Build? || step.Exchange? || step.Notify? || step.Exit? || step.Crash?
    ensures Traced(Apply(s, step))
  {
    var s1 := Apply(s, step);
    WorkerTraced(s, s1, step.worker, s1.workers[step.worker]);
  }

  lemma QuietTraced(s: State, step: Step)
    requires Traced(s) && Enabled(s, step)
    requires step.Enqueue? || step.Consume? || step.Pop? || step.ObserveEmpty? || step.Stop?
    ensures Traced(Apply(s, step))
  {
  }

  lemma StepTraced(s: State, step: Step)
    requires Inv(s) && Traced(s) && Enabled(s, step)
    ensures Traced(Apply(s, step))
  {
    if step.Submit? {
      SubmitTraced(s, step.submitter, step.op, step.items, step.tiles);
    } else if step.Take? {
      TakeTraced(s, step.worker);
    } else if step.Call? {
      HeldFacts(s, step.worker);
      CallTraced(s, step.worker, step.outcome);
    } else if step.CheckStop? || step.MarkFailed? || step.RecordError? {
      FailTraced(s, step);
    } else if step.Count? || step.Push? {
      CloseTraced(s, step);
    } else if step.Enqueue? || step.Consume? || step.Pop? || step.ObserveEmpty? || step.Stop? {
      QuietTraced(s, step);
    } else {
      AloneTraced(s, step);
    }
  }

  lemma {:induction false} RunTraced(s: State, steps: seq<Step>)
    requires Inv(s) && Traced(s) && IsRun(s, steps)
    ensures Traced(After(s, steps))
    decreases |steps|
  {
    if steps != [] {
      StepKeeps(s, steps[0]);
      StepTraced(s, steps[0]);
      RunTraced(Apply(s, steps[0]), steps[1..]);
    }
  }

  lemma ReachableTraced(s: State)
    requires Reachable(s)
    ensures Traced(s)
  {
    var lanes, home, steps :| ValidHomes(home) && IsRun(Init(lanes, home), steps) && s == After(Init(lanes, home), steps);
    InitInv(lanes, home);
    RunTraced(Init(lanes, home), steps);
  }

  // ---------------------------------------------------------------- theorems

  /** Some call of the batch threw. */
  ghost predicate SomeThrew(b: Batch)
  {
    exists i :: i in b.outcomes && b.outcomes[i].Threw?
  }

  /** A completion is not ok exactly when its operation is SET or EXISTS and a call threw; then it carries the error of such a call, and otherwise none. */
  lemma OkIffNoCallThrew(s: State, k: nat)
    requires Reachable(s) && k < |s.emitted|
    ensures s.emitted[k].future in s.batches
    ensures var (b, c) := (s.batches[s.emitted[k].future], s.emitted[k]);
            && (!c.ok <==> (b.op == Set || b.op == Exists) && SomeThrew(b))
            && (if c.ok then c.error == "" else ThrewSome(b, c.error))
  {
    OkIffNoTileRaised(s, k);
    ReachableInv(s);
    EmittedBatch(s, k);
    ReachableTraced(s);
    var (b, c) := (s.batches[s.emitted[k].future], s.emitted[k]);
    assert Blamed(b);
    if !c.ok {
      var t :| t in b.raised && b.raised[t] == c.error;
      assert ThrewSome(b, b.raised[t]);
    }
  }

  /** A tile is executed only by a worker of its operation's lane, or of the shared queue when it has none. */
  lemma LaneWorkers(s: State, w: nat)
    requires Reachable(s) && w in s.workers && s.workers[w].Running?
    ensures w in s.home && s.workers[w].tile.future in s.batches
    ensures var op := s.batches[s.workers[w].tile.future].op;
            s.home[w] == if op in s.lanes then Lane(op) else Shared
  {
    ReachableTraced(s);
    assert AtHome(s.workers[w], s.home[w], s.lanes, s.batches);
  }
}
