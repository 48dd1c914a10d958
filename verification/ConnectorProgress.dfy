/**
 Left to itself the connector comes to rest: every step it takes on its own uses
 up a finite potential, and at rest every batch has been announced.
 */
module ConnectorProgress {
  import opened Connector
  import opened ConnectorRuns

  // -------------------------------------------------------------------- sums

  ghost function Sum<T(!new)>(s: set<T>, f: T -> nat): nat
  {
    if s == {} then 0 else var x :| x in s; f(x) + Sum(s - {x}, f)
  }

  /** Any element can be taken out first. */
  lemma {:induction false} SumTake<T(!new)>(s: set<T>, f: T -> nat, x: T)
    requires x in s
    ensures Sum(s, f) == f(x) + Sum(s - {x}, f)
  {
    var y :| y in s && Sum(s, f) == f(y) + Sum(s - {y}, f);
    if y != x {
      SumTake(s - {y}, f, x);
      SumTake(s - {x}, f, y);
      assert s - {y} - {x} == s - {x} - {y};
    }
  }

  lemma {:induction false} SumSame<T(!new)>(s: set<T>, f: T -> nat, g: T -> nat)
    requires forall x :: x in s ==> f(x) == g(x)
    ensures Sum(s, f) == Sum(s, g)
  {
    if s != {} {
      var x :| x in s && Sum(s, f) == f(x) + Sum(s - {x}, f);
      SumSame(s - {x}, f, g);
      SumTake(s, g, x);
    }
  }

  /** Two weightings that differ in one element differ by that much. */
  lemma SumOne<T(!new)>(s: set<T>, f: T -> nat, g: T -> nat, x: T)
    requires x in s && forall y :: y in s && y != x ==> f(y) == g(y)
    ensures Sum(s, g) + f(x) == Sum(s, f) + g(x)
  {
    SumTake(s, f, x);
    SumTake(s, g, x);
    SumSame(s - {x}, f, g);
  }

  // --------------------------------------------------------------- potential

  /** Keys of a tile. */
  function Keys(batches: map<nat, Batch>, t: Tile): nat
  {
    if t.future in batches && t.index + 1 < |batches[t.future].starts| && batches[t.future].starts[t.index] <= batches[t.future].starts[t.index + 1]
    then TileLen(batches[t.future], t.index) else 0
  }

  function PlaceWeight(batches: map<nat, Batch>, t: Tile, l: Location): nat
  {
    match l
    case Fresh(_) => 14 + Keys(batches, t)
    case Queued => 13 + Keys(batches, t)
    case _ => 0
  }

  function TileWeight(batches: map<nat, Batch>, loc: map<Tile, Location>, t: Tile): nat
  {
    if t in loc then PlaceWeight(batches, t, loc[t]) else 0
  }

  function PhaseWeight(batches: map<nat, Batch>, p: Worker): nat
  {
    match p
    case Running(t, done) => 10 + if done <= Keys(batches, t) then Keys(batches, t) - done else 0
    case Failed(_, _) => 9
    case Failing(_, _) => 8
    case Marked(_, _) => 7
    case Ready(_) => 6
    case Closing(_) => 5
    case Built(_) => 4
    case Pushed => 3
    case MustNotify => 2
    case Idle => 1
    case Exited => 0
  }

  function WorkerWeight(batches: map<nat, Batch>, workers: map<nat, Worker>, w: nat): nat
  {
    if w in workers then PhaseWeight(batches, workers[w]) else 0
  }

  /** Steps still possible without new work from outside. */
  ghost function Potential(s: State): nat
  {
    Sum(s.loc.Keys, t => TileWeight(s.batches, s.loc, t)) + Sum(s.workers.Keys, w => WorkerWeight(s.batches, s.workers, w))
  }

  /** Tiles keep their keys. */
  ghost predicate SameKeys(a: map<nat, Batch>, b: map<nat, Batch>)
  {
    forall t: Tile :: Keys(a, t) == Keys(b, t)
  }

  lemma UpdateKeys(batches: map<nat, Batch>, f: nat, b: Batch)
    requires f in batches && b.starts == batches[f].starts
    ensures SameKeys(batches, batches[f := b])
  {
  }

  lemma TilesSame(a: map<nat, Batch>, b: map<nat, Batch>, loc: map<Tile, Location>)
    requires SameKeys(a, b)
    ensures Sum(loc.Keys, t => TileWeight(a, loc, t)) == Sum(loc.Keys, t => TileWeight(b, loc, t))
  {
    SumSame(loc.Keys, t => TileWeight(a, loc, t), t => TileWeight(b, loc, t));
  }

  lemma TileMoves(a: map<nat, Batch>, b: map<nat, Batch>, loc: map<Tile, Location>, t: Tile, l: Location)
    requires SameKeys(a, b) && t in loc
    ensures Sum(loc[t := l].Keys, u => TileWeight(b, loc[t := l], u)) + PlaceWeight(a, t, loc[t])
         == Sum(loc.Keys, u => TileWeight(a, loc, u)) + PlaceWeight(a, t, l)
  {
    var loc' := loc[t := l];
    assert loc'.Keys == loc.Keys;
    SumOne(loc.Keys, u => TileWeight(a, loc, u), u => TileWeight(b, loc', u), t);
  }

  lemma WorkerMoves(a: map<nat, Batch>, b: map<nat, Batch>, workers: map<nat, Worker>, w: nat, p: Worker)
    requires SameKeys(a, b) && w in workers
    ensures Sum(workers[w := p].Keys, v => WorkerWeight(b, workers[w := p], v)) + PhaseWeight(a, workers[w])
         == Sum(workers.Keys, v => WorkerWeight(a, workers, v)) + PhaseWeight(a, p)
  {
    var workers' := workers[w := p];
    assert workers'.Keys == workers.Keys;
    SumOne(workers.Keys, v => WorkerWeight(a, workers, v), v => WorkerWeight(b, workers', v), w);
  }

  /** A worker moves to a lighter phase and nothing else gains. */
  lemma WorkerDescends(s: State, s': State, w: nat, p: Worker)
    requires w in s.workers && s'.workers == s.workers[w := p] && s'.loc == s.loc && SameKeys(s.batches, s'.batches)
    requires PhaseWeight(s.batches, p) < PhaseWeight(s.batches, s.workers[w])
    ensures Potential(s') < Potential(s)
  {
    TilesSame(s.batches, s'.batches, s.loc);
    WorkerMoves(s.batches, s'.batches, s.workers, w, p);
  }

  /** A worker and a tile move together. */
  lemma BothDescend(s: State, s': State, w: nat, p: Worker, t: Tile, l: Location)
    requires w in s.workers && s'.workers == s.workers[w := p] && t in s.loc && s'.loc == s.loc[t := l] && SameKeys(s.batches, s'.batches)
    requires PhaseWeight(s.batches, p) + PlaceWeight(s.batches, t, l) < PhaseWeight(s.batches, s.workers[w]) + PlaceWeight(s.batches, t, s.loc[t])
    ensures Potential(s') < Potential(s)
  {
    TileMoves(s.batches, s'.batches, s.loc, t, l);
    WorkerMoves(s.batches, s'.batches, s.workers, w, p);
  }

  /** A tile alone moves. */
  lemma TileDescends(s: State, s': State, t: Tile, l: Location)
    requires s'.workers == s.workers && t in s.loc && s'.loc == s.loc[t := l] && s'.batches == s.batches
    requires PlaceWeight(s.batches, t, l) < PlaceWeight(s.batches, t, s.loc[t])
    ensures Potential(s') < Potential(s)
  {
    TileMoves(s.batches, s'.batches, s.loc, t, l);
  }

  // ------------------------------------------------------------------- steps

  lemma EnqueueDescends(s: State, u: nat)
    requires SubmissionsOk(s.submitters, s.batches, s.loc) && CanEnqueue(s, u)
    ensures Potential(DoEnqueue(s, u)) < Potential(s)
  {
    var sub := s.submitters[u];
    assert SubmissionOk(u, sub, s.batches, s.loc);
    TileDescends(s, DoEnqueue(s, u), Tile(sub.future, sub.next), Queued);
  }

  lemma TakeDescends(s: State, w: nat)
    requires QueuesOk(s.queues, s.lanes, s.batches, s.loc) && CanTake(s, w)
    ensures Potential(DoTake(s, w)) < Potential(s)
  {
    var t := s.queues[s.home[w]][0];
    assert QueuedOk(s.home[w], t, s.lanes, s.batches, s.loc);
    BothDescend(s, DoTake(s, w), w, Running(t, 0), t, Held(w));
  }

  lemma CallDescends(s: State, w: nat, o: Outcome)
    requires CanCall(s, w)
    ensures Potential(DoCall(s, w, o)) < Potential(s)
  {
    var t := s.workers[w].tile;
    var b := s.batches[t.future];
    var b1 := Called(b, t.index, b.starts[t.index] + s.workers[w].done, o);
    UpdateKeys(s.batches, t.future, b1);
    WorkerDescends(s, DoCall(s, w, o), w, AfterCall(s.workers[w], b.op, o));
  }

  lemma CheckStopDescends(s: State, w: nat)
    requires HeldOk(s.workers, s.loc) && CanCheckStop(s, w)
    ensures Potential(DoCheckStop(s, w)) < Potential(s)
  {
    var t := s.workers[w].tile;
    if s.stop {
      BothDescend(s, DoCheckStop(s, w), w, Exited, t, Lost);
    } else {
      WorkerDescends(s, DoCheckStop(s, w), w, Failing(t, s.workers[w].error));
    }
  }

  lemma MarkDescends(s: State, w: nat)
    requires CanMarkFailed(s, w)
    ensures Potential(DoMarkFailed(s, w)) < Potential(s)
  {
    var t := s.workers[w].tile;
    UpdateKeys(s.batches, t.future, s.batches[t.future].(anyFailed := true));
    WorkerDescends(s, DoMarkFailed(s, w), w, Marked(t, s.workers[w].error));
  }

  lemma RecordDescends(s: State, w: nat)
    requires CanRecordError(s, w)
    ensures Potential(DoRecordError(s, w)) < Potential(s)
  {
    var t := s.workers[w].tile;
    UpdateKeys(s.batches, t.future, s.batches[t.future].(firstError := s.workers[w].error));
    WorkerDescends(s, DoRecordError(s, w), w, Ready(t));
  }

  lemma CountDescends(s: State, w: nat)
    requires HeldOk(s.workers, s.loc) && CanCount(s, w)
    ensures Potential(DoCount(s, w)) < Potential(s)
  {
    var t := s.workers[w].tile;
    UpdateKeys(s.batches, t.future, CountedBatch(s.batches[t.future], t.index, w));
    BothDescend(s, DoCount(s, w), w, if s.batches[t.future].remaining == 1 then Closing(t.future) else Idle, t, Counted);
  }

  lemma PushDescends(s: State, w: nat)
    requires CanPush(s, w)
    ensures Potential(DoPush(s, w)) < Potential(s)
  {
    var f := s.workers[w].completion.future;
    UpdateKeys(s.batches, f, s.batches[f].(stage := EmittedAt(|s.emitted|)));
    WorkerDescends(s, DoPush(s, w), w, Pushed);
  }

  /** Steps in which only the worker's phase matters. */
  lemma PhaseDescends(s: State, step: Step)
    requires (step.Finish? || step.Build? || step.Exchange? || step.Notify? || step.Exit?) && Enabled(s, step)
    ensures Potential(Apply(s, step)) < Potential(s)
  {
    match step
    case Finish(w) => WorkerDescends(s, Apply(s, step), w, Ready(s.workers[w].tile));
    case Build(w) => WorkerDescends(s, Apply(s, step), w, Built(CompletionOf(s.workers[w].future, s.batches[s.workers[w].future])));
    case Exchange(w) => WorkerDescends(s, Apply(s, step), w, if s.signaled then Idle else MustNotify);
    case Notify(w) => WorkerDescends(s, Apply(s, step), w, Idle);
    case Exit(w) => WorkerDescends(s, Apply(s, step), w, Exited);
  }

  lemma TileStepDescends(s: State, step: Step)
    requires SubmissionsOk(s.submitters, s.batches, s.loc) && QueuesOk(s.queues, s.lanes, s.batches, s.loc)
    requires (step.Enqueue? || step.Take? || step.Call?) && Enabled(s, step)
    ensures Potential(Apply(s, step)) < Potential(s)
  {
    match step
    case Enqueue(u) => EnqueueDescends(s, u);
    case Take(w) => TakeDescends(s, w);
    case Call(w, o) => CallDescends(s, w, o);
  }

  lemma CloseStepDescends(s: State, step: Step)
    requires Inv(s) && (step.Count? || step.Push?) && Enabled(s, step)
    ensures Potential(Apply(s, step)) < Potential(s)
  {
    match step
    case Count(w) => CountDescends(s, w);
    case Push(w) => PushDescends(s, w);
  }

  lemma FailStepDescends(s: State, step: Step)
    requires Inv(s) && (step.CheckStop? || step.MarkFailed? || step.RecordError?) && Enabled(s, step)
    ensures Potential(Apply(s, step)) < Potential(s)
  {
    match step
    case CheckStop(w) => CheckStopDescends(s, w);
    case MarkFailed(w) => MarkDescends(s, w);
    case RecordError(w) => RecordDescends(s, w);
  }

  /** Every internal step lowers the potential. */
  lemma StepDescends(s: State, step: Step)
    requires Inv(s) && Internal(step) && Enabled(s, step)
    ensures Potential(Apply(s, step)) < Potential(s)
  {
    if step.Enqueue? || step.Take? || step.Call? {
      TileStepDescends(s, step);
    } else if step.Count? || step.Push? {
      CloseStepDescends(s, step);
    } else if step.CheckStop? || step.MarkFailed? || step.RecordError? {
      FailStepDescends(s, step);
    } else {
      PhaseDescends(s, step);
    }
  }

  ghost predicate AllInternal(steps: seq<Step>)
  {
    forall i :: 0 <= i < |steps| ==> Internal(steps[i])
  }

  // ------------------------------------------------------- everything announced

  /** Neither stopped nor crashed, and so no worker has left; every queue an operation uses has a worker. */
  ghost predicate Healthy(s: State)
  {
    && !s.stop && !s.crashed
    && (forall w :: w in s.workers ==> !s.workers[w].Exited?)
    && (forall op: Op :: Staffed(s.home, s.lanes, op))
  }

  ghost predicate Staffed(home: map<nat, QueueId>, lanes: set<Op>, op: Op)
  {
    exists w :: w in home && home[w] == QueueOf(lanes, op)
  }

  lemma StaysHealthy(s: State, step: Step)
    requires Healthy(s) && Internal(step) && Enabled(s, step)
    ensures Healthy(Apply(s, step))
  {
    var s' := Apply(s, step);
    assert s'.home == s.home && s'.lanes == s.lanes;
  }

  ghost predicate Stuck(s: State)
  {
    forall step :: Internal(step) ==> !Enabled(s, step)
  }

  lemma QueueStaffed(s: State, q: QueueId)
    requires Inv(s) && Healthy(s) && q in s.queues && s.queues[q] != []
    ensures exists w :: w in s.home && s.home[w] == q && w in s.workers && !s.workers[w].Exited?
  {
    var t := s.queues[q][0];
    assert QueuedOk(q, t, s.lanes, s.batches, s.loc);
    assert Staffed(s.home, s.lanes, s.batches[t.future].op);
    var w :| w in s.home && s.home[w] == QueueOf(s.lanes, s.batches[t.future].op);
    assert w in s.workers && !s.workers[w].Exited?;
  }

  /** A healthy connector that can do nothing more by itself has announced every batch exactly once. */
  lemma RestAnnounces(s: State, f: nat)
    requires Reachable(s) && Healthy(s) && Stuck(s) && f in s.batches
    ensures Announced(s, f)
  {
    ReachableInv(s);
    forall q | q in s.queues && s.queues[q] != []
      ensures exists w :: w in s.home && s.home[w] == q && w in s.workers && !s.workers[w].Exited?
    {
      QueueStaffed(s, q);
    }
    StuckIsQuiet(s);
    ExactlyOnce(s, f);
  }

  lemma {:induction false} ReachableStep(s: State, steps: seq<Step>, step: Step)
    requires IsRun(s, steps) && Enabled(After(s, steps), step)
    ensures IsRun(s, steps + [step]) && After(s, steps + [step]) == Apply(After(s, steps), step)
    decreases |steps|
  {
    if steps == [] {
      assert [] + [step] == [step] && [step][1..] == [];
    } else {
      ReachableStep(Apply(s, steps[0]), steps[1..], step);
      assert (steps + [step])[1..] == steps[1..] + [step] && (steps + [step])[0] == steps[0];
    }
  }

  lemma StillReachable(s: State, step: Step)
    requires Reachable(s) && Enabled(s, step)
    ensures Reachable(Apply(s, step))
  {
    var lanes, home, steps :| ValidHomes(home) && IsRun(Init(lanes, home), steps) && s == After(Init(lanes, home), steps);
    ReachableStep(Init(lanes, home), steps, step);
    assert IsRun(Init(lanes, home), steps + [step]);
  }

  /** From any reachable state, no run of internal steps is longer than the potential it starts with. */
  lemma {:induction false} InternalRunsEnd(s: State, steps: seq<Step>)
    requires Reachable(s) && IsRun(s, steps) && AllInternal(steps)
    ensures |steps| <= Potential(s)
    decreases |steps|
  {
    if steps != [] {
      assert Internal(steps[0]);
      StepsDown(s, steps[0]);
      InternalRunsEnd(Apply(s, steps[0]), steps[1..]);
    }
  }

  lemma StepsDown(s: State, step: Step)
    requires Reachable(s) && Internal(step) && Enabled(s, step)
    ensures Reachable(Apply(s, step)) && Potential(Apply(s, step)) < Potential(s)
  {
    ReachableInv(s);
    StepDescends(s, step);
    StillReachable(s, step);
  }

  /** The steps are the connector's own, and after them nothing more can happen and every batch is announced. */
  ghost predicate Settles(s: State, steps: seq<Step>)
  {
    && IsRun(s, steps) && AllInternal(steps)
    && var t := After(s, steps);
       Reachable(t) && Healthy(t) && Stuck(t) && forall f :: f in t.batches ==> Announced(t, f)
  }

  lemma SettlesAfter(s: State, step: Step, rest: seq<Step>)
    requires Internal(step) && Enabled(s, step) && Settles(Apply(s, step), rest)
    ensures Settles(s, [step] + rest)
  {
    var steps := [step] + rest;
    assert steps[1..] == rest && steps[0] == step;
  }

  /** From every healthy reachable state the connector can, by itself, reach a state where every batch is announced. */
  lemma {:induction false} EventuallyAnnounced(s: State) returns (steps: seq<Step>)
    requires Reachable(s) && Healthy(s)
    ensures Settles(s, steps)
    decreases Potential(s)
  {
    if Stuck(s) {
      steps := [];
      AllAnnounced(s);
    } else {
      var step :| Internal(step) && Enabled(s, step);
      StaysGood(s, step);
      var rest := EventuallyAnnounced(Apply(s, step));
      SettlesAfter(s, step, rest);
      steps := [step] + rest;
    }
  }

  lemma AllAnnounced(s: State)
    requires Reachable(s) && Healthy(s) && Stuck(s)
    ensures forall f :: f in s.batches ==> Announced(s, f)
  {
    forall f | f in s.batches
      ensures Announced(s, f)
    {
      RestAnnounces(s, f);
    }
  }

  lemma StaysGood(s: State, step: Step)
    requires Reachable(s) && Healthy(s) && Internal(step) && Enabled(s, step)
    ensures Reachable(Apply(s, step)) && Healthy(Apply(s, step)) && Potential(Apply(s, step)) < Potential(s)
  {
    StepsDown(s, step);
    StaysHealthy(s, step);
  }

  // --------------------------------------------------------------- delivery

  /** Batch f was drained, at exactly one position. */
  ghost predicate DeliveredOnce(s: State, f: nat)
  {
    && (exists k :: 0 <= k < |s.delivered| && s.delivered[k].future == f)
    && forall i, j :: 0 <= i < |s.delivered| && 0 <= j < |s.delivered| && s.delivered[i].future == f == s.delivered[j].future ==> i == j
  }

  /** What was announced has been drained once the queue is empty. */
  lemma EmptyQueueDelivered(s: State, f: nat)
    requires Reachable(s) && s.completions == [] && Announced(s, f)
    ensures DeliveredOnce(s, f)
  {
    CompletionsConserved(s);
    assert s.delivered + [] == s.delivered;
    forall i, j | 0 <= i < |s.delivered| && 0 <= j < |s.delivered| && s.delivered[i].future == f == s.delivered[j].future
      ensures i == j
    {
      AtMostOnce(s, i, j);
    }
  }

  /** At rest, with no drain under way and the fd not readable, nothing waits in the queue. */
  lemma RestIsDrained(s: State)
    requires Reachable(s) && Stuck(s) && s.draining == {} && !s.readable
    ensures s.completions == []
  {
    ReachableInv(s);
    forall w | w in s.workers
      ensures !s.workers[w].Pushed? && !s.workers[w].MustNotify?
    {
      StuckWorker(s, w);
    }
    if s.completions != [] {
      NoLostWakeup(s);
    }
  }

  /**
   End to end: a client that drains whenever the fd is readable gets every batch
   exactly once.
   */
  lemma AllDelivered(s: State, f: nat)
    requires Reachable(s) && Healthy(s) && Stuck(s) && s.draining == {} && !s.readable && f in s.batches
    ensures DeliveredOnce(s, f)
  {
    RestIsDrained(s);
    RestAnnounces(s, f);
    EmptyQueueDelivered(s, f);
  }
}
