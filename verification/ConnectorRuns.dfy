/**
 What holds in every run of the connector: any number of submitters, workers
 and drains, in any interleaving, with stops and crashes.
 */
module ConnectorRuns {
  import opened Tiling
  import opened Connector
  import opened ConnectorProof

  predicate TileStep(step: Step)
  {
    step.Take? || step.Call? || step.Finish? || step.CheckStop? || step.MarkFailed? || step.RecordError?
  }

  predicate AnnounceStep(step: Step)
  {
    step.Count? || step.Push?
  }

  lemma TileStepKeeps(s: State, step: Step)
    requires Inv(s) && TileStep(step) && Enabled(s, step)
    ensures Inv(Apply(s, step))
  {
    if step.Take? || step.Call? || step.Finish? {
      WorkStepKeeps(s, step);
    } else {
      FailStepKeeps(s, step);
    }
  }

  lemma WorkStepKeeps(s: State, step: Step)
    requires Inv(s) && (step.Take? || step.Call? || step.Finish?) && Enabled(s, step)
    ensures Inv(Apply(s, step))
  {
    match step
    case Take(w) => TakeKeeps(s, w);
    case Call(w, o) => CallKeeps(s, w, o);
    case Finish(w) => FinishKeeps(s, w);
  }

  lemma FailStepKeeps(s: State, step: Step)
    requires Inv(s) && (step.CheckStop? || step.MarkFailed? || step.RecordError?) && Enabled(s, step)
    ensures Inv(Apply(s, step))
  {
    match step
    case CheckStop(w) => CheckStopKeeps(s, w);
    case MarkFailed(w) => MarkFailedKeeps(s, w);
    case RecordError(w) => RecordErrorKeeps(s, w);
  }

  lemma AnnounceStepKeeps(s: State, step: Step)
    requires Inv(s) && AnnounceStep(step) && Enabled(s, step)
    ensures Inv(Apply(s, step))
  {
    match step
    case Count(w) => CountKeeps(s, w);
    case Push(w) => PushKeeps(s, w);
  }

  lemma SignalStepKeeps(s: State, step: Step)
    requires Inv(s) && (step.Build? || step.Exchange? || step.Notify?) && Enabled(s, step)
    ensures Inv(Apply(s, step))
  {
    if step.Build? {
      BuildKeeps(s, step.worker);
    } else if step.Exchange? {
      ExchangeKeeps(s, step.worker);
    } else {
      NotifyKeeps(s, step.worker);
    }
  }

  lemma OtherStepKeeps(s: State, step: Step)
    requires Inv(s) && !TileStep(step) && !AnnounceStep(step) && !step.Build? && !step.Exchange? && !step.Notify? && Enabled(s, step)
    ensures Inv(Apply(s, step))
  {
    match step
    case Submit(u, op, n, k) => SubmitKeeps(s, u, op, n, k);
    case Enqueue(u) => EnqueueKeeps(s, u);
    case Exit(w) => ExitKeeps(s, w);
    case Crash(w) => CrashKeeps(s, w);
    case Consume(d) => ConsumeKeeps(s, d);
    case Pop(d) => PopKeeps(s, d);
    case ObserveEmpty(d) => ObserveEmptyKeeps(s, d);
    case Stop => StopKeeps(s);
  }

  /** Every enabled step keeps the invariant. */
  lemma StepKeeps(s: State, step: Step)
    requires Inv(s) && Enabled(s, step)
    ensures Inv(Apply(s, step))
  {
    if TileStep(step) {
      TileStepKeeps(s, step);
    } else if AnnounceStep(step) {
      AnnounceStepKeeps(s, step);
    } else if step.Build? || step.Exchange? || step.Notify? {
      SignalStepKeeps(s, step);
    } else {
      OtherStepKeeps(s, step);
    }
  }

  /** steps can be taken one after the other from s. */
  ghost predicate IsRun(s: State, steps: seq<Step>)
    decreases |steps|
  {
    steps == [] || (Enabled(s, steps[0]) && IsRun(Apply(s, steps[0]), steps[1..]))
  }

  ghost function After(s: State, steps: seq<Step>): State
    requires IsRun(s, steps)
    decreases |steps|
  {
    if steps == [] then s else After(Apply(s, steps[0]), steps[1..])
  }

  ghost predicate ValidHomes(home: map<nat, QueueId>)
  {
    forall w :: w in home ==> home[w] in ALL_QUEUES
  }

  lemma InitInv(lanes: set<Op>, home: map<nat, QueueId>)
    requires ValidHomes(home)
    ensures Inv(Init(lanes, home))
  {
    InitPlacement(lanes, home);
    InitActivity(lanes, home);
  }

  lemma InitPlacement(lanes: set<Op>, home: map<nat, QueueId>)
    ensures Placement(Init(lanes, home))
  {
  }

  lemma InitActivity(lanes: set<Op>, home: map<nat, QueueId>)
    requires ValidHomes(home)
    ensures Activity(Init(lanes, home))
  {
  }

  lemma {:induction false} RunKeeps(s: State, steps: seq<Step>)
    requires Inv(s) && IsRun(s, steps)
    ensures Inv(After(s, steps))
    decreases |steps|
  {
    if steps != [] {
      StepKeeps(s, steps[0]);
      RunKeeps(Apply(s, steps[0]), steps[1..]);
    }
  }

  /** s is reached by some run of a connector. */
  ghost predicate Reachable(s: State)
  {
    exists lanes, home, steps :: ValidHomes(home) && IsRun(Init(lanes, home), steps) && s == After(Init(lanes, home), steps)
  }

  lemma ReachableInv(s: State)
    requires Reachable(s)
    ensures Inv(s)
  {
    var lanes, home, steps :| ValidHomes(home) && IsRun(Init(lanes, home), steps) && s == After(Init(lanes, home), steps);
    InitInv(lanes, home);
    RunKeeps(Init(lanes, home), steps);
  }

  // --------------------------------------------------------------- theorems

  /** No lost wakeup: an undrained completion leaves the fd readable once nobody is signalling or draining. */
  lemma NoLostWakeup(s: State)
    requires Reachable(s)
    requires s.completions != [] && s.draining == {}
    requires forall w :: w in s.workers ==> !s.workers[w].Pushed? && !s.workers[w].MustNotify?
    ensures s.readable
  {
    ReachableInv(s);
  }

  /** Everything pushed is drained exactly once, in order. */
  lemma CompletionsConserved(s: State)
    requires Reachable(s)
    ensures s.emitted == s.delivered + s.completions
  {
    ReachableInv(s);
  }

  /** At most one completion per future id. */
  lemma AtMostOnce(s: State, i: nat, j: nat)
    requires Reachable(s) && i < |s.emitted| && j < |s.emitted| && s.emitted[i].future == s.emitted[j].future
    ensures i == j
  {
    ReachableInv(s);
    assert s.batches[s.emitted[i].future].stage == EmittedAt(i);
    assert s.batches[s.emitted[j].future].stage == EmittedAt(j);
  }

  /** A completion is pushed only when every tile of its batch has been counted, and it reports the batch as it then is. */
  lemma EmittedBatch(s: State, k: nat)
    requires Inv(s) && k < |s.emitted|
    ensures var f := s.emitted[k].future;
            && f in s.batches && BatchOk(s.batches[f]) && s.batches[f].left == {}
            && s.emitted[k] == CompletionOf(f, s.batches[f])
            && forall i :: 0 <= i < s.batches[f].tiles ==> Tile(f, i) in s.loc && s.loc[Tile(f, i)] == Counted
  {
    var f := s.emitted[k].future;
    assert s.batches[f].stage == EmittedAt(k);
    assert StageOk(f, s.batches[f], s.workers, s.emitted);
    forall i | 0 <= i < s.batches[f].tiles
      ensures Tile(f, i) in s.loc && s.loc[Tile(f, i)] == Counted
    {
      assert PlaceOk(s.batches[f], Tile(f, i).index, s.loc[Tile(f, i)]);
    }
  }

  lemma OnlyAfterAllTiles(s: State, k: nat)
    requires Reachable(s) && k < |s.emitted|
    ensures var f := s.emitted[k].future;
            f in s.batches && forall i :: 0 <= i < s.batches[f].tiles ==> Tile(f, i) in s.loc && s.loc[Tile(f, i)] == Counted
  {
    ReachableInv(s);
    EmittedBatch(s, k);
  }

  /** With every tile settled: a failure is on record exactly when a tile raised, and the message is one of theirs. */
  lemma AllSettled(b: Batch)
    requires BatchOk(b) && b.left == {}
    ensures b.anyFailed <==> b.raised != map[]
    ensures b.anyFailed ==> exists t :: t in b.raised && b.raised[t] == b.firstError
  {
    if b.raised != map[] {
      var t :| t in b.raised;
      assert Settled(b, t);
      if b.firstError == "" {
        assert b.raised[t] == "";
      }
    }
  }

  /** ok holds exactly when no tile raised; otherwise the error is a raising tile's; GET and DELETE never fail. */
  lemma OkIffNoTileRaised(s: State, k: nat)
    requires Reachable(s) && k < |s.emitted|
    ensures s.emitted[k].future in s.batches
    ensures var b := s.batches[s.emitted[k].future];
            && (s.emitted[k].ok <==> b.raised == map[])
            && (!s.emitted[k].ok ==> exists t :: t in b.raised && b.raised[t] == s.emitted[k].error)
            && (b.op == Get || b.op == Delete ==> s.emitted[k].ok)
  {
    ReachableInv(s);
    EmittedBatch(s, k);
    AllSettled(s.batches[s.emitted[k].future]);
  }

  /** What the result bytes of a batch say, call by call. */
  ghost predicate BytesTell(b: Batch, bytes: seq<nat>)
  {
    if b.op == Set then bytes == []
    else && |bytes| == b.items
         && forall i :: 0 <= i < b.items ==>
              && (bytes[i] == 0 || bytes[i] == 1)
              && (bytes[i] == 1 <==> i in b.outcomes && (if b.op == Get then b.outcomes[i].Answered? else b.outcomes[i] == Answered(true)))
  }

  lemma ResultsTell(b: Batch)
    requires Results(b)
    ensures BytesTell(b, if b.op == Set then [] else b.results)
  {
  }

  /**
   Byte i of a GET, EXISTS or DELETE completion is the outcome of key i's one
   call: 1 for a GET that did not throw, for a key that EXISTS found or DELETE
   removed, and 0 otherwise.  When the completion is ok every key was called.
   */
  lemma BytesAreOutcomes(s: State, k: nat)
    requires Reachable(s) && k < |s.emitted|
    ensures s.emitted[k].future in s.batches
    ensures var b := s.batches[s.emitted[k].future];
            && BytesTell(b, s.emitted[k].bytes)
            && (s.emitted[k].ok ==> forall i :: 0 <= i < b.items ==> i in b.outcomes)
  {
    ReachableInv(s);
    EmittedBatch(s, k);
    var b := s.batches[s.emitted[k].future];
    ResultsTell(b);
    if s.emitted[k].ok {
      AllCalled(b);
    }
  }

  lemma AllCalled(b: Batch)
    requires BatchOk(b) && b.left == {} && !b.anyFailed
    ensures forall i :: 0 <= i < b.items ==> i in b.outcomes
  {
    AllSettled(b);
    forall i | 0 <= i < b.items
      ensures i in b.outcomes
    {
      var t := OwnerExists(b.starts, b.items, b.tiles, i);
      assert Settled(b, t);
    }
  }

  /** A key is called at most once: a call never finds a recorded outcome. */
  lemma CalledOnce(s: State, w: nat)
    requires Reachable(s) && CanCall(s, w)
    ensures var t := s.workers[w].tile;
            s.batches[t.future].starts[t.index] + s.workers[w].done !in s.batches[t.future].outcomes
  {
    ReachableInv(s);
    HeldFacts(s, w);
  }

  /** Nothing is being submitted, queued, executed or announced. */
  ghost predicate Quiet(s: State)
  {
    && s.submitters == map[]
    && (forall q :: q in s.queues ==> s.queues[q] == [])
    && (forall w :: w in s.workers ==> s.workers[w].Idle? || s.workers[w].Exited?)
  }

  ghost predicate Announced(s: State, f: nat)
  {
    exists k :: 0 <= k < |s.emitted| && s.emitted[k].future == f
  }

  /** In a quiet state every tile has been counted or lost. */
  lemma QuietTile(s: State, t: Tile)
    requires Placement(s) && Quiet(s) && t in s.loc
    ensures s.loc[t].Counted? || s.loc[t].Lost?
  {
  }

  /** In a quiet state a batch is announced or still open. */
  lemma QuietStage(s: State, f: nat)
    requires Activity(s) && Quiet(s) && f in s.batches
    ensures Shape(s.batches[f])
    ensures s.batches[f].left != {} || Announced(s, f)
  {
    assert StageOk(f, s.batches[f], s.workers, s.emitted);
  }

  /** In a quiet state an unannounced batch has a lost tile. */
  lemma QuietTileLost(s: State, f: nat) returns (i: nat)
    requires Inv(s) && Quiet(s) && f in s.batches && !Announced(s, f)
    ensures i < s.batches[f].tiles && Tile(f, i) in s.loc && s.loc[Tile(f, i)].Lost?
  {
    QuietStage(s, f);
    i :| i in s.batches[f].left;
    TilePlace(s, f, i);
    QuietTile(s, Tile(f, i));
  }

  lemma TilePlace(s: State, f: nat, i: nat)
    requires Placement(s) && f in s.batches && i < s.batches[f].tiles
    ensures Tile(f, i) in s.loc && (s.loc[Tile(f, i)].Counted? <==> i !in s.batches[f].left)
  {
    assert Tile(f, i) in s.loc;
    assert PlaceOk(s.batches[Tile(f, i).future], Tile(f, i).index, s.loc[Tile(f, i)]);
  }

  ghost predicate NoneLost(s: State, f: nat)
    requires f in s.batches
  {
    forall i :: 0 <= i < s.batches[f].tiles ==> Tile(f, i) in s.loc && !s.loc[Tile(f, i)].Lost?
  }

  /** In a quiet state a batch has been announced exactly when none of its tiles was lost. */
  lemma QuietAnnouncedIff(s: State, f: nat)
    requires Reachable(s) && Quiet(s) && f in s.batches
    ensures Announced(s, f) <==> NoneLost(s, f)
  {
    ReachableInv(s);
    if Announced(s, f) {
      AnnouncedNoneLost(s, f);
    } else {
      var i := QuietTileLost(s, f);
      assert !NoneLost(s, f);
    }
  }

  lemma AnnouncedNoneLost(s: State, f: nat)
    requires Inv(s) && f in s.batches && Announced(s, f)
    ensures NoneLost(s, f)
  {
    var k :| 0 <= k < |s.emitted| && s.emitted[k].future == f;
    EmittedBatch(s, k);
  }

  /** Exactly once: without a stop or a crash, every submitted batch of a quiet state has been announced. */
  lemma ExactlyOnce(s: State, f: nat)
    requires Reachable(s) && Quiet(s) && f in s.batches && !s.stop && !s.crashed
    ensures Announced(s, f)
  {
    ReachableInv(s);
    if !Announced(s, f) {
      var i := QuietTileLost(s, f);
      assert false;
    }
  }

  /** Steps the connector takes by itself: everything but new submissions, drains, stops and crashes. */
  predicate Internal(step: Step)
  {
    !(step.Submit? || step.Consume? || step.Pop? || step.ObserveEmpty? || step.Stop? || step.Crash?)
  }

  /** No deadlock: if nothing internal can happen and every queue still has a worker, the state is quiet. */
  lemma StuckIsQuiet(s: State)
    requires Reachable(s)
    requires forall step :: Internal(step) ==> !Enabled(s, step)
    requires forall q :: q in s.queues && s.queues[q] != [] ==> exists w :: w in s.home && s.home[w] == q && w in s.workers && !s.workers[w].Exited?
    ensures Quiet(s)
  {
    ReachableInv(s);
    forall w | w in s.workers
      ensures s.workers[w].Idle? || s.workers[w].Exited?
    {
      StuckWorker(s, w);
    }
    StuckQueues(s);
  }

  lemma StuckQueues(s: State)
    requires Inv(s)
    requires forall step :: Internal(step) ==> !Enabled(s, step)
    requires forall q :: q in s.queues && s.queues[q] != [] ==> exists w :: w in s.home && s.home[w] == q && w in s.workers && s.workers[w].Idle?
    ensures s.submitters == map[] && forall q :: q in s.queues ==> s.queues[q] == []
  {
    forall u | u in s.submitters
      ensures false
    {
      assert SubmissionOk(u, s.submitters[u], s.batches, s.loc);
      assert Internal(Enqueue(u)) && CanEnqueue(s, u);
    }
    forall q | q in s.queues
      ensures s.queues[q] == []
    {
      if s.queues[q] != [] {
        var w :| w in s.home && s.home[w] == q && w in s.workers && s.workers[w].Idle?;
        assert Internal(Take(w)) && CanTake(s, w);
      }
    }
  }

  /** Every worker that is neither idle nor gone has a next step. */
  lemma StuckWorker(s: State, w: nat)
    requires Inv(s) && w in s.workers
    requires forall step :: Internal(step) ==> !Enabled(s, step)
    ensures s.workers[w].Idle? || s.workers[w].Exited?
  {
    if HoldsSome(s.workers[w]) {
      HeldFacts(s, w);
      HolderMoves(s, w);
    } else {
      AnnouncerMoves(s, w);
    }
  }

  lemma HolderMoves(s: State, w: nat)
    requires HeldFact(s, w)
    ensures exists step :: Internal(step) && Enabled(s, step)
  {
    var b := s.batches[s.workers[w].tile.future];
    match s.workers[w]
    case Running(t, done) =>
      if done < TileLen(b, t.index) {
        assert Internal(Call(w, Answered(true))) && CanCall(s, w);
      } else {
        assert Internal(Finish(w)) && CanFinish(s, w);
      }
    case Failed(_, _) => assert Internal(CheckStop(w)) && CanCheckStop(s, w);
    case Failing(_, _) => assert Internal(MarkFailed(w)) && CanMarkFailed(s, w);
    case Marked(_, _) => assert Internal(RecordError(w)) && CanRecordError(s, w);
    case Ready(_) =>
      CountShape(b, s.workers[w].tile.index, w);
      assert Internal(Count(w)) && CanCount(s, w);
  }

  lemma AnnouncerMoves(s: State, w: nat)
    requires StagesOk(s.batches, s.workers, s.emitted) && w in s.workers && !HoldsSome(s.workers[w])
    ensures s.workers[w].Idle? || s.workers[w].Exited? || exists step :: Internal(step) && Enabled(s, step)
  {
    match s.workers[w]
    case Closing(_) => assert Internal(Build(w)) && CanBuild(s, w);
    case Built(_) => assert Internal(Push(w)) && CanPush(s, w);
    case Pushed => assert Internal(Exchange(w)) && Enabled(s, Exchange(w));
    case MustNotify => assert Internal(Notify(w)) && Enabled(s, Notify(w));
    case Idle =>
    case Exited =>
  }

  /** What clients and failures may do is not restricted: submit, drain, stop and crash at any time. */
  lemma NothingForbidden(s: State, n: nat, op: Op, items: nat, tiles: nat)
    ensures n !in s.submitters && 1 <= tiles <= items ==> Enabled(s, Submit(n, op, items, tiles))
    ensures n !in s.draining ==> Enabled(s, Consume(n))
    ensures Enabled(s, Stop)
    ensures n in s.workers && (s.workers[n].Idle? || s.workers[n].Running?) ==> Enabled(s, Crash(n))
  {
  }

  /** The call for the next key of a tile may answer or throw anything. */
  lemma AnyAnswer(s: State, w: nat, o: Outcome)
    requires Reachable(s) && w in s.workers && s.workers[w].Running?
    ensures KnownTile(s, s.workers[w].tile)
    ensures var (b, t) := (s.batches[s.workers[w].tile.future], s.workers[w].tile.index);
            b.starts[t] + s.workers[w].done < b.starts[t + 1] ==> Enabled(s, Call(w, o))
  {
    ReachableInv(s);
    HeldFacts(s, w);
    HeldKnown(s, w);
  }

  lemma HeldKnown(s: State, w: nat)
    requires HeldFact(s, w)
    ensures KnownTile(s, s.workers[w].tile)
  {
  }
}
