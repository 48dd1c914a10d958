/**
 The native connector's submission/completion protocol as a transition system:
 submitters fan batches out into tiles, workers take, execute and count them,
 the last one announces the batch, and drains collect the announcements.  Every
 step is one atomic action of the source (a critical section, an atomic
 operation, one key's call).
 */
module Connector {
  import opened Tiling

  datatype Op = Get | Set | Exists | Delete

  /** Dedicated lane of an operation, or the shared pool. */
  datatype QueueId = Shared | Lane(op: Op)

  datatype Tile = Tile(future: nat, index: nat)

  /** What a do_single_* call did for one key. */
  datatype Outcome = Answered(yes: bool) | Threw(error: string)

  datatype Completion = Completion(future: nat, ok: bool, error: string, bytes: seq<nat>)

  datatype Stage = Open | ClosedBy(worker: nat) | EmittedAt(position: nat)

  /**
   Shared batch state.  remaining, anyFailed, firstError and results are the
   source's fields; starts are its tile boundaries; the rest is history: what
   each key's call did, which tiles raised, which are not yet counted, and how
   far the announcement has got.
   */
  datatype Batch = Batch(
    op: Op, items: nat, tiles: nat, starts: seq<nat>,
    remaining: nat, anyFailed: bool, firstError: string, results: seq<nat>,
    outcomes: map<nat, Outcome>, raised: map<nat, string>, left: set<nat>, stage: Stage)

  /** Where a worker thread stands. */
  datatype Worker =
    | Idle
    | Running(tile: Tile, done: nat)       // done keys of the tile called
    | Failed(tile: Tile, error: string)    // an exception left the tile
    | Failing(tile: Tile, error: string)   // stop was not set: failure to be recorded
    | Marked(tile: Tile, error: string)    // any_failed stored
    | Ready(tile: Tile)                    // about to decrement
    | Closing(future: nat)                 // decremented to zero
    | Built(completion: Completion)        // about to push
    | Pushed                               // about to exchange the flag
    | MustNotify                           // flag was clear: about to notify
    | Exited

  datatype Location = Fresh(submitter: nat) | Queued | Held(worker: nat) | Counted | Lost

  datatype Submission = Submission(future: nat, next: nat)

  datatype State = State(
    lanes: set<Op>, home: map<nat, QueueId>,
    nextId: nat, batches: map<nat, Batch>, submitters: map<nat, Submission>,
    queues: map<QueueId, seq<Tile>>, workers: map<nat, Worker>,
    completions: seq<Completion>, signaled: bool, readable: bool, draining: set<nat>, stop: bool,
    // history: tile locations, everything pushed, everything drained, whether a worker crashed
    loc: map<Tile, Location>, emitted: seq<Completion>, delivered: seq<Completion>, crashed: bool)

  function QueueOf(lanes: set<Op>, op: Op): QueueId
  {
    if op in lanes then Lane(op) else Shared
  }

  const ALL_QUEUES: set<QueueId> := {Shared, Lane(Get), Lane(Set), Lane(Exists), Lane(Delete)}

  function Init(lanes: set<Op>, home: map<nat, QueueId>): State
  {
    State(lanes, home, 1, map[], map[],
          map q | q in ALL_QUEUES :: [], map w | w in home :: Idle,
          [], false, false, {}, false,
          map[], [], [], false)
  }

  // ------------------------------------------------------------------ steps

  datatype Step =
    | Submit(submitter: nat, op: Op, items: nat, tiles: nat)
    | Enqueue(submitter: nat)
    | Take(worker: nat)
    | Call(worker: nat, outcome: Outcome)
    | Finish(worker: nat)
    | CheckStop(worker: nat)
    | MarkFailed(worker: nat)
    | RecordError(worker: nat)
    | Count(worker: nat)
    | Build(worker: nat)
    | Push(worker: nat)
    | Exchange(worker: nat)
    | Notify(worker: nat)
    | Exit(worker: nat)
    | Crash(worker: nat)
    | Consume(drain: nat)
    | Pop(drain: nat)
    | ObserveEmpty(drain: nat)
    | Stop

  /** SET and EXISTS let a key's exception out of the tile; GET and DELETE swallow it. */
  predicate Raises(op: Op, o: Outcome)
  {
    o.Threw? && (op == Set || op == Exists)
  }

  /** The result byte of a key. */
  function ByteOf(op: Op, o: Outcome): nat
  {
    match o
    case Threw(_) => 0
    case Answered(yes) => if op == Get || yes then 1 else 0
  }

  function TileLen(b: Batch, t: nat): nat
    requires t + 1 < |b.starts| && b.starts[t] <= b.starts[t + 1]
  {
    b.starts[t + 1] - b.starts[t]
  }

  /** The batch a worker's tile belongs to is known and the tile is one of its tiles. */
  predicate KnownTile(s: State, t: Tile)
  {
    && t.future in s.batches
    && t.index + 1 < |s.batches[t.future].starts|
    && s.batches[t.future].starts[t.index] <= s.batches[t.future].starts[t.index + 1]
  }

  predicate CanSubmit(s: State, u: nat, n: nat, k: nat) { u !in s.submitters && 1 <= k <= n }

  predicate CanEnqueue(s: State, u: nat)
  {
    && u in s.submitters && s.submitters[u].future in s.batches
    && QueueOf(s.lanes, s.batches[s.submitters[u].future].op) in s.queues
  }

  predicate IdleAt(s: State, w: nat)
  {
    w in s.workers && s.workers[w].Idle? && w in s.home && s.home[w] in s.queues
  }

  predicate CanTake(s: State, w: nat) { IdleAt(s, w) && s.queues[s.home[w]] != [] }

  predicate CanCall(s: State, w: nat)
  {
    && w in s.workers && s.workers[w].Running? && KnownTile(s, s.workers[w].tile)
    && s.workers[w].done < TileLen(s.batches[s.workers[w].tile.future], s.workers[w].tile.index)
  }

  predicate CanFinish(s: State, w: nat)
  {
    && w in s.workers && s.workers[w].Running? && KnownTile(s, s.workers[w].tile)
    && s.workers[w].done == TileLen(s.batches[s.workers[w].tile.future], s.workers[w].tile.index)
  }

  predicate CanCheckStop(s: State, w: nat) { w in s.workers && s.workers[w].Failed? }

  predicate CanMarkFailed(s: State, w: nat) { w in s.workers && s.workers[w].Failing? && s.workers[w].tile.future in s.batches }

  predicate CanRecordError(s: State, w: nat) { w in s.workers && s.workers[w].Marked? && s.workers[w].tile.future in s.batches }

  predicate CanCount(s: State, w: nat)
  {
    && w in s.workers && s.workers[w].Ready? && s.workers[w].tile.future in s.batches
    && s.batches[s.workers[w].tile.future].remaining > 0
  }

  predicate CanBuild(s: State, w: nat) { w in s.workers && s.workers[w].Closing? && s.workers[w].future in s.batches }

  predicate CanPush(s: State, w: nat) { w in s.workers && s.workers[w].Built? && s.workers[w].completion.future in s.batches }

  predicate CanExit(s: State, w: nat) { IdleAt(s, w) && s.stop && s.queues[s.home[w]] == [] }

  predicate CanCrash(s: State, w: nat) { w in s.workers && (s.workers[w].Idle? || s.workers[w].Running?) }

  predicate Enabled(s: State, step: Step)
  {
    match step
    case Submit(u, _, n, k) => CanSubmit(s, u, n, k)
    case Enqueue(u) => CanEnqueue(s, u)
    case Take(w) => CanTake(s, w)
    case Call(w, _) => CanCall(s, w)
    case Finish(w) => CanFinish(s, w)
    case CheckStop(w) => CanCheckStop(s, w)
    case MarkFailed(w) => CanMarkFailed(s, w)
    case RecordError(w) => CanRecordError(s, w)
    case Count(w) => CanCount(s, w)
    case Build(w) => CanBuild(s, w)
    case Push(w) => CanPush(s, w)
    case Exchange(w) => w in s.workers && s.workers[w].Pushed?
    case Notify(w) => w in s.workers && s.workers[w].MustNotify?
    case Exit(w) => CanExit(s, w)
    case Crash(w) => CanCrash(s, w)
    case Consume(d) => d !in s.draining
    case Pop(d) => d in s.draining && s.completions != []
    case ObserveEmpty(d) => d in s.draining && s.completions == []
    case Stop => true
  }

  function Apply(s: State, step: Step): State
    requires Enabled(s, step)
  {
    match step
    case Submit(u, op, n, k) => DoSubmit(s, u, op, n, k)
    case Enqueue(u) => DoEnqueue(s, u)
    case Take(w) => DoTake(s, w)
    case Call(w, o) => DoCall(s, w, o)
    case Finish(w) => SetWorker(s, w, Ready(s.workers[w].tile))
    case CheckStop(w) => DoCheckStop(s, w)
    case MarkFailed(w) => DoMarkFailed(s, w)
    case RecordError(w) => DoRecordError(s, w)
    case Count(w) => DoCount(s, w)
    case Build(w) => SetWorker(s, w, Built(CompletionOf(s.workers[w].future, s.batches[s.workers[w].future])))
    case Push(w) => DoPush(s, w)
    case Exchange(w) => SetWorker(s, w, if s.signaled then Idle else MustNotify).(signaled := true)
    case Notify(w) => SetWorker(s, w, Idle).(readable := true)
    case Exit(w) => SetWorker(s, w, Exited)
    case Crash(w) => DoCrash(s, w)
    case Consume(d) => s.(draining := s.draining + {d}, readable := false)
    case Pop(d) => s.(completions := s.completions[1..], delivered := s.delivered + [s.completions[0]])
    // under the lock: the queue is still empty, so the re-check after the store finds nothing
    case ObserveEmpty(d) => s.(draining := s.draining - {d}, signaled := false)
    case Stop => s.(stop := true)
  }

  function SetWorker(s: State, w: nat, p: Worker): State
  {
    s.(workers := s.workers[w := p])
  }

  function Upto(k: nat): (s: set<nat>)
    ensures |s| == k && forall i :: i in s <==> 0 <= i < k
  {
    if k == 0 then {} else Upto(k - 1) + {k - 1}
  }

  function NewBatch(op: Op, n: nat, k: nat): Batch
    requires 1 <= k <= n
  {
    Batch(op, n, k, Starts(n, k), k, false, "", if op == Set then [] else seq(n, _ => 0),
          map[], map[], Upto(k), Open)
  }

  function DoSubmit(s: State, u: nat, op: Op, n: nat, k: nat): State
    requires 1 <= k <= n
  {
    var f := s.nextId;
    s.(nextId := f + 1,
       batches := s.batches[f := NewBatch(op, n, k)],
       submitters := s.submitters[u := Submission(f, 0)],
       loc := s.loc + map i | 0 <= i < k :: Tile(f, i) := Fresh(u))
  }

  function DoEnqueue(s: State, u: nat): State
    requires CanEnqueue(s, u)
  {
    var sub := s.submitters[u];
    var b := s.batches[sub.future];
    var t := Tile(sub.future, sub.next);
    var q := QueueOf(s.lanes, b.op);
    s.(queues := s.queues[q := s.queues[q] + [t]],
       loc := s.loc[t := Queued],
       submitters := if sub.next + 1 < b.tiles then s.submitters[u := Submission(sub.future, sub.next + 1)]
                     else s.submitters - {u})
  }

  function DoTake(s: State, w: nat): State
    requires CanTake(s, w)
  {
    var q := s.home[w];
    var t := s.queues[q][0];
    s.(queues := s.queues[q := s.queues[q][1..]],
       loc := s.loc[t := Held(w)],
       workers := s.workers[w := Running(t, 0)])
  }

  function DoCall(s: State, w: nat, o: Outcome): State
    requires CanCall(s, w)
  {
    var t := s.workers[w].tile;
    var b := s.batches[t.future];
    s.(batches := s.batches[t.future := Called(b, t.index, b.starts[t.index] + s.workers[w].done, o)],
       workers := s.workers[w := AfterCall(s.workers[w], b.op, o)])
  }

  /** The batch after key i of tile t was called with outcome o. */
  function Called(b: Batch, t: nat, i: nat, o: Outcome): Batch
  {
    b.(outcomes := b.outcomes[i := o],
       results := if b.op != Set && !Raises(b.op, o) && i < |b.results| then b.results[i := ByteOf(b.op, o)] else b.results,
       raised := if Raises(b.op, o) then b.raised[t := o.error] else b.raised)
  }

  function AfterCall(p: Worker, op: Op, o: Outcome): Worker
    requires p.Running?
  {
    if Raises(op, o) then Failed(p.tile, o.error) else Running(p.tile, p.done + 1)
  }

  function DoCheckStop(s: State, w: nat): State
    requires CanCheckStop(s, w)
  {
    var t := s.workers[w].tile;
    if s.stop then s.(workers := s.workers[w := Exited], loc := s.loc[t := Lost])
    else s.(workers := s.workers[w := Failing(t, s.workers[w].error)])
  }

  function DoMarkFailed(s: State, w: nat): State
    requires CanMarkFailed(s, w)
  {
    var t := s.workers[w].tile;
    s.(batches := s.batches[t.future := s.batches[t.future].(anyFailed := true)],
       workers := s.workers[w := Marked(t, s.workers[w].error)])
  }

  function DoRecordError(s: State, w: nat): State
    requires CanRecordError(s, w)
  {
    var t := s.workers[w].tile;
    var b := s.batches[t.future];
    s.(batches := if b.firstError == "" then s.batches[t.future := b.(firstError := s.workers[w].error)] else s.batches,
       workers := s.workers[w := Ready(t)])
  }

  function DoCount(s: State, w: nat): State
    requires CanCount(s, w)
  {
    var t := s.workers[w].tile;
    var b := s.batches[t.future];
    s.(batches := s.batches[t.future := CountedBatch(b, t.index, w)],
       loc := s.loc[t := Counted],
       workers := s.workers[w := if b.remaining == 1 then Closing(t.future) else Idle])
  }

  /** The batch after tile t was counted by worker w. */
  function CountedBatch(b: Batch, t: nat, w: nat): Batch
    requires b.remaining > 0
  {
    b.(remaining := b.remaining - 1, left := b.left - {t}, stage := if b.remaining == 1 then ClosedBy(w) else b.stage)
  }

  /** The completion the last worker builds from the batch state. */
  function CompletionOf(f: nat, b: Batch): Completion
  {
    Completion(f, !b.anyFailed, if b.anyFailed then b.firstError else "", if b.op == Set then [] else b.results)
  }

  function DoPush(s: State, w: nat): State
    requires CanPush(s, w)
  {
    var c := s.workers[w].completion;
    s.(batches := s.batches[c.future := s.batches[c.future].(stage := EmittedAt(|s.emitted|))],
       completions := s.completions + [c],
       emitted := s.emitted + [c],
       workers := s.workers[w := Pushed])
  }

  function DoCrash(s: State, w: nat): State
    requires CanCrash(s, w)
  {
    s.(workers := s.workers[w := Exited], crashed := true,
       loc := if s.workers[w].Running? then s.loc[s.workers[w].tile := Lost] else s.loc)
  }

  // -------------------------------------------------------------- invariant
  // Grouped by the parts of the state each clause reads.

  predicate HoldsSome(p: Worker)
  {
    p.Running? || p.Failed? || p.Failing? || p.Marked? || p.Ready?
  }

  /** No key of the tile has been called yet. */
  ghost predicate Untouched(b: Batch, t: nat)
    requires t + 1 < |b.starts|
  {
    && (forall i :: b.starts[t] <= i < b.starts[t + 1] ==> i !in b.outcomes)
    && t !in b.raised
  }

  /** Every key of the tile has been called. */
  ghost predicate Covered(b: Batch, t: nat)
    requires t + 1 < |b.starts|
  {
    forall i :: b.starts[t] <= i < b.starts[t + 1] ==> i in b.outcomes
  }

  /** A tile about to be counted, or counted: its failure is on record, or all its keys were called. */
  ghost predicate Settled(b: Batch, t: nat)
    requires t + 1 < |b.starts|
  {
    if t in b.raised then b.anyFailed && (b.raised[t] != "" ==> b.firstError != "") else Covered(b, t)
  }

  ghost predicate Shape(b: Batch)
  {
    && 1 <= b.tiles <= b.items
    && Partition(b.starts, b.items, b.tiles)
    && b.remaining == |b.left|
    && (forall i :: i in b.left ==> i < b.tiles)
    && (b.stage.Open? <==> b.left != {})
  }

  ghost predicate Failures(b: Batch)
  {
    && (forall t :: t in b.raised ==> t < b.tiles)
    && (b.anyFailed ==> b.raised != map[])
    && (b.firstError != "" ==> exists t :: t in b.raised && b.raised[t] == b.firstError)
    && (b.op == Get || b.op == Delete ==> b.raised == map[])
  }

  ghost predicate Results(b: Batch)
  {
    && (forall i :: i in b.outcomes ==> i < b.items)
    && if b.op == Set then b.results == []
       else |b.results| == b.items
            && forall i :: 0 <= i < b.items ==> b.results[i] == if i in b.outcomes then ByteOf(b.op, b.outcomes[i]) else 0
  }

  ghost predicate BatchOk(b: Batch)
  {
    && Shape(b) && Failures(b) && Results(b)
    && forall t :: 0 <= t < b.tiles && t !in b.left ==> Settled(b, t)
  }

  ghost predicate BatchesOk(batches: map<nat, Batch>, nextId: nat)
  {
    forall f :: f in batches ==> f < nextId && BatchOk(batches[f])
  }

  /** Tile t lies where l says, as far as its batch b knows. */
  ghost predicate PlaceOk(b: Batch, t: nat, l: Location)
  {
    && Shape(b) && t < b.tiles
    && (l.Counted? <==> t !in b.left)
    && (l.Fresh? || l.Queued? ==> Untouched(b, t))
  }

  ghost predicate PlacesOk(batches: map<nat, Batch>, loc: map<Tile, Location>)
  {
    && (forall f, i :: f in batches && 0 <= i < batches[f].tiles ==> Tile(f, i) in loc)
    && (forall t :: t in loc ==> t.future in batches && PlaceOk(batches[t.future], t.index, loc[t]))
  }

  ghost predicate SubmissionOk(u: nat, sub: Submission, batches: map<nat, Batch>, loc: map<Tile, Location>)
  {
    && sub.future in batches && sub.next < batches[sub.future].tiles
    && forall i :: sub.next <= i < batches[sub.future].tiles ==> Tile(sub.future, i) in loc && loc[Tile(sub.future, i)] == Fresh(u)
  }

  ghost predicate SubmissionsOk(submitters: map<nat, Submission>, batches: map<nat, Batch>, loc: map<Tile, Location>)
  {
    && (forall u :: u in submitters ==> SubmissionOk(u, submitters[u], batches, loc))
    && (forall t :: t in loc && loc[t].Fresh? ==>
          && loc[t].submitter in submitters
          && submitters[loc[t].submitter].future == t.future && submitters[loc[t].submitter].next <= t.index)
  }

  ghost predicate QueuedOk(q: QueueId, t: Tile, lanes: set<Op>, batches: map<nat, Batch>, loc: map<Tile, Location>)
  {
    t in loc && loc[t].Queued? && t.future in batches && QueueOf(lanes, batches[t.future].op) == q
  }

  ghost predicate QueuesOk(queues: map<QueueId, seq<Tile>>, lanes: set<Op>, batches: map<nat, Batch>, loc: map<Tile, Location>)
  {
    && queues.Keys == ALL_QUEUES
    && (forall q, i :: q in queues && 0 <= i < |queues[q]| ==> QueuedOk(q, queues[q][i], lanes, batches, loc))
    && (forall q, i, j :: q in queues && 0 <= i < j < |queues[q]| ==> queues[q][i] != queues[q][j])
    && (forall t :: t in loc && loc[t].Queued? && t.future in batches ==>
          QueueOf(lanes, batches[t.future].op) in queues && t in queues[QueueOf(lanes, batches[t.future].op)])
  }

  ghost predicate HeldOk(workers: map<nat, Worker>, loc: map<Tile, Location>)
  {
    && (forall w :: w in workers && HoldsSome(workers[w]) ==> workers[w].tile in loc && loc[workers[w].tile] == Held(w))
    && (forall t :: t in loc && loc[t].Held? ==>
          loc[t].worker in workers && HoldsSome(workers[loc[t].worker]) && workers[loc[t].worker].tile == t)
  }

  /** How far a worker has got with tile t of batch b. */
  ghost predicate ProgressOk(p: Worker, b: Batch)
    requires HoldsSome(p)
  {
    var t := p.tile.index;
    && Shape(b) && t < b.tiles
    && match p
       case Running(_, done) =>
         && b.starts[t] + done <= b.starts[t + 1] && t !in b.raised
         && (forall i :: b.starts[t] <= i < b.starts[t] + done ==> i in b.outcomes)
         && (forall i :: b.starts[t] + done <= i < b.starts[t + 1] ==> i !in b.outcomes)
       case Failed(_, e) => t in b.raised && b.raised[t] == e
       case Failing(_, e) => t in b.raised && b.raised[t] == e
       case Marked(_, e) => t in b.raised && b.raised[t] == e && b.anyFailed
       case Ready(_) => Settled(b, t)
  }

  ghost predicate WorkersOk(workers: map<nat, Worker>, batches: map<nat, Batch>)
  {
    forall w :: w in workers && HoldsSome(workers[w]) ==>
                  workers[w].tile.future in batches && ProgressOk(workers[w], batches[workers[w].tile.future])
  }

  predicate Announces(p: Worker, f: nat)
  {
    p == Closing(f) || (p.Built? && p.completion.future == f)
  }

  ghost predicate StageOk(f: nat, b: Batch, workers: map<nat, Worker>, emitted: seq<Completion>)
  {
    match b.stage
    case Open => true
    case ClosedBy(w) => w in workers && Announces(workers[w], f)
    case EmittedAt(k) => k < |emitted| && emitted[k] == CompletionOf(f, b)
  }

  ghost predicate StagesOk(batches: map<nat, Batch>, workers: map<nat, Worker>, emitted: seq<Completion>)
  {
    && (forall f :: f in batches ==> StageOk(f, batches[f], workers, emitted))
    && (forall w :: w in workers && workers[w].Closing? ==>
          workers[w].future in batches && batches[workers[w].future].stage == ClosedBy(w))
    && (forall w :: w in workers && workers[w].Built? ==>
          && workers[w].completion.future in batches
          && batches[workers[w].completion.future].stage == ClosedBy(w)
          && workers[w].completion == CompletionOf(workers[w].completion.future, batches[workers[w].completion.future]))
    && (forall k {:trigger emitted[k]} :: 0 <= k < |emitted| ==>
          emitted[k].future in batches && batches[emitted[k].future].stage == EmittedAt(k))
  }

  /** The wakeup flag: set means the fd is, or is about to be, readable or is being drained. */
  ghost predicate WakeOk(workers: map<nat, Worker>, completions: seq<Completion>, signaled: bool, readable: bool, draining: set<nat>)
  {
    && (signaled ==> readable || draining != {} || exists w :: w in workers && workers[w].MustNotify?)
    && (completions != [] ==> signaled || exists w :: w in workers && workers[w].Pushed?)
  }

  ghost predicate HomesOk(home: map<nat, QueueId>, workers: map<nat, Worker>)
  {
    home.Keys == workers.Keys && forall w :: w in home ==> home[w] in ALL_QUEUES
  }

  /** Every tile is in exactly one place. */
  ghost predicate Placement(s: State)
  {
    && PlacesOk(s.batches, s.loc)
    && SubmissionsOk(s.submitters, s.batches, s.loc)
    && QueuesOk(s.queues, s.lanes, s.batches, s.loc)
    && HeldOk(s.workers, s.loc)
    && (forall t :: t in s.loc && s.loc[t].Lost? ==> s.stop || s.crashed)
  }

  /** Batches, workers and announcements agree. */
  ghost predicate Activity(s: State)
  {
    && HomesOk(s.home, s.workers)
    && BatchesOk(s.batches, s.nextId)
    && WorkersOk(s.workers, s.batches)
    && StagesOk(s.batches, s.workers, s.emitted)
    && WakeOk(s.workers, s.completions, s.signaled, s.readable, s.draining)
    && s.emitted == s.delivered + s.completions
  }

  ghost predicate Inv(s: State)
  {
    Placement(s) && Activity(s)
  }
}
