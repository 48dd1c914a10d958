/**
 Every step of the connector protocol keeps the invariant.
 */
module ConnectorProof {
  import opened Tiling
  import opened Connector

  // ------------------------------------------ what single updates leave alone

  /** A worker moves on without picking up or dropping a tile. */
  lemma HeldSame(workers: map<nat, Worker>, loc: map<Tile, Location>, w: nat, p: Worker)
    requires HeldOk(workers, loc) && w in workers
    requires HoldsSome(p) <==> HoldsSome(workers[w])
    requires HoldsSome(p) ==> p.tile == workers[w].tile
    ensures HeldOk(workers[w := p], loc)
  {
  }

  lemma WorkersSet(workers: map<nat, Worker>, batches: map<nat, Batch>, w: nat, p: Worker)
    requires WorkersOk(workers, batches)
    requires HoldsSome(p) ==> p.tile.future in batches && ProgressOk(p, batches[p.tile.future])
    ensures WorkersOk(workers[w := p], batches)
  {
  }

  lemma WorkersBatch(workers: map<nat, Worker>, batches: map<nat, Batch>, f: nat, b: Batch)
    requires WorkersOk(workers, batches)
    requires forall w :: w in workers && HoldsSome(workers[w]) && workers[w].tile.future == f ==> ProgressOk(workers[w], b)
    ensures WorkersOk(workers, batches[f := b])
  {
  }

  lemma StagesSet(batches: map<nat, Batch>, workers: map<nat, Worker>, emitted: seq<Completion>, w: nat, p: Worker)
    requires StagesOk(batches, workers, emitted) && w in workers
    requires !workers[w].Closing? && !workers[w].Built? && !p.Closing? && !p.Built?
    ensures StagesOk(batches, workers[w := p], emitted)
  {
  }

  /** A batch with uncounted tiles is not being announced. */
  lemma StagesBatch(batches: map<nat, Batch>, workers: map<nat, Worker>, emitted: seq<Completion>, f: nat, b: Batch)
    requires StagesOk(batches, workers, emitted) && f in batches && batches[f].stage.Open? && b.stage.Open?
    ensures StagesOk(batches[f := b], workers, emitted)
  {
  }

  lemma WakeSet(workers: map<nat, Worker>, completions: seq<Completion>, signaled: bool, readable: bool, draining: set<nat>, w: nat, p: Worker)
    requires WakeOk(workers, completions, signaled, readable, draining) && w in workers
    requires !workers[w].Pushed? && !workers[w].MustNotify?
    ensures WakeOk(workers[w := p], completions, signaled, readable, draining)
  {
    if signaled && !readable && draining == {} {
      var v :| v in workers && workers[v].MustNotify?;
      assert v in workers[w := p] && workers[w := p][v].MustNotify?;
    }
    if completions != [] && !signaled {
      var v :| v in workers && workers[v].Pushed?;
      assert v in workers[w := p] && workers[w := p][v].Pushed?;
    }
  }

  lemma BatchesSet(batches: map<nat, Batch>, nextId: nat, f: nat, b: Batch)
    requires BatchesOk(batches, nextId) && f in batches && BatchOk(b)
    ensures BatchesOk(batches[f := b], nextId)
  {
  }

  lemma PlacesBatch(batches: map<nat, Batch>, loc: map<Tile, Location>, f: nat, b: Batch)
    requires PlacesOk(batches, loc) && f in batches && b.tiles == batches[f].tiles
    requires forall t :: t in loc && t.future == f ==> PlaceOk(b, t.index, loc[t])
    ensures PlacesOk(batches[f := b], loc)
  {
  }

  lemma PlacesLoc(batches: map<nat, Batch>, loc: map<Tile, Location>, t: Tile, l: Location)
    requires PlacesOk(batches, loc) && t in loc && PlaceOk(batches[t.future], t.index, l)
    ensures PlacesOk(batches, loc[t := l])
  {
  }

  lemma SubmissionsBatch(subs: map<nat, Submission>, batches: map<nat, Batch>, loc: map<Tile, Location>, f: nat, b: Batch)
    requires SubmissionsOk(subs, batches, loc) && f in batches && b.tiles == batches[f].tiles
    ensures SubmissionsOk(subs, batches[f := b], loc)
  {
    forall u | u in subs
      ensures SubmissionOk(u, subs[u], batches[f := b], loc)
    {
      assert SubmissionOk(u, subs[u], batches, loc);
    }
  }

  lemma SubmissionsLoc(subs: map<nat, Submission>, batches: map<nat, Batch>, loc: map<Tile, Location>, t: Tile, l: Location)
    requires SubmissionsOk(subs, batches, loc) && t in loc && !loc[t].Fresh? && !l.Fresh?
    ensures SubmissionsOk(subs, batches, loc[t := l])
  {
    forall u | u in subs
      ensures SubmissionOk(u, subs[u], batches, loc[t := l])
    {
      assert SubmissionOk(u, subs[u], batches, loc);
    }
  }

  lemma QueuesBatch(queues: map<QueueId, seq<Tile>>, lanes: set<Op>, batches: map<nat, Batch>, loc: map<Tile, Location>, f: nat, b: Batch)
    requires QueuesOk(queues, lanes, batches, loc) && f in batches && b.op == batches[f].op
    ensures QueuesOk(queues, lanes, batches[f := b], loc)
  {
    forall q, i | q in queues && 0 <= i < |queues[q]|
      ensures QueuedOk(q, queues[q][i], lanes, batches[f := b], loc)
    {
      assert QueuedOk(q, queues[q][i], lanes, batches, loc);
    }
  }

  lemma QueuesLoc(queues: map<QueueId, seq<Tile>>, lanes: set<Op>, batches: map<nat, Batch>, loc: map<Tile, Location>, t: Tile, l: Location)
    requires QueuesOk(queues, lanes, batches, loc) && t in loc && !loc[t].Queued? && !l.Queued?
    ensures QueuesOk(queues, lanes, batches, loc[t := l])
  {
    forall q, i | q in queues && 0 <= i < |queues[q]|
      ensures QueuedOk(q, queues[q][i], lanes, batches, loc[t := l])
    {
      assert QueuedOk(q, queues[q][i], lanes, batches, loc);
    }
  }

  // -------------------------------------------------------------- worker steps

  predicate Plain(p: Worker)
  {
    !p.Closing? && !p.Built? && !p.Pushed? && !p.MustNotify?
  }

  /** A worker moves between states that neither announce a batch nor signal. */
  lemma MoveKeeps(s: State, w: nat, p: Worker)
    requires Inv(s) && w in s.workers && Plain(s.workers[w]) && Plain(p)
    requires HoldsSome(p) <==> HoldsSome(s.workers[w])
    requires HoldsSome(p) ==> p.tile == s.workers[w].tile && p.tile.future in s.batches && ProgressOk(p, s.batches[p.tile.future])
    ensures Inv(SetWorker(s, w, p))
  {
    HeldSame(s.workers, s.loc, w, p);
    PlainMove(s, w, p);
  }

  lemma FinishKeeps(s: State, w: nat)
    requires Inv(s) && CanFinish(s, w)
    ensures Inv(SetWorker(s, w, Ready(s.workers[w].tile)))
  {
    HeldFacts(s, w);
    var t := s.workers[w].tile;
    assert Settled(s.batches[t.future], t.index);
    MoveKeeps(s, w, Ready(t));
  }

  lemma ExitKeeps(s: State, w: nat)
    requires Inv(s) && CanExit(s, w)
    ensures Inv(SetWorker(s, w, Exited))
  {
    MoveKeeps(s, w, Exited);
  }

  /** The groups that only read workers, when w moves to a plain state p. */
  lemma PlainMove(s: State, w: nat, p: Worker)
    requires Activity(s) && w in s.workers && Plain(s.workers[w]) && Plain(p)
    requires HoldsSome(p) ==> p.tile.future in s.batches && ProgressOk(p, s.batches[p.tile.future])
    ensures HomesOk(s.home, s.workers[w := p])
    ensures WorkersOk(s.workers[w := p], s.batches)
    ensures StagesOk(s.batches, s.workers[w := p], s.emitted)
    ensures WakeOk(s.workers[w := p], s.completions, s.signaled, s.readable, s.draining)
  {
    WorkersSet(s.workers, s.batches, w, p);
    StagesSet(s.batches, s.workers, s.emitted, w, p);
    WakeSet(s.workers, s.completions, s.signaled, s.readable, s.draining, w, p);
  }

  /** A tile is dropped with its worker. */
  lemma DropKeeps(s: State, w: nat, t: Tile, crashed: bool)
    requires Inv(s) && w in s.workers && HoldsSome(s.workers[w]) && t == s.workers[w].tile
    requires s.stop || crashed
    ensures Inv(s.(workers := s.workers[w := Exited], loc := s.loc[t := Lost], crashed := s.crashed || crashed))
  {
    HeldFacts(s, w);
    PlainMove(s, w, Exited);
    LocMove(s.batches, s.loc, s.submitters, s.queues, s.lanes, t, Lost);
    HeldDrop(s.workers, s.loc, w, Exited, Lost);
  }

  /** A tile that is neither fresh nor queued changes place. */
  lemma LocMove(batches: map<nat, Batch>, loc: map<Tile, Location>, subs: map<nat, Submission>,
                queues: map<QueueId, seq<Tile>>, lanes: set<Op>, t: Tile, l: Location)
    requires PlacesOk(batches, loc) && SubmissionsOk(subs, batches, loc) && QueuesOk(queues, lanes, batches, loc)
    requires t in loc && loc[t].Held? && !l.Fresh? && !l.Queued? && PlaceOk(batches[t.future], t.index, l)
    ensures PlacesOk(batches, loc[t := l]) && SubmissionsOk(subs, batches, loc[t := l]) && QueuesOk(queues, lanes, batches, loc[t := l])
  {
    PlacesLoc(batches, loc, t, l);
    SubmissionsLoc(subs, batches, loc, t, l);
    QueuesLoc(queues, lanes, batches, loc, t, l);
  }

  /** What the invariant says about a worker that holds a tile. */
  ghost predicate HeldFact(s: State, w: nat)
  {
    && w in s.workers && HoldsSome(s.workers[w])
    && var t := s.workers[w].tile;
       && t in s.loc && s.loc[t] == Held(w) && t.future in s.batches
       && PlaceOk(s.batches[t.future], t.index, Held(w)) && PlaceOk(s.batches[t.future], t.index, Lost)
       && t.index in s.batches[t.future].left && s.batches[t.future].stage.Open?
       && ProgressOk(s.workers[w], s.batches[t.future])
       && BatchOk(s.batches[t.future])
  }

  lemma HeldFacts(s: State, w: nat)
    requires Inv(s) && w in s.workers && HoldsSome(s.workers[w])
    ensures HeldFact(s, w)
  {
  }

  /** A worker lets go of its tile. */
  lemma HeldDrop(workers: map<nat, Worker>, loc: map<Tile, Location>, w: nat, p: Worker, l: Location)
    requires HeldOk(workers, loc) && w in workers && HoldsSome(workers[w]) && !HoldsSome(p) && !l.Held?
    ensures HeldOk(workers[w := p], loc[workers[w].tile := l])
  {
  }

  lemma CheckStopKeeps(s: State, w: nat)
    requires Inv(s) && CanCheckStop(s, w)
    ensures Inv(DoCheckStop(s, w))
  {
    if s.stop {
      DropKeeps(s, w, s.workers[w].tile, false);
    } else {
      MoveKeeps(s, w, Failing(s.workers[w].tile, s.workers[w].error));
    }
  }

  lemma CrashKeeps(s: State, w: nat)
    requires Inv(s) && CanCrash(s, w)
    ensures Inv(DoCrash(s, w))
  {
    if s.workers[w].Running? {
      DropKeeps(s, w, s.workers[w].tile, true);
    } else {
      MoveKeeps(s, w, Exited);
    }
  }

  lemma TakeKeeps(s: State, w: nat)
    requires Inv(s) && CanTake(s, w)
    ensures Inv(DoTake(s, w))
  {
    QueuedFacts(s, s.home[w]);
    TakePlacement(s, w);
    TakeActivity(s, w);
  }

  lemma TakePlacement(s: State, w: nat)
    requires Placement(s) && CanTake(s, w) && QueuedFact(s, s.home[w])
    ensures Placement(DoTake(s, w))
  {
    TakeLoc(s.batches, s.loc, s.submitters, s.queues, s.lanes, s.workers, w, s.home[w]);
  }

  lemma TakeActivity(s: State, w: nat)
    requires Activity(s) && CanTake(s, w) && QueuedFact(s, s.home[w])
    ensures Activity(DoTake(s, w))
  {
    PlainMove(s, w, Running(s.queues[s.home[w]][0], 0));
  }

  lemma TakeLoc(batches: map<nat, Batch>, loc: map<Tile, Location>, subs: map<nat, Submission>,
                queues: map<QueueId, seq<Tile>>, lanes: set<Op>, workers: map<nat, Worker>, w: nat, q: QueueId)
    requires PlacesOk(batches, loc) && SubmissionsOk(subs, batches, loc) && QueuesOk(queues, lanes, batches, loc) && HeldOk(workers, loc)
    requires q in queues && queues[q] != [] && w in workers && workers[w].Idle?
    requires queues[q][0] in loc && loc[queues[q][0]].Queued? && PlaceOk(batches[queues[q][0].future], queues[q][0].index, Held(w))
    ensures var t := queues[q][0];
            && PlacesOk(batches, loc[t := Held(w)])
            && SubmissionsOk(subs, batches, loc[t := Held(w)])
            && QueuesOk(queues[q := queues[q][1..]], lanes, batches, loc[t := Held(w)])
            && HeldOk(workers[w := Running(t, 0)], loc[t := Held(w)])
  {
    var t := queues[q][0];
    PlacesLoc(batches, loc, t, Held(w));
    SubmissionsLoc(subs, batches, loc, t, Held(w));
    QueuesPop(queues, lanes, batches, loc, q, Held(w));
    HeldTake(workers, loc, w, Running(t, 0));
  }

  /** The tile at the front of a queue is untouched and may be taken. */
  ghost predicate QueuedFact(s: State, q: QueueId)
  {
    && q in s.queues && s.queues[q] != []
    && var t := s.queues[q][0];
       && t in s.loc && s.loc[t].Queued? && t.future in s.batches
       && (forall w :: PlaceOk(s.batches[t.future], t.index, Held(w)))
       && ProgressOk(Running(t, 0), s.batches[t.future])
  }

  lemma QueuedFacts(s: State, q: QueueId)
    requires Placement(s) && q in s.queues && s.queues[q] != []
    ensures QueuedFact(s, q)
  {
    assert QueuedOk(q, s.queues[q][0], s.lanes, s.batches, s.loc);
  }

  lemma HeldTake(workers: map<nat, Worker>, loc: map<Tile, Location>, w: nat, p: Worker)
    requires HeldOk(workers, loc) && w in workers && !HoldsSome(workers[w]) && HoldsSome(p)
    requires p.tile in loc && !loc[p.tile].Held?
    ensures HeldOk(workers[w := p], loc[p.tile := Held(w)])
  {
  }

  lemma QueuesPop(queues: map<QueueId, seq<Tile>>, lanes: set<Op>, batches: map<nat, Batch>, loc: map<Tile, Location>, q: QueueId, l: Location)
    requires QueuesOk(queues, lanes, batches, loc) && q in queues && queues[q] != [] && !l.Queued?
    ensures QueuesOk(queues[q := queues[q][1..]], lanes, batches, loc[queues[q][0] := l])
  {
    var t := queues[q][0];
    var queues', loc' := queues[q := queues[q][1..]], loc[t := l];
    assert QueuedOk(q, queues[q][0], lanes, batches, loc);
    forall r, i | r in queues' && 0 <= i < |queues'[r]|
      ensures QueuedOk(r, queues'[r][i], lanes, batches, loc')
    {
      var j := if r == q then i + 1 else i;
      assert QueuedOk(r, queues[r][j], lanes, batches, loc);
    }
    forall u | u in loc' && loc'[u].Queued? && u.future in batches
      ensures QueueOf(lanes, batches[u.future].op) in queues' && u in queues'[QueueOf(lanes, batches[u.future].op)]
    {
      var r := QueueOf(lanes, batches[u.future].op);
      var j :| 0 <= j < |queues[r]| && queues[r][j] == u;
      assert r == q ==> queues'[r][j - 1] == u;
    }
  }

  // ------------------------------------------------- steps that touch a batch

  /** b1 is b after something happened to tile t only. */
  ghost predicate Touched(b: Batch, b1: Batch, t: nat)
  {
    && b1.op == b.op && b1.items == b.items && b1.tiles == b.tiles && b1.starts == b.starts
    && b1.remaining == b.remaining && b1.left == b.left && b1.stage == b.stage
    && Shape(b) && t < b.tiles
    && (forall i :: !(b.starts[t] <= i < b.starts[t + 1]) ==>
          (i in b1.outcomes <==> i in b.outcomes) && (i in b.outcomes ==> b1.outcomes[i] == b.outcomes[i]))
    && (forall u :: u != t ==> (u in b1.raised <==> u in b.raised) && (u in b.raised ==> b1.raised[u] == b.raised[u]))
    && (b.anyFailed ==> b1.anyFailed)
    && (b.firstError != "" ==> b1.firstError != "")
  }

  /** Keys of different tiles are different. */
  lemma TilesApart(b: Batch, t: nat, u: nat, i: nat)
    requires Shape(b) && t < b.tiles && u < b.tiles && t != u && b.starts[u] <= i < b.starts[u + 1]
    ensures !(b.starts[t] <= i < b.starts[t + 1])
  {
    if t < u {
      assert b.starts[t + 1] <= b.starts[u];
    } else {
      assert b.starts[u + 1] <= b.starts[t];
    }
  }

  lemma TouchedPlace(b: Batch, b1: Batch, t: nat, u: nat, l: Location)
    requires Touched(b, b1, t) && PlaceOk(b, u, l) && (u == t ==> l.Held?)
    ensures PlaceOk(b1, u, l)
  {
    if l.Fresh? || l.Queued? {
      forall i | b1.starts[u] <= i < b1.starts[u + 1]
        ensures i !in b1.outcomes
      {
        TilesApart(b, t, u, i);
      }
    }
  }

  lemma TouchedSettled(b: Batch, b1: Batch, t: nat, u: nat)
    requires Touched(b, b1, t) && u < b.tiles && u != t && Settled(b, u)
    ensures Settled(b1, u)
  {
    if u !in b.raised {
      forall i | b1.starts[u] <= i < b1.starts[u + 1]
        ensures i in b1.outcomes
      {
        TilesApart(b, t, u, i);
      }
    }
  }

  lemma TouchedProgress(b: Batch, b1: Batch, t: nat, p: Worker)
    requires Touched(b, b1, t) && HoldsSome(p) && ProgressOk(p, b) && p.tile.index != t
    ensures ProgressOk(p, b1)
  {
    var u := p.tile.index;
    if p.Ready? {
      TouchedSettled(b, b1, t, u);
    } else if p.Running? {
      forall i | b1.starts[u] <= i < b1.starts[u + 1]
        ensures i in b1.outcomes <==> i in b.outcomes
      {
        TilesApart(b, t, u, i);
      }
    }
  }

  /** The state after worker w did something to its own tile. */
  function TouchState(s: State, w: nat, f: nat, b: Batch, p: Worker): State
  {
    s.(batches := s.batches[f := b], workers := s.workers[w := p])
  }

  lemma TouchPlacement(s: State, w: nat, f: nat, b1: Batch, p: Worker)
    requires Placement(s) && w in s.workers && HoldsSome(s.workers[w]) && HoldsSome(p)
    requires p.tile == s.workers[w].tile && p.tile.future == f && f in s.batches && Touched(s.batches[f], b1, p.tile.index)
    ensures Placement(TouchState(s, w, f, b1, p))
  {
    forall u | u in s.loc && u.future == f
      ensures PlaceOk(b1, u.index, s.loc[u])
    {
      TouchedPlace(s.batches[f], b1, p.tile.index, u.index, s.loc[u]);
    }
    PlacesBatch(s.batches, s.loc, f, b1);
    SubmissionsBatch(s.submitters, s.batches, s.loc, f, b1);
    QueuesBatch(s.queues, s.lanes, s.batches, s.loc, f, b1);
    HeldSame(s.workers, s.loc, w, p);
  }

  /** Two workers never hold the same tile. */
  lemma HeldApart(workers: map<nat, Worker>, loc: map<Tile, Location>, w: nat, v: nat)
    requires HeldOk(workers, loc) && w in workers && v in workers && w != v && HoldsSome(workers[w]) && HoldsSome(workers[v])
    ensures workers[w].tile != workers[v].tile
  {
  }

  lemma TouchWorkers(workers: map<nat, Worker>, loc: map<Tile, Location>, batches: map<nat, Batch>, w: nat, f: nat, b1: Batch, p: Worker)
    requires HeldOk(workers, loc) && WorkersOk(workers, batches) && w in workers && HoldsSome(workers[w]) && HoldsSome(p)
    requires p.tile == workers[w].tile && p.tile.future == f && f in batches && Touched(batches[f], b1, p.tile.index)
    requires ProgressOk(p, b1)
    ensures WorkersOk(workers[w := p], batches[f := b1])
  {
    var ws := workers[w := p];
    forall v | v in ws && HoldsSome(ws[v]) && ws[v].tile.future == f
      ensures ProgressOk(ws[v], b1)
    {
      if v != w {
        HeldApart(workers, loc, w, v);
        TouchedProgress(batches[f], b1, p.tile.index, workers[v]);
      }
    }
  }

  lemma TouchActivity(s: State, w: nat, f: nat, b1: Batch, p: Worker)
    requires Activity(s) && HeldOk(s.workers, s.loc) && w in s.workers && HoldsSome(s.workers[w]) && HoldsSome(p)
    requires p.tile == s.workers[w].tile && p.tile.future == f && f in s.batches && Touched(s.batches[f], b1, p.tile.index)
    requires s.batches[f].stage.Open? && BatchOk(b1) && ProgressOk(p, b1)
    ensures Activity(TouchState(s, w, f, b1, p))
  {
    BatchesSet(s.batches, s.nextId, f, b1);
    TouchWorkers(s.workers, s.loc, s.batches, w, f, b1, p);
    TouchStages(s.batches, s.workers, s.emitted, w, f, b1, p);
    WakeSet(s.workers, s.completions, s.signaled, s.readable, s.draining, w, p);
  }

  lemma TouchStages(batches: map<nat, Batch>, workers: map<nat, Worker>, emitted: seq<Completion>, w: nat, f: nat, b1: Batch, p: Worker)
    requires StagesOk(batches, workers, emitted) && w in workers && HoldsSome(workers[w]) && HoldsSome(p)
    requires f in batches && batches[f].stage.Open? && b1.stage.Open?
    ensures StagesOk(batches[f := b1], workers[w := p], emitted)
  {
    StagesSet(batches, workers, emitted, w, p);
    StagesBatch(batches, workers[w := p], emitted, f, b1);
  }

  /** Worker w may turn its tile's batch into b1 and move to p. */
  ghost predicate MayTouch(s: State, w: nat, b1: Batch, p: Worker)
  {
    && HeldFact(s, w) && HoldsSome(p) && p.tile == s.workers[w].tile
    && Touched(s.batches[p.tile.future], b1, p.tile.index) && BatchOk(b1) && ProgressOk(p, b1)
  }

  lemma TouchKeeps(s: State, w: nat, b1: Batch, p: Worker)
    requires Inv(s) && MayTouch(s, w, b1, p)
    ensures Inv(TouchState(s, w, p.tile.future, b1, p))
  {
    TouchPlacement(s, w, p.tile.future, b1, p);
    TouchActivity(s, w, p.tile.future, b1, p);
  }

  /** The settled tiles of a batch stay settled when another tile is touched. */
  lemma TouchedBatch(b: Batch, b1: Batch, t: nat)
    requires BatchOk(b) && Touched(b, b1, t) && t in b.left && Failures(b1) && Results(b1)
    ensures BatchOk(b1)
  {
    forall u | 0 <= u < b1.tiles && u !in b1.left
      ensures Settled(b1, u)
    {
      TouchedSettled(b, b1, t, u);
    }
  }

  lemma MarkFailedTouch(s: State, w: nat)
    requires HeldFact(s, w) && s.workers[w].Failing?
    ensures var t := s.workers[w].tile;
            MayTouch(s, w, s.batches[t.future].(anyFailed := true), Marked(t, s.workers[w].error))
  {
    var t := s.workers[w].tile;
    TouchedBatch(s.batches[t.future], s.batches[t.future].(anyFailed := true), t.index);
  }

  lemma MarkFailedKeeps(s: State, w: nat)
    requires Inv(s) && CanMarkFailed(s, w)
    ensures Inv(DoMarkFailed(s, w))
  {
    HeldFacts(s, w);
    var t := s.workers[w].tile;
    MarkFailedTouch(s, w);
    TouchKeeps(s, w, s.batches[t.future].(anyFailed := true), Marked(t, s.workers[w].error));
  }

  function WithError(b: Batch, e: string): Batch
  {
    if b.firstError == "" then b.(firstError := e) else b
  }

  lemma RecordErrorTouch(s: State, w: nat)
    requires HeldFact(s, w) && s.workers[w].Marked?
    ensures var t := s.workers[w].tile;
            && MayTouch(s, w, WithError(s.batches[t.future], s.workers[w].error), Ready(t))
            && DoRecordError(s, w) == TouchState(s, w, t.future, WithError(s.batches[t.future], s.workers[w].error), Ready(t))
  {
    var t := s.workers[w].tile;
    var b := s.batches[t.future];
    TouchedBatch(b, WithError(b, s.workers[w].error), t.index);
    assert b.firstError != "" ==> s.batches[t.future := b] == s.batches;
  }

  lemma RecordErrorKeeps(s: State, w: nat)
    requires Inv(s) && CanRecordError(s, w)
    ensures Inv(DoRecordError(s, w))
  {
    HeldFacts(s, w);
    RecordErrorTouch(s, w);
    TouchKeeps(s, w, WithError(s.batches[s.workers[w].tile.future], s.workers[w].error), Ready(s.workers[w].tile));
  }

  // ---------------------------------------------------------------- one key

  lemma CalledBatch(b: Batch, t: nat, i: nat, o: Outcome)
    requires BatchOk(b) && t < b.tiles && t in b.left && b.starts[t] <= i < b.starts[t + 1] && i !in b.outcomes && t !in b.raised
    ensures Touched(b, Called(b, t, i, o), t) && BatchOk(Called(b, t, i, o))
  {
    var b1 := Called(b, t, i, o);
    assert b.starts[t + 1] <= b.items;
    assert Failures(b1) by {
      if b.firstError != "" {
        var u :| u in b.raised && b.raised[u] == b.firstError;
        assert u in b1.raised && b1.raised[u] == b1.firstError;
      }
      if b.anyFailed {
        var u :| u in b.raised;
        assert u in b1.raised;
      }
    }
    TouchedBatch(b, b1, t);
  }

  function CalledHere(s: State, w: nat, o: Outcome): Batch
    requires CanCall(s, w)
  {
    var t := s.workers[w].tile;
    Called(s.batches[t.future], t.index, s.batches[t.future].starts[t.index] + s.workers[w].done, o)
  }

  lemma CallMayTouch(s: State, w: nat, o: Outcome)
    requires HeldFact(s, w) && CanCall(s, w)
    ensures MayTouch(s, w, CalledHere(s, w, o), AfterCall(s.workers[w], s.batches[s.workers[w].tile.future].op, o))
  {
    var p := s.workers[w];
    var b := s.batches[p.tile.future];
    var i := b.starts[p.tile.index] + p.done;
    NextKey(b, p, i);
    CalledBatch(b, p.tile.index, i, o);
    CalledProgress(b, p, o);
  }

  /** The next key of a running tile has not been called. */
  lemma NextKey(b: Batch, p: Worker, i: nat)
    requires p.Running? && ProgressOk(p, b) && i == b.starts[p.tile.index] + p.done < b.starts[p.tile.index + 1]
    ensures i !in b.outcomes && p.tile.index !in b.raised
  {
  }

  lemma CallIsTouch(s: State, w: nat, o: Outcome)
    requires CanCall(s, w)
    ensures var p := AfterCall(s.workers[w], s.batches[s.workers[w].tile.future].op, o);
            HoldsSome(p) && DoCall(s, w, o) == TouchState(s, w, p.tile.future, CalledHere(s, w, o), p)
  {
  }

  lemma CallKeeps(s: State, w: nat, o: Outcome)
    requires Inv(s) && CanCall(s, w)
    ensures Inv(DoCall(s, w, o))
  {
    HeldFacts(s, w);
    var p := AfterCall(s.workers[w], s.batches[s.workers[w].tile.future].op, o);
    CallMayTouch(s, w, o);
    CallIsTouch(s, w, o);
    TouchKeeps(s, w, CalledHere(s, w, o), p);
  }

  lemma CalledProgress(b: Batch, p: Worker, o: Outcome)
    requires p.Running? && ProgressOk(p, b) && b.starts[p.tile.index] + p.done < b.starts[p.tile.index + 1]
    ensures ProgressOk(AfterCall(p, b.op, o), Called(b, p.tile.index, b.starts[p.tile.index] + p.done, o))
  {
  }

  // --------------------------------------------------------------- counting

  lemma CountShape(b: Batch, t: nat, w: nat)
    requires Shape(b) && t in b.left
    ensures b.remaining > 0 && Shape(CountedBatch(b, t, w))
  {
    assert b.left == (b.left - {t}) + {t};
    assert |b.left| == |b.left - {t}| + 1;
  }

  lemma CountBatch(b: Batch, t: nat, w: nat)
    requires BatchOk(b) && t in b.left && Settled(b, t)
    ensures b.remaining > 0 && BatchOk(CountedBatch(b, t, w))
  {
    CountShape(b, t, w);
    var b1 := CountedBatch(b, t, w);
    forall u | 0 <= u < b1.tiles && u !in b1.left
      ensures Settled(b1, u)
    {
      assert Settled(b, u);
    }
  }

  lemma CountPlaces(batches: map<nat, Batch>, loc: map<Tile, Location>, t: Tile, w: nat)
    requires PlacesOk(batches, loc) && t in loc && t.future in batches && t.index in batches[t.future].left && batches[t.future].remaining > 0
    ensures PlacesOk(batches[t.future := CountedBatch(batches[t.future], t.index, w)], loc[t := Counted])
  {
    var f := t.future;
    var b1 := CountedBatch(batches[f], t.index, w);
    CountShape(batches[f], t.index, w);
    var loc' := loc[t := Counted];
    forall u | u in loc'
      ensures u.future in batches[f := b1] && PlaceOk(batches[f := b1][u.future], u.index, loc'[u])
    {
      assert PlaceOk(batches[u.future], u.index, loc[u]);
    }
  }

  lemma CountLists(batches: map<nat, Batch>, loc: map<Tile, Location>, subs: map<nat, Submission>,
                   queues: map<QueueId, seq<Tile>>, lanes: set<Op>, t: Tile, w: nat)
    requires SubmissionsOk(subs, batches, loc) && QueuesOk(queues, lanes, batches, loc)
    requires t in loc && loc[t].Held? && t.future in batches && batches[t.future].remaining > 0
    ensures var batches' := batches[t.future := CountedBatch(batches[t.future], t.index, w)];
            SubmissionsOk(subs, batches', loc[t := Counted]) && QueuesOk(queues, lanes, batches', loc[t := Counted])
  {
    var b1 := CountedBatch(batches[t.future], t.index, w);
    SubmissionsBatch(subs, batches, loc, t.future, b1);
    SubmissionsLoc(subs, batches[t.future := b1], loc, t, Counted);
    QueuesBatch(queues, lanes, batches, loc, t.future, b1);
    QueuesLoc(queues, lanes, batches[t.future := b1], loc, t, Counted);
  }

  /** The four parts of Placement that move when a tile is counted. */
  lemma CountParts(batches: map<nat, Batch>, loc: map<Tile, Location>, subs: map<nat, Submission>,
                   queues: map<QueueId, seq<Tile>>, lanes: set<Op>, workers: map<nat, Worker>, w: nat, p: Worker)
    requires PlacesOk(batches, loc) && SubmissionsOk(subs, batches, loc) && QueuesOk(queues, lanes, batches, loc) && HeldOk(workers, loc)
    requires w in workers && HoldsSome(workers[w]) && !HoldsSome(p)
    requires var t := workers[w].tile; t.future in batches && t.index in batches[t.future].left && batches[t.future].remaining > 0
    ensures var t := workers[w].tile;
            var batches' := batches[t.future := CountedBatch(batches[t.future], t.index, w)];
            var loc' := loc[t := Counted];
            Parts(batches', loc', subs, queues, lanes, workers[w := p])
  {
    var t := workers[w].tile;
    assert t in loc && loc[t] == Held(w);
    CountPlaces(batches, loc, t, w);
    CountLists(batches, loc, subs, queues, lanes, t, w);
    HeldDrop(workers, loc, w, p, Counted);
  }

  ghost predicate Parts(batches: map<nat, Batch>, loc: map<Tile, Location>, subs: map<nat, Submission>,
                        queues: map<QueueId, seq<Tile>>, lanes: set<Op>, workers: map<nat, Worker>)
  {
    PlacesOk(batches, loc) && SubmissionsOk(subs, batches, loc) && QueuesOk(queues, lanes, batches, loc) && HeldOk(workers, loc)
  }

  ghost predicate LostOk(s: State)
  {
    forall t :: t in s.loc && s.loc[t].Lost? ==> s.stop || s.crashed
  }

  lemma FromParts(s: State)
    requires Parts(s.batches, s.loc, s.submitters, s.queues, s.lanes, s.workers) && LostOk(s)
    ensures Placement(s)
  {
  }

  lemma CountMoves(s: State, w: nat)
    requires Parts(s.batches, s.loc, s.submitters, s.queues, s.lanes, s.workers)
    requires CanCount(s, w) && s.workers[w].tile.index in s.batches[s.workers[w].tile.future].left
    ensures var s' := DoCount(s, w); Parts(s'.batches, s'.loc, s'.submitters, s'.queues, s'.lanes, s'.workers)
  {
    var t := s.workers[w].tile;
    CountParts(s.batches, s.loc, s.submitters, s.queues, s.lanes, s.workers, w,
               if s.batches[t.future].remaining == 1 then Closing(t.future) else Idle);
  }

  lemma CountLost(s: State, w: nat)
    requires LostOk(s) && CanCount(s, w)
    ensures LostOk(DoCount(s, w))
  {
  }

  lemma CountPlacement(s: State, w: nat)
    requires Placement(s) && CanCount(s, w) && s.workers[w].tile.index in s.batches[s.workers[w].tile.future].left
    ensures Placement(DoCount(s, w))
  {
    CountMoves(s, w);
    CountLost(s, w);
    FromParts(DoCount(s, w));
  }

  lemma CountStages(batches: map<nat, Batch>, workers: map<nat, Worker>, emitted: seq<Completion>, w: nat, t: Tile)
    requires StagesOk(batches, workers, emitted) && w in workers && HoldsSome(workers[w])
    requires t.future in batches && batches[t.future].stage.Open? && batches[t.future].remaining > 0
    ensures var f := t.future;
            StagesOk(batches[f := CountedBatch(batches[f], t.index, w)],
                     workers[w := if batches[f].remaining == 1 then Closing(f) else Idle], emitted)
  {
  }

  lemma CountWorkers(workers: map<nat, Worker>, batches: map<nat, Batch>, w: nat, t: Tile)
    requires WorkersOk(workers, batches) && t.future in batches && t.index in batches[t.future].left && Shape(batches[t.future])
    requires batches[t.future].remaining > 0
    ensures var f := t.future;
            WorkersOk(workers[w := if batches[f].remaining == 1 then Closing(f) else Idle],
                      batches[f := CountedBatch(batches[f], t.index, w)])
  {
    var f := t.future;
    var b, b1 := batches[f], CountedBatch(batches[f], t.index, w);
    CountShape(b, t.index, w);
    forall v | v in workers && HoldsSome(workers[v]) && workers[v].tile.future == f
      ensures ProgressOk(workers[v], b1)
    {
      assert ProgressOk(workers[v], b);
    }
    WorkersBatch(workers, batches, f, b1);
  }

  ghost predicate Active(workers: map<nat, Worker>, batches: map<nat, Batch>, nextId: nat, emitted: seq<Completion>,
                         completions: seq<Completion>, signaled: bool, readable: bool, draining: set<nat>)
  {
    && BatchesOk(batches, nextId) && WorkersOk(workers, batches) && StagesOk(batches, workers, emitted)
    && WakeOk(workers, completions, signaled, readable, draining)
  }

  lemma FromActive(s: State)
    requires HomesOk(s.home, s.workers) && s.emitted == s.delivered + s.completions
    requires Active(s.workers, s.batches, s.nextId, s.emitted, s.completions, s.signaled, s.readable, s.draining)
    ensures Activity(s)
  {
  }

  /** The parts of Activity that move when a tile is counted. */
  lemma CountActive(s: State, w: nat)
    requires Active(s.workers, s.batches, s.nextId, s.emitted, s.completions, s.signaled, s.readable, s.draining)
    requires CanCount(s, w) && HeldFact(s, w)
    ensures var s' := DoCount(s, w);
            Active(s'.workers, s'.batches, s'.nextId, s'.emitted, s'.completions, s'.signaled, s'.readable, s'.draining)
  {
    var t := s.workers[w].tile;
    CountBatch(s.batches[t.future], t.index, w);
    BatchesSet(s.batches, s.nextId, t.future, CountedBatch(s.batches[t.future], t.index, w));
    CountWorkers(s.workers, s.batches, w, t);
    CountStages(s.batches, s.workers, s.emitted, w, t);
    WakeSet(s.workers, s.completions, s.signaled, s.readable, s.draining, w,
            if s.batches[t.future].remaining == 1 then Closing(t.future) else Idle);
  }

  lemma CountActivity(s: State, w: nat)
    requires Activity(s) && CanCount(s, w) && HeldFact(s, w)
    ensures Activity(DoCount(s, w))
  {
    CountActive(s, w);
    FromActive(DoCount(s, w));
  }

  lemma CountKeeps(s: State, w: nat)
    requires Inv(s) && CanCount(s, w)
    ensures Inv(DoCount(s, w))
  {
    HeldFacts(s, w);
    CountPlacement(s, w);
    CountActivity(s, w);
  }

  // ------------------------------------------------------------- announcing

  lemma BuildKeeps(s: State, w: nat)
    requires Inv(s) && CanBuild(s, w)
    ensures Inv(SetWorker(s, w, Built(CompletionOf(s.workers[w].future, s.batches[s.workers[w].future]))))
  {
    var p := Built(CompletionOf(s.workers[w].future, s.batches[s.workers[w].future]));
    BuildPlacement(s, w, p);
    BuildActivity(s, w, p);
  }

  lemma BuildPlacement(s: State, w: nat, p: Worker)
    requires Placement(s) && CanBuild(s, w) && p.Built?
    ensures Placement(SetWorker(s, w, p))
  {
    HeldSame(s.workers, s.loc, w, p);
    WorkerPlacement(s, w, p, s.signaled, s.readable);
  }

  /** Placement does not depend on the flag or the fd. */
  lemma WorkerPlacement(s: State, w: nat, p: Worker, signaled: bool, readable: bool)
    requires Placement(s) && HeldOk(s.workers[w := p], s.loc)
    ensures Placement(SetWorker(s, w, p).(signaled := signaled, readable := readable))
  {
  }

  lemma BuildActivity(s: State, w: nat, p: Worker)
    requires Activity(s) && CanBuild(s, w) && p == Built(CompletionOf(s.workers[w].future, s.batches[s.workers[w].future]))
    ensures Activity(SetWorker(s, w, p))
  {
    WorkersSet(s.workers, s.batches, w, p);
    BuildStages(s.batches, s.workers, s.emitted, w);
    WakeSet(s.workers, s.completions, s.signaled, s.readable, s.draining, w, p);
  }

  lemma BuildStages(batches: map<nat, Batch>, workers: map<nat, Worker>, emitted: seq<Completion>, w: nat)
    requires StagesOk(batches, workers, emitted) && w in workers && workers[w].Closing? && workers[w].future in batches
    ensures StagesOk(batches, workers[w := Built(CompletionOf(workers[w].future, batches[workers[w].future]))], emitted)
  {
  }

  lemma PushStages(batches: map<nat, Batch>, workers: map<nat, Worker>, emitted: seq<Completion>, w: nat)
    requires StagesOk(batches, workers, emitted) && w in workers && workers[w].Built? && workers[w].completion.future in batches
    ensures var c := workers[w].completion;
            StagesOk(batches[c.future := batches[c.future].(stage := EmittedAt(|emitted|))], workers[w := Pushed], emitted + [c])
  {
    var c := workers[w].completion;
    var f := c.future;
    var batches', workers', emitted' := batches[f := batches[f].(stage := EmittedAt(|emitted|))], workers[w := Pushed], emitted + [c];
    forall g | g in batches'
      ensures StageOk(g, batches'[g], workers', emitted')
    {
      assert StageOk(g, batches[g], workers, emitted);
    }
  }

  /** Only the stage of a closed batch changes. */
  lemma StagePlacement(s: State, w: nat)
    requires Placement(s) && CanPush(s, w) && s.batches[s.workers[w].completion.future].stage.ClosedBy?
    ensures Placement(DoPush(s, w))
  {
    var f := s.workers[w].completion.future;
    var b1 := s.batches[f].(stage := EmittedAt(|s.emitted|));
    forall t | t in s.loc && t.future == f
      ensures PlaceOk(b1, t.index, s.loc[t])
    {
      assert PlaceOk(s.batches[f], t.index, s.loc[t]);
    }
    PlacesBatch(s.batches, s.loc, f, b1);
    SubmissionsBatch(s.submitters, s.batches, s.loc, f, b1);
    QueuesBatch(s.queues, s.lanes, s.batches, s.loc, f, b1);
    HeldSame(s.workers, s.loc, w, Pushed);
  }

  lemma PushWorkers(workers: map<nat, Worker>, batches: map<nat, Batch>, w: nat, f: nat, st: Stage)
    requires WorkersOk(workers, batches) && f in batches && Shape(batches[f]) && !batches[f].stage.Open? && !st.Open?
    ensures WorkersOk(workers[w := Pushed], batches[f := batches[f].(stage := st)])
  {
    var b1 := batches[f].(stage := st);
    forall v | v in workers && HoldsSome(workers[v]) && workers[v].tile.future == f
      ensures ProgressOk(workers[v], b1)
    {
      assert ProgressOk(workers[v], batches[f]);
    }
    WorkersBatch(workers, batches, f, b1);
  }

  lemma PushBatch(b: Batch, st: Stage)
    requires BatchOk(b) && !b.stage.Open? && !st.Open?
    ensures BatchOk(b.(stage := st))
  {
    forall t | 0 <= t < b.tiles && t !in b.left
      ensures Settled(b.(stage := st), t)
    {
      assert Settled(b, t);
    }
  }

  lemma PushActivity(s: State, w: nat)
    requires Activity(s) && CanPush(s, w) && s.batches[s.workers[w].completion.future].stage.ClosedBy?
    ensures Activity(DoPush(s, w))
  {
    var c := s.workers[w].completion;
    var st := EmittedAt(|s.emitted|);
    PushBatch(s.batches[c.future], st);
    BatchesSet(s.batches, s.nextId, c.future, s.batches[c.future].(stage := st));
    PushWorkers(s.workers, s.batches, w, c.future, st);
    PushStages(s.batches, s.workers, s.emitted, w);
    PushWake(s.workers, s.completions, s.signaled, s.readable, s.draining, w, c);
    assert s.delivered + (s.completions + [c]) == (s.delivered + s.completions) + [c];
  }

  lemma PushWake(workers: map<nat, Worker>, completions: seq<Completion>, signaled: bool, readable: bool, draining: set<nat>, w: nat, c: Completion)
    requires WakeOk(workers, completions, signaled, readable, draining) && w in workers && workers[w].Built?
    ensures WakeOk(workers[w := Pushed], completions + [c], signaled, readable, draining)
  {
    WakeSet(workers, completions, signaled, readable, draining, w, Pushed);
    assert workers[w := Pushed][w].Pushed?;
  }

  lemma PushKeeps(s: State, w: nat)
    requires Inv(s) && CanPush(s, w)
    ensures Inv(DoPush(s, w))
  {
    StagePlacement(s, w);
    PushActivity(s, w);
  }

  // ---------------------------------------------------------------- wakeups

  /** A worker between push and idle changes the flag or the fd. */
  lemma SignalKeeps(s: State, w: nat, p: Worker, signaled: bool, readable: bool)
    requires Inv(s) && w in s.workers && (s.workers[w].Pushed? || s.workers[w].MustNotify?) && (p.Idle? || p.MustNotify?)
    requires WakeOk(s.workers[w := p], s.completions, signaled, readable, s.draining)
    ensures Inv(SetWorker(s, w, p).(signaled := signaled, readable := readable))
  {
    HeldSame(s.workers, s.loc, w, p);
    WorkerPlacement(s, w, p, signaled, readable);
    SignalActivity(s, w, p, signaled, readable);
  }

  lemma SignalActivity(s: State, w: nat, p: Worker, signaled: bool, readable: bool)
    requires Activity(s) && w in s.workers && (s.workers[w].Pushed? || s.workers[w].MustNotify?) && (p.Idle? || p.MustNotify?)
    requires WakeOk(s.workers[w := p], s.completions, signaled, readable, s.draining)
    ensures Activity(SetWorker(s, w, p).(signaled := signaled, readable := readable))
  {
    WorkersSet(s.workers, s.batches, w, p);
    StagesSet(s.batches, s.workers, s.emitted, w, p);
  }

  lemma ExchangeWake(workers: map<nat, Worker>, completions: seq<Completion>, signaled: bool, readable: bool, draining: set<nat>, w: nat)
    requires WakeOk(workers, completions, signaled, readable, draining) && w in workers && workers[w].Pushed?
    ensures WakeOk(workers[w := if signaled then Idle else MustNotify], completions, true, readable, draining)
  {
    var p := if signaled then Idle else MustNotify;
    if !signaled {
      assert workers[w := p][w].MustNotify?;
    } else if !readable && draining == {} {
      var v :| v in workers && workers[v].MustNotify?;
      assert workers[w := p][v].MustNotify?;
    }
  }

  lemma ExchangeKeeps(s: State, w: nat)
    requires Inv(s) && w in s.workers && s.workers[w].Pushed?
    ensures Inv(Apply(s, Exchange(w)))
  {
    ExchangeWake(s.workers, s.completions, s.signaled, s.readable, s.draining, w);
    SignalKeeps(s, w, if s.signaled then Idle else MustNotify, true, s.readable);
  }

  lemma NotifyWake(workers: map<nat, Worker>, completions: seq<Completion>, signaled: bool, readable: bool, draining: set<nat>, w: nat)
    requires WakeOk(workers, completions, signaled, readable, draining) && w in workers && workers[w].MustNotify?
    ensures WakeOk(workers[w := Idle], completions, signaled, true, draining)
  {
    if completions != [] && !signaled {
      var v :| v in workers && workers[v].Pushed?;
      assert workers[w := Idle][v].Pushed?;
    }
  }

  lemma NotifyKeeps(s: State, w: nat)
    requires Inv(s) && w in s.workers && s.workers[w].MustNotify?
    ensures Inv(Apply(s, Notify(w)))
  {
    NotifyWake(s.workers, s.completions, s.signaled, s.readable, s.draining, w);
    SignalKeeps(s, w, Idle, s.signaled, true);
  }

  lemma ConsumeKeeps(s: State, d: nat)
    requires Inv(s) && d !in s.draining
    ensures Inv(s.(draining := s.draining + {d}, readable := false))
  {
  }

  lemma ObserveEmptyKeeps(s: State, d: nat)
    requires Inv(s) && d in s.draining && s.completions == []
    ensures Inv(s.(draining := s.draining - {d}, signaled := false))
  {
  }

  lemma StopKeeps(s: State)
    requires Inv(s)
    ensures Inv(s.(stop := true))
  {
  }

  lemma PopKeeps(s: State, d: nat)
    requires Inv(s) && Enabled(s, Pop(d))
    ensures Inv(Apply(s, Pop(d)))
  {
    assert s.delivered + s.completions == (s.delivered + [s.completions[0]]) + s.completions[1..];
  }

  // ------------------------------------------------------------- submission

  lemma HeldLoc(workers: map<nat, Worker>, loc: map<Tile, Location>, t: Tile, l: Location)
    requires HeldOk(workers, loc) && (t in loc ==> !loc[t].Held?) && !l.Held?
    ensures HeldOk(workers, loc[t := l])
  {
  }

  lemma EnqueueQueues(queues: map<QueueId, seq<Tile>>, lanes: set<Op>, batches: map<nat, Batch>, loc: map<Tile, Location>, t: Tile, q: QueueId)
    requires QueuesOk(queues, lanes, batches, loc) && t in loc && loc[t].Fresh? && t.future in batches
    requires q == QueueOf(lanes, batches[t.future].op) && q in queues
    ensures QueuesOk(queues[q := queues[q] + [t]], lanes, batches, loc[t := Queued])
  {
    var queues', loc' := queues[q := queues[q] + [t]], loc[t := Queued];
    forall r, i | r in queues' && 0 <= i < |queues'[r]|
      ensures QueuedOk(r, queues'[r][i], lanes, batches, loc')
    {
      if i < |queues[r]| {
        assert QueuedOk(r, queues[r][i], lanes, batches, loc);
      }
    }
    forall r, i, j | r in queues' && 0 <= i < j < |queues'[r]|
      ensures queues'[r][i] != queues'[r][j]
    {
      assert QueuedOk(r, queues[r][i], lanes, batches, loc);
    }
    forall u | u in loc' && loc'[u].Queued? && u.future in batches
      ensures QueueOf(lanes, batches[u.future].op) in queues' && u in queues'[QueueOf(lanes, batches[u.future].op)]
    {
      if u == t {
        assert queues'[q][|queues[q]|] == t;
      }
    }
  }

  /** The submitters after u enqueued its next tile. */
  function AfterEnqueue(subs: map<nat, Submission>, u: nat, tiles: nat): map<nat, Submission>
    requires u in subs
  {
    if subs[u].next + 1 < tiles then subs[u := Submission(subs[u].future, subs[u].next + 1)] else subs - {u}
  }

  lemma EnqueueSubmissions(subs: map<nat, Submission>, batches: map<nat, Batch>, loc: map<Tile, Location>, u: nat)
    requires SubmissionsOk(subs, batches, loc) && PlacesOk(batches, loc) && u in subs && subs[u].future in batches
    ensures SubmissionsOk(AfterEnqueue(subs, u, batches[subs[u].future].tiles), batches, loc[Tile(subs[u].future, subs[u].next) := Queued])
  {
    var f := subs[u].future;
    var t := Tile(f, subs[u].next);
    var subs', loc' := AfterEnqueue(subs, u, batches[f].tiles), loc[t := Queued];
    assert SubmissionOk(u, subs[u], batches, loc);
    forall v | v in subs'
      ensures SubmissionOk(v, subs'[v], batches, loc')
    {
      assert SubmissionOk(v, subs[v], batches, loc);
    }
    forall x | x in loc' && loc'[x].Fresh?
      ensures loc'[x].submitter in subs' && subs'[loc'[x].submitter].future == x.future && subs'[loc'[x].submitter].next <= x.index
    {
      assert x != t && PlaceOk(batches[x.future], x.index, loc[x]);
    }
  }

  lemma EnqueueKeeps(s: State, u: nat)
    requires Inv(s) && CanEnqueue(s, u)
    ensures Inv(DoEnqueue(s, u))
  {
    EnqueuePlacement(s, u);
  }

  lemma EnqueueFacts(s: State, u: nat)
    requires Placement(s) && CanEnqueue(s, u)
    ensures var t := Tile(s.submitters[u].future, s.submitters[u].next);
            && t in s.loc && s.loc[t].Fresh? && t.future in s.batches && PlaceOk(s.batches[t.future], t.index, Queued)
            && t.index < s.batches[t.future].tiles
  {
    var t := Tile(s.submitters[u].future, s.submitters[u].next);
    assert SubmissionOk(u, s.submitters[u], s.batches, s.loc);
    assert PlaceOk(s.batches[t.future], t.index, s.loc[t]);
  }

  lemma EnqueuePlacement(s: State, u: nat)
    requires Placement(s) && CanEnqueue(s, u)
    ensures Placement(DoEnqueue(s, u))
  {
    var t := Tile(s.submitters[u].future, s.submitters[u].next);
    EnqueueFacts(s, u);
    PlacesLoc(s.batches, s.loc, t, Queued);
    EnqueueSubmissions(s.submitters, s.batches, s.loc, u);
    EnqueueQueues(s.queues, s.lanes, s.batches, s.loc, t, QueueOf(s.lanes, s.batches[t.future].op));
    HeldLoc(s.workers, s.loc, t, Queued);
  }

  lemma NewBatchOk(op: Op, n: nat, k: nat)
    requires 1 <= k <= n
    ensures BatchOk(NewBatch(op, n, k)) && NewBatch(op, n, k).stage.Open?
    ensures forall t, l: Location :: 0 <= t < k && l.Fresh? ==> PlaceOk(NewBatch(op, n, k), t, l)
  {
    StartsPartition(n, k);
    assert 0 in Upto(k);
  }

  /** Locations after a new batch: its tiles are fresh, the others unchanged. */
  function WithFresh(loc: map<Tile, Location>, f: nat, k: nat, u: nat): (r: map<Tile, Location>)
    ensures forall t :: t in r <==> t in loc || (t.future == f && t.index < k)
    ensures forall t :: t in r ==> r[t] == if t.future == f && t.index < k then Fresh(u) else loc[t]
  {
    loc + map i | 0 <= i < k :: Tile(f, i) := Fresh(u)
  }

  lemma SubmitPlaces(batches: map<nat, Batch>, loc: map<Tile, Location>, f: nat, b: Batch, u: nat)
    requires PlacesOk(batches, loc) && f !in batches
    requires forall t, l: Location :: 0 <= t < b.tiles && l.Fresh? ==> PlaceOk(b, t, l)
    ensures PlacesOk(batches[f := b], WithFresh(loc, f, b.tiles, u))
  {
    var loc' := WithFresh(loc, f, b.tiles, u);
    forall t | t in loc'
      ensures t.future in batches[f := b] && PlaceOk(batches[f := b][t.future], t.index, loc'[t])
    {
      if t in loc {
        assert PlaceOk(batches[t.future], t.index, loc[t]);
      }
    }
  }

  lemma SubmitSubmissions(subs: map<nat, Submission>, batches: map<nat, Batch>, loc: map<Tile, Location>, f: nat, b: Batch, u: nat)
    requires SubmissionsOk(subs, batches, loc) && PlacesOk(batches, loc) && f !in batches && u !in subs && b.tiles >= 1
    ensures SubmissionsOk(subs[u := Submission(f, 0)], batches[f := b], WithFresh(loc, f, b.tiles, u))
  {
    var subs', batches', loc' := subs[u := Submission(f, 0)], batches[f := b], WithFresh(loc, f, b.tiles, u);
    forall v | v in subs'
      ensures SubmissionOk(v, subs'[v], batches', loc')
    {
      if v != u {
        assert SubmissionOk(v, subs[v], batches, loc);
      }
    }
  }

  lemma SubmitQueues(queues: map<QueueId, seq<Tile>>, lanes: set<Op>, batches: map<nat, Batch>, loc: map<Tile, Location>, f: nat, b: Batch, u: nat)
    requires QueuesOk(queues, lanes, batches, loc) && PlacesOk(batches, loc) && f !in batches
    ensures QueuesOk(queues, lanes, batches[f := b], WithFresh(loc, f, b.tiles, u))
  {
    forall q, i | q in queues && 0 <= i < |queues[q]|
      ensures QueuedOk(q, queues[q][i], lanes, batches[f := b], WithFresh(loc, f, b.tiles, u))
    {
      assert QueuedOk(q, queues[q][i], lanes, batches, loc);
    }
  }

  lemma SubmitHeld(workers: map<nat, Worker>, batches: map<nat, Batch>, loc: map<Tile, Location>, f: nat, k: nat, u: nat)
    requires HeldOk(workers, loc) && PlacesOk(batches, loc) && f !in batches
    ensures HeldOk(workers, WithFresh(loc, f, k, u))
  {
  }

  lemma SubmitPlacement(s: State, u: nat, op: Op, n: nat, k: nat)
    requires Placement(s) && CanSubmit(s, u, n, k) && s.nextId !in s.batches
    ensures Placement(DoSubmit(s, u, op, n, k))
  {
    var f, b := s.nextId, NewBatch(op, n, k);
    NewBatchOk(op, n, k);
    SubmitPlaces(s.batches, s.loc, f, b, u);
    SubmitSubmissions(s.submitters, s.batches, s.loc, f, b, u);
    SubmitQueues(s.queues, s.lanes, s.batches, s.loc, f, b, u);
    SubmitHeld(s.workers, s.batches, s.loc, f, k, u);
    assert DoSubmit(s, u, op, n, k).loc == WithFresh(s.loc, f, k, u);
  }

  lemma SubmitTables(batches: map<nat, Batch>, workers: map<nat, Worker>, emitted: seq<Completion>, nextId: nat, b: Batch)
    requires BatchesOk(batches, nextId) && WorkersOk(workers, batches) && StagesOk(batches, workers, emitted)
    requires BatchOk(b) && b.stage.Open?
    ensures BatchesOk(batches[nextId := b], nextId + 1)
    ensures WorkersOk(workers, batches[nextId := b])
    ensures StagesOk(batches[nextId := b], workers, emitted)
  {
  }

  lemma SubmitActivity(s: State, u: nat, op: Op, n: nat, k: nat)
    requires Activity(s) && CanSubmit(s, u, n, k)
    ensures Activity(DoSubmit(s, u, op, n, k))
  {
    NewBatchOk(op, n, k);
    SubmitTables(s.batches, s.workers, s.emitted, s.nextId, NewBatch(op, n, k));
  }

  lemma SubmitKeeps(s: State, u: nat, op: Op, n: nat, k: nat)
    requires Inv(s) && CanSubmit(s, u, n, k)
    ensures Inv(DoSubmit(s, u, op, n, k))
  {
    SubmitPlacement(s, u, op, n, k);
    SubmitActivity(s, u, op, n, k);
  }
}
