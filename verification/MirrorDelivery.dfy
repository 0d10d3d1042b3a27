/**
 Delivery at quiescence: in a stretch of a run without relinks, failures or backoff, once everything is idle every
 entry handed to a flush is acknowledged or refused, and nothing is pending.

 The delicate point is the single flight: a call that arrives during a run replaces the argument of the rerun, so a
 stale call must never come after a current one. `Orderly` says why it cannot.
 */
module MirrorDelivery {
  import opened Wrappers
  import opened Seqs
  import opened MirrorMemory
  import opened SingleFlight
  import opened MirrorProtocol
  import opened MirrorInvariants
  import opened MirrorSafety
  import opened MirrorRefusals
  import opened MirrorDurability

  // ---------------------------------------------------------------------------------------------
  // Calls to `deliver` come in the order of their generations
  // ---------------------------------------------------------------------------------------------

  lemma {:induction false} StageGenerationsAppend(ops: seq<Operation>, op: Operation)
    ensures StageGenerations(ops + [op]) == StageGenerations(ops) + if op.job.Stage? then [op.generation] else []
  {
    if ops == [] {
      assert ops + [op] == [op] && [op][1..] == [];
    } else {
      StageGenerationsAppend(ops[1..], op);
      assert (ops + [op])[1..] == ops[1..] + [op] && (ops + [op])[0] == ops[0];
      var first := if ops[0].job.Stage? then [ops[0].generation] else [];
      var last := if op.job.Stage? then [op.generation] else [];
      assert first + (StageGenerations(ops[1..]) + last) == first + StageGenerations(ops[1..]) + last;
    }
  }

  lemma ComingAfterStage(s: State, op: Operation)
    requires op.job.Stage?
    ensures Coming(s.(ops := s.ops + [op])) == Coming(s) + [op.generation]
  {
    StageGenerationsAppend(s.ops, op);
  }

  lemma ComingAfterClear(s: State, op: Operation)
    requires op.job.Clear?
    ensures Coming(s.(ops := s.ops + [op])) == Coming(s)
  {
    StageGenerationsAppend(s.ops, op);
  }

  /** Finishing an operation hands its place on to the flush, or removes it. */
  lemma ComingAfterFinish(s: State, ok: bool)
    requires s.ops != []
    ensures var s' := FinishOperation(s, ok);
      Coming(s') == if s.ops[0].job.Stage? && !ok
                    then Coming(s)[..|s.staged|] + Coming(s)[|s.staged| + 1..]
                    else Coming(s)
  {
    var g := s.ops[0].generation;
    var before, rest := StagedGenerations(s.staged), StageGenerations(s.ops[1..]);
    if s.ops[0].job.Stage? {
      assert Coming(s) == before + ([g] + rest);
      var r := Request(Some(s.ops[0].conversation), g);
      assert StagedGenerations(s.staged + [r]) == before + [g];
      assert before + ([g] + rest) == (before + [g]) + rest;
    } else {
      assert Coming(s) == before + ([] + rest);
    }
  }

  lemma ComingAfterPhase(s: State, phase: Phase)
    requires s.ops != []
    ensures Coming(WithPhase(s, phase)) == Coming(s)
  {
    assert WithPhase(s, phase).ops[1..] == s.ops[1..];
  }

  lemma ComingAfterCall(s: State)
    requires s.staged != []
    ensures Coming(s) == [s.staged[0].generation] + Coming(s.(staged := s.staged[1..]))
  {
    assert StagedGenerations(s.staged) == [s.staged[0].generation] + StagedGenerations(s.staged[1..]);
  }

  /** Starting a run adds at most a clear operation and a link. */
  lemma LaunchOrderly(s: State, reply: Reply<Request>, now: int)
    requires Orderly(s.(flight := reply.flight, delivery := if reply.start.Some? then Done(true) else s.delivery))
    ensures Orderly(Launch(s, reply, now))
  {
    if reply.start.Some? {
      var s1 := s.(flight := reply.flight);
      var r := reply.start.value;
      if r.conversation.Some? && IsCurrentLink(s.m, r.generation, r.conversation.value) && s.m.linked {
        ComingAfterClear(s1, Operation(r.conversation.value, r.generation, Clear, Waiting));
      }
    }
  }

  lemma NextChunkOrderly(s: State, c: string, g: nat, chunks: seq<seq<Entry>>, refused: set<string>)
    requires Orderly(s.(delivery := Done(true)))
    requires g == s.m.generation ==> s.m.linked && s.m.rejected <= refused
    ensures Orderly(NextChunk(s, c, g, chunks, refused))
  {
    ComingAfterClear(s, Operation(c, g, Clear, Waiting));
  }

  lemma DispatchOrderly(s: State, c: string, g: nat, now: int)
    requires Orderly(s.(delivery := Done(true))) && s.m.linked
    ensures Orderly(Dispatch(s, c, g, now))
  {
    ComingAfterClear(s, Operation(c, g, Clear, Waiting));
  }

  lemma CallsOrderly(s: State, a: Action)
    requires Safe(s) && Orderly(s) && Enabled(s, a)
    requires a.CallLink? || a.CallUnlink? || a.CallFlush?
    ensures Orderly(Step(s, a))
  {
    assert DeliveryOk(s.m, s.delivery);
    if a.CallFlush? {
      if s.m.conversation.Some? {
        AddLast(Coming(s), s.flight.latest, s.m.generation);
        ComingAfterStage(s, Operation(s.m.conversation.value, s.m.generation, Stage(a.entries), Waiting));
      } else {
        LaunchOrderly(s, AfterCall(s.flight, Request(None, s.m.generation)), a.now);
      }
    }
  }

  lemma FlushDeliversOrderly(s: State, now: int)
    requires Orderly(s) && Enabled(s, FlushDelivers(now))
    ensures Orderly(Step(s, FlushDelivers(now)))
  {
    ComingAfterCall(s);
    var s1 := s.(staged := s.staged[1..]);
    TakeFirst(s.staged[0], Coming(s1), s.flight.latest, s.m.generation);
    LaunchOrderly(s1, AfterCall(s.flight, s.staged[0]), now);
  }

  lemma EndRunOrderly(s: State, now: int)
    requires Orderly(s) && Enabled(s, EndRun(now))
    ensures Orderly(Step(s, EndRun(now)))
  {
    LaunchOrderly(s.(delivery := Idle), AfterSettle(s.flight, s.delivery.ok), now);
  }

  /** The head of the queue is through, or waits for something else. */
  predicate HeadMoves(s: State, s': State)
    requires s.ops != []
  {
    var s1 := s.(m := s'.m, w := s'.w);
    || s' == FinishOperation(s1, true) || s' == FinishOperation(s1, false)
    || (s'.ops != [] && s' == WithPhase(s1, s'.ops[0].phase))
  }

  lemma StartMovesHead(s: State)
    requires Enabled(s, StartOperation)
    ensures HeadMoves(s, Step(s, StartOperation))
  {
    hide Missing;
  }

  lemma ReadMovesHead(s: State, readable: bool)
    requires Enabled(s, ReadOutbox(readable))
    ensures HeadMoves(s, Step(s, ReadOutbox(readable)))
  {
    hide Missing, OutboxLoaded, OutboxOf;
  }

  lemma AppendMovesHead(s: State, written: nat, ok: bool)
    requires Enabled(s, AppendOutbox(written, ok))
    ensures HeadMoves(s, Step(s, AppendOutbox(written, ok)))
  {
    hide StageCommitted, OutboxOf;
  }

  lemma RemoveMovesHead(s: State, gone: bool, ok: bool)
    requires Enabled(s, RemoveOutbox(gone, ok))
    ensures HeadMoves(s, Step(s, RemoveOutbox(gone, ok)))
  {
    hide OutboxRemoved;
  }

  lemma OperationMovesHead(s: State, a: Action)
    requires Enabled(s, a) && (a.StartOperation? || a.ReadOutbox? || a.AppendOutbox? || a.RemoveOutbox?)
    ensures s.ops != [] && HeadMoves(s, Step(s, a))
  {
    hide Step, HeadMoves;
    match a
    case StartOperation => StartMovesHead(s);
    case ReadOutbox(readable) => ReadMovesHead(s, readable);
    case AppendOutbox(written, ok) => AppendMovesHead(s, written, ok);
    case RemoveOutbox(gone, ok) => RemoveMovesHead(s, gone, ok);
  }

  /** An operation keeps the order of the coming calls, drops one of them, or none. */
  lemma OperationComing(s: State, a: Action)
    requires Enabled(s, a) && (a.StartOperation? || a.ReadOutbox? || a.AppendOutbox? || a.RemoveOutbox?)
    ensures Coming(Step(s, a)) == Coming(s)
         || (|s.staged| < |Coming(s)| && Coming(Step(s, a)) == Coming(s)[..|s.staged|] + Coming(s)[|s.staged| + 1..])
  {
    OperationMovesHead(s, a);
    hide Step, Enabled, FinishOperation, WithPhase;
    var s' := Step(s, a);
    var s1 := s.(m := s'.m, w := s'.w);
    assert Coming(s1) == Coming(s);
    if s' == FinishOperation(s1, true) {
      ComingAfterFinish(s1, true);
    } else if s' == FinishOperation(s1, false) {
      ComingAfterFinish(s1, false);
    } else {
      ComingAfterPhase(s1, s'.ops[0].phase);
    }
  }

  lemma DropOne(gs: seq<nat>, n: nat, latest: Option<Request>, generation: nat)
    requires n < |gs| && CallsInOrder(gs, latest, generation)
    ensures CallsInOrder(gs[..n] + gs[n + 1..], latest, generation)
  {
    var rest := gs[..n] + gs[n + 1..];
    forall i | 0 <= i < |rest|
      ensures rest[i] == gs[if i < n then i else i + 1]
    {
    }
    forall g | g in rest
      ensures g in gs
    {
      var i :| 0 <= i < |rest| && rest[i] == g;
      assert gs[if i < n then i else i + 1] == g;
    }
  }

  lemma AddLast(gs: seq<nat>, latest: Option<Request>, generation: nat)
    requires CallsInOrder(gs, latest, generation)
    ensures CallsInOrder(gs + [generation], latest, generation)
  {
    forall i, j | 0 <= i < j < |gs| + 1
      ensures (gs + [generation])[i] <= (gs + [generation])[j]
    {
      assert gs[i] in gs;
    }
  }

  lemma TakeFirst(r: Request, rest: seq<nat>, latest: Option<Request>, generation: nat)
    requires CallsInOrder([r.generation] + rest, latest, generation)
    ensures CallsInOrder(rest, Some(r), generation) && CallsInOrder(rest, latest, generation)
  {
    var gs := [r.generation] + rest;
    forall i | 0 <= i < |rest|
      ensures rest[i] == gs[i + 1] && rest[i] in gs
    {
    }
    assert gs[0] in gs;
  }

  lemma OperationsOrderly(s: State, a: Action)
    requires Safe(s) && Orderly(s) && Enabled(s, a)
    requires a.StartOperation? || a.ReadOutbox? || a.AppendOutbox? || a.RemoveOutbox?
    ensures Orderly(Step(s, a))
  {
    hide Safe, Enabled, Step, Coming;
    OperationComing(s, a);
    OperationsSpareLink(s, a);
    if Coming(Step(s, a)) != Coming(s) {
      DropOne(Coming(s), |s.staged|, s.flight.latest, s.m.generation);
    }
  }

  /** What operations on the outbox leave alone. */
  predicate LinkSpared(s: State, s': State) {
    && s'.m.linked == s.m.linked && s'.m.generation == s.m.generation && s'.m.conversation == s.m.conversation
    && s'.m.acknowledged == s.m.acknowledged && s'.m.rejected == s.m.rejected
    && s'.m.nextAttemptAt == s.m.nextAttemptAt
    && s'.links == s.links && s'.flight == s.flight && s'.w.server == s.w.server
    && (s'.delivery == s.delivery || s'.delivery.Cleared?)
    && forall r :: r in s'.staged ==> r in s.staged || r.conversation.Some?
  }

  lemma OperationsSpareLink(s: State, a: Action)
    requires Safe(s) && Enabled(s, a) && (a.StartOperation? || a.ReadOutbox? || a.AppendOutbox? || a.RemoveOutbox?)
    ensures LinkSpared(s, Step(s, a))
  {
    hide Safe, Enabled, Step, LinkSpared;
    if a.ReadOutbox? {
      ReadSparesLink(s, a);
    } else if a.AppendOutbox? {
      AppendSparesLink(s, a.written, a.ok);
    } else if a.StartOperation? {
      StartSparesLink(s, a);
    } else {
      RemoveSparesLink(s, a.gone, a.ok);
    }
  }

  lemma ReadSparesLink(s: State, a: Action)
    requires Safe(s) && Enabled(s, a) && a.ReadOutbox?
    ensures LinkSpared(s, Step(s, a))
  {
    if HeadIsCurrent(s) {
      assert s.m.outboxConversation.None? by {
        assert HeadOk(s.m, s.ops[0]) && MemoryOk(s.m);
      }
      LoadedFacts(s.m, if a.readable then OutboxOf(s.w, s.ops[0].conversation) else []);
    }
  }

  lemma AppendSparesLink(s: State, written: nat, ok: bool)
    requires Enabled(s, AppendOutbox(written, ok))
    ensures LinkSpared(s, Step(s, AppendOutbox(written, ok)))
  {
    var missing := s.ops[0].phase.missing;
    CommittedSparesRest(s.m, missing);
    hide CommittedAll, OutboxOf, FinishOperation;
    var s1 := if missing == [] then s else s.(w := Appended(s.w, s.ops[0].conversation, missing[..written]));
    FinishSpares(if ok && HeadIsCurrent(s) then s1.(m := StageCommitted(s.m, missing)) else s1, ok);
  }

  lemma StartSparesLink(s: State, a: Action)
    requires Enabled(s, a) && a.StartOperation?
    ensures LinkSpared(s, Step(s, a))
  {
    FinishSpares(if HeadIsCurrent(s) then s.(m := Counted(s.m)) else s, true);
    hide FinishOperation, Missing;
  }

  lemma RemoveSparesLink(s: State, gone: bool, ok: bool)
    requires Enabled(s, RemoveOutbox(gone, ok))
    ensures LinkSpared(s, Step(s, RemoveOutbox(gone, ok)))
  {
    var c := s.ops[0].conversation;
    var s1 := if gone then s.(w := s.w.(outbox := s.w.outbox - {c})) else s;
    FinishSpares(if ok then s1.(m := OutboxRemoved(s.m, c)) else s1, ok);
    hide FinishOperation;
  }

  lemma DeliveryOrderly(s: State, a: Action)
    requires Safe(s) && Orderly(s) && Enabled(s, a)
    requires a.AfterLink? || a.ServerStores? || a.AppendAccepted? || a.AppendRefused? || a.AppendFailed? || a.RejectedWritten? || a.AfterClear?
    ensures Orderly(Step(s, a))
  {
    hide Safe, Orderly, Enabled, Step;
    if a.AfterLink? {
      AfterLinkOrderly(s, a.now);
    } else if a.AppendAccepted? {
      AcceptedOrderly(s);
    } else if a.RejectedWritten? {
      RewriteOrderly(s, a.onDisk, a.ok);
    } else {
      AnswersOrderly(s, a);
    }
  }

  lemma AfterLinkOrderly(s: State, now: int)
    requires Orderly(s) && Enabled(s, AfterLink(now))
    ensures Orderly(Step(s, AfterLink(now)))
  {
    var d := s.delivery;
    if IsCurrentLink(s.m, d.generation, d.conversation) && s.m.linked {
      DispatchOrderly(s, d.conversation, d.generation, now);
    }
  }

  lemma AcceptedOrderly(s: State)
    requires Orderly(s) && Enabled(s, AppendAccepted)
    ensures Orderly(Step(s, AppendAccepted))
  {
    var d := s.delivery;
    if IsCurrentLink(s.m, d.generation, d.conversation) {
      NextChunkOrderly(s.(m := Acknowledged(s.m, d.chunks[0])), d.conversation, d.generation, d.chunks[1..], d.refused);
    }
  }

  lemma RewriteOrderly(s: State, onDisk: set<string>, ok: bool)
    requires Orderly(s) && Enabled(s, RejectedWritten(onDisk, ok))
    ensures Orderly(Step(s, RejectedWritten(onDisk, ok)))
  {
    var d := s.delivery;
    if ok && IsCurrentLink(s.m, d.generation, d.conversation) {
      var w := s.w.(rejected := s.w.rejected[d.conversation := onDisk]);
      NextChunkOrderly(s.(m := Rejected(s.m, d.chunks[0], d.refused), w := w), d.conversation, d.generation, d.chunks[1..], d.refused);
    }
  }

  lemma AnswersOrderly(s: State, a: Action)
    requires Orderly(s) && Enabled(s, a) && (a.ServerStores? || a.AppendRefused? || a.AppendFailed? || a.AfterClear?)
    ensures Orderly(Step(s, a))
  {
  }

  lemma LinkStepsOrderly(s: State, a: Action)
    requires Safe(s) && Orderly(s) && Enabled(s, a) && (a.ListPage? || a.ListFail? || a.ReadRejected?)
    ensures Orderly(Step(s, a))
  {
    assert Coming(Step(s, a)) == Coming(s);
  }

  lemma StepKeepsOrderly(s: State, a: Action)
    requires Safe(s) && Orderly(s) && Enabled(s, a)
    ensures Orderly(Step(s, a))
  {
    hide Safe, Orderly;
    if a.CallLink? || a.CallUnlink? || a.CallFlush? {
      CallsOrderly(s, a);
    } else if a.FlushDelivers? {
      FlushDeliversOrderly(s, a.now);
    } else if a.EndRun? {
      EndRunOrderly(s, a.now);
    } else if a.StartOperation? || a.ReadOutbox? || a.AppendOutbox? || a.RemoveOutbox? {
      OperationsOrderly(s, a);
    } else if a.ListPage? || a.ListFail? || a.ReadRejected? {
      LinkStepsOrderly(s, a);
    } else if a.Crash? {
      StartIsOrderly(CrashedWorld(s, a.written, a.removed, a.onDisk));
    } else {
      DeliveryOrderly(s, a);
    }
  }

  lemma StartIsOrderly(w: World)
    ensures Orderly(Start(w))
  {
  }

  // ---------------------------------------------------------------------------------------------
  // Calm stretches
  // ---------------------------------------------------------------------------------------------

  /** No relink, no unlink, no crash, no failure that a retry could mend, and no attempt held back by the backoff. */
  predicate Calm(s: State, a: Action) {
    match a
    case CallLink(_) => false
    case CallUnlink => false
    case CallFlush(_, _) => true
    case ListPage(link, _, _) => link < s.m.generation
    case ListFail(link, _) => link < s.m.generation
    case ReadRejected(link, _) => link < s.m.generation
    case StartOperation => true
    case ReadOutbox(readable) => readable
    case AppendOutbox(_, ok) => ok
    case RemoveOutbox(_, ok) => ok
    case FlushDelivers(now) => s.m.nextAttemptAt <= now
    case AfterLink(now) => s.m.nextAttemptAt <= now
    case ServerStores(_, _) => true
    case AppendAccepted => true
    case AppendRefused => true
    case AppendFailed(_) => false
    case RejectedWritten(_, ok) => ok
    case AfterClear => true
    case EndRun(now) => s.m.nextAttemptAt <= now && (s.delivery.Done? ==> s.delivery.ok)
    case Crash(_, _, _) => false
  }

  lemma {:induction false} OutstandingIds(pending: seq<string>, outboxEntries: map<string, Entry>)
    requires forall id :: id in pending ==> id in outboxEntries && outboxEntries[id].id == id
    ensures forall id :: id in pending <==> id in Ids(Outstanding(pending, outboxEntries))
    ensures |Outstanding(pending, outboxEntries)| == |pending|
  {
    if pending != [] {
      var n := |pending| - 1;
      OutstandingIds(pending[..n], outboxEntries);
      assert pending == pending[..n] + [pending[n]];
      var first := Outstanding(pending[..n], outboxEntries);
      assert Ids(first + [outboxEntries[pending[n]]]) == Ids(first) + {pending[n]};
    }
  }

  function IdsInOrder(entries: seq<Entry>): seq<string> {
    if entries == [] then [] else IdsInOrder(entries[..|entries| - 1]) + [entries[|entries| - 1].id]
  }

  lemma {:induction false} OutstandingInOrder(pending: seq<string>, outboxEntries: map<string, Entry>)
    requires forall id :: id in pending ==> id in outboxEntries && outboxEntries[id].id == id
    ensures IdsInOrder(Outstanding(pending, outboxEntries)) == pending
  {
    if pending != [] {
      var n := |pending| - 1;
      OutstandingInOrder(pending[..n], outboxEntries);
      assert pending == pending[..n] + [pending[n]];
      var all := Outstanding(pending, outboxEntries);
      assert all[..|all| - 1] == Outstanding(pending[..n], outboxEntries);
    }
  }

  /** What a delivery sets out to send is exactly what is pending, in staging order, in chunks of at most 200. */
  lemma SentInStagingOrder(s: State, c: string, g: nat, now: int)
    requires Safe(s) && Dispatch(s, c, g, now).delivery.Sending?
    ensures var chunks := Dispatch(s, c, g, now).delivery.chunks;
      && IdsInOrder(Flat(chunks)) == s.m.pending
      && (forall b :: b in chunks ==> 0 < |b| <= MAX_ENTRIES_PER_BATCH)
      && forall i :: 0 <= i < |chunks| - 1 ==> |chunks[i]| == MAX_ENTRIES_PER_BATCH
  {
    assert WriteAhead(s.m, s.w) && MemoryOk(s.m);
    hide WriteAhead, Safe, MemoryOk, Batches, Outstanding, IdsInOrder, Flat;
    OutstandingInOrder(s.m.pending, s.m.outboxEntries);
    BatchesCover(Outstanding(s.m.pending, s.m.outboxEntries), MAX_ENTRIES_PER_BATCH);
  }

  /** A dispatched delivery carries everything that is pending. */
  lemma DispatchCovers(s: State, c: string, now: int)
    requires Safe(s) && s.m.nextAttemptAt <= now
    ensures var s' := Dispatch(s, c, s.m.generation, now); s'.m.pending == [] || Carrying(s'.m, s'.delivery)
  {
    assert WriteAhead(s.m, s.w) && MemoryOk(s.m);
    OutstandingIds(s.m.pending, s.m.outboxEntries);
    BatchesCover(Outstanding(s.m.pending, s.m.outboxEntries), MAX_ENTRIES_PER_BATCH);
  }

  // ---------------------------------------------------------------------------------------------
  // Memory in a calm stretch
  // ---------------------------------------------------------------------------------------------

  lemma CalmMemory(s: State, a: Action)
    requires Safe(s) && Orderly(s) && Enabled(s, a) && Calm(s, a) && s.m.linked && Accounted(s.m)
    ensures var m' := Step(s, a).m;
      && m'.linked && m'.generation == s.m.generation && m'.conversation == s.m.conversation
      && Accounted(m') && forall id :: AccountedFor(s.m, id) ==> AccountedFor(m', id)
  {
    CalmKeepsLink(s, a);
    ContentsAfter(s, a);
    var m := s.m;
    if a.ReadOutbox? {
      LoadedFacts(m.(outboxEntries := map[], pending := []), OutboxOf(s.w, s.ops[0].conversation));
    } else if a.AppendOutbox? {
      assert MemoryOk(m);
      CommittedFacts(m, s.ops[0].phase.missing);
    } else if a.RejectedWritten? || a.AppendAccepted? {
      assert DeliveryOk(m, s.delivery) && DeliveryInformed(m, s.links, s.delivery);
    }
  }

  lemma CalmKeepsLink(s: State, a: Action)
    requires Safe(s) && Orderly(s) && Enabled(s, a) && Calm(s, a) && s.m.linked
    ensures var m' := Step(s, a).m; m'.linked && m'.generation == s.m.generation && m'.conversation == s.m.conversation
  {
    if a.StartOperation? || a.ReadOutbox? || a.AppendOutbox? || a.RemoveOutbox? {
      OperationsSpareLink(s, a);
    } else if a.CallFlush? || a.FlushDelivers? || a.EndRun? {
      LaunchKeepsLink(s, a);
    } else {
      OthersKeepLink(s, a);
    }
  }

  lemma OthersKeepLink(s: State, a: Action)
    requires Safe(s) && Orderly(s) && Enabled(s, a) && Calm(s, a) && s.m.linked
    requires !(a.StartOperation? || a.ReadOutbox? || a.AppendOutbox? || a.RemoveOutbox? || a.CallFlush? || a.FlushDelivers? || a.EndRun?)
    ensures var m' := Step(s, a).m; m'.linked && m'.generation == s.m.generation && m'.conversation == s.m.conversation
  {
  }

  lemma LaunchKeepsLink(s: State, a: Action)
    requires Enabled(s, a) && s.m.linked && (a.CallFlush? || a.FlushDelivers? || a.EndRun?)
    ensures var m' := Step(s, a).m; m'.linked && m'.generation == s.m.generation && m'.conversation == s.m.conversation
  {
  }

  // ---------------------------------------------------------------------------------------------
  // What is pending stays covered
  // ---------------------------------------------------------------------------------------------

  /** A run started for a current request covers everything; one started for a stale request changes nothing. */
  lemma LaunchCovers(s: State, reply: Reply<Request>, now: int)
    requires Safe(s) && s.m.linked && s.m.nextAttemptAt <= now && s.delivery.Idle?
    requires reply.start.Some? && reply.start == reply.flight.latest
    requires reply.start.value.conversation.Some? ==> RequestOk(s.m, reply.start.value)
    requires s.m.pending == [] || s.m.generation in Coming(s)
          || (reply.start.value.conversation.Some? && reply.start.value.generation == s.m.generation)
    ensures Covered(Launch(s, reply, now))
  {
    var r := reply.start.value;
    var s1 := s.(flight := reply.flight);
    if r.conversation.Some? && IsCurrentLink(s.m, r.generation, r.conversation.value) {
      assert Safe(s1);
      DispatchCovers(s1, r.conversation.value, now);
    } else {
      assert MemoryOk(s.m);
      assert Coming(Launch(s, reply, now)) == Coming(s);
    }
  }

  lemma FlushDeliversCovers(s: State, now: int)
    requires Safe(s) && Prepared(s) && Orderly(s) && s.m.linked && Covered(s)
    requires Enabled(s, FlushDelivers(now)) && Calm(s, FlushDelivers(now))
    ensures Covered(Step(s, FlushDelivers(now)))
  {
    ComingAfterCall(s);
    var r := s.staged[0];
    var s1 := s.(staged := s.staged[1..]);
    var reply := AfterCall(s.flight, r);
    assert r in s.staged && RequestOk(s.m, r);
    assert Coming(s)[0] == r.generation;
    if r.generation != s.m.generation {
      assert s.m.generation in Coming(s) ==> s.m.generation in Coming(s1);
    }
    assert r.generation in Coming(s);
    assert RerunComing(s) ==> r.generation == s.m.generation;
    if reply.start.Some? {
      assert Safe(s1);
      LaunchCovers(s1, reply, now);
    } else {
      assert Coming(Step(s, FlushDelivers(now))) == Coming(s1);
    }
  }

  lemma EndRunCovers(s: State, now: int)
    requires Safe(s) && Prepared(s) && Orderly(s) && s.m.linked && Covered(s)
    requires Enabled(s, EndRun(now)) && Calm(s, EndRun(now))
    ensures Covered(Step(s, EndRun(now)))
  {
    var s1 := s.(delivery := Idle);
    var reply := AfterSettle(s.flight, s.delivery.ok);
    IdleKeeps(s);
    assert Coming(s1) == Coming(s);
    if reply.start.Some? {
      LaunchCovers(s1, reply, now);
    } else {
      assert Coming(Step(s, EndRun(now))) == Coming(s);
    }
  }

  lemma CallFlushCovers(s: State, entries: seq<SessionEntry>, now: int)
    requires s.m.conversation.Some?
    ensures Covered(Step(s, CallFlush(entries, now)))
  {
    var op := Operation(s.m.conversation.value, s.m.generation, Stage(entries), Waiting);
    ComingAfterStage(s, op);
    assert (Coming(s) + [s.m.generation])[|Coming(s)|] == s.m.generation;
  }

  /** The current stage operation at the head is itself a call to come, before and after it finishes. */
  lemma StageAtHeadIsComing(s: State)
    requires s.ops != [] && s.ops[0].job.Stage?
    ensures s.ops[0].generation in Coming(s)
  {
    assert Coming(s)[|s.staged|] == s.ops[0].generation;
  }

  lemma OperationsCover(s: State, a: Action)
    requires Safe(s) && Orderly(s) && Enabled(s, a) && Calm(s, a) && Covered(s)
    requires a.StartOperation? || a.ReadOutbox? || a.AppendOutbox? || a.RemoveOutbox?
    ensures Covered(Step(s, a))
  {
    CalmComing(s, a);
    OperationsSpareLink(s, a);
    ContentsAfter(s, a);
    if (a.ReadOutbox? || a.AppendOutbox?) && Step(s, a).m.pending != s.m.pending {
      StageAtHeadIsComing(s);
    }
  }

  lemma CalmComing(s: State, a: Action)
    requires Enabled(s, a) && Calm(s, a) && (a.StartOperation? || a.ReadOutbox? || a.AppendOutbox? || a.RemoveOutbox?)
    ensures Coming(Step(s, a)) == Coming(s)
  {
    var s' := Step(s, a);
    var s1 := s.(m := s'.m, w := s'.w);
    assert Coming(s1) == Coming(s);
    if s' == FinishOperation(s1, true) {
      ComingAfterFinish(s1, true);
    } else {
      assert s' == WithPhase(s1, s'.ops[0].phase);
      ComingAfterPhase(s1, s'.ops[0].phase);
    }
  }

  lemma AcceptedCovers(m: Memory, chunks: seq<seq<Entry>>, gone: set<string>)
    requires chunks != [] && gone == Ids(chunks[0])
    requires forall id :: id in m.pending ==> id in Ids(Flat(chunks))
    ensures forall id :: id in Without(m.pending, gone) ==> id in Ids(Flat(chunks[1..]))
  {
    FlatFirst(chunks);
    assert Ids(Flat(chunks)) == Ids(chunks[0]) + Ids(Flat(chunks[1..]));
  }

  lemma NextChunkCovers(s: State, s1: State, d: Delivery)
    requires (d.Sending? || d.WritingRejected?) && d.chunks != [] && s.delivery == d && Covered(s)
    requires s1.m.pending == Without(s.m.pending, Ids(d.chunks[0])) && s1.m.generation == s.m.generation
    requires s1.ops == s.ops && s1.staged == s.staged && s1.flight == s.flight
    ensures Covered(NextChunk(s1, d.conversation, d.generation, d.chunks[1..], d.refused))
  {
    var s' := NextChunk(s1, d.conversation, d.generation, d.chunks[1..], d.refused);
    ComingAfterClear(s1, Operation(d.conversation, d.generation, Clear, Waiting));
    assert Coming(s1) == Coming(s);
    if Carrying(s.m, d) {
      AcceptedCovers(s.m, d.chunks, Ids(d.chunks[0]));
      if d.chunks[1..] == [] {
        assert Ids(Flat(d.chunks[1..])) == {};
        assert |s1.m.pending| > 0 ==> s1.m.pending[0] in s1.m.pending;
      }
    }
  }

  lemma DeliveryCovers(s: State, a: Action)
    requires Safe(s) && Orderly(s) && s.m.linked && Enabled(s, a) && Calm(s, a) && Covered(s)
    requires a.ListPage? || a.ListFail? || a.ReadRejected? || a.AfterLink? || a.ServerStores? || a.AppendAccepted?
          || a.AppendRefused? || a.RejectedWritten? || a.AfterClear?
    ensures Covered(Step(s, a))
  {
    var d, s' := s.delivery, Step(s, a);
    if a.AfterLink? {
      if IsCurrentLink(s.m, d.generation, d.conversation) && s.links[d.generation].step.Returned? {
        DispatchCovers(s, d.conversation, a.now);
      } else {
        assert Coming(s') == Coming(s);
      }
    } else if a.AppendAccepted? && IsCurrentLink(s.m, d.generation, d.conversation) {
      NextChunkCovers(s, s.(m := Acknowledged(s.m, d.chunks[0])), d);
    } else if a.RejectedWritten? && IsCurrentLink(s.m, d.generation, d.conversation) {
      var w := s.w.(rejected := s.w.rejected[d.conversation := a.onDisk]);
      NextChunkCovers(s, s.(m := Rejected(s.m, d.chunks[0], d.refused), w := w), d);
    } else {
      assert Coming(s') == Coming(s);
      assert DeliveryOk(s.m, d);
    }
  }

  // ---------------------------------------------------------------------------------------------
  // What was handed to a flush is on its way
  // ---------------------------------------------------------------------------------------------

  function FlushedBy(a: Action): set<string> {
    if a.CallFlush? then EntryIds(a.entries) else {}
  }

  lemma {:induction false} MissingIds(m: Memory, entries: seq<SessionEntry>)
    ensures forall id :: id in EntryIds(entries) ==> Known(m, id) || id in Ids(Missing(m, entries))
  {
    if entries != [] {
      var n := |entries| - 1;
      MissingIds(m, entries[..n]);
      assert entries == entries[..n] + [entries[n]];
      var first := Missing(m, entries[..n]);
      assert Ids(first + [Staged(entries[n])]) == Ids(first) + {entries[n].id};
    }
  }

  /** An operation that was not the head, or stays the head as it was, goes on carrying what it carried. */
  lemma OtherOperationsCarry(s: State, a: Action, id: string, op: Operation)
    requires Enabled(s, a) && Step(s, a).m.generation == s.m.generation && !a.Crash?
    requires op in s.ops && Carries(s.m, op, id)
    requires a.StartOperation? || a.ReadOutbox? || a.AppendOutbox? || a.RemoveOutbox? ==> op in s.ops[1..]
    ensures op in Step(s, a).ops && Carries(Step(s, a).m, op, id)
  {
    hide Carries;
    if a.StartOperation? || a.ReadOutbox? || a.AppendOutbox? || a.RemoveOutbox? {
      TailStays(s, a);
    } else {
      QueueGrows(s, a);
    }
    hide Step;
    CarriesAlike(s.m, Step(s, a).m, op, id);
  }

  lemma CarriesAlike(m: Memory, m': Memory, op: Operation, id: string)
    requires m.generation == m'.generation
    ensures Carries(m, op, id) == Carries(m', op, id)
  {
  }

  lemma TailStays(s: State, a: Action)
    requires Enabled(s, a) && (a.StartOperation? || a.ReadOutbox? || a.AppendOutbox? || a.RemoveOutbox?)
    ensures Step(s, a).ops == s.ops[1..] || (Step(s, a).ops != [] && Step(s, a).ops[1..] == s.ops[1..])
  {
  }

  lemma QueueGrows(s: State, a: Action)
    requires Enabled(s, a) && !a.Crash? && !(a.StartOperation? || a.ReadOutbox? || a.AppendOutbox? || a.RemoveOutbox?)
    ensures s.ops <= Step(s, a).ops
  {
  }

  /** The head of the queue carries an entry until it is pending. */
  lemma HeadCarries(s: State, a: Action, id: string)
    requires Safe(s) && Orderly(s) && Enabled(s, a) && Calm(s, a) && s.m.linked && Accounted(s.m)
    requires a.StartOperation? || a.ReadOutbox? || a.AppendOutbox? || a.RemoveOutbox?
    requires Carries(s.m, s.ops[0], id)
    ensures var s' := Step(s, a);
      AccountedFor(s'.m, id) || (s'.ops != [] && Carries(s'.m, s'.ops[0], id))
  {
    var op := s.ops[0];
    assert Owned(s.m, op.generation, op.conversation) && HeadIsCurrent(s);
    if a.AppendOutbox? {
      assert MemoryOk(s.m);
      CommittedFacts(s.m, op.phase.missing);
    } else if a.ReadOutbox? {
      assert HeadOk(s.m, op) && MemoryOk(s.m);
      var outbox := OutboxOf(s.w, op.conversation);
      LoadedFacts(s.m, outbox);
      MissingIds(OutboxLoaded(s.m, op.conversation, outbox), op.job.entries);
    } else {
      MissingIds(s.m, op.job.entries);
    }
  }

  lemma HandedInStays(s: State, a: Action, flushed: set<string>)
    requires Safe(s) && Orderly(s) && Enabled(s, a) && Calm(s, a) && s.m.linked && Accounted(s.m) && HandedIn(s, flushed)
    ensures HandedIn(Step(s, a), flushed + FlushedBy(a))
  {
    var s' := Step(s, a);
    CalmMemory(s, a);
    forall id | id in flushed + FlushedBy(a)
      ensures AccountedFor(s'.m, id) || exists op :: op in s'.ops && Carries(s'.m, op, id)
    {
      hide Safe, Orderly, Accounted, Step, Enabled, Calm;
      if id in flushed && !AccountedFor(s.m, id) {
        var op :| op in s.ops && Carries(s.m, op, id);
        CarriedOn(s, a, id, op);
      } else if id !in flushed {
        FlushIsCarried(s, a, id);
      }
    }
  }

  lemma FlushIsCarried(s: State, a: Action, id: string)
    requires Safe(s) && Orderly(s) && Enabled(s, a) && s.m.linked && id in FlushedBy(a)
    ensures exists op :: op in Step(s, a).ops && Carries(Step(s, a).m, op, id)
  {
    assert DeliveryInformed(s.m, s.links, s.delivery);
    var op := Operation(s.m.conversation.value, s.m.generation, Stage(a.entries), Waiting);
    var ops := Step(s, a).ops;
    assert ops == s.ops + [op];
    assert ops[|s.ops|] == op;
    assert op in ops && Carries(Step(s, a).m, op, id);
  }

  lemma CarriedOn(s: State, a: Action, id: string, op: Operation)
    requires Safe(s) && Orderly(s) && Enabled(s, a) && Calm(s, a) && s.m.linked && Accounted(s.m)
    requires op in s.ops && Carries(s.m, op, id)
    ensures AccountedFor(Step(s, a).m, id) || exists op' :: op' in Step(s, a).ops && Carries(Step(s, a).m, op', id)
  {
    CalmKeepsLink(s, a);
    var onQueue := a.StartOperation? || a.ReadOutbox? || a.AppendOutbox? || a.RemoveOutbox?;
    if onQueue && op !in s.ops[1..] {
      assert op == s.ops[0];
      HeadCarries(s, a, id);
    } else {
      OtherOperationsCarry(s, a, id, op);
    }
  }

  // ---------------------------------------------------------------------------------------------
  // Quiescence
  // ---------------------------------------------------------------------------------------------

  ghost predicate Settling(s: State, flushed: set<string>) {
    s.m.linked && Accounted(s.m) && Covered(s) && HandedIn(s, flushed)
  }

  lemma StepKeepsCovered(s: State, a: Action)
    requires Safe(s) && Prepared(s) && Orderly(s) && s.m.linked && Enabled(s, a) && Calm(s, a) && Covered(s)
    ensures Covered(Step(s, a))
  {
    assert s.m.conversation.Some? by {
      assert DeliveryInformed(s.m, s.links, s.delivery);
    }
    hide Safe, Prepared, Orderly, Covered;
    if a.CallFlush? {
      CallFlushCovers(s, a.entries, a.now);
    } else if a.FlushDelivers? {
      FlushDeliversCovers(s, a.now);
    } else if a.EndRun? {
      EndRunCovers(s, a.now);
    } else if a.StartOperation? || a.ReadOutbox? || a.AppendOutbox? || a.RemoveOutbox? {
      OperationsCover(s, a);
    } else {
      DeliveryCovers(s, a);
    }
  }

  lemma StepKeepsSettling(s: State, a: Action, flushed: set<string>)
    requires Safe(s) && Prepared(s) && Orderly(s) && Enabled(s, a) && Calm(s, a) && Settling(s, flushed)
    ensures Settling(Step(s, a), flushed + FlushedBy(a))
  {
    CalmMemory(s, a);
    StepKeepsCovered(s, a);
    HandedInStays(s, a, flushed);
  }

  predicate AllCalm(s: State, actions: seq<Action>)
    decreases |actions|
  {
    actions == [] || (Enabled(s, actions[0]) && Calm(s, actions[0]) && AllCalm(Step(s, actions[0]), actions[1..]))
  }

  function Flushed(actions: seq<Action>): set<string> {
    if actions == [] then {} else FlushedBy(actions[0]) + Flushed(actions[1..])
  }

  lemma {:induction false} CalmRunSettles(s: State, actions: seq<Action>, s': State, flushed: set<string>)
    requires Safe(s) && Prepared(s) && Orderly(s) && Settling(s, flushed)
    requires Runs(s, actions, s') && AllCalm(s, actions)
    ensures Settling(s', flushed + Flushed(actions))
    decreases |actions|
  {
    if actions == [] {
      assert flushed + Flushed(actions) == flushed;
    } else {
      hide Safe, Prepared, Orderly, Settling;
      StepKeepsSafe(s, actions[0]);
      StepKeepsPrepared(s, actions[0]);
      StepKeepsOrderly(s, actions[0]);
      StepKeepsSettling(s, actions[0], flushed);
      CalmRunSettles(Step(s, actions[0]), actions[1..], s', flushed + FlushedBy(actions[0]));
      assert flushed + Flushed(actions) == flushed + FlushedBy(actions[0]) + Flushed(actions[1..]);
    }
  }

  /** Every flush has returned and no delivery runs. */
  predicate AtRest(s: State) {
    s.ops == [] && s.staged == [] && !s.flight.running
  }

  /** A flush and, after it, a calm run to rest. */
  ghost predicate CalmFlush(s: State, entries: seq<SessionEntry>, now: int, rest: seq<Action>, s': State) {
    var flushed := Step(s, CallFlush(entries, now));
    Runs(flushed, rest, s') && AllCalm(flushed, rest) && AtRest(s')
  }

  predicate SettledIn(m: Memory, id: string) {
    id in m.acknowledged || id in m.rejected
  }

  /** States that some run from a fresh start reaches, with refusal files that are true when it begins. */
  ghost predicate Reachable(s: State) {
    exists w, actions :: HonestFiles(w) && Runs(Start(w), actions, s)
  }

  lemma {:induction false} RunKeepsInvariants(s: State, actions: seq<Action>, s': State)
    requires Safe(s) && Prepared(s) && Orderly(s) && Runs(s, actions, s')
    ensures Safe(s') && Prepared(s') && Orderly(s')
    decreases |actions|
  {
    hide Safe, Prepared, Orderly;
    if actions != [] {
      StepKeepsSafe(s, actions[0]);
      StepKeepsPrepared(s, actions[0]);
      StepKeepsOrderly(s, actions[0]);
      RunKeepsInvariants(Step(s, actions[0]), actions[1..], s');
    }
  }

  lemma ReachableInvariants(s: State)
    requires Reachable(s)
    ensures Safe(s) && Prepared(s) && Orderly(s) && Honest(s)
  {
    var w, actions :| HonestFiles(w) && Runs(Start(w), actions, s);
    StartIsSafe(w);
    StartIsPrepared(w);
    StartIsOrderly(w);
    StartIsHonest(w);
    hide Safe, Prepared, Orderly, Honest;
    RunKeepsInvariants(Start(w), actions, s);
    EveryRunIsHonest(Start(w), actions, s);
  }

  /**
   Main result: from any reachable linked state in which no staged entry is forgotten, after a flush and any calm
   stretch that ends idle, nothing is pending and every entry handed to any of the flushes is acknowledged by the
   server or refused.
   */
  lemma DeliveredAtQuiescence(s: State, entries: seq<SessionEntry>, now: int, rest: seq<Action>, s': State)
    requires Reachable(s) && s.m.linked && Accounted(s.m) && CalmFlush(s, entries, now, rest, s')
    ensures s'.m.pending == []
    ensures forall id :: id in EntryIds(entries) + Flushed(rest) ==> SettledIn(s'.m, id)
  {
    hide Safe, Prepared, Orderly, Settling, AtRest, Reachable, Step, SettledIn;
    var a := CallFlush(entries, now);
    ReachableInvariants(s);
    FlushSettles(s, entries, now);
    StepKeepsSafe(s, a);
    StepKeepsPrepared(s, a);
    StepKeepsOrderly(s, a);
    CalmRunSettles(Step(s, a), rest, s', EntryIds(entries));
    RunKeepsInvariants(Step(s, a), rest, s');
    SettledAtRest(s', EntryIds(entries) + Flushed(rest));
  }

  lemma FlushSettles(s: State, entries: seq<SessionEntry>, now: int)
    requires Safe(s) && Prepared(s) && Orderly(s) && s.m.linked && Accounted(s.m)
    ensures Enabled(s, CallFlush(entries, now)) && Settling(Step(s, CallFlush(entries, now)), EntryIds(entries))
  {
    var a := CallFlush(entries, now);
    assert s.m.conversation.Some? by {
      assert DeliveryInformed(s.m, s.links, s.delivery);
    }
    assert {} + FlushedBy(a) == EntryIds(entries);
    hide Safe, Prepared, Orderly, Step, Accounted, HandedIn, Covered;
    CallFlushCovers(s, entries, now);
    CalmMemory(s, a);
    NothingHandedIn(s);
    HandedInStays(s, a, {});
  }

  lemma NothingHandedIn(s: State)
    ensures HandedIn(s, {})
  {
  }

  /** At rest there is nothing left that could carry an entry. */
  lemma SettledAtRest(s: State, flushed: set<string>)
    requires Prepared(s) && Settling(s, flushed) && AtRest(s)
    ensures s.m.pending == [] && forall id :: id in flushed ==> SettledIn(s.m, id)
  {
    assert Coming(s) == [] && s.delivery.Idle?;
  }

  /** The start condition holds whenever the outbox is not in memory yet, and only a relink of the same conversation can break it. */
  lemma AccountedUnlessRelinked(s: State, a: Action)
    requires Safe(s) && Orderly(s) && Enabled(s, a) && Accounted(s.m) && !a.ReadRejected?
    ensures Accounted(Step(s, a).m)
  {
    if !Leaves(s, a) {
      ContentsAfter(s, a);
      if a.ReadOutbox? {
        LoadedFacts(s.m.(outboxEntries := map[], pending := []), if a.readable then OutboxOf(s.w, s.ops[0].conversation) else []);
      } else if a.AppendOutbox? {
        assert MemoryOk(s.m);
        CommittedFacts(s.m, s.ops[0].phase.missing);
      } else if a.RejectedWritten? || a.AppendAccepted? {
        assert DeliveryOk(s.m, s.delivery) && DeliveryInformed(s.m, s.links, s.delivery);
      }
    }
  }

  /** A completed relink keeps it exactly when it finds again every settled entry that is still staged. */
  lemma AccountedAfterRelink(m: Memory, listed: set<string>, refused: set<string>)
    requires Accounted(m)
    ensures Accounted(LinkCompleted(m, listed, refused)) <==>
            forall id :: id in m.outboxEntries && id !in m.pending ==> id in listed || id in refused
  {
  }
}
