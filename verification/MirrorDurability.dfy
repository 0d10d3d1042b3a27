/**
 What survives relinks, unlinks, switches and crashes: once an id is pending for a conversation, its line stays in
 that conversation's outbox file until the server has the entry or has refused it, as long as the file can be read.
 */
module MirrorDurability {
  import opened Wrappers
  import opened MirrorMemory
  import opened SingleFlight
  import opened MirrorProtocol
  import opened MirrorInvariants
  import opened MirrorSafety
  import opened MirrorRefusals

  /** Memory in which what was ready is still ready. */
  predicate Forward(m: Memory, m': Memory) {
    || m.generation < m'.generation
    || (m'.generation == m.generation && (m.outboxConversation.Some? ==> m'.outboxConversation == m.outboxConversation))
  }

  lemma ForwardKeeps(s: State, m': Memory)
    requires Prepared(s) && Forward(s.m, m') && OperationsOk(s.m, s.ops) && DeliveryOk(s.m, s.delivery)
    ensures Prepared(s.(m := m'))
  {
  }

  lemma DispatchPrepared(s: State, c: string, g: nat, now: int)
    requires Prepared(s) && s.flight.running && Ready(s.m, g, c)
    ensures Prepared(Dispatch(s, c, g, now))
  {
  }

  lemma StartRunPrepared(s: State, r: Request, now: int)
    requires Prepared(s.(delivery := Done(true))) && OperationsOk(s.m, s.ops) && RequestOk(s.m, r)
    ensures Prepared(StartRun(s, r, now))
  {
    if r.conversation.Some? && IsCurrentLink(s.m, r.generation, r.conversation.value) {
      var s1 := s.(delivery := Done(true));
      if s.m.linked {
        DispatchPrepared(s1, r.conversation.value, r.generation, now);
      } else {
        ForwardKeeps(s1, LinkBegun(Counted(s.m), r.conversation.value));
      }
    }
  }

  lemma LaunchPrepared(s: State, reply: Reply<Request>, now: int)
    requires Prepared(s.(flight := reply.flight, delivery := if reply.start.Some? then Done(true) else s.delivery))
    requires OperationsOk(s.m, s.ops)
    requires reply.start.Some? ==> RequestOk(s.m, reply.start.value)
    ensures Prepared(Launch(s, reply, now))
  {
    if reply.start.Some? {
      StartRunPrepared(s.(flight := reply.flight), reply.start.value, now);
    }
  }

  lemma CallsPrepared(s: State, a: Action)
    requires Safe(s) && Prepared(s) && Enabled(s, a)
    requires a.CallLink? || a.CallUnlink? || a.CallFlush? || a.FlushDelivers? || a.EndRun?
    ensures Prepared(Step(s, a))
  {
    match a
    case CallLink(c) =>
      ForwardKeeps(s, LinkBegun(s.m, c));
    case CallUnlink =>
      ForwardKeeps(s, Unlinked(s.m));
    case CallFlush(_, now) =>
      if s.m.conversation.None? {
        LaunchPrepared(s, AfterCall(s.flight, Request(None, s.m.generation)), now);
      }
    case FlushDelivers(now) =>
      LaunchPrepared(s.(staged := s.staged[1..]), AfterCall(s.flight, s.staged[0]), now);
    case EndRun(now) =>
      LaunchPrepared(s.(delivery := Idle), AfterSettle(s.flight, s.delivery.ok), now);
  }

  lemma FinishPrepared(s: State, ok: bool)
    requires Prepared(s) && s.ops != []
    requires s.ops[0].job.Stage? && ok ==> RequestOk(s.m, Request(Some(s.ops[0].conversation), s.ops[0].generation))
    ensures Prepared(FinishOperation(s, ok))
  {
    assert forall i :: 0 <= i < |s.ops| - 1 ==> s.ops[1..][i] == s.ops[i + 1];
  }

  lemma PhasePrepared(s: State, phase: Phase)
    requires Prepared(s) && s.ops != []
    ensures Prepared(WithPhase(s, phase))
  {
    var ops := WithPhase(s, phase).ops;
    assert forall i :: 0 <= i < |ops| ==> ops[i].job == s.ops[i].job && ops[i].generation == s.ops[i].generation && ops[i].conversation == s.ops[i].conversation;
  }

  lemma StartOperationPrepared(s: State)
    requires Safe(s) && Prepared(s) && Enabled(s, StartOperation)
    ensures Prepared(Step(s, StartOperation))
  {
    var op := s.ops[0];
    assert Owned(s.m, op.generation, op.conversation);
    hide Safe, Prepared;
    if !HeadIsCurrent(s) {
      FinishPrepared(s, true);
    } else if op.job.Stage? {
      PhasePrepared(s, Reading);
      SelectPrepared(s);
    } else {
      var s1 := s.(m := Counted(s.m));
      ForwardPrepared(s, s1.m);
      if s1.m.pendingCount > 0 {
        FinishPrepared(s1, true);
      } else {
        PhasePrepared(s1, Removing);
      }
    }
  }

  lemma ForwardPrepared(s: State, m': Memory)
    requires Safe(s) && Prepared(s) && Forward(s.m, m')
    ensures Prepared(s.(m := m'))
  {
    ForwardKeeps(s, m');
  }

  lemma SelectPrepared(s: State)
    requires Safe(s) && Prepared(s) && s.ops != [] && s.ops[0].job.Stage?
    ensures Prepared(SelectEntries(s))
  {
    hide Safe, Prepared;
    var m := Selected(s.m, s.ops[0].job.entries);
    ForwardPrepared(s, m);
    PhasePrepared(s.(m := m), Appending(Missing(s.m, s.ops[0].job.entries)));
  }

  lemma ReadOutboxPrepared(s: State, readable: bool)
    requires Safe(s) && Prepared(s) && Enabled(s, ReadOutbox(readable))
    ensures Prepared(Step(s, ReadOutbox(readable)))
  {
    var op := s.ops[0];
    assert HeadOk(s.m, op) && Owned(s.m, op.generation, op.conversation);
    if !HeadIsCurrent(s) {
      FinishPrepared(s, true);
    } else {
      assert s.m.outboxConversation.None? && s.m.pending == [] && s.m.outboxEntries == map[];
      var outbox := if readable then OutboxOf(s.w, op.conversation) else [];
      LoadedFacts(s.m, outbox);
      var m := Selected(OutboxLoaded(s.m, op.conversation, outbox), op.job.entries);
      hide Prepared;
      ForwardPrepared(s, m);
      PhasePrepared(s.(m := m), Appending(Missing(OutboxLoaded(s.m, op.conversation, outbox), op.job.entries)));
    }
  }

  lemma AppendOutboxPrepared(s: State, written: nat, ok: bool)
    requires Safe(s) && Prepared(s) && Enabled(s, AppendOutbox(written, ok))
    ensures Prepared(Step(s, AppendOutbox(written, ok)))
  {
    var op := s.ops[0];
    assert HeadOk(s.m, op) && Owned(s.m, op.generation, op.conversation);
    CommittedFacts(s.m, op.phase.missing);
    var w' := Step(s, AppendOutbox(written, ok)).w;
    assert Prepared(s.(w := w'));
    if ok && HeadIsCurrent(s) {
      var m := StageCommitted(s.m, op.phase.missing);
      ForwardPrepared(s, m);
      FinishPrepared(s.(m := m, w := w'), true);
    } else {
      FinishPrepared(s.(w := w'), ok);
    }
  }

  lemma RemoveOutboxPrepared(s: State, gone: bool, ok: bool)
    requires Safe(s) && Prepared(s) && Enabled(s, RemoveOutbox(gone, ok))
    ensures Prepared(Step(s, RemoveOutbox(gone, ok)))
  {
    var s' := Step(s, RemoveOutbox(gone, ok));
    ForwardPrepared(s, s'.m);
    assert Prepared(s.(m := s'.m, w := s'.w));
    FinishPrepared(s.(m := s'.m, w := s'.w), ok);
  }

  lemma LinksPrepared(s: State, a: Action)
    requires Safe(s) && Prepared(s) && Enabled(s, a) && (a.ListPage? || a.ListFail? || a.ReadRejected?)
    ensures Prepared(Step(s, a))
  {
    ForwardPrepared(s, Step(s, a).m);
  }

  lemma NextChunkPrepared(s: State, c: string, g: nat, chunks: seq<seq<Entry>>, refused: set<string>)
    requires Prepared(s) && s.flight.running && Ready(s.m, g, c)
    ensures Prepared(NextChunk(s, c, g, chunks, refused))
  {
  }

  lemma DeliveryPrepared(s: State, a: Action)
    requires Safe(s) && Prepared(s) && Enabled(s, a)
    requires a.AfterLink? || a.ServerStores? || a.AppendAccepted? || a.AppendRefused? || a.AppendFailed? || a.RejectedWritten? || a.AfterClear?
    ensures Prepared(Step(s, a))
  {
    var d := s.delivery;
    if a.AfterLink? {
      DispatchPrepared(s, d.conversation, d.generation, a.now);
    } else if a.AppendAccepted? {
      var m := Acknowledged(s.m, d.chunks[0]);
      ForwardPrepared(s, m);
      NextChunkPrepared(s.(m := m), d.conversation, d.generation, d.chunks[1..], d.refused);
    } else if a.RejectedWritten? {
      var s1 := s.(w := s.w.(rejected := s.w.rejected[d.conversation := a.onDisk]));
      var m := Rejected(s.m, d.chunks[0], d.refused);
      ForwardPrepared(s, m);
      NextChunkPrepared(s1.(m := m), d.conversation, d.generation, d.chunks[1..], d.refused);
    } else {
      ForwardPrepared(s, Step(s, a).m);
    }
  }

  lemma StepKeepsPrepared(s: State, a: Action)
    requires Safe(s) && Prepared(s) && Enabled(s, a)
    ensures Prepared(Step(s, a))
  {
    hide Safe, Prepared, Step;
    if a.StartOperation? {
      StartOperationPrepared(s);
    } else if a.ReadOutbox? {
      ReadOutboxPrepared(s, a.readable);
    } else if a.AppendOutbox? {
      AppendOutboxPrepared(s, a.written, a.ok);
    } else if a.RemoveOutbox? {
      RemoveOutboxPrepared(s, a.gone, a.ok);
    } else if a.Crash? {
      CrashPrepared(s, a);
    } else if a.CallLink? || a.CallUnlink? || a.CallFlush? || a.FlushDelivers? || a.EndRun? {
      CallsPrepared(s, a);
    } else if a.ListPage? || a.ListFail? || a.ReadRejected? {
      LinksPrepared(s, a);
    } else {
      DeliveryPrepared(s, a);
    }
  }

  lemma CrashPrepared(s: State, a: Action)
    requires Enabled(s, a) && a.Crash?
    ensures Prepared(Step(s, a))
  {
    StartIsPrepared(CrashedWorld(s, a.written, a.removed, a.onDisk));
  }

  lemma StartIsPrepared(w: World)
    ensures Prepared(Start(w))
  {
  }

  // ---------------------------------------------------------------------------------------------
  // No staged entry is lost
  // ---------------------------------------------------------------------------------------------

  ghost predicate InOutbox(w: World, c: string, id: string) {
    exists e :: e in OutboxOf(w, c) && e.id == id
  }

  /** A line for `id` is in the file, the file is not being removed, and if it is in memory `id` is pending. */
  ghost predicate OnFile(s: State, c: string, id: string) {
    && InOutbox(s.w, c, id)
    && (s.m.outboxConversation == Some(c) ==> id in s.m.pending)
    && (s.ops != [] && s.ops[0].phase == Removing ==> s.ops[0].conversation != c)
  }

  /** The server has stored the entry or has refused it for good. */
  predicate Discharged(w: World, c: string, id: string) {
    id in ServerOf(w, c) || id in RefusedOf(w, c)
  }

  ghost predicate Guarded(s: State, c: string, id: string) {
    OnFile(s, c, id) || Discharged(s.w, c, id)
  }

  /** The outbox file of `c` is put into memory although it could not be read: a read error counts as an empty file. */
  predicate BadRead(s: State, a: Action, c: string) {
    a.ReadOutbox? && !a.readable && s.ops != [] && HeadIsCurrent(s) && s.ops[0].conversation == c
  }

  lemma PendingIsOnFile(s: State, c: string, id: string)
    requires Safe(s) && s.m.conversation == Some(c) && id in s.m.pending
    ensures OnFile(s, c, id)
  {
    assert s.m.outboxEntries[id] in OutboxOf(s.w, c);
    assert s.ops != [] ==> HeadOk(s.m, s.ops[0]);
  }

  /** Only the removal of the file takes lines out of it. */
  lemma OutboxGrows(s: State, a: Action, c: string)
    requires Enabled(s, a)
    requires s.ops != [] && s.ops[0].phase == Removing ==> s.ops[0].conversation != c
    ensures OutboxOf(s.w, c) <= OutboxOf(Step(s, a).w, c)
  {
    if a.CallFlush? || a.FlushDelivers? || a.EndRun? {
      LaunchKeepsFiles(s, a);
    } else if a.AppendOutbox? || a.RemoveOutbox? {
      FilesGrow(s, a, c);
    } else if a.Crash? {
      CrashSparesFiles(s, a.written, a.removed, a.onDisk, c);
    } else {
      OthersKeepFiles(s, a);
    }
  }

  lemma LaunchKeepsFiles(s: State, a: Action)
    requires Enabled(s, a) && (a.CallFlush? || a.FlushDelivers? || a.EndRun?)
    ensures Step(s, a).w.outbox == s.w.outbox
  {
    hide Launch;
    if a.CallFlush? {
      LaunchMovesNothing(s, AfterCall(s.flight, Request(None, s.m.generation)), a.now);
    } else if a.FlushDelivers? {
      LaunchMovesNothing(s.(staged := s.staged[1..]), AfterCall(s.flight, s.staged[0]), a.now);
    } else {
      LaunchMovesNothing(s.(delivery := Idle), AfterSettle(s.flight, s.delivery.ok), a.now);
    }
  }

  lemma FilesGrow(s: State, a: Action, c: string)
    requires Enabled(s, a) && (a.AppendOutbox? || a.RemoveOutbox?)
    requires s.ops != [] && s.ops[0].phase == Removing ==> s.ops[0].conversation != c
    ensures OutboxOf(s.w, c) <= OutboxOf(Step(s, a).w, c)
  {
  }

  lemma CrashSparesFiles(s: State, written: nat, removed: bool, onDisk: set<string>, c: string)
    requires Enabled(s, Crash(written, removed, onDisk))
    requires s.ops != [] && s.ops[0].phase == Removing ==> s.ops[0].conversation != c
    ensures OutboxOf(s.w, c) <= OutboxOf(Step(s, Crash(written, removed, onDisk)).w, c)
  {
  }

  lemma OthersKeepFiles(s: State, a: Action)
    requires Enabled(s, a) && !(a.CallFlush? || a.FlushDelivers? || a.EndRun? || a.AppendOutbox? || a.RemoveOutbox? || a.Crash?)
    ensures Step(s, a).w.outbox == s.w.outbox
  {
  }

  /** A removal begins only when nothing is pending in an outbox that has been read. */
  lemma RemovalSparesPending(s: State, a: Action, c: string)
    requires Safe(s) && Prepared(s) && Enabled(s, a) && a.StartOperation?
    requires s.m.outboxConversation == Some(c) ==> s.m.pending != []
    ensures var s' := Step(s, a);
      s'.ops != [] && s'.ops[0].phase == Removing ==> s'.ops[0].conversation != c
  {
    var op := s.ops[0];
    assert op.job.Clear? ==> Ready(s.m, op.generation, op.conversation);
    assert forall i :: 0 < i < |s.ops| ==> s.ops[i].phase == Waiting;
  }

  /** The queue after an action that is not about its head. */
  predicate QueueGrew(ops: seq<Operation>, ops': seq<Operation>) {
    ops <= ops' && forall i :: |ops| <= i < |ops'| ==> ops'[i].phase == Waiting
  }

  lemma LaunchGrowsQueue(s: State, reply: Reply<Request>, now: int)
    ensures QueueGrew(s.ops, Launch(s, reply, now).ops)
  {
  }

  lemma OtherActionsGrowQueue(s: State, a: Action)
    requires Enabled(s, a) && !a.Crash?
    requires !(a.StartOperation? || a.ReadOutbox? || a.AppendOutbox? || a.RemoveOutbox?)
    ensures QueueGrew(s.ops, Step(s, a).ops)
  {
    if a.CallFlush? {
      LaunchGrowsQueue(s, AfterCall(s.flight, Request(None, s.m.generation)), a.now);
    } else if a.FlushDelivers? {
      LaunchGrowsQueue(s.(staged := s.staged[1..]), AfterCall(s.flight, s.staged[0]), a.now);
    } else if a.EndRun? {
      LaunchGrowsQueue(s.(delivery := Idle), AfterSettle(s.flight, s.delivery.ok), a.now);
    }
  }

  lemma HeadActions(s: State, a: Action)
    requires Enabled(s, a) && (a.ReadOutbox? || a.AppendOutbox? || a.RemoveOutbox?)
    ensures Step(s, a).ops == s.ops[1..] || (Step(s, a).ops != [] && Step(s, a).ops[0].phase.Appending?)
  {
  }

  lemma OtherStepsSpareHead(s: State, a: Action)
    requires Safe(s) && Enabled(s, a) && !a.StartOperation?
    requires Step(s, a).ops != [] && Step(s, a).ops[0].phase == Removing
    ensures s.ops != [] && s.ops[0].phase == Removing && s.ops[0].conversation == Step(s, a).ops[0].conversation
  {
    assert forall i :: 0 < i < |s.ops| ==> s.ops[i].phase == Waiting;
    var ops' := Step(s, a).ops;
    hide Safe, Step, Enabled;
    if a.Crash? {
      CrashEmptiesQueue(s, a);
    } else if a.ReadOutbox? || a.AppendOutbox? || a.RemoveOutbox? {
      HeadActions(s, a);
    } else {
      OtherActionsGrowQueue(s, a);
    }
  }

  lemma CrashEmptiesQueue(s: State, a: Action)
    requires Enabled(s, a) && a.Crash?
    ensures Step(s, a).ops == []
  {
  }

  /** One step: the line stays, or the server has the entry or has refused it. */
  lemma StepKeepsGuarded(s: State, a: Action, c: string, id: string)
    requires Safe(s) && Prepared(s) && Honest(s) && Enabled(s, a) && OnFile(s, c, id) && !BadRead(s, a, c)
    ensures Guarded(Step(s, a), c, id)
  {
    var s' := Step(s, a);
    StepKeepsSafe(s, a);
    OutboxGrows(s, a, c);
    assert InOutbox(s'.w, c, id) by {
      var e :| e in OutboxOf(s.w, c) && e.id == id;
      assert e in OutboxOf(s'.w, c);
    }
    if a.StartOperation? {
      assert MemoryOk(s.m);
      RemovalSparesPending(s, a, c);
    } else if s'.ops != [] && s'.ops[0].phase == Removing {
      OtherStepsSpareHead(s, a);
    }
    hide Safe, Prepared, InOutbox, Honest;
    PendingFollowsFile(s, a, c, id);
  }

  lemma SettledIsDischarged(s: State, c: string, id: string)
    requires Safe(s) && Honest(s) && s.m.conversation == Some(c) && (id in s.m.acknowledged || id in s.m.rejected)
    ensures Discharged(s.w, c, id)
  {
    assert AcknowledgedIsStored(s.m, s.w);
  }

  /** If the outbox of `c` is in memory after a step, `id` is pending there or discharged. */
  lemma PendingFollowsFile(s: State, a: Action, c: string, id: string)
    requires Safe(s) && Honest(s) && Enabled(s, a) && OnFile(s, c, id) && !BadRead(s, a, c)
    ensures var s' := Step(s, a);
      s'.m.outboxConversation == Some(c) ==> id in s'.m.pending || Discharged(s'.w, c, id)
  {
    var s' := Step(s, a);
    if s'.m.outboxConversation == Some(c) {
      StepKeepsSafe(s, a);
      StepKeepsHonest(s, a);
      assert s'.m.conversation == Some(c) && MemoryOk(s.m);
      if !Leaves(s, a) {
        ContentsAfter(s, a);
        if s.m.outboxConversation == Some(c) {
          if id !in s'.m.pending {
            LeavesForAReason(s, a, id);
            SettledIsDischarged(s', c, id);
          }
        } else {
          LoadPutsPending(s, a, c, id);
        }
      }
    }
  }

  lemma LoadPutsPending(s: State, a: Action, c: string, id: string)
    requires Safe(s) && Enabled(s, a) && !Leaves(s, a) && Moves(s, a, Step(s, a)) && Safe(Step(s, a)) && InOutbox(s.w, c, id)
    requires Honest(Step(s, a)) && !BadRead(s, a, c)
    requires s.m.outboxConversation != Some(c) && Step(s, a).m.outboxConversation == Some(c)
    ensures id in Step(s, a).m.pending || Discharged(Step(s, a).w, c, id)
  {
    var s' := Step(s, a);
    if a.AppendOutbox? {
      CommittedFacts(s.m, s.ops[0].phase.missing);
    } else if a.ReadOutbox? {
      LoadedFacts(s.m, OutboxOf(s.w, c));
      if id !in s'.m.pending {
        SettledIsDischarged(s', c, id);
      }
    }
  }

  /** An unreadable file put into memory leaves nothing pending, so that its lines may be deleted. */
  lemma BadReadUnguards(s: State, a: Action, c: string, id: string)
    requires Safe(s) && Enabled(s, a) && BadRead(s, a, c) && !Discharged(s.w, c, id)
    ensures !Guarded(Step(s, a), c, id)
  {
    assert HeadOk(s.m, s.ops[0]) && MemoryOk(s.m);
    LoadedFacts(s.m, []);
  }

  /**
   Exactly which step takes the guard off an entry: only the read of an unreadable outbox file of its conversation, by an
   operation that is still current.
   */
  lemma StepGuardsExactly(s: State, a: Action, c: string, id: string)
    requires Safe(s) && Prepared(s) && Honest(s) && Enabled(s, a) && Guarded(s, c, id)
    ensures Guarded(Step(s, a), c, id) <==> Discharged(s.w, c, id) || !BadRead(s, a, c)
  {
    hide Safe, Prepared, Honest, Enabled, Step, OnFile, BadRead;
    if Discharged(s.w, c, id) {
      ServerGrows(s, a);
    } else if BadRead(s, a, c) {
      BadReadUnguards(s, a, c, id);
    } else {
      StepKeepsGuarded(s, a, c, id);
    }
  }

  ghost predicate AlwaysGuarded(s: State, actions: seq<Action>, c: string, id: string)
    decreases |actions|
  {
    Guarded(s, c, id) && (actions != [] ==> AlwaysGuarded(Step(s, actions[0]), actions[1..], c, id))
  }

  /** As long as the server has neither stored nor refused the entry, the outbox file of `c` can be read whenever it is. */
  predicate ReadWhenNeeded(s: State, actions: seq<Action>, c: string, id: string)
    decreases |actions|
  {
    || Discharged(s.w, c, id)
    || actions == []
    || (!BadRead(s, actions[0], c) && ReadWhenNeeded(Step(s, actions[0]), actions[1..], c, id))
  }

  lemma {:induction false} DischargedForGood(s: State, actions: seq<Action>, s': State, c: string, id: string)
    requires Runs(s, actions, s') && Discharged(s.w, c, id)
    ensures AlwaysGuarded(s, actions, c, id)
    decreases |actions|
  {
    hide Enabled, Step;
    if actions != [] {
      ServerGrows(s, actions[0]);
      DischargedForGood(Step(s, actions[0]), actions[1..], s', c, id);
    }
  }

  /**
   Main result, exact: along any run (relinks, switches, unlinks, failures, any number of crashes and restarts) an entry
   stays guarded if and only if its outbox file could be read each time it was needed.
   */
  lemma {:induction false} RunGuardsExactly(s: State, actions: seq<Action>, s': State, c: string, id: string)
    requires Safe(s) && Prepared(s) && Honest(s) && Runs(s, actions, s') && Guarded(s, c, id)
    ensures AlwaysGuarded(s, actions, c, id) <==> ReadWhenNeeded(s, actions, c, id)
    decreases |actions|
  {
    hide Safe, Prepared, Honest, Guarded, Discharged, Enabled, Step, BadRead;
    if Discharged(s.w, c, id) {
      DischargedForGood(s, actions, s', c, id);
    } else if actions != [] {
      var s1 := Step(s, actions[0]);
      StepGuardsExactly(s, actions[0], c, id);
      StepKeepsSafe(s, actions[0]);
      StepKeepsPrepared(s, actions[0]);
      StepKeepsHonest(s, actions[0]);
      if Guarded(s1, c, id) {
        RunGuardsExactly(s1, actions[1..], s', c, id);
      }
    }
  }

  lemma {:induction false} GuardedAtTheEnd(s: State, actions: seq<Action>, s': State, c: string, id: string)
    requires Runs(s, actions, s') && AlwaysGuarded(s, actions, c, id)
    ensures Guarded(s', c, id)
    decreases |actions|
  {
    hide Guarded, Enabled, Step;
    if actions != [] {
      GuardedAtTheEnd(Step(s, actions[0]), actions[1..], s', c, id);
    }
  }

  /**
   Main result: whatever happens after an id became pending for a conversation, either the server got the entry or
   refused it, or its line is still in the conversation's outbox file, and whenever that file has been put into memory the
   id is pending again.
   */
  lemma NoStagedEntryIsLost(s: State, actions: seq<Action>, s': State, c: string, id: string)
    requires Safe(s) && Prepared(s) && Honest(s) && Runs(s, actions, s') && ReadWhenNeeded(s, actions, c, id)
    requires s.m.conversation == Some(c) && id in s.m.pending
    ensures Guarded(s', c, id)
  {
    PendingIsOnFile(s, c, id);
    RunGuardsExactly(s, actions, s', c, id);
    GuardedAtTheEnd(s, actions, s', c, id);
  }

  lemma {:induction false} RunsAppend(s: State, first: seq<Action>, mid: State, second: seq<Action>, s': State)
    requires Runs(s, first, mid) && Runs(mid, second, s')
    ensures Runs(s, first + second, s')
    decreases |first|
  {
    if first == [] {
      assert first + second == second;
    } else {
      assert (first + second)[1..] == first[1..] + second;
      RunsAppend(Step(s, first[0]), first[1..], mid, second, s');
    }
  }

  lemma RunOne(s: State, a: Action, s': State)
    requires Enabled(s, a) && Step(s, a) == s'
    ensures Runs(s, [a], s')
  {
    assert [a][1..] == [];
    assert Runs(s', [], s');
  }

  const C := "c"

  function LinkedAt(w: World): State {
    Start(w).(m := FRESH.(conversation := Some(C), linked := true, generation := 1), links := map[1 := Link(C, Returned, {})])
  }

  lemma LinkRuns(w: World)
    requires w.server == map[]
    ensures Runs(Start(w), [CallLink(C)] + [ListPage(1, {}, false)] + [ReadRejected(1, {})], LinkedAt(w))
  {
    var none: set<string> := {};
    assert none + none == none;
    var s1 := Start(w).(m := FRESH.(conversation := Some(C), generation := 1), links := map[1 := Link(C, Listing({}), {})]);
    var s2 := s1.(links := map[1 := Link(C, ReadingRejected({}), {})]);
    RunOne(Start(w), CallLink(C), s1);
    RunOne(s1, ListPage(1, {}, false), s2);
    RunOne(s2, ReadRejected(1, {}), LinkedAt(w));
    hide Step, Enabled, Runs;
    RunsAppend(Start(w), [CallLink(C)], s1, [ListPage(1, {}, false)], s2);
    RunsAppend(Start(w), [CallLink(C)] + [ListPage(1, {}, false)], s2, [ReadRejected(1, {})], LinkedAt(w));
  }

  function ReadAsEmpty(w: World): State {
    LinkedAt(w).(m := LinkedAt(w).m.(outboxConversation := Some(C)), staged := [Request(Some(C), 1)])
  }

  lemma StageRuns(w: World)
    ensures Runs(LinkedAt(w), [CallFlush([], 0)] + [StartOperation], LinkedAt(w).(ops := [Operation(C, 1, Stage([]), Reading)]))
  {
    var s0 := LinkedAt(w);
    var s1 := s0.(ops := [Operation(C, 1, Stage([]), Waiting)]);
    var s2 := s0.(ops := [Operation(C, 1, Stage([]), Reading)]);
    RunOne(s0, CallFlush([], 0), s1);
    RunOne(s1, StartOperation, s2);
    hide Step, Enabled, Runs;
    RunsAppend(s0, [CallFlush([], 0)], s1, [StartOperation], s2);
  }

  lemma UnreadRuns(w: World)
    ensures Runs(LinkedAt(w).(ops := [Operation(C, 1, Stage([]), Reading)]), [ReadOutbox(false)] + [AppendOutbox(0, true)], ReadAsEmpty(w))
  {
    var s0 := LinkedAt(w);
    var s2 := s0.(ops := [Operation(C, 1, Stage([]), Reading)]);
    var s3 := s0.(m := s0.m.(outboxConversation := Some(C)), ops := [Operation(C, 1, Stage([]), Appending([]))]);
    RunOne(s2, ReadOutbox(false), s3);
    RunOne(s3, AppendOutbox(0, true), ReadAsEmpty(w));
    hide Step, Enabled, Runs;
    RunsAppend(s2, [ReadOutbox(false)], s3, [AppendOutbox(0, true)], ReadAsEmpty(w));
  }

  function Removed(w: World): State {
    ReadAsEmpty(w).(staged := [], flight := Flight(true, false, Some(Request(Some(C), 1))), delivery := Cleared(C, 1, false, true),
      w := w.(outbox := w.outbox - {C}))
  }

  lemma ClearRuns(w: World)
    ensures Runs(ReadAsEmpty(w), [FlushDelivers(0)] + [StartOperation] + [RemoveOutbox(true, true)], Removed(w))
  {
    var s0 := ReadAsEmpty(w);
    var s1 := s0.(staged := [], flight := Removed(w).flight, delivery := Clearing(C, 1, false), ops := [Operation(C, 1, Clear, Waiting)]);
    var s2 := s1.(ops := [Operation(C, 1, Clear, Removing)]);
    assert s0.staged[1..] == [];
    RunOne(s0, FlushDelivers(0), s1);
    RunOne(s1, StartOperation, s2);
    RunOne(s2, RemoveOutbox(true, true), Removed(w));
    hide Step, Enabled, Runs;
    RunsAppend(s0, [FlushDelivers(0)], s1, [StartOperation], s2);
    RunsAppend(s0, [FlushDelivers(0)] + [StartOperation], s2, [RemoveOutbox(true, true)], Removed(w));
  }

  /** One line in the outbox file of `C`, and a server that knows nothing. */
  function Holding(e: Entry): World {
    World(map[C := [e]], map[], map[], map[], map[])
  }

  /** What a lost guard can lead to: after a read error the next clearing deletes lines that were never sent. */
  lemma UnreadableOutboxIsLost(e: Entry)
    ensures exists actions, s' ::
      Runs(Start(Holding(e)), actions, s') && OutboxOf(s'.w, C) == [] && !Discharged(s'.w, C, e.id)
  {
    hide Step, Enabled, Runs;
    var w := Holding(e);
    var first := [CallLink(C)] + [ListPage(1, {}, false)] + [ReadRejected(1, {})];
    var stage := [CallFlush([], 0)] + [StartOperation];
    var read := [ReadOutbox(false)] + [AppendOutbox(0, true)];
    var clear := [FlushDelivers(0)] + [StartOperation] + [RemoveOutbox(true, true)];
    LinkRuns(w);
    StageRuns(w);
    UnreadRuns(w);
    ClearRuns(w);
    var reading := LinkedAt(w).(ops := [Operation(C, 1, Stage([]), Reading)]);
    RunsAppend(Start(w), first, LinkedAt(w), stage, reading);
    RunsAppend(Start(w), first + stage, reading, read, ReadAsEmpty(w));
    RunsAppend(Start(w), first + stage + read, ReadAsEmpty(w), clear, Removed(w));
    assert OutboxOf(Removed(w).w, C) == [];
  }
}
