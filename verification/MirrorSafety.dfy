/**
 What holds of the mirror in every run: staged entries are on disk before they count as pending and leave the
 pending set only for a reason (write-ahead, no loss), and acknowledged entries are stored by the server.
 */
module MirrorSafety {
  import opened Wrappers
  import opened MirrorMemory
  import opened SingleFlight
  import opened MirrorProtocol
  import opened MirrorInvariants

  // ---------------------------------------------------------------------------------------------
  // Effects of the stretches on memory
  // ---------------------------------------------------------------------------------------------

  lemma {:induction false} LoadedFacts(m: Memory, outbox: seq<Entry>)
    requires m.outboxEntries == map[] && m.pending == []
    ensures var r := LoadedAll(m, outbox);
      && r == m.(outboxEntries := r.outboxEntries, pending := r.pending)
      && (forall id :: id in r.outboxEntries ==> r.outboxEntries[id].id == id && r.outboxEntries[id] in outbox)
      && (forall e :: e in outbox ==> e.id in r.outboxEntries)
      && Distinct(r.pending)
      && (forall id :: id in r.pending <==> id in r.outboxEntries && id !in m.acknowledged && id !in m.rejected)
  {
    if outbox != [] {
      LoadedFacts(m, outbox[..|outbox| - 1]);
    }
  }

  lemma {:induction false} CommittedFacts(m: Memory, missing: seq<Entry>)
    requires Distinct(m.pending)
    requires forall id :: id in m.outboxEntries ==> m.outboxEntries[id].id == id
    ensures var r := CommittedAll(m, missing);
      && r == m.(outboxEntries := r.outboxEntries, pending := r.pending)
      && (forall id :: id in r.outboxEntries ==> r.outboxEntries[id].id == id)
      && m.pending <= r.pending && Distinct(r.pending)
      && (forall id :: id in r.outboxEntries <==> id in m.outboxEntries || id in Ids(missing))
      && (forall id :: id in r.outboxEntries ==>
            if id in Ids(missing) then r.outboxEntries[id] in missing else r.outboxEntries[id] == m.outboxEntries[id])
      && (forall id :: id in r.pending <==> id in m.pending || id in Ids(missing))
  {
    if missing != [] {
      var n := |missing| - 1;
      CommittedFacts(m, missing[..n]);
      assert missing == missing[..n] + [missing[n]];
      assert Ids(missing) == Ids(missing[..n]) + {missing[n].id};
    }
  }

  // ---------------------------------------------------------------------------------------------
  // Every action keeps the invariant
  // ---------------------------------------------------------------------------------------------

  /** Memory that moved on without a new link: what is owned, in the queue and in flight stays so. */
  predicate SameLink(m: Memory, m': Memory) {
    && m'.generation == m.generation && m'.conversation == m.conversation
    && m'.outboxConversation == m.outboxConversation
    && (m.pending == [] ==> m'.pending == [])
  }

  /** Memory after a new link or an unlink: everything begun before is stale. */
  predicate NewLink(m: Memory, m': Memory) {
    && m'.generation == m.generation + 1
    && (m.pending == [] ==> m'.pending == [])
  }

  lemma SurroundingsKept(s: State, m': Memory)
    requires Safe(s) && (SameLink(s.m, m') || NewLink(s.m, m'))
    ensures OperationsOk(m', s.ops) && LinksOk(m', s.links, s.w) && DeliveryOk(m', s.delivery)
  {
  }

  lemma BeginLinkKeeps(s: State, c: string)
    requires Safe(s)
    ensures var s' := BeginLink(s, c);
      Safe(s') && NewLink(s.m, s'.m) && Owned(s'.m, s'.m.generation, c)
  {
    var s' := BeginLink(s, c);
    SurroundingsKept(s, s'.m);
  }

  lemma EnqueueClearKeeps(s: State, c: string, g: nat, sent: bool)
    requires Safe(s) && Owned(s.m, g, c)
    ensures Safe(EnqueueClear(s, c, g, sent))
  {
  }

  lemma DispatchKeeps(s: State, c: string, g: nat, now: int)
    requires Safe(s) && Owned(s.m, g, c)
    ensures Safe(Dispatch(s, c, g, now))
  {
    var s1 := s.(m := Counted(s.m));
    SurroundingsKept(s, s1.m);
    EnqueueClearKeeps(s1, c, g, false);
    var outstanding := Outstanding(s.m.pending, s.m.outboxEntries);
    BatchesCover(outstanding, MAX_ENTRIES_PER_BATCH);
    if outstanding != [] {
      assert Batches(outstanding, MAX_ENTRIES_PER_BATCH) != [];
    }
  }

  lemma NextChunkKeeps(s: State, c: string, g: nat, chunks: seq<seq<Entry>>, refused: set<string>)
    requires Safe(s) && Owned(s.m, g, c) && forall b :: b in chunks ==> 0 < |b| <= MAX_ENTRIES_PER_BATCH
    ensures Safe(NextChunk(s, c, g, chunks, refused))
  {
    EnqueueClearKeeps(s, c, g, true);
  }

  lemma StartRunKeeps(s: State, request: Request, now: int)
    requires Safe(s)
    ensures Safe(StartRun(s, request, now))
  {
    if request.conversation.Some? && IsCurrentLink(s.m, request.generation, request.conversation.value) {
      var c := request.conversation.value;
      if s.m.linked {
        DispatchKeeps(s, c, request.generation, now);
      } else {
        var s1 := s.(m := Counted(s.m));
        SurroundingsKept(s, s1.m);
        BeginLinkKeeps(s1, c);
      }
    }
  }

  lemma LaunchKeeps(s: State, reply: Reply<Request>, now: int)
    requires Safe(s)
    ensures Safe(Launch(s, reply, now))
  {
    if reply.start.Some? {
      StartRunKeeps(s.(flight := reply.flight), reply.start.value, now);
    }
  }

  /** The end of an operation moves the queue, a flush or a delivery on, and nothing else. */
  lemma FinishSpares(s: State, ok: bool)
    requires s.ops != []
    ensures var s' := FinishOperation(s, ok);
      && s' == s.(ops := s'.ops, staged := s'.staged, delivery := s'.delivery)
      && (s'.delivery == s.delivery || s'.delivery.Cleared?)
      && forall r :: r in s'.staged ==> r in s.staged || r.conversation.Some?
  {
  }

  lemma FinishOperationKeeps(s: State, ok: bool)
    requires Safe(s) && s.ops != []
    ensures Safe(FinishOperation(s, ok))
  {
    assert OperationsOk(s.m, s.ops[1..]);
  }

  lemma WithPhaseKeeps(s: State, phase: Phase)
    requires Safe(s) && s.ops != [] && HeadOk(s.m, s.ops[0].(phase := phase))
    ensures Safe(WithPhase(s, phase))
  {
  }

  lemma SelectEntriesKeeps(s: State)
    requires Safe(s) && s.ops != [] && s.ops[0].job.Stage? && s.m.outboxConversation == Some(s.ops[0].conversation)
    ensures Safe(SelectEntries(s))
  {
    var entries := s.ops[0].job.entries;
    var s1 := s.(m := Selected(s.m, entries));
    SurroundingsKept(s, s1.m);
    WithPhaseKeeps(s1, Appending(Missing(s.m, entries)));
  }

  lemma CallsKeep(s: State, a: Action)
    requires Safe(s) && (a.CallLink? || a.CallUnlink? || a.CallFlush? || a.FlushDelivers?) && Enabled(s, a)
    ensures Safe(Step(s, a))
  {
    match a
    case CallLink(c) =>
      BeginLinkKeeps(s, c);
    case CallUnlink =>
      SurroundingsKept(s, Unlinked(s.m));
    case CallFlush(entries, now) =>
      if s.m.conversation.None? {
        LaunchKeeps(s, AfterCall(s.flight, Request(None, s.m.generation)), now);
      }
    case FlushDelivers(now) =>
      LaunchKeeps(s.(staged := s.staged[1..]), AfterCall(s.flight, s.staged[0]), now);
  }

  lemma LinkStepsKeep(s: State, a: Action)
    requires Safe(s) && (a.ListPage? || a.ListFail? || a.ReadRejected?) && Enabled(s, a)
    ensures Safe(Step(s, a))
  {
    hide Safe, Enabled, Step;
    match a
    case ListPage(link, page, more) => ListPageKeeps(s, link, page, more);
    case ListFail(link, now) => ListFailKeeps(s, link, now);
    case ReadRejected(link, read) => ReadRejectedKeeps(s, link, read);
  }

  lemma ListPageKeeps(s: State, link: nat, page: set<string>, more: bool)
    requires Safe(s) && Enabled(s, ListPage(link, page, more))
    ensures Safe(Step(s, ListPage(link, page, more)))
  {
  }

  lemma ListFailKeeps(s: State, link: nat, now: int)
    requires Safe(s) && Enabled(s, ListFail(link, now))
    ensures Safe(Step(s, ListFail(link, now)))
  {
    SurroundingsKept(s, Delayed(s.m, now));
  }

  lemma ReadRejectedKeeps(s: State, link: nat, read: set<string>)
    requires Safe(s) && Enabled(s, ReadRejected(link, read))
    ensures Safe(Step(s, ReadRejected(link, read)))
  {
    var Link(c, ReadingRejected(ids), _) := s.links[link];
    if IsCurrentLink(s.m, link, c) {
      SurroundingsKept(s, LinkCompleted(s.m, ids, read));
    }
  }

  /** The outbox put into memory while its operation waits again: everything but the phase of the head. */
  lemma LoadKeeps(s: State, outbox: seq<Entry>)
    requires Safe(s) && s.ops != [] && s.ops[0].phase == Reading && HeadIsCurrent(s)
    requires forall e :: e in outbox ==> e in OutboxOf(s.w, s.ops[0].conversation)
    ensures var m := OutboxLoaded(s.m, s.ops[0].conversation, outbox);
      Safe(WithPhase(s.(m := Selected(m, s.ops[0].job.entries)), Waiting))
  {
    LoadedFacts(s.m, outbox);
  }

  lemma ReadOutboxKeeps(s: State, readable: bool)
    requires Safe(s) && Enabled(s, ReadOutbox(readable))
    ensures Safe(Step(s, ReadOutbox(readable)))
  {
    if !HeadIsCurrent(s) {
      FinishOperationKeeps(s, true);
    } else {
      var c := s.ops[0].conversation;
      var outbox := if readable then OutboxOf(s.w, c) else [];
      assert s.m.outboxConversation.None?;
      var s1 := s.(m := OutboxLoaded(s.m, c, outbox));
      LoadKeeps(s, outbox);
      var entries := s.ops[0].job.entries;
      WithPhaseKeeps(WithPhase(s1.(m := Selected(s1.m, entries)), Waiting), Appending(Missing(s1.m, entries)));
    }
  }

  lemma StartOperationKeeps(s: State)
    requires Safe(s) && Enabled(s, StartOperation)
    ensures Safe(Step(s, StartOperation))
  {
    var op := s.ops[0];
    if !HeadIsCurrent(s) {
      FinishOperationKeeps(s, true);
    } else if op.job.Stage? {
      if s.m.outboxConversation != Some(op.conversation) {
        WithPhaseKeeps(s, Reading);
      } else {
        SelectEntriesKeeps(s);
      }
    } else {
      var s1 := s.(m := Counted(s.m));
      SurroundingsKept(s, s1.m);
      if s1.m.pendingCount > 0 {
        FinishOperationKeeps(s1, true);
      } else {
        WithPhaseKeeps(s1, Removing);
      }
    }
  }

  /** Lines added to an outbox file. */
  lemma AppendedKeeps(s: State, c: string, lines: seq<Entry>)
    requires Safe(s)
    ensures Safe(s.(w := Appended(s.w, c, lines)))
  {
  }

  lemma CommitKeeps(s: State, c: string, missing: seq<Entry>)
    requires Safe(s) && s.ops != [] && s.ops[0].phase == Appending(missing) && HeadIsCurrent(s)
    requires c == s.ops[0].conversation && forall e :: e in missing ==> e in OutboxOf(s.w, c)
    ensures Safe(s.(m := StageCommitted(s.m, missing)))
  {
    CommittedFacts(s.m, missing);
    var m := StageCommitted(s.m, missing);
    forall id | id in m.pending
      ensures id in m.outboxEntries && m.outboxEntries[id] in OutboxOf(s.w, c)
    {
      assert id in Ids(missing) || id in s.m.pending;
    }
  }

  lemma AppendOutboxKeeps(s: State, written: nat, ok: bool)
    requires Safe(s) && Enabled(s, AppendOutbox(written, ok))
    ensures Safe(Step(s, AppendOutbox(written, ok)))
  {
    var op := s.ops[0];
    var missing := op.phase.missing;
    var s1 := if missing == [] then s else s.(w := Appended(s.w, op.conversation, missing[..written]));
    AppendedKeeps(s, op.conversation, missing[..written]);
    if ok && HeadIsCurrent(s1) {
      assert missing[..written] == missing;
      CommitKeeps(s1, op.conversation, missing);
      FinishOperationKeeps(s1.(m := StageCommitted(s1.m, missing)), true);
    } else {
      FinishOperationKeeps(s1, ok);
    }
  }

  lemma RemoveOutboxKeeps(s: State, gone: bool, ok: bool)
    requires Safe(s) && Enabled(s, RemoveOutbox(gone, ok))
    ensures Safe(Step(s, RemoveOutbox(gone, ok)))
  {
    var c := s.ops[0].conversation;
    var s1 := if gone then s.(w := s.w.(outbox := s.w.outbox - {c})) else s;
    var s2 := if ok then s1.(m := OutboxRemoved(s1.m, c)) else s1;
    SurroundingsKept(s1, s2.m);
    FinishOperationKeeps(s2, ok);
  }

  lemma SendingStepsKeep(s: State, a: Action)
    requires Safe(s) && Enabled(s, a)
    requires a.ServerStores? || a.AppendAccepted? || a.AppendRefused?
    ensures Safe(Step(s, a))
  {
    if a.AppendAccepted? {
      var Sending(c, g, chunks, refused) := s.delivery;
      if IsCurrentLink(s.m, g, c) {
        var s1 := s.(m := Acknowledged(s.m, chunks[0]));
        SurroundingsKept(s, s1.m);
        NextChunkKeeps(s1, c, g, chunks[1..], refused);
      }
    }
  }

  lemma DeliveryStepsKeep(s: State, a: Action)
    requires Safe(s) && Enabled(s, a)
    requires a.AfterLink? || a.AppendFailed? || a.AfterClear?
    ensures Safe(Step(s, a))
  {
    hide Safe, Enabled, Step;
    if a.AfterLink? {
      AfterLinkKeeps(s, a.now);
    } else if a.AppendFailed? {
      AppendFailedKeeps(s, a.now);
    } else {
      AfterClearKeeps(s);
    }
  }

  lemma AfterLinkKeeps(s: State, now: int)
    requires Safe(s) && Enabled(s, AfterLink(now))
    ensures Safe(Step(s, AfterLink(now)))
  {
    hide Dispatch;
    var Linking(c, g) := s.delivery;
    if s.links[g].step.Returned? && IsCurrentLink(s.m, g, c) && s.m.linked {
      DispatchKeeps(s, c, g, now);
    }
  }

  lemma AppendFailedKeeps(s: State, now: int)
    requires Safe(s) && Enabled(s, AppendFailed(now))
    ensures Safe(Step(s, AppendFailed(now)))
  {
    SurroundingsKept(s, Delayed(Counted(s.m), now));
  }

  lemma AfterClearKeeps(s: State)
    requires Safe(s) && Enabled(s, AfterClear)
    ensures Safe(Step(s, AfterClear))
  {
    SurroundingsKept(s, BackoffCleared(if s.delivery.sent then Counted(s.m) else s.m));
  }

  lemma RejectedWrittenKeeps(s: State, onDisk: set<string>, ok: bool)
    requires Safe(s) && Enabled(s, RejectedWritten(onDisk, ok))
    ensures Safe(Step(s, RejectedWritten(onDisk, ok)))
  {
    var WritingRejected(c, g, chunks, refused) := s.delivery;
    var s1 := s.(w := s.w.(rejected := s.w.rejected[c := onDisk]));
    assert Safe(s1);
    if ok && IsCurrentLink(s.m, g, c) {
      var s2 := s1.(m := Rejected(s1.m, chunks[0], refused));
      SurroundingsKept(s1, s2.m);
      NextChunkKeeps(s2, c, g, chunks[1..], refused);
    }
  }

  lemma StartIsSafe(w: World)
    ensures Safe(Start(w))
  {
  }

  lemma StepKeepsSafe(s: State, a: Action)
    requires Safe(s) && Enabled(s, a)
    ensures Safe(Step(s, a))
  {
    hide Safe;
    match a {
      case CallLink(_) => CallsKeep(s, a);
      case CallUnlink => CallsKeep(s, a);
      case CallFlush(_, _) => CallsKeep(s, a);
      case FlushDelivers(_) => CallsKeep(s, a);
      case ListPage(_, _, _) => LinkStepsKeep(s, a);
      case ListFail(_, _) => LinkStepsKeep(s, a);
      case ReadRejected(_, _) => LinkStepsKeep(s, a);
      case StartOperation => StartOperationKeeps(s);
      case ReadOutbox(readable) => ReadOutboxKeeps(s, readable);
      case AppendOutbox(written, ok) => AppendOutboxKeeps(s, written, ok);
      case RemoveOutbox(gone, ok) => RemoveOutboxKeeps(s, gone, ok);
      case RejectedWritten(onDisk, ok) => RejectedWrittenKeeps(s, onDisk, ok);
      case EndRun(now) =>
        IdleKeeps(s);
        LaunchKeeps(s.(delivery := Idle), AfterSettle(s.flight, s.delivery.ok), now);
      case Crash(written, removed, onDisk) => StartIsSafe(CrashedWorld(s, written, removed, onDisk));
      case ServerStores(_, _) => SendingStepsKeep(s, a);
      case AppendAccepted => SendingStepsKeep(s, a);
      case AppendRefused => SendingStepsKeep(s, a);
      case _ => DeliveryStepsKeep(s, a);
    }
  }

  lemma IdleKeeps(s: State)
    requires Safe(s)
    ensures Safe(s.(delivery := Idle))
  {
  }

  /** Main result: in every run, under every interleaving and any number of crashes, the invariant holds. */
  lemma {:induction false} EveryRunIsSafe(s: State, actions: seq<Action>, s': State)
    requires Safe(s) && Runs(s, actions, s')
    ensures Safe(s')
    decreases |actions|
  {
    hide Safe;
    if actions != [] {
      StepKeepsSafe(s, actions[0]);
      EveryRunIsSafe(Step(s, actions[0]), actions[1..], s');
    }
  }

  // ---------------------------------------------------------------------------------------------
  // How an id can leave the pending set
  // ---------------------------------------------------------------------------------------------

  /** The mirror is taken off its conversation by `a`. */
  predicate Leaves(s: State, a: Action) {
    match a
    case CallUnlink => true
    case CallLink(c) => Some(c) != s.m.conversation
    case Crash(_, _, _) => true
    case _ => false
  }

  /** Memory of which only counters, the backoff, the truncation marks or the link itself changed. */
  predicate SameContents(m: Memory, m': Memory) {
    && m'.conversation == m.conversation && m'.acknowledged == m.acknowledged && m'.rejected == m.rejected
    && m'.pending == m.pending && m'.outboxConversation == m.outboxConversation && m'.outboxEntries == m.outboxEntries
    && m.generation <= m'.generation
  }

  /** Starting a run, which may begin a link, moves nothing. */
  lemma LaunchMovesNothing(s: State, reply: Reply<Request>, now: int)
    ensures var s' := Launch(s, reply, now);
      SameContents(s.m, s'.m) && s'.w == s.w && s'.staged == s.staged
  {
  }

  /** What an action does to the contents of memory. */
  predicate Moves(s: State, a: Action, s': State)
    requires Enabled(s, a)
  {
    var m, m' := s.m, s'.m;
    match a
    case ReadRejected(_, _) => SameContents(m, m') || m' == LinkCompleted(m, m'.acknowledged, m'.rejected)
    case ReadOutbox(readable) =>
      var c := s.ops[0].conversation;
      SameContents(m, m') ||
      (m.outboxConversation.None? && m.pending == [] && m.conversation == Some(c) &&
       SameContents(OutboxLoaded(m, c, if readable then OutboxOf(s.w, c) else []), m'))
    case AppendOutbox(_, _) => SameContents(m, m') || m' == StageCommitted(m, s.ops[0].phase.missing)
    case RemoveOutbox(_, _) => SameContents(m, m') || m' == OutboxRemoved(m, s.ops[0].conversation)
    case AppendAccepted =>
      var d := s.delivery;
      SameContents(m, m') ||
      (m' == Acknowledged(m, d.chunks[0]) && m.conversation == Some(d.conversation) && Ids(d.chunks[0]) <= ServerOf(s'.w, d.conversation))
    case RejectedWritten(_, _) =>
      var d := s.delivery;
      SameContents(m, m') ||
      (m' == Rejected(m, d.chunks[0], d.refused) && m.conversation == Some(d.conversation) && d.refused == RejectedOf(s'.w, d.conversation))
    case _ => SameContents(m, m')
  }

  lemma QuietCallMoves(s: State, a: Action)
    requires Enabled(s, a) && (a.CallLink? ==> Some(a.conversation) == s.m.conversation)
    requires a.CallLink? || a.ListPage? || a.ListFail? || a.StartOperation?
    ensures SameContents(s.m, Step(s, a).m)
  {
  }

  lemma QuietDeliveryMoves(s: State, a: Action)
    requires Enabled(s, a)
    requires a.ServerStores? || a.AppendRefused? || a.AppendFailed? || a.AfterClear?
    ensures SameContents(s.m, Step(s, a).m)
  {
  }

  lemma AfterLinkMoves(s: State, now: int)
    requires Enabled(s, AfterLink(now))
    ensures SameContents(s.m, Step(s, AfterLink(now)).m)
  {
  }

  lemma LaunchMoves(s: State, a: Action)
    requires Enabled(s, a) && (a.CallFlush? || a.FlushDelivers? || a.EndRun?)
    ensures SameContents(s.m, Step(s, a).m)
  {
    match a {
      case CallFlush(_, now) =>
        LaunchMovesNothing(s, AfterCall(s.flight, Request(None, s.m.generation)), now);
      case FlushDelivers(now) =>
        LaunchMovesNothing(s.(staged := s.staged[1..]), AfterCall(s.flight, s.staged[0]), now);
      case EndRun(now) =>
        LaunchMovesNothing(s.(delivery := Idle), AfterSettle(s.flight, s.delivery.ok), now);
    }
  }

  lemma OperationMoves(s: State, a: Action)
    requires Safe(s) && Enabled(s, a) && (a.ReadOutbox? || a.AppendOutbox? || a.RemoveOutbox?)
    ensures Moves(s, a, Step(s, a))
  {
    hide Safe, Moves, Step;
    match a
    case ReadOutbox(readable) => ReadOutboxMoves(s, readable);
    case AppendOutbox(written, ok) => AppendOutboxMoves(s, written, ok);
    case RemoveOutbox(gone, ok) => RemoveOutboxMoves(s, gone, ok);
  }

  lemma ReadOutboxMoves(s: State, readable: bool)
    requires Safe(s) && Enabled(s, ReadOutbox(readable))
    ensures Moves(s, ReadOutbox(readable), Step(s, ReadOutbox(readable)))
  {
    if HeadIsCurrent(s) {
      assert HeadOk(s.m, s.ops[0]);
    }
  }

  lemma AppendOutboxMoves(s: State, written: nat, ok: bool)
    requires Enabled(s, AppendOutbox(written, ok))
    ensures Moves(s, AppendOutbox(written, ok), Step(s, AppendOutbox(written, ok)))
  {
  }

  lemma RemoveOutboxMoves(s: State, gone: bool, ok: bool)
    requires Enabled(s, RemoveOutbox(gone, ok))
    ensures Moves(s, RemoveOutbox(gone, ok), Step(s, RemoveOutbox(gone, ok)))
  {
  }

  lemma DeliveryMoves(s: State, a: Action)
    requires Enabled(s, a) && (a.ReadRejected? || a.AppendAccepted? || a.RejectedWritten?)
    ensures Moves(s, a, Step(s, a))
  {
  }

  lemma ContentsAfter(s: State, a: Action)
    requires Safe(s) && Enabled(s, a) && !Leaves(s, a)
    ensures Moves(s, a, Step(s, a))
  {
    hide Safe, SameContents;
    if a.CallFlush? || a.FlushDelivers? || a.EndRun? {
      LaunchMoves(s, a);
    } else if a.ReadOutbox? || a.AppendOutbox? || a.RemoveOutbox? {
      OperationMoves(s, a);
    } else if a.ReadRejected? || a.AppendAccepted? || a.RejectedWritten? {
      DeliveryMoves(s, a);
    } else if a.CallLink? || a.ListPage? || a.ListFail? || a.StartOperation? {
      QuietCallMoves(s, a);
    } else if a.AfterLink? {
      AfterLinkMoves(s, a.now);
    } else {
      QuietDeliveryMoves(s, a);
    }
  }

  /** Nothing but an acknowledgement, a refusal that is on disk, or taking the mirror off the conversation ends a pending id. */
  lemma LeavesForAReason(s: State, a: Action, id: string)
    requires Safe(s) && Enabled(s, a) && !Leaves(s, a)
    requires id in s.m.pending && id !in Step(s, a).m.pending
    ensures var s' := Step(s, a);
      && s'.m.conversation == s.m.conversation
      && (id in s'.m.acknowledged || id in s'.m.rejected)
      && (a.RejectedWritten? ==> id in RejectedOf(s'.w, s.m.conversation.value))
  {
    ContentsAfter(s, a);
    if a.AppendOutbox? && HeadIsCurrent(s) {
      CommittedFacts(s.m, s.ops[0].phase.missing);
    }
  }

  /** `ids` after some of them left and others joined at the end. */
  ghost predicate KeepsOrder(ids: seq<string>, ids': seq<string>) {
    exists gone, added :: ids' == Without(ids, gone) + added
  }

  lemma JoinedKeepOrder(ids: seq<string>, ids': seq<string>)
    requires ids <= ids'
    ensures KeepsOrder(ids, ids')
  {
    WithoutNothing(ids, {});
    assert ids' == Without(ids, {}) + ids'[|ids|..];
  }

  lemma RestKeepsOrder(ids: seq<string>, gone: set<string>)
    ensures KeepsOrder(ids, Without(ids, gone))
  {
    assert Without(ids, gone) == Without(ids, gone) + [];
  }

  /** Ids leave the pending set from anywhere but join it at the end: what stays keeps its staging order. */
  lemma StagingOrderKept(s: State, a: Action)
    requires Safe(s) && Enabled(s, a) && !Leaves(s, a)
    ensures KeepsOrder(s.m.pending, Step(s, a).m.pending)
  {
    var m, m' := s.m, Step(s, a).m;
    ContentsAfter(s, a);
    if a.ReadRejected? {
      RestKeepsOrder(m.pending, m'.acknowledged + m'.rejected);
    } else if a.AppendAccepted? || a.RejectedWritten? {
      RestKeepsOrder(m.pending, Ids(s.delivery.chunks[0]));
    } else if a.AppendOutbox? {
      assert MemoryOk(m);
      CommittedFacts(m, s.ops[0].phase.missing);
    }
    hide KeepsOrder, Safe, Enabled, Step;
    if m.pending <= m'.pending {
      JoinedKeepOrder(m.pending, m'.pending);
    }
  }
}
