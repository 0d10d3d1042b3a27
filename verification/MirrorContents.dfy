/**
 What is written and sent: every entry in an outbox file, in memory, on its way to the file or on its way to the server is
 one that was on the file of that conversation at the start or was handed to a flush while the mirror was on that
 conversation, with its id and payload, and marked as truncated exactly if it was over the limit.
 */
module MirrorContents {
  import opened Wrappers
  import opened Seqs
  import opened MirrorMemory
  import opened SingleFlight
  import opened MirrorProtocol
  import opened MirrorInvariants
  import opened MirrorSafety
  import opened MirrorRefusals

  /** Entries handed to flushes, each with the conversation the mirror was on. */
  type Handed = set<(string, SessionEntry)>

  /** The entry as it has to be staged; the limit is one MiB. */
  predicate StagedAs(f: SessionEntry, e: Entry) {
    e.id == f.id && e.payload == f.payload && (e.truncated <==> f.payloadBytes > 1048576)
  }

  ghost predicate Genuine(w0: World, handed: Handed, c: string, e: Entry) {
    e in OutboxOf(w0, c) || exists f :: (c, f) in handed && StagedAs(f, e)
  }

  ghost predicate AllGenuine(w0: World, handed: Handed, c: string, entries: seq<Entry>) {
    forall e :: e in entries ==> Genuine(w0, handed, c, e)
  }

  ghost predicate GenuineFiles(w0: World, handed: Handed, w: World) {
    forall c :: c in w.outbox ==> AllGenuine(w0, handed, c, w.outbox[c])
  }

  ghost predicate GenuineMemory(w0: World, handed: Handed, m: Memory) {
    m.conversation.Some? ==> forall id :: id in m.outboxEntries ==> Genuine(w0, handed, m.conversation.value, m.outboxEntries[id])
  }

  ghost predicate GenuineOperation(w0: World, handed: Handed, op: Operation) {
    && (op.job.Stage? ==> forall f :: f in op.job.entries ==> (op.conversation, f) in handed)
    && (op.phase.Appending? ==> AllGenuine(w0, handed, op.conversation, op.phase.missing))
  }

  ghost predicate GenuineQueue(w0: World, handed: Handed, ops: seq<Operation>) {
    forall op :: op in ops ==> GenuineOperation(w0, handed, op)
  }

  ghost predicate GenuineDelivery(w0: World, handed: Handed, d: Delivery) {
    d.Sending? || d.WritingRejected? ==> forall b :: b in d.chunks ==> AllGenuine(w0, handed, d.conversation, b)
  }

  ghost predicate GenuineState(w0: World, handed: Handed, s: State) {
    && GenuineFiles(w0, handed, s.w) && GenuineMemory(w0, handed, s.m)
    && GenuineQueue(w0, handed, s.ops) && GenuineDelivery(w0, handed, s.delivery)
  }

  function HandedBy(s: State, a: Action): Handed {
    if a.CallFlush? && s.m.conversation.Some? then set f | f in a.entries :: (s.m.conversation.value, f) else {}
  }

  function HandedIn(s: State, actions: seq<Action>): Handed
    decreases |actions|
  {
    if actions == [] then {} else HandedBy(s, actions[0]) + HandedIn(Step(s, actions[0]), actions[1..])
  }

  // ---------------------------------------------------------------------------------------------
  // What the stretches make of genuine entries
  // ---------------------------------------------------------------------------------------------

  lemma MoreHanded(w0: World, handed: Handed, more: Handed, s: State)
    requires GenuineState(w0, handed, s) && handed <= more
    ensures GenuineState(w0, more, s)
  {
    assert forall c, e :: Genuine(w0, handed, c, e) ==> Genuine(w0, more, c, e);
    hide Genuine;
  }

  lemma {:induction false} MissingIsGenuine(w0: World, handed: Handed, m: Memory, c: string, entries: seq<SessionEntry>)
    requires forall f :: f in entries ==> (c, f) in handed
    ensures AllGenuine(w0, handed, c, Missing(m, entries))
  {
    if entries != [] {
      var n := |entries| - 1;
      MissingIsGenuine(w0, handed, m, c, entries[..n]);
      assert (c, entries[n]) in handed && StagedAs(entries[n], Staged(entries[n]));
    }
  }

  lemma {:induction false} LoadedIsGenuine(m: Memory, outbox: seq<Entry>)
    requires m.outboxEntries == map[]
    ensures var r := LoadedAll(m, outbox);
      r.conversation == m.conversation && forall id :: id in r.outboxEntries ==> r.outboxEntries[id] in outbox
  {
    if outbox != [] {
      LoadedIsGenuine(m, outbox[..|outbox| - 1]);
    }
  }

  lemma {:induction false} CommittedIsGenuine(m: Memory, missing: seq<Entry>)
    ensures var r := CommittedAll(m, missing);
      r.conversation == m.conversation &&
      forall id :: id in r.outboxEntries ==> r.outboxEntries[id] in missing || (id in m.outboxEntries && r.outboxEntries[id] == m.outboxEntries[id])
  {
    if missing != [] {
      CommittedIsGenuine(m, missing[..|missing| - 1]);
    }
  }

  lemma {:induction false} OutstandingIsStaged(pending: seq<string>, outboxEntries: map<string, Entry>)
    ensures forall e :: e in Outstanding(pending, outboxEntries) ==> exists id :: id in outboxEntries && outboxEntries[id] == e
  {
    if pending != [] {
      OutstandingIsStaged(pending[..|pending| - 1], outboxEntries);
    }
  }

  lemma {:induction false} BatchesAreOf<T>(items: seq<T>, size: nat)
    requires 0 < size
    ensures forall b, x :: b in Batches(items, size) && x in b ==> x in items
    decreases |items|
  {
    if size < |items| {
      BatchesAreOf(items[size..], size);
    }
  }

  lemma ChunksAreGenuine(w0: World, handed: Handed, m: Memory, c: string)
    requires GenuineMemory(w0, handed, m) && m.conversation == Some(c)
    ensures forall b :: b in Batches(Outstanding(m.pending, m.outboxEntries), MAX_ENTRIES_PER_BATCH) ==> AllGenuine(w0, handed, c, b)
  {
    hide Genuine;
    OutstandingIsStaged(m.pending, m.outboxEntries);
    BatchesAreOf(Outstanding(m.pending, m.outboxEntries), MAX_ENTRIES_PER_BATCH);
  }

  // ---------------------------------------------------------------------------------------------
  // Every action
  // ---------------------------------------------------------------------------------------------

  lemma DispatchGenuine(w0: World, handed: Handed, s: State, c: string, g: nat, now: int)
    requires GenuineState(w0, handed, s) && s.m.conversation == Some(c)
    ensures GenuineState(w0, handed, Dispatch(s, c, g, now))
  {
    ChunksAreGenuine(w0, handed, s.m, c);
    hide Genuine, AllGenuine, Batches, Outstanding;
  }

  lemma StartRunGenuine(w0: World, handed: Handed, s: State, r: Request, now: int)
    requires GenuineState(w0, handed, s)
    ensures GenuineState(w0, handed, StartRun(s, r, now))
  {
    hide Genuine, AllGenuine, Dispatch;
    if r.conversation.Some? && IsCurrentLink(s.m, r.generation, r.conversation.value) {
      DispatchGenuine(w0, handed, s, r.conversation.value, r.generation, now);
    }
  }

  lemma LaunchGenuine(w0: World, handed: Handed, s: State, reply: Reply<Request>, now: int)
    requires GenuineState(w0, handed, s)
    ensures GenuineState(w0, handed, Launch(s, reply, now))
  {
    hide Genuine, AllGenuine, StartRun;
    if reply.start.Some? {
      StartRunGenuine(w0, handed, s.(flight := reply.flight), reply.start.value, now);
    }
  }

  lemma CallFlushGenuine(w0: World, handed: Handed, s: State, entries: seq<SessionEntry>, now: int)
    requires GenuineState(w0, handed, s) && HandedBy(s, CallFlush(entries, now)) <= handed
    ensures GenuineState(w0, handed, Step(s, CallFlush(entries, now)))
  {
    hide Genuine, AllGenuine, Launch;
    if s.m.conversation.None? {
      LaunchGenuine(w0, handed, s, AfterCall(s.flight, Request(None, s.m.generation)), now);
    } else {
      forall f | f in entries
        ensures (s.m.conversation.value, f) in handed
      {
        assert (s.m.conversation.value, f) in HandedBy(s, CallFlush(entries, now));
      }
    }
  }

  lemma CallsGenuine(w0: World, handed: Handed, s: State, a: Action)
    requires GenuineState(w0, handed, s) && Enabled(s, a)
    requires a.CallLink? || a.CallUnlink? || a.FlushDelivers? || a.EndRun? || a.ListPage? || a.ListFail? || a.ReadRejected?
    ensures GenuineState(w0, handed, Step(s, a))
  {
    hide Genuine, AllGenuine, Launch;
    if a.FlushDelivers? {
      LaunchGenuine(w0, handed, s.(staged := s.staged[1..]), AfterCall(s.flight, s.staged[0]), a.now);
    } else if a.EndRun? {
      LaunchGenuine(w0, handed, s.(delivery := Idle), AfterSettle(s.flight, s.delivery.ok), a.now);
    }
  }

  lemma FinishGenuine(w0: World, handed: Handed, s: State, ok: bool)
    requires GenuineState(w0, handed, s) && s.ops != []
    ensures GenuineState(w0, handed, FinishOperation(s, ok))
  {
    hide Genuine, AllGenuine, GenuineOperation;
  }

  lemma PhaseGenuine(w0: World, handed: Handed, s: State, phase: Phase)
    requires GenuineState(w0, handed, s) && s.ops != []
    requires phase.Appending? ==> AllGenuine(w0, handed, s.ops[0].conversation, phase.missing)
    ensures GenuineState(w0, handed, WithPhase(s, phase))
  {
    hide Genuine, AllGenuine;
    assert GenuineOperation(w0, handed, s.ops[0]);
  }

  lemma SelectGenuine(w0: World, handed: Handed, s: State)
    requires GenuineState(w0, handed, s) && s.ops != [] && s.ops[0].job.Stage?
    ensures GenuineState(w0, handed, SelectEntries(s))
  {
    assert GenuineOperation(w0, handed, s.ops[0]);
    MissingIsGenuine(w0, handed, s.m, s.ops[0].conversation, s.ops[0].job.entries);
    hide Genuine, AllGenuine, Missing, WithPhase;
    PhaseGenuine(w0, handed, s.(m := Selected(s.m, s.ops[0].job.entries)), Appending(Missing(s.m, s.ops[0].job.entries)));
  }

  lemma StartGenuine(w0: World, handed: Handed, s: State)
    requires GenuineState(w0, handed, s) && Enabled(s, StartOperation)
    ensures GenuineState(w0, handed, Step(s, StartOperation))
  {
    hide Genuine, AllGenuine, FinishOperation, WithPhase, SelectEntries;
    FinishGenuine(w0, handed, if HeadIsCurrent(s) then s.(m := Counted(s.m)) else s, true);
    PhaseGenuine(w0, handed, s, Reading);
    PhaseGenuine(w0, handed, s.(m := Counted(s.m)), Removing);
    if s.ops[0].job.Stage? {
      SelectGenuine(w0, handed, s);
    }
  }

  lemma ReadOutboxGenuine(w0: World, handed: Handed, s: State, readable: bool)
    requires GenuineState(w0, handed, s) && Enabled(s, ReadOutbox(readable))
    ensures GenuineState(w0, handed, Step(s, ReadOutbox(readable)))
  {
    var c := s.ops[0].conversation;
    var outbox := if readable then OutboxOf(s.w, c) else [];
    LoadedIsGenuine(s.m.(outboxEntries := map[]), outbox);
    hide Genuine, FinishOperation, SelectEntries, LoadedAll;
    if HeadIsCurrent(s) {
      SelectGenuine(w0, handed, s.(m := OutboxLoaded(s.m, c, outbox)));
    } else {
      FinishGenuine(w0, handed, s, true);
    }
  }

  lemma AppendedGenuine(w0: World, handed: Handed, w: World, c: string, lines: seq<Entry>)
    requires GenuineFiles(w0, handed, w) && AllGenuine(w0, handed, c, lines)
    ensures GenuineFiles(w0, handed, Appended(w, c, lines))
  {
    hide Genuine;
  }

  lemma PrefixGenuine(w0: World, handed: Handed, c: string, lines: seq<Entry>, n: nat)
    requires n <= |lines| && AllGenuine(w0, handed, c, lines)
    ensures AllGenuine(w0, handed, c, lines[..n])
  {
    hide Genuine;
  }

  lemma AppendOutboxGenuine(w0: World, handed: Handed, s: State, written: nat, ok: bool)
    requires GenuineState(w0, handed, s) && Enabled(s, AppendOutbox(written, ok))
    ensures GenuineState(w0, handed, Step(s, AppendOutbox(written, ok)))
  {
    var op := s.ops[0];
    var missing := op.phase.missing;
    assert GenuineOperation(w0, handed, op);
    hide Genuine, FinishOperation, Appended, CommittedAll;
    PrefixGenuine(w0, handed, op.conversation, missing, written);
    AppendedGenuine(w0, handed, s.w, op.conversation, missing[..written]);
    CommittedIsGenuine(s.m, missing);
    var s1 := if missing == [] then s else s.(w := Appended(s.w, op.conversation, missing[..written]));
    var m := StageCommitted(s.m, missing);
    if HeadIsCurrent(s) {
      CommitGenuine(w0, handed, s.m, m, missing);
      FinishGenuine(w0, handed, s1.(m := m), ok);
    }
    FinishGenuine(w0, handed, s1, ok);
  }

  lemma CommitGenuine(w0: World, handed: Handed, m: Memory, m': Memory, missing: seq<Entry>)
    requires GenuineMemory(w0, handed, m) && m'.conversation == m.conversation
    requires m.conversation.Some? ==> AllGenuine(w0, handed, m.conversation.value, missing)
    requires forall id :: id in m'.outboxEntries ==>
      m'.outboxEntries[id] in missing || (id in m.outboxEntries && m'.outboxEntries[id] == m.outboxEntries[id])
    ensures GenuineMemory(w0, handed, m')
  {
    hide Genuine;
  }

  lemma RemoveOutboxGenuine(w0: World, handed: Handed, s: State, gone: bool, ok: bool)
    requires GenuineState(w0, handed, s) && Enabled(s, RemoveOutbox(gone, ok))
    ensures GenuineState(w0, handed, Step(s, RemoveOutbox(gone, ok)))
  {
    hide Genuine, AllGenuine, FinishOperation;
    var c := s.ops[0].conversation;
    var s1 := if gone then s.(w := s.w.(outbox := s.w.outbox - {c})) else s;
    FinishGenuine(w0, handed, if ok then s1.(m := OutboxRemoved(s.m, c)) else s1, ok);
  }

  lemma NextChunkGenuine(w0: World, handed: Handed, s: State, c: string, g: nat, chunks: seq<seq<Entry>>, refused: set<string>)
    requires GenuineState(w0, handed, s) && forall b :: b in chunks ==> AllGenuine(w0, handed, c, b)
    ensures GenuineState(w0, handed, NextChunk(s, c, g, chunks, refused))
  {
    hide Genuine, AllGenuine;
  }

  lemma AnswersGenuine(w0: World, handed: Handed, s: State, a: Action)
    requires GenuineState(w0, handed, s) && Enabled(s, a)
    requires a.ServerStores? || a.AppendRefused? || a.AppendFailed? || a.AfterClear?
    ensures GenuineState(w0, handed, Step(s, a))
  {
    hide Genuine, AllGenuine;
  }

  lemma GoingOnGenuine(w0: World, handed: Handed, s: State, a: Action)
    requires GenuineState(w0, handed, s) && Enabled(s, a) && (a.AfterLink? || a.AppendAccepted? || a.RejectedWritten?)
    ensures GenuineState(w0, handed, Step(s, a))
  {
    hide Genuine, AllGenuine, Dispatch, NextChunk;
    var d := s.delivery;
    if a.AfterLink? {
      if IsCurrentLink(s.m, d.generation, d.conversation) {
        DispatchGenuine(w0, handed, s, d.conversation, d.generation, a.now);
      }
    } else if a.AppendAccepted? {
      NextChunkGenuine(w0, handed, s.(m := Acknowledged(s.m, d.chunks[0])), d.conversation, d.generation, d.chunks[1..], d.refused);
    } else {
      var w := s.w.(rejected := s.w.rejected[d.conversation := a.onDisk]);
      NextChunkGenuine(w0, handed, s.(m := Rejected(s.m, d.chunks[0], d.refused), w := w), d.conversation, d.generation, d.chunks[1..], d.refused);
    }
  }

  lemma CrashGenuine(w0: World, handed: Handed, s: State, written: nat, removed: bool, onDisk: set<string>)
    requires GenuineState(w0, handed, s) && Enabled(s, Crash(written, removed, onDisk))
    ensures GenuineState(w0, handed, Step(s, Crash(written, removed, onDisk)))
  {
    hide Genuine, Appended, LateOf, Ids;
    if s.ops != [] && s.ops[0].phase.Appending? {
      var op := s.ops[0];
      assert GenuineOperation(w0, handed, op);
      var w := if s.delivery.WritingRejected? then s.w.(rejected := s.w.rejected[s.delivery.conversation := onDisk])
        else Unanswered(s.w, s.delivery);
      PrefixGenuine(w0, handed, op.conversation, op.phase.missing, written);
      AppendedGenuine(w0, handed, w, op.conversation, op.phase.missing[..written]);
    }
  }

  lemma StepKeepsGenuine(w0: World, handed: Handed, s: State, a: Action)
    requires GenuineState(w0, handed, s) && Enabled(s, a)
    ensures GenuineState(w0, handed + HandedBy(s, a), Step(s, a))
  {
    hide *;
    var more := handed + HandedBy(s, a);
    MoreHanded(w0, handed, more, s);
    match a
    case CallFlush(entries, now) => CallFlushGenuine(w0, more, s, entries, now);
    case StartOperation => StartGenuine(w0, more, s);
    case ReadOutbox(readable) => ReadOutboxGenuine(w0, more, s, readable);
    case AppendOutbox(written, ok) => AppendOutboxGenuine(w0, more, s, written, ok);
    case RemoveOutbox(gone, ok) => RemoveOutboxGenuine(w0, more, s, gone, ok);
    case AfterLink(_) => GoingOnGenuine(w0, more, s, a);
    case AppendAccepted => GoingOnGenuine(w0, more, s, a);
    case RejectedWritten(_, _) => GoingOnGenuine(w0, more, s, a);
    case ServerStores(_, _) => AnswersGenuine(w0, more, s, a);
    case AppendRefused => AnswersGenuine(w0, more, s, a);
    case AppendFailed(_) => AnswersGenuine(w0, more, s, a);
    case AfterClear => AnswersGenuine(w0, more, s, a);
    case Crash(written, removed, onDisk) => CrashGenuine(w0, more, s, written, removed, onDisk);
    case CallLink(_) => CallsGenuine(w0, more, s, a);
    case CallUnlink => CallsGenuine(w0, more, s, a);
    case FlushDelivers(_) => CallsGenuine(w0, more, s, a);
    case EndRun(_) => CallsGenuine(w0, more, s, a);
    case ListPage(_, _, _) => CallsGenuine(w0, more, s, a);
    case ListFail(_, _) => CallsGenuine(w0, more, s, a);
    case ReadRejected(_, _) => CallsGenuine(w0, more, s, a);
  }

  lemma {:induction false} RunKeepsGenuine(w0: World, handed: Handed, s: State, actions: seq<Action>, s': State)
    requires GenuineState(w0, handed, s) && Runs(s, actions, s')
    ensures GenuineState(w0, handed + HandedIn(s, actions), s')
    decreases |actions|
  {
    hide GenuineState, HandedBy, Enabled, Step;
    if actions == [] {
      assert handed + HandedIn(s, actions) == handed;
    } else {
      var first := handed + HandedBy(s, actions[0]);
      StepKeepsGenuine(w0, handed, s, actions[0]);
      RunKeepsGenuine(w0, first, Step(s, actions[0]), actions[1..], s');
      assert first + HandedIn(Step(s, actions[0]), actions[1..]) == handed + HandedIn(s, actions);
    }
  }

  /**
   Main result: over every run from a fresh start, crashes included, whatever is in an outbox file, staged in memory,
   being appended or being sent for a conversation was on its file at the start, or was handed to a flush of that
   conversation, with that id and payload and truncated exactly if it was over one MiB.
   */
  lemma ContentsAreGenuine(w: World, actions: seq<Action>, s: State)
    requires Runs(Start(w), actions, s)
    ensures GenuineState(w, HandedIn(Start(w), actions), s)
  {
    hide Genuine;
    assert GenuineState(w, {}, Start(w)) by {
      StartIsGenuine(w);
    }
    RunKeepsGenuine(w, {}, Start(w), actions, s);
    assert {} + HandedIn(Start(w), actions) == HandedIn(Start(w), actions);
  }

  lemma StartIsGenuine(w: World)
    ensures GenuineState(w, {}, Start(w))
  {
  }
}
