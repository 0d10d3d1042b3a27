/**
 When the mirror turns to the server of its own accord. After a failure it waits, longer with every failure in a row, and
 until then it neither links nor sends. `RetriesAreSpaced` says so of whole runs.
 */
module MirrorBackoff {
  import opened Wrappers
  import opened MirrorMemory
  import opened MirrorProtocol
  import opened SingleFlight

  /** The delivery turns to the server for the first time: with a link, or with the first chunk. */
  predicate Contacts(s: State, a: Action) {
    var d, d' := s.delivery, Step(s, a).delivery;
    (d'.Linking? && d != d') || (d'.Sending? && !d.Sending? && !d.WritingRejected?)
  }

  /** The link or the request of the current generation has failed. */
  predicate Fails(s: State, a: Action) {
    Enabled(s, a) &&
    match a
    case ListFail(link, _) => IsCurrentLink(s.m, link, s.links[link].conversation)
    case AppendFailed(_) => IsCurrentLink(s.m, s.delivery.generation, s.delivery.conversation)
    case _ => false
  }

  /** A fresh start, another conversation, a link that is complete, or a delivery that came through. */
  predicate Resets(s: State, a: Action) {
    Enabled(s, a) &&
    match a
    case CallLink(c) => SafeConversationId(c) && s.m.conversation != Some(c)
    case CallUnlink => true
    case ReadRejected(link, _) => IsCurrentLink(s.m, link, s.links[link].conversation)
    case AfterClear => s.delivery.ok && IsCurrentLink(s.m, s.delivery.generation, s.delivery.conversation)
    case Crash(_, _, _) => true
    case _ => false
  }

  predicate HasTime(a: Action) {
    a.CallFlush? || a.ListFail? || a.FlushDelivers? || a.AfterLink? || a.AppendFailed? || a.EndRun?
  }

  predicate SameWait(m: Memory, m': Memory) {
    m'.backoffMs == m.backoffMs && m'.nextAttemptAt == m.nextAttemptAt
  }

  // ---------------------------------------------------------------------------------------------
  // Starting to deliver
  // ---------------------------------------------------------------------------------------------

  lemma DispatchWaits(s: State, c: string, generation: nat, now: int)
    ensures var s' := Dispatch(s, c, generation, now);
      SameWait(s.m, s'.m) && !s'.delivery.Linking? && (s'.delivery.Sending? ==> now >= s.m.nextAttemptAt)
  {
    hide Outstanding, Batches;
  }

  lemma StartRunWaits(s: State, request: Request, now: int)
    ensures var s' := StartRun(s, request, now);
      SameWait(s.m, s'.m) && (s'.delivery.Linking? || s'.delivery.Sending? ==> now >= s.m.nextAttemptAt)
  {
    hide Dispatch;
    if request.conversation.Some? {
      DispatchWaits(s, request.conversation.value, request.generation, now);
    }
  }

  lemma LaunchWaits(s: State, reply: Reply<Request>, now: int)
    ensures var s' := Launch(s, reply, now);
      SameWait(s.m, s'.m) && (s'.delivery == s.delivery || (s'.delivery.Linking? || s'.delivery.Sending? ==> now >= s.m.nextAttemptAt))
  {
    hide StartRun;
    if reply.start.Some? {
      StartRunWaits(s.(flight := reply.flight), reply.start.value, now);
    }
  }

  lemma NextChunkWaits(s: State, c: string, generation: nat, chunks: seq<seq<Entry>>, refused: set<string>)
    ensures var s' := NextChunk(s, c, generation, chunks, refused); SameWait(s.m, s'.m) && !s'.delivery.Linking?
  {
  }

  lemma FinishWaits(s: State, ok: bool)
    requires s.ops != []
    ensures var s' := FinishOperation(s, ok); SameWait(s.m, s'.m) && (s'.delivery == s.delivery || s'.delivery.Cleared?)
  {
  }

  lemma {:induction false} LoadedWaits(m: Memory, outbox: seq<Entry>)
    ensures SameWait(m, LoadedAll(m, outbox))
    decreases |outbox|
  {
    if outbox != [] {
      LoadedWaits(m, outbox[..|outbox| - 1]);
    }
  }

  lemma {:induction false} CommittedWaits(m: Memory, entries: seq<Entry>)
    ensures SameWait(m, CommittedAll(m, entries))
    decreases |entries|
  {
    if entries != [] {
      CommittedWaits(m, entries[..|entries| - 1]);
    }
  }

  // ---------------------------------------------------------------------------------------------
  // Steps
  // ---------------------------------------------------------------------------------------------

  /** A step that neither fails nor ends the wait, nor turns to the server before its time. */
  ghost predicate Patient(s: State, a: Action, s': State) {
    && SameWait(s.m, s'.m)
    && (s'.delivery == s.delivery || (!s'.delivery.Linking? && !s'.delivery.Sending?)
        || (s'.delivery.Sending? && (s.delivery.Sending? || s.delivery.WritingRejected?))
        || (HasTime(a) && a.now >= s.m.nextAttemptAt))
  }

  lemma OperationsArePatient(s: State, a: Action)
    requires Enabled(s, a) && (a.StartOperation? || a.ReadOutbox? || a.AppendOutbox? || a.RemoveOutbox?)
    ensures Patient(s, a, Step(s, a))
  {
    hide FinishOperation, LoadedAll, Missing, CommittedAll;
    match a
    case StartOperation =>
      FinishWaits(s, true);
      FinishWaits(s.(m := Counted(s.m)), true);
    case ReadOutbox(readable) =>
      FinishWaits(s, true);
      var c := s.ops[0].conversation;
      LoadedWaits(s.m.(outboxEntries := map[]), if readable then OutboxOf(s.w, c) else []);
    case AppendOutbox(written, ok) =>
      var op := s.ops[0];
      var missing := op.phase.missing;
      var t := if missing == [] then s else s.(w := Appended(s.w, op.conversation, missing[..written]));
      CommittedWaits(t.m, missing);
      FinishWaits(t, ok);
      FinishWaits(t.(m := StageCommitted(t.m, missing)), true);
    case RemoveOutbox(gone, ok) =>
      var c := s.ops[0].conversation;
      var t := if gone then s.(w := s.w.(outbox := s.w.outbox - {c})) else s;
      FinishWaits(t, ok);
      FinishWaits(t.(m := OutboxRemoved(t.m, c)), ok);
  }

  lemma CallsArePatient(s: State, a: Action)
    requires Enabled(s, a) && (a.CallFlush? || a.FlushDelivers? || a.EndRun? || a.AfterLink?)
    ensures Patient(s, a, Step(s, a))
  {
    hide Launch, Dispatch;
    match a
    case CallFlush(_, now) => LaunchWaits(s, AfterCall(s.flight, Request(None, s.m.generation)), now);
    case FlushDelivers(now) => LaunchWaits(s.(staged := s.staged[1..]), AfterCall(s.flight, s.staged[0]), now);
    case EndRun(now) => LaunchWaits(s.(delivery := Idle), AfterSettle(s.flight, s.delivery.ok), now);
    case AfterLink(now) => DispatchWaits(s, s.delivery.conversation, s.delivery.generation, now);
  }

  lemma AnswersArePatient(s: State, a: Action)
    requires Enabled(s, a) && (a.ListPage? || a.ServerStores? || a.AppendAccepted? || a.AppendRefused? || a.RejectedWritten?)
    ensures Patient(s, a, Step(s, a))
  {
    hide NextChunk;
    match a
    case AppendAccepted =>
      var d := s.delivery;
      NextChunkWaits(s.(m := Acknowledged(s.m, d.chunks[0])), d.conversation, d.generation, d.chunks[1..], d.refused);
    case RejectedWritten(onDisk, _) =>
      var d := s.delivery;
      var t := s.(w := s.w.(rejected := s.w.rejected[d.conversation := onDisk]));
      NextChunkWaits(t.(m := Rejected(t.m, d.chunks[0], d.refused)), d.conversation, d.generation, d.chunks[1..], d.refused);
    case _ =>
  }

  /** What the actions do that may set the wait. */
  lemma OthersSetWait(s: State, a: Action)
    requires Enabled(s, a)
    requires a.CallLink? || a.CallUnlink? || a.ListFail? || a.ReadRejected? || a.AppendFailed? || a.AfterClear? || a.Crash?
    ensures !Contacts(s, a) && WaitIsSet(s, a)
  {
    hide Without;
  }

  /** A failure sets the wait, a reset ends it, everything else leaves it. */
  ghost predicate WaitIsSet(s: State, a: Action)
    requires Enabled(s, a)
  {
    var m, m' := s.m, Step(s, a).m;
    if Fails(s, a) then
      && HasTime(a) && !Resets(s, a)
      && m'.backoffMs == (if m.backoffMs == 0 then 1000 else if m.backoffMs * 2 < 60000 then m.backoffMs * 2 else 60000)
      && m'.nextAttemptAt == a.now + m'.backoffMs
    else if Resets(s, a) then m'.backoffMs == 0 && m'.nextAttemptAt == 0
    else m'.backoffMs == m.backoffMs && m'.nextAttemptAt == m.nextAttemptAt
  }

  /** The mirror turns to the server only when its time has come. */
  lemma StepWaits(s: State, a: Action)
    requires Enabled(s, a)
    ensures WaitIsSet(s, a)
    ensures Contacts(s, a) ==> HasTime(a) && a.now >= s.m.nextAttemptAt
  {
    hide Step, Enabled;
    if a.CallLink? || a.CallUnlink? || a.ListFail? || a.ReadRejected? || a.AppendFailed? || a.AfterClear? || a.Crash? {
      OthersSetWait(s, a);
    } else if a.StartOperation? || a.ReadOutbox? || a.AppendOutbox? || a.RemoveOutbox? {
      OperationsArePatient(s, a);
    } else if a.CallFlush? || a.FlushDelivers? || a.EndRun? || a.AfterLink? {
      CallsArePatient(s, a);
    } else {
      AnswersArePatient(s, a);
    }
  }

  // ---------------------------------------------------------------------------------------------
  // Runs
  // ---------------------------------------------------------------------------------------------

  /** The times of the failures of a run, and whether it has none of the resets. */
  function FailureTimes(s: State, actions: seq<Action>): seq<int>
    decreases |actions|
  {
    if actions == [] then []
    else
      var a := actions[0];
      (if Fails(s, a) && HasTime(a) then [a.now] else []) + FailureTimes(Step(s, a), actions[1..])
  }

  predicate NoResets(s: State, actions: seq<Action>)
    decreases |actions|
  {
    actions == [] || (!Resets(s, actions[0]) && NoResets(Step(s, actions[0]), actions[1..]))
  }

  lemma TimesAre(s: State, actions: seq<Action>)
    requires actions != []
    ensures var a := actions[0];
      FailureTimes(s, actions) == (if Fails(s, a) && HasTime(a) then [a.now] else []) + FailureTimes(Step(s, a), actions[1..])
  {
    hide Step, Fails, HasTime;
  }

  lemma FirstOfTimes(s: State, actions: seq<Action>, before: seq<int>)
    requires actions != []
    ensures var a := actions[0];
      before + FailureTimes(s, actions) ==
      (if Fails(s, a) && HasTime(a) then before + [a.now] else before) + FailureTimes(Step(s, a), actions[1..])
  {
    hide Step, Fails, FailureTimes;
    TimesAre(s, actions);
    var a := actions[0];
    var rest := FailureTimes(Step(s, a), actions[1..]);
    if Fails(s, a) && HasTime(a) {
      Shifted(before, [a.now], rest);
    } else {
      assert [] + rest == rest;
    }
  }

  lemma Shifted(a: seq<int>, b: seq<int>, c: seq<int>)
    ensures a + (b + c) == (a + b) + c
  {
  }

  lemma FirstOfRun(s: State, actions: seq<Action>, s': State)
    requires actions != [] && Runs(s, actions, s') && NoResets(s, actions)
    ensures Enabled(s, actions[0]) && !Resets(s, actions[0])
    ensures Runs(Step(s, actions[0]), actions[1..], s') && NoResets(Step(s, actions[0]), actions[1..])
  {
    hide Step, Enabled, Resets;
  }

  /** The wait behind the failures of a run is what `Failing` makes of them. */
  lemma {:induction false} RunFails(s: State, actions: seq<Action>, s': State, m: Memory, before: seq<int>)
    requires Runs(s, actions, s') && NoResets(s, actions) && SameWait(Failing(m, before), s.m)
    ensures SameWait(Failing(m, before + FailureTimes(s, actions)), s'.m)
    decreases |actions|
  {
    if actions == [] {
      assert before + FailureTimes(s, actions) == before;
    } else {
      var a := actions[0];
      var t := Step(s, a);
      FirstOfRun(s, actions, s');
      FirstOfTimes(s, actions, before);
      StepWaits(s, a);
      hide Step, Enabled, Fails, Resets, FailureTimes, Runs, NoResets;
      var next := if Fails(s, a) then before + [a.now] else before;
      assert Fails(s, a) ==> next[..|next| - 1] == before;
      RunFails(t, actions[1..], s', m, next);
    }
  }

  /**
   Main result. In every run without a reset that starts without a wait, the mirror turns to the server no earlier than
   one second behind its last failure, and twice as long with every further failure, up to a minute.
   */
  lemma RetriesAreSpaced(s: State, actions: seq<Action>, s': State, a: Action)
    requires s.m.backoffMs == 0 && Runs(s, actions, s') && NoResets(s, actions)
    requires Enabled(s', a) && Contacts(s', a) && FailureTimes(s, actions) != []
    ensures var times := FailureTimes(s, actions); var n := |times| - 1;
      HasTime(a) && a.now >= times[n] + Min(1000 * PowerOfTwo(n), 60000)
  {
    hide *;
    StepWaits(s', a);
    WaitBehindFailures(s, actions, s');
  }

  lemma WaitBehindFailures(s: State, actions: seq<Action>, s': State)
    requires s.m.backoffMs == 0 && Runs(s, actions, s') && NoResets(s, actions) && FailureTimes(s, actions) != []
    ensures var times := FailureTimes(s, actions); var n := |times| - 1;
      s'.m.nextAttemptAt == times[n] + Min(1000 * PowerOfTwo(n), 60000)
  {
    hide Step, Enabled, Fails, Resets, FailureTimes, Runs, NoResets, Failing, PowerOfTwo, Min;
    var times := FailureTimes(s, actions);
    NoFailure(s.m);
    RunFails(s, actions, s', s.m, []);
    assert [] + times == times;
    BackoffDoubles(s.m, times);
  }

  lemma NoFailure(m: Memory)
    ensures SameWait(Failing(m, []), m)
  {
  }
}
