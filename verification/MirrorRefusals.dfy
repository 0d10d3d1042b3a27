/**
 Refusals are real: what the mirror takes for refused, in memory, in a delivery or in a file, the server has refused.
 What the server stored or refused once stays so.
 */
module MirrorRefusals {
  import opened Wrappers
  import opened MirrorMemory
  import opened SingleFlight
  import opened MirrorProtocol
  import opened MirrorInvariants
  import opened MirrorSafety

  // ---------------------------------------------------------------------------------------------
  // The server does not take back what it stored or refused
  // ---------------------------------------------------------------------------------------------

  ghost predicate ServerGrew(w: World, w': World) {
    forall c: string :: ServerOf(w, c) <= ServerOf(w', c) && RefusedOf(w, c) <= RefusedOf(w', c)
  }

  /** What the server stores and what it has refused is the same in both. */
  predicate SameServer(w: World, w': World) {
    w'.server == w.server && w'.refused == w.refused
  }

  lemma AppendSparesServer(s: State, written: nat, ok: bool)
    requires Enabled(s, AppendOutbox(written, ok))
    ensures SameServer(s.w, Step(s, AppendOutbox(written, ok)).w)
  {
    hide OutboxOf, StageCommitted;
  }

  lemma RemoveSparesServer(s: State, gone: bool, ok: bool)
    requires Enabled(s, RemoveOutbox(gone, ok))
    ensures SameServer(s.w, Step(s, RemoveOutbox(gone, ok)).w)
  {
  }

  lemma RewriteSparesServer(s: State, onDisk: set<string>, ok: bool)
    requires Enabled(s, RejectedWritten(onDisk, ok))
    ensures SameServer(s.w, Step(s, RejectedWritten(onDisk, ok)).w)
  {
  }

  lemma CrashSparesServer(s: State, written: nat, removed: bool, onDisk: set<string>)
    requires Enabled(s, Crash(written, removed, onDisk))
    ensures SameServer(s.w, Step(s, Crash(written, removed, onDisk)).w)
  {
    CrashedWorldSpares(s, written, removed, onDisk);
    hide CrashedWorld, SameServer;
  }

  lemma CrashedWorldSpares(s: State, written: nat, removed: bool, onDisk: set<string>)
    requires Enabled(s, Crash(written, removed, onDisk))
    ensures SameServer(s.w, CrashedWorld(s, written, removed, onDisk))
  {
    hide OutboxOf, LateOf, RejectedOf, Ids, Torn, ServerOf, Sent;
  }

  lemma FailureSparesServer(s: State, now: int)
    requires Enabled(s, AppendFailed(now))
    ensures SameServer(s.w, Step(s, AppendFailed(now)).w)
  {
  }

  lemma LinksSpareWorld(s: State, a: Action)
    requires Enabled(s, a) && (a.CallLink? || a.CallUnlink? || a.ListPage? || a.ListFail? || a.ReadRejected?)
    ensures Step(s, a).w == s.w
  {
  }

  lemma ReadingSparesWorld(s: State, a: Action)
    requires Enabled(s, a) && (a.StartOperation? || a.ReadOutbox?)
    ensures Step(s, a).w == s.w
  {
  }

  lemma AnswersSpareWorld(s: State, a: Action)
    requires Enabled(s, a) && (a.AfterLink? || a.AppendAccepted? || a.AfterClear?)
    ensures Step(s, a).w == s.w
  {
  }

  lemma LaunchSparesWorld(s: State, a: Action)
    requires Enabled(s, a) && (a.CallFlush? || a.FlushDelivers? || a.EndRun?)
    ensures Step(s, a).w == s.w
  {
    hide Launch;
    if a.CallFlush? {
      LaunchMovesNothing(s, AfterCall(s.flight, Request(None, s.m.generation)), a.now);
    } else if a.FlushDelivers? {
      LaunchMovesNothing(s.(staged := s.staged[1..]), AfterCall(s.flight, s.staged[0]), a.now);
    } else {
      LaunchMovesNothing(s.(delivery := Idle), AfterSettle(s.flight, s.delivery.ok), a.now);
    }
  }

  lemma ServerGrows(s: State, a: Action)
    requires Enabled(s, a)
    ensures ServerGrew(s.w, Step(s, a).w)
  {
    hide Enabled, Step;
    if a.CallFlush? || a.FlushDelivers? || a.EndRun? {
      LaunchSparesWorld(s, a);
    } else if a.AppendOutbox? {
      AppendSparesServer(s, a.written, a.ok);
    } else if a.RemoveOutbox? {
      RemoveSparesServer(s, a.gone, a.ok);
    } else if a.RejectedWritten? {
      RewriteSparesServer(s, a.onDisk, a.ok);
    } else if a.AppendFailed? {
      FailureSparesServer(s, a.now);
    } else if a.Crash? {
      CrashSparesServer(s, a.written, a.removed, a.onDisk);
    } else if a.CallLink? || a.CallUnlink? || a.ListPage? || a.ListFail? || a.ReadRejected? {
      LinksSpareWorld(s, a);
    } else if a.StartOperation? || a.ReadOutbox? {
      ReadingSparesWorld(s, a);
    } else if a.ServerStores? || a.AppendRefused? {
      ServerMoves(s, a);
    } else {
      AnswersSpareWorld(s, a);
    }
  }

  lemma ServerMoves(s: State, a: Action)
    requires Enabled(s, a) && (a.ServerStores? || a.AppendRefused?)
    ensures ServerGrew(s.w, Step(s, a).w)
  {
  }

  // ---------------------------------------------------------------------------------------------
  // Honest states
  // ---------------------------------------------------------------------------------------------

  /** The refusal files hold nothing that the server has not refused. */
  ghost predicate HonestFiles(w: World) {
    forall c :: c in w.rejected ==> w.rejected[c] <= RefusedOf(w, c)
  }

  predicate HonestMemory(m: Memory, w: World) {
    m.rejected != {} ==> m.conversation.Some? && m.rejected <= RefusedOf(w, m.conversation.value)
  }

  predicate HonestDelivery(d: Delivery, w: World) {
    d.Sending? || d.WritingRejected? ==> d.refused <= RefusedOf(w, d.conversation)
  }

  ghost predicate Honest(s: State) {
    HonestFiles(s.w) && HonestMemory(s.m, s.w) && HonestDelivery(s.delivery, s.w)
  }

  lemma {:induction false} LoadedSparesRest(m: Memory, outbox: seq<Entry>)
    ensures var r := LoadedAll(m, outbox); r == m.(outboxEntries := r.outboxEntries, pending := r.pending)
  {
    if outbox != [] {
      LoadedSparesRest(m, outbox[..|outbox| - 1]);
    }
  }

  lemma {:induction false} CommittedSparesRest(m: Memory, missing: seq<Entry>)
    ensures var r := CommittedAll(m, missing); r == m.(outboxEntries := r.outboxEntries, pending := r.pending)
  {
    if missing != [] {
      CommittedSparesRest(m, missing[..|missing| - 1]);
    }
  }

  lemma LaunchHonest(s: State, reply: Reply<Request>, now: int)
    requires Honest(s)
    ensures Honest(Launch(s, reply, now))
  {
  }

  lemma CallsHonest(s: State, a: Action)
    requires Honest(s) && Enabled(s, a)
    requires a.CallLink? || a.CallUnlink? || a.CallFlush? || a.FlushDelivers? || a.EndRun?
    ensures Honest(Step(s, a))
  {
    hide Launch;
    if a.CallFlush? {
      LaunchHonest(s, AfterCall(s.flight, Request(None, s.m.generation)), a.now);
    } else if a.FlushDelivers? {
      LaunchHonest(s.(staged := s.staged[1..]), AfterCall(s.flight, s.staged[0]), a.now);
    } else if a.EndRun? {
      LaunchHonest(s.(delivery := Idle), AfterSettle(s.flight, s.delivery.ok), a.now);
    }
  }

  /** Refusals, the files of refusals and what a delivery holds for refused are left alone. */
  predicate RefusalsSpared(s: State, s': State) {
    && s'.m.rejected == s.m.rejected && s'.m.conversation == s.m.conversation
    && s'.w.rejected == s.w.rejected && s'.w.refused == s.w.refused
    && (s'.delivery == s.delivery || !(s'.delivery.Sending? || s'.delivery.WritingRejected?))
  }

  lemma SparedStaysHonest(s: State, s': State)
    requires Honest(s) && RefusalsSpared(s, s')
    ensures Honest(s')
  {
  }

  lemma AppendSpares(s: State, written: nat, ok: bool)
    requires Enabled(s, AppendOutbox(written, ok))
    ensures RefusalsSpared(s, Step(s, AppendOutbox(written, ok)))
  {
    var missing := s.ops[0].phase.missing;
    CommittedSparesRest(s.m, missing);
    hide CommittedAll, OutboxOf, FinishOperation;
    var s1 := if missing == [] then s else s.(w := Appended(s.w, s.ops[0].conversation, missing[..written]));
    FinishSpares(if ok && HeadIsCurrent(s) then s1.(m := StageCommitted(s.m, missing)) else s1, ok);
  }

  lemma ReadSpares(s: State, a: Action)
    requires Enabled(s, a) && a.ReadOutbox?
    ensures RefusalsSpared(s, Step(s, a))
  {
    LoadedSparesRest(s.m.(outboxEntries := map[]), if a.readable then OutboxOf(s.w, s.ops[0].conversation) else []);
  }

  lemma StartSpares(s: State)
    requires Enabled(s, StartOperation)
    ensures RefusalsSpared(s, Step(s, StartOperation))
  {
    FinishSpares(if HeadIsCurrent(s) then s.(m := Counted(s.m)) else s, true);
    hide FinishOperation, Missing;
  }

  lemma RemoveSpares(s: State, gone: bool, ok: bool)
    requires Enabled(s, RemoveOutbox(gone, ok))
    ensures RefusalsSpared(s, Step(s, RemoveOutbox(gone, ok)))
  {
    var c := s.ops[0].conversation;
    var s1 := if gone then s.(w := s.w.(outbox := s.w.outbox - {c})) else s;
    FinishSpares(if ok then s1.(m := OutboxRemoved(s.m, c)) else s1, ok);
    hide FinishOperation;
  }

  lemma OperationsHonest(s: State, a: Action)
    requires Honest(s) && Enabled(s, a) && (a.StartOperation? || a.ReadOutbox? || a.AppendOutbox? || a.RemoveOutbox?)
    ensures Honest(Step(s, a))
  {
    hide Honest, Enabled, Step;
    if a.ReadOutbox? {
      ReadSpares(s, a);
    } else if a.AppendOutbox? {
      AppendSpares(s, a.written, a.ok);
    } else if a.StartOperation? {
      StartSpares(s);
    } else {
      RemoveSpares(s, a.gone, a.ok);
    }
    SparedStaysHonest(s, Step(s, a));
  }

  lemma AcceptedHonest(s: State, a: Action)
    requires Honest(s) && Enabled(s, a) && (a.AfterLink? || a.AppendAccepted?)
    ensures Honest(Step(s, a))
  {
    AnswersSpareWorld(s, a);
  }

  lemma DeliveryHonest(s: State, a: Action)
    requires Honest(s) && Enabled(s, a)
    requires a.ServerStores? || a.AppendRefused? || a.AppendFailed? || a.AfterClear?
    ensures Honest(Step(s, a))
  {
  }

  lemma LinksHonest(s: State, a: Action)
    requires Honest(s) && Enabled(s, a) && (a.ListPage? || a.ListFail? || a.ReadRejected?)
    ensures Honest(Step(s, a))
  {
  }

  lemma RewriteHonest(s: State, onDisk: set<string>, ok: bool)
    requires Honest(s) && Enabled(s, RejectedWritten(onDisk, ok))
    ensures Honest(Step(s, RejectedWritten(onDisk, ok)))
  {
    var d := s.delivery;
    var s1 := s.(w := s.w.(rejected := s.w.rejected[d.conversation := onDisk]));
    assert Honest(s1);
    RewriteSparesServer(s, onDisk, ok);
    assert Step(s, RejectedWritten(onDisk, ok)).w == s1.w;
  }

  lemma CrashHonest(s: State, written: nat, removed: bool, onDisk: set<string>)
    requires Honest(s) && Enabled(s, Crash(written, removed, onDisk))
    ensures Honest(Step(s, Crash(written, removed, onDisk)))
  {
    CrashSparesServer(s, written, removed, onDisk);
    assert HonestFiles(CrashedWorld(s, written, removed, onDisk));
  }

  /** Every step keeps refusals real, however late a write of an older delivery lands and however it is torn. */
  lemma StepKeepsHonest(s: State, a: Action)
    requires Honest(s) && Enabled(s, a)
    ensures Honest(Step(s, a))
  {
    hide Honest, Enabled, Step;
    if a.CallLink? || a.CallUnlink? || a.CallFlush? || a.FlushDelivers? || a.EndRun? {
      CallsHonest(s, a);
    } else if a.StartOperation? || a.ReadOutbox? || a.AppendOutbox? || a.RemoveOutbox? {
      OperationsHonest(s, a);
    } else if a.ListPage? || a.ListFail? || a.ReadRejected? {
      LinksHonest(s, a);
    } else if a.RejectedWritten? {
      RewriteHonest(s, a.onDisk, a.ok);
    } else if a.Crash? {
      CrashHonest(s, a.written, a.removed, a.onDisk);
    } else if a.AfterLink? || a.AppendAccepted? {
      AcceptedHonest(s, a);
    } else {
      DeliveryHonest(s, a);
    }
  }

  lemma StartIsHonest(w: World)
    requires HonestFiles(w)
    ensures Honest(Start(w))
  {
  }

  /** Main result: in every run, what the mirror holds for refused was refused by the server for that conversation. */
  lemma {:induction false} EveryRunIsHonest(s: State, actions: seq<Action>, s': State)
    requires Honest(s) && Runs(s, actions, s')
    ensures Honest(s') && ServerGrew(s.w, s'.w)
    decreases |actions|
  {
    hide Honest, Enabled, Step;
    if actions != [] {
      StepKeepsHonest(s, actions[0]);
      ServerGrows(s, actions[0]);
      EveryRunIsHonest(Step(s, actions[0]), actions[1..], s');
    }
  }
}
