/**
 Exactly when a linked mirror at rest delivers: when no staged entry is forgotten. Such an entry is neither pending nor
 settled, and its being staged keeps every later flush from sending it. A relink that cannot read the refusals can bring
 that about.
 */
module MirrorRelink {
  import opened Wrappers
  import opened Seqs
  import opened MirrorMemory
  import opened SingleFlight
  import opened MirrorProtocol
  import opened MirrorInvariants
  import opened MirrorSafety
  import opened MirrorRefusals
  import opened MirrorDurability
  import opened MirrorDelivery

  // ---------------------------------------------------------------------------------------------
  // A forgotten entry stays forgotten
  // ---------------------------------------------------------------------------------------------

  /** A calm run, one action longer in front. */
  lemma CalmOne(s: State, a: Action, next: State, rest: seq<Action>, s': State)
    requires Enabled(s, a) && Calm(s, a) && Step(s, a) == next && Runs(next, rest, s') && AllCalm(next, rest)
    ensures Runs(s, [a] + rest, s') && AllCalm(s, [a] + rest)
  {
    assert ([a] + rest)[1..] == rest;
  }

  lemma CalmNone(s: State)
    ensures Runs(s, [], s) && AllCalm(s, [])
  {
  }

  /** Linked with the outbox in memory, where `id` is neither pending nor settled. */
  predicate Stuck(m: Memory, c: string, id: string) {
    m.conversation == Some(c) && m.linked && m.outboxConversation == Some(c) && !AccountedFor(m, id)
  }

  /** One delivery is running and nothing else is to come. */
  predicate Alone(s: State, c: string, id: string) {
    && Stuck(s.m, c, id) && s.staged == []
    && s.flight == Flight(true, false, Some(Request(Some(c), s.m.generation)))
  }

  predicate AboutToClear(s: State, c: string, id: string) {
    && Alone(s, c, id) && s.m.pending == []
    && s.ops == [Operation(c, s.m.generation, Clear, Waiting)] && s.delivery.Clearing?
  }

  ghost predicate AboutToSend(s: State, c: string, id: string) {
    && Alone(s, c, id) && s.ops == []
    && s.delivery.Sending? && s.delivery.conversation == c && s.delivery.generation == s.m.generation
    && s.delivery.chunks != [] && id !in Ids(Flat(s.delivery.chunks))
    && forall x :: x in s.m.pending ==> x in Ids(Flat(s.delivery.chunks))
  }

  /** Nothing is pending, so the clearing removes the file. */
  lemma ClearSteps(s: State, c: string, id: string) returns (s1: State, s2: State)
    requires AboutToClear(s, c, id)
    ensures Enabled(s, StartOperation) && s1 == Step(s, StartOperation)
    ensures Enabled(s1, RemoveOutbox(true, true)) && s2 == Step(s1, RemoveOutbox(true, true))
    ensures Alone(s2, c, id) && s2.ops == [] && s2.delivery == Cleared(c, s2.m.generation, s.delivery.sent, true)
  {
    s1 := s.(m := Counted(s.m), ops := [Operation(c, s.m.generation, Clear, Removing)]);
    assert Step(s, StartOperation) == s1;
    s2 := Step(s1, RemoveOutbox(true, true));
    assert s2.m == OutboxRemoved(s1.m, c);
  }

  lemma EndSteps(s: State, c: string, id: string, sent: bool) returns (s1: State, s2: State)
    requires Alone(s, c, id) && s.ops == [] && s.delivery == Cleared(c, s.m.generation, sent, true)
    ensures Enabled(s, AfterClear) && s1 == Step(s, AfterClear)
    ensures Enabled(s1, EndRun(0)) && Calm(s1, EndRun(0)) && s2 == Step(s1, EndRun(0))
    ensures AtRest(s2) && !AccountedFor(s2.m, id)
  {
    s1 := s.(m := BackoffCleared(if sent then Counted(s.m) else s.m), delivery := Done(true));
    assert Step(s, AfterClear) == s1;
    s2 := s1.(flight := s.flight.(running := false), delivery := Idle);
    assert Step(s1, EndRun(0)) == s2;
  }

  lemma ClearToRest(s: State, c: string, id: string) returns (rest: seq<Action>, s': State)
    requires AboutToClear(s, c, id)
    ensures Runs(s, rest, s') && AllCalm(s, rest) && AtRest(s') && !AccountedFor(s'.m, id)
  {
    var s1, s2 := ClearSteps(s, c, id);
    var s3: State;
    s3, s' := EndSteps(s2, c, id, s.delivery.sent);
    hide Step, Enabled, Runs, AllCalm;
    CalmNone(s');
    CalmOne(s3, EndRun(0), s', [], s');
    CalmOne(s2, AfterClear, s3, [EndRun(0)] + [], s');
    CalmOne(s1, RemoveOutbox(true, true), s2, [AfterClear] + ([EndRun(0)] + []), s');
    rest := [StartOperation] + ([RemoveOutbox(true, true)] + ([AfterClear] + ([EndRun(0)] + [])));
    CalmOne(s, StartOperation, s1, [RemoveOutbox(true, true)] + ([AfterClear] + ([EndRun(0)] + [])), s');
  }

  lemma HasMember(ids: seq<string>)
    requires ids != []
    ensures exists id :: id in ids
  {
    assert ids[0] in ids;
  }

  /** The server accepts a chunk. */
  lemma SendOne(s: State, c: string, id: string) returns (s1: State, s2: State)
    requires AboutToSend(s, c, id)
    ensures var a := ServerStores(c, Ids(s.delivery.chunks[0]));
      Enabled(s, a) && Calm(s, a) && s1 == Step(s, a)
    ensures Enabled(s1, AppendAccepted) && Calm(s1, AppendAccepted) && s2 == Step(s1, AppendAccepted)
    ensures if s.delivery.chunks[1..] == [] then AboutToClear(s2, c, id)
            else AboutToSend(s2, c, id) && s2.delivery.chunks == s.delivery.chunks[1..]
  {
    var chunks := s.delivery.chunks;
    FlatFirst(chunks);
    assert Ids(Flat(chunks)) == Ids(chunks[0]) + Ids(Flat(chunks[1..]));
    AcceptedCovers(s.m, chunks, Ids(chunks[0]));
    s1 := Step(s, ServerStores(c, Ids(chunks[0])));
    assert s1 == s.(w := s1.w) && Ids(chunks[0]) <= ServerOf(s1.w, c);
    s2 := Step(s1, AppendAccepted);
    assert s2 == NextChunk(s1.(m := Acknowledged(s.m, chunks[0])), c, s.m.generation, chunks[1..], s.delivery.refused);
    if chunks[1..] == [] {
      assert Ids(Flat(chunks[1..])) == {};
      if s2.m.pending != [] {
        HasMember(s2.m.pending);
      }
    }
  }

  lemma {:induction false} SendToRest(s: State, c: string, id: string) returns (rest: seq<Action>, s': State)
    requires AboutToSend(s, c, id)
    ensures Runs(s, rest, s') && AllCalm(s, rest) && AtRest(s') && !AccountedFor(s'.m, id)
    decreases |s.delivery.chunks|
  {
    var chunks := s.delivery.chunks;
    var s1, s2 := SendOne(s, c, id);
    var more: seq<Action>;
    if chunks[1..] == [] {
      more, s' := ClearToRest(s2, c, id);
    } else {
      more, s' := SendToRest(s2, c, id);
    }
    hide Step, Enabled, Calm, Runs, AllCalm;
    CalmOne(s1, AppendAccepted, s2, more, s');
    rest := [ServerStores(c, Ids(chunks[0]))] + ([AppendAccepted] + more);
    CalmOne(s, ServerStores(c, Ids(chunks[0])), s1, [AppendAccepted] + more, s');
  }

  /** The flush of a forgotten entry finds nothing to stage. */
  lemma FlushOfForgotten(s: State, c: string, e: SessionEntry) returns (s1: State, s2: State, s3: State)
    requires Safe(s) && AtRest(s) && Stuck(s.m, c, e.id) && e.id in s.m.outboxEntries
    ensures s1 == Step(s, CallFlush([e], 0)) && Enabled(s1, StartOperation)
    ensures s2 == Step(s1, StartOperation) && Enabled(s2, AppendOutbox(0, true))
    ensures s3 == Step(s2, AppendOutbox(0, true)) && Safe(s3)
    ensures Stuck(s3.m, c, e.id) && s3.m.generation == s.m.generation && s3.ops == [] && s3.staged == [Request(Some(c), s.m.generation)]
    ensures s3.flight == s.flight && s3.delivery == s.delivery
  {
    s1 := Step(s, CallFlush([e], 0));
    assert s1 == s.(ops := [Operation(c, s.m.generation, Stage([e]), Waiting)]);
    s2 := Step(s1, StartOperation);
    assert [e][..0] == [];
    assert Missing(s.m, [e]) == [];
    assert s2.ops == [Operation(c, s.m.generation, Stage([e]), Appending([]))] && s2 == s1.(m := s2.m, ops := s2.ops);
    s3 := Step(s2, AppendOutbox(0, true));
    assert s3.m == Counted(s2.m);
    StepKeepsSafe(s, CallFlush([e], 0));
    StepKeepsSafe(s1, StartOperation);
    StepKeepsSafe(s2, AppendOutbox(0, true));
  }

  /** The delivery that follows sends what is pending, which the entry is not. */
  lemma DeliveryPasses(s: State, c: string, id: string, now: int)
    requires Safe(s) && Stuck(s.m, c, id) && s.ops == [] && s.staged == [Request(Some(c), s.m.generation)]
    requires !s.flight.running && s.delivery.Idle? && s.m.nextAttemptAt <= now
    ensures Enabled(s, FlushDelivers(now)) && Calm(s, FlushDelivers(now))
    ensures var s' := Step(s, FlushDelivers(now)); AboutToClear(s', c, id) || AboutToSend(s', c, id)
  {
    var outstanding := Outstanding(s.m.pending, s.m.outboxEntries);
    assert WriteAhead(s.m, s.w) && MemoryOk(s.m);
    OutstandingIds(s.m.pending, s.m.outboxEntries);
    BatchesCover(outstanding, MAX_ENTRIES_PER_BATCH);
    var flight := Flight(true, false, Some(s.staged[0]));
    assert s.staged[1..] == [];
    var s' := Step(s, FlushDelivers(now));
    assert s' == Dispatch(s.(staged := [], flight := flight), c, s.m.generation, now);
  }

  lemma ForgottenIsNotSettled(s: State, id: string) returns (rest: seq<Action>, s': State)
    requires Reachable(s) && s.m.linked && AtRest(s) && id in s.m.outboxEntries && !AccountedFor(s.m, id)
    ensures CalmFlush(s, [SessionEntry(id, "", 0)], 0, rest, s') && !AccountedFor(s'.m, id)
  {
    ReachableInvariants(s);
    assert MemoryOk(s.m) && s.delivery.Idle?;
    assert s.m.outboxConversation.Some? && s.m.conversation.Some?;
    var c, e, now := s.m.conversation.value, SessionEntry(id, "", 0), s.m.nextAttemptAt;
    var s1, s2, s3 := FlushOfForgotten(s, c, e);
    now := if now < s3.m.nextAttemptAt then s3.m.nextAttemptAt else now;
    DeliveryPasses(s3, c, id, now);
    var s4 := Step(s3, FlushDelivers(now));
    var more: seq<Action>;
    if AboutToClear(s4, c, id) {
      more, s' := ClearToRest(s4, c, id);
    } else {
      more, s' := SendToRest(s4, c, id);
    }
    hide Step, Enabled, Runs, AllCalm, Safe, Reachable, Prepared, Orderly;
    CalmOne(s3, FlushDelivers(now), s4, more, s');
    CalmOne(s2, AppendOutbox(0, true), s3, [FlushDelivers(now)] + more, s');
    rest := [StartOperation] + ([AppendOutbox(0, true)] + ([FlushDelivers(now)] + more));
    CalmOne(s1, StartOperation, s2, [AppendOutbox(0, true)] + ([FlushDelivers(now)] + more), s');
  }

  /** Whatever is flushed, and whatever calm stretch follows to rest: everything handed in is settled and nothing is pending. */
  ghost predicate Delivers(s: State) {
    forall entries, now, rest, s' :: CalmFlush(s, entries, now, rest, s') ==>
      s'.m.pending == [] && forall id :: id in EntryIds(entries) + Flushed(rest) ==> SettledIn(s'.m, id)
  }

  /** Main result: a linked mirror at rest delivers if and only if it has not forgotten a staged entry. */
  lemma DeliversExactly(s: State)
    requires Reachable(s) && s.m.linked && AtRest(s)
    ensures Delivers(s) <==> Accounted(s.m)
  {
    hide Reachable, CalmFlush, AtRest, Flushed;
    if Accounted(s.m) {
      forall entries, now, rest, s' | CalmFlush(s, entries, now, rest, s')
        ensures s'.m.pending == [] && forall id :: id in EntryIds(entries) + Flushed(rest) ==> SettledIn(s'.m, id)
      {
        DeliveredAtQuiescence(s, entries, now, rest, s');
      }
    } else {
      var id :| id in s.m.outboxEntries && !AccountedFor(s.m, id);
      var rest, s' := ForgottenIsNotSettled(s, id);
      var e := SessionEntry(id, "", 0);
      assert e in [e] && id in EntryIds([e]) + Flushed(rest);
      assert CalmFlush(s, [e], 0, rest, s') && !SettledIn(s'.m, id);
    }
  }

  // ---------------------------------------------------------------------------------------------
  // How an entry comes to be forgotten
  // ---------------------------------------------------------------------------------------------

  const X := SessionEntry("x", "", 0)
  const W := World(map[C := [Staged(X)]], map[C := {"x"}], map[], map[C := {"x"}], map[])

  const LINKS: map<nat, Link> := map[1 := Link(C, Returned, {})]

  /** Linked, with `x` known as refused. */
  const LINKED_ONCE := Start(W).(m := FRESH.(conversation := Some(C), linked := true, generation := 1, rejected := {"x"}), links := LINKS)

  /** The outbox is in memory. */
  const READ_IN := LINKED_ONCE.(
    m := LINKED_ONCE.m.(outboxConversation := Some(C), outboxEntries := map["x" := Staged(X)]),
    staged := [Request(Some(C), 1)])

  /** Linked again; the refusals could not be read. */
  const LINKED_AGAIN := READ_IN.(m := READ_IN.m.(generation := 2, rejected := {}), links := LINKS[2 := Link(C, Returned, {})])

  lemma FirstLink()
    ensures Runs(Start(W), [CallLink(C)] + [ListPage(1, {}, false)] + [ReadRejected(1, {"x"})], LINKED_ONCE)
  {
    var s1 := Step(Start(W), CallLink(C));
    assert s1 == Start(W).(m := FRESH.(conversation := Some(C), generation := 1), links := map[1 := Link(C, Listing({}), {})]);
    var s2 := Step(s1, ListPage(1, {}, false));
    var none: set<string> := {};
    assert none + none == none;
    assert s2 == s1.(links := map[1 := Link(C, ReadingRejected({}), {})]);
    assert Step(s2, ReadRejected(1, {"x"})) == LINKED_ONCE;
    RunOne(Start(W), CallLink(C), s1);
    RunOne(s1, ListPage(1, {}, false), s2);
    RunOne(s2, ReadRejected(1, {"x"}), LINKED_ONCE);
    RunsAppend(Start(W), [CallLink(C)], s1, [ListPage(1, {}, false)], s2);
    RunsAppend(Start(W), [CallLink(C)] + [ListPage(1, {}, false)], s2, [ReadRejected(1, {"x"})], LINKED_ONCE);
  }

  const STAGING_NONE := LINKED_ONCE.(ops := [Operation(C, 1, Stage([]), Reading)])

  const STAGED_NONE := LINKED_ONCE.(
    m := LINKED_ONCE.m.(outboxConversation := Some(C), outboxEntries := map["x" := Staged(X)]),
    ops := [Operation(C, 1, Stage([]), Appending([]))])

  lemma StageNone()
    ensures Runs(LINKED_ONCE, [CallFlush([], 0)] + [StartOperation], STAGING_NONE)
  {
    var s1 := LINKED_ONCE.(ops := [Operation(C, 1, Stage([]), Waiting)]);
    RunOne(LINKED_ONCE, CallFlush([], 0), s1);
    RunOne(s1, StartOperation, STAGING_NONE);
    hide Step, Enabled, Runs;
    RunsAppend(LINKED_ONCE, [CallFlush([], 0)], s1, [StartOperation], STAGING_NONE);
  }

  lemma FillIn()
    ensures Runs(STAGING_NONE, [ReadOutbox(true)] + [AppendOutbox(0, true)], READ_IN)
  {
    LoadOne(LINKED_ONCE.m);
    RunOne(STAGING_NONE, ReadOutbox(true), STAGED_NONE);
    RunOne(STAGED_NONE, AppendOutbox(0, true), READ_IN);
    hide Step, Enabled, Runs;
    RunsAppend(STAGING_NONE, [ReadOutbox(true)], STAGED_NONE, [AppendOutbox(0, true)], READ_IN);
  }

  lemma ReadOutboxIn()
    ensures Runs(LINKED_ONCE, ([CallFlush([], 0)] + [StartOperation]) + ([ReadOutbox(true)] + [AppendOutbox(0, true)]), READ_IN)
  {
    hide Runs;
    StageNone();
    FillIn();
    RunsAppend(LINKED_ONCE, [CallFlush([], 0)] + [StartOperation], STAGING_NONE, [ReadOutbox(true)] + [AppendOutbox(0, true)], READ_IN);
  }

  lemma LoadOne(m: Memory)
    requires m.rejected == {"x"} && m.outboxEntries == map[] && m.pending == [] && m.truncated == {}
    ensures OutboxLoaded(m, C, [Staged(X)]) == m.(outboxConversation := Some(C), outboxEntries := map["x" := Staged(X)])
    ensures Selected(OutboxLoaded(m, C, [Staged(X)]), []) == OutboxLoaded(m, C, [Staged(X)])
  {
    assert [Staged(X)][..0] == [];
    assert LoadedAll(m, []) == m;
  }

  lemma SecondLink()
    ensures Runs(READ_IN, [CallLink(C)] + [ListPage(2, {}, false)] + [ReadRejected(2, {})], LINKED_AGAIN)
  {
    var s1 := READ_IN.(m := READ_IN.m.(generation := 2, linked := false), links := LINKS[2 := Link(C, Listing({}), {})]);
    assert Step(READ_IN, CallLink(C)) == s1;
    var none: set<string> := {};
    assert none + none == none;
    var s2 := s1.(links := LINKS[2 := Link(C, ReadingRejected({}), {})]);
    assert Step(s1, ListPage(2, {}, false)).links == s2.links;
    assert Step(s1, ListPage(2, {}, false)) == s2;
    assert s2.links[2 := Link(C, Returned, {})] == LINKED_AGAIN.links;
    assert Step(s2, ReadRejected(2, {})) == LINKED_AGAIN;
    RunOne(READ_IN, CallLink(C), s1);
    RunOne(s1, ListPage(2, {}, false), s2);
    RunOne(s2, ReadRejected(2, {}), LINKED_AGAIN);
    hide Step, Enabled, Runs;
    RunsAppend(READ_IN, [CallLink(C)], s1, [ListPage(2, {}, false)], s2);
    RunsAppend(READ_IN, [CallLink(C)] + [ListPage(2, {}, false)], s2, [ReadRejected(2, {})], LINKED_AGAIN);
  }

  const TO_LINKED_AGAIN: seq<Action> :=
    ([CallLink(C)] + [ListPage(1, {}, false)] + [ReadRejected(1, {"x"})])
    + (([CallFlush([], 0)] + [StartOperation]) + ([ReadOutbox(true)] + [AppendOutbox(0, true)]))
    + ([CallLink(C)] + [ListPage(2, {}, false)] + [ReadRejected(2, {})])

  lemma LinkedAgainRuns()
    ensures Runs(Start(W), TO_LINKED_AGAIN, LINKED_AGAIN)
  {
    FirstLink();
    ReadOutboxIn();
    SecondLink();
    hide Step, Enabled, Runs;
    var first := [CallLink(C)] + [ListPage(1, {}, false)] + [ReadRejected(1, {"x"})];
    var second := ([CallFlush([], 0)] + [StartOperation]) + ([ReadOutbox(true)] + [AppendOutbox(0, true)]);
    var third := [CallLink(C)] + [ListPage(2, {}, false)] + [ReadRejected(2, {})];
    RunsAppend(Start(W), first, LINKED_ONCE, second, READ_IN);
    RunsAppend(Start(W), first + second, READ_IN, third, LINKED_AGAIN);
  }

  /** At rest again, after the delivery of the first flush found that it is stale. */
  const FORGETFUL := LINKED_AGAIN.(staged := [], flight := Flight(false, false, Some(Request(Some(C), 1))))

  lemma StalePasses()
    ensures Runs(LINKED_AGAIN, [FlushDelivers(0)] + [EndRun(0)], FORGETFUL)
  {
    var s1 := FORGETFUL.(flight := Flight(true, false, Some(Request(Some(C), 1))), delivery := Done(true));
    assert LINKED_AGAIN.staged[1..] == [];
    RunOne(LINKED_AGAIN, FlushDelivers(0), s1);
    RunOne(s1, EndRun(0), FORGETFUL);
    hide Step, Enabled, Runs;
    RunsAppend(LINKED_AGAIN, [FlushDelivers(0)], s1, [EndRun(0)], FORGETFUL);
  }

  /** The condition can fail: a relink that cannot read the refusals leaves a linked mirror at rest that does not deliver. */
  lemma RelinkForgets()
    ensures Reachable(FORGETFUL) && FORGETFUL.m.linked && AtRest(FORGETFUL) && !Delivers(FORGETFUL)
  {
    hide Delivers, Runs;
    LinkedAgainRuns();
    StalePasses();
    RunsAppend(Start(W), TO_LINKED_AGAIN, LINKED_AGAIN, [FlushDelivers(0)] + [EndRun(0)], FORGETFUL);
    assert HonestFiles(W);
    assert "x" in FORGETFUL.m.outboxEntries && !AccountedFor(FORGETFUL.m, "x");
    assert !Accounted(FORGETFUL.m);
    DeliversExactly(FORGETFUL);
  }
}
