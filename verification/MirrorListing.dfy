/**
 What a link learns from the server. A listing comes in pages, between which anything may happen; `LinkKnowsWhatWasListed`
 says of whole runs that a link which completes knows as acknowledged exactly the ids of all its pages.
 */
module MirrorListing {
  import opened Wrappers
  import opened MirrorMemory
  import opened MirrorProtocol
  import opened SingleFlight

  /** The ids on the pages that the run has brought for this link, since the last crash. */
  function PagesOf(actions: seq<Action>, link: nat): set<string> {
    if actions == [] then {}
    else PagesAnd(PagesOf(actions[..|actions| - 1], link), link, actions[|actions| - 1])
  }

  function PagesAnd(before: set<string>, link: nat, a: Action): set<string> {
    if a.Crash? then {}
    else if a.ListPage? && a.link == link then before + a.page
    else before
  }

  /** The link holds the ids of its pages for as long as it needs them. */
  ghost predicate Collected(s: State, link: nat, pages: set<string>) {
    && (forall l :: l in s.links ==> l <= s.m.generation)
    && (link !in s.links ==> pages == {})
    && (link in s.links && s.links[link].step.Listing? ==> s.links[link].step.ids == pages)
    && (link in s.links && s.links[link].step.ReadingRejected? ==> s.links[link].step.ids == pages)
  }

  /** The links stay as they are, or a new one begins. */
  ghost predicate LinksStay(s: State, s': State) {
    Stay(s.links, s.m.generation, s'.links, s'.m.generation)
  }

  ghost predicate Stay(links: map<nat, Link>, generation: nat, links': map<nat, Link>, generation': nat) {
    || (links' == links && generation <= generation')
    || (generation' == generation + 1 && exists c, had :: links' == links[generation' := Link(c, Listing({}), had)])
  }

  lemma StayingCollects(s: State, s': State, link: nat, pages: set<string>)
    requires Collected(s, link, pages) && LinksStay(s, s')
    ensures Collected(s', link, pages)
  {
  }

  // ---------------------------------------------------------------------------------------------
  // Steps
  // ---------------------------------------------------------------------------------------------

  lemma BeginStays(s: State, c: string)
    ensures LinksStay(s, BeginLink(s, c))
  {
    var s' := BeginLink(s, c);
    assert s'.links == s.links[s'.m.generation := Link(c, Listing({}), ServerOf(s.w, c))];
  }

  lemma DispatchStays(s: State, c: string, generation: nat, now: int)
    ensures var s' := Dispatch(s, c, generation, now); s'.links == s.links && s'.m.generation == s.m.generation
  {
    hide Outstanding, Batches;
  }

  lemma StartRunStays(s: State, request: Request, now: int)
    ensures LinksStay(s, StartRun(s, request, now))
  {
    hide Dispatch, BeginLink;
    if request.conversation.Some? {
      DispatchStays(s, request.conversation.value, request.generation, now);
      BeginStays(s.(m := Counted(s.m)), request.conversation.value);
    }
  }

  lemma LaunchStays(s: State, reply: Reply<Request>, now: int)
    ensures LinksStay(s, Launch(s, reply, now))
  {
    hide StartRun;
    if reply.start.Some? {
      StartRunStays(s.(flight := reply.flight), reply.start.value, now);
    }
  }

  lemma CallsStay(s: State, a: Action)
    requires Enabled(s, a) && (a.CallLink? || a.CallUnlink? || a.CallFlush? || a.FlushDelivers? || a.EndRun? || a.AfterLink?)
    ensures LinksStay(s, Step(s, a))
  {
    hide Launch, Dispatch, BeginLink;
    match a
    case CallLink(c) => BeginStays(s, c);
    case CallUnlink =>
    case CallFlush(_, now) => LaunchStays(s, AfterCall(s.flight, Request(None, s.m.generation)), now);
    case FlushDelivers(now) => LaunchStays(s.(staged := s.staged[1..]), AfterCall(s.flight, s.staged[0]), now);
    case EndRun(now) => LaunchStays(s.(delivery := Idle), AfterSettle(s.flight, s.delivery.ok), now);
    case AfterLink(now) => DispatchStays(s, s.delivery.conversation, s.delivery.generation, now);
  }

  lemma {:induction false} LoadedStays(m: Memory, outbox: seq<Entry>)
    ensures LoadedAll(m, outbox).generation == m.generation
    decreases |outbox|
  {
    if outbox != [] {
      LoadedStays(m, outbox[..|outbox| - 1]);
    }
  }

  lemma OperationsStay(s: State, a: Action)
    requires Enabled(s, a) && (a.StartOperation? || a.ReadOutbox? || a.AppendOutbox? || a.RemoveOutbox?)
    ensures LinksStay(s, Step(s, a))
  {
    hide LoadedAll, Missing, CommittedAll;
    if a.ReadOutbox? {
      LoadedStays(s.m.(outboxEntries := map[]), if a.readable then OutboxOf(s.w, s.ops[0].conversation) else []);
    } else if a.AppendOutbox? {
      CommittedExactly(s.m, s.ops[0].phase.missing);
    }
  }

  lemma DeliveryStays(s: State, a: Action)
    requires Enabled(s, a)
    requires a.ServerStores? || a.AppendAccepted? || a.AppendRefused? || a.AppendFailed? || a.RejectedWritten? || a.AfterClear?
    ensures LinksStay(s, Step(s, a))
  {
    hide Without;
  }

  lemma StepCollects(s: State, a: Action, link: nat, pages: set<string>)
    requires Enabled(s, a) && Collected(s, link, pages)
    ensures Collected(Step(s, a), link, PagesAnd(pages, link, a))
  {
    hide Enabled, Step, Collected, LinksStay;
    if a.ListPage? || a.ListFail? || a.ReadRejected? {
      LinkCollects(s, a, link, pages);
    } else if a.Crash? {
      CrashCollects(s, a, link);
    } else {
      if a.CallLink? || a.CallUnlink? || a.CallFlush? || a.FlushDelivers? || a.EndRun? || a.AfterLink? {
        CallsStay(s, a);
      } else if a.StartOperation? || a.ReadOutbox? || a.AppendOutbox? || a.RemoveOutbox? {
        OperationsStay(s, a);
      } else {
        DeliveryStays(s, a);
      }
      StayingCollects(s, Step(s, a), link, pages);
    }
  }

  lemma LinkCollects(s: State, a: Action, link: nat, pages: set<string>)
    requires Enabled(s, a) && Collected(s, link, pages) && (a.ListPage? || a.ListFail? || a.ReadRejected?)
    ensures Collected(Step(s, a), link, PagesAnd(pages, link, a))
  {
    hide Without;
  }

  lemma CrashCollects(s: State, a: Action, link: nat)
    requires Enabled(s, a) && a.Crash?
    ensures Collected(Step(s, a), link, {})
  {
    hide CrashedWorld;
  }

  // ---------------------------------------------------------------------------------------------
  // Runs
  // ---------------------------------------------------------------------------------------------

  lemma {:induction false} RunCollects(s: State, actions: seq<Action>, rest: seq<Action>, s': State, link: nat)
    requires Collected(s, link, PagesOf(actions, link)) && Runs(s, rest, s')
    ensures Collected(s', link, PagesOf(actions + rest, link))
    decreases |rest|
  {
    hide Collected, Step, Enabled;
    if rest == [] {
      assert actions + rest == actions;
    } else {
      var next := actions + [rest[0]];
      StepCollects(s, rest[0], link, PagesOf(actions, link));
      assert next[..|next| - 1] == actions;
      hide PagesOf, PagesAnd;
      RunCollects(Step(s, rest[0]), next, rest[1..], s', link);
      assert next + rest[1..] == actions + rest;
    }
  }

  /**
   Main result. In every run, when a link completes that is still the current one, the mirror knows as acknowledged exactly
   the ids of all pages of its listing, and as refused what was read.
   */
  lemma LinkKnowsWhatWasListed(w: World, actions: seq<Action>, s: State, link: nat, read: set<string>)
    requires Runs(Start(w), actions, s) && Enabled(s, ReadRejected(link, read))
    requires s.m.generation == link && s.m.conversation == Some(s.links[link].conversation)
    ensures var m := Step(s, ReadRejected(link, read)).m;
      m.linked && m.acknowledged == PagesOf(actions, link) && m.rejected == read
  {
    assert Collected(Start(w), link, PagesOf([], link));
    RunCollects(Start(w), [], actions, s, link);
    assert [] + actions == actions;
    hide Runs, PagesOf, Without;
  }
}
