/**
 When no staged entry is forgotten, told from outside: the listing of a link that is still current finds what the server
 had when it was asked for, such a link reads the refusals file as it is and not while a delivery to the same conversation
 is under way, and a write of refusals that fails leaves the file as it was. Then everything handed in is delivered, without a word about memory.
 */
module MirrorAccount {
  import opened Wrappers
  import opened MirrorMemory
  import opened SingleFlight
  import opened MirrorProtocol
  import opened MirrorInvariants
  import opened MirrorSafety
  import opened MirrorRefusals
  import opened MirrorDurability
  import opened MirrorDelivery

  // ---------------------------------------------------------------------------------------------
  // The condition
  // ---------------------------------------------------------------------------------------------

  predicate UnderWay(d: Delivery, conversation: string) {
    (d.Sending? || d.WritingRejected?) && d.conversation == conversation
  }

  /** The page that ends a listing completes what the server had when the listing began. */
  predicate ListsAll(s: State, link: nat, page: set<string>)
    requires Enabled(s, ListPage(link, page, false))
  {
    s.links[link].had <= s.links[link].step.ids + page
  }

  /** Of links that a later link or an unlink has overtaken nothing is asked. */
  predicate Faithful(s: State, a: Action)
    requires Enabled(s, a)
  {
    match a
    case ListPage(link, page, more) =>
      more || !IsCurrentLink(s.m, link, s.links[link].conversation) || ListsAll(s, link, page)
    case ReadRejected(link, read) =>
      var c := s.links[link].conversation;
      !IsCurrentLink(s.m, link, c) || (read == RejectedOf(s.w, c) && !UnderWay(s.delivery, c))
    case RejectedWritten(onDisk, ok) => ok || onDisk == RejectedOf(s.w, s.delivery.conversation)
    case _ => true
  }

  ghost predicate FaithfulRun(s: State, actions: seq<Action>, s': State)
    decreases |actions|
  {
    if actions == [] then s == s'
    else Enabled(s, actions[0]) && Faithful(s, actions[0]) && FaithfulRun(Step(s, actions[0]), actions[1..], s')
  }

  // ---------------------------------------------------------------------------------------------
  // What a link that is under way will find again
  // ---------------------------------------------------------------------------------------------

  predicate ListsAgain(m: Memory, link: Link) {
    match link.step
    case Listing(_) => m.acknowledged <= link.had
    case ReadingRejected(ids) => m.acknowledged <= ids
    case Returned => true
    case Threw => true
  }

  /** Every acknowledged entry was there when the current link began to list. */
  predicate Listed(s: State) {
    s.m.generation in s.links ==> ListsAgain(s.m, s.links[s.m.generation])
  }

  /** Every refusal in memory is in the file, and a delivery that may rewrite the file knows it. */
  predicate OnRecord(s: State) {
    s.m.conversation.Some? ==>
      && s.m.rejected <= RejectedOf(s.w, s.m.conversation.value)
      && (UnderWay(s.delivery, s.m.conversation.value) ==> s.m.rejected <= s.delivery.refused)
  }

  lemma LaunchListed(s: State, reply: Reply<Request>, now: int)
    requires Listed(s) && AcknowledgedIsStored(s.m, s.w)
    ensures Listed(Launch(s, reply, now))
  {
  }

  lemma CallsListed(s: State, a: Action)
    requires Safe(s) && Listed(s) && Enabled(s, a)
    requires a.CallLink? || a.CallUnlink? || a.CallFlush? || a.FlushDelivers? || a.EndRun?
    ensures Listed(Step(s, a))
  {
    assert forall g :: g in s.links ==> Owned(s.m, g, s.links[g].conversation);
    hide Launch, Safe;
    if a.CallFlush? {
      LaunchListed(s, AfterCall(s.flight, Request(None, s.m.generation)), a.now);
    } else if a.FlushDelivers? {
      LaunchListed(s.(staged := s.staged[1..]), AfterCall(s.flight, s.staged[0]), a.now);
    } else if a.EndRun? {
      LaunchListed(s.(delivery := Idle), AfterSettle(s.flight, s.delivery.ok), a.now);
    }
  }

  lemma LinksListed(s: State, a: Action)
    requires Safe(s) && Listed(s) && Enabled(s, a) && Faithful(s, a) && (a.ListPage? || a.ListFail? || a.ReadRejected?)
    ensures Listed(Step(s, a))
  {
    assert Owned(s.m, a.link, s.links[a.link].conversation);
  }

  /** No delivery acknowledges anything while a link is under way. */
  lemma DeliveryListed(s: State, a: Action)
    requires Orderly(s) && Listed(s) && Enabled(s, a)
    requires a.AfterLink? || a.ServerStores? || a.AppendAccepted? || a.AppendRefused? || a.AppendFailed? || a.RejectedWritten? || a.AfterClear?
    ensures Listed(Step(s, a))
  {
    assert DeliveryInformed(s.m, s.links, s.delivery);
  }

  lemma StepKeepsListed(s: State, a: Action)
    requires Safe(s) && Orderly(s) && Listed(s) && Enabled(s, a) && Faithful(s, a)
    ensures Listed(Step(s, a))
  {
    hide Orderly, Faithful, Enabled, Step;
    if a.CallLink? || a.CallUnlink? || a.CallFlush? || a.FlushDelivers? || a.EndRun? {
      CallsListed(s, a);
    } else if a.StartOperation? || a.ReadOutbox? || a.AppendOutbox? || a.RemoveOutbox? {
      OperationsSpareLink(s, a);
    } else if a.ListPage? || a.ListFail? || a.ReadRejected? {
      LinksListed(s, a);
    } else if a.Crash? {
      CrashListed(s, a);
    } else {
      DeliveryListed(s, a);
    }
  }

  lemma CrashListed(s: State, a: Action)
    requires Enabled(s, a) && a.Crash?
    ensures Listed(Step(s, a)) && OnRecord(Step(s, a))
  {
  }

  lemma LaunchOnRecord(s: State, reply: Reply<Request>, now: int)
    requires OnRecord(s)
    ensures OnRecord(Launch(s, reply, now))
  {
  }

  lemma CallsOnRecord(s: State, a: Action)
    requires OnRecord(s) && Enabled(s, a)
    requires a.CallLink? || a.CallUnlink? || a.CallFlush? || a.FlushDelivers? || a.EndRun?
    ensures OnRecord(Step(s, a))
  {
    hide Launch;
    if a.CallFlush? {
      LaunchOnRecord(s, AfterCall(s.flight, Request(None, s.m.generation)), a.now);
    } else if a.FlushDelivers? {
      LaunchOnRecord(s.(staged := s.staged[1..]), AfterCall(s.flight, s.staged[0]), a.now);
    } else if a.EndRun? {
      LaunchOnRecord(s.(delivery := Idle), AfterSettle(s.flight, s.delivery.ok), a.now);
    }
  }

  lemma OperationsOnRecord(s: State, a: Action)
    requires OnRecord(s) && Enabled(s, a) && (a.StartOperation? || a.ReadOutbox? || a.AppendOutbox? || a.RemoveOutbox?)
    ensures OnRecord(Step(s, a))
  {
    hide Enabled, Step;
    if a.ReadOutbox? {
      ReadSpares(s, a);
    } else if a.AppendOutbox? {
      AppendSpares(s, a.written, a.ok);
    } else if a.StartOperation? {
      StartSpares(s);
    } else {
      RemoveSpares(s, a.gone, a.ok);
    }
  }

  lemma LinksOnRecord(s: State, a: Action)
    requires OnRecord(s) && Enabled(s, a) && Faithful(s, a) && (a.ListPage? || a.ListFail? || a.ReadRejected?)
    ensures OnRecord(Step(s, a))
  {
  }

  lemma GoingOnOnRecord(s: State, a: Action)
    requires OnRecord(s) && Enabled(s, a) && (a.AfterLink? || a.AppendAccepted?)
    ensures OnRecord(Step(s, a))
  {
  }

  lemma AnswersOnRecord(s: State, a: Action)
    requires OnRecord(s) && Enabled(s, a) && (a.ServerStores? || a.AppendRefused? || a.AppendFailed? || a.AfterClear?)
    ensures OnRecord(Step(s, a))
  {
  }

  lemma RewriteOnRecord(s: State, onDisk: set<string>, ok: bool)
    requires OnRecord(s) && Enabled(s, RejectedWritten(onDisk, ok)) && Faithful(s, RejectedWritten(onDisk, ok))
    ensures OnRecord(Step(s, RejectedWritten(onDisk, ok)))
  {
  }

  lemma StepKeepsOnRecord(s: State, a: Action)
    requires OnRecord(s) && Enabled(s, a) && Faithful(s, a)
    ensures OnRecord(Step(s, a))
  {
    hide OnRecord, Faithful, Enabled, Step;
    if a.CallLink? || a.CallUnlink? || a.CallFlush? || a.FlushDelivers? || a.EndRun? {
      CallsOnRecord(s, a);
    } else if a.StartOperation? || a.ReadOutbox? || a.AppendOutbox? || a.RemoveOutbox? {
      OperationsOnRecord(s, a);
    } else if a.ListPage? || a.ListFail? || a.ReadRejected? {
      LinksOnRecord(s, a);
    } else if a.RejectedWritten? {
      RewriteOnRecord(s, a.onDisk, a.ok);
    } else if a.Crash? {
      CrashListed(s, a);
    } else if a.AfterLink? || a.AppendAccepted? {
      GoingOnOnRecord(s, a);
    } else {
      AnswersOnRecord(s, a);
    }
  }

  // ---------------------------------------------------------------------------------------------
  // No staged entry is forgotten
  // ---------------------------------------------------------------------------------------------

  /** The end of a faithful link finds every settled entry again. */
  lemma ReadRejectedKeepsAccounted(s: State, link: nat, read: set<string>)
    requires Safe(s) && Listed(s) && OnRecord(s) && Accounted(s.m)
    requires Enabled(s, ReadRejected(link, read)) && Faithful(s, ReadRejected(link, read))
    ensures Accounted(Step(s, ReadRejected(link, read)).m)
  {
  }

  ghost predicate Accountable(s: State) {
    Safe(s) && Orderly(s) && Listed(s) && OnRecord(s) && Accounted(s.m)
  }

  lemma StepKeepsAccountable(s: State, a: Action)
    requires Accountable(s) && Enabled(s, a) && Faithful(s, a)
    ensures Accountable(Step(s, a))
  {
    hide Safe, Orderly, Listed, OnRecord, Accounted, Faithful, Enabled, Step;
    StepKeepsSafe(s, a);
    StepKeepsOrderly(s, a);
    StepKeepsListed(s, a);
    StepKeepsOnRecord(s, a);
    if a.ReadRejected? {
      ReadRejectedKeepsAccounted(s, a.link, a.read);
    } else {
      AccountedUnlessRelinked(s, a);
    }
  }

  lemma StartIsAccountable(w: World)
    ensures Accountable(Start(w))
  {
  }

  lemma {:induction false} FaithfulRunKeepsAccountable(s: State, actions: seq<Action>, s': State)
    requires Accountable(s) && FaithfulRun(s, actions, s')
    ensures Accountable(s') && Runs(s, actions, s')
    decreases |actions|
  {
    hide Accountable, Faithful, Enabled, Step;
    if actions != [] {
      StepKeepsAccountable(s, actions[0]);
      FaithfulRunKeepsAccountable(Step(s, actions[0]), actions[1..], s');
    }
  }

  /** In every faithful run from a fresh start no staged entry is forgotten, whatever relinks and crashes it has. */
  lemma AccountedInFaithfulRuns(w: World, actions: seq<Action>, s: State)
    requires FaithfulRun(Start(w), actions, s)
    ensures Accounted(s.m)
  {
    StartIsAccountable(w);
    FaithfulRunKeepsAccountable(Start(w), actions, s);
  }

  /** Main result: whatever went before faithfully, a flush of a linked mirror and a calm stretch to rest settle everything handed in. */
  lemma DeliveredAfterFaithfulRuns(w: World, actions: seq<Action>, s: State, entries: seq<SessionEntry>, now: int, rest: seq<Action>, s': State)
    requires HonestFiles(w) && FaithfulRun(Start(w), actions, s) && s.m.linked
    requires CalmFlush(s, entries, now, rest, s')
    ensures s'.m.pending == []
    ensures forall id :: id in EntryIds(entries) + Flushed(rest) ==> SettledIn(s'.m, id)
  {
    StartIsAccountable(w);
    FaithfulRunKeepsAccountable(Start(w), actions, s);
    DeliveredAtQuiescence(s, entries, now, rest, s');
  }
}
