/**
 The fields of `SessionMirror` and every stretch of its code that runs without an await.

 `Memory` is the value of the fields; each function on it says what one stretch computes, and the method of the
 same name in `SessionMirror` does it in place. JavaScript sets that the code iterates over are sequences
 without duplicates here, in insertion order.
 */
module MirrorMemory {
  import opened Wrappers
  import opened Seqs

  const MAX_ENTRIES_PER_BATCH := 200
  const MAX_PAYLOAD_BYTES := 1024 * 1024
  const MAX_BACKOFF_MS := 60_000
  const FIRST_BACKOFF_MS := 1_000

  /** An entry of the session, with the size of its JSON payload. */
  datatype SessionEntry = SessionEntry(id: string, payload: string, payloadBytes: nat)

  /** What is staged and sent; of a truncated entry only the scalar fields of the payload are kept. */
  datatype Entry = Entry(id: string, payload: string, truncated: bool)

  datatype Memory = Memory(
    acknowledged: set<string>,
    truncated: set<string>,
    rejected: set<string>,
    conversation: Option<string>,
    linked: bool,
    generation: nat,
    backoffMs: nat,
    nextAttemptAt: int,
    pendingCount: nat,
    pending: seq<string>,
    outboxConversation: Option<string>,
    outboxEntries: map<string, Entry>
  )

  const FRESH: Memory := Memory({}, {}, {}, None, false, 0, 0, 0, 0, [], None, map[])

  function Staged(entry: SessionEntry): Entry {
    Entry(entry.id, entry.payload, MAX_PAYLOAD_BYTES < entry.payloadBytes)
  }

  function Ids(entries: seq<Entry>): set<string> {
    set e | e in entries :: e.id
  }

  predicate Distinct(ids: seq<string>) {
    forall i, j :: 0 <= i < j < |ids| ==> ids[i] != ids[j]
  }

  /** `Set.add`. */
  function Add(ids: seq<string>, id: string): (r: seq<string>)
    ensures Distinct(ids) ==> Distinct(r)
    ensures forall x :: x in r <==> x in ids || x == id
  {
    if id in ids then ids else ids + [id]
  }

  /** The members of `ids` outside `gone`, in order. */
  function Without(ids: seq<string>, gone: set<string>): (r: seq<string>)
    ensures forall x :: x in r <==> x in ids && x !in gone
    ensures Distinct(ids) ==> Distinct(r)
    ensures |r| <= |ids|
  {
    if ids == [] then []
    else
      var rest := Without(ids[1..], gone);
      if ids[0] in gone then rest else [ids[0]] + rest
  }

  lemma {:induction false} WithoutTwice(ids: seq<string>, a: set<string>, b: set<string>)
    ensures Without(Without(ids, a), b) == Without(ids, a + b)
  {
    if ids != [] {
      WithoutTwice(ids[1..], a, b);
      if ids[0] !in a {
        var rest := Without(ids[1..], a);
        assert ([ids[0]] + rest)[1..] == rest;
      }
    }
  }

  lemma {:induction false} WithoutAppend(ids: seq<string>, more: seq<string>, gone: set<string>)
    ensures Without(ids + more, gone) == Without(ids, gone) + Without(more, gone)
  {
    if ids == [] {
      assert ids + more == more;
    } else {
      assert (ids + more)[1..] == ids[1..] + more;
      WithoutAppend(ids[1..], more, gone);
    }
  }

  lemma {:induction false} WithoutNothing(ids: seq<string>, gone: set<string>)
    requires forall x :: x in ids ==> x !in gone
    ensures Without(ids, gone) == ids
  {
    if ids != [] {
      WithoutNothing(ids[1..], gone);
    }
  }

  // ---------------------------------------------------------------------------------------------
  // What each stretch computes
  // ---------------------------------------------------------------------------------------------

  predicate IsCurrentLink(m: Memory, generation: nat, conversation: string) {
    m.generation == generation && m.conversation == Some(conversation)
  }

  function LinkBegun(m: Memory, conversation: string): Memory {
    var m' := if m.conversation == Some(conversation) then m
      else m.(acknowledged := {}, truncated := {}, rejected := {}, pending := [], outboxEntries := map[],
              outboxConversation := None, pendingCount := 0, backoffMs := 0, nextAttemptAt := 0);
    m'.(generation := m.generation + 1, conversation := Some(conversation), linked := false)
  }

  function LinkCompleted(m: Memory, acknowledged: set<string>, rejected: set<string>): Memory {
    var pending := Without(m.pending, acknowledged + rejected);
    m.(acknowledged := acknowledged, truncated := {}, rejected := rejected, pending := pending,
       pendingCount := |pending|, linked := true, backoffMs := 0, nextAttemptAt := 0)
  }

  function Unlinked(m: Memory): Memory {
    FRESH.(generation := m.generation + 1)
  }

  function Delayed(m: Memory, now: int): Memory {
    var next := if m.backoffMs == 0 then FIRST_BACKOFF_MS else m.backoffMs * 2;
    var backoff := if next < MAX_BACKOFF_MS then next else MAX_BACKOFF_MS;
    m.(backoffMs := backoff, nextAttemptAt := now + backoff)
  }

  /** Memory after failures at the given times. */
  function Failing(m: Memory, times: seq<int>): Memory {
    if times == [] then m else Delayed(Failing(m, times[..|times| - 1]), times[|times| - 1])
  }

  function PowerOfTwo(n: nat): nat {
    if n == 0 then 1 else 2 * PowerOfTwo(n - 1)
  }

  /** The wait after the n-th failure in a row is a second, doubled with each failure, and never more than a minute. */
  lemma {:induction false} BackoffDoubles(m: Memory, times: seq<int>)
    requires m.backoffMs == 0 && times != []
    ensures var r, n := Failing(m, times), |times| - 1;
      && r.backoffMs == Min(FIRST_BACKOFF_MS * PowerOfTwo(n), MAX_BACKOFF_MS)
      && 0 < r.backoffMs && r.nextAttemptAt == times[n] + r.backoffMs
      && r == m.(backoffMs := r.backoffMs, nextAttemptAt := r.nextAttemptAt)
  {
    var n := |times| - 1;
    if n > 0 {
      BackoffDoubles(m, times[..n]);
    } else {
      assert Failing(m, times[..0]) == m;
    }
  }

  function BackoffCleared(m: Memory): Memory {
    m.(backoffMs := 0, nextAttemptAt := 0)
  }

  function Counted(m: Memory): Memory {
    m.(pendingCount := |m.pending|)
  }

  /** One line of the outbox file put into memory; the first line of an id wins. */
  function Loaded(m: Memory, entry: Entry): Memory {
    if entry.id in m.outboxEntries then m
    else m.(outboxEntries := m.outboxEntries[entry.id := entry],
            pending := if entry.id in m.acknowledged || entry.id in m.rejected then m.pending else Add(m.pending, entry.id))
  }

  function LoadedAll(m: Memory, outbox: seq<Entry>): Memory {
    if outbox == [] then m else Loaded(LoadedAll(m, outbox[..|outbox| - 1]), outbox[|outbox| - 1])
  }

  function OutboxLoaded(m: Memory, conversation: string, outbox: seq<Entry>): Memory {
    LoadedAll(m.(outboxEntries := map[]), outbox).(outboxConversation := Some(conversation))
  }

  ghost predicate HasId(entries: seq<Entry>, id: string) {
    exists i :: 0 <= i < |entries| && entries[i].id == id
  }

  /** Of the entries with one id, this is the first, or the last. */
  ghost predicate Leading(entries: seq<Entry>, i: nat, first: bool)
    requires i < |entries|
  {
    forall j :: 0 <= j < |entries| && (if first then j < i else i < j) ==> entries[j].id != entries[i].id
  }

  /** `held` has what `before` had and the entries; of those with one id the first counts, or the last. */
  ghost predicate Holds(held: map<string, Entry>, before: map<string, Entry>, entries: seq<Entry>, first: bool) {
    && (forall id :: id in held <==> id in before || HasId(entries, id))
    && (forall id :: id in before && !HasId(entries, id) ==> held[id] == before[id])
    && (forall i :: 0 <= i < |entries| && Leading(entries, i, first) ==> held[entries[i].id] == entries[i])
  }

  /** The ids of the entries that are not settled have joined, behind those that were there. */
  ghost predicate Joins(ids: seq<string>, before: seq<string>, entries: seq<Entry>, settled: set<string>) {
    before <= ids && forall id :: id in ids <==> id in before || (id !in settled && HasId(entries, id))
  }

  lemma HasIdMore(entries: seq<Entry>, e: Entry)
    ensures forall id :: HasId(entries + [e], id) <==> HasId(entries, id) || id == e.id
  {
    var more := entries + [e];
    forall id
      ensures HasId(more, id) <==> HasId(entries, id) || id == e.id
    {
      if HasId(entries, id) {
        var i :| 0 <= i < |entries| && entries[i].id == id;
        assert more[i].id == id;
      }
      assert more[|entries|] == e;
    }
  }

  lemma HoldsMore(held: map<string, Entry>, before: map<string, Entry>, entries: seq<Entry>, e: Entry, first: bool)
    requires Holds(held, before, entries, first) && (first ==> before == map[])
    ensures Holds(if first && e.id in held then held else held[e.id := e], before, entries + [e], first)
  {
    var more, n := entries + [e], |entries|;
    var held' := if first && e.id in held then held else held[e.id := e];
    HasIdMore(entries, e);
    forall i | 0 <= i < |more| && Leading(more, i, first)
      ensures more[i].id in held' && held'[more[i].id] == more[i]
    {
      LeadingBefore(entries, e, i, first);
    }
  }

  lemma LeadingBefore(entries: seq<Entry>, e: Entry, i: nat, first: bool)
    requires i <= |entries| && Leading(entries + [e], i, first)
    ensures i < |entries| ==> Leading(entries, i, first) && HasId(entries, entries[i].id) && (!first ==> entries[i].id != e.id)
    ensures i == |entries| && first ==> !HasId(entries, e.id)
  {
    var more := entries + [e];
    assert forall j :: 0 <= j < |entries| ==> more[j] == entries[j];
    assert more[|entries|] == e;
  }

  lemma JoinsMore(ids: seq<string>, before: seq<string>, entries: seq<Entry>, e: Entry, settled: set<string>)
    requires Joins(ids, before, entries, settled)
    ensures Joins(if e.id in settled then ids else Add(ids, e.id), before, entries + [e], settled)
    ensures e.id in ids ==> Joins(ids, before, entries + [e], settled)
    ensures HasId(entries, e.id) ==> Joins(ids, before, entries + [e], settled)
  {
    HasIdMore(entries, e);
    hide HasId;
  }

  lemma {:induction false} LoadedExactly(m: Memory, outbox: seq<Entry>)
    requires m.outboxEntries == map[]
    ensures var m' := LoadedAll(m, outbox);
      && Holds(m'.outboxEntries, map[], outbox, true) && Joins(m'.pending, m.pending, outbox, m.acknowledged + m.rejected)
      && m' == m.(outboxEntries := m'.outboxEntries, pending := m'.pending)
    decreases |outbox|
  {
    if outbox != [] {
      var n := |outbox| - 1;
      LoadedExactly(m, outbox[..n]);
      var before := LoadedAll(m, outbox[..n]);
      assert outbox == outbox[..n] + [outbox[n]];
      HoldsMore(before.outboxEntries, map[], outbox[..n], outbox[n], true);
      JoinsMore(before.pending, m.pending, outbox[..n], outbox[n], m.acknowledged + m.rejected);
      assert outbox[n].id in before.outboxEntries ==> HasId(outbox[..n], outbox[n].id);
      hide Holds, Joins, HasId;
    }
  }

  lemma {:induction false} CommittedExactly(m: Memory, entries: seq<Entry>)
    ensures var m' := CommittedAll(m, entries);
      && Holds(m'.outboxEntries, m.outboxEntries, entries, false) && Joins(m'.pending, m.pending, entries, {})
      && m' == m.(outboxEntries := m'.outboxEntries, pending := m'.pending)
    decreases |entries|
  {
    hide Holds, Joins, HasId;
    if entries != [] {
      var n := |entries| - 1;
      CommittedExactly(m, entries[..n]);
      var before := CommittedAll(m, entries[..n]);
      assert entries == entries[..n] + [entries[n]];
      HoldsMore(before.outboxEntries, m.outboxEntries, entries[..n], entries[n], false);
      JoinsMore(before.pending, m.pending, entries[..n], entries[n], {});
    } else {
      NoneHeld(m);
    }
  }

  lemma NoneHeld(m: Memory)
    ensures Holds(m.outboxEntries, m.outboxEntries, [], false) && Joins(m.pending, m.pending, [], {})
  {
  }

  predicate Known(m: Memory, id: string) {
    id in m.acknowledged || id in m.rejected || id in m.outboxEntries
  }

  /** The entries still to be written to the outbox. */
  function Missing(m: Memory, entries: seq<SessionEntry>): seq<Entry> {
    if entries == [] then []
    else
      var e := entries[|entries| - 1];
      Missing(m, entries[..|entries| - 1]) + if Known(m, e.id) then [] else [Staged(e)]
  }

  /**
   `missing` is what the entries at the places `at` become, in order: the places of all that are neither settled nor
   staged, each with its payload, and marked as truncated exactly if it is over one MiB.
   */
  ghost predicate Picks(m: Memory, entries: seq<SessionEntry>, at: seq<nat>, missing: seq<Entry>) {
    && |at| == |missing|
    && (forall k :: 0 <= k < |at| ==> at[k] < |entries| && (k > 0 ==> at[k - 1] < at[k]))
    && (forall k :: 0 <= k < |at| ==>
          missing[k] == Entry(entries[at[k]].id, entries[at[k]].payload, entries[at[k]].payloadBytes > 1048576))
    && (forall i :: 0 <= i < |entries| ==>
          (i in at <==> entries[i].id !in m.acknowledged && entries[i].id !in m.rejected && entries[i].id !in m.outboxEntries))
  }

  lemma {:induction false} MissingPicks(m: Memory, entries: seq<SessionEntry>) returns (at: seq<nat>)
    ensures Picks(m, entries, at, Missing(m, entries))
  {
    if entries == [] {
      at := [];
    } else {
      var n := |entries| - 1;
      at := MissingPicks(m, entries[..n]);
      assert entries == entries[..n] + [entries[n]];
      hide Picks;
      PicksOneMore(m, entries[..n], entries[n], at, Missing(m, entries[..n]));
      if !Known(m, entries[n].id) {
        at := at + [n];
      }
    }
  }

  lemma PicksOneMore(m: Memory, entries: seq<SessionEntry>, e: SessionEntry, at: seq<nat>, missing: seq<Entry>)
    requires Picks(m, entries, at, missing)
    ensures if Known(m, e.id) then Picks(m, entries + [e], at, missing)
      else Picks(m, entries + [e], at + [|entries|], missing + [Staged(e)])
  {
    var n := |entries|;
    assert forall i :: 0 <= i < n ==> (entries + [e])[i] == entries[i];
    assert n !in at;
    assert forall i :: i in at + [n] <==> i in at || i == n;
  }

  function Selected(m: Memory, entries: seq<SessionEntry>): Memory {
    m.(truncated := m.truncated + set e | e in Missing(m, entries) && e.truncated :: e.id)
  }

  function Committed(m: Memory, entry: Entry): Memory {
    m.(outboxEntries := m.outboxEntries[entry.id := entry], pending := Add(m.pending, entry.id))
  }

  function CommittedAll(m: Memory, entries: seq<Entry>): Memory {
    if entries == [] then m else Committed(CommittedAll(m, entries[..|entries| - 1]), entries[|entries| - 1])
  }

  function StageCommitted(m: Memory, missing: seq<Entry>): Memory {
    Counted(CommittedAll(m, missing))
  }

  /** The entries to send, in staging order. */
  function Outstanding(pending: seq<string>, outboxEntries: map<string, Entry>): seq<Entry> {
    if pending == [] then []
    else
      var id := pending[|pending| - 1];
      Outstanding(pending[..|pending| - 1], outboxEntries) + if id in outboxEntries then [outboxEntries[id]] else []
  }

  function Acknowledged(m: Memory, chunk: seq<Entry>): Memory {
    Counted(m.(acknowledged := m.acknowledged + Ids(chunk), pending := Without(m.pending, Ids(chunk))))
  }

  function Rejected(m: Memory, chunk: seq<Entry>, rejected: set<string>): Memory {
    Counted(m.(rejected := rejected, pending := Without(m.pending, Ids(chunk))))
  }

  function OutboxRemoved(m: Memory, conversation: string): Memory {
    if m.outboxConversation == Some(conversation) then m.(outboxEntries := map[]) else m
  }

  /** `items` cut into pieces of `size`, the last one possibly shorter. */
  function Batches<T>(items: seq<T>, size: nat): (r: seq<seq<T>>)
    requires 0 < size
    decreases |items|
  {
    if items == [] then []
    else if |items| <= size then [items]
    else [items[..size]] + Batches(items[size..], size)
  }

  method Batch<T>(items: seq<T>, size: nat) returns (batches: seq<seq<T>>)
    requires 0 < size
    ensures batches == Batches(items, size)
  {
    batches := [];
    var index := 0;
    while index < |items|
      invariant Batches(items, size) == batches + Batches(items[Min(index, |items|)..], size)
    {
      var rest, end := items[index..], Min(index + size, |items|);
      assert rest[..end - index] == items[index..end];
      assert rest[end - index..] == items[end..];
      assert Batches(rest, size) == [items[index..end]] + Batches(items[end..], size) by {
        if |rest| <= size {
          assert rest == items[index..end] && items[end..] == [];
          assert [rest] + Batches<T>([], size) == [rest];
        } else {
          assert rest[..size] == items[index..end] && rest[size..] == items[end..];
        }
      }
      Prepend(batches, items[index..end], Batches(items[end..], size));
      batches := batches + [items[index..end]];
      index := index + size;
    }
  }

  function Min(a: int, b: int): int {
    if a < b then a else b
  }

  lemma Prepend<T>(a: seq<T>, x: T, b: seq<T>)
    ensures a + ([x] + b) == (a + [x]) + b
  {
  }

  lemma {:induction false} BatchesJoin<T>(items: seq<T>, size: nat)
    requires 0 < size
    ensures Flat(Batches(items, size)) == items
    decreases |items|
  {
    assert Flat<T>([]) == [];
    hide Flat;
    if size < |items| {
      BatchesJoin(items[size..], size);
      FlatFirst([items[..size]] + Batches(items[size..], size));
      assert ([items[..size]] + Batches(items[size..], size))[1..] == Batches(items[size..], size);
      assert items == items[..size] + items[size..];
    } else if items != [] {
      FlatFirst([items]);
    }
  }

  lemma {:induction false} BatchesFit<T>(items: seq<T>, size: nat)
    requires 0 < size
    ensures forall b :: b in Batches(items, size) ==> 0 < |b| <= size
    ensures forall i :: 0 <= i < |Batches(items, size)| - 1 ==> |Batches(items, size)[i]| == size
    decreases |items|
  {
    if size < |items| {
      BatchesFit(items[size..], size);
    }
  }

  /** The pieces put together are the items in order; every piece but the last is full, none is empty or too large. */
  lemma BatchesCover<T>(items: seq<T>, size: nat)
    requires 0 < size
    ensures var batches := Batches(items, size);
      && Flat(batches) == items
      && (forall b :: b in batches ==> 0 < |b| <= size)
      && (forall i :: 0 <= i < |batches| - 1 ==> |batches[i]| == size)
  {
    BatchesJoin(items, size);
    BatchesFit(items, size);
  }

  // ---------------------------------------------------------------------------------------------
  // The object
  // ---------------------------------------------------------------------------------------------

  class SessionMirror {
    var acknowledged: set<string>
    var truncated: set<string>
    var rejected: set<string>
    var conversationId: Option<string>
    var linked: bool
    var linkGeneration: nat
    var backoffMs: nat
    var nextAttemptAt: int
    var pendingCount: nat
    var pendingEntryIds: seq<string>
    var outboxConversationId: Option<string>
    var outboxEntries: map<string, Entry>

    function State(): Memory
      reads this
    {
      Memory(acknowledged, truncated, rejected, conversationId, linked, linkGeneration, backoffMs, nextAttemptAt,
             pendingCount, pendingEntryIds, outboxConversationId, outboxEntries)
    }

    constructor ()
      ensures State() == FRESH
    {
      acknowledged, truncated, rejected := {}, {}, {};
      conversationId, linked, linkGeneration := None, false, 0;
      backoffMs, nextAttemptAt, pendingCount := 0, 0, 0;
      pendingEntryIds, outboxConversationId, outboxEntries := [], None, map[];
    }

    /** `link` up to the first page request. */
    method BeginLink(conversation: string) returns (generation: nat)
      modifies this
      ensures State() == LinkBegun(old(State()), conversation)
      ensures generation == linkGeneration == old(linkGeneration) + 1 && conversationId == Some(conversation) && !linked
      ensures State() == if old(conversationId) == Some(conversation)
        then old(State()).(generation := linkGeneration, linked := false)
        else Memory({}, {}, {}, Some(conversation), false, linkGeneration, 0, 0, 0, [], None, map[])
    {
      if conversationId != Some(conversation) {
        acknowledged, truncated, rejected := {}, {}, {};
        pendingEntryIds, outboxEntries := [], map[];
        outboxConversationId := None;
        pendingCount := 0;
        backoffMs := 0;
        nextAttemptAt := 0;
      }
      linkGeneration := linkGeneration + 1;
      generation := linkGeneration;
      conversationId := Some(conversation);
      linked := false;
    }

    /** The loop of `link` over the pending ids. */
    method DropSettled()
      modifies this`pendingEntryIds
      ensures pendingEntryIds == Without(old(pendingEntryIds), acknowledged + rejected)
    {
      var ids := pendingEntryIds;
      ghost var settled := acknowledged + rejected;
      ghost var gone: set<string> := {};
      WithoutNothing(ids, gone);
      for i := 0 to |ids|
        invariant gone == settled * Members(ids[..i])
        invariant pendingEntryIds == Without(ids, gone)
      {
        hide Without, Members;
        SettledNext(ids, i, settled);
        if ids[i] in acknowledged || ids[i] in rejected {
          WithoutTwice(ids, gone, {ids[i]});
          gone := gone + {ids[i]};
          pendingEntryIds := Without(pendingEntryIds, {ids[i]});
        }
      }
      assert ids[..|ids|] == ids;
      WithoutSettled(ids, settled);
    }

    /** The end of `link`, once the listing and the rejected ids are there and the link is still current. */
    method CompleteLink(listed: set<string>, refused: set<string>)
      modifies this
      ensures State() == LinkCompleted(old(State()), listed, refused)
      ensures acknowledged == listed && rejected == refused && truncated == {} && linked && backoffMs == nextAttemptAt == 0
      ensures forall id :: id in pendingEntryIds <==> id in old(pendingEntryIds) && id !in listed && id !in refused
      ensures pendingCount == |pendingEntryIds| && conversationId == old(conversationId) && linkGeneration == old(linkGeneration)
      ensures outboxConversationId == old(outboxConversationId) && outboxEntries == old(outboxEntries)
    {
      hide Without;
      acknowledged := listed;
      truncated := {};
      rejected := refused;
      DropSettled();
      pendingCount := |pendingEntryIds|;
      linked := true;
      backoffMs := 0;
      nextAttemptAt := 0;
    }

    method Unlink()
      modifies this
      ensures State() == Unlinked(old(State()))
      ensures State() == Memory({}, {}, {}, None, false, old(linkGeneration) + 1, 0, 0, 0, [], None, map[])
    {
      linkGeneration := linkGeneration + 1;
      conversationId := None;
      linked := false;
      acknowledged, truncated, rejected := {}, {}, {};
      backoffMs := 0;
      nextAttemptAt := 0;
      pendingCount := 0;
      pendingEntryIds, outboxEntries := [], map[];
      outboxConversationId := None;
    }

    method DelayNextAttempt(now: int)
      modifies this
      ensures State() == Delayed(old(State()), now)
      ensures backoffMs == (if old(backoffMs) == 0 then 1000 else if old(backoffMs) * 2 < 60000 then old(backoffMs) * 2 else 60000)
      ensures State() == old(State()).(backoffMs := backoffMs, nextAttemptAt := now + backoffMs)
    {
      var next := if backoffMs == 0 then FIRST_BACKOFF_MS else backoffMs * 2;
      backoffMs := if next < MAX_BACKOFF_MS then next else MAX_BACKOFF_MS;
      nextAttemptAt := now + backoffMs;
    }

    /** `stageEntries`: the lines of the outbox file become the staged entries. */
    method LoadOutbox(conversation: string, outbox: seq<Entry>)
      modifies this
      ensures State() == OutboxLoaded(old(State()), conversation, outbox)
      ensures outboxConversationId == Some(conversation) && Holds(outboxEntries, map[], outbox, true)
      ensures Joins(pendingEntryIds, old(pendingEntryIds), outbox, acknowledged + rejected)
    {
      outboxEntries := map[];
      ghost var start := State();
      for i := 0 to |outbox|
        invariant State() == LoadedAll(start, outbox[..i])
      {
        var entry := outbox[i];
        assert outbox[..i + 1][..i] == outbox[..i];
        if entry.id !in outboxEntries {
          outboxEntries := outboxEntries[entry.id := entry];
          if entry.id !in acknowledged && entry.id !in rejected {
            pendingEntryIds := Add(pendingEntryIds, entry.id);
          }
        }
      }
      assert outbox[..|outbox|] == outbox;
      outboxConversationId := Some(conversation);
      LoadedExactly(start, outbox);
    }

    /**
     `stageEntries`: the entries that are neither settled nor staged yet, those at the places `at`, each with its payload
     and marked as truncated if it is over one MiB.
     */
    method SelectMissing(entries: seq<SessionEntry>) returns (missing: seq<Entry>, ghost at: seq<nat>)
      modifies this`truncated
      ensures missing == Missing(old(State()), entries)
      ensures State() == Selected(old(State()), entries)
      ensures Picks(old(State()), entries, at, missing)
      ensures State() == old(State()).(truncated := truncated)
      ensures forall id :: id in truncated <==> id in old(truncated) || exists e :: e in missing && e.truncated && e.id == id
    {
      missing := [];
      for i := 0 to |entries|
        invariant missing == Missing(old(State()), entries[..i])
        invariant State() == old(State()).(truncated := old(truncated) + set e | e in missing && e.truncated :: e.id)
      {
        var candidate := entries[i];
        assert entries[..i + 1][..i] == entries[..i];
        if candidate.id in acknowledged || candidate.id in rejected || candidate.id in outboxEntries {
          continue;
        }
        var staged := Entry(candidate.id, candidate.payload, false);
        if MAX_PAYLOAD_BYTES < candidate.payloadBytes {
          truncated := truncated + {candidate.id};
          staged := staged.(truncated := true);
        }
        missing := missing + [staged];
      }
      assert entries[..|entries|] == entries;
      at := MissingPicks(old(State()), entries);
    }

    /** `stageEntries`, once the lines are on disk and the link is still current. */
    method CommitStaged(missing: seq<Entry>)
      modifies this
      ensures State() == StageCommitted(old(State()), missing)
      ensures Holds(outboxEntries, old(outboxEntries), missing, false)
      ensures Joins(pendingEntryIds, old(pendingEntryIds), missing, {}) && pendingCount == |pendingEntryIds|
    {
      for i := 0 to |missing|
        invariant State() == CommittedAll(old(State()), missing[..i])
      {
        assert missing[..i + 1][..i] == missing[..i];
        outboxEntries := outboxEntries[missing[i].id := missing[i]];
        pendingEntryIds := Add(pendingEntryIds, missing[i].id);
      }
      assert missing[..|missing|] == missing;
      pendingCount := |pendingEntryIds|;
      CommittedExactly(old(State()), missing);
    }

    /** `deliver`: the entries to send now. */
    method CollectOutstanding() returns (outstanding: seq<Entry>)
      modifies this`pendingCount
      ensures outstanding == Outstanding(pendingEntryIds, outboxEntries)
      ensures pendingCount == |pendingEntryIds|
      ensures State() == Counted(old(State()))
    {
      outstanding := [];
      for i := 0 to |pendingEntryIds|
        invariant outstanding == Outstanding(pendingEntryIds[..i], outboxEntries)
        invariant State() == old(State())
      {
        assert pendingEntryIds[..i + 1][..i] == pendingEntryIds[..i];
        if pendingEntryIds[i] in outboxEntries {
          outstanding := outstanding + [outboxEntries[pendingEntryIds[i]]];
        }
      }
      assert pendingEntryIds[..|pendingEntryIds|] == pendingEntryIds;
      pendingCount := |pendingEntryIds|;
    }

    /** `deliver`, after the server accepted a chunk. */
    method Acknowledge(chunk: seq<Entry>)
      modifies this`acknowledged, this`pendingEntryIds, this`pendingCount
      ensures State() == Acknowledged(old(State()), chunk)
      ensures forall id :: id in acknowledged <==> id in old(acknowledged) || exists e :: e in chunk && e.id == id
      ensures forall id :: id in pendingEntryIds <==> id in old(pendingEntryIds) && !exists e :: e in chunk && e.id == id
      ensures pendingCount == |pendingEntryIds|
    {
      assert Ids(chunk[..0]) == {};
      WithoutNothing(pendingEntryIds, {});
      ghost var gone: set<string> := {};
      for i := 0 to |chunk|
        invariant gone == Ids(chunk[..i])
        invariant acknowledged == old(acknowledged) + gone
        invariant pendingEntryIds == Without(old(pendingEntryIds), gone)
      {
        IdsNext(chunk, i);
        WithoutTwice(old(pendingEntryIds), gone, {chunk[i].id});
        gone := gone + {chunk[i].id};
        acknowledged := acknowledged + {chunk[i].id};
        pendingEntryIds := Without(pendingEntryIds, {chunk[i].id});
      }
      assert chunk[..|chunk|] == chunk;
      pendingCount := |pendingEntryIds|;
    }

    /** `deliver`, after the server refused a chunk for good and the refusal is on disk. */
    method Reject(chunk: seq<Entry>, refused: set<string>)
      modifies this`rejected, this`pendingEntryIds, this`pendingCount
      ensures State() == Rejected(old(State()), chunk, refused)
      ensures rejected == refused && pendingCount == |pendingEntryIds|
      ensures forall id :: id in pendingEntryIds <==> id in old(pendingEntryIds) && !exists e :: e in chunk && e.id == id
    {
      rejected := refused;
      assert Ids(chunk[..0]) == {};
      WithoutNothing(pendingEntryIds, {});
      ghost var gone: set<string> := {};
      for i := 0 to |chunk|
        invariant gone == Ids(chunk[..i])
        invariant rejected == refused
        invariant pendingEntryIds == Without(old(pendingEntryIds), gone)
      {
        IdsNext(chunk, i);
        WithoutTwice(old(pendingEntryIds), gone, {chunk[i].id});
        gone := gone + {chunk[i].id};
        pendingEntryIds := Without(pendingEntryIds, {chunk[i].id});
      }
      assert chunk[..|chunk|] == chunk;
      pendingCount := |pendingEntryIds|;
    }

    /** `clearOutbox`, after the file is gone. */
    method ForgetOutbox(conversation: string)
      modifies this`outboxEntries
      ensures State() == OutboxRemoved(old(State()), conversation)
      ensures outboxEntries == if outboxConversationId == Some(conversation) then map[] else old(outboxEntries)
    {
      if outboxConversationId == Some(conversation) {
        outboxEntries := map[];
      }
    }
  }

  function Members(ids: seq<string>): set<string> {
    set id | id in ids
  }

  lemma SettledNext(ids: seq<string>, i: nat, settled: set<string>)
    requires i < |ids|
    ensures settled * Members(ids[..i + 1]) == settled * Members(ids[..i]) + if ids[i] in settled then {ids[i]} else {}
  {
    assert ids[..i + 1] == ids[..i] + [ids[i]];
  }

  lemma WithoutSettled(ids: seq<string>, settled: set<string>)
    ensures Without(ids, settled * Members(ids)) == Without(ids, settled)
  {
    WithoutSame(ids, settled * Members(ids), settled);
  }

  lemma IdsNext(entries: seq<Entry>, i: nat)
    requires i < |entries|
    ensures Ids(entries[..i + 1]) == Ids(entries[..i]) + {entries[i].id}
  {
    assert entries[..i + 1] == entries[..i] + [entries[i]];
  }

  lemma {:induction false} WithoutSame(ids: seq<string>, a: set<string>, b: set<string>)
    requires forall k :: 0 <= k < |ids| ==> (ids[k] in a <==> ids[k] in b)
    ensures Without(ids, a) == Without(ids, b)
  {
    if ids != [] {
      WithoutSame(ids[1..], a, b);
    }
  }
}
