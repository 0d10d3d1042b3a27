/**
 The invariants of the mirror: what keeps entries safe, what flushes and deliveries may rely on, in which order calls to
 `deliver` come, and what is on its way to being settled.
 */
module MirrorInvariants {
  import opened Wrappers
  import opened Seqs
  import opened MirrorMemory
  import opened SingleFlight
  import opened MirrorProtocol

  // ---------------------------------------------------------------------------------------------
  // Safety
  // ---------------------------------------------------------------------------------------------

  /** Work begun for `conversation` at `generation`: either it is stale or the mirror is still on that conversation. */
  predicate Owned(m: Memory, generation: nat, conversation: string) {
    generation <= m.generation && (generation == m.generation ==> m.conversation == Some(conversation))
  }

  ghost predicate MemoryOk(m: Memory) {
    && Distinct(m.pending)
    && (m.outboxConversation.Some? ==> m.outboxConversation == m.conversation)
    && (m.outboxConversation.None? ==> m.pending == [] && m.outboxEntries == map[])
    && (m.conversation.None? ==> m.acknowledged == {})
    && forall id :: id in m.outboxEntries ==> m.outboxEntries[id].id == id
  }

  /** Write-ahead: every pending id has its entry in memory and that entry is in the current outbox file. */
  ghost predicate WriteAhead(m: Memory, w: World) {
    forall id :: id in m.pending ==>
      && id in m.outboxEntries
      && m.conversation.Some?
      && m.outboxEntries[id] in OutboxOf(w, m.conversation.value)
  }

  /** Every acknowledged id is stored by the server for the current conversation. */
  ghost predicate AcknowledgedIsStored(m: Memory, w: World) {
    m.acknowledged != {} ==> m.conversation.Some? && m.acknowledged <= ServerOf(w, m.conversation.value)
  }

  ghost predicate OperationsOk(m: Memory, ops: seq<Operation>) {
    && (forall i :: 0 <= i < |ops| ==> Owned(m, ops[i].generation, ops[i].conversation))
    && (forall i :: 0 < i < |ops| ==> ops[i].phase == Waiting)
    && (ops != [] ==> HeadOk(m, ops[0]))
  }

  ghost predicate HeadOk(m: Memory, op: Operation) {
    match op.phase
    case Waiting => true
    case Reading => op.job.Stage? && (op.generation == m.generation ==> m.outboxConversation != Some(op.conversation))
    case Appending(_) => op.job.Stage? && (op.generation == m.generation ==> m.outboxConversation == Some(op.conversation))
    case Removing => op.job.Clear? && m.pending == []
  }

  ghost predicate LinksOk(m: Memory, links: map<nat, Link>, w: World) {
    forall g :: g in links ==> Owned(m, g, links[g].conversation) && ListedIsStored(links[g], w)
  }

  predicate ListedIsStored(link: Link, w: World) {
    match link.step
    case Listing(ids) => ids <= ServerOf(w, link.conversation)
    case ReadingRejected(ids) => ids <= ServerOf(w, link.conversation)
    case _ => true
  }

  ghost predicate DeliveryOk(m: Memory, d: Delivery) {
    match d
    case Idle => true
    case Done(_) => true
    case Linking(c, g) => Owned(m, g, c)
    case Clearing(c, g, _) => Owned(m, g, c)
    case Cleared(c, g, _, _) => Owned(m, g, c)
    case Sending(c, g, chunks, _) => Owned(m, g, c) && ChunksOk(chunks)
    case WritingRejected(c, g, chunks, refused) => Owned(m, g, c) && ChunksOk(chunks) && Ids(chunks[0]) <= refused
  }

  /** There is a chunk to send, and no chunk is empty or over the cap. */
  ghost predicate ChunksOk(chunks: seq<seq<Entry>>) {
    chunks != [] && forall b :: b in chunks ==> 0 < |b| <= MAX_ENTRIES_PER_BATCH
  }

  ghost predicate Safe(s: State) {
    && MemoryOk(s.m)
    && WriteAhead(s.m, s.w)
    && AcknowledgedIsStored(s.m, s.w)
    && OperationsOk(s.m, s.ops)
    && LinksOk(s.m, s.links, s.w)
    && DeliveryOk(s.m, s.delivery)
  }

  // ---------------------------------------------------------------------------------------------
  // Nothing runs ahead of the loading of the outbox
  // ---------------------------------------------------------------------------------------------

  /** If `generation` is the current one, the outbox file of `conversation` has been put into memory. */
  predicate Ready(m: Memory, generation: nat, conversation: string) {
    generation == m.generation ==> m.outboxConversation == Some(conversation)
  }

  predicate RequestOk(m: Memory, r: Request) {
    r.generation <= m.generation && (r.conversation.Some? ==> Ready(m, r.generation, r.conversation.value))
  }

  ghost predicate DeliveryReady(m: Memory, d: Delivery) {
    match d
    case Idle => true
    case Done(_) => true
    case Linking(c, g) => Ready(m, g, c)
    case Clearing(c, g, _) => Ready(m, g, c)
    case Cleared(c, g, _, _) => Ready(m, g, c)
    case Sending(c, g, _, _) => Ready(m, g, c)
    case WritingRejected(c, g, _, _) => Ready(m, g, c)
  }

  /** No delivery, and no clearing of the outbox, runs ahead of the loading of the outbox file. */
  ghost predicate Prepared(s: State) {
    && (forall r :: r in s.staged ==> RequestOk(s.m, r))
    && (s.flight.latest.Some? ==> RequestOk(s.m, s.flight.latest.value))
    && (forall i :: 0 <= i < |s.ops| && s.ops[i].job.Clear? ==> Ready(s.m, s.ops[i].generation, s.ops[i].conversation))
    && DeliveryReady(s.m, s.delivery)
    && s.flight.running == !s.delivery.Idle?
    && (s.flight.running ==> s.flight.latest.Some?)
  }

  // ---------------------------------------------------------------------------------------------
  // Calls to `deliver` come in the order of their generations
  // ---------------------------------------------------------------------------------------------

  function StageGenerations(ops: seq<Operation>): seq<nat> {
    if ops == [] then []
    else (if ops[0].job.Stage? then [ops[0].generation] else []) + StageGenerations(ops[1..])
  }

  function StagedGenerations(staged: seq<Request>): seq<nat> {
    seq(|staged|, i requires 0 <= i < |staged| => staged[i].generation)
  }

  /** The generations of the calls still to come, in the order in which they will come. */
  function Coming(s: State): seq<nat> {
    StagedGenerations(s.staged) + StageGenerations(s.ops)
  }

  predicate Ascending(gs: seq<nat>) {
    forall i, j :: 0 <= i < j < |gs| ==> gs[i] <= gs[j]
  }

  ghost predicate CallsInOrder(coming: seq<nat>, latest: Option<Request>, generation: nat) {
    && Ascending(coming)
    && (forall g :: g in coming ==> g <= generation)
    && (latest.Some? ==> latest.value.generation <= generation)
    && (latest.Some? && latest.value.conversation.Some? ==> forall g :: g in coming ==> latest.value.generation <= g)
  }

  /** A current delivery belongs to a completed link and knows every refusal the mirror knows. */
  ghost predicate DeliveryInformed(m: Memory, links: map<nat, Link>, d: Delivery) {
    && (m.linked ==> m.conversation.Some? && m.generation in links && links[m.generation].step.Returned?)
    && ((d.Sending? || d.WritingRejected?) && d.generation == m.generation ==> m.linked && m.rejected <= d.refused)
  }

  ghost predicate Orderly(s: State) {
    && CallsInOrder(Coming(s), s.flight.latest, s.m.generation)
    && (forall r :: r in s.staged ==> r.conversation.Some?)
    && DeliveryInformed(s.m, s.links, s.delivery)
  }

  // ---------------------------------------------------------------------------------------------
  // What is on its way
  // ---------------------------------------------------------------------------------------------

  predicate AccountedFor(m: Memory, id: string) {
    id in m.pending || id in m.acknowledged || id in m.rejected
  }

  /** No staged entry is forgotten: each is pending or settled. */
  ghost predicate Accounted(m: Memory) {
    forall id :: id in m.outboxEntries ==> AccountedFor(m, id)
  }

  predicate RerunComing(s: State) {
    && s.flight.running && s.flight.rerun
    && s.flight.latest.Some? && s.flight.latest.value.conversation.Some? && s.flight.latest.value.generation == s.m.generation
  }

  ghost predicate Carrying(m: Memory, d: Delivery) {
    && (d.Sending? || d.WritingRejected?) && d.generation == m.generation
    && forall id :: id in m.pending ==> id in Ids(Flat(d.chunks))
  }

  /** Whatever is pending is being sent, or a current call to `deliver` or a current rerun is still to come. */
  ghost predicate Covered(s: State) {
    s.m.pending == [] || s.m.generation in Coming(s) || RerunComing(s) || Carrying(s.m, s.delivery)
  }

  function EntryIds(entries: seq<SessionEntry>): set<string> {
    set e | e in entries :: e.id
  }

  /** The operation will stage `id`. */
  predicate Carries(m: Memory, op: Operation, id: string) {
    && op.job.Stage? && op.generation == m.generation
    && if op.phase.Appending? then id in Ids(op.phase.missing) else id in EntryIds(op.job.entries)
  }

  ghost predicate HandedIn(s: State, flushed: set<string>) {
    forall id :: id in flushed ==> AccountedFor(s.m, id) || exists op :: op in s.ops && Carries(s.m, op, id)
  }
}
