/**
 `SessionMirror` as a protocol: flushes, links, unlinks, one delivery at a time, the queue of outbox operations,
 the outbox and rejection files, the server, and crashes.

 A state holds the mirror's memory, everything that is in flight, and the world outside. An action is what
 happens between two awaits of one of the concurrent activities; any enabled action may come next. Three facts
 about the order of JavaScript promise reactions are built in: outbox operations run one at a time in the order
 they were asked for, flushes whose staging is over call `deliver` in that same order, and the part of a call up
 to its first await runs at once.
 */
module MirrorProtocol {
  import Strings
  import opened Wrappers
  import opened MirrorMemory
  import opened SingleFlight

  datatype Request = Request(conversation: Option<string>, generation: nat)

  datatype Job = Stage(entries: seq<SessionEntry>) | Clear

  /** What the operation at the head of the queue is waiting for; the others are `Waiting`. */
  datatype Phase = Waiting | Reading | Appending(missing: seq<Entry>) | Removing

  datatype Operation = Operation(conversation: string, generation: nat, job: Job, phase: Phase)

  datatype LinkStep = Listing(ids: set<string>) | ReadingRejected(ids: set<string>) | Returned | Threw

  /** `had` is what the server had for the conversation when its listing was asked for. */
  datatype Link = Link(conversation: string, step: LinkStep, had: set<string>)

  /** Where the one delivery stands. The first of `chunks` is the one being sent. */
  datatype Delivery =
    | Idle
    | Linking(conversation: string, generation: nat)
    | Sending(conversation: string, generation: nat, chunks: seq<seq<Entry>>, refused: set<string>)
    | WritingRejected(conversation: string, generation: nat, chunks: seq<seq<Entry>>, refused: set<string>)
    | Clearing(conversation: string, generation: nat, sent: bool)
    | Cleared(conversation: string, generation: nat, sent: bool, ok: bool)
    | Done(ok: bool)

  /**
   The world outside, by conversation: the outbox files as the entries that can be read back from them, the rejection
   files, what the server stores, what it has answered to refuse for good, and what it may still store because it was sent
   but the answer never came.
   */
  datatype World = World(
    outbox: map<string, seq<Entry>>,
    rejected: map<string, set<string>>,
    server: map<string, set<string>>,
    refused: map<string, set<string>>,
    late: map<string, set<string>>
  )

  datatype State = State(
    m: Memory,
    ops: seq<Operation>,
    staged: seq<Request>,
    links: map<nat, Link>,
    flight: Flight<Request>,
    delivery: Delivery,
    w: World
  )

  datatype Action =
    | CallLink(conversation: string)
    | CallUnlink
    | CallFlush(entries: seq<SessionEntry>, now: int)
    | ListPage(link: nat, page: set<string>, more: bool)
    | ListFail(link: nat, now: int)
    | ReadRejected(link: nat, read: set<string>)
    | StartOperation
    | ReadOutbox(readable: bool)
    | AppendOutbox(written: nat, ok: bool)
    | RemoveOutbox(gone: bool, ok: bool)
    | FlushDelivers(now: int)
    | AfterLink(now: int)
    | ServerStores(conversation: string, ids: set<string>)
    | AppendAccepted
    | AppendRefused
    | AppendFailed(now: int)
    | RejectedWritten(onDisk: set<string>, ok: bool)
    | AfterClear
    | EndRun(now: int)
    | Crash(written: nat, removed: bool, onDisk: set<string>)

  function OutboxOf(w: World, conversation: string): seq<Entry> {
    if conversation in w.outbox then w.outbox[conversation] else []
  }

  function RejectedOf(w: World, conversation: string): set<string> {
    if conversation in w.rejected then w.rejected[conversation] else {}
  }

  function ServerOf(w: World, conversation: string): set<string> {
    if conversation in w.server then w.server[conversation] else {}
  }

  function RefusedOf(w: World, conversation: string): set<string> {
    if conversation in w.refused then w.refused[conversation] else {}
  }

  function LateOf(w: World, conversation: string): set<string> {
    if conversation in w.late then w.late[conversation] else {}
  }

  /** The chunk under way is left to the server: it may be stored at any time from now on, or never. */
  function Unanswered(w: World, d: Delivery): World {
    if d.Sending? && d.chunks != [] then
      w.(late := w.late[d.conversation := LateOf(w, d.conversation) + Ids(d.chunks[0])])
    else w
  }

  /** What the server may store for a conversation: the chunk under way and chunks whose answer never came. */
  function Sent(s: State, conversation: string): set<string> {
    if s.delivery.Sending? && s.delivery.conversation == conversation && s.delivery.chunks != []
    then LateOf(s.w, conversation) + Ids(s.delivery.chunks[0])
    else LateOf(s.w, conversation)
  }

  function Appended(w: World, conversation: string, lines: seq<Entry>): World {
    w.(outbox := w.outbox[conversation := OutboxOf(w, conversation) + lines])
  }

  predicate SafeConversationId(id: string) {
    1 <= |id| <= 128 &&
    forall i :: 0 <= i < |id| ==> 'A' <= id[i] <= 'Z' || 'a' <= id[i] <= 'z' || '0' <= id[i] <= '9' || id[i] == '_' || id[i] == '-'
  }

  /** The ids written out. */
  lemma SafeIdsAre(id: string)
    ensures SafeConversationId(id) <==>
      && 0 < |id| < 129
      && forall i :: 0 <= i < |id| ==> id[i] in Strings.CAPITALS + Strings.SMALL + Strings.DIGITS + "_-"
  {
    hide Strings.CAPITALS, Strings.SMALL, Strings.DIGITS;
    forall i | 0 <= i < |id|
      ensures id[i] in Strings.CAPITALS + Strings.SMALL + Strings.DIGITS + "_-" <==>
        'A' <= id[i] <= 'Z' || 'a' <= id[i] <= 'z' || '0' <= id[i] <= '9' || id[i] == '_' || id[i] == '-'
    {
      Strings.CapitalsAre(id[i]);
      Strings.SmallAre(id[i]);
      Strings.DigitsAre(id[i]);
      assert "_-" == ['_', '-'];
    }
  }

  function Start(w: World): State {
    State(FRESH, [], [], map[], Initial(), Idle, w)
  }

  // ---------------------------------------------------------------------------------------------
  // The stretches between awaits
  // ---------------------------------------------------------------------------------------------

  function BeginLink(s: State, conversation: string): State {
    var m := LinkBegun(s.m, conversation);
    s.(m := m, links := s.links[m.generation := Link(conversation, Listing({}), ServerOf(s.w, conversation))])
  }

  /** `deliver`, from the collection of the outstanding entries to the next await. */
  function Dispatch(s: State, conversation: string, generation: nat, now: int): State {
    var outstanding := Outstanding(s.m.pending, s.m.outboxEntries);
    var s := s.(m := Counted(s.m));
    if outstanding == [] then EnqueueClear(s, conversation, generation, false)
    else if now < s.m.nextAttemptAt then s.(delivery := Done(true))
    else s.(delivery := Sending(conversation, generation, Batches(outstanding, MAX_ENTRIES_PER_BATCH), s.m.rejected))
  }

  function EnqueueClear(s: State, conversation: string, generation: nat, sent: bool): State {
    s.(ops := s.ops + [Operation(conversation, generation, Clear, Waiting)], delivery := Clearing(conversation, generation, sent))
  }

  function NextChunk(s: State, conversation: string, generation: nat, chunks: seq<seq<Entry>>, refused: set<string>): State {
    if chunks == [] then EnqueueClear(s, conversation, generation, true)
    else s.(delivery := Sending(conversation, generation, chunks, refused))
  }

  /** `deliver`, up to its first await. */
  function StartRun(s: State, request: Request, now: int): State {
    if request.conversation.None? || !IsCurrentLink(s.m, request.generation, request.conversation.value) then
      s.(delivery := Done(true))
    else if s.m.linked then Dispatch(s, request.conversation.value, request.generation, now)
    else
      var s := s.(m := Counted(s.m));
      if now < s.m.nextAttemptAt then s.(delivery := Done(true))
      else
        var s := BeginLink(s, request.conversation.value);
        s.(delivery := Linking(request.conversation.value, s.m.generation))
  }

  function Launch(s: State, reply: Reply<Request>, now: int): State {
    var s := s.(flight := reply.flight);
    if reply.start.Some? then StartRun(s, reply.start.value, now) else s
  }

  function CallDeliver(s: State, request: Request, now: int): State {
    Launch(s, AfterCall(s.flight, request), now)
  }

  /** The head of the queue is through; a flush goes on to call `deliver`, a clear lets the delivery go on. */
  function FinishOperation(s: State, ok: bool): State
    requires s.ops != []
  {
    var op := s.ops[0];
    var s := s.(ops := s.ops[1..]);
    if op.job.Clear? then
      if s.delivery.Clearing? then s.(delivery := Cleared(op.conversation, op.generation, s.delivery.sent, ok)) else s
    else if ok then s.(staged := s.staged + [Request(Some(op.conversation), op.generation)])
    else s
  }

  function WithPhase(s: State, phase: Phase): State
    requires s.ops != []
  {
    s.(ops := [s.ops[0].(phase := phase)] + s.ops[1..])
  }

  predicate HeadIsCurrent(s: State)
    requires s.ops != []
  {
    IsCurrentLink(s.m, s.ops[0].generation, s.ops[0].conversation)
  }

  function SelectEntries(s: State): State
    requires s.ops != [] && s.ops[0].job.Stage?
  {
    var entries := s.ops[0].job.entries;
    WithPhase(s.(m := Selected(s.m, entries)), Appending(Missing(s.m, entries)))
  }

  // ---------------------------------------------------------------------------------------------
  // Actions
  // ---------------------------------------------------------------------------------------------

  /** What can be read back after a write of refusals that did not get through: a JSON array that was cut does not parse. */
  predicate Torn(s: State, onDisk: set<string>)
    requires s.delivery.WritingRejected?
  {
    onDisk == RejectedOf(s.w, s.delivery.conversation) || onDisk == {} || onDisk == s.delivery.refused
  }

  predicate Enabled(s: State, a: Action) {
    match a
    case CallLink(_) => true
    case CallUnlink => true
    case CallFlush(_, _) => true
    case ListPage(link, page, _) =>
      link in s.links && s.links[link].step.Listing? && page <= ServerOf(s.w, s.links[link].conversation)
    case ListFail(link, _) => link in s.links && s.links[link].step.Listing?
    case ReadRejected(link, read) =>
      && link in s.links && s.links[link].step.ReadingRejected?
      && (read == {} || read == RejectedOf(s.w, s.links[link].conversation)
          || (s.delivery.WritingRejected? && s.delivery.conversation == s.links[link].conversation && read == s.delivery.refused))
    case StartOperation => s.ops != [] && s.ops[0].phase == Waiting
    case ReadOutbox(_) => s.ops != [] && s.ops[0].job.Stage? && s.ops[0].phase == Reading
    case AppendOutbox(written, ok) =>
      && s.ops != [] && s.ops[0].job.Stage? && s.ops[0].phase.Appending?
      && written <= |s.ops[0].phase.missing|
      && (ok ==> written == |s.ops[0].phase.missing|)
      && (s.ops[0].phase.missing == [] ==> ok)
    case RemoveOutbox(gone, ok) => s.ops != [] && s.ops[0].job.Clear? && s.ops[0].phase == Removing && (ok ==> gone)
    case FlushDelivers(_) => s.staged != []
    case AfterLink(_) =>
      && s.delivery.Linking? && s.delivery.generation in s.links
      && (s.links[s.delivery.generation].step.Returned? || s.links[s.delivery.generation].step.Threw?)
    case ServerStores(c, ids) => ids <= Sent(s, c)
    case AppendAccepted =>
      s.delivery.Sending? && s.delivery.chunks != [] && Ids(s.delivery.chunks[0]) <= ServerOf(s.w, s.delivery.conversation)
    case AppendRefused => s.delivery.Sending? && s.delivery.chunks != []
    case AppendFailed(_) => s.delivery.Sending? && s.delivery.chunks != []
    case RejectedWritten(onDisk, ok) =>
      s.delivery.WritingRejected? && s.delivery.chunks != [] && (if ok then onDisk == s.delivery.refused else Torn(s, onDisk))
    case AfterClear => s.delivery.Cleared?
    case EndRun(_) => s.delivery.Done?
    case Crash(written, _, onDisk) =>
      && (s.ops != [] && s.ops[0].phase.Appending? ==> written <= |s.ops[0].phase.missing|)
      && (s.delivery.WritingRejected? ==> Torn(s, onDisk))
  }

  /** An action that is not enabled does nothing. */
  function Step(s: State, a: Action): State {
    if !Enabled(s, a) then s else
    match a
    case CallLink(c) => if SafeConversationId(c) then BeginLink(s, c) else s
    case CallUnlink => s.(m := Unlinked(s.m))
    case CallFlush(entries, now) =>
      if s.m.conversation.Some? then
        s.(ops := s.ops + [Operation(s.m.conversation.value, s.m.generation, Stage(entries), Waiting)])
      else CallDeliver(s, Request(None, s.m.generation), now)
    case ListPage(link, page, more) => ListPageStep(s, link, page, more)
    case ListFail(link, now) => ListFailStep(s, link, now)
    case ReadRejected(link, read) => ReadRejectedStep(s, link, read)
    case StartOperation => StartOperationStep(s)
    case ReadOutbox(readable) =>
      if !HeadIsCurrent(s) then FinishOperation(s, true)
      else
        var c := s.ops[0].conversation;
        SelectEntries(s.(m := OutboxLoaded(s.m, c, if readable then OutboxOf(s.w, c) else [])))
    case AppendOutbox(written, ok) => AppendOutboxStep(s, written, ok)
    case RemoveOutbox(gone, ok) => RemoveOutboxStep(s, gone, ok)
    case FlushDelivers(now) => CallDeliver(s.(staged := s.staged[1..]), s.staged[0], now)
    case AfterLink(now) => AfterLinkStep(s, now)
    case ServerStores(c, ids) =>
      s.(w := s.w.(server := s.w.server[c := ServerOf(s.w, c) + ids]))
    case AppendAccepted => AppendAcceptedStep(s)
    case AppendRefused =>
      var d := s.delivery;
      s.(delivery := WritingRejected(d.conversation, d.generation, d.chunks, d.refused + Ids(d.chunks[0])),
         w := s.w.(refused := s.w.refused[d.conversation := RefusedOf(s.w, d.conversation) + Ids(d.chunks[0])]))
    case AppendFailed(now) =>
      var current := IsCurrentLink(s.m, s.delivery.generation, s.delivery.conversation);
      s.(m := if current then Delayed(Counted(s.m), now) else s.m, delivery := Done(false), w := Unanswered(s.w, s.delivery))
    case RejectedWritten(onDisk, ok) => RejectedWrittenStep(s, onDisk, ok)
    case AfterClear => AfterClearStep(s)
    case EndRun(now) => Launch(s.(delivery := Idle), AfterSettle(s.flight, s.delivery.ok), now)
    case Crash(written, removed, onDisk) => Start(CrashedWorld(s, written, removed, onDisk))
  }

  function ListPageStep(s: State, link: nat, page: set<string>, more: bool): State
    requires Enabled(s, ListPage(link, page, more))
  {
    var Link(c, Listing(ids), _) := s.links[link];
    var step := if more then Listing(ids + page) else if IsCurrentLink(s.m, link, c) then ReadingRejected(ids + page) else Returned;
    s.(links := s.links[link := s.links[link].(step := step)])
  }

  function ListFailStep(s: State, link: nat, now: int): State
    requires Enabled(s, ListFail(link, now))
  {
    var c := s.links[link].conversation;
    if !IsCurrentLink(s.m, link, c) then s.(links := s.links[link := s.links[link].(step := Returned)])
    else s.(m := Delayed(s.m, now), links := s.links[link := s.links[link].(step := Threw)])
  }

  function ReadRejectedStep(s: State, link: nat, read: set<string>): State
    requires Enabled(s, ReadRejected(link, read))
  {
    var Link(c, ReadingRejected(ids), _) := s.links[link];
    var s' := s.(links := s.links[link := s.links[link].(step := Returned)]);
    if IsCurrentLink(s.m, link, c) then s'.(m := LinkCompleted(s.m, ids, read)) else s'
  }

  function StartOperationStep(s: State): State
    requires Enabled(s, StartOperation)
  {
    var op := s.ops[0];
    if !HeadIsCurrent(s) then FinishOperation(s, true)
    else if op.job.Stage? then
      if s.m.outboxConversation != Some(op.conversation) then WithPhase(s, Reading) else SelectEntries(s)
    else
      var s := s.(m := Counted(s.m));
      if s.m.pendingCount > 0 then FinishOperation(s, true) else WithPhase(s, Removing)
  }

  function AppendOutboxStep(s: State, written: nat, ok: bool): State
    requires Enabled(s, AppendOutbox(written, ok))
  {
    var op := s.ops[0];
    var missing := op.phase.missing;
    var s := if missing == [] then s else s.(w := Appended(s.w, op.conversation, missing[..written]));
    if ok && HeadIsCurrent(s) then FinishOperation(s.(m := StageCommitted(s.m, missing)), true)
    else FinishOperation(s, ok)
  }

  function RemoveOutboxStep(s: State, gone: bool, ok: bool): State
    requires Enabled(s, RemoveOutbox(gone, ok))
  {
    var c := s.ops[0].conversation;
    var s := if gone then s.(w := s.w.(outbox := s.w.outbox - {c})) else s;
    FinishOperation(if ok then s.(m := OutboxRemoved(s.m, c)) else s, ok)
  }

  function AfterLinkStep(s: State, now: int): State
    requires Enabled(s, AfterLink(now))
  {
    var Linking(c, generation) := s.delivery;
    if s.links[generation].step.Threw? then s.(delivery := Done(false))
    else if !IsCurrentLink(s.m, generation, c) || !s.m.linked then s.(delivery := Done(true))
    else Dispatch(s, c, generation, now)
  }

  function AppendAcceptedStep(s: State): State
    requires Enabled(s, AppendAccepted)
  {
    var Sending(c, generation, chunks, refused) := s.delivery;
    if !IsCurrentLink(s.m, generation, c) then s.(delivery := Done(true))
    else NextChunk(s.(m := Acknowledged(s.m, chunks[0])), c, generation, chunks[1..], refused)
  }

  function RejectedWrittenStep(s: State, onDisk: set<string>, ok: bool): State
    requires Enabled(s, RejectedWritten(onDisk, ok))
  {
    var WritingRejected(c, generation, chunks, refused) := s.delivery;
    var s := s.(w := s.w.(rejected := s.w.rejected[c := onDisk]));
    if !ok then s.(delivery := Done(false))
    else if !IsCurrentLink(s.m, generation, c) then s.(delivery := Done(true))
    else NextChunk(s.(m := Rejected(s.m, chunks[0], refused)), c, generation, chunks[1..], refused)
  }

  function AfterClearStep(s: State): State
    requires Enabled(s, AfterClear)
  {
    var Cleared(c, generation, sent, ok) := s.delivery;
    if !ok then s.(delivery := Done(false))
    else if !IsCurrentLink(s.m, generation, c) then s.(delivery := Done(true))
    else s.(m := BackoffCleared(if sent then Counted(s.m) else s.m), delivery := Done(true))
  }

  /** What a crash leaves outside: an append may be cut anywhere, a removal or a rewrite done or not, a request stored or not. */
  function CrashedWorld(s: State, written: nat, removed: bool, onDisk: set<string>): World
    requires Enabled(s, Crash(written, removed, onDisk))
  {
    var w := if s.delivery.WritingRejected? then s.w.(rejected := s.w.rejected[s.delivery.conversation := onDisk])
      else Unanswered(s.w, s.delivery);
    if s.ops == [] then w
    else
      var op := s.ops[0];
      if op.phase.Appending? then Appended(w, op.conversation, op.phase.missing[..written])
      else if op.phase.Removing? && removed then w.(outbox := w.outbox - {op.conversation})
      else w
  }

  ghost predicate Runs(s: State, actions: seq<Action>, s': State)
    decreases |actions|
  {
    if actions == [] then s == s'
    else Enabled(s, actions[0]) && Runs(Step(s, actions[0]), actions[1..], s')
  }
}
