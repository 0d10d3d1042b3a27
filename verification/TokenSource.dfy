/**
 `TokenSource`: a cache of one access token, fetched by a command. Callers that come while the command runs share it; a
 rejected token starts a new generation, and what an earlier generation fetches is no longer kept.

 `Memory` holds the fields. They change when `resolve` is entered, when a command has come back, when its caller tidies up,
 and in `invalidate`; the environment may be another one each time. The results are about every sequence of these events.
 */
module TokenSource {
  import opened Wrappers
  import Strings

  /** The variables that are read: a token set by hand, and the command line joined into a key. */
  datatype Env = Env(token: Option<string>, key: string)

  /** `id` stands for the identity of the record and of its promise. */
  datatype Pending = Pending(key: string, generation: nat, id: nat)

  datatype Memory = Memory(cachedFor: Option<string>, cachedToken: Option<string>, pending: Option<Pending>, generation: nat)

  /** What a caller gets: a token now, or the outcome of command `id`, which `Start` has only just started. */
  datatype Answer = Given(token: string) | Held(token: string) | Wait(id: nat) | Start(id: nat)

  function Configured(env: Env): string {
    if env.token.Some? then Strings.Trim(env.token.value) else ""
  }

  function Cached(m: Memory, key: string): Option<string> {
    if m.cachedFor == Some(key) then m.cachedToken else None
  }

  predicate Known(m: Memory, key: string) {
    Cached(m, key).Some? && Cached(m, key).value != ""
  }

  predicate Shared(m: Memory, key: string) {
    m.pending.Some? && m.pending.value.key == key && m.pending.value.generation == m.generation
  }

  /** `id` is the identity of the command in case one is started. */
  function ResolveAnswer(m: Memory, env: Env, id: nat): Answer {
    if Configured(env) != "" then Given(Configured(env))
    else if Known(m, env.key) then Held(Cached(m, env.key).value)
    else if Shared(m, env.key) then Wait(m.pending.value.id)
    else Start(id)
  }

  function AfterResolve(m: Memory, env: Env, id: nat): Memory {
    if ResolveAnswer(m, env, id).Start? then m.(pending := Some(Pending(env.key, m.generation, id))) else m
  }

  /** The token that a command has printed, if it succeeded. */
  function Printed(status: Option<int>, stdout: string): Option<string> {
    var token := Strings.Trim(stdout);
    if status != Some(0) || token == "" then None else Some(token)
  }

  /** The command started for `key` in `generation` has come back; `now` is the key as it is by then. */
  function AfterCommand(m: Memory, key: string, generation: nat, now: string, token: Option<string>): Memory {
    if token.Some? && m.generation == generation && now == key then m.(cachedFor := Some(key), cachedToken := token) else m
  }

  function AfterTidy(m: Memory, id: nat): Memory {
    if m.pending.Some? && m.pending.value.id == id then m.(pending := None) else m
  }

  predicate Accepted(m: Memory, rejected: Option<string>, key: string) {
    rejected == None || Cached(m, key) == rejected
  }

  function AfterInvalidate(m: Memory, rejected: Option<string>, key: string): Memory {
    if Accepted(m, rejected, key) then Memory(None, None, None, m.generation + 1) else m
  }

  /** The class, with `resolve` cut at its `await`s. */
  class Source {
    var cachedFor: Option<string>
    var cachedToken: Option<string>
    var pending: Option<Pending>
    var generation: nat

    function Fields(): Memory
      reads this
    {
      Memory(cachedFor, cachedToken, pending, generation)
    }

    constructor ()
      ensures Fields() == Memory(None, None, None, 0)
    {
      cachedFor, cachedToken, pending, generation := None, None, None, 0;
    }

    method Cache(token: Option<string>, key: string)
      modifies this`cachedFor, this`cachedToken
      ensures cachedFor == (if token.Some? then Some(key) else None) && cachedToken == token
    {
      cachedFor := if token == None then None else Some(key);
      cachedToken := token;
    }

    method Resolve(env: Env, id: nat) returns (answer: Answer)
      modifies this`pending
      ensures answer == ResolveAnswer(old(Fields()), env, id) && Fields() == AfterResolve(old(Fields()), env, id)
    {
      var configured := Configured(env);
      if configured != "" {
        return Given(configured);
      }
      var cached := Cached(Fields(), env.key);
      if cached.Some? && cached.value != "" {
        return Held(cached.value);
      }
      if pending.Some? && pending.value.key == env.key && pending.value.generation == generation {
        return Wait(pending.value.id);
      }
      pending := Some(Pending(env.key, generation, id));
      answer := Start(id);
    }

    method CommandDone(key: string, startedIn: nat, now: string, status: Option<int>, stdout: string) returns (token: Option<string>)
      modifies this`cachedFor, this`cachedToken
      ensures token == Printed(status, stdout) && Fields() == AfterCommand(old(Fields()), key, startedIn, now, token)
    {
      var printed := Strings.Trim(stdout);
      if status != Some(0) || |printed| == 0 {
        return None;
      }
      if generation == startedIn && now == key {
        Cache(Some(printed), key);
      }
      token := Some(printed);
    }

    method Tidy(id: nat)
      modifies this`pending
      ensures Fields() == AfterTidy(old(Fields()), id)
    {
      if pending.Some? && pending.value.id == id {
        pending := None;
      }
    }

    method Invalidate(rejected: Option<string>, key: string)
      modifies this
      ensures Fields() == AfterInvalidate(old(Fields()), rejected, key)
      ensures if rejected == None || (old(cachedFor) == Some(key) && old(cachedToken) == rejected)
        then cachedFor == None && cachedToken == None && pending == None && generation == old(generation) + 1
        else Fields() == old(Fields())
    {
      if rejected == None || Cached(Fields(), key) == rejected {
        generation := generation + 1;
        Cache(None, key);
        pending := None;
      }
    }
  }

  // ---------------------------------------------------------------------------------------------
  // Every sequence of events
  // ---------------------------------------------------------------------------------------------

  datatype Command = Command(key: string, generation: nat, done: bool, token: Option<string>)

  /** The fields, every command ever started, and the command the cached token came from. */
  datatype State = State(memory: Memory, commands: seq<Command>, source: Option<nat>)

  datatype Event =
    | Resolved(env: Env)
    | Returned(id: nat, now: string, status: Option<int>, stdout: string)
    | Tidied(id: nat)
    | Invalidated(rejected: Option<string>, key: string)

  function Initial(): State {
    State(Memory(None, None, None, 0), [], None)
  }

  /** What can happen: a command comes back once, and its caller tidies up after that. */
  predicate Enabled(s: State, e: Event) {
    match e
    case Resolved(_) => true
    case Returned(id, _, _, _) => id < |s.commands| && !s.commands[id].done
    case Tidied(id) => id < |s.commands| && s.commands[id].done
    case Invalidated(_, _) => true
  }

  function AnswerOf(s: State, env: Env): Answer {
    ResolveAnswer(s.memory, env, |s.commands|)
  }

  /** An event that cannot happen does nothing, so that the results are about every sequence of events. */
  function Step(s: State, e: Event): State {
    if !Enabled(s, e) then s else
    match e
    case Resolved(env) =>
      State(AfterResolve(s.memory, env, |s.commands|),
            if AnswerOf(s, env).Start? then s.commands + [Command(env.key, s.memory.generation, false, None)] else s.commands,
            s.source)
    case Returned(id, now, status, stdout) =>
      var c := s.commands[id];
      var token := Printed(status, stdout);
      var memory := AfterCommand(s.memory, c.key, c.generation, now, token);
      State(memory, s.commands[id := c.(done := true, token := token)], if Refreshes(s, c, now, token) then Some(id) else s.source)
    case Tidied(id) => s.(memory := AfterTidy(s.memory, id))
    case Invalidated(rejected, key) =>
      if Accepted(s.memory, rejected, key) then State(AfterInvalidate(s.memory, rejected, key), s.commands, None) else s
  }

  /** The token goes into the cache. */
  predicate Refreshes(s: State, c: Command, now: string, token: Option<string>) {
    token.Some? && s.memory.generation == c.generation && now == c.key
  }

  function After(events: seq<Event>): State {
    if events == [] then Initial() else Step(After(events[..|events| - 1]), events[|events| - 1])
  }

  /** What always holds: the pending record is of this generation, and the cached token came from a command of it. */
  ghost predicate Sound(s: State) {
    && (forall c :: c in s.commands ==> c.generation <= s.memory.generation)
    && (s.memory.pending.Some? ==> PendingIs(s, s.memory.pending.value))
    && (s.memory.cachedToken.Some? <==> s.memory.cachedFor.Some?)
    && (s.memory.cachedToken.Some? <==> s.source.Some?)
    && (s.source.Some? ==> CameFrom(s, s.source.value))
  }

  predicate PendingIs(s: State, p: Pending) {
    && p.id < |s.commands|
    && s.commands[p.id].key == p.key && s.commands[p.id].generation == p.generation == s.memory.generation
  }

  predicate CameFrom(s: State, id: nat) {
    && id < |s.commands| && s.commands[id].done
    && s.commands[id].generation == s.memory.generation
    && s.memory.cachedFor == Some(s.commands[id].key) && s.memory.cachedToken == s.commands[id].token
    && s.commands[id].token.Some? && s.commands[id].token.value != ""
  }

  lemma StepKeepsSound(s: State, e: Event)
    requires Sound(s)
    ensures Sound(Step(s, e))
  {
    var s' := Step(s, e);
    assert forall c :: c in s.commands ==> c.generation <= s'.memory.generation;
    if e.Returned? && Enabled(s, e) {
      assert s.commands[e.id] in s.commands;
    }
  }

  lemma {:induction false} EveryRunIsSound(events: seq<Event>)
    ensures Sound(After(events))
  {
    if events != [] {
      EveryRunIsSound(events[..|events| - 1]);
      StepKeepsSound(After(events[..|events| - 1]), events[|events| - 1]);
    }
  }

  // ---------------------------------------------------------------------------------------------
  // Nothing from before an invalidation
  // ---------------------------------------------------------------------------------------------

  /** The command whose token a caller is given, now or later. */
  function Origin(s: State, env: Env): Option<nat> {
    match AnswerOf(s, env)
    case Given(_) => None
    case Held(_) => s.source
    case Wait(id) => Some(id)
    case Start(id) => Some(id)
  }

  /** Commands keep what they were started with, and generations only grow. */
  lemma {:induction false} HistoryStays(events: seq<Event>, n: nat)
    requires n <= |events|
    ensures var s, s' := After(events[..n]), After(events);
      && s.memory.generation <= s'.memory.generation && |s.commands| <= |s'.commands|
      && (forall c :: 0 <= c < |s.commands| ==> s'.commands[c].key == s.commands[c].key && s'.commands[c].generation == s.commands[c].generation)
    decreases |events|
  {
    if n == |events| {
      assert events[..n] == events;
    } else {
      var past := events[..|events| - 1];
      HistoryStays(past, n);
      assert past[..n] == events[..n];
    }
  }

  /**
   Main result. Once an invalidation was accepted, the token of a command started before it is neither in the cache nor
   given to a caller who comes later, whenever that command comes back.
   */
  lemma NothingStale(events: seq<Event>, j: nat, command: nat, env: Env)
    requires j < |events|
    requires events[j].Invalidated? && Accepted(After(events[..j]).memory, events[j].rejected, events[j].key)
    requires command < |After(events[..j]).commands|
    ensures After(events).source != Some(command) && Origin(After(events), env) != Some(command)
  {
    var before := After(events[..j]);
    var s := After(events);
    assert events[..j + 1][..j] == events[..j];
    EveryRunIsSound(events[..j]);
    assert before.commands[command] in before.commands;
    HistoryStays(events, j + 1);
    EveryRunIsSound(events);
    assert s.commands[command].generation < s.memory.generation;
  }

  /** Callers get a token of this generation that was fetched for the key they ask with. */
  lemma GivenForTheKey(events: seq<Event>, env: Env)
    ensures var s := After(events);
      var s' := Step(s, Resolved(env));
      match AnswerOf(s, env)
      case Given(token) => token == Configured(env) != ""
      case Held(token) => s.source.Some? && s.source.value < |s.commands| && var c := s.commands[s.source.value];
        c.key == env.key && c.generation == s.memory.generation && c.token == Some(token) && token != ""
      case Wait(id) => s' == s && id < |s.commands| && s.commands[id].key == env.key && s.commands[id].generation == s.memory.generation
      case Start(id) => id == |s.commands| && s'.commands == s.commands + [Command(env.key, s.memory.generation, false, None)]
  {
    EveryRunIsSound(events);
  }

  /** A caller who asks with `key` and has set no token by hand. */
  function Asking(key: string): Env {
    Env(None, key)
  }

  /**
   Main result. Exactly the token that callers are being handed, or no token at all, invalidates: then nothing is cached or
   shared, the generation is one higher, and whoever comes next without a token of his own starts a command. Any other
   token changes nothing.
   */
  lemma InvalidatesExactly(events: seq<Event>, rejected: Option<string>, key: string, env: Env)
    ensures var s := After(events);
      var s' := Step(s, Invalidated(rejected, key));
      if rejected == None || AnswerOf(s, Asking(key)) == Held(rejected.value) then
        && s'.memory == Memory(None, None, None, s.memory.generation + 1) && s'.commands == s.commands
        && (AnswerOf(s', env).Given? || AnswerOf(s', env) == Start(|s.commands|))
      else s' == s
  {
    EveryRunIsSound(events);
  }

  /** So a token that was handed out and rejected is not handed out again: the same caller has it fetched anew. */
  lemma RejectedIsDropped(events: seq<Event>, env: Env, token: string)
    requires AnswerOf(After(events), env) == Held(token)
    ensures var s := After(events);
      var s' := Step(s, Invalidated(Some(token), env.key));
      && AnswerOf(s', env) == Start(|s.commands|) && s'.memory.generation == s.memory.generation + 1
      && s'.memory.cachedToken == None && s'.memory.pending == None
  {
    InvalidatesExactly(events, Some(token), env.key, env);
  }

  /** A token set by hand wins, without the white space around it, and nothing is run for it; a blank one does not count. */
  lemma SetByHandWins(s: State, token: string, key: string)
    ensures !Strings.Blank(token) ==>
      AnswerOf(s, Env(Some(token), key)) == Given(Strings.Trim(token)) && Step(s, Resolved(Env(Some(token), key))) == s
    ensures Strings.Blank(token) ==> AnswerOf(s, Env(Some(token), key)) == AnswerOf(s, Asking(key))
  {
  }

  /**
   A command that has come back in its generation and for the key as it is now: what it printed, without the white space
   around it, is handed out if its status is 0 and it printed something; otherwise nothing changes.
   */
  lemma PrintedIsHeld(events: seq<Event>, id: nat, key: string, status: Option<int>, stdout: string)
    requires id < |After(events).commands| && !After(events).commands[id].done && After(events).commands[id].key == key
    ensures var s := After(events);
      var s' := Step(s, Returned(id, key, status, stdout));
      && (s.commands[id].generation == s.memory.generation && status == Some(0) && !Strings.Blank(stdout) ==>
            AnswerOf(s', Asking(key)) == Held(Strings.Trim(stdout)))
      && (s.commands[id].generation != s.memory.generation || status != Some(0) || Strings.Blank(stdout) ==>
            s'.memory == s.memory && s'.source == s.source)
  {
  }

  // ---------------------------------------------------------------------------------------------
  // How many commands
  // ---------------------------------------------------------------------------------------------

  predicate InFlight(s: State, id: nat) {
    id < |s.commands| && !s.commands[id].done
  }

  /** No two commands of one generation are under way. */
  ghost predicate Single(s: State) {
    forall i: nat, j: nat :: InFlight(s, i) && InFlight(s, j) && s.commands[i].generation == s.commands[j].generation ==> i == j
  }

  /** What is under way in this generation is what callers share. */
  ghost predicate Attended(s: State) {
    forall i: nat :: InFlight(s, i) && s.commands[i].generation == s.memory.generation ==> s.memory.pending.Some? && s.memory.pending.value.id == i
  }

  function KeyOf(e: Event): Option<string> {
    match e
    case Resolved(env) => Some(env.key)
    case Returned(_, now, _, _) => Some(now)
    case Tidied(_) => None
    case Invalidated(_, key) => Some(key)
  }

  ghost predicate StableKey(events: seq<Event>, key: string) {
    forall e :: e in events && KeyOf(e).Some? ==> KeyOf(e) == Some(key)
  }

  ghost predicate ForKey(s: State, key: string) {
    forall c :: c in s.commands ==> c.key == key
  }

  lemma StepKeepsSingle(s: State, e: Event, key: string)
    requires Sound(s) && Single(s) && Attended(s) && ForKey(s, key)
    requires KeyOf(e).Some? ==> KeyOf(e).value == key
    ensures Single(Step(s, e)) && Attended(Step(s, e)) && ForKey(Step(s, e), key)
  {
    var s' := Step(s, e);
    assert forall c :: c in s'.commands ==> c.key == key;
    var n := |s.commands|;
    forall i: nat | InFlight(s', i)
      ensures i < n ==> InFlight(s, i) && s'.commands[i] == s.commands[i]
      ensures s'.commands[i].generation == s'.memory.generation ==> s'.memory.pending.Some? && s'.memory.pending.value.id == i
    {
      if i < n {
        assert InFlight(s, i) && s.commands[i] in s.commands;
        if e.Resolved? {
          if s.commands[i].generation == s.memory.generation {
            NotStartedBeside(s, e.env, i);
          }
        }
      }
    }
    forall i: nat, j: nat | InFlight(s', i) && InFlight(s', j) && s'.commands[i].generation == s'.commands[j].generation
      ensures i == j
    {
      if i == n || j == n {
        assert s'.commands[i].generation == s'.memory.generation;
      } else {
        assert InFlight(s, i) && InFlight(s, j);
      }
    }
  }

  lemma NotStartedBeside(s: State, env: Env, i: nat)
    requires Sound(s) && Attended(s) && ForKey(s, env.key) && InFlight(s, i) && s.commands[i].generation == s.memory.generation
    ensures !AnswerOf(s, env).Start?
  {
    assert s.commands[i] in s.commands;
  }

  /** Main result. As long as the key stays the same, at most one command is under way in each generation. */
  lemma {:induction false} OneCommandAtATime(events: seq<Event>, key: string)
    requires StableKey(events, key)
    ensures Single(After(events)) && Attended(After(events)) && ForKey(After(events), key)
  {
    if events != [] {
      var past := events[..|events| - 1];
      OneCommandAtATime(past, key);
      EveryRunIsSound(past);
      StepKeepsSingle(After(past), events[|events| - 1], key);
    }
  }

  /** With any keys: a second command of the same generation is started exactly if one is under way and is not shared. */
  lemma WhenNotSingle(s: State, env: Env)
    requires Sound(s) && Single(s)
    ensures !Single(Step(s, Resolved(env))) <==>
      && (exists i: nat :: InFlight(s, i) && s.commands[i].generation == s.memory.generation)
      && Configured(env) == "" && !Known(s.memory, env.key) && !Shared(s.memory, env.key)
  {
    var s' := Step(s, Resolved(env));
    var n := |s.commands|;
    assert forall i: nat :: i < n ==> (InFlight(s', i) <==> InFlight(s, i));
    if AnswerOf(s, env).Start? {
      assert InFlight(s', n) && s'.commands[n].generation == s.memory.generation;
      if i: nat :| InFlight(s, i) && s.commands[i].generation == s.memory.generation {
        assert InFlight(s', i) && i != n;
      }
    }
  }

  function Swap(): seq<Event> {
    [Resolved(Env(None, "a")), Resolved(Env(None, "b")), Resolved(Env(None, "a"))]
  }

  /** So when the key changes and changes back, the same command can run twice in a generation. */
  lemma KeyChangeRunsTwice()
    ensures InFlight(After(Swap()), 0) && InFlight(After(Swap()), 2)
    ensures After(Swap()).commands[0] == After(Swap()).commands[2]
  {
    var a, b := Resolved(Env(None, "a")), Resolved(Env(None, "b"));
    assert Swap()[..2] == [a, b] && [a, b][..1] == [a] && [a][..0] == [];
    var s1 := Step(Initial(), a);
    assert After([a]) == s1 && s1.commands == [Command("a", 0, false, None)];
    var s2 := Step(s1, b);
    assert After([a, b]) == s2 && s2.commands == s1.commands + [Command("b", 0, false, None)];
    assert After(Swap()) == Step(s2, a);
  }

  ghost predicate NoFailure(events: seq<Event>) {
    forall e :: e in events && e.Returned? ==> Printed(e.status, e.stdout).Some?
  }

  /** How many invalidations were accepted. */
  function Invalidations(events: seq<Event>): nat
  {
    if events == [] then 0 else
      var past, e := events[..|events| - 1], events[|events| - 1];
      Invalidations(past) + if e.Invalidated? && Accepted(After(past).memory, e.rejected, e.key) then 1 else 0
  }

  /** The command of this generation is under way, or its token is in the cache. */
  ghost predicate Fetched(s: State, key: string) {
    forall i :: 0 <= i < |s.commands| && s.commands[i].generation == s.memory.generation ==>
      if s.commands[i].done then Known(s.memory, key) else Shared(s.memory, key) && s.memory.pending.value.id == i
  }

  lemma StepKeepsFetched(s: State, e: Event, key: string)
    requires Sound(s) && Attended(s) && ForKey(s, key) && Fetched(s, key)
    requires (KeyOf(e).Some? ==> KeyOf(e).value == key) && (e.Returned? ==> Printed(e.status, e.stdout).Some?)
    ensures Fetched(Step(s, e), key)
  {
    var s' := Step(s, e);
    assert forall i :: 0 <= i < |s.commands| ==> s.commands[i] in s.commands;
    forall i: nat | i < |s'.commands| && s'.commands[i].generation == s'.memory.generation
      ensures if s'.commands[i].done then Known(s'.memory, key) else Shared(s'.memory, key) && s'.memory.pending.value.id == i
    {
      if i < |s.commands| {
        assert s.commands[i].generation == s'.memory.generation && s.commands[i].key == key;
        assert InFlight(s', i) ==> InFlight(s, i);
      }
    }
  }

  /** There are no more commands than generations so far. */
  predicate Counted(s: State) {
    var n := |s.commands|;
    n <= s.memory.generation + 1 && (n > 0 ==> n <= s.commands[n - 1].generation + 1)
  }

  lemma StepKeepsCounted(s: State, e: Event, key: string)
    requires Sound(s) && Fetched(s, key) && Counted(s) && (KeyOf(e).Some? ==> KeyOf(e).value == key)
    ensures Counted(Step(s, e))
    ensures Step(s, e).memory.generation == s.memory.generation + (if e.Invalidated? && Accepted(s.memory, e.rejected, e.key) then 1 else 0)
  {
    assert forall i :: 0 <= i < |s.commands| ==> s.commands[i] in s.commands;
  }

  lemma StablePast(events: seq<Event>, key: string)
    requires events != [] && StableKey(events, key) && NoFailure(events)
    ensures var past, e := events[..|events| - 1], events[|events| - 1];
      && StableKey(past, key) && NoFailure(past)
      && (KeyOf(e).Some? ==> KeyOf(e).value == key) && (e.Returned? ==> Printed(e.status, e.stdout).Some?)
  {
    assert events[|events| - 1] in events;
  }

  lemma {:induction false} FetchedOncePerGeneration(events: seq<Event>, key: string)
    requires StableKey(events, key) && NoFailure(events)
    ensures Counted(After(events)) && Fetched(After(events), key)
  {
    if events != [] {
      hide StableKey, NoFailure, Sound, Fetched, Single, Attended, ForKey, Step, Accepted, Enabled, Printed, KeyOf, Counted;
      var past := events[..|events| - 1];
      var s, e := After(past), events[|events| - 1];
      StablePast(events, key);
      FetchedOncePerGeneration(past, key);
      EveryRunIsSound(past);
      OneCommandAtATime(past, key);
      StepKeepsFetched(s, e, key);
      StepKeepsCounted(s, e, key);
    }
  }

  lemma {:induction false} GenerationCounts(events: seq<Event>)
    ensures After(events).memory.generation == Invalidations(events)
  {
    if events != [] {
      GenerationCounts(events[..|events| - 1]);
    }
  }

  /** Main result. With one key and no failing command, there is at most one command per accepted invalidation, and one more. */
  lemma OneCommandPerGeneration(events: seq<Event>, key: string)
    requires StableKey(events, key) && NoFailure(events)
    ensures |After(events).commands| <= Invalidations(events) + 1
  {
    FetchedOncePerGeneration(events, key);
    GenerationCounts(events);
  }
}
