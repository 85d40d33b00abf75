/**
 The running system: a receiver, any number of workers with one transaction each, an operator, and
 Metronome, interleaved step by step. Reads see the latest committed rows; a conflicting insert is
 found when the transaction ends and rolls all of it back.
 */
module Protocol {
  import opened Wrappers
  import opened Json
  import opened Settings
  import opened Schema
  import opened Metronome
  import opened HandlerProgram
  import opened EventLifecycle

  /** The fixed surroundings of a run: the settings, and which customer Stripe bills for a subscription. */
  datatype World = World(settings: Settings, owner: string -> string)

  /** A transaction in flight: the row it holds, as read at the claim, and how far its handler has come. */
  datatype Transaction = Transaction(id: string, row: EventRow, claimedAt: real, inputs: seq<Input>, phase: Phase)

  /** What was committed, in order; kept only to talk about runs. */
  datatype Op =
    | Received(id: string, eventType: string, payload: Object, at: real)
    | Replayed(id: string, at: real, clearProcessedAt: bool)
    | Attempted(id: string, claimedAt: real, inputs: seq<Input>, finishedAt: real, draw: real)

  /** A contract creation that was sent: for which event, to which customer, under which key. */
  datatype Request = Request(event: string, customer: string, key: string)

  type Name = nat

  datatype State = State(
    tables: Tables, remote: Remote, inflight: map<Name, Transaction>, clock: real,
    log: seq<Op>, sent: set<Request>)

  const START := State(EMPTY_TABLES, NOTHING_REMOTE, map[], 0.0, [], {})

  function Locked(s: State): set<string> {
    set w | w in s.inflight :: s.inflight[w].id
  }

  /** What Stripe is taken to guarantee: every created event of a subscription names the customer that owns it. */
  predicate Admissible(world: World, eventType: string, payload: Object) {
    KindOf(eventType).SubscriptionCreated? && ReadSubscription(payload).Some? ==>
      ReadSubscription(payload).value.customer == world.owner(ReadSubscription(payload).value.id)
  }

  datatype Step =
    | Tick(elapsed: real)
    | Deliver(id: string, eventType: string, payload: Object)
    | Claim(worker: Name, id: string)
    | ReadTables(worker: Name)
    | Call(worker: Name, answer: Answer)
    | Finish(worker: Name, draw: real)
    | Crash(worker: Name)
    | Replay(id: string, clearProcessedAt: bool)

  /** A delivery with both fields the receiver asks for; any other is refused with status 400. */
  predicate Persistable(step: Step) {
    step.Deliver? && step.id != "" && step.eventType != ""
  }

  predicate FreshIds(r: Remote, a: Answer) {
    a.newId !in r.customers && FreshContractId(r.contracts, a.newId)
  }

  // ----- The steps -----

  function Delivered(world: World, s: State, id: string, eventType: string, payload: Object): Option<State> {
    if id in s.tables.events || id == "" || eventType == "" then Some(s)
    else if !Admissible(world, eventType, payload) then None
    else
      Some(s.(tables := s.tables.(events := s.tables.events[id := NewEvent(eventType, payload, s.clock)]),
              log := s.log + [Received(id, eventType, payload, s.clock)]))
  }

  ghost function Claimed(s: State, w: Name, id: string): Option<State> {
    if w in s.inflight || !OldestClaimable(s.tables.events, Locked(s), s.clock, id) then None
    else Some(s.(inflight := s.inflight[w := Transaction(id, s.tables.events[id], s.clock, [], Start)]))
  }

  function Progressed(world: World, m: Mappings, tx: Transaction, input: Input): Transaction
    requires Accepts(tx.phase, input)
  {
    tx.(inputs := tx.inputs + [input],
        phase := Advance(world.settings, KindOf(tx.row.eventType), tx.row.payload, m, tx.phase, input))
  }

  function AfterReading(world: World, s: State, w: Name): Option<State> {
    if w !in s.inflight || !Reading(s.inflight[w].phase) then None
    else Some(s.(inflight := s.inflight[w := Progressed(world, s.tables.mappings, s.inflight[w], Read)]))
  }

  function Noted(sent: set<Request>, tx: Transaction): set<Request> {
    if tx.phase.CreateContract?
    then sent + {Request(tx.id, tx.phase.request.customerId, tx.phase.request.uniquenessKey)}
    else sent
  }

  function AfterCall(world: World, s: State, w: Name, a: Answer): Option<State> {
    if || w !in s.inflight || !Calling(s.inflight[w].phase) || !FreshIds(s.remote, a)
       || (s.inflight[w].phase.CreateContract? && !NotAConflict(a))
    then None
    else
      var tx := s.inflight[w];
      var (remote, reply) := Exchange(s.remote, tx.phase, a);
      Some(s.(remote := remote, sent := Noted(s.sent, tx),
              inflight := s.inflight[w := Progressed(world, s.tables.mappings, tx, Heard(reply))]))
  }

  function RolledBack(s: State, w: Name): State {
    s.(inflight := s.inflight - {w})
  }

  predicate Conflicts(s: State, w: Name)
    requires w in s.inflight && s.inflight[w].phase.Done?
  {
    Violates(s.tables.mappings, s.inflight[w].phase.add)
  }

  function Committed(world: World, s: State, w: Name, draw: real): State
    requires w in s.inflight && s.inflight[w].phase.Done? && DrawFits(world.settings, s.inflight[w].row, draw)
  {
    var tx := s.inflight[w];
    var row := Settled(world.settings, tx.row, tx.phase.verdict, s.clock, draw);
    s.(tables := Tables(s.tables.events[tx.id := row], Inserted(s.tables.mappings, tx.phase.add)),
       inflight := s.inflight - {w},
       log := s.log + [Attempted(tx.id, tx.claimedAt, tx.inputs, s.clock, draw)])
  }

  function Finished(world: World, s: State, w: Name, draw: real): Option<State> {
    if || w !in s.inflight || !s.inflight[w].phase.Done?
       || !DrawFits(world.settings, s.inflight[w].row, draw) then None
    else if Conflicts(s, w) then Some(RolledBack(s, w))
    else Some(Committed(world, s, w, draw))
  }

  /** The operator's update waits for a held row, and touches any row that exists. */
  function AfterReplay(s: State, id: string, clearProcessedAt: bool): Option<State> {
    if id !in s.tables.events || id in Locked(s) then None
    else
      Some(s.(tables := s.tables.(events := s.tables.events[id := Requeued(s.tables.events[id], s.clock, clearProcessedAt)]),
              log := s.log + [Replayed(id, s.clock, clearProcessedAt)]))
  }

  ghost function Next(world: World, s: State, step: Step): Option<State> {
    match step
    case Tick(elapsed) => if elapsed < 0.0 then None else Some(s.(clock := s.clock + elapsed))
    case Deliver(id, eventType, payload) => Delivered(world, s, id, eventType, payload)
    case Claim(w, id) => Claimed(s, w, id)
    case ReadTables(w) => AfterReading(world, s, w)
    case Call(w, a) => AfterCall(world, s, w, a)
    case Finish(w, draw) => Finished(world, s, w, draw)
    case Crash(w) => if w in s.inflight then Some(RolledBack(s, w)) else None
    case Replay(id, clear) => AfterReplay(s, id, clear)
  }

  /** The state after a run; no value when one of its steps is not possible. */
  ghost function Play(world: World, steps: seq<Step>): Option<State> {
    if steps == [] then Some(START) else
      var before := Play(world, steps[..|steps| - 1]);
      if before.None? then None else Next(world, before.value, steps[|steps| - 1])
  }

  lemma PlayOneMore(world: World, steps: seq<Step>, step: Step)
    ensures Play(world, steps + [step]) ==
            var before := Play(world, steps);
            if before.None? then None else Next(world, before.value, step)
  {
    assert (steps + [step])[..|steps|] == steps;
  }

  /** The state after these steps, taken from any state. */
  ghost function From(world: World, s: State, steps: seq<Step>): Option<State> {
    if steps == [] then Some(s) else
      var before := From(world, s, steps[..|steps| - 1]);
      if before.None? then None else Next(world, before.value, steps[|steps| - 1])
  }

  lemma FromOneMore(world: World, s: State, steps: seq<Step>, step: Step)
    ensures From(world, s, steps + [step]) ==
            var before := From(world, s, steps);
            if before.None? then None else Next(world, before.value, step)
  {
    assert (steps + [step])[..|steps|] == steps;
  }

  /** Steps taken from a state that a run has reached continue the run. */
  lemma {:induction false} PlayThenFrom(world: World, run: seq<Step>, steps: seq<Step>)
    requires Play(world, run).Some?
    ensures Play(world, run + steps) == From(world, Play(world, run).value, steps)
  {
    if steps == [] {
      assert run + steps == run;
    } else {
      var most := steps[..|steps| - 1];
      PlayThenFrom(world, run, most);
      assert (run + steps)[..|run + steps| - 1] == run + most;
    }
  }

  /** A step that makes a committed attempt. */
  ghost predicate CommitsAttempt(s: State, step: Step) {
    && step.Finish? && step.worker in s.inflight && s.inflight[step.worker].phase.Done?
    && !Conflicts(s, step.worker)
  }
}
