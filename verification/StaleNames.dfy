/** Two runs in which Metronome ends up with a name that is not that of the latest payload. */
module StaleNames {
  import opened Wrappers
  import opened Json
  import opened Settings
  import opened Schema
  import CM = CustomerMapper
  import opened Metronome
  import opened HandlerProgram
  import opened EventLifecycle
  import opened Protocol
  import opened SequentialWorker
  import opened CustomerNames

  /** A payload that only names one customer. */
  function NamePayload(name: string): Object {
    map["data" := JObject(map["object" := JObject(map["id" := JString("cus_1"), "name" := JString(name)])])]
  }

  lemma NamePayloadMaps(name: string)
    requires CM.Trimmed(name) && name != ""
    ensures ReadCustomer(NamePayload(name)).Some? && ReadCustomer(NamePayload(name)).value.id == "cus_1"
    ensures MappedName(NamePayload(name)) == Some(name)
  {
    var fields := map["id" := JString("cus_1"), "name" := JString(name)];
    assert DataObject(NamePayload(name)) == Some(fields);
    assert CM.Strip(name) == name;
    assert CM.CustomerRequestFor(fields).value.name == name;
  }

  /** An update that can be mapped renames the customer, or creates it when it is not mapped yet. */
  lemma UpdateBegins(payload: Object, m: Mappings)
    requires MappedName(payload).Some?
    ensures ReadCustomer(payload).Some?
    ensures var id, name := ReadCustomer(payload).value.id, MappedName(payload).value;
            Begin(CustomerUpdated, payload, m) ==
            if id in m.customers then RenameCustomer(m.customers[id], name) else CreateCustomer(id, name)
  {
    hide ReadCustomer, CM.CustomerRequestFor;
  }

  /** How a whole update that can be mapped ends. */
  lemma UpdateEnds(cfg: Settings, payload: Object, m: Mappings, r: Remote, a: Answer)
    requires MappedName(payload).Some?
    ensures ReadCustomer(payload).Some?
    ensures var id, name := ReadCustomer(payload).value.id, MappedName(payload).value;
            var ph, end := AfterReads(cfg, CustomerUpdated, payload, m), WholeEnd(cfg, CustomerUpdated, payload, m, r, a, a);
            && RemoteFrom(r, ph, a) ==
                 (if id in m.customers then RenameEffect(r, m.customers[id], name, a) else CreateCustomerEffect(r, name, a))
            && end ==
                 (if a.fault.Some? then Stop(VerdictOn(Classify(a.fault.value)))
                  else if id in m.customers then Stop(Succeeded) else Done(Succeeded, AddCustomer(id, a.newId)))
  {
    hide Begin, ReadCustomer, MappedName;
    UpdateBegins(payload, m);
  }

  const UPDATED := "customer.updated"

  /** A state with these two events, no transaction in flight, and the clock at this time. */
  predicate Shows(s: State, one: EventRow, two: EventRow, m: Mappings, r: Remote, now: real) {
    && s.tables.events == map["evt_1" := one, "evt_2" := two]
    && s.tables.mappings == m && s.remote == r && s.inflight == map[] && s.clock == now
  }

  /** The row of an update that waits for its retry, due at this time. */
  function Waiting(name: string, receivedAt: real, due: real): EventRow {
    EventRow(UPDATED, NamePayload(name), Pending, 1, Some(Retrying(MetronomeUnavailable)), receivedAt, due, None)
  }

  function ProcessedAt(name: string, attempts: int, receivedAt: real, due: real, at: real): EventRow {
    EventRow(UPDATED, NamePayload(name), Processed, attempts, None, receivedAt, due, Some(at))
  }

  const NO_MAPPINGS := Mappings(map[], map[])
  const ONE_MAPPING := Mappings(map["cus_1" := "m1"], map[])

  predicate IsName(name: string) {
    CM.Trimmed(name) && name != ""
  }

  /** The older update is claimed first, cannot reach Metronome, and is put off. */
  lemma OlderFails(world: World, s: State, older: string, newer: string) returns (steps: seq<Step>)
    requires IsName(older) && world.settings.maxAttempts >= 2
    requires Shows(s, NewEvent(UPDATED, NamePayload(older), 0.0), NewEvent(UPDATED, NamePayload(newer), 1.0), NO_MAPPINGS, NOTHING_REMOTE, 1.0)
    ensures From(world, s, steps).Some?
    ensures Shows(From(world, s, steps).value, Waiting(older, 0.0, 2.0), NewEvent(UPDATED, NamePayload(newer), 1.0),
                  NO_MAPPINGS, NOTHING_REMOTE, 1.0)
  {
    hide From, WholeEnd, AfterReads, RemoteFrom, MappedName, NamePayload;
    var a := Answer("m1", Some(NoConnection), false);
    NamePayloadMaps(older);
    UpdateEnds(world.settings, NamePayload(older), NO_MAPPINGS, NOTHING_REMOTE, a);
    assert KindOf(UPDATED) == CustomerUpdated;
    assert Claimable(s.tables.events, {}, s.clock, "evt_1");
    steps := AttemptAlone(world, s, "evt_1", a, a);
  }

  /** The newer one, now the oldest that is ready, creates the customer. */
  lemma NewerSucceeds(world: World, s: State, older: string, newer: string) returns (steps: seq<Step>)
    requires IsName(newer)
    requires Shows(s, Waiting(older, 0.0, 2.0), NewEvent(UPDATED, NamePayload(newer), 1.0), NO_MAPPINGS, NOTHING_REMOTE, 1.0)
    ensures From(world, s, steps).Some?
    ensures Shows(From(world, s, steps).value, Waiting(older, 0.0, 2.0), ProcessedAt(newer, 1, 1.0, 1.0, 1.0),
                  ONE_MAPPING, Remote(map["m1" := newer], []), 1.0)
  {
    hide From, WholeEnd, AfterReads, RemoteFrom, MappedName, NamePayload;
    var a := Answer("m1", None, true);
    NamePayloadMaps(newer);
    UpdateEnds(world.settings, NamePayload(newer), NO_MAPPINGS, NOTHING_REMOTE, a);
    assert KindOf(UPDATED) == CustomerUpdated;
    assert Claimable(s.tables.events, {}, s.clock, "evt_2");
    steps := AttemptAlone(world, s, "evt_2", a, a);
  }

  /** The retry of the older one renames the customer. */
  lemma OlderSucceeds(world: World, s: State, older: string, newer: string) returns (steps: seq<Step>)
    requires IsName(older)
    requires Shows(s, Waiting(older, 0.0, 2.0), ProcessedAt(newer, 1, 1.0, 1.0, 1.0), ONE_MAPPING, Remote(map["m1" := newer], []), 2.0)
    ensures From(world, s, steps).Some?
    ensures Shows(From(world, s, steps).value, ProcessedAt(older, 2, 0.0, 2.0, 2.0), ProcessedAt(newer, 1, 1.0, 1.0, 1.0),
                  ONE_MAPPING, Remote(map["m1" := older], []), 2.0)
  {
    hide From, WholeEnd, AfterReads, RemoteFrom, MappedName, NamePayload;
    var a := Answer("m2", None, true);
    NamePayloadMaps(older);
    UpdateEnds(world.settings, NamePayload(older), ONE_MAPPING, Remote(map["m1" := newer], []), a);
    assert KindOf(UPDATED) == CustomerUpdated;
    assert Claimable(s.tables.events, {}, s.clock, "evt_1");
    steps := AttemptAlone(world, s, "evt_1", a, a);
  }

  lemma NothingPlayed(world: World)
    ensures Play(world, []) == Some(START)
  {
  }

  lemma BothDelivered(world: World, older: string, newer: string) returns (steps: seq<Step>)
    ensures Play(world, steps).Some?
    ensures Shows(Play(world, steps).value, NewEvent(UPDATED, NamePayload(older), 0.0), NewEvent(UPDATED, NamePayload(newer), 1.0),
                  NO_MAPPINGS, NOTHING_REMOTE, 1.0)
  {
    hide Play, NamePayload;
    var one, tick, two := Deliver("evt_1", UPDATED, NamePayload(older)), Tick(1.0), Deliver("evt_2", UPDATED, NamePayload(newer));
    assert KindOf(UPDATED) == CustomerUpdated;
    NothingPlayed(world);
    PlayOneMore(world, [], one);
    PlayOneMore(world, [] + [one], tick);
    PlayOneMore(world, [] + [one] + [tick], two);
    steps := [] + [one] + [tick] + [two];
  }

  /** Both updates are delivered, the older one is put off, the newer one handled, and the retry is due. */
  lemma RetryIsDue(world: World, older: string, newer: string) returns (steps: seq<Step>)
    requires IsName(older) && IsName(newer) && world.settings.maxAttempts >= 2
    ensures Play(world, steps).Some?
    ensures Shows(Play(world, steps).value, Waiting(older, 0.0, 2.0), ProcessedAt(newer, 1, 1.0, 1.0, 1.0),
                  ONE_MAPPING, Remote(map["m1" := newer], []), 2.0)
  {
    hide Play, From, NamePayload;
    steps := BothDelivered(world, older, newer);
    var more := OlderFails(world, Play(world, steps).value, older, newer);
    PlayThenFrom(world, steps, more);
    steps := steps + more;
    more := NewerSucceeds(world, Play(world, steps).value, older, newer);
    PlayThenFrom(world, steps, more);
    steps := steps + more;
    PlayOneMore(world, steps, Tick(1.0));
    steps := steps + [Tick(1.0)];
  }

  /**
   The name need not be that of the latest Stripe payload. In this run the older of two updates is
   delivered and claimed first; its call fails, it is put off, the newer one is handled meanwhile, and
   then its retry succeeds: Metronome shows the older name for good.
   */
  lemma StaleUpdateWins(world: World, older: string, newer: string) returns (steps: seq<Step>)
    requires IsName(older) && IsName(newer) && older != newer && world.settings.maxAttempts >= 2
    ensures Play(world, steps).Some?
    ensures var s := Play(world, steps).value;
            && s.tables.events.Keys == {"evt_1", "evt_2"}
            && var one, two := s.tables.events["evt_1"], s.tables.events["evt_2"];
               && one.status.Processed? && two.status.Processed? && one.receivedAt < two.receivedAt
               && MappedName(one.payload) == Some(older) && MappedName(two.payload) == Some(newer)
               && ShownName(s, "cus_1") == Some(older)
  {
    hide Play, From, NamePayload, MappedName;
    NamePayloadMaps(older);
    NamePayloadMaps(newer);
    steps := RetryIsDue(world, older, newer);
    var more := OlderSucceeds(world, Play(world, steps).value, older, newer);
    PlayThenFrom(world, steps, more);
    steps := steps + more;
  }

  /** The retry of the older one renames the customer too, but its reply is lost. */
  lemma OlderReplyIsLost(world: World, s: State, older: string, newer: string) returns (steps: seq<Step>)
    requires IsName(older) && world.settings.maxAttempts >= 2
    requires Shows(s, Waiting(older, 0.0, 2.0), ProcessedAt(newer, 1, 1.0, 1.0, 1.0), ONE_MAPPING, Remote(map["m1" := newer], []), 2.0)
    ensures DrawFits(world.settings, Waiting(older, 0.0, 2.0), 0.0)
    ensures From(world, s, steps).Some?
    ensures Shows(From(world, s, steps).value,
                  Settled(world.settings, Waiting(older, 0.0, 2.0), TryAgain(MetronomeUnavailable), 2.0, 0.0),
                  ProcessedAt(newer, 1, 1.0, 1.0, 1.0), ONE_MAPPING, Remote(map["m1" := older], []), 2.0)
  {
    hide From, WholeEnd, AfterReads, RemoteFrom, MappedName, NamePayload, Settled;
    var a := Answer("m2", Some(NoConnection), true);
    NamePayloadMaps(older);
    UpdateEnds(world.settings, NamePayload(older), ONE_MAPPING, Remote(map["m1" := newer], []), a);
    assert KindOf(UPDATED) == CustomerUpdated;
    assert Claimable(s.tables.events, {}, s.clock, "evt_1");
    steps := AttemptAlone(world, s, "evt_1", a, a);
  }

  /**
   Nor need it be that of the last update handled. In this run the retry takes effect but its reply is
   lost: the newer update is the only one ever handled, the older one fails when that was its last
   attempt, and Metronome shows the older name all the same.
   */
  lemma LostReplyWins(world: World, older: string, newer: string) returns (steps: seq<Step>)
    requires IsName(older) && IsName(newer) && older != newer && world.settings.maxAttempts >= 2
    ensures Play(world, steps).Some?
    ensures var s := Play(world, steps).value;
            && s.tables.events.Keys == {"evt_1", "evt_2"} && s.inflight == map[]
            && var one, two := s.tables.events["evt_1"], s.tables.events["evt_2"];
               && two.status.Processed? && !one.status.Processed? && (world.settings.maxAttempts == 2 ==> one.status.Failed?)
               && MappedName(one.payload) == Some(older) && MappedName(two.payload) == Some(newer)
               && ShownName(s, "cus_1") == Some(older)
  {
    hide Play, From, NamePayload, MappedName;
    NamePayloadMaps(older);
    NamePayloadMaps(newer);
    steps := RetryIsDue(world, older, newer);
    var more := OlderReplyIsLost(world, Play(world, steps).value, older, newer);
    PlayThenFrom(world, steps, more);
    steps := steps + more;
  }
}
