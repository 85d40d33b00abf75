/** What happens when the keys of two subscriptions collide: one of their events may lose insert races for ever. */
module EndlessRaces {
  import opened Wrappers
  import opened Json
  import opened Settings
  import opened Schema
  import opened SubscriptionMapper
  import opened Metronome
  import opened HandlerProgram
  import opened EventLifecycle
  import opened Protocol
  import opened Invariants
  import opened InsertRaces
  import opened SequentialWorker
  import opened CustomerNames
  import opened StaleNames

  const CREATED := "customer.subscription.created"

  /** A subscription of customer cus_1 with one item of this price. */
  function SubscriptionFields(id: string, price: string): Object {
    var item := JObject(map["price" := JObject(map["id" := JString(price)])]);
    map["id" := JString(id), "customer" := JString("cus_1"), "current_period_start" := JInt(0),
        "items" := JObject(map["data" := JList([item])])]
  }

  function SubscriptionPayload(id: string, price: string): Object {
    map["data" := JObject(map["object" := JObject(SubscriptionFields(id, price))])]
  }

  lemma PayloadAsks(id: string, price: string)
    requires id != "" && price != ""
    ensures ReadSubscription(SubscriptionPayload(id, price)) == Some(Subscription(id, "cus_1", SubscriptionFields(id, price)))
    ensures ExtractSinglePriceId(SubscriptionFields(id, price)) == Some(price)
    ensures DemandOf(SubscriptionFields(id, price)) == Ok(Demand(id, price, 0))
  {
    var fields := SubscriptionFields(id, price);
    assert DataObject(SubscriptionPayload(id, price)) == Some(fields);
    assert Get(fields, "current_period_start") == JInt(0);
    assert RequireSingleItem(fields).Ok? && RequireSingleItem(fields).value.0 == price;
    assert RawPeriodStart(fields, RequireSingleItem(fields).value.1) == Some(0);
    assert FloorHour(0) == 0;
  }

  /** The contract that answers a subscription: the one there is, or else the new one. */
  function ContractOf(r: Remote, customer: string, key: string, newId: string): string {
    match Find(r.contracts, customer, key)
    case Some(id) => id
    case None => newId
  }

  /** How a whole attempt at such a payload ends, when Metronome answers. */
  lemma SubscriptionEnds(cfg: Settings, id: string, price: string, m: Mappings, r: Remote, a: Answer)
    requires id != "" && price != "" && price in cfg.tiers && a.fault.None?
    requires "cus_1" in m.customers && id !in m.subscriptions
    ensures var payload, customer, key := SubscriptionPayload(id, price), m.customers["cus_1"], UniquenessKey(id, price, 0);
            && RemoteFrom(r, AfterReads(cfg, SubscriptionCreated, payload, m), a) ==
                 (if Find(r.contracts, customer, key).Some? then r
                  else r.(contracts := r.contracts + [Contract(a.newId, customer, key)]))
            && WholeEnd(cfg, SubscriptionCreated, payload, m, r, a, a) ==
                 Done(Succeeded, AddSubscription(id, SubscriptionRow("cus_1", ContractOf(r, customer, key, a.newId), cfg.tiers[price].name, price)))
  {
    hide SubscriptionPayload, SubscriptionFields, ReadSubscription, ExtractSinglePriceId, DemandOf, ContractRequestFor, UniquenessKey, Find;
    PayloadAsks(id, price);
  }

  // ----- The run -----

  /** A state with these three events, no transaction in flight, at time zero. */
  predicate Holds(s: State, one: EventRow, two: EventRow, three: EventRow, m: Mappings, r: Remote) {
    && s.tables == Tables(map["evt_1" := one, "evt_2" := two, "evt_3" := three], m)
    && s.remote == r && s.inflight == map[] && s.clock == 0.0
  }

  function NewUpdate(): EventRow {
    NewEvent(UPDATED, NamePayload("n"), 0.0)
  }

  function NewSubscription(id: string, price: string): EventRow {
    NewEvent(CREATED, SubscriptionPayload(id, price), 0.0)
  }

  /** The row handled at the first attempt. */
  function AtOnce(row: EventRow): EventRow {
    row.(status := Processed, attempts := 1, processedAt := Some(0.0))
  }

  const MAPPED := Mappings(map["cus_1" := "m1"], map[])
  const NAMED := Remote(map["m1" := "n"], [])

  function Linked(cfg: Settings, id: string, price: string): Mappings
    requires price in cfg.tiers
  {
    Mappings(map["cus_1" := "m1"], map[id := SubscriptionRow("cus_1", "k1", cfg.tiers[price].name, price)])
  }

  function Contracted(id: string, price: string): Remote {
    Remote(map["m1" := "n"], [Contract("k1", "m1", UniquenessKey(id, price, 0))])
  }

  /** The customer and the first subscription are handled; the second subscription waits. */
  predicate Blocked(cfg: Settings, state: State, s: string, p: string, t: string, q: string) {
    && p in cfg.tiers
    && Holds(state, AtOnce(NewUpdate()), AtOnce(NewSubscription(s, p)), NewSubscription(t, q), Linked(cfg, s, p), Contracted(s, p))
  }

  /** Two subscriptions of one customer, with tiers for their prices, under keys that collide. */
  ghost predicate Collide(world: World, s: string, p: string, t: string, q: string) {
    && s != "" && t != "" && p != "" && q != "" && s != t
    && UniquenessKey(s, p, 0) == UniquenessKey(t, q, 0)
    && p in world.settings.tiers && q in world.settings.tiers
    && world.owner(s) == "cus_1" && world.owner(t) == "cus_1"
  }

  lemma AllDelivered(world: World, s: string, p: string, t: string, q: string) returns (run: seq<Step>)
    requires Collide(world, s, p, t, q)
    ensures Play(world, run).Some?
    ensures Holds(Play(world, run).value, NewUpdate(), NewSubscription(s, p), NewSubscription(t, q), NO_MAPPINGS, NOTHING_REMOTE)
  {
    hide Play, SubscriptionPayload, NamePayload, SubscriptionFields, UniquenessKey;
    var one, two := Deliver("evt_1", UPDATED, NamePayload("n")), Deliver("evt_2", CREATED, SubscriptionPayload(s, p));
    var three := Deliver("evt_3", CREATED, SubscriptionPayload(t, q));
    assert KindOf(UPDATED) == CustomerUpdated && KindOf(CREATED) == SubscriptionCreated;
    PayloadAsks(s, p);
    PayloadAsks(t, q);
    NothingPlayed(world);
    PlayOneMore(world, [], one);
    PlayOneMore(world, [] + [one], two);
    PlayOneMore(world, [] + [one] + [two], three);
    run := [] + [one] + [two] + [three];
  }

  lemma UpdateIsHandled(world: World, state: State, two: EventRow, three: EventRow) returns (steps: seq<Step>)
    requires Holds(state, NewUpdate(), two, three, NO_MAPPINGS, NOTHING_REMOTE)
    requires two.receivedAt == 0.0 && three.receivedAt == 0.0
    ensures From(world, state, steps).Some?
    ensures Holds(From(world, state, steps).value, AtOnce(NewUpdate()), two, three, MAPPED, NAMED)
  {
    hide From, WholeEnd, AfterReads, RemoteFrom, MappedName, NamePayload;
    var a := Answer("m1", None, true);
    NamePayloadMaps("n");
    UpdateEnds(world.settings, NamePayload("n"), NO_MAPPINGS, NOTHING_REMOTE, a);
    assert KindOf(UPDATED) == CustomerUpdated;
    assert Claimable(state.tables.events, {}, state.clock, "evt_1");
    steps := AttemptAlone(world, state, "evt_1", a, a);
  }

  lemma FirstIsHandled(world: World, state: State, s: string, p: string, three: EventRow) returns (steps: seq<Step>)
    requires s != "" && p != "" && p in world.settings.tiers && three.receivedAt == 0.0
    requires Holds(state, AtOnce(NewUpdate()), NewSubscription(s, p), three, MAPPED, NAMED)
    ensures From(world, state, steps).Some?
    ensures Holds(From(world, state, steps).value, AtOnce(NewUpdate()), AtOnce(NewSubscription(s, p)), three,
                  Linked(world.settings, s, p), Contracted(s, p))
  {
    hide From, WholeEnd, AfterReads, RemoteFrom, SubscriptionPayload, NamePayload, UniquenessKey;
    var a := Answer("k1", None, true);
    SubscriptionEnds(world.settings, s, p, MAPPED, NAMED, a);
    assert KindOf(CREATED) == SubscriptionCreated;
    assert Claimable(state.tables.events, {}, state.clock, "evt_2");
    steps := AttemptAlone(world, state, "evt_2", a, a);
  }

  lemma ReceivedAtZero(id: string, price: string)
    ensures NewSubscription(id, price).receivedAt == 0.0
  {
  }

  lemma SecondIsBlocked(world: World, s: string, p: string, t: string, q: string) returns (run: seq<Step>)
    requires Collide(world, s, p, t, q)
    ensures Play(world, run).Some? && Blocked(world.settings, Play(world, run).value, s, p, t, q)
  {
    hide Play, From, NewSubscription, NewUpdate, UniquenessKey;
    assert NewSubscription(s, p).receivedAt == 0.0 && NewSubscription(t, q).receivedAt == 0.0 by { ReceivedAtZero(s, p); ReceivedAtZero(t, q); }
    run := AllDelivered(world, s, p, t, q);
    var more := UpdateIsHandled(world, Play(world, run).value, NewSubscription(s, p), NewSubscription(t, q));
    PlayThenFrom(world, run, more);
    run := run + more;
    more := FirstIsHandled(world, Play(world, run).value, s, p, NewSubscription(t, q));
    PlayThenFrom(world, run, more);
    run := run + more;
  }

  // ----- The race that is lost again and again -----

  lemma {:induction false} LostRacesGrow(world: World, run: seq<Step>, steps: seq<Step>)
    requires Play(world, run + steps).Some?
    ensures Play(world, run).Some? && LostRaces(world, run) <= LostRaces(world, run + steps)
  {
    hide Next, LosesRace;
    if steps == [] {
      assert run + steps == run;
    } else {
      assert (run + steps)[..|run + steps| - 1] == run + steps[..|steps| - 1];
      LostRacesGrow(world, run, steps[..|steps| - 1]);
    }
  }

  /** The attempt at the second subscription recovers the contract of the first and may not link it. */
  lemma SecondConflicts(cfg: Settings, s: string, p: string, t: string, q: string, a: Answer)
    requires s != "" && t != "" && q != "" && s != t && p in cfg.tiers && q in cfg.tiers && a.fault.None?
    requires UniquenessKey(s, p, 0) == UniquenessKey(t, q, 0)
    ensures var payload := SubscriptionPayload(t, q);
            && RemoteFrom(Contracted(s, p), AfterReads(cfg, SubscriptionCreated, payload, Linked(cfg, s, p)), a) == Contracted(s, p)
            && Violates(Linked(cfg, s, p), WholeEnd(cfg, SubscriptionCreated, payload, Linked(cfg, s, p), Contracted(s, p), a, a).add)
  {
    hide WholeEnd, AfterReads, RemoteFrom, SubscriptionPayload, UniquenessKey, Find;
    SubscriptionEnds(cfg, t, q, Linked(cfg, s, p), Contracted(s, p), a);
    assert Contracted(s, p).contracts[0] in Contracted(s, p).contracts;
    FoundIsUnique(Contracted(s, p).contracts, Contracted(s, p).contracts[0]);
    assert Linked(cfg, s, p).subscriptions[s].contract == "k1";
  }

  lemma OneRaceMore(world: World, run: seq<Step>, step: Step)
    requires Play(world, run).Some? && Play(world, run + [step]).Some? && LosesRace(Play(world, run).value, step)
    ensures LostRaces(world, run + [step]) == LostRaces(world, run) + 1
  {
    LosersOneMore(world, run, step);
  }

  lemma LosesAgain(world: World, run: seq<Step>, s: string, p: string, t: string, q: string) returns (longer: seq<Step>)
    requires Collide(world, s, p, t, q)
    requires Play(world, run).Some? && Blocked(world.settings, Play(world, run).value, s, p, t, q)
    ensures Play(world, longer).Some? && Blocked(world.settings, Play(world, longer).value, s, p, t, q)
    ensures LostRaces(world, longer) >= LostRaces(world, run) + 1
  {
    hide Play, From, PreparingSteps, WholeEnd, WholeInputs, AfterReads, RemoteFrom, Violates, UniquenessKey, SubscriptionPayload, NamePayload, LostRaces;
    var state, a := Play(world, run).value, Answer("k2", None, true);
    assert KindOf(CREATED) == SubscriptionCreated;
    assert Claimable(state.tables.events, {}, state.clock, "evt_3");
    assert Locked(state) == {};
    SecondConflicts(world.settings, s, p, t, q, a);
    Prepares(world, state, 0, "evt_3", a, a, 0.0);
    NoDrawFits(world.settings, state.tables.events["evt_3"]);
    var steps := PreparingSteps(world, state, 0, "evt_3", a, a, 0.0);
    PlayThenFrom(world, run, steps);
    LostRacesGrow(world, run, steps);
    longer := run + steps + [Finish(0, 0.0)];
    PlayOneMore(world, run + steps, Finish(0, 0.0));
    OneRaceMore(world, run + steps, Finish(0, 0.0));
  }

  /** Any number of races is lost, while the event stays pending without having been charged for an attempt. */
  lemma {:induction false} LosesForEver(world: World, s: string, p: string, t: string, q: string, n: nat) returns (run: seq<Step>)
    requires Collide(world, s, p, t, q)
    ensures Play(world, run).Some? && Blocked(world.settings, Play(world, run).value, s, p, t, q)
    ensures LostRaces(world, run) >= n
  {
    if n == 0 {
      run := SecondIsBlocked(world, s, p, t, q);
    } else {
      var shorter := LosesForEver(world, s, p, t, q, n - 1);
      run := LosesAgain(world, shorter, s, p, t, q);
    }
  }

  // ----- Exactly when -----

  ghost predicate OnlyThese(events: Events, s: string, t: string) {
    forall e :: e in events && KindOf(events[e].eventType).SubscriptionCreated? && ReadSubscription(events[e].payload).Some? ==>
      ReadSubscription(events[e].payload).value.id == s || ReadSubscription(events[e].payload).value.id == t
  }

  /** A run about these two subscriptions that loses more races than it has events. */
  ghost predicate LosesTooMany(world: World, steps: seq<Step>, s: string, t: string) {
    && Play(world, steps).Some? && OnlyThese(Play(world, steps).value.tables.events, s, t)
    && LostRaces(world, steps) > |Play(world, steps).value.tables.events|
  }

  lemma TwoApart(events: Events, s: string, t: string)
    requires OnlyThese(events, s, t) && KeysApart(s, t)
    ensures AllApart(events)
  {
  }

  lemma SomeCollision(s: string, t: string) returns (world: World, p: string, q: string)
    requires s != "" && t != "" && !KeysApart(s, t)
    ensures Collide(world, s, p, t, q)
  {
    KeysCollideIff(s, t);
    var g: int, h: int;
    p, q, g, h :| p != "" && q != "" && UniquenessKey(s, p, g) == UniquenessKey(t, q, h);
    KeysAgreeBeforeHour(s, p, g, t, q, h);
    KeysAgreeBeforeHour(s, p, 0, t, q, 0);
    var tier := Tier("tier", 1, "product", "credit", Monthly);
    world := World(RawSettings(1, 1.0, 1.0, "", map[p := tier, q := tier]), (id: string) => "cus_1");
  }

  lemma FewLosers(losers: set<string>, events: Events)
    requires losers <= events.Keys
    ensures |losers| <= |events|
  {
    SubsetIsSmaller(losers, events.Keys);
    assert |events.Keys| == |events|;
  }

  lemma CountThree(events: Events)
    requires events.Keys == {"evt_1", "evt_2", "evt_3"}
    ensures |events| == 3
  {
    assert |events| == |events.Keys|;
  }

  lemma RowsAsk(id: string, price: string)
    requires id != "" && price != ""
    ensures var row := NewSubscription(id, price);
            && !KindOf(NewUpdate().eventType).SubscriptionCreated?
            && ReadSubscription(row.payload).Some? && ReadSubscription(row.payload).value.id == id
  {
    hide SubscriptionPayload, NamePayload, ReadSubscription;
    PayloadAsks(id, price);
    assert KindOf(UPDATED) == CustomerUpdated;
  }

  lemma BlockedIsOnlyThese(cfg: Settings, state: State, s: string, p: string, t: string, q: string)
    requires s != "" && t != "" && p != "" && q != "" && Blocked(cfg, state, s, p, t, q)
    ensures OnlyThese(state.tables.events, s, t) && |state.tables.events| == 3
  {
    hide NewSubscription, NewUpdate, KindOf, ReadSubscription;
    RowsAsk(s, p);
    RowsAsk(t, q);
    CountThree(state.tables.events);
  }

  /**
   Two subscriptions can lose more races than there are events, in some run and under some settings,
   exactly when their keys are not apart; and then they can lose any number.
   */
  lemma RacesAreEndlessIff(s: string, t: string)
    requires s != "" && t != ""
    ensures (exists world: World, steps: seq<Step> :: LosesTooMany(world, steps, s, t)) <==> !KeysApart(s, t)
  {
    if KeysApart(s, t) {
      forall world: World, steps: seq<Step> | LosesTooMany(world, steps, s, t) ensures false {
        TwoApart(Play(world, steps).value.tables.events, s, t);
        EveryEventLosesOneRaceAtMost(world, steps);
        FewLosers(Losers(world, steps), Play(world, steps).value.tables.events);
      }
    } else {
      var world, p, q := SomeCollision(s, t);
      var steps := LosesForEver(world, s, p, t, q, 4);
      BlockedIsOnlyThese(world.settings, Play(world, steps).value, s, p, t, q);
      assert LosesTooMany(world, steps, s, t);
    }
  }
}
