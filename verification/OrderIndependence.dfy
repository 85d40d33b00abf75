/** What a drained queue has produced does not depend on the order in which anything was handled. */
module OrderIndependence {
  import opened Wrappers
  import opened Settings
  import opened Schema
  import opened HandlerProgram
  import opened Protocol
  import opened Invariants

  /** No event is pending, none ran out of attempts, and Metronome rejected none. */
  ghost predicate CleanlyDrained(events: Events) {
    forall id :: id in events ==>
      && !events[id].status.Pending?
      && (events[id].status.Failed? ==>
            && events[id].lastError.Some? && events[id].lastError.value.PermanentFailure?
            && BlamesPayload(events[id].lastError.value.reason))
  }

  predicate Brings(row: EventRow) {
    AboutCustomer(KindOf(row.eventType)) && Mappable(row.payload)
  }

  /** The customers with at least one event from which a Metronome customer can be made. */
  function MappableCustomers(events: Events): set<string> {
    set e | e in events && Brings(events[e]) :: ReadCustomer(events[e].payload).value.id
  }

  datatype Link = Link(subscription: string, customer: string, price: string)

  predicate Wants(cfg: Settings, row: EventRow) {
    KindOf(row.eventType).SubscriptionCreated? && Wanted(cfg, row.payload).Some?
  }

  function LinkOf(cfg: Settings, row: EventRow): Link
    requires Wants(cfg, row)
  {
    var sub := ReadSubscription(row.payload).value;
    Link(sub.id, sub.customer, Wanted(cfg, row.payload).value.priceId)
  }

  /** What the created events ask for. */
  function WantedLinks(cfg: Settings, events: Events): set<Link> {
    set e | e in events && Wants(cfg, events[e]) :: LinkOf(cfg, events[e])
  }

  function MappedLinks(m: Mappings): set<Link> {
    set sub | sub in m.subscriptions :: Link(sub, m.subscriptions[sub].customer, m.subscriptions[sub].price)
  }

  /** Each subscription has one created event. */
  ghost predicate OneCreatedEventEach(cfg: Settings, events: Events) {
    forall e, f ::
      (&& e in events && f in events && Wants(cfg, events[e]) && Wants(cfg, events[f])
       && LinkOf(cfg, events[e]).subscription == LinkOf(cfg, events[f]).subscription)
      ==> e == f
  }

  /** In a cleanly drained state every event with a sound payload has been processed. */
  lemma SoundIsProcessed(world: World, s: State, e: string)
    requires Inv(world, s) && CleanlyDrained(s.tables.events) && e in s.tables.events
    requires Sound(world.settings, KindOf(s.tables.events[e].eventType), s.tables.events[e].payload)
    ensures HasMapping(s.tables.mappings, s.tables.events[e])
  {
    assert EventOk(world, s.tables.mappings, s.clock, s.tables.events[e]);
  }

  lemma DrainedCustomers(world: World, s: State)
    requires Inv(world, s) && CleanlyDrained(s.tables.events)
    ensures s.tables.mappings.customers.Keys == MappableCustomers(s.tables.events)
  {
    var events := s.tables.events;
    forall c | c in s.tables.mappings.customers ensures c in MappableCustomers(events) {
      var e :| e in events && BringsCustomer(events[e], c);
      assert Brings(events[e]);
    }
    forall c | c in MappableCustomers(events) ensures c in s.tables.mappings.customers {
      var e :| e in events && Brings(events[e]) && c == ReadCustomer(events[e].payload).value.id;
      SoundIsProcessed(world, s, e);
    }
  }

  lemma MappedLinkIsWanted(world: World, s: State, sub: string) returns (e: string)
    requires Inv(world, s) && sub in s.tables.mappings.subscriptions
    ensures e in s.tables.events && Wants(world.settings, s.tables.events[e])
    ensures LinkOf(world.settings, s.tables.events[e])
            == Link(sub, s.tables.mappings.subscriptions[sub].customer, s.tables.mappings.subscriptions[sub].price)
  {
    assert SubscriptionOk(world, s, sub);
    e :| e in s.tables.events && AsksForMapping(world.settings, s.tables.events[e], sub, s.tables.mappings.subscriptions[sub]);
  }

  lemma DrainedLinks(world: World, s: State)
    requires Inv(world, s) && CleanlyDrained(s.tables.events) && OneCreatedEventEach(world.settings, s.tables.events)
    ensures MappedLinks(s.tables.mappings) == WantedLinks(world.settings, s.tables.events)
  {
    var cfg, events := world.settings, s.tables.events;
    forall x | x in MappedLinks(s.tables.mappings) ensures x in WantedLinks(cfg, events) {
      var e := MappedLinkIsWanted(world, s, x.subscription);
    }
    forall x | x in WantedLinks(cfg, events) ensures x in MappedLinks(s.tables.mappings) {
      var e :| e in events && Wants(cfg, events[e]) && x == LinkOf(cfg, events[e]);
      SoundIsProcessed(world, s, e);
      var f := MappedLinkIsWanted(world, s, x.subscription);
      assert e == f;
    }
  }

  /**
   Where every run that drains cleanly ends, whatever workers, crashes, lost replies, retries and
   replays it went through: exactly the customers with a mappable event are mapped, and, when each
   subscription has one created event, exactly the links those events ask for exist.
   */
  lemma DrainedOutcome(world: World, steps: seq<Step>)
    requires Play(world, steps).Some? && CleanlyDrained(Play(world, steps).value.tables.events)
    ensures var t := Play(world, steps).value.tables;
            && t.mappings.customers.Keys == MappableCustomers(t.events)
            && (OneCreatedEventEach(world.settings, t.events) ==> MappedLinks(t.mappings) == WantedLinks(world.settings, t.events))
  {
    Reachable(world, steps);
    var s := Play(world, steps).value;
    DrainedCustomers(world, s);
    if OneCreatedEventEach(world.settings, s.tables.events) {
      DrainedLinks(world, s);
    }
  }

  ghost predicate SameEvents(e: Events, f: Events) {
    e.Keys == f.Keys && forall id :: id in e ==> e[id].eventType == f[id].eventType && e[id].payload == f[id].payload
  }

  lemma SameEventsWantTheSame(cfg: Settings, e: Events, f: Events)
    requires SameEvents(e, f)
    ensures MappableCustomers(e) <= MappableCustomers(f) && WantedLinks(cfg, e) <= WantedLinks(cfg, f)
  {
    forall c | c in MappableCustomers(e) ensures c in MappableCustomers(f) {
      var o :| o in e && Brings(e[o]) && c == ReadCustomer(e[o].payload).value.id;
      assert o in f && Brings(f[o]);
    }
    forall x | x in WantedLinks(cfg, e) ensures x in WantedLinks(cfg, f) {
      var o :| o in e && Wants(cfg, e[o]) && x == LinkOf(cfg, e[o]);
      assert o in f && Wants(cfg, f[o]) && LinkOf(cfg, f[o]) == x;
    }
  }

  lemma SameEventsOneEach(cfg: Settings, e: Events, f: Events)
    requires SameEvents(e, f) && OneCreatedEventEach(cfg, e)
    ensures OneCreatedEventEach(cfg, f)
  {
    forall a, b | a in f && b in f && Wants(cfg, f[a]) && Wants(cfg, f[b])
                  && LinkOf(cfg, f[a]).subscription == LinkOf(cfg, f[b]).subscription
      ensures a == b
    {
      assert Wants(cfg, e[a]) && Wants(cfg, e[b]) && LinkOf(cfg, e[a]) == LinkOf(cfg, f[a]) && LinkOf(cfg, e[b]) == LinkOf(cfg, f[b]);
    }
  }

  /** Order independence: two runs that drain the same events cleanly map the same customers and link the same subscriptions. */
  lemma OrderDoesNotMatter(world: World, one: seq<Step>, other: seq<Step>)
    requires Play(world, one).Some? && Play(world, other).Some?
    requires SameEvents(Play(world, one).value.tables.events, Play(world, other).value.tables.events)
    requires CleanlyDrained(Play(world, one).value.tables.events) && CleanlyDrained(Play(world, other).value.tables.events)
    ensures var m, n := Play(world, one).value.tables.mappings, Play(world, other).value.tables.mappings;
            && m.customers.Keys == n.customers.Keys
            && (OneCreatedEventEach(world.settings, Play(world, one).value.tables.events) ==> MappedLinks(m) == MappedLinks(n))
  {
    var e, f := Play(world, one).value.tables.events, Play(world, other).value.tables.events;
    DrainedOutcome(world, one);
    DrainedOutcome(world, other);
    SameEventsWantTheSame(world.settings, e, f);
    SameEventsWantTheSame(world.settings, f, e);
    if OneCreatedEventEach(world.settings, e) {
      SameEventsOneEach(world.settings, e, f);
    }
  }
}
