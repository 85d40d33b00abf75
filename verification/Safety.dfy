/** Safety of every run: locks, links, contracts and the errors that cannot happen. */
module Safety {
  import opened Wrappers
  import opened Json
  import opened Settings
  import opened Schema
  import opened SubscriptionMapper
  import opened Metronome
  import opened HandlerProgram
  import opened EventLifecycle
  import opened Protocol
  import opened Invariants

  // ----- Locks and rows -----

  /**
   In every reachable state: two transactions never hold the same event, and what a transaction holds
   is a pending row, still exactly as it was when it was claimed.
   */
  lemma LockDiscipline(world: World, steps: seq<Step>, v: Name, w: Name)
    requires Play(world, steps).Some? && v in Play(world, steps).value.inflight && w in Play(world, steps).value.inflight
    ensures var s := Play(world, steps).value;
            && (v != w ==> s.inflight[v].id != s.inflight[w].id)
            && s.inflight[w].id in s.tables.events
            && s.tables.events[s.inflight[w].id] == s.inflight[w].row
            && s.inflight[w].row.status.Pending? && s.inflight[w].row.nextAttemptAt <= s.inflight[w].claimedAt
  {
    Reachable(world, steps);
    assert HoldsRow(Play(world, steps).value, Play(world, steps).value.inflight[w]);
  }

  /** The rows of events satisfy the life-cycle invariant in every reachable state. */
  lemma EventRows(world: World, steps: seq<Step>, id: string)
    requires Play(world, steps).Some? && id in Play(world, steps).value.tables.events
    ensures var s := Play(world, steps).value;
            && RowOk(world.settings, s.tables.events[id])
            && (s.tables.events[id].status.Processed? ==> HasMapping(s.tables.mappings, s.tables.events[id]))
            && ErrorJust(world.settings, s.tables.events[id])
  {
    Reachable(world, steps);
  }

  lemma DoneFits(cfg: Settings, kind: Kind, payload: Object, ph: Phase)
    requires Fits(cfg, kind, payload, ph)
    ensures ph.Done? ==> FitsEnd(cfg, kind, payload, ph.verdict, ph.add)
  {
  }

  /**
   Whatever committed rows a handler read, at whatever moments, and whatever it heard: its phase fits its
   payload, the row it adds is the one the payload asks for, and an error that blames the payload is deserved.
   */
  lemma HandlersKeepToPayload(world: World, steps: seq<Step>, w: Name)
    requires Play(world, steps).Some? && w in Play(world, steps).value.inflight
    ensures var tx := Play(world, steps).value.inflight[w];
            && Fits(world.settings, KindOf(tx.row.eventType), tx.row.payload, tx.phase)
            && (tx.phase.Done? ==> FitsEnd(world.settings, KindOf(tx.row.eventType), tx.row.payload, tx.phase.verdict, tx.phase.add))
  {
    hide Fits, FitsEnd, Grounded;
    Reachable(world, steps);
    var s := Play(world, steps).value;
    var tx := s.inflight[w];
    assert TransactionOk(world, s.tables.mappings, s.remote.contracts, tx);
    DoneFits(world.settings, KindOf(tx.row.eventType), tx.row.payload, tx.phase);
  }

  /** What one step may do to one event row. */
  ghost predicate RowStep(world: World, s: State, step: Step, t: State, id: string)
    requires id in s.tables.events && id in t.tables.events
  {
    || t.tables.events[id] == s.tables.events[id]
    || (step.Replay? && step.id == id && t.tables.events[id] == Requeued(s.tables.events[id], s.clock, step.clearProcessedAt))
    || (&& CommitsAttempt(s, step) && s.inflight[step.worker].id == id && s.tables.events[id].status.Pending?
        && s.inflight[step.worker].row == s.tables.events[id]
        && DrawFits(world.settings, s.tables.events[id], step.draw)
        && t.tables.events[id] ==
             Settled(world.settings, s.tables.events[id], s.inflight[step.worker].phase.verdict, s.clock, step.draw))
  }

  lemma CommitEffects(world: World, s: State, step: Step)
    requires Inv(world, s) && CommitsAttempt(s, step) && Next(world, s, step).Some?
    ensures var t := Next(world, s, step).value;
            && Grows(s.tables.mappings, t.tables.mappings)
            && Keeps(s.tables.events, t.tables.events)
            && (forall id :: id in s.tables.events ==> RowStep(world, s, step, t, id))
  {
    assert HoldsRow(s, s.inflight[step.worker]);
    CommitGrows(world, s, step.worker, step.draw);
  }

  /**
   No step removes or re-points a mapping, removes an event or changes its payload; a row changes only
   when its holder commits, while it is pending, or when an operator replays it.
   */
  lemma StepEffects(world: World, s: State, step: Step)
    requires Inv(world, s) && Next(world, s, step).Some?
    ensures var t := Next(world, s, step).value;
            && Grows(s.tables.mappings, t.tables.mappings)
            && Keeps(s.tables.events, t.tables.events)
            && (forall id :: id in s.tables.events ==> RowStep(world, s, step, t, id))
  {
    hide Inv, Settled, Inserted, Violates, Exchange, Advance, NewEvent;
    var t := Next(world, s, step).value;
    if CommitsAttempt(s, step) {
      CommitEffects(world, s, step);
    } else if step.Replay? {
      assert t.tables.mappings == s.tables.mappings;
    } else if step.Deliver? {
      assert t.tables.mappings == s.tables.mappings;
    } else {
      assert t.tables == s.tables;
    }
  }

  /** Only an operator's replay takes an event out of a terminal state. */
  lemma OnlyReplayReopens(world: World, steps: seq<Step>, step: Step, id: string)
    requires Play(world, steps + [step]).Some? && Play(world, steps).Some? && id in Play(world, steps).value.tables.events
    requires !Play(world, steps).value.tables.events[id].status.Pending?
    ensures id in Play(world, steps + [step]).value.tables.events
    ensures (Play(world, steps + [step]).value.tables.events[id] == Play(world, steps).value.tables.events[id])
            || (step.Replay? && step.id == id)
  {
    Reachable(world, steps);
    PlayOneMore(world, steps, step);
    StepEffects(world, Play(world, steps).value, step);
    assert RowStep(world, Play(world, steps).value, step, Play(world, steps + [step]).value, id);
  }

  /** A replay makes any event that is not being handled ready at once, with all its attempts and no error. */
  lemma ReplayMakesReady(world: World, s: State, id: string, clearProcessedAt: bool)
    requires id in s.tables.events && id !in Locked(s)
    ensures var t := Next(world, s, Replay(id, clearProcessedAt));
            && t.Some? && id in t.value.tables.events
            && Claimable(t.value.tables.events, Locked(t.value), t.value.clock, id)
            && var before, after := s.tables.events[id], t.value.tables.events[id];
               && after == EventRow(before.eventType, before.payload, Pending, 0, None, before.receivedAt, s.clock,
                                    if clearProcessedAt then None else before.processedAt)
               && t.value.tables == s.tables.(events := s.tables.events[id := after])
  {
  }

  /** Over any continuation of a run the mappings only gain rows and the events keep their payloads. */
  lemma {:induction false} RunsOnlyAdd(world: World, steps: seq<Step>, n: nat)
    requires Play(world, steps).Some? && n <= |steps|
    ensures Play(world, steps[..n]).Some?
    ensures Grows(Play(world, steps[..n]).value.tables.mappings, Play(world, steps).value.tables.mappings)
    ensures Keeps(Play(world, steps[..n]).value.tables.events, Play(world, steps).value.tables.events)
  {
    if n == |steps| {
      assert steps[..n] == steps;
    } else {
      var most := steps[..|steps| - 1];
      assert most[..n] == steps[..n];
      RunsOnlyAdd(world, most, n);
      Reachable(world, most);
      StepEffects(world, Play(world, most).value, steps[|steps| - 1]);
    }
  }

  /** A crash, and an attempt that lost an insert race, leave the committed tables exactly as they are. */
  lemma RollBackRestores(world: World, steps: seq<Step>, step: Step)
    requires Play(world, steps + [step]).Some? && Play(world, steps).Some?
    requires step.Crash? || (step.Finish? && !CommitsAttempt(Play(world, steps).value, step))
    ensures var s, t := Play(world, steps).value, Play(world, steps + [step]).value;
            && t.tables == s.tables && t.remote == s.remote && t.inflight == s.inflight - {step.worker}
            && step.worker in s.inflight && s.inflight[step.worker].id in t.tables.events
            && t.tables.events[s.inflight[step.worker].id] == s.inflight[step.worker].row
            && s.inflight[step.worker].id !in Locked(t)
  {
    Reachable(world, steps);
    PlayOneMore(world, steps, step);
    assert HoldsRow(Play(world, steps).value, Play(world, steps).value.inflight[step.worker]);
  }

  // ----- Constraints and errors -----

  /** No other subscription with a persisted created event has an id whose keys could collide with this one's. */
  ghost predicate IdsApart(events: Events, sub: string) {
    forall e :: e in events && KindOf(events[e].eventType).SubscriptionCreated? && ReadSubscription(events[e].payload).Some? ==>
      KeysApart(ReadSubscription(events[e].payload).value.id, sub)
  }

  /** So it is, in particular, when all these ids have Stripe's shape. */
  lemma ShapedIdsKeepApart(events: Events, sub: string)
    requires StripeSubscriptionId(sub)
    requires forall e :: e in events && KindOf(events[e].eventType).SubscriptionCreated? && ReadSubscription(events[e].payload).Some? ==>
               StripeSubscriptionId(ReadSubscription(events[e].payload).value.id)
    ensures IdsApart(events, sub)
  {
    forall e | e in events && KindOf(events[e].eventType).SubscriptionCreated? && ReadSubscription(events[e].payload).Some?
      ensures KeysApart(ReadSubscription(events[e].payload).value.id, sub)
    {
      ShapedIdsAreApart(ReadSubscription(events[e].payload).value.id, sub);
    }
  }

  /** Subscriptions whose keys are apart never share a contract. */
  lemma ContractNamesSubscription(world: World, s: State, sub: string, row: SubscriptionRow, other: string)
    requires Inv(world, s) && other in s.tables.mappings.subscriptions
    requires IdsApart(s.tables.events, sub) && Backed(s.tables.mappings, s.remote.contracts, sub, row)
    requires s.tables.mappings.subscriptions[other].contract == row.contract
    ensures other == sub
  {
    hide EventsOk, LocksOk, TransactionsOk, IdsOk, Wanted, UniquenessKey, KeysApart;
    var m := s.tables.mappings;
    var held := m.subscriptions[other];
    assert SubscriptionOk(world, s, other);
    var e :| e in s.tables.events && AsksForMapping(world.settings, s.tables.events[e], other, held);
    assert KeysApart(other, sub);
    var g: int :| Contract(row.contract, m.customers[row.customer], UniquenessKey(sub, row.price, g)) in s.remote.contracts;
    var h: int :| Contract(held.contract, m.customers[held.customer], UniquenessKey(other, held.price, h)) in s.remote.contracts;
    FoundIsUnique(s.remote.contracts, Contract(row.contract, m.customers[row.customer], UniquenessKey(sub, row.price, g)));
    KeyParts(other, held.price, h, sub, row.price, g);
  }

  /** Under the invariant an insert that is ready meets its parent and, but for its own key, no row of its kind. */
  lemma InsertOnlyRacesOnItsKey(world: World, s: State, w: Name)
    requires Inv(world, s) && w in s.inflight && s.inflight[w].phase.Done?
    requires var add := s.inflight[w].phase.add; add.AddSubscription? ==> IdsApart(s.tables.events, add.subscription)
    ensures var m, add := s.tables.mappings, s.inflight[w].phase.add;
            && !MissingParent(m, add)
            && (add.AddCustomer? ==> !DuplicateUnique(m, add))
            && (add.AddSubscription? ==>
                  forall o :: o in m.subscriptions && m.subscriptions[o].contract == add.row.contract ==> o == add.subscription)
  {
    var tx := s.inflight[w];
    assert HoldsRow(s, tx) && EventOk(world, s.tables.mappings, s.clock, s.tables.events[tx.id]);
    assert TransactionOk(world, s.tables.mappings, s.remote.contracts, tx);
    if tx.phase.add.AddSubscription? {
      forall o | o in s.tables.mappings.subscriptions && s.tables.mappings.subscriptions[o].contract == tx.phase.add.row.contract
        ensures o == tx.phase.add.subscription
      {
        ContractNamesSubscription(world, s, tx.phase.add.subscription, tx.phase.add.row, o);
      }
    }
  }

  /**
   Only a primary-key race can abort an insert: the foreign key and the unique customer id never
   fire, and the unique contract id could only name the row of the same subscription. The keys of the
   subscription have to be apart from those of the others.
   */
  lemma OnlyKeyRacesAbort(world: World, steps: seq<Step>, w: Name)
    requires Play(world, steps).Some? && w in Play(world, steps).value.inflight
    requires Play(world, steps).value.inflight[w].phase.Done?
    requires var s := Play(world, steps).value;
             s.inflight[w].phase.add.AddSubscription? ==> IdsApart(s.tables.events, s.inflight[w].phase.add.subscription)
    ensures var m, add := Play(world, steps).value.tables.mappings, Play(world, steps).value.inflight[w].phase.add;
            && (Violates(m, add) <==> DuplicateKey(m, add))
            && !MissingParent(m, add)
            && (add.AddCustomer? ==> !DuplicateUnique(m, add))
            && (add.AddSubscription? ==>
                  forall o :: o in m.subscriptions && m.subscriptions[o].contract == add.row.contract ==> o == add.subscription)
  {
    hide Play, Inv, MissingParent;
    Reachable(world, steps);
    InsertOnlyRacesOnItsKey(world, Play(world, steps).value, w);
  }

  /** The "database integrity issue" branch and a fruitless contract lookup are never reached. */
  lemma ImpossibleErrors(world: World, steps: seq<Step>)
    requires Play(world, steps).Some?
    ensures forall id :: id in Play(world, steps).value.tables.events ==>
              var row := Play(world, steps).value.tables.events[id];
              row.lastError.Some? ==> row.lastError.value.reason !in {DatabaseIntegrity, ContractMissing}
    ensures forall w :: w in Play(world, steps).value.inflight ==>
              var ph := Play(world, steps).value.inflight[w].phase;
              ph.Done? && !ph.verdict.Succeeded? ==> ph.verdict.reason !in {DatabaseIntegrity, ContractMissing}
  {
    Reachable(world, steps);
    var s := Play(world, steps).value;
    forall w | w in s.inflight
      ensures var ph := s.inflight[w].phase;
              ph.Done? && !ph.verdict.Succeeded? ==> ph.verdict.reason !in {DatabaseIntegrity, ContractMissing}
    {
      assert TransactionOk(world, s.tables.mappings, s.remote.contracts, s.inflight[w]);
    }
    forall id | id in s.tables.events
      ensures var row := s.tables.events[id];
              row.lastError.Some? ==> row.lastError.value.reason !in {DatabaseIntegrity, ContractMissing}
    {
      assert EventOk(world, s.tables.mappings, s.clock, s.tables.events[id]);
    }
  }

  // ----- Mappings and contracts -----

  /**
   In every reachable state a subscription row names exactly one contract of Metronome; that contract
   is held by the Metronome customer of the row's parent and was asked for with the row's subscription
   and price at some hour. No other row names it when the keys of the subscription are apart.
   */
  lemma MappingSoundness(world: World, steps: seq<Step>, sub: string)
    requires Play(world, steps).Some? && sub in Play(world, steps).value.tables.mappings.subscriptions
    ensures var s := Play(world, steps).value; var row := s.tables.mappings.subscriptions[sub];
            && row.customer == world.owner(sub)
            && row.customer in s.tables.mappings.customers
            && s.tables.mappings.customers[row.customer] in s.remote.customers
            && (exists c :: c in s.remote.contracts && c.id == row.contract)
            && (forall c :: c in s.remote.contracts && c.id == row.contract ==>
                  && c.customer == s.tables.mappings.customers[row.customer]
                  && exists hour: int :: c.key == UniquenessKey(sub, row.price, hour))
            && (IdsApart(s.tables.events, sub) ==>
                  forall other :: other in s.tables.mappings.subscriptions && other != sub ==>
                    s.tables.mappings.subscriptions[other].contract != row.contract)
  {
    Reachable(world, steps);
    var s := Play(world, steps).value;
    var row := s.tables.mappings.subscriptions[sub];
    assert SubscriptionOk(world, s, sub);
    var hour: int :| Contract(row.contract, s.tables.mappings.customers[row.customer], UniquenessKey(sub, row.price, hour)) in s.remote.contracts;
    FoundIsUnique(s.remote.contracts, Contract(row.contract, s.tables.mappings.customers[row.customer], UniquenessKey(sub, row.price, hour)));
    forall other | IdsApart(s.tables.events, sub) && other in s.tables.mappings.subscriptions && other != sub
      ensures s.tables.mappings.subscriptions[other].contract != row.contract
    {
      if s.tables.mappings.subscriptions[other].contract == row.contract {
        ContractNamesSubscription(world, s, sub, row, other);
      }
    }
  }

  /** Every attempt at one event, in whatever transaction, asks the same customer for the same key. */
  lemma SameRequestForOneEvent(world: World, steps: seq<Step>, x: Request, y: Request)
    requires Play(world, steps).Some? && x in Play(world, steps).value.sent && y in Play(world, steps).value.sent
    requires x.event == y.event
    ensures x == y
  {
    Reachable(world, steps);
    var s := Play(world, steps).value;
    assert RequestOk(world.settings, s.tables, x) && RequestOk(world.settings, s.tables, y);
  }

  /** Every contract of Metronome answers a request made for a persisted event. */
  lemma ContractsAnswerRequests(world: World, steps: seq<Step>, c: Contract)
    requires Play(world, steps).Some? && c in Play(world, steps).value.remote.contracts
    ensures exists e :: e in Play(world, steps).value.tables.events && Request(e, c.customer, c.key) in Play(world, steps).value.sent
  {
    Reachable(world, steps);
    var s := Play(world, steps).value;
    var e :| Request(e, c.customer, c.key) in s.sent;
    assert RequestOk(world.settings, s.tables, Request(e, c.customer, c.key));
  }

  // ----- No duplicate contracts -----

  predicate Demands(cfg: Settings, row: EventRow, sub: string) {
    KindOf(row.eventType).SubscriptionCreated? && Wanted(cfg, row.payload).Some? && Wanted(cfg, row.payload).value.subscriptionId == sub
  }

  /** The persisted created events of a subscription, with the price and hour each of them asks for. */
  function DemandsOf(cfg: Settings, events: Events, sub: string): map<string, Demand> {
    map e | e in events && Demands(cfg, events[e], sub) :: Wanted(cfg, events[e].payload).value
  }

  ghost predicate RequestedFor(cfg: Settings, s: State, c: Contract, sub: string) {
    exists e :: e in s.tables.events && Demands(cfg, s.tables.events[e], sub) && Request(e, c.customer, c.key) in s.sent
  }

  /** The contracts Metronome holds that were asked for by a created event of this subscription. */
  ghost function ContractsFor(cfg: Settings, s: State, sub: string): set<Contract> {
    set c | c in s.remote.contracts && RequestedFor(cfg, s, c, sub)
  }

  ghost predicate KeyedFor(c: Contract, sub: string) {
    exists p: string, h: int :: c.key == UniquenessKey(sub, p, h)
  }

  lemma DemandBehind(world: World, s: State, sub: string, c: Contract) returns (d: Demand)
    requires Inv(world, s) && c in ContractsFor(world.settings, s, sub)
    ensures d in DemandsOf(world.settings, s.tables.events, sub).Values && c.key == d.Key() && KeyedFor(c, sub)
    ensures world.owner(sub) in s.tables.mappings.customers && c.customer == s.tables.mappings.customers[world.owner(sub)]
  {
    var e :| e in s.tables.events && Demands(world.settings, s.tables.events[e], sub) && Request(e, c.customer, c.key) in s.sent;
    assert RequestOk(world.settings, s.tables, Request(e, c.customer, c.key));
    assert EventOk(world, s.tables.mappings, s.clock, s.tables.events[e]);
    d := Wanted(world.settings, s.tables.events[e].payload).value;
    assert DemandsOf(world.settings, s.tables.events, sub)[e] == d;
    assert c.key == UniquenessKey(sub, d.priceId, d.hour);
  }

  /** A contract under a key of this subscription was asked for by one of its created events. */
  lemma KeyedIsRequested(world: World, s: State, sub: string, c: Contract)
    requires Inv(world, s) && IdsApart(s.tables.events, sub) && c in s.remote.contracts && KeyedFor(c, sub)
    ensures c in ContractsFor(world.settings, s, sub)
  {
    var e :| Request(e, c.customer, c.key) in s.sent;
    assert RequestOk(world.settings, s.tables, Request(e, c.customer, c.key));
    var d := Wanted(world.settings, s.tables.events[e].payload).value;
    var p: string, h: int :| c.key == UniquenessKey(sub, p, h);
    KeyParts(d.subscriptionId, d.priceId, d.hour, sub, p, h);
    assert Demands(world.settings, s.tables.events[e], sub);
  }

  lemma SameDemandSameContract(world: World, s: State, sub: string, c: Contract, d: Contract)
    requires Inv(world, s) && c in ContractsFor(world.settings, s, sub) && d in ContractsFor(world.settings, s, sub)
    requires c.key == d.key
    ensures c == d
  {
    var _ := DemandBehind(world, s, sub, c);
    var _ := DemandBehind(world, s, sub, d);
    FoundIsUnique(s.remote.contracts, c);
  }

  /** Contracts that each answer one of these demands, no two the same one, are no more than the demands. */
  lemma CountContracts(contracts: set<Contract>, demands: set<Demand>)
    requires forall c :: c in contracts ==> exists d :: d in demands && c.key == d.Key()
    requires forall c, d :: c in contracts && d in contracts && c.key == d.key ==> c == d
    ensures |contracts| <= |demands|
  {
    if contracts == {} {
    } else {
      var c :| c in contracts;
      var d :| d in demands && c.key == d.Key();
      forall o | o in contracts - {c} ensures exists e :: e in demands - {d} && o.key == e.Key() {
        var e :| e in demands && o.key == e.Key();
        assert e in demands - {d};
      }
      CountContracts(contracts - {c}, demands - {d});
    }
  }

  lemma {:induction false} ImageIsNoLarger(image: map<string, Demand>)
    ensures |image.Values| <= |image.Keys|
    decreases |image|
  {
    if image.Keys == {} {
      assert image.Values == {};
    } else {
      var e :| e in image.Keys;
      var rest := image - {e};
      assert image.Values == rest.Values + {image[e]} by {
        forall x | x in image.Values ensures x in rest.Values + {image[e]} {
          var o :| o in image && image[o] == x;
          assert o != e ==> o in rest && rest[o] == x;
        }
      }
      assert rest.Keys == image.Keys - {e};
      ImageIsNoLarger(rest);
    }
  }

  /**
   No duplicate contracts, whatever crashes, lost replies, races and replays a run contains: the
   contracts ever created for a subscription number at most the distinct (price, hour) pairs of its
   persisted created events, and so at most those events. When its keys are apart from those of the
   others, they are all the contracts under a key of the subscription.
   */
  lemma NoDuplicateContracts(world: World, steps: seq<Step>, sub: string)
    requires Play(world, steps).Some?
    ensures var s := Play(world, steps).value;
            var contracts, demands := ContractsFor(world.settings, s, sub), DemandsOf(world.settings, s.tables.events, sub);
            && |contracts| <= |demands.Values| <= |demands.Keys|
            && (IdsApart(s.tables.events, sub) ==>
                  forall c :: c in s.remote.contracts ==> (c in contracts <==> KeyedFor(c, sub)))
  {
    Reachable(world, steps);
    var s := Play(world, steps).value;
    var contracts, demands := ContractsFor(world.settings, s, sub), DemandsOf(world.settings, s.tables.events, sub);
    forall c | c in contracts ensures KeyedFor(c, sub) && exists d :: d in demands.Values && c.key == d.Key() {
      var d := DemandBehind(world, s, sub, c);
    }
    forall c, d | c in contracts && d in contracts && c.key == d.key ensures c == d {
      SameDemandSameContract(world, s, sub, c, d);
    }
    CountContracts(contracts, demands.Values);
    ImageIsNoLarger(demands);
    forall c | IdsApart(s.tables.events, sub) && c in s.remote.contracts && KeyedFor(c, sub) ensures c in contracts {
      KeyedIsRequested(world, s, sub, c);
    }
  }
}
