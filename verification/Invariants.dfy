/** What holds in every state the system can reach. */
module Invariants {
  import opened Wrappers
  import opened Json
  import opened Settings
  import opened Schema
  import opened SubscriptionMapper
  import CM = CustomerMapper
  import opened Metronome
  import opened HandlerProgram
  import opened EventLifecycle
  import opened Protocol

  type Events = map<string, EventRow>

  // ----- Rows -----

  /** The link a processed event of this type leaves behind, or the payload it was only checked for. */
  ghost predicate HasMapping(m: Mappings, row: EventRow) {
    var kind := KindOf(row.eventType);
    && (AboutCustomer(kind) ==> ReadCustomer(row.payload).Some? && ReadCustomer(row.payload).value.id in m.customers)
    && (kind.SubscriptionCreated? ==>
          ReadSubscription(row.payload).Some? && ReadSubscription(row.payload).value.id in m.subscriptions)
    && (kind.SubscriptionUpdated? || kind.SubscriptionDeleted? ==> ReadSubscription(row.payload).Some?)
  }

  predicate WorthRetrying(reason: Reason) {
    reason == CustomerNotMapped || reason == MetronomeUnavailable
  }

  /** A permanent error blames a payload that is at fault, or Metronome; what was retried was worth it. */
  ghost predicate ErrorJust(cfg: Settings, row: EventRow) {
    match row.lastError
    case None => true
    case Some(PermanentFailure(reason)) =>
      (BlamesPayload(reason) && !Sound(cfg, KindOf(row.eventType), row.payload)) || reason == MetronomeRejected
    case Some(Retrying(reason)) => WorthRetrying(reason)
    case Some(ExhaustedRetries(reason)) => WorthRetrying(reason)
  }

  ghost predicate EventOk(world: World, m: Mappings, now: real, row: EventRow) {
    && RowOk(world.settings, row)
    && Admissible(world, row.eventType, row.payload)
    && row.receivedAt <= now
    && (row.status.Processed? ==> HasMapping(m, row))
    && ErrorJust(world.settings, row)
  }

  ghost predicate EventsOk(world: World, s: State) {
    forall id :: id in s.tables.events ==> EventOk(world, s.tables.mappings, s.clock, s.tables.events[id])
  }

  // ----- Locks -----

  ghost predicate HoldsRow(s: State, tx: Transaction) {
    && tx.id in s.tables.events && s.tables.events[tx.id] == tx.row
    && tx.row.status.Pending? && tx.row.nextAttemptAt <= tx.claimedAt <= s.clock
  }

  ghost predicate LocksOk(s: State) {
    && (forall w :: w in s.inflight ==> HoldsRow(s, s.inflight[w]))
    && (forall v, w :: v in s.inflight && w in s.inflight && v != w ==> s.inflight[v].id != s.inflight[w].id)
  }

  // ----- Mappings and Metronome -----

  /** The contract of a row exists, belongs to the Metronome customer of its parent, and was asked for at some hour. */
  ghost predicate Backed(m: Mappings, contracts: seq<Contract>, sub: string, row: SubscriptionRow) {
    && row.customer in m.customers
    && exists hour: int :: Contract(row.contract, m.customers[row.customer], UniquenessKey(sub, row.price, hour)) in contracts
  }

  ghost predicate AsksForMapping(cfg: Settings, event: EventRow, sub: string, row: SubscriptionRow) {
    && KindOf(event.eventType).SubscriptionCreated? && ReadSubscription(event.payload).Some?
    && ReadSubscription(event.payload).value.id == sub && ReadSubscription(event.payload).value.customer == row.customer
    && Wanted(cfg, event.payload).Some? && Wanted(cfg, event.payload).value.priceId == row.price
  }

  ghost predicate SubscriptionOk(world: World, s: State, sub: string)
    requires sub in s.tables.mappings.subscriptions
  {
    var row := s.tables.mappings.subscriptions[sub];
    && Backed(s.tables.mappings, s.remote.contracts, sub, row)
    && row.customer == world.owner(sub)
    && exists e :: e in s.tables.events && AsksForMapping(world.settings, s.tables.events[e], sub, row)
  }

  ghost predicate BringsCustomer(event: EventRow, customer: string) {
    AboutCustomer(KindOf(event.eventType)) && Mappable(event.payload) && ReadCustomer(event.payload).value.id == customer
  }

  ghost predicate MappingsOk(world: World, s: State) {
    && (forall sub :: sub in s.tables.mappings.subscriptions ==> SubscriptionOk(world, s, sub))
    && (forall c :: c in s.tables.mappings.customers ==>
          exists e :: e in s.tables.events && BringsCustomer(s.tables.events[e], c))
  }

  /** A request was sent for a persisted event, with the key of its payload, to the customer mapped for it. */
  ghost predicate RequestOk(cfg: Settings, t: Tables, x: Request) {
    && x.event in t.events
    && var row := t.events[x.event];
       && KindOf(row.eventType).SubscriptionCreated? && ReadSubscription(row.payload).Some?
       && Wanted(cfg, row.payload).Some?
       && Wanted(cfg, row.payload).value.subscriptionId == ReadSubscription(row.payload).value.id
       && x.key == Wanted(cfg, row.payload).value.Key()
       && ReadSubscription(row.payload).value.customer in t.mappings.customers
       && x.customer == t.mappings.customers[ReadSubscription(row.payload).value.customer]
  }

  ghost predicate RemoteOk(world: World, s: State) {
    && Distinct(s.remote.contracts)
    && (forall x :: x in s.sent ==> RequestOk(world.settings, s.tables, x))
    && (forall c :: c in s.remote.contracts ==> exists e :: Request(e, c.customer, c.key) in s.sent)
  }

  predicate AddsCustomer(tx: Transaction) {
    tx.phase.Done? && tx.phase.add.AddCustomer?
  }

  /** Metronome customer ids are handed out once: no two rows, committed or about to be, share one. */
  ghost predicate IdsOk(s: State) {
    var m := s.tables.mappings.customers;
    && (forall c :: c in m ==> m[c] in s.remote.customers)
    && (forall c, d :: c in m && d in m && m[c] == m[d] ==> c == d)
    && (forall w :: w in s.inflight && AddsCustomer(s.inflight[w]) ==>
          && s.inflight[w].phase.add.metronomeId in s.remote.customers
          && forall c :: c in m ==> m[c] != s.inflight[w].phase.add.metronomeId)
    && (forall v, w :: v in s.inflight && w in s.inflight && v != w && AddsCustomer(s.inflight[v]) && AddsCustomer(s.inflight[w]) ==>
          s.inflight[v].phase.add.metronomeId != s.inflight[w].phase.add.metronomeId)
  }

  // ----- Transactions -----

  /** What a phase has learnt from the tables and from Metronome, and what still holds of it. */
  ghost predicate Grounded(m: Mappings, contracts: seq<Contract>, row: EventRow, ph: Phase) {
    match ph
    case Start => true
    case ResolveCustomer(sub, mapping) => sub.id in m.subscriptions && m.subscriptions[sub.id] == mapping
    case FindCustomer(_, _) => true
    case CreateCustomer(_, _) => true
    case RenameCustomer(_, _) => HasMapping(m, row)
    case CreateContract(sub, price, _, request) =>
      sub.customer in m.customers && m.customers[sub.customer] == request.customerId
    case RecoverContract(sub, price, _, request) =>
      && sub.customer in m.customers && m.customers[sub.customer] == request.customerId
      && Find(contracts, request.customerId, request.uniquenessKey).Some?
    case Done(verdict, add) =>
      && (add.AddSubscription? ==> Backed(m, contracts, add.subscription, add.row))
      && (verdict.Succeeded? && add.NoRow? ==> HasMapping(m, row))
      && (verdict.FailedForGood? ==> BlamesPayload(verdict.reason) || verdict.reason == MetronomeRejected)
      && (verdict.TryAgain? ==> WorthRetrying(verdict.reason))
  }

  ghost predicate TransactionOk(world: World, m: Mappings, contracts: seq<Contract>, tx: Transaction) {
    && Fits(world.settings, KindOf(tx.row.eventType), tx.row.payload, tx.phase)
    && Grounded(m, contracts, tx.row, tx.phase)
    && (tx.phase.Start? ==> tx.inputs == [])
    && (tx.phase.FindCustomer? || tx.phase.ResolveCustomer? ==> tx.inputs == [Read])
  }

  ghost predicate TransactionsOk(world: World, s: State) {
    forall w :: w in s.inflight ==> TransactionOk(world, s.tables.mappings, s.remote.contracts, s.inflight[w])
  }

  ghost predicate Inv(world: World, s: State) {
    && EventsOk(world, s) && LocksOk(s) && TransactionsOk(world, s)
    && MappingsOk(world, s) && RemoteOk(world, s) && IdsOk(s)
  }

  // ----- What growth keeps -----

  /** No event is removed, and none changes its type or payload. */
  ghost predicate Keeps(e: Events, f: Events) {
    forall id :: id in e ==> id in f && f[id].eventType == e[id].eventType && f[id].payload == e[id].payload
  }

  ghost predicate Extended(c: seq<Contract>, d: seq<Contract>) {
    forall x :: x in c ==> x in d
  }

  lemma BackedGrows(m: Mappings, c: seq<Contract>, n: Mappings, d: seq<Contract>, sub: string, row: SubscriptionRow)
    requires Backed(m, c, sub, row) && Grows(m, n) && Extended(c, d)
    ensures Backed(n, d, sub, row)
  {
    var hour: int :| Contract(row.contract, m.customers[row.customer], UniquenessKey(sub, row.price, hour)) in c;
    assert Contract(row.contract, n.customers[row.customer], UniquenessKey(sub, row.price, hour)) in d;
  }

  lemma GroundedGrows(m: Mappings, c: seq<Contract>, n: Mappings, d: seq<Contract>, row: EventRow, ph: Phase)
    requires Grounded(m, c, row, ph) && Grows(m, n) && Extended(c, d)
    ensures Grounded(n, d, row, ph)
  {
    if ph.RecoverContract? {
      assert Contract(Find(c, ph.request.customerId, ph.request.uniquenessKey).value, ph.request.customerId, ph.request.uniquenessKey) in d;
    }
    if ph.Done? && ph.add.AddSubscription? {
      BackedGrows(m, c, n, d, ph.add.subscription, ph.add.row);
    }
  }

  lemma SubscriptionGrows(world: World, s: State, t: State, sub: string)
    requires sub in s.tables.mappings.subscriptions && SubscriptionOk(world, s, sub)
    requires Grows(s.tables.mappings, t.tables.mappings) && Extended(s.remote.contracts, t.remote.contracts)
    requires Keeps(s.tables.events, t.tables.events)
    ensures sub in t.tables.mappings.subscriptions && SubscriptionOk(world, t, sub)
  {
    var row := s.tables.mappings.subscriptions[sub];
    BackedGrows(s.tables.mappings, s.remote.contracts, t.tables.mappings, t.remote.contracts, sub, row);
    var e :| e in s.tables.events && AsksForMapping(world.settings, s.tables.events[e], sub, row);
    assert AsksForMapping(world.settings, t.tables.events[e], sub, row);
  }

  /** The mapping rows that were there stay sound when tables and contracts only grow. */
  lemma OldMappingsStaySound(world: World, s: State, t: State)
    requires MappingsOk(world, s)
    requires Grows(s.tables.mappings, t.tables.mappings) && Extended(s.remote.contracts, t.remote.contracts)
    requires Keeps(s.tables.events, t.tables.events)
    ensures forall sub :: sub in s.tables.mappings.subscriptions ==>
              sub in t.tables.mappings.subscriptions && SubscriptionOk(world, t, sub)
    ensures forall c :: c in s.tables.mappings.customers ==>
              exists e :: e in t.tables.events && BringsCustomer(t.tables.events[e], c)
  {
    forall sub | sub in s.tables.mappings.subscriptions
      ensures sub in t.tables.mappings.subscriptions && SubscriptionOk(world, t, sub)
    {
      SubscriptionGrows(world, s, t, sub);
    }
    forall c | c in s.tables.mappings.customers
      ensures exists e :: e in t.tables.events && BringsCustomer(t.tables.events[e], c)
    {
      var e :| e in s.tables.events && BringsCustomer(s.tables.events[e], c);
      assert BringsCustomer(t.tables.events[e], c);
    }
  }

  lemma RequestsStayOk(cfg: Settings, t: Tables, u: Tables, sent: set<Request>)
    requires forall x :: x in sent ==> RequestOk(cfg, t, x)
    requires Keeps(t.events, u.events) && Grows(t.mappings, u.mappings)
    ensures forall x :: x in sent ==> RequestOk(cfg, u, x)
  {
  }

  // ----- Each step keeps the invariant -----

  lemma StartInv(world: World)
    ensures Inv(world, START)
  {
  }

  /** Steps that change one event row no one holds: a first delivery and a replay. */
  lemma RowChangeKeepsInv(world: World, s: State, t: State, id: string)
    requires Inv(world, s) && id !in Locked(s)
    requires t.remote == s.remote && t.inflight == s.inflight && t.clock == s.clock && t.sent == s.sent
    requires t.tables.mappings == s.tables.mappings
    requires id in t.tables.events && t.tables.events == s.tables.events[id := t.tables.events[id]]
    requires EventOk(world, s.tables.mappings, s.clock, t.tables.events[id])
    requires Keeps(s.tables.events, t.tables.events)
    ensures Inv(world, t)
  {
    hide EventOk, Fits, SubscriptionOk, BringsCustomer, RequestOk, Admissible;
    OldMappingsStaySound(world, s, t);
    RequestsStayOk(world.settings, s.tables, t.tables, s.sent);
    forall w | w in s.inflight ensures HoldsRow(t, t.inflight[w]) {
      assert HoldsRow(s, s.inflight[w]) && s.inflight[w].id in Locked(s);
    }
  }

  lemma DeliverKeepsInv(world: World, s: State, id: string, eventType: string, payload: Object)
    requires Inv(world, s) && Delivered(world, s, id, eventType, payload).Some?
    ensures Inv(world, Delivered(world, s, id, eventType, payload).value)
  {
    var t := Delivered(world, s, id, eventType, payload).value;
    if t != s {
      assert id !in Locked(s);
      RowChangeKeepsInv(world, s, t, id);
    }
  }

  lemma ReplayKeepsInv(world: World, s: State, id: string, clear: bool)
    requires Inv(world, s) && AfterReplay(s, id, clear).Some?
    ensures Inv(world, AfterReplay(s, id, clear).value)
  {
    assert EventOk(world, s.tables.mappings, s.clock, s.tables.events[id]);
    RowChangeKeepsInv(world, s, AfterReplay(s, id, clear).value, id);
  }

  lemma TickKeepsInv(world: World, s: State, elapsed: real)
    requires Inv(world, s) && elapsed >= 0.0
    ensures Inv(world, s.(clock := s.clock + elapsed))
  {
    var t := s.(clock := s.clock + elapsed);
    OldMappingsStaySound(world, s, t);
    forall id | id in t.tables.events ensures EventOk(world, t.tables.mappings, t.clock, t.tables.events[id]) {
      assert EventOk(world, s.tables.mappings, s.clock, s.tables.events[id]);
    }
    forall w | w in t.inflight ensures HoldsRow(t, t.inflight[w]) {
      assert HoldsRow(s, s.inflight[w]);
    }
  }

  lemma RollBackKeepsInv(world: World, s: State, w: Name)
    requires Inv(world, s) && w in s.inflight
    ensures Inv(world, RolledBack(s, w))
  {
    var t := RolledBack(s, w);
    OldMappingsStaySound(world, s, t);
    forall v | v in t.inflight ensures HoldsRow(t, t.inflight[v]) {
      assert HoldsRow(s, s.inflight[v]);
    }
  }

  /** One transaction begins or moves on; Metronome may gain a customer or a contract. */
  lemma TransactionChangeKeepsInv(world: World, s: State, t: State, w: Name)
    requires Inv(world, s) && w in t.inflight
    requires t.tables == s.tables && t.clock == s.clock
    requires t.inflight == s.inflight[w := t.inflight[w]]
    requires HoldsRow(t, t.inflight[w])
    requires forall v :: v in s.inflight && v != w ==> s.inflight[v].id != t.inflight[w].id
    requires TransactionOk(world, t.tables.mappings, t.remote.contracts, t.inflight[w])
    requires Extended(s.remote.contracts, t.remote.contracts) && RemoteOk(world, t) && IdsOk(t)
    ensures Inv(world, t)
  {
    hide EventOk, Fits, SubscriptionOk, BringsCustomer, RequestOk, Admissible;
    OldMappingsStaySound(world, s, t);
    forall v | v in t.inflight
      ensures HoldsRow(t, t.inflight[v]) && TransactionOk(world, t.tables.mappings, t.remote.contracts, t.inflight[v])
    {
      if v != w {
        assert HoldsRow(s, s.inflight[v]);
        GroundedGrows(s.tables.mappings, s.remote.contracts, t.tables.mappings, t.remote.contracts, s.inflight[v].row, s.inflight[v].phase);
      }
    }
  }

  lemma IdsWithoutInsert(s: State, t: State, w: Name)
    requires IdsOk(s) && t.tables == s.tables && s.remote.customers.Keys <= t.remote.customers.Keys
    requires w in t.inflight && t.inflight == s.inflight[w := t.inflight[w]] && !AddsCustomer(t.inflight[w])
    ensures IdsOk(t)
  {
  }

  lemma ClaimKeepsInv(world: World, s: State, w: Name, id: string)
    requires Inv(world, s) && Claimed(s, w, id).Some?
    ensures Inv(world, Claimed(s, w, id).value)
  {
    var t := Claimed(s, w, id).value;
    forall v | v in s.inflight ensures s.inflight[v].id != id {
      assert s.inflight[v].id in Locked(s);
    }
    IdsWithoutInsert(s, t, w);
    TransactionChangeKeepsInv(world, s, t, w);
  }

  lemma IdsWithFreshInsert(s: State, t: State, w: Name)
    requires IdsOk(s) && t.tables == s.tables && s.remote.customers.Keys <= t.remote.customers.Keys
    requires w in t.inflight && t.inflight == s.inflight[w := t.inflight[w]] && AddsCustomer(t.inflight[w])
    requires var id := t.inflight[w].phase.add.metronomeId; id in t.remote.customers && id !in s.remote.customers
    ensures IdsOk(t)
  {
  }

  lemma BeginCustomerGrounds(m: Mappings, contracts: seq<Contract>, row: EventRow)
    requires AboutCustomer(KindOf(row.eventType))
    ensures var ph := BeginCustomer(KindOf(row.eventType), row.payload, m);
            && Grounded(m, contracts, row, ph) && !ph.Start? && (ph.Done? ==> ph.add.NoRow?)
  {
    hide ReadCustomer, ReadSubscription, CM.CustomerRequestFor, KindOf;
  }

  lemma BeginSubscriptionGrounds(m: Mappings, contracts: seq<Contract>, row: EventRow)
    requires KindOf(row.eventType).SubscriptionCreated?
    ensures var ph := BeginSubscription(row.payload, m);
            && Grounded(m, contracts, row, ph) && !ph.Start? && (ph.Done? ==> ph.add.NoRow?)
  {
    hide ReadCustomer, ReadSubscription, ExtractSinglePriceId, KindOf;
  }

  lemma BeginGrounds(world: World, s: State, row: EventRow)
    ensures var ph := Begin(KindOf(row.eventType), row.payload, s.tables.mappings);
            && Grounded(s.tables.mappings, s.remote.contracts, row, ph)
            && !ph.Start? && (ph.Done? ==> ph.add.NoRow?)
  {
    hide BeginCustomer, BeginSubscription, ReadCustomer, ReadSubscription, KindOf;
    if AboutCustomer(KindOf(row.eventType)) {
      BeginCustomerGrounds(s.tables.mappings, s.remote.contracts, row);
    } else if KindOf(row.eventType).SubscriptionCreated? {
      BeginSubscriptionGrounds(s.tables.mappings, s.remote.contracts, row);
    }
  }

  lemma PrepareGrounds(world: World, s: State, row: EventRow, sub: Subscription, price: string)
    ensures var ph := PrepareContract(world.settings, sub, price, s.tables.mappings);
            && Grounded(s.tables.mappings, s.remote.contracts, row, ph)
            && (Calling(ph) || (ph.Done? && ph.add.NoRow?))
  {
  }

  lemma ReadGrounds(world: World, s: State, tx: Transaction)
    requires MappingsOk(world, s) && Reading(tx.phase)
    requires EventOk(world, s.tables.mappings, s.clock, tx.row)
    requires TransactionOk(world, s.tables.mappings, s.remote.contracts, tx)
    ensures TransactionOk(world, s.tables.mappings, s.remote.contracts, Progressed(world, s.tables.mappings, tx, Read))
    ensures !AddsCustomer(Progressed(world, s.tables.mappings, tx, Read))
  {
    AdvanceFits(world.settings, KindOf(tx.row.eventType), tx.row.payload, s.tables.mappings, tx.phase, Read);
    match tx.phase {
      case Start =>
        BeginGrounds(world, s, tx.row);
      case FindCustomer(sub, price) =>
        PrepareGrounds(world, s, tx.row, sub, price);
      case ResolveCustomer(sub, _) =>
        assert SubscriptionOk(world, s, sub.id);
    }
  }

  lemma ReadKeepsInv(world: World, s: State, w: Name)
    requires Inv(world, s) && AfterReading(world, s, w).Some?
    ensures Inv(world, AfterReading(world, s, w).value)
  {
    var t := AfterReading(world, s, w).value;
    assert HoldsRow(s, s.inflight[w]);
    ReadGrounds(world, s, s.inflight[w]);
    IdsWithoutInsert(s, t, w);
    TransactionChangeKeepsInv(world, s, t, w);
  }

  // ----- A call -----

  /** A contract request carries the key of the payload it was made from. */
  lemma RequestIsOk(world: World, s: State, tx: Transaction)
    requires HoldsRow(s, tx) && tx.phase.CreateContract?
    requires TransactionOk(world, s.tables.mappings, s.remote.contracts, tx)
    ensures RequestOk(world.settings, s.tables, Request(tx.id, tx.phase.request.customerId, tx.phase.request.uniquenessKey))
  {
  }

  lemma RequestKeepsRemoteOk(world: World, s: State, t: State, x: Request, id: string)
    requires RemoteOk(world, s) && t.tables == s.tables && t.sent == s.sent + {x}
    requires RequestOk(world.settings, s.tables, x) && FreshContractId(s.remote.contracts, id)
    requires || t.remote.contracts == s.remote.contracts
             || (&& Find(s.remote.contracts, x.customer, x.key).None?
                 && t.remote.contracts == s.remote.contracts + [Contract(id, x.customer, x.key)])
    ensures RemoteOk(world, t)
  {
    if t.remote.contracts != s.remote.contracts {
      AddedContractIsFound(s.remote.contracts, Contract(id, x.customer, x.key));
    }
    forall c | c in t.remote.contracts ensures exists e :: Request(e, c.customer, c.key) in t.sent {
      if c in s.remote.contracts {
        var e :| Request(e, c.customer, c.key) in s.sent;
        assert Request(e, c.customer, c.key) in t.sent;
      } else {
        assert Request(x.event, c.customer, c.key) == x;
      }
    }
  }

  lemma CallKeepsRemoteOk(world: World, s: State, w: Name, a: Answer)
    requires RemoteOk(world, s) && AfterCall(world, s, w, a).Some? && HoldsRow(s, s.inflight[w])
    requires TransactionOk(world, s.tables.mappings, s.remote.contracts, s.inflight[w])
    ensures RemoteOk(world, AfterCall(world, s, w, a).value)
    ensures Extended(s.remote.contracts, AfterCall(world, s, w, a).value.remote.contracts)
  {
    var t := AfterCall(world, s, w, a).value;
    var tx := s.inflight[w];
    if tx.phase.CreateContract? {
      RequestIsOk(world, s, tx);
      RequestKeepsRemoteOk(world, s, t, Request(tx.id, tx.phase.request.customerId, tx.phase.request.uniquenessKey), a.newId);
    } else {
      assert t.remote.contracts == s.remote.contracts && t.sent == s.sent;
    }
  }

  /** A contract is asked for under the key of the subscription and price it will be linked with. */
  ghost predicate KeyedBySubscription(ph: Phase) {
    ph.CreateContract? || ph.RecoverContract? ==>
      exists hour: int :: ph.request.uniquenessKey == UniquenessKey(ph.sub.id, ph.price, hour)
  }

  lemma FitsIsKeyed(cfg: Settings, kind: Kind, payload: Object, ph: Phase)
    requires Fits(cfg, kind, payload, ph)
    ensures KeyedBySubscription(ph)
  {
    hide UniquenessKey, ReadSubscription;
    if ph.CreateContract? || ph.RecoverContract? {
      assert ph.request.uniquenessKey == UniquenessKey(ph.sub.id, ph.price, Wanted(cfg, payload).value.hour);
    }
  }

  lemma ReplyGrounds(m: Mappings, r: Remote, row: EventRow, ph: Phase, a: Answer)
    requires Calling(ph) && Grounded(m, r.contracts, row, ph) && KeyedBySubscription(ph)
    ensures var (remote, reply) := Exchange(r, ph, a);
            var next := AfterReply(ph, reply);
            && Grounded(m, remote.contracts, row, next) && !Reading(next)
            && (next.Done? && next.add.AddCustomer? ==> ph.CreateCustomer? && a.fault.None? && next.add.metronomeId == a.newId)
  {
    hide HasMapping, UniquenessKey;
    var (remote, reply) := Exchange(r, ph, a);
    if ph.CreateContract? || ph.RecoverContract? {
      var hour: int :| ph.request.uniquenessKey == UniquenessKey(ph.sub.id, ph.price, hour);
      if reply.Created? {
        assert Contract(reply.id, ph.request.customerId, UniquenessKey(ph.sub.id, ph.price, hour)) in remote.contracts;
      }
      if reply.Listed? && reply.found.Some? {
        assert Contract(reply.found.value, ph.request.customerId, UniquenessKey(ph.sub.id, ph.price, hour)) in remote.contracts;
      }
    }
  }

  lemma CallGrounds(world: World, s: State, tx: Transaction, a: Answer)
    requires Calling(tx.phase) && TransactionOk(world, s.tables.mappings, s.remote.contracts, tx)
    ensures var (remote, reply) := Exchange(s.remote, tx.phase, a);
            && TransactionOk(world, s.tables.mappings, remote.contracts, Progressed(world, s.tables.mappings, tx, Heard(reply)))
            && (AddsCustomer(Progressed(world, s.tables.mappings, tx, Heard(reply))) ==>
                  && tx.phase.CreateCustomer? && a.fault.None?
                  && Progressed(world, s.tables.mappings, tx, Heard(reply)).phase.add.metronomeId == a.newId)
  {
    hide Fits, Grounded, KeyedBySubscription, Exchange, AfterReply;
    var (remote, reply) := Exchange(s.remote, tx.phase, a);
    AdvanceFits(world.settings, KindOf(tx.row.eventType), tx.row.payload, s.tables.mappings, tx.phase, Heard(reply));
    FitsIsKeyed(world.settings, KindOf(tx.row.eventType), tx.row.payload, tx.phase);
    ReplyGrounds(s.tables.mappings, s.remote, tx.row, tx.phase, a);
  }

  lemma CallKeepsInv(world: World, s: State, w: Name, a: Answer)
    requires Inv(world, s) && AfterCall(world, s, w, a).Some?
    ensures Inv(world, AfterCall(world, s, w, a).value)
  {
    hide EventsOk, MappingsOk, RemoteOk, IdsOk, TransactionOk, Advance;
    var t := AfterCall(world, s, w, a).value;
    assert HoldsRow(s, s.inflight[w]);
    CallGrounds(world, s, s.inflight[w], a);
    CallKeepsRemoteOk(world, s, w, a);
    if AddsCustomer(t.inflight[w]) {
      IdsWithFreshInsert(s, t, w);
    } else {
      IdsWithoutInsert(s, t, w);
    }
    TransactionChangeKeepsInv(world, s, t, w);
  }

  // ----- A commit -----

  lemma CommitSettlesRow(world: World, s: State, w: Name, draw: real)
    requires Inv(world, s) && w in s.inflight && s.inflight[w].phase.Done?
    requires DrawFits(world.settings, s.inflight[w].row, draw)
    ensures var tx := s.inflight[w];
            EventOk(world, Inserted(s.tables.mappings, tx.phase.add), s.clock,
                    Settled(world.settings, tx.row, tx.phase.verdict, s.clock, draw))
  {
    hide MappingsOk, RemoteOk, IdsOk;
    var tx := s.inflight[w];
    assert HoldsRow(s, tx);
    assert EventOk(world, s.tables.mappings, s.clock, s.tables.events[tx.id]);
    SettledKeepsRowOk(world.settings, tx.row, tx.phase.verdict, s.clock, draw);
  }

  lemma NewSubscriptionIsSound(world: World, s: State, t: State, w: Name)
    requires Inv(world, s) && w in s.inflight && s.inflight[w].phase.Done? && s.inflight[w].phase.add.AddSubscription?
    requires t.tables.mappings == Inserted(s.tables.mappings, s.inflight[w].phase.add)
    requires Grows(s.tables.mappings, t.tables.mappings)
    requires t.remote == s.remote && Keeps(s.tables.events, t.tables.events)
    ensures SubscriptionOk(world, t, s.inflight[w].phase.add.subscription)
  {
    var tx := s.inflight[w];
    var sub, row := tx.phase.add.subscription, tx.phase.add.row;
    assert HoldsRow(s, tx) && TransactionOk(world, s.tables.mappings, s.remote.contracts, tx);
    assert EventOk(world, s.tables.mappings, s.clock, s.tables.events[tx.id]);
    BackedGrows(s.tables.mappings, s.remote.contracts, t.tables.mappings, t.remote.contracts, sub, row);
    assert AsksForMapping(world.settings, t.tables.events[tx.id], sub, row);
  }

  lemma CommitKeepsMappingsOk(world: World, s: State, t: State, w: Name)
    requires Inv(world, s) && w in s.inflight && s.inflight[w].phase.Done?
    requires t.tables.mappings == Inserted(s.tables.mappings, s.inflight[w].phase.add)
    requires Grows(s.tables.mappings, t.tables.mappings)
    requires t.remote == s.remote && Keeps(s.tables.events, t.tables.events)
    ensures MappingsOk(world, t)
  {
    hide EventsOk, RemoteOk, IdsOk, SubscriptionOk, Grounded, Wanted, AsksForMapping;
    var tx := s.inflight[w];
    OldMappingsStaySound(world, s, t);
    if tx.phase.add.AddSubscription? {
      NewSubscriptionIsSound(world, s, t, w);
    } else if tx.phase.add.AddCustomer? {
      assert HoldsRow(s, tx) && TransactionOk(world, s.tables.mappings, s.remote.contracts, tx);
      assert BringsCustomer(t.tables.events[tx.id], tx.phase.add.customer);
    }
  }

  lemma CommitKeepsIdsOk(s: State, t: State, w: Name)
    requires IdsOk(s) && w in s.inflight && s.inflight[w].phase.Done?
    requires t.tables.mappings == Inserted(s.tables.mappings, s.inflight[w].phase.add)
    requires t.remote == s.remote && t.inflight == s.inflight - {w}
    ensures IdsOk(t)
  {
    assert AddsCustomer(s.inflight[w]) <==> s.inflight[w].phase.add.AddCustomer?;
  }

  lemma EventsStayOk(world: World, s: State, t: State, id: string)
    requires EventsOk(world, s) && id in s.tables.events && t.clock == s.clock && Grows(s.tables.mappings, t.tables.mappings)
    requires id in t.tables.events && t.tables.events == s.tables.events[id := t.tables.events[id]]
    requires EventOk(world, t.tables.mappings, s.clock, t.tables.events[id])
    ensures EventsOk(world, t)
  {
    forall o | o in t.tables.events ensures EventOk(world, t.tables.mappings, t.clock, t.tables.events[o]) {
      if o != id {
        assert EventOk(world, s.tables.mappings, s.clock, s.tables.events[o]);
      }
    }
  }

  lemma OthersStayOk(world: World, s: State, t: State, w: Name)
    requires LocksOk(s) && TransactionsOk(world, s) && w in s.inflight && t.inflight == s.inflight - {w}
    requires t.clock == s.clock && t.remote == s.remote && Grows(s.tables.mappings, t.tables.mappings)
    requires s.inflight[w].id in t.tables.events
    requires t.tables.events == s.tables.events[s.inflight[w].id := t.tables.events[s.inflight[w].id]]
    ensures LocksOk(t) && TransactionsOk(world, t)
  {
    forall v | v in t.inflight
      ensures HoldsRow(t, t.inflight[v]) && TransactionOk(world, t.tables.mappings, t.remote.contracts, t.inflight[v])
    {
      assert HoldsRow(s, s.inflight[v]);
      GroundedGrows(s.tables.mappings, s.remote.contracts, t.tables.mappings, t.remote.contracts, s.inflight[v].row, s.inflight[v].phase);
    }
  }

  lemma TablesGrowKeepsRemoteOk(world: World, s: State, t: State)
    requires RemoteOk(world, s) && t.remote == s.remote && t.sent == s.sent
    requires Keeps(s.tables.events, t.tables.events) && Grows(s.tables.mappings, t.tables.mappings)
    ensures RemoteOk(world, t)
  {
    RequestsStayOk(world.settings, s.tables, t.tables, s.sent);
  }

  lemma CommitGrows(world: World, s: State, w: Name, draw: real)
    requires w in s.inflight && HoldsRow(s, s.inflight[w]) && s.inflight[w].phase.Done? && !Conflicts(s, w)
    requires DrawFits(world.settings, s.inflight[w].row, draw)
    ensures Grows(s.tables.mappings, Committed(world, s, w, draw).tables.mappings)
    ensures Keeps(s.tables.events, Committed(world, s, w, draw).tables.events)
  {
  }

  lemma CommitKeepsInv(world: World, s: State, w: Name, draw: real)
    requires Inv(world, s) && w in s.inflight && s.inflight[w].phase.Done? && !Conflicts(s, w)
    requires DrawFits(world.settings, s.inflight[w].row, draw)
    ensures Inv(world, Committed(world, s, w, draw))
  {
    var t := Committed(world, s, w, draw);
    assert HoldsRow(s, s.inflight[w]);
    CommitGrows(world, s, w, draw);
    CommitSettlesRow(world, s, w, draw);
    EventsStayOk(world, s, t, s.inflight[w].id);
    OthersStayOk(world, s, t, w);
    CommitKeepsMappingsOk(world, s, t, w);
    CommitKeepsIdsOk(s, t, w);
    TablesGrowKeepsRemoteOk(world, s, t);
  }

  // ----- All steps, all runs -----

  lemma NextKeepsInv(world: World, s: State, step: Step)
    requires Inv(world, s) && Next(world, s, step).Some?
    ensures Inv(world, Next(world, s, step).value)
  {
    match step {
      case Tick(elapsed) => TickKeepsInv(world, s, elapsed);
      case Deliver(id, eventType, payload) => DeliverKeepsInv(world, s, id, eventType, payload);
      case Claim(w, id) => ClaimKeepsInv(world, s, w, id);
      case ReadTables(w) => ReadKeepsInv(world, s, w);
      case Call(w, a) => CallKeepsInv(world, s, w, a);
      case Finish(w, draw) => if Conflicts(s, w) { RollBackKeepsInv(world, s, w); } else { CommitKeepsInv(world, s, w, draw); }
      case Crash(w) => RollBackKeepsInv(world, s, w);
      case Replay(id, clear) => ReplayKeepsInv(world, s, id, clear);
    }
  }

  /** Every reachable state, whatever the interleaving of deliveries, workers, crashes, lost replies and replays. */
  lemma {:induction false} Reachable(world: World, steps: seq<Step>)
    requires Play(world, steps).Some?
    ensures Inv(world, Play(world, steps).value)
  {
    if steps == [] {
      StartInv(world);
    } else {
      Reachable(world, steps[..|steps| - 1]);
      NextKeepsInv(world, Play(world, steps[..|steps| - 1]).value, steps[|steps| - 1]);
    }
  }
}
