/** The worker, its handlers and the receiver as they run: objects updated in place. */
module Worker {
  import opened Wrappers
  import opened Json
  import opened Settings
  import opened Schema
  import opened SubscriptionMapper
  import CM = CustomerMapper
  import opened Metronome
  import opened HandlerProgram
  import opened EventLifecycle
  import opened AttemptMeaning
  import Backoff

  class WebhookEvent {
    const eventType: string
    const payload: Object
    const receivedAt: real
    var status: Status
    var attempts: int
    var lastError: Option<LastError>
    var nextAttemptAt: real
    var processedAt: Option<real>

    constructor (row: EventRow)
      ensures Row() == row
    {
      eventType, payload, receivedAt := row.eventType, row.payload, row.receivedAt;
      status, attempts, lastError := row.status, row.attempts, row.lastError;
      nextAttemptAt, processedAt := row.nextAttemptAt, row.processedAt;
    }

    function Row(): EventRow
      reads this
    {
      EventRow(eventType, payload, status, attempts, lastError, receivedAt, nextAttemptAt, processedAt)
    }
  }

  /** The mapping tables as one transaction sees and changes them. */
  class Session {
    var mappings: Mappings

    constructor (m: Mappings)
      ensures mappings == m
    {
      mappings := m;
    }

    /** `session.add` and `session.flush`: a violated constraint raises and leaves the tables alone. */
    method AddAndFlush(add: Insert) returns (flushed: bool)
      modifies this
      ensures flushed <==> !Violates(old(mappings), add)
      ensures mappings == if flushed then Inserted(old(mappings), add) else old(mappings)
    {
      flushed := !Violates(mappings, add);
      if flushed {
        mappings := Inserted(mappings, add);
      }
    }
  }

  /** How a handler call ends: it returns or raises a handler error, or a flush raises an integrity error. */
  datatype Outcome = Ended(verdict: Verdict) | FlushRaised

  /** The program has ended in `end`, and its row is there unless the flush raised. */
  ghost predicate Concludes(end: Phase, before: Mappings, after: Mappings, outcome: Outcome) {
    && end.Done?
    && outcome == (if Violates(before, end.add) then FlushRaised else Ended(end.verdict))
    && after == if Violates(before, end.add) then before else Inserted(before, end.add)
  }

  /** How a call ends that a reply of Metronome may fail. */
  function EndOfCall(end: Phase, a: Answer): Phase {
    if a.fault.None? then end else Stop(VerdictOn(Classify(a.fault.value)))
  }

  lemma MappedEnds(kind: Kind, customer: Customer, metronomeId: string, r: Remote, a: Answer)
    requires AboutCustomer(kind)
    ensures var ph, request := BeginMapped(kind, customer, metronomeId), CM.CustomerRequestFor(customer.fields);
            if kind.CustomerCreated? || request.Err? then
              RemoteFrom(r, ph, a) == r
              && EndFrom(r, ph, a, a) == Stop(if kind.CustomerCreated? then Succeeded else FailedForGood(CannotMap))
            else
              RemoteFrom(r, ph, a) == RenameEffect(r, metronomeId, request.value.name, a)
              && EndFrom(r, ph, a, a) == EndOfCall(Stop(Succeeded), a)
  {
    hide CM.CustomerRequestFor;
  }

  lemma UnmappedEnds(customer: Customer, r: Remote, a: Answer)
    ensures var ph, request := BeginUnmapped(customer), CM.CustomerRequestFor(customer.fields);
            if request.Err? then
              RemoteFrom(r, ph, a) == r && EndFrom(r, ph, a, a) == Stop(FailedForGood(CannotMap))
            else
              RemoteFrom(r, ph, a) == CreateCustomerEffect(r, request.value.name, a)
              && EndFrom(r, ph, a, a) == EndOfCall(Done(Succeeded, AddCustomer(customer.id, a.newId)), a)
  {
    hide CM.CustomerRequestFor;
  }

  /** `_handle_existing_mapping`: a created event is skipped, an update sends its name to Metronome. */
  method HandleExistingMapping(
    session: Session, metronome: MetronomeClient, kind: Kind, customer: Customer, metronomeId: string, a: Answer)
    returns (outcome: Outcome)
    requires AboutCustomer(kind)
    modifies metronome`customers
    ensures metronome.State() == RemoteFrom(old(metronome.State()), BeginMapped(kind, customer, metronomeId), a)
    ensures Concludes(EndFrom(old(metronome.State()), BeginMapped(kind, customer, metronomeId), a, a),
                      session.mappings, session.mappings, outcome)
    ensures outcome == Ended(Succeeded) && kind.CustomerUpdated? && metronomeId in old(metronome.customers) ==>
              && CM.CustomerRequestFor(customer.fields).Ok?
              && metronome.customers == old(metronome.customers)[metronomeId := CM.CustomerRequestFor(customer.fields).value.name]
  {
    hide BeginMapped, EndFrom, RemoteFrom, CM.CustomerRequestFor;
    MappedEnds(kind, customer, metronomeId, metronome.State(), a);
    if kind.CustomerCreated? {
      return Ended(Succeeded);
    }
    var request := CM.CustomerRequestFor(customer.fields);
    if request.Err? {
      return Ended(FailedForGood(CannotMap));
    }
    var renamed := metronome.SetCustomerName(metronomeId, request.value.name, a);
    match renamed {
      case Ok(_) => outcome := Ended(Succeeded);
      case Err(error) => outcome := Ended(VerdictOn(error));
    }
  }

  /** `_create_new_mapping`: a customer in Metronome, then the row that links it. */
  method CreateNewMapping(session: Session, metronome: MetronomeClient, customer: Customer, a: Answer)
    returns (outcome: Outcome)
    modifies session, metronome`customers
    ensures metronome.State() == RemoteFrom(old(metronome.State()), BeginUnmapped(customer), a)
    ensures Concludes(EndFrom(old(metronome.State()), BeginUnmapped(customer), a, a),
                      old(session.mappings), session.mappings, outcome)
    ensures session.mappings != old(session.mappings) ==>
              && a.fault.None? && a.newId in metronome.customers
              && session.mappings == Inserted(old(session.mappings), AddCustomer(customer.id, a.newId))
  {
    hide BeginUnmapped, EndFrom, RemoteFrom, CM.CustomerRequestFor;
    UnmappedEnds(customer, metronome.State(), a);
    var request := CM.CustomerRequestFor(customer.fields);
    if request.Err? {
      return Ended(FailedForGood(CannotMap));
    }
    var created := metronome.CreateCustomer(request.value.name, a);
    match created {
      case Ok(newId) =>
        var flushed := session.AddAndFlush(AddCustomer(customer.id, newId));
        outcome := if flushed then Ended(Succeeded) else FlushRaised;
      case Err(error) =>
        outcome := Ended(VerdictOn(error));
    }
  }

  /** `_handle_customer_event`, for both event types. */
  method HandleCustomerEvent(
    session: Session, metronome: MetronomeClient, cfg: Settings, kind: Kind, payload: Object, a: Answer)
    returns (outcome: Outcome)
    requires AboutCustomer(kind)
    modifies session, metronome`customers
    ensures metronome.State() ==
            RemoteFrom(old(metronome.State()), AfterReads(cfg, kind, payload, old(session.mappings)), a)
    ensures Concludes(WholeEnd(cfg, kind, payload, old(session.mappings), old(metronome.State()), a, a),
                      old(session.mappings), session.mappings, outcome)
  {
    var customer := ReadCustomer(payload);
    if customer.None? {
      return Ended(FailedForGood(MalformedPayload));
    }
    var id := customer.value.id;
    if id in session.mappings.customers {
      outcome := HandleExistingMapping(session, metronome, kind, customer.value, session.mappings.customers[id], a);
    } else {
      outcome := CreateNewMapping(session, metronome, customer.value, a);
    }
  }

  /** How the calls for a contract end: with the contract there was, or the new one, unless a call faults. */
  lemma ContractEnds(r: Remote, sub: Subscription, price: string, tier: Tier, request: ContractRequest, a: Answer, listing: Answer)
    ensures var found := Find(r.contracts, request.customerId, request.uniquenessKey);
            EndFrom(r, CreateContract(sub, price, tier, request), a, listing) ==
            if a.fault.Some? then Stop(VerdictOn(Classify(a.fault.value)))
            else if found.None? then AddedSubscription(sub, price, tier, a.newId)
            else if listing.fault.Some? then Stop(VerdictOn(Classify(listing.fault.value)))
            else AddedSubscription(sub, price, tier, found.value)
  {
    hide Find, Classify;
  }

  /** Steps 6 and 7: the contract is created or recovered, then the row that links it is added. */
  method ProvisionContract(
    session: Session, metronome: MetronomeClient, sub: Subscription, price: string, tier: Tier, request: ContractRequest,
    a: Answer, listing: Answer)
    returns (outcome: Outcome)
    requires Distinct(metronome.contracts) && FreshContractId(metronome.contracts, a.newId) && NotAConflict(a)
    modifies session, metronome`contracts
    ensures Distinct(metronome.contracts)
    ensures metronome.State() == CreateContractEffect(old(metronome.State()), request, a)
    ensures Concludes(EndFrom(old(metronome.State()), CreateContract(sub, price, tier, request), a, listing),
                      old(session.mappings), session.mappings, outcome)
    ensures session.mappings != old(session.mappings) ==>
              var contract := Find(metronome.contracts, request.customerId, request.uniquenessKey);
              && contract.Some?
              && session.mappings ==
                   Inserted(old(session.mappings), AddSubscription(sub.id, SubscriptionRow(sub.customer, contract.value, tier.name, price)))
  {
    hide EndFrom, Violates, Inserted, Distinct, FreshContractId, VerdictOn, Classify, Raises;
    ContractEnds(metronome.State(), sub, price, tier, request, a, listing);
    NoRowAlwaysFits(session.mappings);
    var created := metronome.CreateContract(request, a, listing);
    match created {
      case Ok(contract) =>
        var row := SubscriptionRow(sub.customer, contract.id, tier.name, price);
        var flushed := session.AddAndFlush(AddSubscription(sub.id, row));
        outcome := if flushed then Ended(Succeeded) else FlushRaised;
        assert Contract(contract.id, request.customerId, request.uniquenessKey) in metronome.contracts;
        FoundIsUnique(metronome.contracts, Contract(contract.id, request.customerId, request.uniquenessKey));
      case Err(error) =>
        outcome := Ended(VerdictOn(error));
    }
  }

  /** `handle_subscription_created`. */
  method HandleSubscriptionCreated(
    session: Session, metronome: MetronomeClient, cfg: Settings, payload: Object, a: Answer, listing: Answer)
    returns (outcome: Outcome)
    requires Distinct(metronome.contracts) && FreshContractId(metronome.contracts, a.newId) && NotAConflict(a)
    modifies session, metronome`contracts
    ensures Distinct(metronome.contracts)
    ensures metronome.State() ==
            RemoteFrom(old(metronome.State()), AfterReads(cfg, SubscriptionCreated, payload, old(session.mappings)), a)
    ensures Concludes(WholeEnd(cfg, SubscriptionCreated, payload, old(session.mappings), old(metronome.State()), a, listing),
                      old(session.mappings), session.mappings, outcome)
  {
    hide ReadSubscription, ExtractSinglePriceId, ContractRequestFor, Find;
    var read := ReadSubscription(payload);
    if read.None? {
      return Ended(FailedForGood(MalformedPayload));
    }
    var sub := read.value;
    if sub.id in session.mappings.subscriptions {
      var mapped := session.mappings.subscriptions[sub.id].customer in session.mappings.customers;
      return Ended(if mapped then Succeeded else FailedForGood(DatabaseIntegrity));
    }
    var price := ExtractSinglePriceId(sub.fields);
    if price.None? {
      return Ended(FailedForGood(MalformedPayload));
    }
    if sub.customer !in session.mappings.customers {
      return Ended(TryAgain(CustomerNotMapped));
    }
    if price.value !in cfg.tiers {
      return Ended(FailedForGood(UnknownTier));
    }
    var tier := cfg.tiers[price.value];
    var request := ContractRequestFor(sub.fields, tier, session.mappings.customers[sub.customer], cfg.rateCardId);
    if request.Err? {
      return Ended(FailedForGood(CannotMap));
    }
    outcome := ProvisionContract(session, metronome, sub, price.value, tier, request.value, a, listing);
  }

  /** Only a contract creation makes a second call. */
  lemma CustomerCallsOnce(cfg: Settings, kind: Kind, payload: Object, m: Mappings, r: Remote, a: Answer, listing: Answer)
    requires AboutCustomer(kind)
    ensures WholeEnd(cfg, kind, payload, m, r, a, a) == WholeEnd(cfg, kind, payload, m, r, a, listing)
  {
    hide ReadCustomer, CM.CustomerRequestFor, CreateContractEffect, CreateContractReply, ListReply, Find, Classify;
  }

  /** The other handlers only check the payload, and an unknown type has none. */
  lemma OthersOnlyCheck(cfg: Settings, kind: Kind, payload: Object, m: Mappings, r: Remote, a: Answer, listing: Answer)
    requires !AboutCustomer(kind) && !kind.SubscriptionCreated?
    ensures AfterReads(cfg, kind, payload, m) == WholeEnd(cfg, kind, payload, m, r, a, listing)
    ensures WholeEnd(cfg, kind, payload, m, r, a, listing) ==
            Stop(if kind.Unknown? || ReadSubscription(payload).Some? then Succeeded else FailedForGood(MalformedPayload))
  {
    hide ReadSubscription;
  }

  /** A call that succeeds leaves its mark, whatever Metronome answered on the way. */
  lemma SuccessIsMarked(cfg: Settings, eventType: string, payload: Object, m: Mappings, r: Remote, a: Answer, listing: Answer)
    ensures var end := WholeEnd(cfg, KindOf(eventType), payload, m, r, a, listing);
            end.verdict.Succeeded? ==> LeavesItsMark(eventType, payload, Inserted(m, end.add))
  {
    hide Run, WholeEnd, WholeInputs, Course, Ends, LeavesItsMark, KindOf;
    var end := WholeEnd(cfg, KindOf(eventType), payload, m, r, a, listing);
    var inputs := WholeInputs(cfg, KindOf(eventType), payload, m, r, a, listing);
    WholeCallRuns(cfg, KindOf(eventType), payload, m, r, a, listing);
    RunEndsOnCourse(cfg, eventType, payload, m, inputs);
    if end.verdict.Succeeded? {
      SuccessLeavesItsMark(cfg, eventType, payload, m, inputs, end.verdict, end.add);
    }
  }

  class Worker {
    const settings: Settings
    const metronome: MetronomeClient

    constructor (settings: Settings, metronome: MetronomeClient)
      ensures this.settings == settings && this.metronome == metronome
    {
      this.settings, this.metronome := settings, metronome;
    }

    method MarkFailed(event: WebhookEvent, reason: Reason, permanent: bool, now: real)
      modifies event
      ensures event.Row() == old(event.Row()).(
                status := Failed, processedAt := Some(now),
                lastError := Some(if permanent then PermanentFailure(reason) else ExhaustedRetries(reason)))
    {
      event.status := Failed;
      event.lastError := Some(if permanent then PermanentFailure(reason) else ExhaustedRetries(reason));
      event.processedAt := Some(now);
    }

    /** The event has already been charged for this attempt. */
    method ScheduleRetryOrFail(event: WebhookEvent, ghost before: EventRow, reason: Reason, now: real, draw: real)
      requires event.Row() == before.(attempts := before.attempts + 1) && DrawFits(settings, before, draw)
      modifies event
      ensures event.Row() == Settled(settings, before, TryAgain(reason), now, draw)
    {
      if event.attempts >= settings.maxAttempts {
        MarkFailed(event, reason, false, now);
        return;
      }
      var delay := Backoff.Delay(settings, event.attempts, draw);
      event.status := Pending;
      event.nextAttemptAt := now + delay;
      event.lastError := Some(Retrying(reason));
    }

    /**
     Dispatches the event to its handler and settles its row. A flush that raised leaves the session
     unusable, so the attempt ends without a settled row.
     */
    method HandleEvent(session: Session, event: WebhookEvent, a: Answer, listing: Answer, now: real, draw: real)
      returns (raised: bool)
      requires DrawFits(settings, event.Row(), draw)
      requires Distinct(metronome.contracts) && FreshContractId(metronome.contracts, a.newId) && NotAConflict(a)
      modifies session, event, metronome
      ensures Distinct(metronome.contracts)
      ensures metronome.State() ==
              RemoteFrom(old(metronome.State()), AfterReads(settings, KindOf(event.eventType), event.payload, old(session.mappings)), a)
      ensures var end := WholeEnd(settings, KindOf(event.eventType), event.payload, old(session.mappings),
                                  old(metronome.State()), a, listing);
              && (raised <==> Violates(old(session.mappings), end.add))
              && (!raised ==>
                    && event.Row() == Settled(settings, old(event.Row()), end.verdict, now, draw)
                    && session.mappings == Inserted(old(session.mappings), end.add))
      ensures !raised && event.status.Processed? ==> LeavesItsMark(event.eventType, event.payload, session.mappings)
    {
      hide ReadSubscription, AfterReads, WholeEnd, Exchange, Distinct, FreshContractId, LeavesItsMark;
      ghost var before, m, remote := event.Row(), session.mappings, metronome.State();
      var kind := KindOf(event.eventType);
      event.attempts := event.attempts + 1;
      var outcome: Outcome;
      match kind {
        case CustomerCreated | CustomerUpdated =>
          outcome := HandleCustomerEvent(session, metronome, settings, kind, event.payload, a);
          CustomerCallsOnce(settings, kind, event.payload, m, remote, a, listing);
        case SubscriptionCreated =>
          outcome := HandleSubscriptionCreated(session, metronome, settings, event.payload, a, listing);
        case SubscriptionUpdated | SubscriptionDeleted =>
          outcome := Ended(if ReadSubscription(event.payload).Some? then Succeeded else FailedForGood(MalformedPayload));
          OthersOnlyCheck(settings, kind, event.payload, m, remote, a, listing);
        case Unknown =>
          outcome := Ended(Succeeded);
          OthersOnlyCheck(settings, kind, event.payload, m, remote, a, listing);
      }
      SuccessIsMarked(settings, event.eventType, event.payload, m, remote, a, listing);
      raised := outcome.FlushRaised?;
      if raised {
        return;
      }
      match outcome.verdict {
        case Succeeded =>
          event.status, event.processedAt, event.lastError := Processed, Some(now), None;
        case FailedForGood(reason) =>
          MarkFailed(event, reason, true, now);
        case TryAgain(reason) =>
          ScheduleRetryOrFail(event, before, reason, now, draw);
      }
    }
  }

  /** The database as one connection sees it: the committed tables and the rows other transactions hold. */
  class Database {
    var tables: Tables
    var locked: set<string>

    constructor ()
      ensures tables == EMPTY_TABLES && locked == {}
    {
      tables, locked := EMPTY_TABLES, {};
    }

    /** `INSERT ... ON CONFLICT DO NOTHING`: the first delivery of an id wins for good. */
    method PersistEvent(id: string, eventType: string, payload: Object, now: real) returns (inserted: bool)
      modifies this`tables
      ensures inserted <==> id !in old(tables).events
      ensures tables.mappings == old(tables).mappings
      ensures tables.events == if inserted then old(tables).events[id := NewEvent(eventType, payload, now)] else old(tables).events
    {
      inserted := id !in tables.events;
      if inserted {
        tables := tables.(events := tables.events[id := NewEvent(eventType, payload, now)]);
      }
    }

    /** Nothing is claimed exactly when no pending, ready and unlocked row exists; otherwise one of the oldest is. */
    method ClaimNextEvent(now: real) returns (claimed: Option<string>)
      ensures claimed.None? <==> NothingClaimable(tables.events, locked, now)
      ensures claimed.Some? ==> OldestClaimable(tables.events, locked, now, claimed.value)
    {
      var ready := set id | id in tables.events && Claimable(tables.events, locked, now, id);
      if ready == {} {
        assert forall id :: Claimable(tables.events, locked, now, id) ==> id in ready;
        return None;
      }
      OldestExists(tables.events, ready);
      var id :| id in ready && forall o :: o in ready ==> tables.events[id].receivedAt <= tables.events[o].receivedAt;
      claimed := Some(id);
    }

    static lemma OldestExists(events: map<string, EventRow>, ids: set<string>)
      requires ids != {} && ids <= events.Keys
      ensures exists id :: id in ids && forall o :: o in ids ==> events[id].receivedAt <= events[o].receivedAt
    {
      var some :| some in ids;
      if ids != {some} {
        OldestExists(events, ids - {some});
        var oldest :| oldest in ids - {some} && forall o :: o in ids - {some} ==> events[oldest].receivedAt <= events[o].receivedAt;
        var id := if events[some].receivedAt <= events[oldest].receivedAt then some else oldest;
        forall o | o in ids ensures events[id].receivedAt <= events[o].receivedAt {
          assert o == some || o in ids - {some};
        }
      }
    }

    /**
     Claim, handle and commit in one transaction. What is committed is exactly one whole attempt on
     the oldest ready row, with the replies Metronome gave and with the row and the mapping written
     together. The attempt is committed unless its flush raised, and then the tables, though not
     Metronome, are left as they were.
     */
    method ProcessOne(worker: Worker, a: Answer, listing: Answer, claimAt: real, now: real, draw: map<string, real>)
      returns (claimed: Option<string>, committed: bool)
      requires claimAt <= now
      requires forall id :: id in tables.events ==> id in draw && DrawFits(worker.settings, tables.events[id], draw[id])
      requires Distinct(worker.metronome.contracts) && FreshContractId(worker.metronome.contracts, a.newId) && NotAConflict(a)
      modifies this`tables, worker.metronome
      ensures Distinct(worker.metronome.contracts)
      ensures claimed.None? <==> NothingClaimable(old(tables).events, locked, claimAt)
      ensures claimed.Some? ==> OldestClaimable(old(tables).events, locked, claimAt, claimed.value)
      ensures claimed.None? ==> !committed && worker.metronome.State() == old(worker.metronome.State())
      ensures !committed ==> tables == old(tables)
      ensures claimed.Some? ==>
                var row, m := old(tables).events[claimed.value], old(tables).mappings;
                var kind, remote := KindOf(row.eventType), old(worker.metronome.State());
                var end := WholeEnd(worker.settings, kind, row.payload, m, remote, a, listing);
                var inputs := WholeInputs(worker.settings, kind, row.payload, m, remote, a, listing);
                && worker.metronome.State() == RemoteFrom(remote, AfterReads(worker.settings, kind, row.payload, m), a)
                && (committed <==> !Violates(m, end.add))
                && (committed ==>
                      && Some(tables) == AttemptWhole(worker.settings, old(tables), claimed.value, claimAt, inputs, now, draw[claimed.value])
                      && (tables.events[claimed.value].status.Processed? ==> LeavesItsMark(row.eventType, row.payload, tables.mappings)))
    {
      hide WholeEnd, WholeInputs, AfterReads, RemoteFrom, Violates, Inserted, Settled, Run, LeavesItsMark;
      committed := false;
      claimed := ClaimNextEvent(claimAt);
      if claimed.None? {
        return;
      }
      var id := claimed.value;
      assert Claimable(old(tables).events, locked, claimAt, id);
      var session := new Session(tables.mappings);
      var event := new WebhookEvent(tables.events[id]);
      WholeCallRuns(worker.settings, KindOf(event.eventType), event.payload, session.mappings, worker.metronome.State(), a, listing);
      var raised := worker.HandleEvent(session, event, a, listing, now, draw[id]);
      if !raised {
        tables := Tables(tables.events[id := event.Row()], session.mappings);
        committed := true;
      }
    }
  }
}
