/**
 The event handlers as a program of small steps: one step for each database read and one for each
 reply of Metronome. The protocol interleaves these steps; the handler methods run them in sequence.
 */
module HandlerProgram {
  import opened Wrappers
  import opened Json
  import opened Settings
  import opened Schema
  import opened SubscriptionMapper
  import CM = CustomerMapper
  import opened Metronome

  /** The handler registry. */
  datatype Kind =
    | CustomerCreated
    | CustomerUpdated
    | SubscriptionCreated
    | SubscriptionUpdated
    | SubscriptionDeleted
    | Unknown

  function KindOf(eventType: string): Kind {
    if eventType == "customer.created" then CustomerCreated
    else if eventType == "customer.updated" then CustomerUpdated
    else if eventType == "customer.subscription.created" then SubscriptionCreated
    else if eventType == "customer.subscription.updated" then SubscriptionUpdated
    else if eventType == "customer.subscription.deleted" then SubscriptionDeleted
    else Unknown
  }

  predicate AboutCustomer(kind: Kind) {
    kind.CustomerCreated? || kind.CustomerUpdated?
  }

  // ----- What a handler reads off the payload -----

  datatype Customer = Customer(id: string, fields: Object)

  function ReadCustomer(payload: Object): Option<Customer> {
    match DataObject(payload)
    case None => None
    case Some(fields) =>
      match NonEmptyString(Get(fields, "id"))
      case None => None
      case Some(id) => Some(Customer(id, fields))
  }

  datatype Subscription = Subscription(id: string, customer: string, fields: Object)

  function ReadSubscription(payload: Object): Option<Subscription> {
    match DataObject(payload)
    case None => None
    case Some(fields) =>
      match (NonEmptyString(Get(fields, "id")), NonEmptyString(Get(fields, "customer")))
      case (Some(id), Some(customer)) => Some(Subscription(id, customer, fields))
      case _ => None
  }

  /** The handler's own check of the items, done before any lookup of the customer. */
  function ExtractSinglePriceId(sub: Object): Option<string> {
    var items := Get(sub, "items");
    if !items.JObject? then None else
    var data := Get(items.fields, "data");
    if !data.JList? || |data.items| != 1 || !data.items[0].JObject? then None else
    var price := Get(data.items[0].fields, "price");
    if price.JObject? then NonEmptyString(Get(price.fields, "id")) else None
  }

  /**
   The handler's check and the mapper's accept the same subscriptions with the same price, so past the
   handler's checks the mapper can only object to the period start.
   */
  lemma PayloadChecksAgree(sub: Object)
    ensures forall p :: ExtractSinglePriceId(sub) == Some(p) <==> RequireSingleItem(sub).Ok? && RequireSingleItem(sub).value.0 == p
    ensures ExtractSinglePriceId(sub).Some? && NonEmptyString(Get(sub, "id")).Some? && DemandOf(sub).Err? ==>
              && DemandOf(sub).error in {MissingPeriodStart, PeriodStartOutOfRange}
              && (DemandOf(sub).error == MissingPeriodStart <==> RawPeriodStart(sub, RequireSingleItem(sub).value.1).None?)
  {
  }

  // ----- The program -----

  datatype Verdict = Succeeded | FailedForGood(reason: Reason) | TryAgain(reason: Reason)

  datatype Phase =
    | Start
    | ResolveCustomer(sub: Subscription, mapping: SubscriptionRow)
    | FindCustomer(sub: Subscription, price: string)
    | CreateCustomer(customer: string, name: string)
    | RenameCustomer(metronomeId: string, name: string)
    | CreateContract(sub: Subscription, price: string, tier: Tier, request: ContractRequest)
    | RecoverContract(sub: Subscription, price: string, tier: Tier, request: ContractRequest)
    | Done(verdict: Verdict, add: Insert)

  /** One step is fed either the committed mappings it reads or the reply it waited for. */
  datatype Input = Read | Heard(reply: Reply)

  predicate Reading(ph: Phase) {
    ph.Start? || ph.ResolveCustomer? || ph.FindCustomer?
  }

  predicate Calling(ph: Phase) {
    !Reading(ph) && !ph.Done?
  }

  function Stop(verdict: Verdict): Phase {
    Done(verdict, NoRow)
  }

  /** A client error as the handlers translate it; `ContractNotFoundError` is caught by neither clause and so is retried. */
  function VerdictOn(error: ClientError): Verdict {
    match error
    case Transient => TryAgain(MetronomeUnavailable)
    case Permanent => FailedForGood(MetronomeRejected)
    case ContractNotFound => TryAgain(ContractMissing)
  }

  /** A mapped customer is renamed by an update and left alone by a created event. */
  function BeginMapped(kind: Kind, c: Customer, metronomeId: string): Phase {
    if kind.CustomerCreated? then Stop(Succeeded) else
      match CM.CustomerRequestFor(c.fields)
      case Err(_) => Stop(FailedForGood(CannotMap))
      case Ok(request) => RenameCustomer(metronomeId, request.name)
  }

  function BeginUnmapped(c: Customer): Phase {
    match CM.CustomerRequestFor(c.fields)
    case Err(_) => Stop(FailedForGood(CannotMap))
    case Ok(request) => CreateCustomer(c.id, request.name)
  }

  function BeginCustomer(kind: Kind, payload: Object, m: Mappings): Phase {
    match ReadCustomer(payload)
    case None => Stop(FailedForGood(MalformedPayload))
    case Some(c) => if c.id in m.customers then BeginMapped(kind, c, m.customers[c.id]) else BeginUnmapped(c)
  }

  function BeginSubscription(payload: Object, m: Mappings): Phase {
    match ReadSubscription(payload)
    case None => Stop(FailedForGood(MalformedPayload))
    case Some(sub) =>
      if sub.id in m.subscriptions then ResolveCustomer(sub, m.subscriptions[sub.id]) else
        match ExtractSinglePriceId(sub.fields)
        case None => Stop(FailedForGood(MalformedPayload))
        case Some(price) => FindCustomer(sub, price)
  }

  function Begin(kind: Kind, payload: Object, m: Mappings): Phase {
    match kind
    case CustomerCreated => BeginCustomer(kind, payload, m)
    case CustomerUpdated => BeginCustomer(kind, payload, m)
    case SubscriptionCreated => BeginSubscription(payload, m)
    case SubscriptionUpdated => Stop(if ReadSubscription(payload).Some? then Succeeded else FailedForGood(MalformedPayload))
    case SubscriptionDeleted => Stop(if ReadSubscription(payload).Some? then Succeeded else FailedForGood(MalformedPayload))
    case Unknown => Stop(Succeeded)
  }

  /** Steps 3 to 5: the customer must be mapped, the price known and the payload mappable, in this order. */
  function PrepareContract(cfg: Settings, sub: Subscription, price: string, m: Mappings): Phase {
    if sub.customer !in m.customers then Stop(TryAgain(CustomerNotMapped))
    else if price !in cfg.tiers then Stop(FailedForGood(UnknownTier))
    else
      var tier := cfg.tiers[price];
      match ContractRequestFor(sub.fields, tier, m.customers[sub.customer], cfg.rateCardId)
      case Err(_) => Stop(FailedForGood(CannotMap))
      case Ok(request) => CreateContract(sub, price, tier, request)
  }

  function AfterRead(cfg: Settings, kind: Kind, payload: Object, m: Mappings, ph: Phase): Phase
    requires Reading(ph)
  {
    match ph
    case Start => Begin(kind, payload, m)
    case ResolveCustomer(_, mapping) =>
      Stop(if mapping.customer in m.customers then Succeeded else FailedForGood(DatabaseIntegrity))
    case FindCustomer(sub, price) => PrepareContract(cfg, sub, price, m)
  }

  function AddedSubscription(sub: Subscription, price: string, tier: Tier, contract: string): Phase {
    Done(Succeeded, AddSubscription(sub.id, SubscriptionRow(sub.customer, contract, tier.name, price)))
  }

  /** The replies a waiting phase can get. */
  predicate Answers(ph: Phase, reply: Reply) {
    || (Calling(ph) && reply.Faulted?)
    || (ph.CreateCustomer? && reply.Created?)
    || (ph.RenameCustomer? && reply.Renamed?)
    || (ph.CreateContract? && (reply.Created? || reply.Conflict?))
    || (ph.RecoverContract? && reply.Listed?)
  }

  function AfterReply(ph: Phase, reply: Reply): Phase
    requires Answers(ph, reply)
  {
    if reply.Faulted? then Stop(VerdictOn(Classify(reply.fault))) else
      match ph
      case CreateCustomer(customer, _) => Done(Succeeded, AddCustomer(customer, reply.id))
      case RenameCustomer(_, _) => Stop(Succeeded)
      case CreateContract(sub, price, tier, request) =>
        if reply.Conflict? then RecoverContract(sub, price, tier, request)
        else AddedSubscription(sub, price, tier, reply.id)
      case RecoverContract(sub, price, tier, _) =>
        match reply.found
        case None => Stop(VerdictOn(ContractNotFound))
        case Some(id) => AddedSubscription(sub, price, tier, id)
  }

  predicate Accepts(ph: Phase, input: Input) {
    match input
    case Read => Reading(ph)
    case Heard(reply) => Answers(ph, reply)
  }

  function Advance(cfg: Settings, kind: Kind, payload: Object, m: Mappings, ph: Phase, input: Input): Phase
    requires Accepts(ph, input)
  {
    match input
    case Read => AfterRead(cfg, kind, payload, m, ph)
    case Heard(reply) => AfterReply(ph, reply)
  }

  /** A whole handler call against mappings that do not change, as far as the inputs lead it. */
  function Run(cfg: Settings, kind: Kind, payload: Object, m: Mappings, inputs: seq<Input>): Option<Phase> {
    if inputs == [] then Some(Start) else
      var n := |inputs| - 1;
      var before := Run(cfg, kind, payload, m, inputs[..n]);
      if before.Some? && Accepts(before.value, inputs[n])
      then Some(Advance(cfg, kind, payload, m, before.value, inputs[n]))
      else None
  }

  lemma RunOneMore(cfg: Settings, kind: Kind, payload: Object, m: Mappings, inputs: seq<Input>, input: Input)
    ensures var before := Run(cfg, kind, payload, m, inputs);
            Run(cfg, kind, payload, m, inputs + [input]) ==
            if before.Some? && Accepts(before.value, input)
            then Some(Advance(cfg, kind, payload, m, before.value, input))
            else None
  {
    assert (inputs + [input])[..|inputs|] == inputs;
  }

  /** One call of a waiting phase: what becomes of Metronome, and what it replies. */
  function Exchange(r: Remote, ph: Phase, a: Answer): (x: (Remote, Reply))
    requires Calling(ph)
    ensures Answers(ph, x.1)
  {
    match ph
    case CreateCustomer(_, name) =>
      (CreateCustomerEffect(r, name, a), if a.fault.Some? then Faulted(a.fault.value) else Created(a.newId))
    case RenameCustomer(id, name) =>
      (RenameEffect(r, id, name, a), if a.fault.Some? then Faulted(a.fault.value) else Renamed)
    case CreateContract(_, _, _, request) =>
      (CreateContractEffect(r, request, a), CreateContractReply(r, request, a))
    case RecoverContract(_, _, _, request) =>
      (r, ListReply(r, request, a))
  }

  // ----- A whole handler call, with nothing in between -----

  /** Where the reads of a handler lead when the mappings do not change: its call, or its end. */
  function AfterReads(cfg: Settings, kind: Kind, payload: Object, m: Mappings): (ph: Phase)
    ensures !Reading(ph)
  {
    var ph := Begin(kind, payload, m);
    if Reading(ph) then AfterRead(cfg, kind, payload, m, ph) else ph
  }

  /** What Metronome holds after the calls; looking contracts up changes nothing. */
  function RemoteFrom(r: Remote, ph: Phase, a: Answer): Remote {
    if Calling(ph) then Exchange(r, ph, a).0 else r
  }

  /** Where the calls lead: to the reply of the first, and after a 409 to that of the listing. */
  function EndFrom(r: Remote, ph: Phase, a: Answer, listing: Answer): (end: Phase)
    requires !Reading(ph)
    ensures end.Done?
  {
    if ph.Done? then ph else
      var (remote, reply) := Exchange(r, ph, a);
      var next := AfterReply(ph, reply);
      if next.Done? then next else AfterReply(next, Exchange(remote, next, listing).1)
  }

  /** What the calls hear, in order. */
  function HeardFrom(r: Remote, ph: Phase, a: Answer, listing: Answer): seq<Input>
    requires !Reading(ph)
  {
    if ph.Done? then [] else
      var (remote, reply) := Exchange(r, ph, a);
      var next := AfterReply(ph, reply);
      [Heard(reply)] + if next.Done? then [] else [Heard(Exchange(remote, next, listing).1)]
  }

  /** The reads of a whole call, followed by exactly the replies Metronome gives. */
  function WholeInputs(cfg: Settings, kind: Kind, payload: Object, m: Mappings, r: Remote, a: Answer, listing: Answer): seq<Input> {
    (if Reading(Begin(kind, payload, m)) then [Read, Read] else [Read])
    + HeardFrom(r, AfterReads(cfg, kind, payload, m), a, listing)
  }

  function WholeEnd(cfg: Settings, kind: Kind, payload: Object, m: Mappings, r: Remote, a: Answer, listing: Answer): (end: Phase)
    ensures end.Done?
  {
    EndFrom(r, AfterReads(cfg, kind, payload, m), a, listing)
  }

  lemma RunReads(cfg: Settings, kind: Kind, payload: Object, m: Mappings)
    ensures var before := if Reading(Begin(kind, payload, m)) then [Read, Read] else [Read];
            Run(cfg, kind, payload, m, before) == Some(AfterReads(cfg, kind, payload, m))
  {
    RunOneMore(cfg, kind, payload, m, [], Read);
    assert [] + [Read] == [Read];
    RunOneMore(cfg, kind, payload, m, [Read], Read);
    assert [Read] + [Read] == [Read, Read];
  }

  lemma RunCalls(
    cfg: Settings, kind: Kind, payload: Object, m: Mappings, before: seq<Input>, r: Remote, ph: Phase, a: Answer, listing: Answer)
    requires Run(cfg, kind, payload, m, before) == Some(ph) && !Reading(ph)
    ensures Run(cfg, kind, payload, m, before + HeardFrom(r, ph, a, listing)) == Some(EndFrom(r, ph, a, listing))
  {
    hide Run, Find;
    if ph.Done? {
      assert before + [] == before;
    } else {
      var (remote, reply) := Exchange(r, ph, a);
      var next := AfterReply(ph, reply);
      RunOneMore(cfg, kind, payload, m, before, Heard(reply));
      if next.Done? {
        assert [Heard(reply)] + [] == [Heard(reply)];
      } else {
        var second := Heard(Exchange(remote, next, listing).1);
        RunOneMore(cfg, kind, payload, m, before + [Heard(reply)], second);
        assert before + ([Heard(reply)] + [second]) == before + [Heard(reply)] + [second];
      }
    }
  }

  /** The inputs of a whole call lead the program to its end. */
  lemma WholeCallRuns(cfg: Settings, kind: Kind, payload: Object, m: Mappings, r: Remote, a: Answer, listing: Answer)
    ensures Run(cfg, kind, payload, m, WholeInputs(cfg, kind, payload, m, r, a, listing))
            == Some(WholeEnd(cfg, kind, payload, m, r, a, listing))
  {
    hide Run, AfterReads, HeardFrom, EndFrom;
    RunReads(cfg, kind, payload, m);
    RunCalls(cfg, kind, payload, m, if Reading(Begin(kind, payload, m)) then [Read, Read] else [Read], r,
             AfterReads(cfg, kind, payload, m), a, listing);
  }

  // ----- What a payload asks for -----

  /** The contract a subscription-created payload asks for, when nothing in the payload stands against it. */
  function Wanted(cfg: Settings, payload: Object): Option<Demand> {
    match ReadSubscription(payload)
    case None => None
    case Some(sub) =>
      match DemandOf(sub.fields)
      case Ok(demand) => if demand.priceId in cfg.tiers then Some(demand) else None
      case Err(_) => None
  }

  /** A customer payload from which a Metronome customer can be made. */
  predicate Mappable(payload: Object) {
    match ReadCustomer(payload)
    case None => false
    case Some(c) => CM.CustomerRequestFor(c.fields).Ok?
  }

  /** Nothing in the payload itself stands in the way of its handler. */
  predicate Sound(cfg: Settings, kind: Kind, payload: Object) {
    if AboutCustomer(kind) then Mappable(payload)
    else if kind.SubscriptionCreated? then Wanted(cfg, payload).Some?
    else if kind.Unknown? then true
    else ReadSubscription(payload).Some?
  }

  predicate BlamesPayload(reason: Reason) {
    reason == MalformedPayload || reason == CannotMap || reason == UnknownTier
  }

  predicate AsksFor(payload: Object, sub: Subscription, price: string) {
    ReadSubscription(payload) == Some(sub) && ExtractSinglePriceId(sub.fields) == Some(price)
  }

  ghost predicate FitsContract(
    cfg: Settings, kind: Kind, payload: Object, sub: Subscription, price: string, request: ContractRequest)
  {
    && kind.SubscriptionCreated?
    && ReadSubscription(payload) == Some(sub)
    && Wanted(cfg, payload).Some?
    && var demand := Wanted(cfg, payload).value;
       demand.subscriptionId == sub.id && demand.priceId == price && request.uniquenessKey == demand.Key()
  }

  ghost predicate FitsEnd(cfg: Settings, kind: Kind, payload: Object, verdict: Verdict, add: Insert) {
    && (add.AddCustomer? ==>
          && verdict.Succeeded? && AboutCustomer(kind) && Mappable(payload)
          && ReadCustomer(payload).value.id == add.customer)
    && (add.AddSubscription? ==>
          && verdict.Succeeded? && kind.SubscriptionCreated? && Wanted(cfg, payload).Some?
          && ReadSubscription(payload).value.id == add.subscription
          && ReadSubscription(payload).value.customer == add.row.customer
          && Wanted(cfg, payload).value.subscriptionId == add.subscription
          && Wanted(cfg, payload).value.priceId == add.row.price)
    && (verdict.FailedForGood? && BlamesPayload(verdict.reason) ==> !Sound(cfg, kind, payload))
  }

  /** What a phase owes to the payload alone. */
  ghost predicate Fits(cfg: Settings, kind: Kind, payload: Object, ph: Phase) {
    match ph
    case Start => true
    case ResolveCustomer(sub, _) => kind.SubscriptionCreated? && ReadSubscription(payload) == Some(sub)
    case FindCustomer(sub, price) => kind.SubscriptionCreated? && AsksFor(payload, sub, price)
    case CreateCustomer(customer, _) =>
      AboutCustomer(kind) && Mappable(payload) && ReadCustomer(payload).value.id == customer
    case RenameCustomer(_, _) => kind.CustomerUpdated? && Mappable(payload)
    case CreateContract(sub, price, tier, request) => FitsContract(cfg, kind, payload, sub, price, request)
    case RecoverContract(sub, price, tier, request) => FitsContract(cfg, kind, payload, sub, price, request)
    case Done(verdict, add) => FitsEnd(cfg, kind, payload, verdict, add)
  }

  lemma BeginFits(cfg: Settings, kind: Kind, payload: Object, m: Mappings)
    ensures Fits(cfg, kind, payload, Begin(kind, payload, m))
  {
    if kind.SubscriptionCreated? && ReadSubscription(payload).Some? {
      PayloadChecksAgree(ReadSubscription(payload).value.fields);
    }
  }

  lemma ReadAsksForItsDemand(payload: Object, sub: Subscription, price: string)
    requires AsksFor(payload, sub, price)
    ensures NonEmptyString(Get(sub.fields, "id")) == Some(sub.id)
    ensures DemandOf(sub.fields).Ok? ==> DemandOf(sub.fields).value.subscriptionId == sub.id && DemandOf(sub.fields).value.priceId == price
  {
    hide ExtractSinglePriceId, RequireSingleItem, PeriodStart;
    PayloadChecksAgree(sub.fields);
  }

  lemma PrepareFits(cfg: Settings, payload: Object, m: Mappings, sub: Subscription, price: string)
    requires AsksFor(payload, sub, price)
    ensures Fits(cfg, SubscriptionCreated, payload, PrepareContract(cfg, sub, price, m))
  {
    hide ReadSubscription, ExtractSinglePriceId, DemandOf, ContractRequestFor, UniquenessKey;
    ReadAsksForItsDemand(payload, sub, price);
  }

  lemma ReplyFits(cfg: Settings, kind: Kind, payload: Object, ph: Phase, reply: Reply)
    requires Answers(ph, reply) && Fits(cfg, kind, payload, ph)
    ensures Fits(cfg, kind, payload, AfterReply(ph, reply))
  {
    hide ReadSubscription, ReadCustomer, Wanted, Mappable, Sound, UniquenessKey, Classify;
  }

  lemma AdvanceFits(cfg: Settings, kind: Kind, payload: Object, m: Mappings, ph: Phase, input: Input)
    requires Accepts(ph, input) && Fits(cfg, kind, payload, ph)
    ensures Fits(cfg, kind, payload, Advance(cfg, kind, payload, m, ph, input))
  {
    hide Begin, PrepareContract, AfterReply, FitsContract, AsksFor, Mappable, Sound;
    match input {
      case Heard(reply) => ReplyFits(cfg, kind, payload, ph, reply);
      case Read =>
        if ph.Start? {
          BeginFits(cfg, kind, payload, m);
        } else if ph.FindCustomer? {
          PrepareFits(cfg, payload, m, ph.sub, ph.price);
        }
    }
  }

  lemma {:induction false} RunFits(cfg: Settings, kind: Kind, payload: Object, m: Mappings, inputs: seq<Input>)
    requires Run(cfg, kind, payload, m, inputs).Some?
    ensures Fits(cfg, kind, payload, Run(cfg, kind, payload, m, inputs).value)
  {
    if inputs == [] {
    } else {
      var n := |inputs| - 1;
      RunFits(cfg, kind, payload, m, inputs[..n]);
      AdvanceFits(cfg, kind, payload, m, Run(cfg, kind, payload, m, inputs[..n]).value, inputs[n]);
    }
  }
}
