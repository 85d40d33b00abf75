/**
 What an attempt does, told from the event type as Stripe writes it, the fields of the payload, the
 tables and Metronome's last reply. Every committed attempt of every run does just that.
 */
module AttemptMeaning {
  import opened Wrappers
  import opened Json
  import opened Settings
  import Rfc3339
  import opened Schema
  import opened SubscriptionMapper
  import CM = CustomerMapper
  import opened Metronome
  import opened HandlerProgram
  import opened Payloads

  const CUSTOMER_TYPES := ["customer.created", "customer.updated"]
  const CHECKED_TYPES := ["customer.subscription.updated", "customer.subscription.deleted"]

  function HourBefore(raw: int): int {
    raw - raw % 3600
  }

  /** Where an event about a customer leads before any call. */
  function CustomerCourse(created: bool, payload: Object, m: Mappings): Phase {
    if !NamesCustomer(payload) then Stop(FailedForGood(MalformedPayload)) else
    var customer := Body(payload);
    var id := customer["id"].text;
    if id in m.customers && created then Stop(Succeeded)
    else if !IsVisible(customer, "name") && !IsVisible(customer, "email") then Stop(FailedForGood(CannotMap))
    else
      var name := CM.Strip(if IsVisible(customer, "name") then customer["name"].text else customer["email"].text);
      if id in m.customers then RenameCustomer(m.customers[id], name) else CreateCustomer(id, name)
  }

  /** Where a created subscription leads before any call: the checks in their order. */
  function SubscriptionCourse(cfg: Settings, payload: Object, m: Mappings): Phase {
    if !NamesSubscription(payload) then Stop(FailedForGood(MalformedPayload)) else
    var sub := Body(payload);
    var id, customer := sub["id"].text, sub["customer"].text;
    if id in m.subscriptions then
      Stop(if m.subscriptions[id].customer in m.customers then Succeeded else FailedForGood(DatabaseIntegrity))
    else if !HasPrice(sub) then Stop(FailedForGood(MalformedPayload))
    else if customer !in m.customers then Stop(TryAgain(CustomerNotMapped))
    else if Price(sub) !in cfg.tiers then Stop(FailedForGood(UnknownTier))
    else if !CanStart(sub) || !Rfc3339.Representable(HourBefore(RawStart(sub))) then Stop(FailedForGood(CannotMap))
    else
      var tier := cfg.tiers[Price(sub)];
      RequestSaysWhatThePayloadSays(sub, tier, m.customers[customer], cfg.rateCardId);
      CreateContract(Subscription(id, customer, sub), Price(sub), tier,
                     ContractRequestFor(sub, tier, m.customers[customer], cfg.rateCardId).value)
  }

  function Course(cfg: Settings, eventType: string, payload: Object, m: Mappings): Phase {
    if eventType == "customer.created" || eventType == "customer.updated" then
      CustomerCourse(eventType == "customer.created", payload, m)
    else if eventType == "customer.subscription.created" then SubscriptionCourse(cfg, payload, m)
    else if eventType == "customer.subscription.updated" || eventType == "customer.subscription.deleted" then
      Stop(if NamesSubscription(payload) then Succeeded else FailedForGood(MalformedPayload))
    else Stop(Succeeded)
  }

  lemma BodyHasId(payload: Object)
    ensures NamesCustomer(payload) ==> HasBody(payload) && HasText(Body(payload), "id")
    ensures NamesSubscription(payload) ==> HasBody(payload) && HasText(Body(payload), "id") && HasText(Body(payload), "customer")
  {
  }

  lemma CustomerReadsFollow(cfg: Settings, kind: Kind, payload: Object, m: Mappings)
    requires AboutCustomer(kind)
    ensures AfterReads(cfg, kind, payload, m) == CustomerCourse(kind.CustomerCreated?, payload, m)
  {
    hide ReadCustomer, ReadSubscription, CM.CustomerRequestFor, IsVisible, NamesCustomer, CM.Strip;
    ReadersAgree(payload);
    if NamesCustomer(payload) {
      BodyHasId(payload);
      NameComesFirst(Body(payload));
    }
  }

  lemma SubscriptionReadsFollow(cfg: Settings, payload: Object, m: Mappings)
    ensures AfterReads(cfg, SubscriptionCreated, payload, m) == SubscriptionCourse(cfg, payload, m)
  {
    hide ReadCustomer, ReadSubscription, ExtractSinglePriceId, ContractRequestFor, NamesSubscription, HasPrice, Price, CanStart, RawStart, Rfc3339.Representable;
    ReadersAgree(payload);
    BodyHasId(payload);
    if NamesSubscription(payload) {
      var sub := Body(payload);
      OnePriceOrNone(sub);
      if HasPrice(sub) && Price(sub) in cfg.tiers && sub["customer"].text in m.customers {
        RequestSaysWhatThePayloadSays(sub, cfg.tiers[Price(sub)], m.customers[sub["customer"].text], cfg.rateCardId);
      }
    }
  }

  lemma OtherReadsFollow(cfg: Settings, eventType: string, payload: Object, m: Mappings)
    requires !AboutCustomer(KindOf(eventType)) && !KindOf(eventType).SubscriptionCreated?
    ensures AfterReads(cfg, KindOf(eventType), payload, m) ==
            if KindOf(eventType).Unknown? || NamesSubscription(payload) then Stop(Succeeded) else Stop(FailedForGood(MalformedPayload))
  {
    hide ReadSubscription, KindOf, NamesSubscription;
    ReadersAgree(payload);
  }

  /** The program, dispatched on the type, takes this course for every type and every payload. */
  lemma ReadsFollowCourse(cfg: Settings, eventType: string, payload: Object, m: Mappings)
    ensures AfterReads(cfg, KindOf(eventType), payload, m) == Course(cfg, eventType, payload, m)
  {
    hide AfterReads, CustomerCourse, SubscriptionCourse;
    if AboutCustomer(KindOf(eventType)) {
      CustomerReadsFollow(cfg, KindOf(eventType), payload, m);
    } else if KindOf(eventType).SubscriptionCreated? {
      SubscriptionReadsFollow(cfg, payload, m);
    } else {
      OtherReadsFollow(cfg, eventType, payload, m);
    }
  }

  lemma EmptyPayloadIsRefused(cfg: Settings, m: Mappings)
    ensures !NamesSubscription(map[]) && SubscriptionCourse(cfg, map[], m) == Stop(FailedForGood(MalformedPayload))
    ensures forall created :: CustomerCourse(created, map[], m) == Stop(FailedForGood(MalformedPayload))
  {
  }

  /** Exactly the types without a handler are processed whatever the payload says. */
  lemma OnlyUnknownTypesAlwaysSucceed(cfg: Settings, eventType: string, m: Mappings)
    ensures (forall payload: Object :: AfterReads(cfg, KindOf(eventType), payload, m) == Stop(Succeeded)) <==>
            eventType !in CUSTOMER_TYPES + CHECKED_TYPES + ["customer.subscription.created"]
  {
    hide AfterReads, KindOf, SubscriptionCourse, CustomerCourse;
    ReadsFollowCourse(cfg, eventType, map[], m);
    EmptyPayloadIsRefused(cfg, m);
    if eventType !in CUSTOMER_TYPES + CHECKED_TYPES + ["customer.subscription.created"] {
      forall payload: Object ensures AfterReads(cfg, KindOf(eventType), payload, m) == Stop(Succeeded) {
        ReadsFollowCourse(cfg, eventType, payload, m);
      }
    }
  }

  // ----- After a call -----

  /** Metronome is down, busy or failing: the same call may succeed later. */
  predicate IsTemporary(fault: Fault) {
    fault.NoConnection? || (fault.HttpStatus? && (fault.code == 429 || 500 <= fault.code < 600))
  }

  function FaultVerdict(fault: Fault): Verdict {
    if IsTemporary(fault) then TryAgain(MetronomeUnavailable) else FailedForGood(MetronomeRejected)
  }

  /** The row an answered call adds. */
  function Link(call: Phase, id: string): Insert {
    match call
    case CreateCustomer(customer, _) => AddCustomer(customer, id)
    case CreateContract(sub, price, tier, _) => AddSubscription(sub.id, SubscriptionRow(sub.customer, id, tier.name, price))
    case _ => NoRow
  }

  /** How an attempt ends that was about to make this call and last heard this. */
  ghost predicate EndsAfter(call: Phase, reply: Reply, verdict: Verdict, add: Insert) {
    match reply
    case Faulted(fault) => verdict == FaultVerdict(fault) && add == NoRow
    case Created(id) => (call.CreateCustomer? || call.CreateContract?) && verdict == Succeeded && add == Link(call, id)
    case Renamed => call.RenameCustomer? && verdict == Succeeded && add == NoRow
    case Listed(Some(id)) => call.CreateContract? && verdict == Succeeded && add == Link(call, id)
    case Listed(None) => call.CreateContract? && verdict == TryAgain(ContractMissing) && add == NoRow
    case Conflict => false
  }

  /** An attempt that was about to do this ends so, after these reads and replies. */
  ghost predicate Ends(course: Phase, inputs: seq<Input>, verdict: Verdict, add: Insert) {
    if course.Done? then
      verdict == course.verdict && add == NoRow && forall i :: 0 <= i < |inputs| ==> inputs[i] == Read
    else
      inputs != [] && inputs[|inputs| - 1].Heard? && EndsAfter(course, inputs[|inputs| - 1].reply, verdict, add)
  }

  /** How far a handler has come on its course. */
  ghost predicate OnCourse(course: Phase, begun: Phase, inputs: seq<Input>, ph: Phase) {
    || (&& (forall i :: 0 <= i < |inputs| ==> inputs[i] == Read)
        && (ph == Start || (ph == begun && (Reading(begun) || ph == course)) || ph == course))
    || (course.CreateContract? && ph == RecoverContract(course.sub, course.price, course.tier, course.request))
    || (ph.Done? && Calling(course) && Ends(course, inputs, ph.verdict, ph.add))
  }

  lemma ReplyEnds(course: Phase, ph: Phase, reply: Reply, inputs: seq<Input>)
    requires Calling(course) && Answers(ph, reply)
    requires ph == course || (course.CreateContract? && ph == RecoverContract(course.sub, course.price, course.tier, course.request))
    requires inputs != [] && inputs[|inputs| - 1] == Heard(reply) && !course.RecoverContract?
    ensures var next := AfterReply(ph, reply);
            || (course.CreateContract? && next == RecoverContract(course.sub, course.price, course.tier, course.request))
            || (next.Done? && Ends(course, inputs, next.verdict, next.add))
  {
  }

  lemma CourseNeverRecovers(cfg: Settings, kind: Kind, payload: Object, m: Mappings)
    ensures var ph := AfterReads(cfg, kind, payload, m); !ph.RecoverContract? && (ph.Done? ==> ph.add.NoRow?)
    ensures !Begin(kind, payload, m).Start? && !Begin(kind, payload, m).RecoverContract?
    ensures Reading(Begin(kind, payload, m)) || Begin(kind, payload, m) == AfterReads(cfg, kind, payload, m)
  {
    hide ReadCustomer, ReadSubscription, CM.CustomerRequestFor, ExtractSinglePriceId;
  }

  lemma {:induction false} RunIsOnCourse(cfg: Settings, kind: Kind, payload: Object, m: Mappings, inputs: seq<Input>)
    requires Run(cfg, kind, payload, m, inputs).Some?
    ensures OnCourse(AfterReads(cfg, kind, payload, m), Begin(kind, payload, m), inputs, Run(cfg, kind, payload, m, inputs).value)
  {
    hide Begin, PrepareContract, EndsAfter;
    CourseNeverRecovers(cfg, kind, payload, m);
    if inputs == [] {
    } else {
      var most, last := inputs[..|inputs| - 1], inputs[|inputs| - 1];
      RunIsOnCourse(cfg, kind, payload, m, most);
      var ph := Run(cfg, kind, payload, m, most).value;
      if last.Heard? {
        ReplyEnds(AfterReads(cfg, kind, payload, m), ph, last.reply, inputs);
      }
    }
  }

  /** A run of a handler that reached its end did so on the course its event has in these tables. */
  lemma RunEndsOnCourse(cfg: Settings, eventType: string, payload: Object, m: Mappings, inputs: seq<Input>)
    requires Run(cfg, KindOf(eventType), payload, m, inputs).Some? && Run(cfg, KindOf(eventType), payload, m, inputs).value.Done?
    ensures var end := Run(cfg, KindOf(eventType), payload, m, inputs).value;
            Ends(Course(cfg, eventType, payload, m), inputs, end.verdict, end.add)
  {
    hide Run, Begin, Course, AfterReads, EndsAfter;
    ReadsFollowCourse(cfg, eventType, payload, m);
    RunIsOnCourse(cfg, KindOf(eventType), payload, m, inputs);
    CourseNeverRecovers(cfg, KindOf(eventType), payload, m);
  }

  // ----- What success leaves behind -----

  /** The mapping a processed event of this type leaves, or what its payload must have shown. */
  predicate LeavesItsMark(eventType: string, payload: Object, m: Mappings) {
    if eventType == "customer.created" || eventType == "customer.updated" then
      NamesCustomer(payload) && Body(payload)["id"].text in m.customers
    else if eventType == "customer.subscription.created" then
      NamesSubscription(payload) && Body(payload)["id"].text in m.subscriptions
    else if eventType == "customer.subscription.updated" || eventType == "customer.subscription.deleted" then
      NamesSubscription(payload)
    else true
  }

  /** Any successful end leaves its mark. */
  lemma SuccessLeavesItsMark(cfg: Settings, eventType: string, payload: Object, m: Mappings, inputs: seq<Input>, verdict: Verdict, add: Insert)
    requires Ends(Course(cfg, eventType, payload, m), inputs, verdict, add) && verdict.Succeeded?
    ensures LeavesItsMark(eventType, payload, Inserted(m, add))
  {
    hide IsVisible, HasPrice, CanStart, RawStart, ContractRequestFor, CM.Strip, Rfc3339.Representable;
  }

  lemma DemandMeans(sub: Object)
    requires HasText(sub, "id")
    ensures DemandOf(sub).Ok? <==> HasPrice(sub) && CanStart(sub) && Rfc3339.Representable(HourBefore(RawStart(sub)))
    ensures DemandOf(sub).Ok? ==> DemandOf(sub).value.priceId == Price(sub)
  {
    hide RequireSingleItem, RawPeriodStart, HasPrice, Price, Rfc3339.Representable;
    OnePriceOrNone(sub);
    if HasPrice(sub) {
      ItemStartComesFirst(sub);
    }
  }

  lemma MappableMeans(payload: Object)
    ensures Mappable(payload) <==>
            NamesCustomer(payload) && (IsVisible(Body(payload), "name") || IsVisible(Body(payload), "email"))
  {
    hide ReadCustomer, NamesCustomer, IsVisible, CM.CustomerRequestFor;
    ReadersAgree(payload);
    BodyHasId(payload);
    if NamesCustomer(payload) {
      NameComesFirst(Body(payload));
    }
  }

  predicate CanBeWanted(cfg: Settings, payload: Object) {
    && NamesSubscription(payload) && HasPrice(Body(payload)) && Price(Body(payload)) in cfg.tiers
    && CanStart(Body(payload)) && Rfc3339.Representable(HourBefore(RawStart(Body(payload))))
  }

  lemma WantedMeans(cfg: Settings, payload: Object)
    ensures Wanted(cfg, payload).Some? <==> CanBeWanted(cfg, payload)
  {
    hide ReadSubscription, NamesSubscription, DemandOf, HasPrice, Price, CanStart, RawStart, Rfc3339.Representable;
    ReadersAgree(payload);
    BodyHasId(payload);
    if NamesSubscription(payload) {
      DemandMeans(Body(payload));
    }
  }

  /** Nothing in the payload stands in the way. */
  predicate IsSound(cfg: Settings, eventType: string, payload: Object) {
    if eventType == "customer.created" || eventType == "customer.updated" then
      NamesCustomer(payload) && (IsVisible(Body(payload), "name") || IsVisible(Body(payload), "email"))
    else if eventType == "customer.subscription.created" then CanBeWanted(cfg, payload)
    else if eventType == "customer.subscription.updated" || eventType == "customer.subscription.deleted" then
      NamesSubscription(payload)
    else true
  }

  lemma SoundMeans(cfg: Settings, eventType: string, payload: Object)
    ensures Sound(cfg, KindOf(eventType), payload) <==> IsSound(cfg, eventType, payload)
  {
    hide Mappable, Wanted, CanBeWanted, ReadSubscription, NamesCustomer, NamesSubscription, IsVisible;
    ReadersAgree(payload);
    BodyHasId(payload);
    MappableMeans(payload);
    WantedMeans(cfg, payload);
  }
}
