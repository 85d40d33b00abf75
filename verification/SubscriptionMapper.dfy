/** Stripe subscription to Metronome contract request: pure functions of the payload. */
module SubscriptionMapper {
  import opened Wrappers
  import opened Json
  import opened Settings
  import Decimal
  import Rfc3339

  datatype MapError =
    | MissingId
    | MissingItems
    | ItemsNotAList
    | NoItems
    | MultipleItems(count: nat)
    | ItemNotAnObject
    | MissingPrice
    | MissingPriceId
    | MissingPeriodStart
    | PeriodStartOutOfRange

  datatype RecurringCredit = RecurringCredit(
    name: string, productId: string, priority: int, startingAt: string,
    creditTypeId: string, quantity: int, unitPrice: int, rolloverFraction: real, frequency: string)

  datatype ContractRequest = ContractRequest(
    customerId: string, rateCardId: string, startingAt: string, uniquenessKey: string, name: string,
    credit: RecurringCredit)

  /** The price of the one item of a subscription, and the item itself. */
  function RequireSingleItem(sub: Object): Result<(string, Object), MapError> {
    var items := Get(sub, "items");
    if !items.JObject? then Err(MissingItems) else
    var data := Get(items.fields, "data");
    if !data.JList? then Err(ItemsNotAList)
    else if |data.items| == 0 then Err(NoItems)
    else if |data.items| > 1 then Err(MultipleItems(|data.items|))
    else
      var item := data.items[0];
      if !item.JObject? then Err(ItemNotAnObject) else
      var price := Get(item.fields, "price");
      if !price.JObject? then Err(MissingPrice) else
        match NonEmptyString(Get(price.fields, "id"))
        case None => Err(MissingPriceId)
        case Some(id) => Ok((id, item.fields))
  }

  /** `raw - (raw % 3600)`: the last whole hour at or before `raw`, for negative seconds too. */
  function FloorHour(raw: int): (hour: int)
    ensures hour % 3600 == 0 && raw - 3600 < hour <= raw
  {
    raw - raw % 3600
  }

  /** The period start in seconds, read from the item first and then from the subscription. */
  function RawPeriodStart(sub: Object, item: Object): Option<int> {
    match Integer(Get(item, "current_period_start"))
    case Some(n) => Some(n)
    case None => Integer(Get(sub, "current_period_start"))
  }

  function PeriodStart(sub: Object, item: Object): Result<int, MapError> {
    match RawPeriodStart(sub, item)
    case None => Err(MissingPeriodStart)
    case Some(raw) => Ok(FloorHour(raw))
  }

  function UniquenessKey(subscriptionId: string, priceId: string, hour: int): string {
    subscriptionId + "_" + priceId + "_" + Decimal.Text(hour)
  }

  /** What one subscription payload asks for, when it can be mapped at all. */
  datatype Demand = Demand(subscriptionId: string, priceId: string, hour: int) {
    function Key(): string {
      UniquenessKey(subscriptionId, priceId, hour)
    }
  }

  function DemandOf(sub: Object): Result<Demand, MapError> {
    match NonEmptyString(Get(sub, "id"))
    case None => Err(MissingId)
    case Some(id) =>
      var (priceId, item) :- RequireSingleItem(sub);
      var hour :- PeriodStart(sub, item);
      if Rfc3339.Representable(hour) then Ok(Demand(id, priceId, hour)) else Err(PeriodStartOutOfRange)
  }

  /** `stripe_subscription_to_metronome_contract_request`. */
  function ContractRequestFor(sub: Object, tier: Tier, customerId: string, rateCardId: string)
    : (r: Result<ContractRequest, MapError>)
    ensures r.Ok? <==> DemandOf(sub).Ok?
    ensures r.Ok? ==> r.value.customerId == customerId && r.value.uniquenessKey == DemandOf(sub).value.Key()
  {
    var demand :- DemandOf(sub);
    var start := Rfc3339.IsoUtc(demand.hour);
    var credit := RecurringCredit(
      tier.name + " " + tier.frequency.LowerText() + " allotment", tier.productId, 100, start,
      tier.creditTypeId, tier.creditPerPeriod, 1, 1.0, tier.frequency.Text());
    Ok(ContractRequest(
      customerId, rateCardId, start, demand.Key(),
      "Stripe Subscription " + demand.subscriptionId + " (" + tier.name + ")", credit))
  }

  /**
   The start time and the key of one request name the same second: the time is written on a whole
   hour, and reading it back gives the number that ends the key.
   */
  lemma RequestTimesAgree(sub: Object, tier: Tier, customerId: string, rateCardId: string)
    requires ContractRequestFor(sub, tier, customerId, rateCardId).Ok?
    ensures var request, demand := ContractRequestFor(sub, tier, customerId, rateCardId).value, DemandOf(sub).value;
            && Rfc3339.ReadIso(request.startingAt) == Some(demand.hour)
            && |request.startingAt| == 25 && request.startingAt[13..19] == ":00:00"
            && request.credit.startingAt == request.startingAt
            && RequireSingleItem(sub).Ok?
            && var item := RequireSingleItem(sub).value.1;
               var raw := RawPeriodStart(sub, item);
               && raw.Some? && demand.hour % 3600 == 0 && raw.value - 3600 < demand.hour <= raw.value
               && match Get(item, "current_period_start")
                  case JInt(n) => raw.value == n
                  case JBool(b) => raw.value == if b then 1 else 0
                  case _ => raw == Integer(Get(sub, "current_period_start"))
  {
    hide Rfc3339.IsoUtc, Rfc3339.ReadIso;
    var demand := DemandOf(sub).value;
    Rfc3339.IsoReadsBack(demand.hour);
    Rfc3339.WholeHourText(demand.hour);
  }

  // ----- The uniqueness key -----

  predicate Alphanumeric(c: char) {
    '0' <= c <= '9' || 'a' <= c <= 'z' || 'A' <= c <= 'Z'
  }

  /** Stripe's own shape of a subscription id. */
  predicate StripeSubscriptionId(id: string) {
    && |id| >= 4 && id[..4] == "sub_"
    && forall i :: 4 <= i < |id| ==> Alphanumeric(id[i])
  }

  /** One id followed by the separator begins the other id. */
  predicate Extends(longer: string, shorter: string) {
    shorter + "_" <= longer
  }

  /** The later of two candidate separators falls inside the tail of the shorter start. */
  lemma SeparatorInTail(a: string, tail: string, b: string, rest: string)
    requires |a| > |b| && a + "_" + tail == b + "_" + rest
    ensures '_' in rest
  {
    assert (a + "_" + tail)[|a|] == '_';
    assert (b + "_" + rest)[|a|] == rest[|a| - |b| - 1];
  }

  /** Two texts that end in an underscore and an underscore-free tail are equal only piece by piece. */
  lemma LastUnderscore(a: string, tail: string, b: string, rest: string)
    requires '_' !in tail && '_' !in rest
    requires a + "_" + tail == b + "_" + rest
    ensures a == b && tail == rest
  {
    var whole := a + "_" + tail;
    if |a| > |b| {
      SeparatorInTail(a, tail, b, rest);
    } else if |a| < |b| {
      SeparatorInTail(b, rest, a, tail);
    } else {
      assert a == whole[..|a|] && b == whole[..|b|];
      assert tail == whole[|a| + 1..] && rest == whole[|b| + 1..];
    }
  }

  /** Equal keys have equal hours, and the same text before the hour. */
  lemma KeysAgreeBeforeHour(s: string, p: string, g: int, t: string, q: string, h: int)
    ensures UniquenessKey(s, p, g) == UniquenessKey(t, q, h) <==> s + "_" + p == t + "_" + q && g == h
  {
    Decimal.TextReadsBack(g);
    Decimal.TextReadsBack(h);
    if UniquenessKey(s, p, g) == UniquenessKey(t, q, h) {
      LastUnderscore(s + "_" + p, Decimal.Text(g), t + "_" + q, Decimal.Text(h));
    }
  }

  /** For one subscription, price and hour are read off the key. */
  lemma KeyInjectiveForOneSubscription(s: string, p: string, g: int, q: string, h: int)
    requires UniquenessKey(s, p, g) == UniquenessKey(s, q, h)
    ensures p == q && g == h
  {
    KeysAgreeBeforeHour(s, p, g, s, q, h);
    assert p == (s + "_" + p)[|s| + 1..] && q == (s + "_" + q)[|s| + 1..];
  }

  lemma CollisionExtends(s: string, p: string, g: int, t: string, q: string, h: int)
    requires s != t && UniquenessKey(s, p, g) == UniquenessKey(t, q, h)
    ensures Extends(s, t) || Extends(t, s)
  {
    KeysAgreeBeforeHour(s, p, g, t, q, h);
    var whole := s + "_" + p;
    assert whole == t + "_" + q;
    assert s == whole[..|s|] && t == whole[..|t|];
    if |s| < |t| {
      assert s + "_" == whole[..|s| + 1] == t[..|s| + 1];
    } else {
      assert t + "_" == whole[..|t| + 1] == s[..|t| + 1];
    }
  }

  /** A collision for a pair of ids of which the first, underscored, begins the second. */
  lemma CollisionOf(s: string, t: string)
    requires Extends(t, s)
    ensures exists p: string, q: string, g: int, h: int ::
              p != "" && q != "" && UniquenessKey(s, p, g) == UniquenessKey(t, q, h)
    ensures exists p: string, q: string, g: int, h: int ::
              p != "" && q != "" && UniquenessKey(t, p, g) == UniquenessKey(s, q, h)
  {
    var rest := t[|s| + 1..];
    var p := rest + "_" + "c";
    assert t == s + "_" + rest;
    assert s + "_" + p == t + "_" + "c";
    KeysAgreeBeforeHour(s, p, 0, t, "c", 0);
    assert UniquenessKey(s, p, 0) == UniquenessKey(t, "c", 0);
    assert UniquenessKey(t, "c", 0) == UniquenessKey(s, p, 0);
  }

  /**
   Exactly when the keys of two subscriptions can collide, for some prices and hours: one id
   extended by an underscore begins the other.
   */
  lemma KeysCollideIff(s: string, t: string)
    requires s != t
    ensures (exists p: string, q: string, g: int, h: int ::
              p != "" && q != "" && UniquenessKey(s, p, g) == UniquenessKey(t, q, h))
            <==> Extends(s, t) || Extends(t, s)
  {
    forall p: string, q: string, g: int, h: int | UniquenessKey(s, p, g) == UniquenessKey(t, q, h)
      ensures Extends(s, t) || Extends(t, s)
    {
      CollisionExtends(s, p, g, t, q, h);
    }
    if Extends(s, t) {
      CollisionOf(t, s);
    } else if Extends(t, s) {
      CollisionOf(s, t);
    }
  }

  /** The keys of these two subscriptions never collide. */
  predicate KeysApart(s: string, t: string) {
    s == t || (!Extends(s, t) && !Extends(t, s))
  }

  /** Keys that are apart determine all three parts. */
  lemma KeyParts(s: string, p: string, g: int, t: string, q: string, h: int)
    requires KeysApart(s, t) && UniquenessKey(s, p, g) == UniquenessKey(t, q, h)
    ensures s == t && p == q && g == h
  {
    if s == t {
      KeyInjectiveForOneSubscription(s, p, g, q, h);
    } else {
      CollisionExtends(s, p, g, t, q, h);
    }
  }

  lemma ShapedIdHasNoExtension(longer: string, shorter: string)
    requires Extends(longer, shorter) && |shorter| >= 4
    ensures !StripeSubscriptionId(longer)
  {
    assert longer[|shorter|] == (shorter + "_")[|shorter|] == '_';
  }

  /** Ids of Stripe's shape never extend one another. */
  lemma ShapedIdsAreApart(s: string, t: string)
    requires StripeSubscriptionId(s) && StripeSubscriptionId(t)
    ensures KeysApart(s, t)
  {
    if Extends(s, t) {
      ShapedIdHasNoExtension(s, t);
    } else if Extends(t, s) {
      ShapedIdHasNoExtension(t, s);
    }
  }

  lemma KeyInjective(s: string, p: string, g: int, t: string, q: string, h: int)
    requires StripeSubscriptionId(s) && StripeSubscriptionId(t)
    requires UniquenessKey(s, p, g) == UniquenessKey(t, q, h)
    ensures s == t && p == q && g == h
  {
    ShapedIdsAreApart(s, t);
    KeyParts(s, p, g, t, q, h);
  }

  /** The shape is needed: an id with a second underscore collides. */
  lemma ShapeIsNeeded(hour: int)
    ensures UniquenessKey("a_b", "c", hour) == UniquenessKey("a", "b_c", hour)
  {
    assert "a_b" + "_" + "c" == "a" + "_" + "b_c";
  }
}
