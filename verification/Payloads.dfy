/**
 What the payload fields of an event say, by plain look-ups in the JSON tree. The readers of the handlers
 and mappers, which go step by step and stop at the first fault, agree with them on every tree.
 */
module Payloads {
  import opened Wrappers
  import opened Json
  import opened Settings
  import Decimal
  import Rfc3339
  import opened SubscriptionMapper
  import CM = CustomerMapper
  import opened HandlerProgram

  // ----- The tree -----

  predicate HasObject(dict: Object, key: string) {
    key in dict && dict[key].JObject?
  }

  predicate HasText(dict: Object, key: string) {
    key in dict && dict[key].JString? && dict[key].text != ""
  }

  /** The event carries `data.object`. */
  predicate HasBody(payload: Object) {
    HasObject(payload, "data") && HasObject(payload["data"].fields, "object")
  }

  function Body(payload: Object): Object
    requires HasBody(payload)
  {
    payload["data"].fields["object"].fields
  }

  predicate NamesCustomer(payload: Object) {
    HasBody(payload) && HasText(Body(payload), "id")
  }

  predicate NamesSubscription(payload: Object) {
    HasBody(payload) && HasText(Body(payload), "id") && HasText(Body(payload), "customer")
  }

  lemma ReadersAgree(payload: Object)
    ensures ReadCustomer(payload) ==
            if NamesCustomer(payload) then Some(Customer(Body(payload)["id"].text, Body(payload))) else None
    ensures ReadSubscription(payload) ==
            if NamesSubscription(payload)
            then Some(Subscription(Body(payload)["id"].text, Body(payload)["customer"].text, Body(payload))) else None
  {
  }

  // ----- Customers -----

  predicate IsVisible(dict: Object, key: string) {
    key in dict && dict[key].JString? && exists k :: 0 <= k < |dict[key].text| && !CM.IsSpace(dict[key].text[k])
  }

  lemma VisibleMeansText(dict: Object, key: string)
    ensures CM.VisibleText(Get(dict, key)) == if IsVisible(dict, key) then Some(CM.Strip(dict[key].text)) else None
  {
  }

  /** The name sent is the stripped name, or the stripped e-mail address when the name shows nothing. */
  lemma NameComesFirst(customer: Object)
    ensures CM.CustomerRequestFor(customer).Ok? <==>
            HasText(customer, "id") && (IsVisible(customer, "name") || IsVisible(customer, "email"))
    ensures CM.CustomerRequestFor(customer).Ok? ==>
              var request := CM.CustomerRequestFor(customer).value;
              && request.name == CM.Strip(if IsVisible(customer, "name") then customer["name"].text else customer["email"].text)
              && request.ingestAliases == [customer["id"].text] && request.stripeCustomerId == customer["id"].text
  {
    hide CM.VisibleText, CM.Strip, IsVisible;
    VisibleMeansText(customer, "name");
    VisibleMeansText(customer, "email");
  }

  /** The characters stripped are the ones Python counts as white space. */
  lemma WhiteSpace(c: char)
    ensures CM.IsSpace(c) <==>
            c as int in {9, 10, 11, 12, 13, 28, 29, 30, 31, 32, 133, 160, 5760, 8192, 8193, 8194, 8195, 8196, 8197, 8198, 8199,
                         8200, 8201, 8202, 8232, 8233, 8239, 8287, 12288}
  {
  }

  // ----- Subscriptions -----

  /** Exactly one item, with a price that has an id. */
  predicate HasOneItem(sub: Object) {
    && HasObject(sub, "items") && "data" in sub["items"].fields && sub["items"].fields["data"].JList?
    && |sub["items"].fields["data"].items| == 1 && sub["items"].fields["data"].items[0].JObject?
  }

  function Item(sub: Object): Object
    requires HasOneItem(sub)
  {
    sub["items"].fields["data"].items[0].fields
  }

  predicate HasPrice(sub: Object) {
    HasOneItem(sub) && HasObject(Item(sub), "price") && HasText(Item(sub)["price"].fields, "id")
  }

  function Price(sub: Object): string
    requires HasPrice(sub)
  {
    Item(sub)["price"].fields["id"].text
  }

  /** One item and one price, or the payload is refused, by the handler and by the mapper. */
  lemma OnePriceOrNone(sub: Object)
    ensures ExtractSinglePriceId(sub) == if HasPrice(sub) then Some(Price(sub)) else None
    ensures RequireSingleItem(sub).Ok? <==> HasPrice(sub)
    ensures HasPrice(sub) ==> RequireSingleItem(sub).value == (Price(sub), Item(sub))
  {
  }

  predicate HasStart(dict: Object) {
    "current_period_start" in dict && (dict["current_period_start"].JInt? || dict["current_period_start"].JBool?)
  }

  function StartIn(dict: Object): int
    requires HasStart(dict)
  {
    match dict["current_period_start"]
    case JInt(n) => n
    case JBool(b) => if b then 1 else 0
  }

  /** The start on the item counts, and the one on the subscription only when the item has none. */
  lemma ItemStartComesFirst(sub: Object)
    requires HasPrice(sub)
    ensures RawPeriodStart(sub, Item(sub)) ==
            if HasStart(Item(sub)) then Some(StartIn(Item(sub))) else if HasStart(sub) then Some(StartIn(sub)) else None
  {
  }

  predicate CanStart(sub: Object)
    requires HasPrice(sub)
  {
    HasStart(Item(sub)) || HasStart(sub)
  }

  function RawStart(sub: Object): int
    requires HasPrice(sub) && CanStart(sub)
  {
    if HasStart(Item(sub)) then StartIn(Item(sub)) else StartIn(sub)
  }

  /**
   What a request says, in the payload's own fields: it starts at the last whole hour not after the
   item's start, or the subscription's when the item has none, and its key is made of the id, the
   price and that hour. Without either start the payload is refused.
   */
  lemma RequestSaysWhatThePayloadSays(sub: Object, tier: Tier, customerId: string, rateCardId: string)
    requires HasText(sub, "id") && HasPrice(sub)
    ensures !CanStart(sub) ==> ContractRequestFor(sub, tier, customerId, rateCardId) == Err(MissingPeriodStart)
    ensures CanStart(sub) ==>
              var raw := RawStart(sub);
              var hour := raw - raw % 3600;
              var r := ContractRequestFor(sub, tier, customerId, rateCardId);
              if !Rfc3339.Representable(hour) then r == Err(PeriodStartOutOfRange)
              else
                && r.Ok? && DemandOf(sub) == Ok(Demand(sub["id"].text, Price(sub), hour))
                && Rfc3339.ReadIso(r.value.startingAt) == Some(hour)
                && raw - 3600 < hour <= raw
                && r.value.uniquenessKey == UniquenessKey(sub["id"].text, Price(sub), hour)
  {
    hide Rfc3339.IsoUtc, Rfc3339.ReadIso, RequireSingleItem, RawPeriodStart, UniquenessKey;
    OnePriceOrNone(sub);
    ItemStartComesFirst(sub);
    if CanStart(sub) && ContractRequestFor(sub, tier, customerId, rateCardId).Ok? {
      RequestTimesAgree(sub, tier, customerId, rateCardId);
    }
  }

  /** Whom the contract is for, and the credit its tier grants. */
  lemma RequestCarriesItsTier(sub: Object, tier: Tier, customerId: string, rateCardId: string)
    requires ContractRequestFor(sub, tier, customerId, rateCardId).Ok?
    ensures var r := ContractRequestFor(sub, tier, customerId, rateCardId).value;
            && r.customerId == customerId && r.rateCardId == rateCardId
            && HasText(sub, "id") && r.name == "Stripe Subscription " + sub["id"].text + " (" + tier.name + ")"
            && r.credit.productId == tier.productId && r.credit.creditTypeId == tier.creditTypeId
            && r.credit.quantity == tier.creditPerPeriod && r.credit.unitPrice == 1 && r.credit.priority == 100
            && r.credit.rolloverFraction == 1.0 && r.credit.startingAt == r.startingAt
            && (tier.frequency.Weekly? ==> r.credit.frequency == "WEEKLY" && r.credit.name == tier.name + " weekly allotment")
            && (tier.frequency.Monthly? ==> r.credit.frequency == "MONTHLY" && r.credit.name == tier.name + " monthly allotment")
            && (tier.frequency.Quarterly? ==> r.credit.frequency == "QUARTERLY" && r.credit.name == tier.name + " quarterly allotment")
            && (tier.frequency.Annual? ==> r.credit.frequency == "ANNUAL" && r.credit.name == tier.name + " annual allotment")
  {
    hide Rfc3339.IsoUtc, RequireSingleItem, UniquenessKey;
  }

  lemma ShortTexts()
    ensures Decimal.NatText(7200) == "7200" && Decimal.NatText(3600) == "3600"
  {
    assert Decimal.NatText(7) == "7" && Decimal.NatText(72) == "72" && Decimal.NatText(720) == "720";
    assert Decimal.NatText(3) == "3" && Decimal.NatText(36) == "36" && Decimal.NatText(360) == "360";
  }

  /** Keys written out, with separators, sign and digits. */
  lemma KeyExamples()
    ensures UniquenessKey("sub_1", "price_1", 7200) == "sub_1" + "_" + "price_1" + "_" + "7200"
    ensures UniquenessKey("sub_1", "price_1", -3600) == "sub_1" + "_" + "price_1" + "_" + "-3600"
  {
    hide Decimal.NatText;
    ShortTexts();
    assert "-" + "3600" == "-3600";
  }
}
