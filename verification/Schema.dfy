/** The three tables, their rows and the constraints the database enforces on an insert. */
module Schema {
  import opened Wrappers
  import opened Json

  /** Why an attempt did not succeed; the message text itself is not modelled. */
  datatype Reason =
    | MalformedPayload
    | CannotMap
    | UnknownTier
    | CustomerNotMapped
    | DatabaseIntegrity
    | MetronomeRejected
    | MetronomeUnavailable
    | ContractMissing

  /** The status "processing" is reserved by the source and never written. */
  datatype Status = Pending | Processed | Failed

  datatype LastError =
    | Retrying(reason: Reason)
    | PermanentFailure(reason: Reason)
    | ExhaustedRetries(reason: Reason)

  datatype EventRow = EventRow(
    eventType: string, payload: Object, status: Status, attempts: int, lastError: Option<LastError>,
    receivedAt: real, nextAttemptAt: real, processedAt: Option<real>)

  datatype SubscriptionRow = SubscriptionRow(customer: string, contract: string, tierName: string, price: string)

  /** `customer_mappings` by Stripe customer, `subscription_mappings` by Stripe subscription. */
  datatype Mappings = Mappings(customers: map<string, string>, subscriptions: map<string, SubscriptionRow>)

  datatype Tables = Tables(events: map<string, EventRow>, mappings: Mappings)

  const EMPTY_TABLES := Tables(map[], Mappings(map[], map[]))

  /** The one row an attempt may add. */
  datatype Insert =
    | NoRow
    | AddCustomer(customer: string, metronomeId: string)
    | AddSubscription(subscription: string, row: SubscriptionRow)

  predicate DuplicateKey(m: Mappings, add: Insert) {
    match add
    case NoRow => false
    case AddCustomer(customer, _) => customer in m.customers
    case AddSubscription(subscription, _) => subscription in m.subscriptions
  }

  /** The unique constraints on `metronome_customer_id` and `metronome_contract_id`. */
  predicate DuplicateUnique(m: Mappings, add: Insert) {
    match add
    case NoRow => false
    case AddCustomer(_, id) => exists c :: c in m.customers && m.customers[c] == id
    case AddSubscription(_, row) => exists s :: s in m.subscriptions && m.subscriptions[s].contract == row.contract
  }

  predicate MissingParent(m: Mappings, add: Insert) {
    add.AddSubscription? && add.row.customer !in m.customers
  }

  /** A flush of this row raises an integrity error. */
  predicate Violates(m: Mappings, add: Insert) {
    DuplicateKey(m, add) || DuplicateUnique(m, add) || MissingParent(m, add)
  }

  function Inserted(m: Mappings, add: Insert): Mappings {
    match add
    case NoRow => m
    case AddCustomer(customer, id) => m.(customers := m.customers[customer := id])
    case AddSubscription(subscription, row) => m.(subscriptions := m.subscriptions[subscription := row])
  }

  /** Tables in which no two rows share a Metronome id and every subscription has its customer. */
  ghost predicate Integral(m: Mappings) {
    && (forall c, d :: c in m.customers && d in m.customers && m.customers[c] == m.customers[d] ==> c == d)
    && (forall s, t :: s in m.subscriptions && t in m.subscriptions && m.subscriptions[s].contract == m.subscriptions[t].contract ==> s == t)
    && (forall s :: s in m.subscriptions ==> m.subscriptions[s].customer in m.customers)
  }

  predicate IsNew(m: Mappings, add: Insert) {
    match add
    case NoRow => true
    case AddCustomer(customer, _) => customer !in m.customers
    case AddSubscription(subscription, _) => subscription !in m.subscriptions
  }

  /** The constraints refuse a row exactly when it is not new or would leave the tables without integrity. */
  lemma ConstraintsMeanIntegrity(m: Mappings, add: Insert)
    requires Integral(m)
    ensures !Violates(m, add) <==> IsNew(m, add) && Integral(Inserted(m, add))
  {
    var n := Inserted(m, add);
    match add {
      case NoRow =>
      case AddCustomer(customer, id) =>
        if c :| c in m.customers && m.customers[c] == id && customer !in m.customers {
          assert n.customers[c] == n.customers[customer] == id && c != customer;
        }
      case AddSubscription(subscription, row) =>
        if s :| s in m.subscriptions && m.subscriptions[s].contract == row.contract && subscription !in m.subscriptions {
          assert n.subscriptions[s].contract == n.subscriptions[subscription].contract && s != subscription;
        }
        if subscription !in m.subscriptions {
          assert n.subscriptions[subscription] == row;
        }
    }
  }

  lemma NoRowAlwaysFits(m: Mappings)
    ensures !Violates(m, NoRow) && Inserted(m, NoRow) == m
  {
  }

  /** Rows are only added: every row of the first is unchanged in the second. */
  ghost predicate Grows(m: Mappings, n: Mappings) {
    && (forall c :: c in m.customers ==> c in n.customers && n.customers[c] == m.customers[c])
    && (forall s :: s in m.subscriptions ==> s in n.subscriptions && n.subscriptions[s] == m.subscriptions[s])
  }

  function NewEvent(eventType: string, payload: Object, now: real): EventRow {
    EventRow(eventType, payload, Pending, 0, None, now, now, None)
  }
}
