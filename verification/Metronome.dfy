/** The Metronome side: what the outside system holds, how it answers, and the client that calls it. */
module Metronome {
  import opened Wrappers
  import opened SubscriptionMapper

  datatype Contract = Contract(id: string, customer: string, key: string)

  /** Metronome's customers by id, with their names, and its contracts in creation order. */
  datatype Remote = Remote(customers: map<string, string>, contracts: seq<Contract>)

  const NOTHING_REMOTE := Remote(map[], [])

  /** How a call can go wrong: an HTTP status, no usable connection, or a reply without an id. */
  datatype Fault = HttpStatus(code: int) | NoConnection | ReplyWithoutId

  /** What the outside system does with one call. A faulty call may still have taken effect. */
  datatype Answer = Answer(newId: string, fault: Option<Fault>, applied: bool) {
    predicate TakesEffect() {
      fault.None? || applied
    }
  }

  datatype Reply =
    | Created(id: string)
    | Conflict
    | Renamed
    | Listed(found: Option<string>)
    | Faulted(fault: Fault)

  datatype ClientError = Transient | Permanent | ContractNotFound

  /** 429, 5xx and connection errors are transient; every other status and a reply without an id are permanent. */
  function Classify(fault: Fault): ClientError {
    match fault
    case NoConnection => Transient
    case ReplyWithoutId => Permanent
    case HttpStatus(code) => if code == 429 || 500 <= code < 600 then Transient else Permanent
  }

  // ----- Contracts of one customer -----

  function Listing(contracts: seq<Contract>, customer: string): (list: seq<Contract>)
    ensures forall c :: c in list <==> c in contracts && c.customer == customer
  {
    if contracts == [] then [] else
      var rest := Listing(contracts[1..], customer);
      if contracts[0].customer == customer then [contracts[0]] + rest else rest
  }

  /** The id of the first contract of a list that carries the key. */
  function FirstWithKey(list: seq<Contract>, key: string): (r: Option<string>)
    ensures r.Some? <==> exists c :: c in list && c.key == key
    ensures r.Some? ==> exists c :: c in list && c.key == key && c.id == r.value
  {
    if list == [] then None
    else if list[0].key == key then
      assert list[0] in list;
      Some(list[0].id)
    else
      var r := FirstWithKey(list[1..], key);
      assert forall c :: c in list ==> c == list[0] || c in list[1..];
      r
  }

  function Find(contracts: seq<Contract>, customer: string, key: string): (r: Option<string>)
    ensures r.Some? <==> exists c :: c in contracts && c.customer == customer && c.key == key
    ensures r.Some? ==> Contract(r.value, customer, key) in contracts
  {
    FirstWithKey(Listing(contracts, customer), key)
  }

  /** At most one contract per id and per (customer, key). */
  ghost predicate Distinct(contracts: seq<Contract>) {
    forall i, j :: 0 <= i < j < |contracts| ==>
      && contracts[i].id != contracts[j].id
      && (contracts[i].customer != contracts[j].customer || contracts[i].key != contracts[j].key)
  }

  predicate FreshContractId(contracts: seq<Contract>, id: string) {
    forall c :: c in contracts ==> c.id != id
  }

  // ----- Effect and reply of each call -----

  function CreateCustomerEffect(r: Remote, name: string, a: Answer): Remote {
    if a.TakesEffect() then r.(customers := r.customers[a.newId := name]) else r
  }

  function RenameEffect(r: Remote, id: string, name: string, a: Answer): Remote {
    if a.TakesEffect() && id in r.customers then r.(customers := r.customers[id := name]) else r
  }

  function CreateContractEffect(r: Remote, request: ContractRequest, a: Answer): Remote {
    if a.TakesEffect() && Find(r.contracts, request.customerId, request.uniquenessKey).None? then
      r.(contracts := r.contracts + [Contract(a.newId, request.customerId, request.uniquenessKey)])
    else r
  }

  /** 409 exactly when a contract with this customer and key exists. */
  function CreateContractReply(r: Remote, request: ContractRequest, a: Answer): Reply {
    if a.fault.Some? then Faulted(a.fault.value)
    else if Find(r.contracts, request.customerId, request.uniquenessKey).Some? then Conflict
    else Created(a.newId)
  }

  function ListReply(r: Remote, request: ContractRequest, a: Answer): Reply {
    if a.fault.Some? then Faulted(a.fault.value)
    else Listed(Find(r.contracts, request.customerId, request.uniquenessKey))
  }

  /** A fault that is not the meaningful 409 of contract creation. */
  predicate NotAConflict(a: Answer) {
    a.fault != Some(HttpStatus(409))
  }

  /** The reference: look the contract up, and create it only when it is not there. */
  function GetOrCreate(contracts: seq<Contract>, customer: string, key: string, newId: string): (seq<Contract>, string) {
    match Find(contracts, customer, key)
    case Some(id) => (contracts, id)
    case None => (contracts + [Contract(newId, customer, key)], newId)
  }

  lemma {:induction false} AddedContractIsFound(contracts: seq<Contract>, c: Contract)
    requires Distinct(contracts) && Find(contracts, c.customer, c.key).None? && FreshContractId(contracts, c.id)
    ensures Distinct(contracts + [c])
    ensures Find(contracts + [c], c.customer, c.key) == Some(c.id)
  {
    var all := contracts + [c];
    assert all[|contracts|] == c;
    forall i | 0 <= i < |contracts|
      ensures all[i].id != c.id && (all[i].customer != c.customer || all[i].key != c.key)
    {
      assert contracts[i] in contracts;
    }
    var found := Find(all, c.customer, c.key).value;
    var j :| 0 <= j < |all| && all[j] == Contract(found, c.customer, c.key);
  }

  /** With distinct contracts, the id found is the id of the only match. */
  lemma {:induction false} FoundIsUnique(contracts: seq<Contract>, c: Contract)
    requires Distinct(contracts) && c in contracts
    ensures Find(contracts, c.customer, c.key) == Some(c.id)
    ensures forall d :: d in contracts && (d.id == c.id || (d.customer == c.customer && d.key == c.key)) ==> d == c
  {
    var i :| 0 <= i < |contracts| && contracts[i] == c;
    var found := Find(contracts, c.customer, c.key).value;
    var j :| 0 <= j < |contracts| && contracts[j] == Contract(found, c.customer, c.key);
    assert i == j;
  }

  // ----- The client -----

  /** What the client raises for a fault: worth another try when Metronome is down, busy or failing. */
  ghost predicate Raises(error: ClientError, fault: Fault) {
    error == if fault.NoConnection? || fault == HttpStatus(429) || (fault.HttpStatus? && 500 <= fault.code < 600)
             then Transient else Permanent
  }

  datatype CreatedContract = CreatedContract(id: string, viaUniquenessKeyRecovery: bool)

  class MetronomeClient {
    var customers: map<string, string>
    var contracts: seq<Contract>

    constructor ()
      ensures State() == NOTHING_REMOTE
    {
      customers, contracts := map[], [];
    }

    function State(): Remote
      reads this
    {
      Remote(customers, contracts)
    }

    method CreateCustomer(name: string, a: Answer) returns (r: Result<string, ClientError>)
      modifies this`customers
      ensures State() == CreateCustomerEffect(old(State()), name, a)
      ensures customers == if a.fault.None? || a.applied then old(customers)[a.newId := name] else old(customers)
      ensures r == if a.fault.None? then Ok(a.newId) else Err(Classify(a.fault.value))
      ensures a.fault.Some? ==> Raises(r.error, a.fault.value)
    {
      if a.TakesEffect() {
        customers := customers[a.newId := name];
      }
      match a.fault {
        case None => r := Ok(a.newId);
        case Some(fault) => r := Err(Classify(fault));
      }
    }

    method SetCustomerName(id: string, name: string, a: Answer) returns (r: Result<(), ClientError>)
      modifies this`customers
      ensures State() == RenameEffect(old(State()), id, name, a)
      ensures customers == if (a.fault.None? || a.applied) && id in old(customers) then old(customers)[id := name] else old(customers)
      ensures r == if a.fault.None? then Ok(()) else Err(Classify(a.fault.value))
      ensures a.fault.Some? ==> Raises(r.error, a.fault.value)
    {
      if a.TakesEffect() && id in customers {
        customers := customers[id := name];
      }
      match a.fault {
        case None => r := Ok(());
        case Some(fault) => r := Err(Classify(fault));
      }
    }

    /** Lists the customer's contracts and scans them for the key. */
    method FindContractByUniquenessKey(customer: string, key: string, a: Answer) returns (r: Result<string, ClientError>)
      ensures a.fault.Some? ==> r == Err(Classify(a.fault.value)) && Raises(r.error, a.fault.value)
      ensures a.fault.None? ==> r == match Find(contracts, customer, key) case Some(id) => Ok(id) case None => Err(ContractNotFound)
    {
      if a.fault.Some? {
        return Err(Classify(a.fault.value));
      }
      var list := Listing(contracts, customer);
      var i := 0;
      while i < |list|
        invariant 0 <= i <= |list|
        invariant FirstWithKey(list, key) == FirstWithKey(list[i..], key)
      {
        if list[i].key == key {
          return Ok(list[i].id);
        }
        i := i + 1;
      }
      r := Err(ContractNotFound);
    }

    /**
     Creates a contract and, told that it exists, recovers its id. Against contracts that are distinct,
     success is exactly get-or-create: the one contract with this customer and key is named, it is added
     only when there was none, and the flag says whether it was already there. The scan after a 409
     never comes back empty-handed.
     */
    method CreateContract(request: ContractRequest, a: Answer, listing: Answer)
      returns (r: Result<CreatedContract, ClientError>)
      requires Distinct(contracts) && FreshContractId(contracts, a.newId) && NotAConflict(a)
      modifies this`contracts
      ensures State() == CreateContractEffect(old(State()), request, a)
      ensures Distinct(contracts)
      ensures r.Ok? ==>
                && (contracts, r.value.id) == GetOrCreate(old(contracts), request.customerId, request.uniquenessKey, a.newId)
                && (forall c :: c in contracts && c.customer == request.customerId && c.key == request.uniquenessKey <==>
                      c == Contract(r.value.id, request.customerId, request.uniquenessKey))
                && (r.value.viaUniquenessKeyRecovery <==> Find(old(contracts), request.customerId, request.uniquenessKey).Some?)
      ensures r != Err(ContractNotFound)
      ensures r.Err? <==>
                || a.fault.Some?
                || (Find(old(contracts), request.customerId, request.uniquenessKey).Some? && listing.fault.Some?)
      ensures r.Err? ==> r.error == Classify(if a.fault.Some? then a.fault.value else listing.fault.value)
      ensures r.Err? ==> Raises(r.error, if a.fault.Some? then a.fault.value else listing.fault.value)
      ensures contracts ==
              if (a.fault.None? || a.applied)
                 && (forall c :: c in old(contracts) ==> c.customer != request.customerId || c.key != request.uniquenessKey)
              then old(contracts) + [Contract(a.newId, request.customerId, request.uniquenessKey)] else old(contracts)
    {
      var existing := Find(contracts, request.customerId, request.uniquenessKey);
      if existing.None? && a.TakesEffect() {
        var added := Contract(a.newId, request.customerId, request.uniquenessKey);
        AddedContractIsFound(contracts, added);
        contracts := contracts + [added];
        assert added in contracts;
        FoundIsUnique(contracts, added);
      }
      if a.fault.Some? {
        return Err(Classify(a.fault.value));
      }
      if existing.Some? {
        FoundIsUnique(contracts, Contract(existing.value, request.customerId, request.uniquenessKey));
        var found := FindContractByUniquenessKey(request.customerId, request.uniquenessKey, listing);
        match found {
          case Ok(id) => return Ok(CreatedContract(id, true));
          case Err(error) => return Err(error);
        }
      }
      r := Ok(CreatedContract(a.newId, false));
    }
  }
}
