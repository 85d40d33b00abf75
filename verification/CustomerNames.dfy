/** The name Metronome shows for a mapped customer, after any run. */
module CustomerNames {
  import opened Wrappers
  import opened Json
  import opened Schema
  import CM = CustomerMapper
  import opened Metronome
  import opened HandlerProgram
  import opened EventLifecycle
  import opened Protocol
  import opened Invariants
  import opened Safety

  /** The name mapped from a payload. */
  function MappedName(payload: Object): Option<string> {
    match ReadCustomer(payload)
    case None => None
    case Some(c) =>
      match CM.CustomerRequestFor(c.fields)
      case Ok(request) => Some(request.name)
      case Err(_) => None
  }

  /** The name Metronome shows for a mapped customer. */
  function ShownName(s: State, customer: string): Option<string> {
    var m := s.tables.mappings.customers;
    if customer in m && m[customer] in s.remote.customers then Some(s.remote.customers[m[customer]]) else None
  }

  predicate IsAbout(row: EventRow, customer: string) {
    AboutCustomer(KindOf(row.eventType)) && ReadCustomer(row.payload).Some? && ReadCustomer(row.payload).value.id == customer
  }

  // ----- The calls that took effect -----

  /** A name that reached Metronome, and the event it was sent for. */
  datatype Write = Write(event: string, name: string)

  /** The Metronome customer this step names, whether or not its reply arrives. */
  function Naming(s: State, step: Step): Option<(string, Write)> {
    if !step.Call? || step.worker !in s.inflight || !step.answer.TakesEffect() then None else
      var tx := s.inflight[step.worker];
      match tx.phase
      case CreateCustomer(_, name) => Some((step.answer.newId, Write(tx.id, name)))
      case RenameCustomer(id, name) => if id in s.remote.customers then Some((id, Write(tx.id, name))) else None
      case _ => None
  }

  function Updated(last: map<string, Write>, naming: Option<(string, Write)>): map<string, Write> {
    match naming
    case None => last
    case Some(n) => last[n.0 := n.1]
  }

  /** For each Metronome customer the last call of a run that named it and took effect. */
  ghost function Last(world: World, steps: seq<Step>): map<string, Write>
    requires Play(world, steps).Some?
  {
    if steps == [] then map[] else
      var most := steps[..|steps| - 1];
      Updated(Last(world, most), Naming(Play(world, most).value, steps[|steps| - 1]))
  }

  // ----- What names mean, in every reachable state -----

  /** This event is about the customer and maps to the name. */
  predicate Carries(row: EventRow, customer: string, name: string) {
    IsAbout(row, customer) && MappedName(row.payload) == Some(name)
  }

  ghost predicate WriteOk(events: Events, w: Write, customer: string) {
    w.event in events && Carries(events[w.event], customer, w.name)
  }

  /** A transaction sends the name of its own event, to the Metronome customer of its own customer. */
  ghost predicate SendsItsName(m: Mappings, events: Events, last: map<string, Write>, tx: Transaction) {
    match tx.phase
    case CreateCustomer(customer, name) => Carries(tx.row, customer, name)
    case RenameCustomer(id, name) =>
      exists customer :: Carries(tx.row, customer, name) && customer in m.customers && m.customers[customer] == id
    case Done(_, AddCustomer(customer, id)) => id in last && WriteOk(events, last[id], customer)
    case _ => true
  }

  ghost predicate NamesOk(s: State, last: map<string, Write>) {
    var m, events := s.tables.mappings, s.tables.events;
    && last.Keys == s.remote.customers.Keys
    && (forall id :: id in last ==> s.remote.customers[id] == last[id].name)
    && (forall c :: c in m.customers ==> m.customers[c] in last && WriteOk(events, last[m.customers[c]], c))
    && (forall w :: w in s.inflight ==> SendsItsName(m, events, last, s.inflight[w]))
  }

  lemma WriteStaysOk(e: Events, f: Events, w: Write, customer: string)
    requires WriteOk(e, w, customer) && Keeps(e, f)
    ensures WriteOk(f, w, customer)
  {
  }

  lemma SendsAfterGrowth(m: Mappings, n: Mappings, e: Events, f: Events, last: map<string, Write>, tx: Transaction)
    requires SendsItsName(m, e, last, tx) && Grows(m, n) && Keeps(e, f)
    ensures SendsItsName(n, f, last, tx)
  {
    hide Carries;
    if tx.phase.RenameCustomer? {
      var customer :| Carries(tx.row, customer, tx.phase.name) && customer in m.customers && m.customers[customer] == tx.phase.metronomeId;
      assert customer in n.customers;
    } else if tx.phase.Done? && tx.phase.add.AddCustomer? {
      WriteStaysOk(e, f, last[tx.phase.add.metronomeId], tx.phase.add.customer);
    }
  }

  /** Steps that neither call Metronome nor add a customer row. */
  lemma GrowthKeepsNames(s: State, t: State, last: map<string, Write>)
    requires NamesOk(s, last) && t.remote == s.remote && t.tables.mappings.customers == s.tables.mappings.customers
    requires Grows(s.tables.mappings, t.tables.mappings) && Keeps(s.tables.events, t.tables.events)
    requires forall w :: w in t.inflight ==>
               || (w in s.inflight && t.inflight[w] == s.inflight[w])
               || SendsItsName(t.tables.mappings, t.tables.events, last, t.inflight[w])
    ensures NamesOk(t, last)
  {
    hide SendsItsName, WriteOk;
    var m := s.tables.mappings.customers;
    forall c | c in t.tables.mappings.customers
      ensures m[c] in last && WriteOk(t.tables.events, last[m[c]], c)
    {
      WriteStaysOk(s.tables.events, t.tables.events, last[m[c]], c);
    }
    forall w | w in t.inflight ensures SendsItsName(t.tables.mappings, t.tables.events, last, t.inflight[w]) {
      if w in s.inflight && t.inflight[w] == s.inflight[w] {
        SendsAfterGrowth(s.tables.mappings, t.tables.mappings, s.tables.events, t.tables.events, last, s.inflight[w]);
      }
    }
  }

  lemma CustomerBegins(row: EventRow, m: Mappings)
    ensures var ph := BeginCustomer(KindOf(row.eventType), row.payload, m);
            && (AboutCustomer(KindOf(row.eventType)) && ph.CreateCustomer? ==>
                  Carries(row, ph.customer, ph.name) && ph.customer !in m.customers)
            && (AboutCustomer(KindOf(row.eventType)) && ph.RenameCustomer? ==>
                  && ReadCustomer(row.payload).Some?
                  && var customer := ReadCustomer(row.payload).value.id;
                     Carries(row, customer, ph.name) && customer in m.customers && m.customers[customer] == ph.metronomeId)
            && (ph.Done? ==> ph.add.NoRow?)
  {
    hide ReadCustomer, KindOf, CM.CustomerRequestFor;
  }

  lemma BeginsWithItsName(m: Mappings, row: EventRow)
    ensures var ph := Begin(KindOf(row.eventType), row.payload, m);
            && (ph.CreateCustomer? ==> Carries(row, ph.customer, ph.name) && ph.customer !in m.customers)
            && (ph.RenameCustomer? ==>
                  && ReadCustomer(row.payload).Some?
                  && var customer := ReadCustomer(row.payload).value.id;
                     Carries(row, customer, ph.name) && customer in m.customers && m.customers[customer] == ph.metronomeId)
            && (ph.Done? ==> ph.add.NoRow?)
  {
    hide Carries, ReadCustomer, ReadSubscription, KindOf, BeginCustomer, ExtractSinglePriceId;
    CustomerBegins(row, m);
  }

  lemma ReadSendsItsName(world: World, s: State, tx: Transaction, last: map<string, Write>)
    requires Reading(tx.phase)
    ensures SendsItsName(s.tables.mappings, s.tables.events, last, Progressed(world, s.tables.mappings, tx, Read))
  {
    hide Begin, Carries;
    BeginsWithItsName(s.tables.mappings, tx.row);
  }

  /** A call that names a Metronome customer which belongs to this customer, or to none yet. */
  lemma NewWriteKeepsNames(s: State, t: State, last: map<string, Write>, w: Name, id: string, write: Write, customer: string)
    requires NamesOk(s, last) && t.tables == s.tables && t.remote.customers == s.remote.customers[id := write.name]
    requires w in t.inflight && t.inflight == s.inflight[w := t.inflight[w]]
    requires WriteOk(s.tables.events, write, customer)
    requires forall c :: c in s.tables.mappings.customers && s.tables.mappings.customers[c] == id ==> c == customer
    requires forall v :: v in s.inflight && v != w && AddsCustomer(s.inflight[v]) ==> s.inflight[v].phase.add.metronomeId != id
    requires SendsItsName(s.tables.mappings, s.tables.events, last[id := write], t.inflight[w])
    ensures NamesOk(t, last[id := write])
  {
    hide WriteOk, Carries;
  }

  lemma RepliesSendNoName(m: Mappings, events: Events, last: map<string, Write>, tx: Transaction, after: Transaction, reply: Reply)
    requires Answers(tx.phase, reply) && after.phase == AfterReply(tx.phase, reply)
    requires !(tx.phase.CreateCustomer? && reply.Created?)
    ensures SendsItsName(m, events, last, after)
  {
    hide Classify;
  }

  lemma CreationKeepsNames(world: World, s: State, w: Name, a: Answer, last: map<string, Write>)
    requires Inv(world, s) && NamesOk(s, last) && AfterCall(world, s, w, a).Some?
    requires s.inflight[w].phase.CreateCustomer? && a.TakesEffect()
    ensures NamesOk(AfterCall(world, s, w, a).value, Updated(last, Naming(s, Call(w, a))))
  {
    hide EventsOk, TransactionsOk, MappingsOk, RemoteOk, Carries, Classify;
    var tx := s.inflight[w];
    var t := AfterCall(world, s, w, a).value;
    var write := Write(tx.id, tx.phase.name);
    assert HoldsRow(s, tx) && SendsItsName(s.tables.mappings, s.tables.events, last, tx);
    assert WriteOk(s.tables.events, write, tx.phase.customer);
    assert a.newId !in last;
    forall v | v in s.inflight && AddsCustomer(s.inflight[v]) ensures s.inflight[v].phase.add.metronomeId != a.newId {
      assert SendsItsName(s.tables.mappings, s.tables.events, last, s.inflight[v]);
    }
    NewWriteKeepsNames(s, t, last, w, a.newId, write, tx.phase.customer);
  }

  lemma RenameKeepsNames(world: World, s: State, w: Name, a: Answer, last: map<string, Write>)
    requires Inv(world, s) && NamesOk(s, last) && AfterCall(world, s, w, a).Some?
    requires s.inflight[w].phase.RenameCustomer? && a.TakesEffect()
    ensures NamesOk(AfterCall(world, s, w, a).value, Updated(last, Naming(s, Call(w, a))))
  {
    hide EventsOk, TransactionsOk, MappingsOk, RemoteOk, Carries, Classify, AfterReply;
    var tx := s.inflight[w];
    var t := AfterCall(world, s, w, a).value;
    var write, id := Write(tx.id, tx.phase.name), tx.phase.metronomeId;
    assert HoldsRow(s, tx) && SendsItsName(s.tables.mappings, s.tables.events, last, tx);
    var customer :| Carries(tx.row, customer, tx.phase.name) && customer in s.tables.mappings.customers && s.tables.mappings.customers[customer] == id;
    assert id in last && WriteOk(s.tables.events, write, customer);
    RepliesSendNoName(s.tables.mappings, s.tables.events, last[id := write], tx, t.inflight[w], Exchange(s.remote, tx.phase, a).1);
    NewWriteKeepsNames(s, t, last, w, id, write, customer);
  }

  lemma CallKeepsNames(world: World, s: State, w: Name, a: Answer, last: map<string, Write>)
    requires Inv(world, s) && NamesOk(s, last) && AfterCall(world, s, w, a).Some?
    ensures NamesOk(AfterCall(world, s, w, a).value, Updated(last, Naming(s, Call(w, a))))
  {
    hide Inv, SendsItsName, WriteOk, AfterReply;
    var tx := s.inflight[w];
    if tx.phase.CreateCustomer? && a.TakesEffect() {
      CreationKeepsNames(world, s, w, a, last);
    } else if tx.phase.RenameCustomer? && a.TakesEffect() {
      RenameKeepsNames(world, s, w, a, last);
    } else {
      var t := AfterCall(world, s, w, a).value;
      RepliesSendNoName(s.tables.mappings, s.tables.events, last, tx, t.inflight[w], Exchange(s.remote, tx.phase, a).1);
      assert t.remote.customers == s.remote.customers;
    }
  }

  lemma AddedCustomerWasNamed(m: Mappings, events: Events, last: map<string, Write>, tx: Transaction)
    requires SendsItsName(m, events, last, tx) && AddsCustomer(tx)
    ensures tx.phase.add.metronomeId in last && WriteOk(events, last[tx.phase.add.metronomeId], tx.phase.add.customer)
  {
  }

  lemma CommitKeepsNames(world: World, s: State, w: Name, draw: real, last: map<string, Write>)
    requires Inv(world, s) && NamesOk(s, last) && Finished(world, s, w, draw).Some? && !Conflicts(s, w)
    ensures NamesOk(Finished(world, s, w, draw).value, last)
  {
    hide EventsOk, TransactionsOk, MappingsOk, RemoteOk, IdsOk, WriteOk, SendsItsName, Settled, Violates;
    var tx, t := s.inflight[w], Finished(world, s, w, draw).value;
    assert HoldsRow(s, tx) && SendsItsName(s.tables.mappings, s.tables.events, last, tx);
    CommitGrows(world, s, w, draw);
    var after := t.tables.mappings.customers;
    forall c | c in after ensures after[c] in last && WriteOk(t.tables.events, last[after[c]], c) {
      if c in s.tables.mappings.customers {
        WriteStaysOk(s.tables.events, t.tables.events, last[after[c]], c);
      } else {
        AddedCustomerWasNamed(s.tables.mappings, s.tables.events, last, tx);
        WriteStaysOk(s.tables.events, t.tables.events, last[after[c]], c);
      }
    }
    forall v | v in t.inflight ensures SendsItsName(t.tables.mappings, t.tables.events, last, t.inflight[v]) {
      SendsAfterGrowth(s.tables.mappings, t.tables.mappings, s.tables.events, t.tables.events, last, s.inflight[v]);
    }
  }

  lemma StartSendsNothing(s: State, tx: Transaction, last: map<string, Write>)
    requires tx.phase.Start?
    ensures SendsItsName(s.tables.mappings, s.tables.events, last, tx)
  {
  }

  lemma NextKeepsNames(world: World, s: State, step: Step, last: map<string, Write>)
    requires Inv(world, s) && NamesOk(s, last) && Next(world, s, step).Some?
    ensures NamesOk(Next(world, s, step).value, Updated(last, Naming(s, step)))
  {
    hide Inv, NamesOk, SendsItsName, CommitsAttempt, Settled, AfterCall;
    var t := Next(world, s, step).value;
    match step {
      case Call(w, a) => CallKeepsNames(world, s, w, a, last);
      case Finish(w, draw) =>
        if Conflicts(s, w) {
          GrowthKeepsNames(s, t, last);
        } else {
          CommitKeepsNames(world, s, w, draw, last);
        }
      case ReadTables(w) =>
        ReadSendsItsName(world, s, s.inflight[w], last);
        GrowthKeepsNames(s, t, last);
      case Claim(w, id) =>
        assert SendsItsName(s.tables.mappings, s.tables.events, last, t.inflight[w]) by { StartSendsNothing(s, t.inflight[w], last); }
        GrowthKeepsNames(s, t, last);
      case _ =>
        StepEffects(world, s, step);
        GrowthKeepsNames(s, t, last);
    }
  }

  lemma {:induction false} NamesAreOk(world: World, steps: seq<Step>)
    requires Play(world, steps).Some?
    ensures NamesOk(Play(world, steps).value, Last(world, steps))
  {
    if steps == [] {
    } else {
      var most := steps[..|steps| - 1];
      NamesAreOk(world, most);
      Reachable(world, most);
      NextKeepsNames(world, Play(world, most).value, steps[|steps| - 1], Last(world, most));
    }
  }

  /**
   In every run, whatever fails, crashes or interleaves: Metronome shows for a mapped customer the name
   carried by the last call that named it and took effect, answered or not, and the event of that call
   is a persisted event about this very customer that maps to the name shown.
   */
  lemma NameIsTheLastToTakeEffect(world: World, steps: seq<Step>, customer: string)
    requires Play(world, steps).Some? && customer in Play(world, steps).value.tables.mappings.customers
    ensures var s, last := Play(world, steps).value, Last(world, steps);
            var id := s.tables.mappings.customers[customer];
            && id in last && last[id].event in s.tables.events
            && IsAbout(s.tables.events[last[id].event], customer)
            && ShownName(s, customer) == Some(last[id].name) == MappedName(s.tables.events[last[id].event].payload)
  {
    NamesAreOk(world, steps);
  }

  /**
   Exactly when the name shown is that of a given event, such as the one Stripe sent last: when the last
   effective call was made for an event that carries the same name; in particular when it was made for it.
   */
  lemma LatestNameIff(world: World, steps: seq<Step>, customer: string, latest: string)
    requires Play(world, steps).Some? && customer in Play(world, steps).value.tables.mappings.customers
    requires latest in Play(world, steps).value.tables.events
    ensures var s, last := Play(world, steps).value, Last(world, steps);
            var id := s.tables.mappings.customers[customer];
            && id in last && last[id].event in s.tables.events
            && (ShownName(s, customer) == MappedName(s.tables.events[latest].payload) <==>
                  MappedName(s.tables.events[last[id].event].payload) == MappedName(s.tables.events[latest].payload))
            && (last[id].event == latest ==> ShownName(s, customer) == MappedName(s.tables.events[latest].payload))
  {
    NameIsTheLastToTakeEffect(world, steps, customer);
  }
}
