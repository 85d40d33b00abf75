/**
 When the name of a customer follows the updates handled: in runs that handle the events about it one
 at a time and lose no reply that mattered.
 */
module OrderlyNames {
  import opened Wrappers
  import opened Schema
  import CM = CustomerMapper
  import opened Metronome
  import opened HandlerProgram
  import opened EventLifecycle
  import opened Protocol
  import opened Invariants
  import opened CustomerNames

  ghost predicate NoneAbout(s: State, customer: string) {
    forall w :: w in s.inflight ==> !IsAbout(s.inflight[w].row, customer)
  }

  /** The transaction has named its customer and has only to commit. */
  predicate HasNamed(tx: Transaction) {
    && tx.phase.Done? && tx.phase.verdict.Succeeded?
    && (KindOf(tx.row.eventType).CustomerUpdated? || tx.phase.add.AddCustomer?)
  }

  /** The step keeps the order of events about this customer: no overlap, no lost effect. */
  ghost predicate OrderlyStep(s: State, step: Step, customer: string) {
    match step
    case Claim(_, id) => id in s.tables.events && IsAbout(s.tables.events[id], customer) ==> NoneAbout(s, customer)
    case Call(w, a) => w in s.inflight && IsAbout(s.inflight[w].row, customer) ==> a.fault.None? || !a.applied
    case Crash(w) => w in s.inflight && IsAbout(s.inflight[w].row, customer) ==> !HasNamed(s.inflight[w])
    case _ => true
  }

  ghost predicate Orderly(world: World, steps: seq<Step>, customer: string)
    requires Play(world, steps).Some?
  {
    steps != [] ==>
      var most := steps[..|steps| - 1];
      Orderly(world, most, customer) && OrderlyStep(Play(world, most).value, steps[|steps| - 1], customer)
  }

  /** This step commits a successful attempt at an event about the customer. */
  ghost predicate Handles(s: State, step: Step, customer: string) {
    CommitsAttempt(s, step) && s.inflight[step.worker].phase.verdict.Succeeded? && IsAbout(s.inflight[step.worker].row, customer)
  }

  /** The events about the customer that a run has handled, in order. */
  ghost function Handled(world: World, steps: seq<Step>, customer: string): seq<EventRow>
    requires Play(world, steps).Some?
  {
    if steps == [] then [] else
      var most, last := steps[..|steps| - 1], steps[|steps| - 1];
      var s := Play(world, most).value;
      Handled(world, most, customer) + if Handles(s, last, customer) then [s.inflight[last.worker].row] else []
  }

  predicate IsUpdate(row: EventRow) {
    KindOf(row.eventType).CustomerUpdated?
  }

  /** The event whose name counts: the last update, or else the first event. */
  function NamingEvent(handled: seq<EventRow>): (k: nat)
    requires handled != []
    ensures k < |handled|
    ensures IsUpdate(handled[k]) || k == 0
    ensures forall i :: k < i < |handled| ==> !IsUpdate(handled[i])
  {
    var n := |handled| - 1;
    if IsUpdate(handled[n]) || n == 0 then n else NamingEvent(handled[..n])
  }

  lemma NamingOneMore(handled: seq<EventRow>, row: EventRow)
    ensures (IsUpdate(row) || handled == []) ==> NamingEvent(handled + [row]) == |handled|
    ensures (!IsUpdate(row) && handled != []) ==> NamingEvent(handled + [row]) == NamingEvent(handled)
  {
    assert (handled + [row])[..|handled|] == handled;
  }

  // ----- The account of one customer -----

  /** What the name of the customer is to be, were nothing in flight. */
  ghost predicate Follows(m: map<string, string>, last: map<string, Write>, handled: seq<EventRow>, customer: string) {
    && handled != [] && customer in m && m[customer] in last
    && MappedName(handled[NamingEvent(handled)].payload) == Some(last[m[customer]].name)
  }

  /** A transaction about the customer stands to its mapping as its phase says. */
  ghost predicate InOrder(m: map<string, string>, last: map<string, Write>, tx: Transaction, customer: string) {
    match tx.phase
    case Start => true
    case CreateCustomer(_, name) => customer !in m && MappedName(tx.row.payload) == Some(name)
    case RenameCustomer(id, name) => customer in m && m[customer] == id && MappedName(tx.row.payload) == Some(name)
    case Done(verdict, NoRow) =>
      && (verdict.Succeeded? ==> customer in m)
      && (HasNamed(tx) ==> m[customer] in last && MappedName(tx.row.payload) == Some(last[m[customer]].name))
    case Done(verdict, AddCustomer(c, id)) =>
      && verdict.Succeeded? && c == customer && customer !in m
      && id in last && MappedName(tx.row.payload) == Some(last[id].name)
    case _ => false
  }

  /** No transaction about the customer has named it and not yet committed. */
  ghost predicate NoNameInFlight(s: State, customer: string) {
    forall w :: w in s.inflight && IsAbout(s.inflight[w].row, customer) ==> !HasNamed(s.inflight[w])
  }

  ghost predicate Account(s: State, last: map<string, Write>, handled: seq<EventRow>, customer: string) {
    var m := s.tables.mappings.customers;
    && (customer in m <==> handled != [])
    && (forall v, w :: (&& v in s.inflight && w in s.inflight
                        && IsAbout(s.inflight[v].row, customer) && IsAbout(s.inflight[w].row, customer)) ==> v == w)
    && (forall w :: w in s.inflight && IsAbout(s.inflight[w].row, customer) ==> InOrder(m, last, s.inflight[w], customer))
    && (customer in m && NoNameInFlight(s, customer) ==> Follows(m, last, handled, customer))
  }

  // ----- Steps of others -----

  /** A step that leaves the customer's mapping, its name and the transactions about it alone. */
  lemma OthersKeepAccount(s: State, t: State, last: map<string, Write>, after: map<string, Write>, handled: seq<EventRow>, customer: string)
    requires NamesOk(s, last) && Account(s, last, handled, customer)
    requires var m, n := s.tables.mappings.customers, t.tables.mappings.customers;
             (customer in m <==> customer in n) && (customer in m ==> n[customer] == m[customer])
    requires forall w :: w in t.inflight && IsAbout(t.inflight[w].row, customer) ==> w in s.inflight && t.inflight[w] == s.inflight[w]
    requires forall w :: w in s.inflight && IsAbout(s.inflight[w].row, customer) ==>
               (w in t.inflight && t.inflight[w] == s.inflight[w]) || !HasNamed(s.inflight[w])
    requires customer in s.tables.mappings.customers ==>
               var id := s.tables.mappings.customers[customer]; id in after && after[id] == last[id]
    requires forall w :: w in s.inflight && IsAbout(s.inflight[w].row, customer) && AddsCustomer(s.inflight[w]) ==>
               var id := s.inflight[w].phase.add.metronomeId; id in last ==> id in after && after[id] == last[id]
    ensures Account(t, after, handled, customer)
  {
    hide IsAbout, MappedName, WriteOk, SendsItsName;
  }

  /** A call for another customer names another Metronome customer. */
  lemma OthersNameElsewhere(world: World, s: State, step: Step, last: map<string, Write>, customer: string)
    requires Inv(world, s) && NamesOk(s, last) && Next(world, s, step).Some? && Naming(s, step).Some?
    requires !IsAbout(s.inflight[step.worker].row, customer)
    ensures customer in s.tables.mappings.customers ==> s.tables.mappings.customers[customer] != Naming(s, step).value.0
    ensures forall w :: w in s.inflight && AddsCustomer(s.inflight[w]) ==> s.inflight[w].phase.add.metronomeId != Naming(s, step).value.0
  {
    hide EventsOk, TransactionsOk, MappingsOk, RemoteOk, LocksOk, MappedName, WriteOk, Exchange, Advance;
    assert SendsItsName(s.tables.mappings, s.tables.events, last, s.inflight[step.worker]);
  }

  lemma OtherCallKeepsAccount(world: World, s: State, w: Name, a: Answer, last: map<string, Write>, handled: seq<EventRow>, customer: string)
    requires Inv(world, s) && NamesOk(s, last) && Account(s, last, handled, customer) && AfterCall(world, s, w, a).Some?
    requires !IsAbout(s.inflight[w].row, customer)
    ensures Account(AfterCall(world, s, w, a).value, Updated(last, Naming(s, Call(w, a))), handled, customer)
  {
    hide Inv, SendsItsName, WriteOk, IsAbout, MappedName, Exchange, Advance, Account;
    var t := AfterCall(world, s, w, a).value;
    if Naming(s, Call(w, a)).Some? {
      OthersNameElsewhere(world, s, Call(w, a), last, customer);
    }
    OthersKeepAccount(s, t, last, Updated(last, Naming(s, Call(w, a))), handled, customer);
  }

  lemma OtherCommitKeepsAccount(world: World, s: State, w: Name, draw: real, last: map<string, Write>, handled: seq<EventRow>, customer: string)
    requires Inv(world, s) && NamesOk(s, last) && Account(s, last, handled, customer) && Finished(world, s, w, draw).Some?
    requires !IsAbout(s.inflight[w].row, customer)
    ensures Account(Finished(world, s, w, draw).value, last, handled, customer)
  {
    hide EventsOk, LocksOk, MappingsOk, RemoteOk, IdsOk, Grounded, SendsItsName, WriteOk, MappedName, Settled, Violates, Account;
    assert TransactionOk(world, s.tables.mappings, s.remote.contracts, s.inflight[w]);
    OthersKeepAccount(s, Finished(world, s, w, draw).value, last, last, handled, customer);
  }

  // ----- Steps of a transaction about the customer -----

  /** A transaction about the customer begins or moves on; it is the only one. */
  lemma OwnMoveKeepsAccount(s: State, t: State, last: map<string, Write>, after: map<string, Write>, handled: seq<EventRow>, customer: string, w: Name)
    requires NamesOk(s, last) && Account(s, last, handled, customer) && t.tables == s.tables
    requires w in t.inflight && IsAbout(t.inflight[w].row, customer) && t.inflight == s.inflight[w := t.inflight[w]]
    requires forall v :: v in s.inflight && v != w ==> !IsAbout(s.inflight[v].row, customer)
    requires w in s.inflight ==> !HasNamed(s.inflight[w])
    requires InOrder(s.tables.mappings.customers, after, t.inflight[w], customer)
    requires HasNamed(t.inflight[w]) || after == last
    ensures Account(t, after, handled, customer)
  {
    hide IsAbout, MappedName, WriteOk, SendsItsName, InOrder, HasNamed;
  }

  /** What a transaction about the customer makes of its read. */
  lemma OwnRead(world: World, s: State, tx: Transaction, last: map<string, Write>, customer: string)
    requires IsAbout(tx.row, customer) && tx.phase.Start?
    ensures InOrder(s.tables.mappings.customers, last, Progressed(world, s.tables.mappings, tx, Read), customer)
    ensures !HasNamed(Progressed(world, s.tables.mappings, tx, Read))
  {
    hide KindOf, CM.CustomerRequestFor;
    BeginsWithItsName(s.tables.mappings, tx.row);
  }

  /** What it makes of a reply: told that its name arrived, it has named its customer. */
  lemma OwnReply(m: Mappings, events: Events, r: Remote, last: map<string, Write>, tx: Transaction, next: Transaction, a: Answer, customer: string)
    requires IsAbout(tx.row, customer) && InOrder(m.customers, last, tx, customer) && Calling(tx.phase)
    requires SendsItsName(m, events, last, tx) && (tx.phase.RenameCustomer? ==> IsUpdate(tx.row))
    requires last.Keys == r.customers.Keys && (customer in m.customers ==> m.customers[customer] in last)
    requires a.fault.None? || !a.applied
    requires next.row == tx.row && next.phase == AfterReply(tx.phase, Exchange(r, tx.phase, a).1)
    ensures if a.fault.Some? then InOrder(m.customers, last, next, customer)
            else
              var id := if tx.phase.CreateCustomer? then a.newId else tx.phase.metronomeId;
              && HasNamed(next) && InOrder(m.customers, last[id := Write(tx.id, tx.phase.name)], next, customer)
  {
    hide MappedName, KindOf, Classify, WriteOk;
  }

  lemma OwnCall(world: World, s: State, w: Name, a: Answer, last: map<string, Write>, customer: string)
    requires Inv(world, s) && NamesOk(s, last) && AfterCall(world, s, w, a).Some?
    requires IsAbout(s.inflight[w].row, customer) && InOrder(s.tables.mappings.customers, last, s.inflight[w], customer)
    requires a.fault.None? || !a.applied
    ensures var tx, after := AfterCall(world, s, w, a).value.inflight[w], Updated(last, Naming(s, Call(w, a)));
            && InOrder(s.tables.mappings.customers, after, tx, customer)
            && (HasNamed(tx) || after == last)
  {
    hide EventsOk, LocksOk, MappingsOk, RemoteOk, IdsOk, Grounded, WriteOk, SendsItsName, IsAbout, MappedName, KindOf, Exchange, AfterReply, HasNamed;
    var tx := s.inflight[w];
    assert SendsItsName(s.tables.mappings, s.tables.events, last, tx);
    assert TransactionOk(world, s.tables.mappings, s.remote.contracts, tx);
    OwnReply(s.tables.mappings, s.tables.events, s.remote, last, tx, AfterCall(world, s, w, a).value.inflight[w], a, customer);
  }

  /** Nothing can stand in the way of its commit. */
  lemma OwnNeverConflicts(s: State, w: Name, last: map<string, Write>, customer: string)
    requires IdsOk(s) && w in s.inflight && s.inflight[w].phase.Done?
    requires InOrder(s.tables.mappings.customers, last, s.inflight[w], customer)
    ensures !Conflicts(s, w)
  {
    hide MappedName;
    assert s.inflight[w].phase.add.AddCustomer? ==> AddsCustomer(s.inflight[w]);
  }

  /** Its commit: a success is handled, and the name stays with the event it now counts from. */
  lemma OwnCommitKeepsAccount(world: World, s: State, w: Name, draw: real, last: map<string, Write>, handled: seq<EventRow>, customer: string)
    requires NamesOk(s, last) && Account(s, last, handled, customer) && Finished(world, s, w, draw).Some? && !Conflicts(s, w)
    requires IsAbout(s.inflight[w].row, customer)
    ensures var tx := s.inflight[w];
            Account(Finished(world, s, w, draw).value, last,
                    handled + (if tx.phase.verdict.Succeeded? then [tx.row] else []), customer)
  {
    hide MappedName, WriteOk, SendsItsName, Settled, Violates, IsAbout, KindOf;
    var tx := s.inflight[w];
    assert InOrder(s.tables.mappings.customers, last, tx, customer);
    NamingOneMore(handled, tx.row);
    assert !HasNamed(tx) ==> NoNameInFlight(s, customer);
    if !tx.phase.verdict.Succeeded? {
      assert handled + [] == handled;
    }
  }

  // ----- Every orderly step, every orderly run -----

  lemma StartHasNotNamed(tx: Transaction)
    ensures HasNamed(tx) ==> tx.phase.Done?
  {
  }

  lemma SameRow(world: World, m: Mappings, tx: Transaction, input: Input)
    requires Accepts(tx.phase, input)
    ensures Progressed(world, m, tx, input).row == tx.row
  {
  }

  lemma CallsMoveOne(world: World, s: State, w: Name, a: Answer)
    requires AfterCall(world, s, w, a).Some?
    ensures var t := AfterCall(world, s, w, a).value;
            t.tables == s.tables && w in t.inflight && t.inflight == s.inflight[w := t.inflight[w]] && t.inflight[w].row == s.inflight[w].row
  {
  }

  lemma OwnStepKeepsAccount(world: World, s: State, step: Step, last: map<string, Write>, handled: seq<EventRow>, customer: string)
    requires Inv(world, s) && NamesOk(s, last) && Account(s, last, handled, customer) && Next(world, s, step).Some?
    requires OrderlyStep(s, step, customer) && (step.ReadTables? || step.Call? || step.Finish?)
    requires IsAbout(s.inflight[step.worker].row, customer)
    ensures Account(Next(world, s, step).value, Updated(last, Naming(s, step)),
                    handled + (if Handles(s, step, customer) then [s.inflight[step.worker].row] else []), customer)
  {
    hide EventsOk, LocksOk, TransactionsOk, MappingsOk, RemoteOk, NamesOk, IdsOk, IsAbout, MappedName, HasNamed, Follows, Conflicts, Progressed, Exchange, Advance, Settled;
    var w, tx, t := step.worker, s.inflight[step.worker], Next(world, s, step).value;
    assert handled + [] == handled;
    assert InOrder(s.tables.mappings.customers, last, tx, customer);
    match step {
      case ReadTables(_) =>
        OwnRead(world, s, tx, last, customer);
        StartHasNotNamed(tx);
        SameRow(world, s.tables.mappings, tx, Read);
        OwnMoveKeepsAccount(s, t, last, last, handled, customer, w);
      case Call(_, a) =>
        OwnCall(world, s, w, a, last, customer);
        StartHasNotNamed(tx);
        SameRow(world, s.tables.mappings, tx, Heard(Exchange(s.remote, tx.phase, a).1));
        CallsMoveOne(world, s, w, a);
        OwnMoveKeepsAccount(s, t, last, Updated(last, Naming(s, step)), handled, customer, w);
      case Finish(_, draw) =>
        OwnNeverConflicts(s, w, last, customer);
        OwnCommitKeepsAccount(world, s, w, draw, last, handled, customer);
    }
  }

  lemma NeedsWorker(world: World, s: State, step: Step)
    requires Next(world, s, step).Some? && (step.Call? || step.Finish? || step.ReadTables?)
    ensures step.worker in s.inflight
  {
  }

  lemma KeysOfNames(s: State, last: map<string, Write>)
    ensures NamesOk(s, last) ==>
              last.Keys == s.remote.customers.Keys && forall c :: c in s.tables.mappings.customers ==> s.tables.mappings.customers[c] in last
  {
  }

  /** Steps that neither call nor commit, and are not a claim or a read about the customer. */
  lemma OthersStep(world: World, s: State, step: Step, last: map<string, Write>, handled: seq<EventRow>, customer: string)
    requires NamesOk(s, last) && Account(s, last, handled, customer) && Next(world, s, step).Some? && OrderlyStep(s, step, customer)
    requires !step.Claim? && !step.Call? && !step.Finish?
    requires step.ReadTables? ==> !IsAbout(s.inflight[step.worker].row, customer)
    ensures Account(Next(world, s, step).value, last, handled, customer)
  {
    hide NamesOk, Account, IsAbout, HasNamed, Advance;
    assert NamesOk(s, last) ==> last.Keys == s.remote.customers.Keys && forall c :: c in s.tables.mappings.customers ==> s.tables.mappings.customers[c] in last by {
      KeysOfNames(s, last);
    }
    OthersKeepAccount(s, Next(world, s, step).value, last, last, handled, customer);
  }

  lemma ClaimKeepsAccount(world: World, s: State, w: Name, id: string, last: map<string, Write>, handled: seq<EventRow>, customer: string)
    requires NamesOk(s, last) && Account(s, last, handled, customer) && Claimed(s, w, id).Some?
    requires OrderlyStep(s, Claim(w, id), customer)
    ensures Account(Claimed(s, w, id).value, last, handled, customer)
  {
    hide NamesOk, Account, IsAbout;
    var t := Claimed(s, w, id).value;
    KeysOfNames(s, last);
    if IsAbout(s.tables.events[id], customer) {
      OwnMoveKeepsAccount(s, t, last, last, handled, customer, w);
    } else {
      OthersKeepAccount(s, t, last, last, handled, customer);
    }
  }

  lemma NextKeepsAccount(world: World, s: State, step: Step, last: map<string, Write>, handled: seq<EventRow>, customer: string)
    requires Inv(world, s) && NamesOk(s, last) && Account(s, last, handled, customer) && Next(world, s, step).Some?
    requires OrderlyStep(s, step, customer)
    ensures Account(Next(world, s, step).value, Updated(last, Naming(s, step)),
                    handled + (if Handles(s, step, customer) then [s.inflight[step.worker].row] else []), customer)
  {
    hide Inv, NamesOk, Account, IsAbout, InOrder, HasNamed, Conflicts, Progressed, AfterCall, Finished;
    var t := Next(world, s, step).value;
    assert handled + [] == handled;
    match step {
      case Claim(w, id) => ClaimKeepsAccount(world, s, w, id, last, handled, customer);
      case Crash(w) => OthersStep(world, s, step, last, handled, customer);
      case ReadTables(w) =>
        if IsAbout(s.inflight[w].row, customer) {
          OwnStepKeepsAccount(world, s, step, last, handled, customer);
        } else {
          OthersStep(world, s, step, last, handled, customer);
        }
      case Call(w, a) =>
        NeedsWorker(world, s, step);
        if IsAbout(s.inflight[w].row, customer) {
          OwnStepKeepsAccount(world, s, step, last, handled, customer);
        } else {
          OtherCallKeepsAccount(world, s, w, a, last, handled, customer);
        }
      case Finish(w, draw) =>
        NeedsWorker(world, s, step);
        if IsAbout(s.inflight[w].row, customer) {
          OwnStepKeepsAccount(world, s, step, last, handled, customer);
        } else {
          OtherCommitKeepsAccount(world, s, w, draw, last, handled, customer);
        }
      case _ => OthersStep(world, s, step, last, handled, customer);
    }
  }

  lemma {:induction false} AccountOfRun(world: World, steps: seq<Step>, customer: string)
    requires Play(world, steps).Some? && Orderly(world, steps, customer)
    ensures Account(Play(world, steps).value, Last(world, steps), Handled(world, steps, customer), customer)
  {
    hide Next, Inv, NamesOk, Handles, OrderlyStep, Naming;
    if steps == [] {
    } else {
      var most, last := steps[..|steps| - 1], steps[|steps| - 1];
      AccountOfRun(world, most, customer);
      NamesAreOk(world, most);
      Reachable(world, most);
      NextKeepsAccount(world, Play(world, most).value, last, Last(world, most), Handled(world, most, customer), customer);
    }
  }

  /**
   In every orderly run, whatever else it contains: the customer is mapped exactly when an event about it
   has been handled, and unless a transaction has just named it and not yet committed, Metronome shows
   the name of the last update handled, or of the first event handled when none was an update.
   */
  lemma NameFollowsLastUpdate(world: World, steps: seq<Step>, customer: string)
    requires Play(world, steps).Some? && Orderly(world, steps, customer)
    ensures var s, handled := Play(world, steps).value, Handled(world, steps, customer);
            && (customer in s.tables.mappings.customers <==> handled != [])
            && (handled != [] && NoNameInFlight(s, customer) ==>
                  && MappedName(handled[NamingEvent(handled)].payload).Some?
                  && ShownName(s, customer) == MappedName(handled[NamingEvent(handled)].payload))
  {
    hide Next, Handled, Orderly, Last, SendsItsName, WriteOk, MappedName, IsAbout, HasNamed, InOrder;
    AccountOfRun(world, steps, customer);
    NamesAreOk(world, steps);
  }

  /**
   Two orderly runs that each handled one update about the customer, with the same payload, show the same
   name, wherever the update stands among the created events handled.
   */
  lemma PositionOfOneUpdateDoesNotMatter(world: World, one: seq<Step>, other: seq<Step>, customer: string, i: nat, j: nat)
    requires Play(world, one).Some? && Orderly(world, one, customer) && NoNameInFlight(Play(world, one).value, customer)
    requires Play(world, other).Some? && Orderly(world, other, customer) && NoNameInFlight(Play(world, other).value, customer)
    requires var a, b := Handled(world, one, customer), Handled(world, other, customer);
             && i < |a| && j < |b| && a[i].payload == b[j].payload
             && (forall k :: 0 <= k < |a| ==> (IsUpdate(a[k]) <==> k == i))
             && (forall k :: 0 <= k < |b| ==> (IsUpdate(b[k]) <==> k == j))
    ensures ShownName(Play(world, one).value, customer) == ShownName(Play(world, other).value, customer)
  {
    hide Play, Handled, Orderly, NoNameInFlight, MappedName, IsUpdate;
    NameFollowsLastUpdate(world, one, customer);
    NameFollowsLastUpdate(world, other, customer);
    var a, b := Handled(world, one, customer), Handled(world, other, customer);
    assert NamingEvent(a) == i && NamingEvent(b) == j;
  }
}
