/**
 Every run of interleaved workers ends in the tables of a serial run of its committed attempts.

 The proof keeps, beside a run, a serial log and for every transaction in flight a place in it where
 the transaction could have run whole. An attempt that inserts a row is appended when it commits; an
 attempt that read "no mapping" and inserted nothing goes to its place, before the insert it missed,
 and everything after it commutes because its row has been locked since.
 */
module Serialisability {
  import opened Wrappers
  import opened Json
  import opened Settings
  import opened Schema
  import opened SubscriptionMapper
  import CM = CustomerMapper
  import opened Metronome
  import opened HandlerProgram
  import opened EventLifecycle
  import opened Protocol
  import opened Invariants

  // ----- Serial runs -----

  /** One committed operation, run whole on the tables. */
  function Apply(world: World, t: Tables, op: Op): Option<Tables> {
    match op
    case Received(id, eventType, payload, at) =>
      if id in t.events || !Admissible(world, eventType, payload) then None
      else Some(t.(events := t.events[id := NewEvent(eventType, payload, at)]))
    case Replayed(id, at, clear) =>
      if id !in t.events then None
      else Some(t.(events := t.events[id := Requeued(t.events[id], at, clear)]))
    case Attempted(id, claimedAt, inputs, finishedAt, draw) =>
      AttemptWhole(world.settings, t, id, claimedAt, inputs, finishedAt, draw)
  }

  function Serial(world: World, ops: seq<Op>): Option<Tables> {
    if ops == [] then Some(EMPTY_TABLES) else
      var before := Serial(world, ops[..|ops| - 1]);
      if before.None? then None else Apply(world, before.value, ops[|ops| - 1])
  }

  lemma SerialOneMore(world: World, ops: seq<Op>, op: Op)
    ensures Serial(world, ops + [op]) ==
            if Serial(world, ops).None? then None else Apply(world, Serial(world, ops).value, op)
  {
    assert (ops + [op])[..|ops|] == ops;
  }

  lemma {:induction false} PrefixRuns(world: World, ops: seq<Op>, n: nat)
    requires Serial(world, ops).Some? && n <= |ops|
    ensures Serial(world, ops[..n]).Some?
  {
    if n == |ops| {
      assert ops[..n] == ops;
    } else {
      assert ops[..|ops| - 1][..n] == ops[..n];
      PrefixRuns(world, ops[..|ops| - 1], n);
    }
  }

  // ----- What serial tables satisfy -----

  /** Every linked subscription belongs to its owner, which is mapped. */
  ghost predicate LinksOk(world: World, m: Mappings) {
    forall sub :: sub in m.subscriptions ==>
      m.subscriptions[sub].customer == world.owner(sub) && world.owner(sub) in m.customers
  }

  /** The part of the invariant that the order of reads depends on. */
  ghost predicate SerialOk(world: World, t: Tables) {
    && (forall id :: id in t.events ==> Admissible(world, t.events[id].eventType, t.events[id].payload))
    && LinksOk(world, t.mappings)
  }

  lemma InsertKeepsLinks(world: World, m: Mappings, add: Insert)
    requires LinksOk(world, m) && !Violates(m, add)
    requires add.AddSubscription? ==> add.row.customer == world.owner(add.subscription)
    ensures LinksOk(world, Inserted(m, add)) && Grows(m, Inserted(m, add))
    ensures forall sub :: sub in Inserted(m, add).subscriptions && sub !in m.subscriptions ==> world.owner(sub) in m.customers
  {
  }

  lemma AttemptInserts(world: World, t: Tables, op: Op) returns (add: Insert)
    requires SerialOk(world, t) && op.Attempted? && Apply(world, t, op).Some?
    ensures !Violates(t.mappings, add) && Apply(world, t, op).value.mappings == Inserted(t.mappings, add)
    ensures add.AddSubscription? ==> add.row.customer == world.owner(add.subscription)
  {
    hide Run, Settled, DuplicateUnique;
    var row := t.events[op.id];
    RunFits(world.settings, KindOf(row.eventType), row.payload, t.mappings, op.inputs);
    add := Run(world.settings, KindOf(row.eventType), row.payload, t.mappings, op.inputs).value.add;
  }

  lemma ApplyKeepsAdmissible(world: World, t: Tables, op: Op)
    requires SerialOk(world, t) && Apply(world, t, op).Some?
    ensures var u := Apply(world, t, op).value;
            forall id :: id in u.events ==> Admissible(world, u.events[id].eventType, u.events[id].payload)
  {
    hide Run, Violates, Inserted, Admissible;
  }

  lemma ApplyKeepsSerialOk(world: World, t: Tables, op: Op)
    requires SerialOk(world, t) && Apply(world, t, op).Some?
    ensures SerialOk(world, Apply(world, t, op).value)
    ensures Grows(t.mappings, Apply(world, t, op).value.mappings)
    ensures forall sub :: sub in Apply(world, t, op).value.mappings.subscriptions && sub !in t.mappings.subscriptions ==>
              world.owner(sub) in t.mappings.customers
  {
    hide Run, Violates, Inserted, Admissible, Settled;
    ApplyKeepsAdmissible(world, t, op);
    if op.Attempted? {
      var add := AttemptInserts(world, t, op);
      InsertKeepsLinks(world, t.mappings, add);
    }
  }

  lemma {:induction false} SerialTablesOk(world: World, ops: seq<Op>)
    requires Serial(world, ops).Some?
    ensures SerialOk(world, Serial(world, ops).value)
  {
    if ops == [] {
    } else {
      SerialTablesOk(world, ops[..|ops| - 1]);
      ApplyKeepsSerialOk(world, Serial(world, ops[..|ops| - 1]).value, ops[|ops| - 1]);
    }
  }

  lemma {:induction false} SerialGrows(world: World, ops: seq<Op>, n: nat)
    requires Serial(world, ops).Some? && n <= |ops|
    ensures Serial(world, ops[..n]).Some?
    ensures Grows(Serial(world, ops[..n]).value.mappings, Serial(world, ops).value.mappings)
  {
    if n == |ops| {
      assert ops[..n] == ops;
    } else {
      var most := ops[..|ops| - 1];
      assert most[..n] == ops[..n];
      SerialGrows(world, most, n);
      SerialTablesOk(world, most);
      ApplyKeepsSerialOk(world, Serial(world, most).value, ops[|ops| - 1]);
    }
  }

  /**
   A subscription that is unmapped at some place, and whose customer is mapped by the end, has a place
   from there on where the one is still unmapped and the other is mapped already.
   */
  lemma {:induction false} PlaceBetween(world: World, ops: seq<Op>, n: nat, sub: string) returns (k: nat)
    requires Serial(world, ops).Some? && n <= |ops| && Serial(world, ops[..n]).Some?
    requires sub !in Serial(world, ops[..n]).value.mappings.subscriptions
    requires world.owner(sub) in Serial(world, ops).value.mappings.customers
    ensures n <= k <= |ops| && Serial(world, ops[..k]).Some?
    ensures sub !in Serial(world, ops[..k]).value.mappings.subscriptions
    ensures world.owner(sub) in Serial(world, ops[..k]).value.mappings.customers
  {
    assert ops[..|ops|] == ops;
    if sub !in Serial(world, ops).value.mappings.subscriptions {
      k := |ops|;
    } else {
      var most := ops[..|ops| - 1];
      assert most[..n] == ops[..n];
      SerialTablesOk(world, ops);
      SerialTablesOk(world, most);
      ApplyKeepsSerialOk(world, Serial(world, most).value, ops[|ops| - 1]);
      k := PlaceBetween(world, most, n, sub);
      assert most[..k] == ops[..k];
    }
  }

  // ----- A handler depends on few rows -----

  predicate SameAt(m: map<string, string>, n: map<string, string>, key: string) {
    (key in m <==> key in n) && (key in m ==> m[key] == n[key])
  }

  /** The two tables look alike to the handler of this payload. */
  ghost predicate LooksAlike(kind: Kind, payload: Object, m: Mappings, n: Mappings) {
    && (AboutCustomer(kind) && ReadCustomer(payload).Some? ==>
          SameAt(m.customers, n.customers, ReadCustomer(payload).value.id))
    && (kind.SubscriptionCreated? && ReadSubscription(payload).Some? ==>
          var sub := ReadSubscription(payload).value;
          && sub.id !in m.subscriptions && sub.id !in n.subscriptions
          && SameAt(m.customers, n.customers, sub.customer))
  }

  /** In which tables a phase can have been reached. */
  ghost predicate Seen(m: Mappings, ph: Phase) {
    match ph
    case ResolveCustomer(sub, _) => sub.id in m.subscriptions
    case FindCustomer(sub, _) => sub.id !in m.subscriptions
    case CreateCustomer(customer, _) => customer !in m.customers
    case CreateContract(sub, _, _, _) => sub.id !in m.subscriptions && sub.customer in m.customers
    case RecoverContract(sub, _, _, _) => sub.id !in m.subscriptions && sub.customer in m.customers
    case Done(_, AddCustomer(customer, _)) => customer !in m.customers
    case Done(_, AddSubscription(sub, row)) => sub !in m.subscriptions && row.customer in m.customers
    case _ => true
  }

  lemma AdvanceSeen(cfg: Settings, kind: Kind, payload: Object, m: Mappings, ph: Phase, input: Input)
    requires Seen(m, ph) && Accepts(ph, input)
    ensures Seen(m, Advance(cfg, kind, payload, m, ph, input))
  {
  }

  lemma {:induction false} RunSeen(cfg: Settings, kind: Kind, payload: Object, m: Mappings, inputs: seq<Input>)
    requires Run(cfg, kind, payload, m, inputs).Some?
    ensures Seen(m, Run(cfg, kind, payload, m, inputs).value)
  {
    if inputs == [] {
    } else {
      var most := inputs[..|inputs| - 1];
      RunSeen(cfg, kind, payload, m, most);
      AdvanceSeen(cfg, kind, payload, m, Run(cfg, kind, payload, m, most).value, inputs[|inputs| - 1]);
    }
  }

  lemma AlikeAdvance(cfg: Settings, kind: Kind, payload: Object, m: Mappings, n: Mappings, ph: Phase, input: Input)
    requires LooksAlike(kind, payload, m, n) && Fits(cfg, kind, payload, ph) && Seen(m, ph) && Accepts(ph, input)
    ensures Advance(cfg, kind, payload, m, ph, input) == Advance(cfg, kind, payload, n, ph, input)
  {
  }

  lemma {:induction false} AlikeRun(cfg: Settings, kind: Kind, payload: Object, m: Mappings, n: Mappings, inputs: seq<Input>)
    requires LooksAlike(kind, payload, m, n) && Run(cfg, kind, payload, m, inputs).Some?
    ensures Run(cfg, kind, payload, n, inputs) == Run(cfg, kind, payload, m, inputs)
  {
    if inputs == [] {
    } else {
      var most := inputs[..|inputs| - 1];
      AlikeRun(cfg, kind, payload, m, n, most);
      RunFits(cfg, kind, payload, m, most);
      RunSeen(cfg, kind, payload, m, most);
      AlikeAdvance(cfg, kind, payload, m, n, Run(cfg, kind, payload, m, most).value, inputs[|inputs| - 1]);
    }
  }

  /** A run that ends in an insert ends in the same insert wherever the insert is still possible. */
  lemma InsertStillPossible(cfg: Settings, kind: Kind, payload: Object, m: Mappings, n: Mappings, inputs: seq<Input>)
    requires Run(cfg, kind, payload, m, inputs).Some? && Grows(m, n)
    requires var ph := Run(cfg, kind, payload, m, inputs).value; ph.Done? && !ph.add.NoRow? && !DuplicateKey(n, ph.add)
    ensures Run(cfg, kind, payload, n, inputs) == Run(cfg, kind, payload, m, inputs)
  {
    RunFits(cfg, kind, payload, m, inputs);
    RunSeen(cfg, kind, payload, m, inputs);
    AlikeRun(cfg, kind, payload, m, n, inputs);
  }

  // ----- Putting an attempt in its place -----

  function WithRow(t: Tables, id: string, row: EventRow): Tables {
    t.(events := t.events[id := row])
  }

  /** An operation on another event does not notice the row of this one. */
  lemma ApplyCommutes(world: World, t: Tables, op: Op, id: string, row: EventRow)
    requires op.id != id && id in t.events && Apply(world, t, op).Some?
    ensures id in Apply(world, t, op).value.events && Apply(world, t, op).value.events[id] == t.events[id]
    ensures Apply(world, WithRow(t, id, row), op) == Some(WithRow(Apply(world, t, op).value, id, row))
  {
    var u := WithRow(t, id, row);
    var after := Apply(world, t, op).value;
    assert op.id in u.events <==> op.id in t.events;
    if op.id in t.events {
      assert u.events[op.id] == t.events[op.id];
    }
    var changed := after.events[op.id];
    assert u.events[op.id := changed] == t.events[op.id := changed][id := row];
  }

  function Placed(ops: seq<Op>, n: nat, op: Op): seq<Op>
    requires n <= |ops|
  {
    ops[..n] + [op] + ops[n..]
  }

  lemma SameStepAfterRow(world: World, a: seq<Op>, b: seq<Op>, op: Op, id: string, row: EventRow)
    requires Serial(world, a).Some? && id in Serial(world, a).value.events && op.id != id
    requires Serial(world, b) == Some(WithRow(Serial(world, a).value, id, row))
    requires Serial(world, a + [op]).Some?
    ensures id in Serial(world, a + [op]).value.events
    ensures Serial(world, a + [op]).value.events[id] == Serial(world, a).value.events[id]
    ensures Serial(world, b + [op]) == Some(WithRow(Serial(world, a + [op]).value, id, row))
  {
    SerialOneMore(world, a, op);
    SerialOneMore(world, b, op);
    ApplyCommutes(world, Serial(world, a).value, op, id, row);
  }

  /** `op` runs at place `n`, changes nothing but its own row, and no later operation concerns its event. */
  ghost predicate FitsAt(world: World, ops: seq<Op>, n: nat, op: Op, row: EventRow) {
    && n <= |ops| && Serial(world, ops).Some? && Serial(world, ops[..n]).Some?
    && op.id in Serial(world, ops[..n]).value.events
    && Serial(world, ops[..n] + [op]) == Some(WithRow(Serial(world, ops[..n]).value, op.id, row))
    && forall i :: n <= i < |ops| ==> ops[i].id != op.id
  }

  lemma PrefixOfPlaced(ops: seq<Op>, n: nat, op: Op, k: nat)
    requires n <= k <= |ops|
    ensures k == n ==> Placed(ops, n, op)[..k + 1] == ops[..n] + [op]
    ensures k > n ==> Placed(ops, n, op)[..k + 1] == Placed(ops, n, op)[..k] + [ops[k - 1]]
    ensures k > 0 ==> ops[..k] == ops[..k - 1] + [ops[k - 1]]
  {
  }

  /** The run with `op` put in at `n` shows, at every later place, the old tables with one row changed. */
  lemma {:induction false} PlacedRun(world: World, ops: seq<Op>, n: nat, op: Op, row: EventRow, k: nat)
    requires FitsAt(world, ops, n, op, row) && n <= k <= |ops|
    ensures Serial(world, ops[..k]).Some? && op.id in Serial(world, ops[..k]).value.events
    ensures Serial(world, Placed(ops, n, op)[..k + 1]) == Some(WithRow(Serial(world, ops[..k]).value, op.id, row))
    decreases k
  {
    hide Serial, Apply;
    PrefixRuns(world, ops, k);
    PrefixOfPlaced(ops, n, op, k);
    if k > n {
      PlacedRun(world, ops, n, op, row, k - 1);
      SameStepAfterRow(world, ops[..k - 1], Placed(ops, n, op)[..k], ops[k - 1], op.id, row);
    }
  }

  // ----- What happened to one event, in order -----

  function Story(ops: seq<Op>, id: string): seq<Op> {
    if ops == [] then [] else
      var last := ops[|ops| - 1];
      Story(ops[..|ops| - 1], id) + if last.id == id then [last] else []
  }

  lemma {:induction false} StoryConcat(a: seq<Op>, b: seq<Op>, id: string)
    ensures Story(a + b, id) == Story(a, id) + Story(b, id)
  {
    if b == [] {
      assert a + b == a;
    } else {
      var most := b[..|b| - 1];
      assert (a + b)[..|a + b| - 1] == a + most;
      StoryConcat(a, most, id);
    }
  }

  lemma StoryOneMore(ops: seq<Op>, op: Op, id: string)
    ensures Story(ops + [op], id) == if op.id == id then Story(ops, id) + [op] else Story(ops, id)
  {
    assert (ops + [op])[..|ops|] == ops;
  }

  lemma {:induction false} NoStory(ops: seq<Op>, id: string)
    requires forall i :: 0 <= i < |ops| ==> ops[i].id != id
    ensures Story(ops, id) == []
  {
    if ops == [] {
    } else {
      NoStory(ops[..|ops| - 1], id);
    }
  }

  lemma StoryOfPlaced(ops: seq<Op>, n: nat, op: Op, id: string)
    requires n <= |ops| && forall i :: n <= i < |ops| ==> ops[i].id != op.id
    ensures Story(Placed(ops, n, op), id) == Story(ops, id) + if op.id == id then [op] else []
  {
    StoryConcat(ops[..n] + [op], ops[n..], id);
    StoryConcat(ops[..n], [op], id);
    assert ops == ops[..n] + ops[n..];
    StoryConcat(ops[..n], ops[n..], id);
    assert [op][..0] == [];
    if op.id == id {
      NoStory(ops[n..], id);
    }
  }

  // ----- When operations happened -----

  function StartOf(op: Op): real {
    if op.Attempted? then op.claimedAt else op.at
  }

  function EndOf(op: Op): real {
    if op.Attempted? then op.finishedAt else op.at
  }

  /** An operation that ended before another started comes first. */
  ghost predicate InTimeOrder(ops: seq<Op>) {
    forall i, j :: 0 <= i < |ops| && 0 <= j < |ops| && EndOf(ops[i]) < StartOf(ops[j]) ==> i < j
  }

  ghost predicate Timely(ops: seq<Op>, now: real) {
    InTimeOrder(ops) && forall i :: 0 <= i < |ops| ==> StartOf(ops[i]) <= EndOf(ops[i]) <= now
  }

  /** An operation that ends now keeps the order at every place before which nothing ended later than it started. */
  lemma PlacedIsTimely(ops: seq<Op>, n: nat, op: Op, now: real)
    requires Timely(ops, now) && n <= |ops| && StartOf(op) <= EndOf(op) == now
    requires forall i :: n <= i < |ops| ==> StartOf(op) <= EndOf(ops[i])
    ensures Timely(Placed(ops, n, op), now)
  {
    var placed := Placed(ops, n, op);
    forall i | 0 <= i < |placed|
      ensures placed[i] == if i < n then ops[i] else if i == n then op else ops[i - 1]
    {
    }
  }

  // ----- The correspondence -----

  /** At place `n` the transaction could have run as far as it has come; what follows ended after its claim and leaves its row alone. */
  ghost predicate Pinned(world: World, ops: seq<Op>, n: nat, tx: Transaction) {
    && n <= |ops| && Serial(world, ops[..n]).Some?
    && tx.id in Serial(world, ops[..n]).value.events && Serial(world, ops[..n]).value.events[tx.id] == tx.row
    && (forall i :: n <= i < |ops| ==> ops[i].id != tx.id && tx.claimedAt <= EndOf(ops[i]))
    && Run(world.settings, KindOf(tx.row.eventType), tx.row.payload, Serial(world, ops[..n]).value.mappings, tx.inputs)
       == Some(tx.phase)
  }

  ghost predicate Corresponds(world: World, ops: seq<Op>, places: map<Name, nat>, s: State) {
    && Serial(world, ops) == Some(s.tables)
    && (forall id :: Story(ops, id) == Story(s.log, id))
    && Timely(ops, s.clock)
    && places.Keys == s.inflight.Keys
    && (forall w :: w in places ==> Pinned(world, ops, places[w], s.inflight[w]))
  }

  lemma PinnedAfterAppend(world: World, ops: seq<Op>, op: Op, n: nat, tx: Transaction)
    requires Pinned(world, ops, n, tx) && op.id != tx.id && tx.claimedAt <= EndOf(op)
    ensures Pinned(world, ops + [op], n, tx)
  {
    assert (ops + [op])[..n] == ops[..n];
  }

  /** An operation on a row no one holds is appended to the serial log. */
  lemma AppendCorresponds(world: World, ops: seq<Op>, places: map<Name, nat>, s: State, t: State, op: Op)
    requires LocksOk(s) && Corresponds(world, ops, places, s) && Apply(world, s.tables, op) == Some(t.tables)
    requires t.log == s.log + [op] && t.inflight.Keys <= s.inflight.Keys
    requires StartOf(op) <= EndOf(op) == s.clock == t.clock
    requires forall w :: w in t.inflight ==> t.inflight[w] == s.inflight[w] && t.inflight[w].id != op.id
    ensures Corresponds(world, ops + [op], map w | w in t.inflight :: places[w], t)
  {
    hide Run, Apply, Pinned, Timely, Story;
    SerialOneMore(world, ops, op);
    PlacedIsTimely(ops, |ops|, op, s.clock);
    assert Placed(ops, |ops|, op) == ops + [op];
    forall id ensures Story(ops + [op], id) == Story(t.log, id) {
      StoryOneMore(ops, op, id);
      StoryOneMore(s.log, op, id);
    }
    forall w | w in t.inflight ensures Pinned(world, ops + [op], places[w], t.inflight[w]) {
      assert HoldsRow(s, s.inflight[w]);
      PinnedAfterAppend(world, ops, op, places[w], s.inflight[w]);
    }
  }

  function ShiftedPlace(n: nat, at: nat): nat {
    if at > n then at + 1 else at
  }

  lemma LaterOpsOfPlaced(ops: seq<Op>, n: nat, op: Op, at: nat, id: string, since: real)
    requires n <= |ops| && at <= |ops| && op.id != id && since <= EndOf(op)
    requires forall i :: at <= i < |ops| ==> ops[i].id != id && since <= EndOf(ops[i])
    ensures forall i :: ShiftedPlace(n, at) <= i < |Placed(ops, n, op)| ==>
              Placed(ops, n, op)[i].id != id && since <= EndOf(Placed(ops, n, op)[i])
  {
    forall i | ShiftedPlace(n, at) <= i < |Placed(ops, n, op)|
      ensures Placed(ops, n, op)[i].id != id && since <= EndOf(Placed(ops, n, op)[i])
    {
      if i > n {
        assert Placed(ops, n, op)[i] == ops[i - 1];
      }
    }
  }

  lemma PinnedAfterPlacing(world: World, ops: seq<Op>, n: nat, op: Op, row: EventRow, at: nat, tx: Transaction)
    requires Pinned(world, ops, at, tx) && op.id != tx.id && tx.claimedAt <= EndOf(op) && FitsAt(world, ops, n, op, row)
    ensures Pinned(world, Placed(ops, n, op), ShiftedPlace(n, at), tx)
  {
    hide Run, Apply, Story, Settled;
    LaterOpsOfPlaced(ops, n, op, at, tx.id, tx.claimedAt);
    if at <= n {
      assert Placed(ops, n, op)[..at] == ops[..at];
    } else {
      PlacedRun(world, ops, n, op, row, at);
    }
  }

  /** A transaction that inserts nothing can run whole at its place. */
  lemma AttemptFitsAtItsPlace(world: World, ops: seq<Op>, n: nat, s: State, tx: Transaction, draw: real)
    requires Serial(world, ops) == Some(s.tables) && Pinned(world, ops, n, tx) && HoldsRow(s, tx)
    requires tx.phase.Done? && tx.phase.add.NoRow? && DrawFits(world.settings, tx.row, draw)
    ensures FitsAt(world, ops, n, Attempted(tx.id, tx.claimedAt, tx.inputs, s.clock, draw),
                   Settled(world.settings, tx.row, tx.phase.verdict, s.clock, draw))
  {
    SerialOneMore(world, ops[..n], Attempted(tx.id, tx.claimedAt, tx.inputs, s.clock, draw));
  }

  lemma PlacedTables(world: World, ops: seq<Op>, n: nat, op: Op, row: EventRow)
    requires FitsAt(world, ops, n, op, row)
    ensures Serial(world, Placed(ops, n, op)) == Some(WithRow(Serial(world, ops).value, op.id, row))
  {
    hide Serial;
    PlacedRun(world, ops, n, op, row, |ops|);
    assert ops[..|ops|] == ops && Placed(ops, n, op)[..|ops| + 1] == Placed(ops, n, op);
  }

  lemma PlacedStories(ops: seq<Op>, n: nat, op: Op, log: seq<Op>)
    requires n <= |ops| && (forall i :: n <= i < |ops| ==> ops[i].id != op.id) && forall id :: Story(ops, id) == Story(log, id)
    ensures forall id :: Story(Placed(ops, n, op), id) == Story(log + [op], id)
  {
    forall id ensures Story(Placed(ops, n, op), id) == Story(log + [op], id) {
      StoryOfPlaced(ops, n, op, id);
      StoryOneMore(log, op, id);
    }
  }

  lemma LaterEndAfterClaim(world: World, ops: seq<Op>, n: nat, tx: Transaction)
    requires Pinned(world, ops, n, tx)
    ensures forall i :: n <= i < |ops| ==> tx.claimedAt <= EndOf(ops[i])
  {
  }

  /** An attempt that inserts nothing is put in its place. */
  lemma PlaceCorresponds(world: World, ops: seq<Op>, places: map<Name, nat>, s: State, t: State, op: Op, w: Name, row: EventRow)
    requires LocksOk(s) && Corresponds(world, ops, places, s) && w in s.inflight && op.id == s.inflight[w].id
    requires FitsAt(world, ops, places[w], op, row) && StartOf(op) == s.inflight[w].claimedAt && EndOf(op) == s.clock == t.clock
    requires t.tables == WithRow(s.tables, op.id, row) && t.inflight == s.inflight - {w} && t.log == s.log + [op]
    ensures Corresponds(world, Placed(ops, places[w], op), map v | v in t.inflight :: ShiftedPlace(places[w], places[v]), t)
  {
    hide Serial, Story, Run, Pinned, Placed, ShiftedPlace;
    PlacedTables(world, ops, places[w], op, row);
    PlacedStories(ops, places[w], op, s.log);
    LaterEndAfterClaim(world, ops, places[w], s.inflight[w]);
    assert HoldsRow(s, s.inflight[w]);
    PlacedIsTimely(ops, places[w], op, s.clock);
    forall v | v in t.inflight
      ensures Pinned(world, Placed(ops, places[w], op), ShiftedPlace(places[w], places[v]), t.inflight[v])
    {
      assert HoldsRow(s, s.inflight[v]);
      PinnedAfterPlacing(world, ops, places[w], op, row, places[v], s.inflight[v]);
    }
  }

  /** An attempt that inserts a row runs whole at the end of the serial log. */
  lemma InsertRunsWhole(world: World, ops: seq<Op>, n: nat, s: State, tx: Transaction, draw: real)
    requires Serial(world, ops) == Some(s.tables) && Pinned(world, ops, n, tx) && HoldsRow(s, tx)
    requires tx.phase.Done? && !tx.phase.add.NoRow? && !Violates(s.tables.mappings, tx.phase.add)
    requires DrawFits(world.settings, tx.row, draw)
    ensures Apply(world, s.tables, Attempted(tx.id, tx.claimedAt, tx.inputs, s.clock, draw)) ==
            Some(Tables(s.tables.events[tx.id := Settled(world.settings, tx.row, tx.phase.verdict, s.clock, draw)],
                        Inserted(s.tables.mappings, tx.phase.add)))
  {
    SerialGrows(world, ops, n);
    InsertStillPossible(world.settings, KindOf(tx.row.eventType), tx.row.payload,
                        Serial(world, ops[..n]).value.mappings, s.tables.mappings, tx.inputs);
  }

  lemma {:induction false} RowUntouched(world: World, ops: seq<Op>, n: nat, k: nat, tx: Transaction)
    requires Pinned(world, ops, n, tx) && n <= k <= |ops| && Serial(world, ops).Some?
    ensures Serial(world, ops[..k]).Some?
    ensures tx.id in Serial(world, ops[..k]).value.events && Serial(world, ops[..k]).value.events[tx.id] == tx.row
    decreases k
  {
    hide Run, Apply;
    PrefixRuns(world, ops, k);
    if n == k {
    } else {
      RowUntouched(world, ops, n, k - 1, tx);
      assert ops[..k] == ops[..k - 1] + [ops[k - 1]];
      SerialOneMore(world, ops[..k - 1], ops[k - 1]);
      ApplyCommutes(world, Serial(world, ops[..k - 1]).value, ops[k - 1], tx.id, tx.row);
    }
  }

  lemma PinnedAtPlace(world: World, ops: seq<Op>, n: nat, k: nat, s: State, tx: Transaction)
    requires Serial(world, ops) == Some(s.tables) && Pinned(world, ops, n, tx) && HoldsRow(s, tx) && Reading(tx.phase)
    requires n <= k <= |ops| && Serial(world, ops[..k]).Some?
    requires var kind, payload := KindOf(tx.row.eventType), tx.row.payload;
             var m := Serial(world, ops[..k]).value.mappings;
             && Run(world.settings, kind, payload, m, tx.inputs) == Some(tx.phase)
             && AfterRead(world.settings, kind, payload, m, tx.phase)
                == AfterRead(world.settings, kind, payload, s.tables.mappings, tx.phase)
    ensures Pinned(world, ops, k, Progressed(world, s.tables.mappings, tx, Read))
  {
    RowUntouched(world, ops, n, k, tx);
    RunOneMore(world.settings, KindOf(tx.row.eventType), tx.row.payload, Serial(world, ops[..k]).value.mappings, tx.inputs, Read);
  }

  /** Where a transaction could have run once it has read the tables. */
  lemma PlaceAfterRead(world: World, ops: seq<Op>, n: nat, s: State, tx: Transaction) returns (k: nat)
    requires Serial(world, ops) == Some(s.tables) && Pinned(world, ops, n, tx) && HoldsRow(s, tx) && Reading(tx.phase)
    requires TransactionOk(world, s.tables.mappings, s.remote.contracts, tx)
    ensures Pinned(world, ops, k, Progressed(world, s.tables.mappings, tx, Read))
  {
    hide Story, ContractRequestFor, Backed, ExtractSinglePriceId, ReadSubscription, ReadCustomer, CM.CustomerRequestFor, Wanted, Mappable, Settled;
    var kind, payload := KindOf(tx.row.eventType), tx.row.payload;
    assert ops[..|ops|] == ops;
    SerialTablesOk(world, ops);
    SerialGrows(world, ops, n);
    k := n;
    match tx.phase {
      case Start =>
        k := |ops|;
      case ResolveCustomer(sub, mapping) =>
        SerialTablesOk(world, ops[..n]);
        RunSeen(world.settings, kind, payload, Serial(world, ops[..n]).value.mappings, tx.inputs);
      case FindCustomer(sub, price) =>
        RunSeen(world.settings, kind, payload, Serial(world, ops[..n]).value.mappings, tx.inputs);
        if sub.customer in s.tables.mappings.customers {
          assert sub.customer == world.owner(sub.id);
          k := PlaceBetween(world, ops, n, sub.id);
          SerialGrows(world, ops, k);
        }
    }
    PinnedAtPlace(world, ops, n, k, s, tx);
  }

  // ----- Every step keeps the correspondence -----

  lemma RowOpCorresponds(world: World, ops: seq<Op>, places: map<Name, nat>, s: State, t: State)
    returns (ops': seq<Op>, places': map<Name, nat>)
    requires LocksOk(s) && Corresponds(world, ops, places, s) && |t.log| == |s.log| + 1 && t.log == s.log + [t.log[|s.log|]]
    requires StartOf(t.log[|s.log|]) == EndOf(t.log[|s.log|]) == s.clock == t.clock
    requires Apply(world, s.tables, t.log[|s.log|]) == Some(t.tables) && t.inflight == s.inflight
    requires t.log[|s.log|].id !in Locked(s)
    ensures Corresponds(world, ops', places', t)
  {
    var op := t.log[|s.log|];
    forall w | w in s.inflight ensures s.inflight[w].id != op.id {
      assert s.inflight[w].id in Locked(s);
    }
    AppendCorresponds(world, ops, places, s, t, op);
    ops', places' := ops + [op], map w | w in t.inflight :: places[w];
  }

  /** One transaction begins or moves on to where it is pinned again. */
  lemma MoveCorresponds(world: World, ops: seq<Op>, places: map<Name, nat>, s: State, t: State, w: Name, k: nat)
    requires Corresponds(world, ops, places, s) && t.tables == s.tables && t.log == s.log && t.clock == s.clock
    requires w in t.inflight && t.inflight == s.inflight[w := t.inflight[w]] && Pinned(world, ops, k, t.inflight[w])
    ensures Corresponds(world, ops, places[w := k], t)
  {
  }

  lemma CallCorresponds(world: World, ops: seq<Op>, n: nat, s: State, tx: Transaction, reply: Reply)
    requires Pinned(world, ops, n, tx) && Answers(tx.phase, reply)
    ensures Pinned(world, ops, n, Progressed(world, s.tables.mappings, tx, Heard(reply)))
  {
    RunOneMore(world.settings, KindOf(tx.row.eventType), tx.row.payload,
               Serial(world, ops[..n]).value.mappings, tx.inputs, Heard(reply));
  }

  lemma ClaimedIsPinned(world: World, ops: seq<Op>, s: State, id: string)
    requires Serial(world, ops) == Some(s.tables) && id in s.tables.events
    ensures Pinned(world, ops, |ops|, Transaction(id, s.tables.events[id], s.clock, [], Start))
  {
    assert ops[..|ops|] == ops;
  }

  lemma DeliveredIsUnlocked(s: State, id: string)
    requires LocksOk(s) && id !in s.tables.events
    ensures id !in Locked(s)
  {
    forall w | w in s.inflight ensures s.inflight[w].id != id {
      assert HoldsRow(s, s.inflight[w]);
    }
  }

  lemma FinishCorresponds(world: World, ops: seq<Op>, places: map<Name, nat>, s: State, w: Name, draw: real)
    returns (ops': seq<Op>, places': map<Name, nat>)
    requires LocksOk(s) && Corresponds(world, ops, places, s) && Finished(world, s, w, draw).Some?
    ensures Corresponds(world, ops', places', Finished(world, s, w, draw).value)
  {
    hide Run, Serial, Story, Apply;
    var t := Finished(world, s, w, draw).value;
    if Conflicts(s, w) {
      ops', places' := ops, places - {w};
    } else if s.inflight[w].phase.add.NoRow? {
      var tx := s.inflight[w];
      assert HoldsRow(s, tx);
      AttemptFitsAtItsPlace(world, ops, places[w], s, tx, draw);
      PlaceCorresponds(world, ops, places, s, t, t.log[|s.log|], w, Settled(world.settings, tx.row, tx.phase.verdict, s.clock, draw));
      ops' := Placed(ops, places[w], t.log[|s.log|]);
      places' := map v | v in t.inflight :: ShiftedPlace(places[w], places[v]);
    } else {
      var op := t.log[|s.log|];
      assert HoldsRow(s, s.inflight[w]);
      InsertRunsWhole(world, ops, places[w], s, s.inflight[w], draw);
      AppendCorresponds(world, ops, places, s, t, op);
      ops', places' := ops + [op], map v | v in t.inflight :: places[v];
    }
  }

  lemma StepCorresponds(world: World, ops: seq<Op>, places: map<Name, nat>, s: State, step: Step)
    returns (ops': seq<Op>, places': map<Name, nat>)
    requires Inv(world, s) && Corresponds(world, ops, places, s) && Next(world, s, step).Some?
    ensures Corresponds(world, ops', places', Next(world, s, step).value)
  {
    hide Run, Serial, Story, Pinned, Settled, Violates, Exchange, Advance, Inserted, AttemptWhole, Admissible, NewEvent, Requeued, Noted, FreshIds, EventsOk, MappingsOk, RemoteOk, IdsOk, TransactionOk, Begin;
    var t := Next(world, s, step).value;
    ops', places' := ops, places;
    match step {
      case Tick(_) =>
      case Deliver(id, _, _) =>
        if t != s {
          DeliveredIsUnlocked(s, id);
          ops', places' := RowOpCorresponds(world, ops, places, s, t);
        }
      case Replay(_, _) =>
        ops', places' := RowOpCorresponds(world, ops, places, s, t);
      case Claim(w, id) =>
        ClaimedIsPinned(world, ops, s, id);
        MoveCorresponds(world, ops, places, s, t, w, |ops|);
        places' := places[w := |ops|];
      case ReadTables(w) =>
        assert HoldsRow(s, s.inflight[w]);
        var k := PlaceAfterRead(world, ops, places[w], s, s.inflight[w]);
        MoveCorresponds(world, ops, places, s, t, w, k);
        places' := places[w := k];
      case Call(w, a) =>
        CallCorresponds(world, ops, places[w], s, s.inflight[w], Exchange(s.remote, s.inflight[w].phase, a).1);
        MoveCorresponds(world, ops, places, s, t, w, places[w]);
        places' := places[w := places[w]];
      case Crash(w) =>
        places' := places - {w};
      case Finish(w, draw) =>
        ops', places' := FinishCorresponds(world, ops, places, s, w, draw);
    }
  }

  lemma {:induction false} RunCorresponds(world: World, steps: seq<Step>) returns (ops: seq<Op>, places: map<Name, nat>)
    requires Play(world, steps).Some?
    ensures Corresponds(world, ops, places, Play(world, steps).value)
  {
    if steps == [] {
      ops, places := [], map[];
    } else {
      var most := steps[..|steps| - 1];
      ops, places := RunCorresponds(world, most);
      Reachable(world, most);
      ops, places := StepCorresponds(world, ops, places, Play(world, most).value, steps[|steps| - 1]);
    }
  }

  /** A serial order of what was committed: the same tables, the same story of every event, and the order of time. */
  ghost predicate SerialOrderOf(world: World, s: State, ops: seq<Op>) {
    && Serial(world, ops) == Some(s.tables)
    && (forall id :: Story(ops, id) == Story(s.log, id))
    && InTimeOrder(ops)
  }

  /**
   Strict serialisability: for every run there is an order of its committed operations, each run whole on
   the tables the one before it left, that ends in the same three tables. What happened to any one event
   is the same, in the same order, with the same replies and times, and an operation that ended before
   another was claimed comes before it.
   */
  lemma EveryRunIsSerialisable(world: World, steps: seq<Step>)
    requires Play(world, steps).Some?
    ensures exists ops :: SerialOrderOf(world, Play(world, steps).value, ops)
  {
    var ops, places := RunCorresponds(world, steps);
    assert SerialOrderOf(world, Play(world, steps).value, ops);
  }
}
