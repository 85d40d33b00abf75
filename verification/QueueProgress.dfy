/** How far a run can go: the attempts it can commit, and who may overtake whom. */
module QueueProgress {
  import opened Wrappers
  import opened Settings
  import opened Schema
  import opened HandlerProgram
  import opened EventLifecycle
  import opened Protocol
  import opened Invariants

  // ----- The attempts left -----

  /** The attempts an event may still use up, if it counts at all. */
  function Left(cfg: Settings, row: EventRow): nat {
    if row.status.Pending? && row.attempts < cfg.maxAttempts then cfg.maxAttempts - row.attempts else 0
  }

  /** The attempts left to all these events together. */
  ghost function Budget(cfg: Settings, events: Events): nat {
    if events.Keys == {} then 0 else
      var id :| id in events.Keys;
      Left(cfg, events[id]) + Budget(cfg, events - {id})
  }

  lemma {:induction false} BudgetSplit(cfg: Settings, events: Events, id: string)
    requires id in events
    ensures Budget(cfg, events) == Left(cfg, events[id]) + Budget(cfg, events - {id})
    decreases |events|
  {
    var first :| first in events.Keys && Budget(cfg, events) == Left(cfg, events[first]) + Budget(cfg, events - {first});
    if first != id {
      assert (events - {first}).Keys == events.Keys - {first};
      assert (events - {id}).Keys == events.Keys - {id};
      BudgetSplit(cfg, events - {first}, id);
      BudgetSplit(cfg, events - {id}, first);
      assert events - {first} - {id} == events - {id} - {first};
    }
  }

  /** Changing or adding one row changes the budget by what that row has left. */
  lemma BudgetUpdate(cfg: Settings, events: Events, id: string, row: EventRow)
    ensures Budget(cfg, events[id := row])
            == Budget(cfg, events) - (if id in events then Left(cfg, events[id]) else 0) + Left(cfg, row)
  {
    var after := events[id := row];
    BudgetSplit(cfg, after, id);
    if id in events {
      BudgetSplit(cfg, events, id);
      assert after - {id} == events - {id};
    } else {
      assert after - {id} == events;
    }
  }

  /** With no budget left no event is pending: the queue is drained. */
  lemma {:induction false} NothingLeft(cfg: Settings, events: Events, id: string)
    requires id in events && RowOk(cfg, events[id]) && Budget(cfg, events) == 0
    ensures !events[id].status.Pending?
  {
    BudgetSplit(cfg, events, id);
  }

  /** A committed attempt rewrites the row it holds and leaves it fewer attempts. */
  lemma CommitRow(world: World, s: State, step: Step)
    requires Inv(world, s) && CommitsAttempt(s, step) && Next(world, s, step).Some?
    ensures var e, f := s.tables.events, Next(world, s, step).value.tables.events;
            var id := s.inflight[step.worker].id;
            && id in e && id in f && f == e[id := f[id]]
            && Left(world.settings, f[id]) < Left(world.settings, e[id]) && f[id].receivedAt == e[id].receivedAt
  {
    hide TransactionsOk, MappingsOk, RemoteOk, IdsOk, HasMapping, ErrorJust, Violates, Inserted;
    var tx := s.inflight[step.worker];
    assert HoldsRow(s, tx) && EventOk(world, s.tables.mappings, s.clock, s.tables.events[tx.id]);
  }

  /** The replayed row starts afresh; its receipt time stays. */
  lemma ReplayRow(world: World, s: State, step: Step)
    requires step.Replay? && Next(world, s, step).Some?
    ensures var e, f := s.tables.events, Next(world, s, step).value.tables.events;
            && step.id in e && step.id in f && f == e[step.id := f[step.id]] && f[step.id].receivedAt == e[step.id].receivedAt
            && Left(world.settings, f[step.id]) == world.settings.maxAttempts
  {
  }

  ghost predicate FirstDelivery(world: World, s: State, step: Step) {
    step.Deliver? && Next(world, s, step).Some? && Next(world, s, step) != Some(s)
  }

  lemma OtherRows(world: World, s: State, step: Step)
    requires Next(world, s, step).Some? && !step.Replay? && !CommitsAttempt(s, step)
    ensures var e, f := s.tables.events, Next(world, s, step).value.tables.events;
            if FirstDelivery(world, s, step)
            then step.id !in e && f == e[step.id := NewEvent(step.eventType, step.payload, s.clock)]
            else f == e
  {
  }

  lemma BudgetRewritten(cfg: Settings, e: Events, f: Events, id: string)
    requires id in e && id in f && f == e[id := f[id]]
    ensures Budget(cfg, f) == Budget(cfg, e) - Left(cfg, e[id]) + Left(cfg, f[id]) && |f| == |e|
  {
    BudgetUpdate(cfg, e, id, f[id]);
    assert f.Keys == e.Keys;
    assert |f| == |f.Keys| && |e| == |e.Keys|;
  }

  lemma BudgetAdded(cfg: Settings, e: Events, id: string, row: EventRow)
    requires id !in e && row.status.Pending? && row.attempts == 0
    ensures Budget(cfg, e[id := row]) == Budget(cfg, e) + cfg.maxAttempts && |e[id := row]| == |e| + 1
  {
    BudgetUpdate(cfg, e, id, row);
    assert e[id := row].Keys == e.Keys + {id};
  }

  /**
   What each step does to the attempts left: a committed attempt uses at least one up, a first delivery
   brings max_attempts, a replay gives its event max_attempts again, and no other step changes a row.
   */
  lemma BudgetStep(world: World, s: State, step: Step)
    requires Inv(world, s) && Next(world, s, step).Some?
    ensures var cfg, e, f := world.settings, s.tables.events, Next(world, s, step).value.tables.events;
            if CommitsAttempt(s, step) then Budget(cfg, f) < Budget(cfg, e) && |f| == |e|
            else if FirstDelivery(world, s, step) then Budget(cfg, f) == Budget(cfg, e) + cfg.maxAttempts && |f| == |e| + 1
            else if step.Replay? then
              step.id in e && Budget(cfg, f) == Budget(cfg, e) - Left(cfg, e[step.id]) + cfg.maxAttempts && |f| == |e|
            else f == e
  {
    hide Inv, Next, Conflicts, Budget, Left;
    var e, f := s.tables.events, Next(world, s, step).value.tables.events;
    if CommitsAttempt(s, step) {
      CommitRow(world, s, step);
      BudgetRewritten(world.settings, e, f, s.inflight[step.worker].id);
    } else if step.Replay? {
      ReplayRow(world, s, step);
      BudgetRewritten(world.settings, e, f, step.id);
    } else {
      OtherRows(world, s, step);
      if FirstDelivery(world, s, step) {
        BudgetAdded(world.settings, e, step.id, NewEvent(step.eventType, step.payload, s.clock));
      }
    }
  }

  /** The attempts a run commits. */
  ghost function Commits(world: World, steps: seq<Step>): nat
    requires Play(world, steps).Some?
  {
    if steps == [] then 0 else
      var most := steps[..|steps| - 1];
      Commits(world, most) + if CommitsAttempt(Play(world, most).value, steps[|steps| - 1]) then 1 else 0
  }

  function Replays(steps: seq<Step>): nat {
    if steps == [] then 0 else
      Replays(steps[..|steps| - 1]) + if steps[|steps| - 1].Replay? then 1 else 0
  }

  lemma OneMoreTimes(k: nat, n: nat)
    ensures k * (n + 1) == k * n + k
  {
  }

  lemma NoEvents(cfg: Settings)
    ensures Budget(cfg, EMPTY_TABLES.events) == 0
  {
  }

  /**
   Termination of the whole queue: n persisted events and r replays take at most (n + r) * max_attempts
   committed attempts, and what is left of that number bounds what can still come.
   */
  lemma {:induction false} QueueDrains(world: World, steps: seq<Step>)
    requires Play(world, steps).Some?
    ensures var events := Play(world, steps).value.tables.events;
            Commits(world, steps) + Budget(world.settings, events) <= world.settings.maxAttempts * (|events| + Replays(steps))
  {
    hide Inv, Next, Conflicts, Budget, Left;
    if steps == [] {
      NoEvents(world.settings);
    } else {
      var most, last := steps[..|steps| - 1], steps[|steps| - 1];
      QueueDrains(world, most);
      Reachable(world, most);
      BudgetStep(world, Play(world, most).value, last);
      var before, after := |Play(world, most).value.tables.events| + Replays(most), |Play(world, steps).value.tables.events| + Replays(steps);
      assert after == before || after == before + 1;
      OneMoreTimes(world.settings.maxAttempts, before);
    }
  }

  // ----- Overtaking -----

  /** The events other than `id` that were received no later. */
  ghost function Ahead(events: Events, id: string): Events
    requires id in events
  {
    map o | o in events && o != id && events[o].receivedAt <= events[id].receivedAt :: events[o]
  }

  /** The event waits: pending, ready and held by no one. */
  ghost predicate Waits(s: State, id: string) {
    Claimable(s.tables.events, Locked(s), s.clock, id)
  }

  /** The event waits before, during and after these steps. */
  ghost predicate WaitsThrough(world: World, s: State, steps: seq<Step>, id: string) {
    && Waits(s, id)
    && (steps != [] ==>
          var most := steps[..|steps| - 1];
          && WaitsThrough(world, s, most, id)
          && From(world, s, steps).Some? && Waits(From(world, s, steps).value, id))
  }

  /** The workers whose transaction in flight was claimed during these steps. */
  ghost function ClaimedSince(steps: seq<Step>): set<Name> {
    if steps == [] then {} else
      var before, last := ClaimedSince(steps[..|steps| - 1]), steps[|steps| - 1];
      match last
      case Claim(w, _) => before + {w}
      case Finish(w, _) => before - {w}
      case Crash(w) => before - {w}
      case _ => before
  }

  /** The attempts committed in these steps that were also claimed in them. */
  ghost function Overtakes(world: World, s: State, steps: seq<Step>): nat
    requires From(world, s, steps).Some?
  {
    if steps == [] then 0 else
      var most, last := steps[..|steps| - 1], steps[|steps| - 1];
      Overtakes(world, s, most)
      + if CommitsAttempt(From(world, s, most).value, last) && last.worker in ClaimedSince(most) then 1 else 0
  }

  ghost predicate NewTie(world: World, s: State, step: Step, id: string) {
    FirstDelivery(world, s, step) && id in s.tables.events && s.clock <= s.tables.events[id].receivedAt
  }

  /** The events first delivered in these steps that carry the very receipt time of the waiting one. */
  ghost function Ties(world: World, s: State, steps: seq<Step>, id: string): nat
    requires From(world, s, steps).Some?
  {
    if steps == [] then 0 else
      var most, last := steps[..|steps| - 1], steps[|steps| - 1];
      Ties(world, s, most, id) + if NewTie(world, From(world, s, most).value, last, id) then 1 else 0
  }

  ghost predicate ReplayAhead(s: State, step: Step, id: string) {
    step.Replay? && id in s.tables.events && step.id in Ahead(s.tables.events, id)
  }

  /** The replays in these steps of events that are ahead of the waiting one. */
  ghost function ReplaysAhead(world: World, s: State, steps: seq<Step>, id: string): nat
    requires From(world, s, steps).Some?
  {
    if steps == [] then 0 else
      var most, last := steps[..|steps| - 1], steps[|steps| - 1];
      ReplaysAhead(world, s, most, id) + if ReplayAhead(From(world, s, most).value, last, id) then 1 else 0
  }

  /** Whatever was claimed meanwhile is ahead of the waiting event. */
  ghost predicate OnlyAheadClaimed(s: State, claimed: set<Name>, id: string) {
    forall w :: w in claimed && w in s.inflight ==>
      && id in s.tables.events && s.inflight[w].id != id
      && s.inflight[w].row.receivedAt <= s.tables.events[id].receivedAt
  }

  lemma AheadUpdate(events: Events, id: string, o: string, row: EventRow)
    requires id in events && o != id
    requires o in events ==> row.receivedAt == events[o].receivedAt
    ensures Ahead(events[o := row], id) ==
            if row.receivedAt <= events[id].receivedAt then Ahead(events, id)[o := row] else Ahead(events, id)
  {
  }

  /** Every claim made while an event waits takes that event or one received no later. */
  lemma ClaimsTakeTheOldest(world: World, s: State, step: Step, id: string)
    requires Waits(s, id) && step.Claim? && Next(world, s, step).Some?
    ensures step.id in s.tables.events && s.tables.events[step.id].receivedAt <= s.tables.events[id].receivedAt
  {
  }

  lemma SameReceipt(world: World, s: State, step: Step, id: string)
    requires Inv(world, s) && Next(world, s, step).Some? && id in s.tables.events
    ensures var t := Next(world, s, step).value;
            id in t.tables.events && t.tables.events[id].receivedAt == s.tables.events[id].receivedAt
  {
    hide Inv, Next, Conflicts, Left;
    if CommitsAttempt(s, step) {
      CommitRow(world, s, step);
    } else if step.Replay? {
      ReplayRow(world, s, step);
    } else {
      OtherRows(world, s, step);
    }
  }

  /** A transaction in flight keeps the row it holds, and only a claim brings a new one. */
  lemma StillInFlight(world: World, s: State, step: Step)
    requires Next(world, s, step).Some?
    ensures forall w :: w in Next(world, s, step).value.inflight && !(step.Claim? && w == step.worker) ==>
              && w in s.inflight
              && Next(world, s, step).value.inflight[w].id == s.inflight[w].id
              && Next(world, s, step).value.inflight[w].row == s.inflight[w].row
    ensures (step.Finish? || step.Crash?) ==> step.worker !in Next(world, s, step).value.inflight
  {
    hide Settled, Violates, Inserted, Exchange, Advance, NewEvent;
  }

  lemma NewlyClaimed(world: World, s: State, step: Step, id: string)
    requires step.Claim? && Next(world, s, step).Some? && Waits(Next(world, s, step).value, id)
    ensures var t := Next(world, s, step).value;
            && step.worker in t.inflight && step.id in s.tables.events && t.inflight[step.worker].id == step.id
            && t.inflight[step.worker].row == s.tables.events[step.id] && step.id != id
  {
    var t := Next(world, s, step).value;
    assert t.inflight[step.worker].id in Locked(t);
  }

  lemma ClaimsStayAhead(world: World, s: State, steps: seq<Step>, step: Step, id: string)
    requires Inv(world, s) && Next(world, s, step).Some? && id in s.tables.events
    requires Waits(s, id) && Waits(Next(world, s, step).value, id) && OnlyAheadClaimed(s, ClaimedSince(steps), id)
    ensures OnlyAheadClaimed(Next(world, s, step).value, ClaimedSince(steps + [step]), id)
  {
    hide Inv, Next, Waits;
    assert (steps + [step])[..|steps|] == steps;
    SameReceipt(world, s, step, id);
    StillInFlight(world, s, step);
    if step.Claim? {
      ClaimsTakeTheOldest(world, s, step, id);
      NewlyClaimed(world, s, step, id);
    }
  }

  lemma ReplayPays(cfg: Settings, e: Events, f: Events, o: string, id: string)
    requires id in e && o in e && o in f && f == e[o := f[o]] && f[o].receivedAt == e[o].receivedAt
    requires Left(cfg, f[o]) == cfg.maxAttempts
    ensures id in f
    ensures Budget(cfg, Ahead(f, id)) <= Budget(cfg, Ahead(e, id)) + if o in Ahead(e, id) then cfg.maxAttempts else 0
  {
    if o == id {
      assert Ahead(f, id) == Ahead(e, id);
    } else {
      AheadUpdate(e, id, o, f[o]);
      BudgetUpdate(cfg, Ahead(e, id), o, f[o]);
    }
  }

  /** The attempts left ahead of a waiting event pay for a commit of one of those events. */
  lemma OvertakeStep(world: World, s: State, claimed: set<Name>, step: Step, id: string)
    requires Inv(world, s) && Next(world, s, step).Some?
    requires Waits(s, id) && OnlyAheadClaimed(s, claimed, id)
    ensures var cfg, e, f := world.settings, s.tables.events, Next(world, s, step).value.tables.events;
            && id in f
            && Budget(cfg, Ahead(f, id)) + (if CommitsAttempt(s, step) && step.worker in claimed then 1 else 0)
               <= Budget(cfg, Ahead(e, id)) + (if NewTie(world, s, step, id) then cfg.maxAttempts else 0)
                  + (if ReplayAhead(s, step, id) then cfg.maxAttempts else 0)
  {
    hide Next, Conflicts, EventsOk, TransactionsOk, MappingsOk, RemoteOk, IdsOk;
    var e, f := s.tables.events, Next(world, s, step).value.tables.events;
    if CommitsAttempt(s, step) {
      CommitRow(world, s, step);
      var o := s.inflight[step.worker].id;
      assert HoldsRow(s, s.inflight[step.worker]) && o in Locked(s);
      AheadUpdate(e, id, o, f[o]);
      BudgetUpdate(world.settings, Ahead(e, id), o, f[o]);
    } else if step.Replay? {
      ReplayRow(world, s, step);
      ReplayPays(world.settings, e, f, step.id, id);
    } else {
      OtherRows(world, s, step);
      if FirstDelivery(world, s, step) {
        AheadUpdate(e, id, step.id, f[step.id]);
        BudgetUpdate(world.settings, Ahead(e, id), step.id, f[step.id]);
      }
    }
  }

  /** The account of the overtaking so far, against the attempts that were left ahead at first and were brought since. */
  ghost predicate Paid(world: World, now: State, steps: seq<Step>, id: string, overtakes: nat, brought: nat, first: nat) {
    && Inv(world, now) && Waits(now, id) && OnlyAheadClaimed(now, ClaimedSince(steps), id)
    && overtakes + Budget(world.settings, Ahead(now.tables.events, id)) <= first + world.settings.maxAttempts * brought
  }

  lemma PaidStep(world: World, now: State, steps: seq<Step>, step: Step, id: string, overtakes: nat, brought: nat, first: nat)
    requires Paid(world, now, steps, id, overtakes, brought, first)
    requires Next(world, now, step).Some? && Waits(Next(world, now, step).value, id)
    ensures Paid(world, Next(world, now, step).value, steps + [step], id,
                 overtakes + (if CommitsAttempt(now, step) && step.worker in ClaimedSince(steps) then 1 else 0),
                 brought + (if NewTie(world, now, step, id) then 1 else 0) + (if ReplayAhead(now, step, id) then 1 else 0), first)
  {
    hide Inv, Next, Conflicts, Budget, Ahead, OnlyAheadClaimed;
    NextKeepsInv(world, now, step);
    ClaimsStayAhead(world, now, steps, step, id);
    OvertakeStep(world, now, ClaimedSince(steps), step, id);
    OneMoreTimes(world.settings.maxAttempts, brought);
    assert !(NewTie(world, now, step, id) && ReplayAhead(now, step, id));
  }

  /** The account of a whole wait. */
  ghost predicate PaidSince(world: World, s: State, steps: seq<Step>, id: string)
    requires id in s.tables.events
  {
    && From(world, s, steps).Some?
    && Paid(world, From(world, s, steps).value, steps, id, Overtakes(world, s, steps),
            Ties(world, s, steps, id) + ReplaysAhead(world, s, steps, id), Budget(world.settings, Ahead(s.tables.events, id)))
  }

  lemma PaidOneMore(world: World, s: State, steps: seq<Step>, step: Step, id: string)
    requires id in s.tables.events && PaidSince(world, s, steps, id) && From(world, s, steps + [step]).Some?
    requires Waits(From(world, s, steps + [step]).value, id)
    ensures PaidSince(world, s, steps + [step], id)
  {
    hide Next, Inv, OnlyAheadClaimed, Waits, CommitsAttempt, NewTie, ReplayAhead, Ahead, Paid;
    assert (steps + [step])[..|steps|] == steps;
    PaidStep(world, From(world, s, steps).value, steps, step, id, Overtakes(world, s, steps),
             Ties(world, s, steps, id) + ReplaysAhead(world, s, steps, id), Budget(world.settings, Ahead(s.tables.events, id)));
  }

  lemma PaidAtFirst(world: World, s: State, id: string)
    requires Inv(world, s) && Waits(s, id)
    ensures id in s.tables.events && PaidSince(world, s, [], id)
  {
  }

  lemma {:induction false} OvertakesArePaid(world: World, s: State, steps: seq<Step>, id: string)
    requires Inv(world, s) && WaitsThrough(world, s, steps, id)
    ensures id in s.tables.events && PaidSince(world, s, steps, id)
  {
    hide Next, Inv, Waits, Paid, PaidSince, Overtakes, Ties, ReplaysAhead, ClaimedSince;
    if steps == [] {
      PaidAtFirst(world, s, id);
    } else {
      var most, last := steps[..|steps| - 1], steps[|steps| - 1];
      OvertakesArePaid(world, s, most, id);
      assert steps == most + [last];
      PaidOneMore(world, s, most, last, id);
    }
  }

  lemma ReceiptStaysPast(world: World, now: State, step: Step, id: string)
    requires Inv(world, now) && Next(world, now, step).Some?
    requires id in now.tables.events && now.tables.events[id].receivedAt < now.clock
    ensures var t := Next(world, now, step).value;
            id in t.tables.events && t.tables.events[id].receivedAt < t.clock && !NewTie(world, now, step, id)
  {
    SameReceipt(world, now, step, id);
  }

  lemma {:induction false} NoTiesLater(world: World, s: State, steps: seq<Step>, id: string)
    requires Inv(world, s) && WaitsThrough(world, s, steps, id) && s.tables.events[id].receivedAt < s.clock
    ensures From(world, s, steps).Some? && Ties(world, s, steps, id) == 0
    ensures id in From(world, s, steps).value.tables.events
    ensures From(world, s, steps).value.tables.events[id].receivedAt < From(world, s, steps).value.clock
  {
    if steps == [] {
    } else {
      var most, last := steps[..|steps| - 1], steps[|steps| - 1];
      NoTiesLater(world, s, most, id);
      OvertakesArePaid(world, s, most, id);
      ReceiptStaysPast(world, From(world, s, most).value, last, id);
    }
  }

  /**
   Bounded overtaking, from any reachable state: while an event waits, the attempts on other events
   that are claimed and committed meanwhile number at most the attempts left to the events received no
   later than it, plus max_attempts for every event that arrives with the very same receipt time and
   for every replay of an event received no later. Once the clock has passed that time no event with it
   arrives, however many new ones do; replays of later events cost nothing.
   */
  lemma BoundedOvertaking(world: World, run: seq<Step>, steps: seq<Step>, id: string)
    requires Play(world, run).Some? && WaitsThrough(world, Play(world, run).value, steps, id)
    ensures var s := Play(world, run).value;
            && From(world, s, steps).Some?
            && Overtakes(world, s, steps)
               <= Budget(world.settings, Ahead(s.tables.events, id))
                  + world.settings.maxAttempts * (Ties(world, s, steps, id) + ReplaysAhead(world, s, steps, id))
            && (s.tables.events[id].receivedAt < s.clock ==> Ties(world, s, steps, id) == 0)
  {
    hide Play, Next, Inv, Waits, WaitsThrough, Budget, Ahead, Overtakes, Ties, ReplaysAhead, OnlyAheadClaimed, ClaimedSince;
    Reachable(world, run);
    var s := Play(world, run).value;
    OvertakesArePaid(world, s, steps, id);
    if s.tables.events[id].receivedAt < s.clock {
      NoTiesLater(world, s, steps, id);
    }
  }
}
