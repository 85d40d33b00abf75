/** Attempts that lose an insert race are not counted by the retry logic; here they are, and there are few of them. */
module InsertRaces {
  import opened Wrappers
  import opened Settings
  import opened Schema
  import opened SubscriptionMapper
  import CM = CustomerMapper
  import opened HandlerProgram
  import opened EventLifecycle
  import opened Protocol
  import opened Invariants
  import opened Safety
  import opened QueueProgress

  /** An attempt that comes to its end and is rolled back because its row conflicts with a committed one. */
  ghost predicate LosesRace(s: State, step: Step) {
    step.Finish? && step.worker in s.inflight && s.inflight[step.worker].phase.Done? && Conflicts(s, step.worker)
  }

  /** The races lost in a run. */
  ghost function LostRaces(world: World, steps: seq<Step>): nat
    requires Play(world, steps).Some?
  {
    if steps == [] then 0 else
      var most, last := steps[..|steps| - 1], steps[|steps| - 1];
      LostRaces(world, most) + if LosesRace(Play(world, most).value, last) then 1 else 0
  }

  /** The events whose attempts lost a race. */
  ghost function Losers(world: World, steps: seq<Step>): set<string>
    requires Play(world, steps).Some?
  {
    if steps == [] then {} else
      var most, last := steps[..|steps| - 1], steps[|steps| - 1];
      var s := Play(world, most).value;
      Losers(world, most) + if LosesRace(s, last) then {s.inflight[last.worker].id} else {}
  }

  /** A phase from which no row is added any more, once the row that would be added is there. */
  predicate Quiet(ph: Phase) {
    match ph
    case Start => true
    case ResolveCustomer(_, _) => true
    case RenameCustomer(_, _) => true
    case Done(_, add) => add.NoRow?
    case _ => false
  }

  lemma QuietAdvance(cfg: Settings, row: EventRow, m: Mappings, ph: Phase, input: Input)
    requires HasMapping(m, row) && Quiet(ph) && Accepts(ph, input)
    ensures Quiet(Advance(cfg, KindOf(row.eventType), row.payload, m, ph, input))
  {
    hide CM.CustomerRequestFor, ExtractSinglePriceId;
  }

  /** The event has lost its race: its mapping is there, and no transaction on it will try to add a row again. */
  ghost predicate RaceIsOver(s: State, id: string) {
    && id in s.tables.events && HasMapping(s.tables.mappings, s.tables.events[id])
    && forall w :: w in s.inflight && s.inflight[w].id == id ==> Quiet(s.inflight[w].phase)
  }

  lemma MappingStays(world: World, s: State, step: Step, id: string)
    requires Inv(world, s) && Next(world, s, step).Some?
    requires id in s.tables.events && HasMapping(s.tables.mappings, s.tables.events[id])
    ensures var t := Next(world, s, step).value;
            id in t.tables.events && HasMapping(t.tables.mappings, t.tables.events[id])
  {
    hide Inv, Next;
    StepEffects(world, s, step);
  }

  /** What one step makes of a transaction in flight. */
  lemma PhaseStep(world: World, s: State, step: Step, w: Name)
    requires Inv(world, s) && Next(world, s, step).Some? && w in Next(world, s, step).value.inflight
    ensures var after := Next(world, s, step).value.inflight[w];
            || after.phase.Start?
            || (&& w in s.inflight && after.id == s.inflight[w].id
                && s.inflight[w].id in s.tables.events && s.inflight[w].row == s.tables.events[s.inflight[w].id]
                && (|| after.phase == s.inflight[w].phase
                    || exists input :: Accepts(s.inflight[w].phase, input)
                         && after.phase == Advance(world.settings, KindOf(s.inflight[w].row.eventType), s.inflight[w].row.payload,
                                                   s.tables.mappings, s.inflight[w].phase, input)))
  {
    hide EventsOk, TransactionsOk, MappingsOk, RemoteOk, IdsOk, Exchange, Advance, Settled, Inserted, Violates;
    var after := Next(world, s, step).value.inflight[w];
    if w in s.inflight {
      var tx := s.inflight[w];
      assert HoldsRow(s, tx);
      if step.ReadTables? && step.worker == w {
        assert after == Progressed(world, s.tables.mappings, tx, Read);
      } else if step.Call? && step.worker == w {
        assert after == Progressed(world, s.tables.mappings, tx, Heard(Exchange(s.remote, tx.phase, step.answer).1));
      }
    }
  }

  lemma RaceStaysOver(world: World, s: State, step: Step, id: string)
    requires Inv(world, s) && Next(world, s, step).Some? && RaceIsOver(s, id)
    ensures RaceIsOver(Next(world, s, step).value, id)
  {
    hide Inv, Next, HasMapping, Advance, Accepts;
    var t := Next(world, s, step).value;
    MappingStays(world, s, step, id);
    forall w | w in t.inflight && t.inflight[w].id == id ensures Quiet(t.inflight[w].phase) {
      PhaseStep(world, s, step, w);
      if !t.inflight[w].phase.Start? && t.inflight[w].phase != s.inflight[w].phase {
        var tx := s.inflight[w];
        var input :| Accepts(tx.phase, input)
                     && t.inflight[w].phase == Advance(world.settings, KindOf(tx.row.eventType), tx.row.payload, s.tables.mappings, tx.phase, input);
        QuietAdvance(world.settings, tx.row, s.tables.mappings, tx.phase, input);
      }
    }
  }

  /** The keys of all subscriptions with a persisted created event are apart from one another. */
  ghost predicate AllApart(events: Events) {
    forall e :: e in events && KindOf(events[e].eventType).SubscriptionCreated? && ReadSubscription(events[e].payload).Some? ==>
      IdsApart(events, ReadSubscription(events[e].payload).value.id)
  }

  /** The key of the row an event adds is taken exactly when the event has its mapping. */
  lemma AddedKeyIsOwn(cfg: Settings, m: Mappings, row: EventRow, ph: Phase)
    requires ph.Done? && !ph.add.NoRow? && Fits(cfg, KindOf(row.eventType), row.payload, ph)
    ensures DuplicateKey(m, ph.add) <==> HasMapping(m, row)
    ensures ph.add.AddSubscription? ==>
              && KindOf(row.eventType).SubscriptionCreated? && ReadSubscription(row.payload).Some?
              && ReadSubscription(row.payload).value.id == ph.add.subscription
  {
    hide ReadSubscription, ReadCustomer, DemandOf, CM.CustomerRequestFor;
  }

  lemma KeyRaceOnly(m: Mappings, add: Insert)
    requires Violates(m, add) && !MissingParent(m, add)
    requires add.AddCustomer? ==> !DuplicateUnique(m, add)
    requires add.AddSubscription? ==>
               forall o :: o in m.subscriptions && m.subscriptions[o].contract == add.row.contract ==> o == add.subscription
    ensures DuplicateKey(m, add)
  {
  }

  /** A lost race is over: the key that stood in the way is the event's own. */
  lemma LosingEndsTheRace(world: World, s: State, step: Step)
    requires Inv(world, s) && AllApart(s.tables.events) && LosesRace(s, step) && Next(world, s, step).Some?
    ensures !RaceIsOver(s, s.inflight[step.worker].id)
    ensures RaceIsOver(Next(world, s, step).value, s.inflight[step.worker].id)
  {
    hide Fits, Grounded, MappingsOk, RemoteOk, IdsOk, EventsOk, DuplicateUnique, DuplicateKey, MissingParent, IdsApart, HasMapping;
    var tx := s.inflight[step.worker];
    assert HoldsRow(s, tx) && TransactionOk(world, s.tables.mappings, s.remote.contracts, tx);
    NoRowAlwaysFits(s.tables.mappings);
    AddedKeyIsOwn(world.settings, s.tables.mappings, tx.row, tx.phase);
    InsertOnlyRacesOnItsKey(world, s, step.worker);
    KeyRaceOnly(s.tables.mappings, tx.phase.add);
  }

  lemma PrefixApart(e: Events, f: Events)
    requires Keeps(e, f) && AllApart(f)
    ensures AllApart(e)
  {
    forall o | o in e && KindOf(e[o].eventType).SubscriptionCreated? && ReadSubscription(e[o].payload).Some?
      ensures IdsApart(e, ReadSubscription(e[o].payload).value.id)
    {
      assert IdsApart(f, ReadSubscription(f[o].payload).value.id);
    }
  }

  /** Every race a run lost is over, and no event lost two. */
  ghost predicate RacesAreOver(world: World, steps: seq<Step>) {
    && Play(world, steps).Some?
    && LostRaces(world, steps) == |Losers(world, steps)|
    && forall id :: id in Losers(world, steps) ==> RaceIsOver(Play(world, steps).value, id)
  }

  lemma LosersOneMore(world: World, steps: seq<Step>, step: Step)
    requires Play(world, steps).Some? && Play(world, steps + [step]).Some?
    ensures var s := Play(world, steps).value;
            && Losers(world, steps + [step]) ==
                 (if LosesRace(s, step) then Losers(world, steps) + {s.inflight[step.worker].id} else Losers(world, steps))
            && LostRaces(world, steps + [step]) == LostRaces(world, steps) + if LosesRace(s, step) then 1 else 0
  {
    hide Next;
    assert (steps + [step])[..|steps|] == steps;
  }

  lemma RacesOneMore(world: World, steps: seq<Step>, step: Step)
    requires RacesAreOver(world, steps) && Next(world, Play(world, steps).value, step).Some?
    requires Inv(world, Play(world, steps).value) && AllApart(Play(world, steps).value.tables.events)
    ensures RacesAreOver(world, steps + [step])
  {
    hide Inv, Next, Play, LosesRace, Losers, LostRaces, RaceIsOver, AllApart;
    var s := Play(world, steps).value;
    PlayOneMore(world, steps, step);
    LosersOneMore(world, steps, step);
    forall id | id in Losers(world, steps) ensures RaceIsOver(Next(world, s, step).value, id) {
      RaceStaysOver(world, s, step, id);
    }
    if LosesRace(s, step) {
      LosingEndsTheRace(world, s, step);
    }
  }

  lemma {:induction false} RunRacesAreOver(world: World, steps: seq<Step>)
    requires Play(world, steps).Some? && AllApart(Play(world, steps).value.tables.events)
    ensures RacesAreOver(world, steps)
  {
    hide Inv, Next, AllApart, RaceIsOver, LosesRace;
    if steps == [] {
    } else {
      var most, last := steps[..|steps| - 1], steps[|steps| - 1];
      RunsOnlyAdd(world, steps, |most|);
      PrefixApart(Play(world, most).value.tables.events, Play(world, steps).value.tables.events);
      RunRacesAreOver(world, most);
      Reachable(world, most);
      assert steps == most + [last];
      RacesOneMore(world, most, last);
    }
  }

  lemma SubsetIsSmaller(some: set<string>, all: set<string>)
    requires some <= all
    ensures |some| <= |all|
  {
    if some == {} {
    } else {
      var id :| id in some;
      SubsetIsSmaller(some - {id}, all - {id});
    }
  }

  /**
   The races a run can lose, which cost an event no attempt: with keys apart, every event loses at most
   one in its whole life, replays included. So the attempts that come to their end, committed or rolled
   back, number at most (n + r) * max_attempts + n for n events and r replays.
   */
  lemma EveryEventLosesOneRaceAtMost(world: World, steps: seq<Step>)
    requires Play(world, steps).Some? && AllApart(Play(world, steps).value.tables.events)
    ensures var events := Play(world, steps).value.tables.events;
            && LostRaces(world, steps) == |Losers(world, steps)|
            && Losers(world, steps) <= events.Keys
            && LostRaces(world, steps) + Commits(world, steps) <= world.settings.maxAttempts * (|events| + Replays(steps)) + |events|
  {
    hide Inv, Next, AllApart, HasMapping, Quiet, Losers, LostRaces, Commits, Budget;
    RunRacesAreOver(world, steps);
    QueueDrains(world, steps);
    var events := Play(world, steps).value.tables.events;
    assert forall id :: id in Losers(world, steps) ==> RaceIsOver(Play(world, steps).value, id);
    SubsetIsSmaller(Losers(world, steps), events.Keys);
    assert |events| == |events.Keys|;
  }
}
