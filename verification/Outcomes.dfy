/** What the attempts of a run make of their events: which are retried, which are refused, and why. */
module Outcomes {
  import opened Wrappers
  import opened Settings
  import opened Schema
  import opened Metronome
  import opened HandlerProgram
  import opened EventLifecycle
  import opened Payloads
  import opened AttemptMeaning
  import opened Protocol
  import opened Safety
  import opened Serialisability
  import opened AttemptHistory
  import opened SequentialWorker

  /** The row after an attempt with this verdict: one attempt more, and done, refused, put off or given up. */
  predicate Outcome(cfg: Settings, before: EventRow, after: EventRow, verdict: Verdict) {
    && after.attempts == before.attempts + 1
    && after.eventType == before.eventType && after.payload == before.payload && after.receivedAt == before.receivedAt
    && match verdict
       case Succeeded => after.status == Processed && after.lastError == None
       case FailedForGood(reason) => after.status == Failed && after.lastError == Some(PermanentFailure(reason))
       case TryAgain(reason) =>
         if before.attempts + 1 < cfg.maxAttempts then after.status == Pending && after.lastError == Some(Retrying(reason))
         else after.status == Failed && after.lastError == Some(ExhaustedRetries(reason))
  }

  lemma SettledIsOutcome(cfg: Settings, row: EventRow, verdict: Verdict, now: real, draw: real)
    requires DrawFits(cfg, row, draw)
    ensures Outcome(cfg, row, Settled(cfg, row, verdict, now, draw), verdict)
  {
  }

  /** One committed attempt: its event is settled, and its mapping added, as its type, payload and replies ask. */
  ghost predicate AttemptMeans(cfg: Settings, t: Tables, u: Tables, id: string, inputs: seq<Input>) {
    && id in t.events && id in u.events && u.events == t.events[id := u.events[id]]
    && exists verdict, add ::
         && Ends(Course(cfg, t.events[id].eventType, t.events[id].payload, t.mappings), inputs, verdict, add)
         && Outcome(cfg, t.events[id], u.events[id], verdict)
         && u.mappings == Inserted(t.mappings, add)
  }

  lemma WholeAttemptMeans(cfg: Settings, t: Tables, id: string, claimedAt: real, inputs: seq<Input>, finishedAt: real, draw: real)
    requires AttemptWhole(cfg, t, id, claimedAt, inputs, finishedAt, draw).Some?
    ensures AttemptMeans(cfg, t, AttemptWhole(cfg, t, id, claimedAt, inputs, finishedAt, draw).value, id, inputs)
  {
    hide Run, Course, Ends, Settled, Outcome, Violates, Inserted;
    var row := t.events[id];
    var end := Run(cfg, KindOf(row.eventType), row.payload, t.mappings, inputs).value;
    RunEndsOnCourse(cfg, row.eventType, row.payload, t.mappings, inputs);
    SettledIsOutcome(cfg, row, end.verdict, finishedAt, draw);
  }

  ghost predicate AllMean(world: World, ops: seq<Op>) {
    forall k :: 0 <= k < |ops| && ops[k].Attempted? ==>
      && Serial(world, ops[..k]).Some? && Serial(world, ops[..k + 1]).Some?
      && AttemptMeans(world.settings, Serial(world, ops[..k]).value, Serial(world, ops[..k + 1]).value, ops[k].id, ops[k].inputs)
  }

  lemma SerialMeans(world: World, ops: seq<Op>)
    requires Serial(world, ops).Some?
    ensures AllMean(world, ops)
  {
    hide Serial, AttemptMeans;
    forall k | 0 <= k < |ops| && ops[k].Attempted?
      ensures Serial(world, ops[..k]).Some? && Serial(world, ops[..k + 1]).Some?
      ensures AttemptMeans(world.settings, Serial(world, ops[..k]).value, Serial(world, ops[..k + 1]).value, ops[k].id, ops[k].inputs)
    {
      var op := ops[k];
      PrefixRuns(world, ops, k);
      PrefixRuns(world, ops, k + 1);
      assert ops[..k + 1] == ops[..k] + [op];
      SerialOneMore(world, ops[..k], op);
      WholeAttemptMeans(world.settings, Serial(world, ops[..k]).value, op.id, op.claimedAt, op.inputs, op.finishedAt, op.draw);
    }
  }

  /**
   In every run every committed attempt, at its place in the serial order, does what its event's type and
   payload, the tables there and Metronome's last reply ask of it, and nothing else.
   */
  lemma EveryAttemptMeans(world: World, steps: seq<Step>)
    requires Play(world, steps).Some?
    ensures exists ops :: SerialOrderOf(world, Play(world, steps).value, ops) && AllMean(world, ops)
  {
    hide AllMean;
    EveryRunIsSerialisable(world, steps);
    var ops :| SerialOrderOf(world, Play(world, steps).value, ops);
    SerialMeans(world, ops);
  }

  // ----- Faults -----

  /** An event whose latest attempt met this fault waits or is given up when the fault may pass, and is refused when not. */
  ghost predicate FaultShows(cfg: Settings, row: EventRow, fault: Fault) {
    if IsTemporary(fault) then
      if row.attempts < cfg.maxAttempts then row.status == Pending && row.lastError == Some(Retrying(MetronomeUnavailable))
      else row.status == Failed && row.lastError == Some(ExhaustedRetries(MetronomeUnavailable))
    else row.status == Failed && row.lastError == Some(PermanentFailure(MetronomeRejected))
  }

  ghost predicate LastFaultShows(cfg: Settings, story: seq<Op>, row: EventRow) {
    story != [] && story[|story| - 1].Attempted? ==>
      var inputs := story[|story| - 1].inputs;
      inputs != [] && inputs[|inputs| - 1].Heard? && inputs[|inputs| - 1].reply.Faulted? ==>
        FaultShows(cfg, row, inputs[|inputs| - 1].reply.fault)
  }

  lemma AttemptShowsFault(cfg: Settings, t: Tables, u: Tables, id: string, inputs: seq<Input>)
    requires AttemptMeans(cfg, t, u, id, inputs)
    requires inputs != [] && inputs[|inputs| - 1].Heard? && inputs[|inputs| - 1].reply.Faulted?
    ensures FaultShows(cfg, u.events[id], inputs[|inputs| - 1].reply.fault) && u.mappings == t.mappings
  {
    hide Course;
    var verdict, add :| && Ends(Course(cfg, t.events[id].eventType, t.events[id].payload, t.mappings), inputs, verdict, add)
                        && Outcome(cfg, t.events[id], u.events[id], verdict)
                        && u.mappings == Inserted(t.mappings, add);
    assert inputs[|inputs| - 1] != Read;
  }

  lemma NoTables(world: World)
    ensures Serial(world, []) == Some(EMPTY_TABLES)
  {
  }

  lemma OpMeans(world: World, t: Tables, op: Op)
    requires op.Attempted? && Apply(world, t, op).Some?
    ensures AttemptMeans(world.settings, t, Apply(world, t, op).value, op.id, op.inputs)
  {
    WholeAttemptMeans(world.settings, t, op.id, op.claimedAt, op.inputs, op.finishedAt, op.draw);
  }

  lemma {:induction false} SerialFaultsShow(world: World, ops: seq<Op>, id: string)
    requires Serial(world, ops).Some? && id in Serial(world, ops).value.events
    ensures LastFaultShows(world.settings, Story(ops, id), Serial(world, ops).value.events[id])
  {
    hide Apply, Serial, Story, AttemptMeans, FaultShows;
    if ops == [] {
      NoTables(world);
    } else {
      var most, op := ops[..|ops| - 1], ops[|ops| - 1];
      assert ops == most + [op];
      SerialOneMore(world, most, op);
      StoryOneMore(most, op, id);
      ApplyTouchesOneRow(world, Serial(world, most).value, op);
      if op.id != id {
        SerialFaultsShow(world, most, id);
      } else if op.Attempted? {
        OpMeans(world, Serial(world, most).value, op);
        var inputs := op.inputs;
        if inputs != [] && inputs[|inputs| - 1].Heard? && inputs[|inputs| - 1].reply.Faulted? {
          AttemptShowsFault(world.settings, Serial(world, most).value, Serial(world, ops).value, id, inputs);
        }
      }
    }
  }

  /**
   In every run: an event whose latest attempt heard no connection, status 429 or a status from 500 to
   599 is pending while it has attempts left, and any other fault has failed it for good.
   */
  lemma LatestFaultDecides(world: World, steps: seq<Step>, id: string)
    requires Play(world, steps).Some? && id in Play(world, steps).value.tables.events
    ensures var s := Play(world, steps).value; LastFaultShows(world.settings, Story(s.log, id), s.tables.events[id])
  {
    hide Serial, Story, LastFaultShows;
    EveryRunIsSerialisable(world, steps);
    var s := Play(world, steps).value;
    var ops :| SerialOrderOf(world, s, ops);
    SerialFaultsShow(world, ops, id);
    assert Story(ops, id) == Story(s.log, id);
  }

  // ----- Errors -----

  /**
   In every run: a permanent error blames a payload that is really at fault, in its own fields, or
   Metronome; and only an unmapped customer or an unavailable Metronome is ever retried.
   */
  lemma ErrorsAreJust(world: World, steps: seq<Step>, id: string)
    requires Play(world, steps).Some? && id in Play(world, steps).value.tables.events
    ensures var row := Play(world, steps).value.tables.events[id];
            match row.lastError
            case None => true
            case Some(PermanentFailure(reason)) =>
              || reason == MetronomeRejected
              || (reason in {MalformedPayload, CannotMap, UnknownTier} && !IsSound(world.settings, row.eventType, row.payload))
            case Some(Retrying(reason)) => reason == CustomerNotMapped || reason == MetronomeUnavailable
            case Some(ExhaustedRetries(reason)) => reason == CustomerNotMapped || reason == MetronomeUnavailable
  {
    hide Sound, IsSound;
    EventRows(world, steps, id);
    var row := Play(world, steps).value.tables.events[id];
    SoundMeans(world.settings, row.eventType, row.payload);
  }

  // ----- Out of order -----

  /** A created subscription that asks for a price and is not mapped yet, nor is its customer. */
  predicate CameTooEarly(row: EventRow, m: Mappings) {
    && row.eventType == "customer.subscription.created"
    && NamesSubscription(row.payload) && HasPrice(Body(row.payload))
    && Body(row.payload)["id"].text !in m.subscriptions && Body(row.payload)["customer"].text !in m.customers
  }

  /** A whole attempt at it makes no call, adds nothing, and leaves it to be tried again. */
  lemma TooEarlyIsPutOff(cfg: Settings, t: Tables, u: Tables, id: string, inputs: seq<Input>)
    requires AttemptMeans(cfg, t, u, id, inputs) && CameTooEarly(t.events[id], t.mappings)
    ensures (forall i :: 0 <= i < |inputs| ==> inputs[i] == Read) && u.mappings == t.mappings
    ensures Outcome(cfg, t.events[id], u.events[id], TryAgain(CustomerNotMapped))
  {
    hide NamesSubscription, HasPrice;
    var verdict, add :| && Ends(Course(cfg, t.events[id].eventType, t.events[id].payload, t.mappings), inputs, verdict, add)
                        && Outcome(cfg, t.events[id], u.events[id], verdict)
                        && u.mappings == Inserted(t.mappings, add);
  }

  /** The attempt a worker makes at it, taken step by step, leaves Metronome alone too. */
  lemma TooEarlyReachesNothing(world: World, s: State, w: Name, id: string, a: Answer, listing: Answer, elapsed: real, draw: real)
    requires w !in s.inflight && OldestClaimable(s.tables.events, Locked(s), s.clock, id)
    requires FreshIds(s.remote, a) && FreshIds(s.remote, listing) && NotAConflict(a)
    requires elapsed >= 0.0 && DrawFits(world.settings, s.tables.events[id], draw)
    requires CameTooEarly(s.tables.events[id], s.tables.mappings)
    ensures var after := From(world, s, AttemptSteps(world, s, w, id, a, listing, elapsed, draw));
            && after.Some? && after.value.remote == s.remote && after.value.tables.mappings == s.tables.mappings
            && id in after.value.tables.events
            && Outcome(world.settings, s.tables.events[id], after.value.tables.events[id], TryAgain(CustomerNotMapped))
  {
    hide From, AttemptSteps, AfterReads, WholeInputs, AttemptWhole, NamesSubscription, HasPrice, Outcome;
    var row, m := s.tables.events[id], s.tables.mappings;
    var kind := KindOf(row.eventType);
    ReadsFollowCourse(world.settings, row.eventType, row.payload, m);
    assert AfterReads(world.settings, kind, row.payload, m) == Stop(TryAgain(CustomerNotMapped));
    WorkerRunsTheProtocol(world, s, w, id, a, listing, elapsed, draw);
    var inputs := WholeInputs(world.settings, kind, row.payload, m, s.remote, a, listing);
    NoRowAlwaysFits(m);
    WholeAttemptMeans(world.settings, s.tables, id, s.clock, inputs, s.clock + elapsed, draw);
    TooEarlyIsPutOff(world.settings, s.tables, AttemptWhole(world.settings, s.tables, id, s.clock, inputs, s.clock + elapsed, draw).value, id, inputs);
  }

  /** Its reads may fall between the steps of others: what counts is that each found its row missing. */
  lemma TooEarlyInterleaved(world: World, s: State, w: Name)
    requires w in s.inflight && s.inflight[w].row.eventType == "customer.subscription.created"
    requires NamesSubscription(s.inflight[w].row.payload) && HasPrice(Body(s.inflight[w].row.payload))
    ensures var sub := Body(s.inflight[w].row.payload);
            var waiting := FindCustomer(Subscription(sub["id"].text, sub["customer"].text, sub), Price(sub));
            && (s.inflight[w].phase == Start && sub["id"].text !in s.tables.mappings.subscriptions ==>
                  && AfterReading(world, s, w).Some?
                  && AfterReading(world, s, w).value.inflight[w].phase == waiting)
            && (s.inflight[w].phase == waiting && sub["customer"].text !in s.tables.mappings.customers ==>
                  && AfterReading(world, s, w).Some?
                  && AfterReading(world, s, w).value.inflight[w].phase == Stop(TryAgain(CustomerNotMapped))
                  && AfterReading(world, s, w).value.remote == s.remote && AfterReading(world, s, w).value.tables == s.tables)
  {
    hide ReadSubscription, NamesSubscription, HasPrice, Price, ExtractSinglePriceId;
    var payload := s.inflight[w].row.payload;
    BodyHasId(payload);
    ReadersAgree(payload);
    OnePriceOrNone(Body(payload));
  }

  /** A transaction that came to any end settles its row by it, and an end without a row to add always commits. */
  lemma EndsSettle(world: World, s: State, w: Name, draw: real)
    requires w in s.inflight && s.inflight[w].phase.Done? && DrawFits(world.settings, s.inflight[w].row, draw)
    ensures Finished(world, s, w, draw).Some?
    ensures var tx, t := s.inflight[w], Finished(world, s, w, draw).value;
            && (Conflicts(s, w) ==> t.tables == s.tables && !tx.phase.add.NoRow?)
            && (!Conflicts(s, w) ==>
                  && tx.id in t.tables.events && Outcome(world.settings, tx.row, t.tables.events[tx.id], tx.phase.verdict)
                  && t.tables.mappings == Inserted(s.tables.mappings, tx.phase.add))
  {
    hide Outcome, Settled, Inserted;
    var tx := s.inflight[w];
    NoRowAlwaysFits(s.tables.mappings);
    SettledIsOutcome(world.settings, tx.row, tx.phase.verdict, s.clock, draw);
  }

  // ----- Success -----

  /**
   In every run a processed event has left its mark: events about customers and created subscriptions
   their mapping, the two types that are only checked a payload that names a subscription.
   */
  lemma ProcessedLeavesItsMark(world: World, steps: seq<Step>, id: string)
    requires Play(world, steps).Some? && id in Play(world, steps).value.tables.events
    requires Play(world, steps).value.tables.events[id].status.Processed?
    ensures var s := Play(world, steps).value;
            LeavesItsMark(s.tables.events[id].eventType, s.tables.events[id].payload, s.tables.mappings)
  {
    hide ReadCustomer, ReadSubscription, NamesCustomer, NamesSubscription;
    EventRows(world, steps, id);
    var payload := Play(world, steps).value.tables.events[id].payload;
    ReadersAgree(payload);
    BodyHasId(payload);
  }
}
