/**
 One worker that is not disturbed. What `Worker.Database.ProcessOne` promises of one call is what the
 interleaved system does when the steps of one attempt follow one another.
 */
module SequentialWorker {
  import opened Wrappers
  import opened Json
  import opened Settings
  import opened Schema
  import opened Metronome
  import opened HandlerProgram
  import opened EventLifecycle
  import opened Protocol

  function ReadSteps(w: Name, kind: Kind, payload: Object, m: Mappings): seq<Step> {
    if Reading(Begin(kind, payload, m)) then [ReadTables(w), ReadTables(w)] else [ReadTables(w)]
  }

  function CallSteps(w: Name, r: Remote, ph: Phase, a: Answer, listing: Answer): seq<Step>
    requires !Reading(ph)
  {
    if ph.Done? then []
    else if AfterReply(ph, Exchange(r, ph, a).1).Done? then [Call(w, a)]
    else [Call(w, a), Call(w, listing)]
  }

  /** The steps of one attempt up to its end: claim, read, call, and some time passes. */
  function PreparingSteps(world: World, s: State, w: Name, id: string, a: Answer, listing: Answer, elapsed: real): seq<Step>
    requires id in s.tables.events
  {
    var row, m := s.tables.events[id], s.tables.mappings;
    var kind := KindOf(row.eventType);
    [Claim(w, id)] + ReadSteps(w, kind, row.payload, m)
    + CallSteps(w, s.remote, AfterReads(world.settings, kind, row.payload, m), a, listing)
    + [Tick(elapsed)]
  }

  function AttemptSteps(
    world: World, s: State, w: Name, id: string, a: Answer, listing: Answer, elapsed: real, draw: real): seq<Step>
    requires id in s.tables.events
  {
    PreparingSteps(world, s, w, id, a, listing, elapsed) + [Finish(w, draw)]
  }

  /** This state, with this transaction in flight. */
  function With(s: State, w: Name, tx: Transaction): State {
    s.(inflight := s.inflight[w := tx])
  }

  lemma WithAgain(s: State, w: Name, one: Transaction, other: Transaction)
    ensures With(With(s, w, one), w, other) == With(s, w, other)
  {
    assert s.inflight[w := one][w := other] == s.inflight[w := other];
  }

  lemma FromNothing(world: World, s: State)
    ensures From(world, s, []) == Some(s)
  {
  }

  lemma ClaimsAndReads(world: World, s: State, w: Name, id: string)
    requires w !in s.inflight && OldestClaimable(s.tables.events, Locked(s), s.clock, id)
    ensures var row, m := s.tables.events[id], s.tables.mappings;
            var kind := KindOf(row.eventType);
            var inputs := if Reading(Begin(kind, row.payload, m)) then [Read, Read] else [Read];
            From(world, s, [Claim(w, id)] + ReadSteps(w, kind, row.payload, m))
            == Some(With(s, w, Transaction(id, row, s.clock, inputs, AfterReads(world.settings, kind, row.payload, m))))
  {
    hide Begin, PrepareContract, From;
    var row, m := s.tables.events[id], s.tables.mappings;
    var kind := KindOf(row.eventType);
    var claim, read := Claim(w, id), ReadTables(w);
    FromNothing(world, s);
    FromOneMore(world, s, [], claim);
    assert [] + [claim] == [claim];
    FromOneMore(world, s, [claim], read);
    assert [] + [Read] == [Read];
    var tx := Transaction(id, row, s.clock, [], Start);
    var once := Transaction(id, row, s.clock, [Read], Begin(kind, row.payload, m));
    WithAgain(s, w, tx, once);
    if Reading(Begin(kind, row.payload, m)) {
      FromOneMore(world, s, [claim] + [read], read);
      WithAgain(s, w, once, Progressed(world, m, once, Read));
      assert [claim] + [read] + [read] == [claim] + [read, read];
      assert [Read] + [Read] == [Read, Read];
    }
  }

  lemma Calls(world: World, s: State, steps: seq<Step>, w: Name, tx: Transaction, a: Answer, listing: Answer)
    requires From(world, s, steps) == Some(With(s, w, tx)) && !Reading(tx.phase)
    requires FreshIds(s.remote, a) && FreshIds(s.remote, listing) && NotAConflict(a)
    ensures var ended := tx.(inputs := tx.inputs + HeardFrom(s.remote, tx.phase, a, listing),
                             phase := EndFrom(s.remote, tx.phase, a, listing));
            From(world, s, steps + CallSteps(w, s.remote, tx.phase, a, listing))
            == Some(With(s, w, ended).(remote := RemoteFrom(s.remote, tx.phase, a), sent := Noted(s.sent, tx)))
  {
    hide From, Find;
    if tx.phase.Done? {
      assert steps + [] == steps && tx.inputs + [] == tx.inputs;
    } else {
      var (remote, reply) := Exchange(s.remote, tx.phase, a);
      FromOneMore(world, s, steps, Call(w, a));
      var next := AfterReply(tx.phase, reply);
      var once := Progressed(world, s.tables.mappings, tx, Heard(reply));
      WithAgain(s, w, tx, once);
      if next.Done? {
        assert [Heard(reply)] + [] == [Heard(reply)];
      } else {
        var second := Heard(Exchange(remote, next, listing).1);
        FromOneMore(world, s, steps + [Call(w, a)], Call(w, listing));
        WithAgain(s, w, once, Progressed(world, s.tables.mappings, once, second));
        assert steps + [Call(w, a)] + [Call(w, listing)] == steps + [Call(w, a), Call(w, listing)];
        assert tx.inputs + ([Heard(reply)] + [second]) == tx.inputs + [Heard(reply)] + [second];
      }
    }
  }

  /** Before it finishes, the attempt has run its program to the end and changed nothing but Metronome. */
  lemma Prepares(world: World, s: State, w: Name, id: string, a: Answer, listing: Answer, elapsed: real)
    requires w !in s.inflight && OldestClaimable(s.tables.events, Locked(s), s.clock, id)
    requires FreshIds(s.remote, a) && FreshIds(s.remote, listing) && NotAConflict(a) && elapsed >= 0.0
    ensures From(world, s, PreparingSteps(world, s, w, id, a, listing, elapsed)).Some?
    ensures var row, m := s.tables.events[id], s.tables.mappings;
            var kind := KindOf(row.eventType);
            var end := WholeEnd(world.settings, kind, row.payload, m, s.remote, a, listing);
            var inputs := WholeInputs(world.settings, kind, row.payload, m, s.remote, a, listing);
            var t := From(world, s, PreparingSteps(world, s, w, id, a, listing, elapsed)).value;
            && t.remote == RemoteFrom(s.remote, AfterReads(world.settings, kind, row.payload, m), a)
            && t.tables == s.tables && t.log == s.log && t.clock == s.clock + elapsed
            && t.inflight == s.inflight[w := Transaction(id, row, s.clock, inputs, end)]
  {
    hide From, AfterReads, HeardFrom, RemoteFrom, EndFrom, Noted;
    var row, m := s.tables.events[id], s.tables.mappings;
    var kind := KindOf(row.eventType);
    var inputs := if Reading(Begin(kind, row.payload, m)) then [Read, Read] else [Read];
    var ph := AfterReads(world.settings, kind, row.payload, m);
    var first := [Claim(w, id)] + ReadSteps(w, kind, row.payload, m);
    ClaimsAndReads(world, s, w, id);
    Calls(world, s, first, w, Transaction(id, row, s.clock, inputs, ph), a, listing);
    FromOneMore(world, s, first + CallSteps(w, s.remote, ph, a, listing), Tick(elapsed));
  }

  /**
   The steps of one attempt, with nothing in between, commit exactly one whole attempt with the replies
   Metronome gives, or, when its row conflicts, leave the tables alone. It is the contract of
   `Worker.Database.ProcessOne`, met by the interleaved system.
   */
  lemma WorkerRunsTheProtocol(world: World, s: State, w: Name, id: string, a: Answer, listing: Answer, elapsed: real, draw: real)
    requires w !in s.inflight && OldestClaimable(s.tables.events, Locked(s), s.clock, id)
    requires FreshIds(s.remote, a) && FreshIds(s.remote, listing) && NotAConflict(a)
    requires elapsed >= 0.0 && DrawFits(world.settings, s.tables.events[id], draw)
    ensures From(world, s, AttemptSteps(world, s, w, id, a, listing, elapsed, draw)).Some?
    ensures var row, m := s.tables.events[id], s.tables.mappings;
            var kind, now := KindOf(row.eventType), s.clock + elapsed;
            var end := WholeEnd(world.settings, kind, row.payload, m, s.remote, a, listing);
            var inputs := WholeInputs(world.settings, kind, row.payload, m, s.remote, a, listing);
            var t := From(world, s, AttemptSteps(world, s, w, id, a, listing, elapsed, draw)).value;
            && t.remote == RemoteFrom(s.remote, AfterReads(world.settings, kind, row.payload, m), a)
            && t.inflight == s.inflight && t.clock == now
            && if Violates(m, end.add) then t.tables == s.tables && t.log == s.log
               else
                 && Some(t.tables) == AttemptWhole(world.settings, s.tables, id, s.clock, inputs, now, draw)
                 && t.log == s.log + [Attempted(id, s.clock, inputs, now, draw)]
  {
    hide From, AfterReads, PreparingSteps, WholeInputs, WholeEnd, RemoteFrom, Settled, Violates, Inserted, Run, DrawFits;
    var row, m := s.tables.events[id], s.tables.mappings;
    Prepares(world, s, w, id, a, listing, elapsed);
    FromOneMore(world, s, PreparingSteps(world, s, w, id, a, listing, elapsed), Finish(w, draw));
    WholeCallRuns(world.settings, KindOf(row.eventType), row.payload, m, s.remote, a, listing);
    var before := From(world, s, PreparingSteps(world, s, w, id, a, listing, elapsed)).value;
    assert before.inflight - {w} == s.inflight;
  }

  lemma NoDrawFits(cfg: Settings, row: EventRow)
    ensures DrawFits(cfg, row, 0.0)
  {
  }

  /** An attempt while nothing else is in flight, over in an instant and without jitter, that commits. */
  lemma AttemptAlone(world: World, s: State, id: string, a: Answer, listing: Answer) returns (steps: seq<Step>)
    requires s.inflight == map[] && OldestClaimable(s.tables.events, {}, s.clock, id)
    requires FreshIds(s.remote, a) && FreshIds(s.remote, listing) && NotAConflict(a)
    requires var row := s.tables.events[id];
             !Violates(s.tables.mappings,
                       WholeEnd(world.settings, KindOf(row.eventType), row.payload, s.tables.mappings, s.remote, a, listing).add)
    ensures var row, m := s.tables.events[id], s.tables.mappings;
            var kind := KindOf(row.eventType);
            var end := WholeEnd(world.settings, kind, row.payload, m, s.remote, a, listing);
            && From(world, s, steps).Some?
            && DrawFits(world.settings, row, 0.0)
            && var t := From(world, s, steps).value;
               && t.remote == RemoteFrom(s.remote, AfterReads(world.settings, kind, row.payload, m), a)
               && t.inflight == map[] && t.clock == s.clock
               && t.tables == Tables(s.tables.events[id := Settled(world.settings, row, end.verdict, s.clock, 0.0)],
                                     Inserted(m, end.add))
  {
    hide From, AttemptSteps, WholeEnd, WholeInputs, AfterReads, RemoteFrom, Settled, Violates, Inserted, DrawFits;
    var row := s.tables.events[id];
    assert Locked(s) == {};
    NoDrawFits(world.settings, row);
    WorkerRunsTheProtocol(world, s, 0, id, a, listing, 0.0, 0.0);
    WholeCallRuns(world.settings, KindOf(row.eventType), row.payload, s.tables.mappings, s.remote, a, listing);
    steps := AttemptSteps(world, s, 0, id, a, listing, 0.0, 0.0);
  }
}
