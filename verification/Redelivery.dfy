/** Redeliveries leave no trace: a run without them ends in the same state. */
module Redelivery {
  import opened Wrappers
  import opened Protocol
  import opened Invariants

  /** The event has been delivered, and could be persisted, somewhere in these steps. */
  predicate DeliveredIn(steps: seq<Step>, id: string) {
    exists k :: 0 <= k < |steps| && Persistable(steps[k]) && steps[k].id == id
  }

  /** The run with every repeated delivery of an already persisted event left out. */
  function WithoutRedeliveries(steps: seq<Step>): seq<Step> {
    if steps == [] then [] else
      var most, last := steps[..|steps| - 1], steps[|steps| - 1];
      if last.Deliver? && DeliveredIn(most, last.id) then WithoutRedeliveries(most)
      else WithoutRedeliveries(most) + [last]
  }

  lemma DeliveredOneMore(steps: seq<Step>, step: Step, id: string)
    ensures DeliveredIn(steps + [step], id) <==> DeliveredIn(steps, id) || (Persistable(step) && step.id == id)
  {
    var longer := steps + [step];
    if DeliveredIn(steps, id) {
      var k :| 0 <= k < |steps| && Persistable(steps[k]) && steps[k].id == id;
      assert longer[k] == steps[k];
    }
    if Persistable(step) && step.id == id {
      assert longer[|steps|] == step;
    }
  }

  lemma KeysAfter(world: World, s: State, step: Step, id: string)
    requires LocksOk(s) && Next(world, s, step).Some?
    ensures id in Next(world, s, step).value.tables.events <==>
            id in s.tables.events || (Persistable(step) && step.id == id)
  {
    if step.Finish? {
      assert HoldsRow(s, s.inflight[step.worker]);
    }
  }

  /** An event is in the table exactly when it has been delivered. */
  lemma {:induction false} PersistedIffDelivered(world: World, steps: seq<Step>, id: string)
    requires Play(world, steps).Some?
    ensures id in Play(world, steps).value.tables.events <==> DeliveredIn(steps, id)
  {
    if steps == [] {
    } else {
      var most, last := steps[..|steps| - 1], steps[|steps| - 1];
      PersistedIffDelivered(world, most, id);
      Reachable(world, most);
      KeysAfter(world, Play(world, most).value, last, id);
      assert steps == most + [last];
      DeliveredOneMore(most, last, id);
    }
  }

  /**
   Leaving out every repeated delivery of a persisted event, even one with another payload or one that
   arrives after the event was processed, leaves a run that ends in the same state.
   */
  lemma {:induction false} RedeliveryIsInvisible(world: World, steps: seq<Step>)
    requires Play(world, steps).Some?
    ensures Play(world, WithoutRedeliveries(steps)) == Play(world, steps)
  {
    if steps == [] {
    } else {
      var most, last := steps[..|steps| - 1], steps[|steps| - 1];
      RedeliveryIsInvisible(world, most);
      if last.Deliver? && DeliveredIn(most, last.id) {
        PersistedIffDelivered(world, most, last.id);
      } else {
        PlayOneMore(world, WithoutRedeliveries(most), last);
      }
    }
  }
}
