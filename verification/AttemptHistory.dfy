/** The attempts made at one event over a whole run: how many, how far apart, and how long they were put off. */
module AttemptHistory {
  import opened Wrappers
  import opened Settings
  import opened Schema
  import opened HandlerProgram
  import opened EventLifecycle
  import Backoff
  import opened Protocol
  import opened Safety
  import opened Serialisability

  /** The draws of the attempts at the end of a story: those made since the event was received or last replayed. */
  function Draws(story: seq<Op>): (draws: seq<real>)
    ensures |draws| <= |story|
  {
    var n := |story| - 1;
    if story == [] || !story[n].Attempted? then [] else Draws(story[..n]) + [story[n].draw]
  }

  /** The attempt at `i` follows the rules, and was claimed only once the delay after the one before it was over. */
  ghost predicate AttemptOk(cfg: Settings, story: seq<Op>, i: nat)
    requires i < |story|
  {
    story[i].Attempted? ==>
      && story[i].claimedAt <= story[i].finishedAt
      && Backoff.Draw(cfg, |Draws(story[..i + 1])|, story[i].draw)
      && (i > 0 && story[i - 1].Attempted? ==>
            && Backoff.Draw(cfg, |Draws(story[..i])|, story[i - 1].draw)
            && story[i].claimedAt >= story[i - 1].finishedAt + Backoff.Delay(cfg, |Draws(story[..i])|, story[i - 1].draw))
  }

  /** The row waits exactly the delay drawn after this attempt, its latest. */
  ghost predicate PutOff(cfg: Settings, row: EventRow, latest: Op) {
    && latest.Attempted? && Backoff.Draw(cfg, row.attempts, latest.draw)
    && row.nextAttemptAt == latest.finishedAt + Backoff.Delay(cfg, row.attempts, latest.draw)
  }

  /** What the story of an event says about its attempts and its row. */
  ghost predicate StoryOk(cfg: Settings, story: seq<Op>, row: EventRow) {
    && (forall i :: 0 <= i < |story| ==> AttemptOk(cfg, story, i))
    && row.attempts == |Draws(story)|
    && (row.status.Pending? && row.attempts > 0 ==> PutOff(cfg, row, story[|story| - 1]))
  }

  lemma AttemptsStayOk(cfg: Settings, story: seq<Op>, op: Op, i: nat)
    requires i < |story| && AttemptOk(cfg, story, i)
    ensures AttemptOk(cfg, story + [op], i)
  {
    var longer := story + [op];
    assert longer[..i + 1] == story[..i + 1];
    assert longer[..i] == story[..i];
  }

  lemma AttemptKeepsStory(cfg: Settings, story: seq<Op>, row: EventRow, op: Op, verdict: Verdict)
    requires StoryOk(cfg, story, row) && op.Attempted? && DrawFits(cfg, row, op.draw)
    requires row.status.Pending? && row.nextAttemptAt <= op.claimedAt <= op.finishedAt
    ensures StoryOk(cfg, story + [op], Settled(cfg, row, verdict, op.finishedAt, op.draw))
  {
    var longer, n := story + [op], |story|;
    assert longer[..n] == story && longer[..n + 1] == longer;
    assert Draws(longer) == Draws(story) + [op.draw];
    forall i | 0 <= i < |longer| ensures AttemptOk(cfg, longer, i) {
      if i < n {
        AttemptsStayOk(cfg, story, op, i);
      } else if n > 0 && story[n - 1].Attempted? {
        assert PutOff(cfg, row, story[n - 1]);
      }
    }
  }

  lemma RequeueKeepsStory(cfg: Settings, story: seq<Op>, row: EventRow, op: Op, after: EventRow)
    requires StoryOk(cfg, story, row) && !op.Attempted? && after.attempts == 0
    ensures StoryOk(cfg, story + [op], after)
  {
    forall i | 0 <= i < |story + [op]| ensures AttemptOk(cfg, story + [op], i) {
      if i < |story| {
        AttemptsStayOk(cfg, story, op, i);
      }
    }
  }

  ghost predicate StoriesOk(cfg: Settings, ops: seq<Op>, t: Tables) {
    forall id ::
      if id in t.events then StoryOk(cfg, Story(ops, id), t.events[id]) else Story(ops, id) == []
  }

  lemma ApplyTouchesOneRow(world: World, t: Tables, op: Op)
    requires Apply(world, t, op).Some?
    ensures var u := Apply(world, t, op).value;
            op.id in u.events && u.events == t.events[op.id := u.events[op.id]]
  {
  }

  lemma ApplyKeepsOwnStory(world: World, story: seq<Op>, t: Tables, op: Op)
    requires Apply(world, t, op).Some? && op.id in Apply(world, t, op).value.events
    requires if op.id in t.events then StoryOk(world.settings, story, t.events[op.id]) else story == []
    ensures StoryOk(world.settings, story + [op], Apply(world, t, op).value.events[op.id])
  {
    match op {
      case Received(_, _, _, _) =>
      case Replayed(id, _, _) =>
        RequeueKeepsStory(world.settings, story, t.events[id], op, Apply(world, t, op).value.events[id]);
      case Attempted(id, _, inputs, _, _) =>
        var row := t.events[id];
        var end := Run(world.settings, KindOf(row.eventType), row.payload, t.mappings, inputs).value;
        AttemptKeepsStory(world.settings, story, row, op, end.verdict);
    }
  }

  lemma ApplyKeepsStories(world: World, ops: seq<Op>, t: Tables, op: Op)
    requires StoriesOk(world.settings, ops, t) && Apply(world, t, op).Some?
    ensures StoriesOk(world.settings, ops + [op], Apply(world, t, op).value)
  {
    ApplyTouchesOneRow(world, t, op);
    ApplyKeepsOwnStory(world, Story(ops, op.id), t, op);
    var u := Apply(world, t, op).value;
    forall id
      ensures if id in u.events then StoryOk(world.settings, Story(ops + [op], id), u.events[id]) else Story(ops + [op], id) == []
    {
      StoryOneMore(ops, op, id);
    }
  }

  lemma {:induction false} SerialStories(world: World, ops: seq<Op>)
    requires Serial(world, ops).Some?
    ensures StoriesOk(world.settings, ops, Serial(world, ops).value)
  {
    if ops == [] {
    } else {
      var most, last := ops[..|ops| - 1], ops[|ops| - 1];
      SerialStories(world, most);
      ApplyKeepsStories(world, most, Serial(world, most).value, last);
      assert ops == most + [last];
    }
  }

  /**
   Over every run, whatever crashes and interleavings it contains: the attempt counter of an event is
   the number of attempts committed since it was received or replayed, each of them is claimed no
   sooner than the delay drawn after the one before it is over, and a pending event waits exactly the
   delay drawn after its latest attempt.
   */
  lemma AttemptsAreCountedAndSpaced(world: World, steps: seq<Step>, id: string)
    requires Play(world, steps).Some? && id in Play(world, steps).value.tables.events
    ensures var s := Play(world, steps).value;
            StoryOk(world.settings, Story(s.log, id), s.tables.events[id])
  {
    EveryRunIsSerialisable(world, steps);
    var s := Play(world, steps).value;
    var ops :| SerialOrderOf(world, s, ops);
    SerialStories(world, ops);
    assert Story(ops, id) == Story(s.log, id);
  }

  lemma {:induction false} DrawsAreFit(cfg: Settings, story: seq<Op>, n: nat)
    requires n <= |story| && forall i :: 0 <= i < |story| ==> AttemptOk(cfg, story, i)
    ensures Backoff.DrawsFit(cfg, Draws(story[..n]))
  {
    if n == 0 || !story[n - 1].Attempted? {
    } else {
      DrawsAreFit(cfg, story, n - 1);
      assert story[..n][..n - 1] == story[..n - 1];
      assert AttemptOk(cfg, story, n - 1);
    }
  }

  lemma DrawsOneMore(story: seq<Op>, n: nat)
    requires 0 < n <= |story| && story[n - 1].Attempted?
    ensures Draws(story[..n]) == Draws(story[..n - 1]) + [story[n - 1].draw]
  {
    assert story[..n][..n - 1] == story[..n - 1];
  }

  /** The attempt at `j` was claimed only once the delay scheduled after the one before it was over. */
  lemma StepPaysDelay(cfg: Settings, story: seq<Op>, j: nat)
    requires 0 < j < |story| && forall k :: 0 <= k < |story| ==> AttemptOk(cfg, story, k)
    requires story[j - 1].Attempted? && story[j].Attempted?
    ensures Backoff.DrawsFit(cfg, Draws(story[..j - 1])) && Backoff.DrawsFit(cfg, Draws(story[..j]))
    ensures story[j].claimedAt - story[j - 1].finishedAt
            >= Backoff.TotalDelay(cfg, Draws(story[..j])) - Backoff.TotalDelay(cfg, Draws(story[..j - 1])) >= 1.0
  {
    hide Draws, Backoff.TotalDelay, Backoff.Delay, Backoff.Ceiling, Backoff.DrawsFit;
    DrawsAreFit(cfg, story, j);
    DrawsOneMore(story, j);
    Backoff.OneMoreDelay(cfg, Draws(story[..j - 1]), story[j - 1].draw);
    assert AttemptOk(cfg, story, j);
  }

  /**
   The wait between two attempts at one event with no replay in between: at least the sum of all delays
   scheduled after the first of them and before the last, and so at least a second for each.
   */
  lemma {:induction false} SpanPaysDelays(cfg: Settings, story: seq<Op>, i: nat, j: nat)
    requires i < j < |story| && forall k :: 0 <= k < |story| ==> AttemptOk(cfg, story, k)
    requires forall k :: i <= k <= j ==> story[k].Attempted?
    ensures Backoff.DrawsFit(cfg, Draws(story[..i])) && Backoff.DrawsFit(cfg, Draws(story[..j]))
    ensures story[j].claimedAt - story[i].finishedAt
            >= Backoff.TotalDelay(cfg, Draws(story[..j])) - Backoff.TotalDelay(cfg, Draws(story[..i])) >= (j - i) as real
    decreases j
  {
    hide Draws, Backoff.TotalDelay, Backoff.DrawsFit;
    StepPaysDelay(cfg, story, j);
    if j == i + 1 {
    } else {
      SpanPaysDelays(cfg, story, i, j - 1);
      assert AttemptOk(cfg, story, j - 1);
    }
  }

  /** In every run: the attempts between two attempts at one event with no replay in between put the later one off by all their delays. */
  lemma AttemptsOfRunSpan(world: World, steps: seq<Step>, id: string, i: nat, j: nat)
    requires Play(world, steps).Some? && id in Play(world, steps).value.tables.events
    requires i < j < |Story(Play(world, steps).value.log, id)|
    requires forall k :: i <= k <= j ==> Story(Play(world, steps).value.log, id)[k].Attempted?
    ensures var cfg, story := world.settings, Story(Play(world, steps).value.log, id);
            && Backoff.DrawsFit(cfg, Draws(story[..i])) && Backoff.DrawsFit(cfg, Draws(story[..j]))
            && story[j].claimedAt - story[i].finishedAt
               >= Backoff.TotalDelay(cfg, Draws(story[..j])) - Backoff.TotalDelay(cfg, Draws(story[..i])) >= (j - i) as real
  {
    AttemptsAreCountedAndSpaced(world, steps, id);
    SpanPaysDelays(world.settings, Story(Play(world, steps).value.log, id), i, j);
  }

  /** The draws after which a retry was scheduled: all but the last once the event is no longer pending. */
  function RetryDraws(story: seq<Op>, row: EventRow): seq<real> {
    var draws := Draws(story);
    if row.status.Pending? || draws == [] then draws else draws[..|draws| - 1]
  }

  /** How long the retries since receipt or replay have put the event off: the time the last of them became due, less the end of the first attempt. */
  ghost predicate PutOffAtLeast(story: seq<Op>, row: EventRow, total: real) {
    var n := |Draws(story)|;
    n > 0 ==>
      var first := story[|story| - n];
      && first.Attempted?
      && (row.status.Pending? ==> row.nextAttemptAt - first.finishedAt >= total)
      && (!row.status.Pending? && n > 1 ==> story[|story| - 1].Attempted? && story[|story| - 1].claimedAt - first.finishedAt >= total)
  }

  lemma {:induction false} DrawsAreLast(story: seq<Op>)
    ensures var n := |Draws(story)|;
            && (forall k :: |story| - n <= k < |story| ==> story[k].Attempted?)
            && Draws(story[..|story| - n]) == []
  {
    if story == [] || !story[|story| - 1].Attempted? {
      assert story[..|story|] == story;
    } else {
      var most := story[..|story| - 1];
      DrawsAreLast(most);
      assert story[..|story| - |Draws(story)|] == most[..|most| - |Draws(most)|];
    }
  }

  lemma NoDelays(cfg: Settings)
    ensures Backoff.DrawsFit(cfg, []) && Backoff.TotalDelay(cfg, []) == 0.0
  {
  }

  lemma StoryPaysRetries(cfg: Settings, story: seq<Op>, row: EventRow)
    requires StoryOk(cfg, story, row)
    ensures Backoff.DrawsFit(cfg, RetryDraws(story, row))
    ensures PutOffAtLeast(story, row, Backoff.TotalDelay(cfg, RetryDraws(story, row)))
  {
    hide Backoff.TotalDelay, Backoff.Delay, Backoff.Ceiling, Backoff.DrawsFit;
    var draws, last := Draws(story), |story| - 1;
    assert story[..|story|] == story;
    DrawsAreFit(cfg, story, |story|);
    NoDelays(cfg);
    if draws != [] {
      DrawsAreLast(story);
      DrawsAreFit(cfg, story, last);
      DrawsOneMore(story, |story|);
      Backoff.OneMoreDelay(cfg, Draws(story[..last]), story[last].draw);
      assert AttemptOk(cfg, story, last);
      assert draws[..|draws| - 1] == Draws(story[..last]);
      if |draws| > 1 {
        SpanPaysDelays(cfg, story, |story| - |draws|, last);
      }
    }
  }

  /**
   The retries of one event in any run, counted since its receipt or last replay: with max_attempts
   attempts at most max_attempts - 1 retries are scheduled, exactly so many when it is exhausted; their
   delays add up to at least a second each and at most to both bounds of exponential backoff, and the
   event has in fact been put off by at least that sum.
   */
  lemma RetriesAreBounded(world: World, steps: seq<Step>, id: string)
    requires Play(world, steps).Some? && id in Play(world, steps).value.tables.events
    ensures var s := Play(world, steps).value;
            var cfg, story, row := world.settings, Story(s.log, id), s.tables.events[id];
            var draws := RetryDraws(story, row);
            && Backoff.DrawsFit(cfg, draws)
            && |draws| <= cfg.maxAttempts - 1
            && (row.status.Failed? && row.lastError.Some? && row.lastError.value.ExhaustedRetries? ==> |draws| == cfg.maxAttempts - 1)
            && |draws| as real <= Backoff.TotalDelay(cfg, draws)
            && Backoff.TotalDelay(cfg, draws) <= Backoff.Exponential(cfg.retryBase, |draws|) - cfg.retryBase
            && Backoff.TotalDelay(cfg, draws) <= Backoff.Times(|draws|, cfg.retryCap)
            && PutOffAtLeast(story, row, Backoff.TotalDelay(cfg, draws))
  {
    hide Play, PutOffAtLeast, Story;
    AttemptsAreCountedAndSpaced(world, steps, id);
    EventRows(world, steps, id);
    var s := Play(world, steps).value;
    StoryPaysRetries(world.settings, Story(s.log, id), s.tables.events[id]);
    Backoff.TotalBackoff(world.settings, RetryDraws(Story(s.log, id), s.tables.events[id]));
  }
}
