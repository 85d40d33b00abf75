/**
 The worker's event bookkeeping as value functions: what one finished attempt, a redelivery and an
 operator replay do to rows.
 */
module EventLifecycle {
  import opened Wrappers
  import opened Settings
  import opened Schema
  import opened HandlerProgram
  import Backoff

  /** The jitter drawn for the attempt that has just been made. */
  predicate DrawFits(cfg: Settings, row: EventRow, draw: real) {
    Backoff.Draw(cfg, row.attempts + 1, draw)
  }

  /** For the attempt being made on a row that has made k, the jitter lies between 0 and base * 2^k, capped. */
  lemma JitterInterval(cfg: Settings, row: EventRow, draw: real)
    requires row.attempts >= 0
    ensures DrawFits(cfg, row, draw) <==>
            0.0 <= draw && draw <= cfg.retryBase * Backoff.Power2(row.attempts) as real && draw <= cfg.retryCap
  {
    Backoff.ExponentialIsPower(cfg.retryBase, row.attempts);
  }

  /** The row after one attempt that ended in this verdict at this time. */
  function Settled(cfg: Settings, row: EventRow, verdict: Verdict, now: real, draw: real): EventRow
    requires DrawFits(cfg, row, draw)
  {
    var tried := row.(attempts := row.attempts + 1);
    match verdict
    case Succeeded => tried.(status := Processed, processedAt := Some(now), lastError := None)
    case FailedForGood(reason) => tried.(status := Failed, processedAt := Some(now), lastError := Some(PermanentFailure(reason)))
    case TryAgain(reason) =>
      if tried.attempts >= cfg.maxAttempts
      then tried.(status := Failed, processedAt := Some(now), lastError := Some(ExhaustedRetries(reason)))
      else tried.(status := Pending, nextAttemptAt := now + Backoff.Delay(cfg, tried.attempts, draw),
                  lastError := Some(Retrying(reason)))
  }

  /** The operator's replay; one of the two documented statements also clears `processed_at`. */
  function Requeued(row: EventRow, now: real, clearProcessedAt: bool): EventRow {
    row.(status := Pending, attempts := 0, nextAttemptAt := now, lastError := None,
         processedAt := if clearProcessedAt then None else row.processedAt)
  }

  /** What every stored event row satisfies. */
  ghost predicate RowOk(cfg: Settings, row: EventRow) {
    && 0 <= row.attempts <= cfg.maxAttempts
    && match row.status
       case Pending =>
         && row.attempts < cfg.maxAttempts
         && (row.attempts == 0 <==> row.lastError.None?)
         && (row.attempts > 0 ==> row.lastError.value.Retrying?)
       case Processed => row.lastError.None? && row.processedAt.Some? && row.attempts >= 1
       case Failed =>
         && row.processedAt.Some? && row.lastError.Some? && row.attempts >= 1
         && (row.lastError.value.PermanentFailure?
             || (row.lastError.value.ExhaustedRetries? && row.attempts == cfg.maxAttempts))
  }

  /** An attempt keeps the row invariant, counts exactly one attempt, and ends or postpones the event. */
  lemma SettledKeepsRowOk(cfg: Settings, row: EventRow, verdict: Verdict, now: real, draw: real)
    requires RowOk(cfg, row) && row.status.Pending? && DrawFits(cfg, row, draw)
    ensures var after := Settled(cfg, row, verdict, now, draw);
            && RowOk(cfg, after) && after.attempts == row.attempts + 1
            && (after.status.Pending? ==> after.nextAttemptAt >= now + 1.0)
            && (after.status.Pending? <==> verdict.TryAgain? && row.attempts + 1 < cfg.maxAttempts)
            && (after.status.Processed? <==> verdict.Succeeded?)
  {
  }

  /** The oldest ready event no one holds: the only kind of row a claim may take. */
  predicate Claimable(events: map<string, EventRow>, locked: set<string>, now: real, id: string) {
    id in events && events[id].status.Pending? && events[id].nextAttemptAt <= now && id !in locked
  }

  ghost predicate NothingClaimable(events: map<string, EventRow>, locked: set<string>, now: real) {
    forall id :: !Claimable(events, locked, now, id)
  }

  ghost predicate OldestClaimable(events: map<string, EventRow>, locked: set<string>, now: real, id: string) {
    && Claimable(events, locked, now, id)
    && forall o :: Claimable(events, locked, now, o) ==> events[id].receivedAt <= events[o].receivedAt
  }

  /** A whole attempt, run against mappings that do not change meanwhile; no value when it cannot commit. */
  function AttemptWhole(
    cfg: Settings, t: Tables, id: string, claimedAt: real, inputs: seq<Input>, finishedAt: real, draw: real): Option<Tables>
  {
    if id !in t.events then None else
      var row := t.events[id];
      var end := Run(cfg, KindOf(row.eventType), row.payload, t.mappings, inputs);
      if || !row.status.Pending? || row.nextAttemptAt > claimedAt || finishedAt < claimedAt
         || end.None? || !end.value.Done? || Violates(t.mappings, end.value.add) || !DrawFits(cfg, row, draw)
      then None
      else
        Some(Tables(t.events[id := Settled(cfg, row, end.value.verdict, finishedAt, draw)],
                    Inserted(t.mappings, end.value.add)))
  }
}
