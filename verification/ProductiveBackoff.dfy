/** A long wait that is spent validating boards: sleep only when nothing is ready, and never past the deadline. */
module ProductiveBackoff {

  const LONGEST_NAP_MS: nat := 60_000

  datatype Activity = Processed(count: nat) | Nap(at: int, milliseconds: nat)

  /** `ready` bounds the batches still to come: a batch that processed something leaves fewer. */
  ghost predicate Lawful<S(!new)>(processReady: S -> (S, nat), wait: (S, nat) -> S, now: S -> int,
                                  valid: S -> bool, ready: S -> nat)
  {
    && (forall s :: valid(s) ==>
          var (next, count) := processReady(s);
          && valid(next) && now(s) <= now(next) && ready(next) <= ready(s) && (count > 0 ==> ready(next) < ready(s)))
    && (forall s, ms :: valid(s) ==>
          valid(wait(s, ms)) && now(s) + ms <= now(wait(s, ms)) && ready(wait(s, ms)) <= ready(s))
  }

  lemma BatchIsLawful<S(!new)>(processReady: S -> (S, nat), wait: (S, nat) -> S, now: S -> int, valid: S -> bool,
                               ready: S -> nat, s: S)
    requires Lawful(processReady, wait, now, valid, ready) && valid(s)
    ensures var (next, count) := processReady(s);
      valid(next) && now(s) <= now(next) && ready(next) <= ready(s) && (count > 0 ==> ready(next) < ready(s))
  {}

  lemma NapIsLawful<S(!new)>(processReady: S -> (S, nat), wait: (S, nat) -> S, now: S -> int, valid: S -> bool,
                             ready: S -> nat, s: S, ms: nat)
    requires Lawful(processReady, wait, now, valid, ready) && valid(s)
    ensures valid(wait(s, ms)) && now(s) + ms <= now(wait(s, ms)) && ready(wait(s, ms)) <= ready(s)
  {}

  /** A nap follows exactly the batches that found nothing ready. It lasts until the deadline, but a millisecond at least
      and a minute at most. */
  ghost predicate Sensible(log: seq<Activity>, until: int) {
    && (forall k :: 0 <= k < |log| && log[k].Nap? ==>
          && k > 0 && log[k-1] == Processed(0)
          && log[k].milliseconds == var left := until - log[k].at; if left < 1 then 1 else if left > 60_000 then 60_000 else left)
    && (forall k :: 0 <= k < |log| - 1 && log[k] == Processed(0) ==> log[k+1].Nap?)
  }

  /** The last batch found something, or has had its nap. */
  ghost predicate Rested(log: seq<Activity>) {
    log != [] ==> log[|log|-1] != Processed(0)
  }

  lemma SensibleBatch(log: seq<Activity>, until: int, count: nat)
    requires Sensible(log, until) && Rested(log)
    ensures Sensible(log + [Processed(count)], until) && (count > 0 ==> Rested(log + [Processed(count)]))
  {}

  lemma SensibleNap(log: seq<Activity>, until: int, at: int, ms: nat)
    requires Sensible(log + [Processed(0)], until)
    requires ms == var left := until - at; if left < 1 then 1 else if left > LONGEST_NAP_MS then LONGEST_NAP_MS else left
    ensures Sensible(log + [Processed(0)] + [Nap(at, ms)], until) && Rested(log + [Processed(0)] + [Nap(at, ms)])
  {}

  function After<S>(processReady: S -> (S, nat), wait: (S, nat) -> S, s: S, a: Activity): S {
    match a
    case Processed(_) => processReady(s).0
    case Nap(_, ms) => wait(s, ms)
  }

  /** The state the activities of `log` lead to. */
  function Replay<S>(processReady: S -> (S, nat), wait: (S, nat) -> S, initial: S, log: seq<Activity>): S {
    if log == [] then initial
    else After(processReady, wait, Replay(processReady, wait, initial, log[..|log|-1]), log[|log|-1])
  }

  /** An entry says what the callback answered, or when the nap began. */
  predicate Matches<S>(processReady: S -> (S, nat), now: S -> int, s: S, a: Activity) {
    match a
    case Processed(count) => count == processReady(s).1
    case Nap(at, _) => at == now(s)
  }

  predicate Faithful<S>(processReady: S -> (S, nat), wait: (S, nat) -> S, now: S -> int, initial: S, log: seq<Activity>) {
    log != [] ==>
      && Faithful(processReady, wait, now, initial, log[..|log|-1])
      && Matches(processReady, now, Replay(processReady, wait, initial, log[..|log|-1]), log[|log|-1])
  }

  lemma OneMoreActivity<S>(processReady: S -> (S, nat), wait: (S, nat) -> S, now: S -> int, initial: S,
                           log: seq<Activity>, s: S, a: Activity)
    requires Faithful(processReady, wait, now, initial, log) && s == Replay(processReady, wait, initial, log)
    requires Matches(processReady, now, s, a)
    ensures Faithful(processReady, wait, now, initial, log + [a])
    ensures Replay(processReady, wait, initial, log + [a]) == After(processReady, wait, s, a)
  {
    assert (log + [a])[..|log|] == log;
  }

  /** Returns at the deadline, not before; every batch that was ready meanwhile has been processed at once. */
  method RunProductiveAuditBackoff<S(!new)>(initial: S, until: int, processReady: S -> (S, nat), wait: (S, nat) -> S,
      now: S -> int, ghost valid: S -> bool, ghost ready: S -> nat)
    returns (final: S, log: seq<Activity>)
    requires valid(initial) && Lawful(processReady, wait, now, valid, ready)
    ensures valid(final) && until <= now(final)
    ensures final == Replay(processReady, wait, initial, log) && Faithful(processReady, wait, now, initial, log)
    ensures Sensible(log, until) && Rested(log)
    ensures log == [] <==> until <= now(initial)
    ensures ready(final) <= ready(initial)
  {
    final, log := initial, [];
    while now(final) < until
      invariant final == Replay(processReady, wait, initial, log) && Faithful(processReady, wait, now, initial, log)
      invariant valid(final) && Sensible(log, until) && Rested(log) && ready(final) <= ready(initial)
      invariant log == [] ==> final == initial
      invariant log != [] ==> now(initial) < until
      decreases ready(final), until - now(final)
    {
      hide *;
      BatchIsLawful(processReady, wait, now, valid, ready, final);
      ghost var earlier := log;
      var (next, processed) := processReady(final);
      OneMoreActivity(processReady, wait, now, initial, log, final, Processed(processed));
      SensibleBatch(log, until, processed);
      final, log := next, log + [Processed(processed)];
      if processed == 0 {
        var left := until - now(final);
        var waitMs: nat := if left < 1 then 1 else if left > LONGEST_NAP_MS then LONGEST_NAP_MS else left;
        OneMoreActivity(processReady, wait, now, initial, log, final, Nap(now(final), waitMs));
        SensibleNap(earlier, until, now(final), waitMs);
        log := log + [Nap(now(final), waitMs)];
        NapIsLawful(processReady, wait, now, valid, ready, final, waitMs);
        final := wait(final, waitMs);
      }
    }
  }
}
