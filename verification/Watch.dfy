/** The decisions of the watcher (watcher.py) as a timed state machine, and what they mean
    over whole traces of steps.  Times are in seconds. */
module Watch {
  import opened Mail

  const SHORT_DELAY := 5.0
  const BUSY_DELAY := 20.0
  const BASE_BACKOFF := 30.0
  const MAX_BACKOFF := 600.0
  // The failure after which the power of two in the backoff no longer fits a float.
  const LAST_PACED_FAILURE: nat := 1024

  datatype TriggerResult = TriggerResult(ok: bool, busy: bool, remaining: int)

  datatype Memory = Memory(notified: set<Uid>, lastTriggerAt: Option<real>, notBefore: real, failures: nat)

  const FRESH := Memory({}, None, 0.0, 0)

  function Min(a: real, b: real): real {
    if a <= b then a else b
  }

  function Max(a: real, b: real): real {
    if a <= b then b else a
  }

  function Pow2(n: nat): (p: real)
    ensures p >= 1.0
  {
    if n == 0 then 1.0 else 2.0 * Pow2(n - 1)
  }

  /** The delay after the k-th failure in a row. */
  function Backoff(k: nat): real
    requires k > 0
  {
    Min(BASE_BACKOFF * Pow2(k - 1), MAX_BACKOFF)
  }

  /** The same, one failure after the other: half a minute first, then twice as long each
      time, up to ten minutes. */
  function Spacing(k: nat): real
    requires k > 0
  {
    if k == 1 then 30.0 else Min(2.0 * Spacing(k - 1), 600.0)
  }

  lemma {:induction false} BackoffIsSpacing(k: nat)
    requires k > 0
    ensures Backoff(k) == Spacing(k) && 30.0 <= Spacing(k) <= 600.0
  {
    if k > 1 { BackoffIsSpacing(k - 1); }
  }

  predicate Stale(retrigger: real, m: Memory, now: real) {
    m.lastTriggerAt.None? || now - m.lastTriggerAt.value >= retrigger
  }

  /** What a step does with the listing, before it calls anyone. */
  datatype Decision = Rest | Wait(delay: real) | Trigger

  function Decide(retrigger: real, m: Memory, now: real, uids: set<Uid>): Decision {
    if uids == {} || (uids <= m.notified && !Stale(retrigger, m, now)) then Rest
    else if now < m.notBefore then Wait(m.notBefore - now)
    else Trigger
  }

  /** The step raises, which ends the session: there is no answer but an exception, or the
      backoff overflows. */
  predicate Breaks(m: Memory, r: Option<TriggerResult>) {
    r.None? || (!r.value.ok && !r.value.busy && m.failures + 1 > LAST_PACED_FAILURE)
  }

  /** What is remembered when the forwarder has answered, and the delay that is returned.
      Where the backoff overflows, the failure is counted and nothing is put off. */
  function Answered(m: Memory, now: real, uids: set<Uid>, r: Option<TriggerResult>): (Memory, Option<real>) {
    if r.None? then (m, None)
    else if r.value.ok && r.value.remaining > 0 then (Memory(uids, None, now, 0), Some(SHORT_DELAY))
    else if r.value.ok then (Memory(uids, Some(now), now, 0), None)
    else if r.value.busy then (m.(notBefore := now + BUSY_DELAY), Some(BUSY_DELAY))
    else
      var k := m.failures + 1;
      if k > LAST_PACED_FAILURE then (m.(failures := k), None)
      else (m.(failures := k, notBefore := now + Backoff(k)), Some(Backoff(k)))
  }

  /** The memory, less what has left INBOX. */
  function Less(m: Memory, uids: set<Uid>): Memory {
    m.(notified := m.notified * uids)
  }

  function Step(
    retrigger: real, m0: Memory, now: real, uids: set<Uid>, r: Option<TriggerResult>): (Memory, Option<real>)
  {
    var m := Less(m0, uids);
    match Decide(retrigger, m, now, uids)
    case Rest => (m, None)
    case Wait(delay) => (m, Some(delay))
    case Trigger => Answered(m, now, uids, r)
  }

  // ---- Traces ---------------------------------------------------------------------------

  /** One step: its clock reading, the listing, the time the listing was there, what the
      forwarder would answer, and the time the step returned. */
  datatype Ev = Ev(now: real, uids: set<Uid>, start: real, answer: Option<TriggerResult>, end: real) {
    predicate Ok() {
      answer.Some? && answer.value.ok
    }

    predicate Busy() {
      answer.Some? && !answer.value.ok && answer.value.busy
    }

    predicate Failed() {
      answer.Some? && !answer.value.ok && !answer.value.busy
    }

    predicate LeftNothing() {
      Ok() && answer.value.remaining <= 0
    }
  }

  function At(retrigger: real, evs: seq<Ev>, n: nat): Memory
    requires n <= |evs|
  {
    if n == 0 then FRESH
    else Step(retrigger, At(retrigger, evs, n - 1), evs[n - 1].now, evs[n - 1].uids, evs[n - 1].answer).0
  }

  /** What step `n` works with. */
  function Before(retrigger: real, evs: seq<Ev>, n: nat): Memory
    requires n < |evs|
  {
    Less(At(retrigger, evs, n), evs[n].uids)
  }

  function DecisionAt(retrigger: real, evs: seq<Ev>, n: nat): Decision
    requires n < |evs|
  {
    Decide(retrigger, Before(retrigger, evs, n), evs[n].now, evs[n].uids)
  }

  function DelayAt(retrigger: real, evs: seq<Ev>, n: nat): Option<real>
    requires n < |evs|
  {
    Step(retrigger, At(retrigger, evs, n), evs[n].now, evs[n].uids, evs[n].answer).1
  }

  predicate Triggers(retrigger: real, evs: seq<Ev>, n: nat)
    requires n < |evs|
  {
    DecisionAt(retrigger, evs, n).Trigger?
  }

  predicate Succeeds(retrigger: real, evs: seq<Ev>, n: nat)
    requires n < |evs|
  {
    Triggers(retrigger, evs, n) && evs[n].Ok()
  }

  predicate FailsAt(retrigger: real, evs: seq<Ev>, n: nat)
    requires n < |evs|
  {
    Triggers(retrigger, evs, n) && evs[n].Failed()
  }

  ghost predicate Monotone(evs: seq<Ev>) {
    && (forall i :: 0 <= i < |evs| ==> 0.0 <= evs[i].now)
    && forall i, j :: 0 <= i <= j < |evs| ==> evs[i].now <= evs[j].now
  }

  /** Later steps do not change what was remembered before. */
  lemma {:induction false} AtPrefix(retrigger: real, evs: seq<Ev>, more: seq<Ev>, n: nat)
    requires n <= |evs| && evs <= more
    ensures At(retrigger, more, n) == At(retrigger, evs, n)
    ensures n < |evs| ==>
      && DecisionAt(retrigger, more, n) == DecisionAt(retrigger, evs, n)
      && DelayAt(retrigger, more, n) == DelayAt(retrigger, evs, n)
  {
    if n > 0 { AtPrefix(retrigger, evs, more, n - 1); }
  }

  // ---- What is remembered ------------------------------------------------------------------

  /** The UIDs that were in INBOX at every step from `i` to `n`. */
  predicate Throughout(evs: seq<Ev>, i: nat, n: nat, u: Uid)
    requires i <= n <= |evs|
  {
    forall k :: i <= k < n ==> u in evs[k].uids
  }

  /** No step between succeeds in triggering. */
  predicate NoSuccess(retrigger: real, evs: seq<Ev>, i: nat, n: nat)
    requires i <= n <= |evs|
  {
    forall k :: i <= k < n ==> !Succeeds(retrigger, evs, k)
  }

  lemma {:induction false} RememberedBefore(retrigger: real, evs: seq<Ev>, n: nat)
    requires n <= |evs| && NoSuccess(retrigger, evs, 0, n)
    ensures At(retrigger, evs, n).notified == {} && At(retrigger, evs, n).lastTriggerAt == None
  {
    if n > 0 {
      RememberedBefore(retrigger, evs, n - 1);
      assert !Succeeds(retrigger, evs, n - 1);
    }
  }

  lemma {:induction false} RememberedAfter(retrigger: real, evs: seq<Ev>, i: nat, n: nat, u: Uid)
    requires i < n <= |evs| && Succeeds(retrigger, evs, i) && NoSuccess(retrigger, evs, i + 1, n)
    ensures u in At(retrigger, evs, n).notified <==> Throughout(evs, i, n, u)
    ensures At(retrigger, evs, n).lastTriggerAt == if evs[i].LeftNothing() then Some(evs[i].now) else None
  {
    if i + 1 < n {
      RememberedAfter(retrigger, evs, i, n - 1, u);
      assert !Succeeds(retrigger, evs, n - 1);
      assert Throughout(evs, i, n, u) <==> Throughout(evs, i, n - 1, u) && u in evs[n - 1].uids;
    } else {
      assert Throughout(evs, i, n, u) <==> u in evs[i].uids;
    }
  }

  lemma {:induction false} LastSuccess(retrigger: real, evs: seq<Ev>, n: nat) returns (i: nat)
    requires n <= |evs| && !NoSuccess(retrigger, evs, 0, n)
    ensures i < n && Succeeds(retrigger, evs, i) && NoSuccess(retrigger, evs, i + 1, n)
  {
    if Succeeds(retrigger, evs, n - 1) {
      i := n - 1;
    } else {
      i := LastSuccess(retrigger, evs, n - 1);
    }
  }

  /** Exactly what the watcher takes as reported: the messages that were in INBOX at the
      last successful trigger and at every step since. */
  lemma NotifiedHistory(retrigger: real, evs: seq<Ev>, n: nat, u: Uid)
    requires n <= |evs|
    ensures u in At(retrigger, evs, n).notified <==>
      exists i: nat ::
        i < n && Succeeds(retrigger, evs, i) && NoSuccess(retrigger, evs, i + 1, n) && Throughout(evs, i, n, u)
  {
    if NoSuccess(retrigger, evs, 0, n) {
      RememberedBefore(retrigger, evs, n);
    } else {
      var i := LastSuccess(retrigger, evs, n);
      RememberedAfter(retrigger, evs, i, n, u);
      forall k: nat | k < n && Succeeds(retrigger, evs, k) && NoSuccess(retrigger, evs, k + 1, n) ensures k == i { }
    }
  }

  /** When the clock may next be read for a trigger. */
  lemma {:induction false} NotBeforeBound(retrigger: real, evs: seq<Ev>, n: nat)
    requires n <= |evs| && Monotone(evs)
    ensures At(retrigger, evs, n).notBefore <= if n == 0 then 0.0 else evs[n - 1].now + 600.0
  {
    if n > 0 {
      NotBeforeBound(retrigger, evs, n - 1);
    }
  }

  /** Paced: every delay a step returns is positive and at most ten minutes. */
  lemma DelaysAreSane(retrigger: real, evs: seq<Ev>, n: nat)
    requires n < |evs| && Monotone(evs) && DelayAt(retrigger, evs, n).Some?
    ensures 0.0 < DelayAt(retrigger, evs, n).value <= 600.0
  {
    NotBeforeBound(retrigger, evs, n);
    BackoffIsSpacing(At(retrigger, evs, n).failures + 1);
  }

  /** New mail is never passed over: a message that was not in INBOX at the last successful
      trigger and at every step since makes the step trigger, or wait ten minutes at most. */
  lemma NewMailIsActedOn(retrigger: real, evs: seq<Ev>, n: nat, u: Uid)
    requires n < |evs| && Monotone(evs) && u in evs[n].uids
    requires forall i: nat :: i < n && Succeeds(retrigger, evs, i) && NoSuccess(retrigger, evs, i + 1, n)
               ==> !Throughout(evs, i, n, u)
    ensures Triggers(retrigger, evs, n)
         || (DelayAt(retrigger, evs, n).Some? && 0.0 < DelayAt(retrigger, evs, n).value <= 600.0)
  {
    NotifiedHistory(retrigger, evs, n, u);
    if !Triggers(retrigger, evs, n) { DelaysAreSane(retrigger, evs, n); }
  }

  // ---- How far apart triggers are ---------------------------------------------------------------

  predicate Quiet(retrigger: real, evs: seq<Ev>, i: nat, n: nat)
    requires i <= n <= |evs|
  {
    forall k :: i <= k < n ==> !Triggers(retrigger, evs, k)
  }

  /** Between triggers only the set of reported messages changes. */
  lemma {:induction false} QuietKeeps(retrigger: real, evs: seq<Ev>, i: nat, n: nat)
    requires i <= n <= |evs| && Quiet(retrigger, evs, i, n)
    ensures var m, m' := At(retrigger, evs, i), At(retrigger, evs, n);
      m'.lastTriggerAt == m.lastTriggerAt && m'.notBefore == m.notBefore && m'.failures == m.failures
  {
    if i < n {
      QuietKeeps(retrigger, evs, i, n - 1);
      assert !Triggers(retrigger, evs, n - 1);
    }
  }

  /** The failures in a row before step `n`: those since the last success. */
  function FailuresBefore(retrigger: real, evs: seq<Ev>, n: nat): nat
    requires n <= |evs|
  {
    if n == 0 || Succeeds(retrigger, evs, n - 1) then 0
    else FailuresBefore(retrigger, evs, n - 1) + if FailsAt(retrigger, evs, n - 1) then 1 else 0
  }

  lemma {:induction false} FailuresCounted(retrigger: real, evs: seq<Ev>, n: nat)
    requires n <= |evs|
    ensures At(retrigger, evs, n).failures == FailuresBefore(retrigger, evs, n)
  {
    if n > 0 { FailuresCounted(retrigger, evs, n - 1); }
  }

  /** How long the watcher keeps off the forwarder after the trigger at step `i`. */
  function Pause(retrigger: real, evs: seq<Ev>, i: nat): real
    requires i < |evs|
  {
    if evs[i].Busy() then 20.0
    else if evs[i].Failed() then Spacing(FailuresBefore(retrigger, evs, i) + 1)
    else 0.0
  }

  /** Step `j` is the next to trigger after step `i`. */
  ghost predicate NextTrigger(retrigger: real, evs: seq<Ev>, i: nat, j: nat) {
    && i < j < |evs| && Monotone(evs)
    && Triggers(retrigger, evs, i) && Quiet(retrigger, evs, i + 1, j) && Triggers(retrigger, evs, j)
  }

  /** Spacing: the next trigger comes at least 20 s after one that found the forwarder busy,
      at least min(30 * 2^(k-1), 600) s after the k-th failure since the last success, up to
      the 1024th; and after a success that left nothing, at least the retrigger interval
      later, unless some message now in INBOX was not there then or at some step since. */
  lemma TriggerSpacing(retrigger: real, evs: seq<Ev>, i: nat, j: nat)
    requires NextTrigger(retrigger, evs, i, j)
    ensures (evs[i].Failed() ==> FailuresBefore(retrigger, evs, i) + 1 <= 1024) ==>
      evs[j].now >= evs[i].now + Pause(retrigger, evs, i)
    ensures evs[i].LeftNothing() ==>
      evs[j].now >= evs[i].now + retrigger || exists u :: u in evs[j].uids && !Throughout(evs, i, j, u)
  {
    FailuresCounted(retrigger, evs, i);
    QuietKeeps(retrigger, evs, i + 1, j);
    BackoffIsSpacing(FailuresBefore(retrigger, evs, i) + 1);
    if evs[i].LeftNothing() && evs[j].now < evs[i].now + retrigger {
      assert NoSuccess(retrigger, evs, i + 1, j) by {
        forall k | i + 1 <= k < j ensures !Succeeds(retrigger, evs, k) { assert !Triggers(retrigger, evs, k); }
      }
      var u :| u in evs[j].uids && u !in Before(retrigger, evs, j).notified;
      RememberedAfter(retrigger, evs, i, j, u);
    }
  }

  // ---- The overflow -------------------------------------------------------------------------

  /** Whatever happens, the trigger after the k-th failure in a row is put off as intended. */
  ghost predicate SpacedAfter(k: nat)
    requires k > 0
  {
    forall retrigger: real, evs: seq<Ev>, i: nat, j: nat ::
      NextTrigger(retrigger, evs, i, j) && FailsAt(retrigger, evs, i) && FailuresBefore(retrigger, evs, i) + 1 == k
      ==> evs[j].now >= evs[i].now + Spacing(k)
  }

  const REFUSED := TriggerResult(false, false, 0)

  /** An outage: `k` failures, ten minutes apart, and a step five seconds after the last. */
  function Outage(k: nat): (evs: seq<Ev>)
    requires k > 0
    ensures |evs| == k + 1
  {
    seq(k + 1, (n: int) requires 0 <= n <= k =>
      var now := if n < k then 600.0 * n as real else 600.0 * (k - 1) as real + 5.0;
      Ev(now, {1}, now, Some(REFUSED), now))
  }

  lemma {:induction false} OutageMemory(retrigger: real, k: nat, n: nat)
    requires 0 < k && n <= k
    ensures var m := At(retrigger, Outage(k), n);
      && m.lastTriggerAt == None && m.failures == n
      && m.notBefore <= 600.0 * n as real && m.notBefore <= 614400.0
    ensures n < k || n > 1024 ==> Triggers(retrigger, Outage(k), n)
  {
    if n > 0 {
      OutageMemory(retrigger, k, n - 1);
      BackoffIsSpacing(n);
    }
  }

  lemma OutageTimes(k: nat)
    requires k > 1024
    ensures var evs := Outage(k); Monotone(evs) && evs[k].now == evs[k - 1].now + 5.0 < evs[k - 1].now + Spacing(k)
  {
    BackoffIsSpacing(k);
  }

  lemma OutageTriggersEarly(retrigger: real, k: nat)
    requires k > 1024
    ensures var evs := Outage(k);
      && NextTrigger(retrigger, evs, k - 1, k) && FailsAt(retrigger, evs, k - 1)
      && FailuresBefore(retrigger, evs, k - 1) + 1 == k
      && evs[k].now == evs[k - 1].now + 5.0 < evs[k - 1].now + Spacing(k)
  {
    OutageMemory(retrigger, k, k - 1);
    OutageMemory(retrigger, k, k);
    FailuresCounted(retrigger, Outage(k), k - 1);
    OutageTimes(k);
  }

  /** The backoff after the k-th failure in a row holds, whatever happens, exactly up to the
      1024th.  After a later one the step raises before it has put anything off, and a new
      session may trigger at once. */
  lemma SpacingAfterFailures(k: nat)
    requires k > 0
    ensures SpacedAfter(k) <==> k <= 1024
  {
    if k <= 1024 {
      forall retrigger: real, evs: seq<Ev>, i: nat, j: nat |
        NextTrigger(retrigger, evs, i, j) && FailsAt(retrigger, evs, i) && FailuresBefore(retrigger, evs, i) + 1 == k
        ensures evs[j].now >= evs[i].now + Spacing(k)
      {
        TriggerSpacing(retrigger, evs, i, j);
      }
    } else {
      OutageTriggersEarly(0.0, k);
    }
  }

  // ---- How far apart they can be -------------------------------------------------------------------

  /** Bounds on what blocks: `listing` and `trigger` calls, `idle` for IDLE or the poll
      interval, and by how much a sleep may be too long. */
  datatype Bounds = Bounds(listing: real, trigger: real, idle: real, oversleep: real) {
    predicate Valid() {
      listing >= 0.0 && trigger >= 0.0 && idle >= 0.0 && oversleep >= 0.0
    }
  }

  predicate ListedInTime(b: Bounds, evs: seq<Ev>, i: nat)
    requires i < |evs|
  {
    0.0 <= evs[i].start - evs[i].now <= b.listing
  }

  /** If the step triggered, it was answered in time, and returned. */
  predicate Replied(b: Bounds, retrigger: real, evs: seq<Ev>, i: nat)
    requires i < |evs|
  {
    && 0.0 <= evs[i].end - evs[i].start <= (if Triggers(retrigger, evs, i) then b.trigger else 0.0)
    && (Triggers(retrigger, evs, i) ==> !Breaks(Before(retrigger, evs, i), evs[i].answer))
  }

  /** Time from the end of one step to the start of the next in the same session. */
  predicate Rested(b: Bounds, delay: Option<real>, gap: real) {
    if delay.Some? then delay.value <= gap <= delay.value + b.oversleep else 0.0 <= gap <= b.idle
  }

  /** The session went on from step `i` to the next. */
  predicate Linked(b: Bounds, retrigger: real, evs: seq<Ev>, i: nat)
    requires i + 1 < |evs|
  {
    Replied(b, retrigger, evs, i) && Rested(b, DelayAt(retrigger, evs, i), evs[i + 1].now - evs[i].end)
  }

  /** From step `i` to step `j` one session was up, with mail in INBOX at every step. */
  ghost predicate Timed(b: Bounds, retrigger: real, evs: seq<Ev>, i: nat, j: nat)
    requires j < |evs|
  {
    && Monotone(evs) && b.Valid()
    && (forall k :: i <= k <= j ==> ListedInTime(b, evs, k) && evs[k].uids != {})
    && (forall k :: i <= k < j ==> Linked(b, retrigger, evs, k))
  }

  /** A delay is long enough: after it, no step of the session has to wait again. */
  lemma SleepIsEnough(b: Bounds, retrigger: real, evs: seq<Ev>, i: nat)
    requires i + 1 < |evs| && Timed(b, retrigger, evs, i, i + 1) && DelayAt(retrigger, evs, i).Some?
    ensures !DecisionAt(retrigger, evs, i + 1).Wait?
  {
    assert Linked(b, retrigger, evs, i) && ListedInTime(b, evs, i);
  }

  /** Work left over is taken up soon: if the forwarder reports messages remaining and
      INBOX still has some, the next step of the session triggers again, 5 s later. */
  lemma RemainingIsTakenUp(b: Bounds, retrigger: real, evs: seq<Ev>, i: nat)
    requires i + 1 < |evs| && Timed(b, retrigger, evs, i, i + 1)
    requires Succeeds(retrigger, evs, i) && evs[i].answer.value.remaining > 0
    ensures Triggers(retrigger, evs, i + 1)
    ensures 5.0 <= evs[i + 1].now - evs[i].end <= 5.0 + b.oversleep
  {
    assert Linked(b, retrigger, evs, i) && ListedInTime(b, evs, i);
  }

  function GapBound(b: Bounds, retrigger: real): real {
    b.listing + Max(retrigger + b.idle, b.trigger + Max(b.idle, 600.0 + b.oversleep))
  }

  lemma AfterTrigger(b: Bounds, retrigger: real, evs: seq<Ev>, i: nat)
    requires i + 1 < |evs| && Timed(b, retrigger, evs, i, i + 1) && Triggers(retrigger, evs, i)
    ensures evs[i + 1].now <= evs[i].start + b.trigger + Max(b.idle, 600.0 + b.oversleep)
    ensures At(retrigger, evs, i + 1).notBefore <= evs[i + 1].now
  {
    assert Linked(b, retrigger, evs, i);
    BackoffIsSpacing(At(retrigger, evs, i).failures + 1);
    assert At(retrigger, evs, i + 1) == Answered(Before(retrigger, evs, i), evs[i].now, evs[i].uids, evs[i].answer).0;
  }

  lemma {:induction false} LastTriggerBound(retrigger: real, evs: seq<Ev>, n: nat)
    requires n <= |evs| && Monotone(evs)
    ensures var last := At(retrigger, evs, n).lastTriggerAt; last.Some? ==> n > 0 && last.value <= evs[n - 1].now
  {
    if n > 0 { LastTriggerBound(retrigger, evs, n - 1); }
  }

  /** A step that neither triggers nor waits comes before the retrigger interval is over. */
  lemma RestsEarly(b: Bounds, retrigger: real, evs: seq<Ev>, i: nat, k: nat)
    requires i < k < |evs| && Timed(b, retrigger, evs, i, k) && Triggers(retrigger, evs, i)
    requires Quiet(retrigger, evs, i + 1, k + 1)
    ensures DecisionAt(retrigger, evs, k).Rest? && evs[k].now < evs[i].now + retrigger
  {
    AfterTrigger(b, retrigger, evs, i);
    QuietKeeps(retrigger, evs, i + 1, k);
    LastTriggerBound(retrigger, evs, i + 1);
    assert !Triggers(retrigger, evs, k) && evs[k].uids != {};
    assert evs[i + 1].now <= evs[k].now;
  }

  /** Bounded gap: while a session stays up and INBOX is not empty, no step reads the clock
      more than `GapBound` after the step of the last trigger, so neither does the step of
      the next one.  The requests themselves may be one listing time further apart. */
  lemma BoundedGap(b: Bounds, retrigger: real, evs: seq<Ev>, i: nat, j: nat)
    requires i < j < |evs| && Timed(b, retrigger, evs, i, j)
    requires Triggers(retrigger, evs, i) && Quiet(retrigger, evs, i + 1, j)
    ensures evs[j].now - evs[i].now <= GapBound(b, retrigger)
    ensures evs[j].start - evs[i].start <=
      b.listing + Max(b.listing + retrigger + b.idle, b.trigger + Max(b.idle, 600.0 + b.oversleep))
  {
    assert ListedInTime(b, evs, i) && ListedInTime(b, evs, j);
    if j == i + 1 {
      AfterTrigger(b, retrigger, evs, i);
    } else {
      RestsEarly(b, retrigger, evs, i, j - 1);
      assert ListedInTime(b, evs, j - 1) && Linked(b, retrigger, evs, j - 1);
    }
  }

  // ---- The requests themselves -----------------------------------------------------------------

  /** Steps `i` and `j` trigger and none between them, in a session with mail in INBOX. */
  ghost predicate Consecutive(b: Bounds, retrigger: real, evs: seq<Ev>, i: nat, j: nat) {
    && i < j < |evs| && Timed(b, retrigger, evs, i, j)
    && Triggers(retrigger, evs, i) && Quiet(retrigger, evs, i + 1, j) && Triggers(retrigger, evs, j)
  }

  /** The requests, too, are never further apart than `GapBound`. */
  ghost predicate RequestsBounded(b: Bounds, retrigger: real) {
    forall evs: seq<Ev>, i: nat, j: nat ::
      Consecutive(b, retrigger, evs, i, j) ==> evs[j].start - evs[i].start <= GapBound(b, retrigger)
  }

  /** What can be read off the settings: listings take no time, every step triggers anyway,
      or a trigger and the pause after it can last longer than the retrigger interval, one
      rest and one listing. */
  predicate RoomForListing(b: Bounds, retrigger: real) {
    || b.listing == 0.0 || retrigger <= 0.0
    || b.listing + retrigger + b.idle <= b.trigger + Max(b.idle, 600.0 + b.oversleep)
  }

  lemma RequestGap(b: Bounds, retrigger: real, evs: seq<Ev>, i: nat, j: nat)
    requires RoomForListing(b, retrigger) && Consecutive(b, retrigger, evs, i, j)
    ensures evs[j].start - evs[i].start <= GapBound(b, retrigger)
  {
    BoundedGap(b, retrigger, evs, i, j);
    assert ListedInTime(b, evs, i) && ListedInTime(b, evs, j);
    if j == i + 1 {
      AfterTrigger(b, retrigger, evs, i);
    } else {
      RestsEarly(b, retrigger, evs, i, j - 1);
    }
  }

  const DELIVERED := TriggerResult(true, false, 0)

  /** How far `m` steps of length `d` get, on the way to `total`. */
  function Walk(d: real, m: nat): real {
    if m == 0 then 0.0 else Walk(d, m - 1) + d
  }

  function Position(d: real, total: real, m: nat): real {
    Min(Walk(d, m), total)
  }

  lemma {:induction false} WalkArrives(d: real, total: real) returns (n: nat)
    requires d > 0.0 && total > 0.0
    ensures Position(d, total, n) == total
  {
    n := (total / d).Floor + 1;
    WalkIsProduct(d, n);
    assert d * n as real >= d * (total / d) == total;
  }

  lemma {:induction false} WalkIsProduct(d: real, n: nat)
    ensures Walk(d, n) == d * n as real
  {
    if n > 0 { WalkIsProduct(d, n - 1); }
  }

  lemma {:induction false} PositionRange(d: real, total: real, m: nat)
    requires d >= 0.0 && total >= 0.0
    ensures 0.0 <= Walk(d, m)
    ensures 0.0 <= Position(d, total, m) <= Position(d, total, m + 1) <= total
    ensures Position(d, total, m + 1) - Position(d, total, m) <= d
  {
    if m > 0 { PositionRange(d, total, m - 1); }
    assert Walk(d, m + 1) == Walk(d, m) + d;
  }

  /** A trigger, `n` steps whose listings together take up to `total`, one more step with a
      listing as slow as can be, a full rest, and a trigger after another such listing. */
  function Stretched(b: Bounds, total: real, n: nat): (evs: seq<Ev>)
    ensures |evs| == n + 3
  {
    seq(n + 3, (m: int) requires 0 <= m < n + 3 => StretchedStep(b, total, n, m))
  }

  function StretchedStep(b: Bounds, total: real, n: nat, m: nat): Ev {
    var (now, start) :=
      if m == 0 then (0.0, 0.0)
      else if m <= n then (Position(b.listing, total, m - 1), Position(b.listing, total, m))
      else if m == n + 1 then (total, total + b.listing)
      else (total + b.listing + b.idle, total + b.listing + b.idle + b.listing);
    Ev(now, {1}, start, Some(DELIVERED), start)
  }

  lemma {:induction false} StretchedMemory(b: Bounds, retrigger: real, total: real, n: nat, m: nat)
    requires b.Valid() && 0.0 <= total < retrigger && 0 < m <= n + 2
    ensures At(retrigger, Stretched(b, total, n), m) == Memory({1}, Some(0.0), 0.0, 0)
    ensures m <= n + 1 ==> DecisionAt(retrigger, Stretched(b, total, n), m) == Rest
  {
    var evs := Stretched(b, total, n);
    assert {1} * {1} == {1};
    if m == 1 {
      assert At(retrigger, evs, 0) == FRESH && evs[0] == StretchedStep(b, total, n, 0);
      assert At(retrigger, evs, 1) == Memory({1}, Some(0.0), 0.0, 0);
    } else {
      StretchedMemory(b, retrigger, total, n, m - 1);
    }
    if m <= n + 1 {
      PositionRange(b.listing, total, m - 1);
      assert evs[m] == StretchedStep(b, total, n, m) && evs[m].now < retrigger;
    }
  }

  lemma StretchedStepTimed(b: Bounds, total: real, n: nat, m: nat)
    requires b.Valid() && 0.0 <= total && m < n + 2 && Position(b.listing, total, n) == total
    ensures var e, e' := StretchedStep(b, total, n, m), StretchedStep(b, total, n, m + 1);
      && 0.0 <= e.now <= e.start == e.end <= e'.now <= e'.start && 0.0 <= e'.now - e.end <= b.idle
      && e.start - e.now <= b.listing && e'.start - e'.now <= b.listing
  {
    PositionRange(b.listing, total, m);
    if m > 0 { PositionRange(b.listing, total, m - 1); }
  }

  lemma StretchedTimes(b: Bounds, retrigger: real, total: real, n: nat)
    requires b.Valid() && 0.0 <= total < retrigger && Position(b.listing, total, n) == total
    ensures Timed(b, retrigger, Stretched(b, total, n), 0, n + 2)
  {
    var evs := Stretched(b, total, n);
    forall k | 0 <= k <= n + 2 ensures ListedInTime(b, evs, k) && 0.0 <= evs[k].now && evs[k].uids != {} {
      if k > 0 { StretchedStepTimed(b, total, n, k - 1); } else { StretchedStepTimed(b, total, n, k); }
    }
    forall k | 0 <= k < n + 2 ensures Linked(b, retrigger, evs, k) && evs[k].now <= evs[k + 1].now {
      StretchedStepTimed(b, total, n, k);
      if k > 0 { StretchedMemory(b, retrigger, total, n, k); }
    }
    forall i, j | 0 <= i <= j < |evs| ensures evs[i].now <= evs[j].now { Sorted(evs, i, j); }
  }

  lemma {:induction false} Sorted(evs: seq<Ev>, i: nat, j: nat)
    requires forall k :: 0 <= k < |evs| - 1 ==> evs[k].now <= evs[k + 1].now
    requires i <= j < |evs|
    ensures evs[i].now <= evs[j].now
  {
    if i < j { Sorted(evs, i, j - 1); }
  }

  lemma StretchedTriggers(b: Bounds, retrigger: real, total: real, n: nat)
    requires b.Valid() && Position(b.listing, total, n) == total
    requires 0.0 <= total < retrigger <= total + b.listing + b.idle
    ensures Consecutive(b, retrigger, Stretched(b, total, n), 0, n + 2)
  {
    var evs := Stretched(b, total, n);
    StretchedTimes(b, retrigger, total, n);
    assert At(retrigger, evs, 0) == FRESH && Triggers(retrigger, evs, 0);
    StretchedMemory(b, retrigger, total, n, n + 2);
    forall k | 1 <= k < n + 2 ensures !Triggers(retrigger, evs, k) { StretchedMemory(b, retrigger, total, n, k); }
  }

  /** Where there is no room, requests can be further apart than that. */
  lemma RequestsApart(b: Bounds, retrigger: real) returns (evs: seq<Ev>, j: nat)
    requires b.Valid() && !RoomForListing(b, retrigger)
    ensures Consecutive(b, retrigger, evs, 0, j) && evs[j].start - evs[0].start > GapBound(b, retrigger)
  {
    var excess := b.listing + retrigger + b.idle - (b.trigger + Max(b.idle, 600.0 + b.oversleep));
    var short := Min(Min(b.listing, retrigger), excess) / 2.0;
    var n := WalkArrives(b.listing, retrigger - short);
    StretchedTriggers(b, retrigger, retrigger - short, n);
    evs, j := Stretched(b, retrigger - short, n), n + 2;
  }

  /** The bound on the gap between steps bounds the gap between the requests themselves,
      whatever happens, exactly when the settings leave room for one more listing. */
  lemma RequestsBoundedIff(b: Bounds, retrigger: real)
    requires b.Valid()
    ensures RequestsBounded(b, retrigger) <==> RoomForListing(b, retrigger)
  {
    if RoomForListing(b, retrigger) {
      forall evs: seq<Ev>, i: nat, j: nat | Consecutive(b, retrigger, evs, i, j)
        ensures evs[j].start - evs[i].start <= GapBound(b, retrigger)
      {
        RequestGap(b, retrigger, evs, i, j);
      }
    } else {
      var evs, j := RequestsApart(b, retrigger);
    }
  }
}
