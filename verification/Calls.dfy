/** What the log of the watcher says of its calls of the forwarder: how close together they
    can be, how far apart, and what mail they are made for. */
module Calls {
  import opened Mail
  import opened Watch
  import opened Daemon

  predicate Succeeded(life: Life, n: nat) {
    IsCall(life, n) && !OpAt(life, n).raised && life.answers(n).ok
  }

  predicate Failed(life: Life, n: nat) {
    IsCall(life, n) && !OpAt(life, n).raised && !life.answers(n).ok && !life.answers(n).busy
  }

  predicate FoundBusy(life: Life, n: nat) {
    IsCall(life, n) && !OpAt(life, n).raised && !life.answers(n).ok && life.answers(n).busy
  }

  // ---- What is taken as reported ------------------------------------------------------------

  /** The message was in every listing that returned from operation `m` on. */
  predicate ListedSince(life: Life, m: nat, n: nat, u: Uid) {
    forall k :: m <= k < n && IsStep(life, k) ==> u in life.listings(k)
  }

  /** Some message in listing `n` was missing from a listing from operation `m` on. */
  ghost predicate MissedSince(life: Life, m: nat, n: nat) {
    exists u: Uid :: u in life.listings(n) && !ListedSince(life, m, n, u)
  }

  /** The last successful call in the first `n` operations. */
  function LastSuccess(life: Life, n: nat): Option<nat> {
    if n == 0 then None else if Succeeded(life, n - 1) then Some(n - 1) else LastSuccess(life, n - 1)
  }

  lemma {:induction false} LastSuccessIs(life: Life, n: nat)
    ensures var i := LastSuccess(life, n);
      && (i.Some? ==> i.value < n && Succeeded(life, i.value))
      && forall k :: (if i.Some? then i.value + 1 else 0) <= k < n ==> !Succeeded(life, k)
  {
    if n > 0 { LastSuccessIs(life, n - 1); }
  }

  predicate Reported(life: Life, n: nat, u: Uid) {
    var i := LastSuccess(life, n);
    i.Some? && i.value > 0 && ListedSince(life, i.value - 1, n, u)
  }

  lemma {:induction false} ReportedStep(life: Life, n: nat, u: Uid)
    requires life.Valid() && (u in life.states(n).memory.notified <==> Reported(life, n, u))
    ensures u in life.states(n + 1).memory.notified <==> Reported(life, n + 1, u)
  {
    assert Goes(life, n);
    LastSuccessIs(life, n);
    if IsCall(life, n) { CallFollowsStep(life, n); }
    if Succeeded(life, n) {
      assert ListedSince(life, n - 1, n + 1, u) <==> u in life.listings(n - 1);
    } else if LastSuccess(life, n).Some? {
      var i := LastSuccess(life, n).value;
      if i > 0 {
        assert ListedSince(life, i - 1, n + 1, u) <==>
          ListedSince(life, i - 1, n, u) && (IsStep(life, n) ==> u in life.listings(n));
      }
    }
  }

  /** Exactly what the watcher takes as reported: the messages in the listing the last
      successful call was made for and in every listing that returned since. */
  lemma {:induction false} ReportedHistory(life: Life, n: nat, u: Uid)
    requires life.Valid()
    ensures u in life.states(n).memory.notified <==> Reported(life, n, u)
  {
    if n > 0 {
      ReportedHistory(life, n - 1, u);
      ReportedStep(life, n - 1, u);
    }
  }

  /** New mail is never passed over: a listing with a message that is not reported is
      followed by a call, or by a sleep of at most ten minutes. */
  lemma NewMailIsCalledFor(life: Life, m: nat, u: Uid)
    requires life.Valid() && IsStep(life, m) && u in life.listings(m) && !Reported(life, m, u)
    ensures IsCall(life, m + 1)
         || (OpAt(life, m + 1).kind.Sleeping? && 0.0 < OpAt(life, m + 1).kind.delay <= 600.0)
  {
    ReportedHistory(life, m, u);
    assert Goes(life, m);
    if !IsCall(life, m + 1) {
      StepsMonotone(life, m + 1);
      DelayIs(life, m);
      DelaysAreSane(life.settings.retrigger, Steps(life, m + 1), |Steps(life, m)|);
    }
  }

  // ---- How far apart calls are --------------------------------------------------------------

  /** The failed calls since the last successful one. */
  function FailedCalls(life: Life, n: nat): nat {
    if n == 0 || Succeeded(life, n - 1) then 0
    else FailedCalls(life, n - 1) + if Failed(life, n - 1) then 1 else 0
  }

  lemma {:induction false} FailuresAreCounted(life: Life, n: nat)
    requires life.Valid()
    ensures life.states(n).memory.failures == FailedCalls(life, n)
  {
    if n > 0 {
      FailuresAreCounted(life, n - 1);
      assert Goes(life, n - 1);
    }
  }

  // ---- What follows a call ------------------------------------------------------------------

  /** The process rests without a delay. */
  predicate Rests(op: Op) {
    op.kind.Idling? || op.kind.Polling?
  }

  lemma FailureSleeps(life: Life, i: nat)
    requires life.Valid() && Failed(life, i) && FailedCalls(life, i) < 1024
    ensures OpAt(life, i + 1).kind == Sleeping(Spacing(FailedCalls(life, i) + 1))
  {
    assert Goes(life, i);
    FailuresAreCounted(life, i);
    BackoffIsSpacing(FailedCalls(life, i) + 1);
  }

  /** What the process does when the forwarder has answered: it sleeps for 5 s if there is
      work left and rests if there is none, sleeps for 20 s if the forwarder was busy, and for
      30 s if this is the first call to fail since one succeeded.  The 1025th failure in a
      row ends the session. */
  lemma AnswerIsFollowed(life: Life, i: nat)
    requires life.Valid() && IsCall(life, i) && !OpAt(life, i).raised
    ensures life.answers(i).ok && life.answers(i).remaining > 0 ==> OpAt(life, i + 1).kind == Sleeping(5.0)
    ensures life.answers(i).ok && life.answers(i).remaining <= 0 ==> Rests(OpAt(life, i + 1))
    ensures FoundBusy(life, i) ==> OpAt(life, i + 1).kind == Sleeping(20.0)
    ensures Failed(life, i) && FailedCalls(life, i) == 0 ==> OpAt(life, i + 1).kind == Sleeping(30.0)
    ensures Failed(life, i) && FailedCalls(life, i) >= 1024 ==> OpAt(life, i + 1).kind.ClosingSession?
  {
    assert Goes(life, i);
    FailuresAreCounted(life, i);
    if Failed(life, i) && FailedCalls(life, i) == 0 { FailureSleeps(life, i); }
  }

  /** Call `j` fails, and is the next to fail or succeed after call `i`, which failed. */
  ghost predicate FailsAgain(life: Life, i: nat, j: nat) {
    i < j && Failed(life, i) && Failed(life, j) && forall k :: i < k < j ==> !Failed(life, k) && !Succeeded(life, k)
  }

  lemma {:induction false} FailsOnceMore(life: Life, i: nat, j: nat)
    requires i < j && Failed(life, i) && forall k :: i < k < j ==> !Failed(life, k) && !Succeeded(life, k)
    ensures FailedCalls(life, j) == FailedCalls(life, i) + 1
    decreases j
  {
    if i < j - 1 { FailsOnceMore(life, i, j - 1); }
  }

  /** After another failure it sleeps twice as long as after the one before, or ten minutes. */
  lemma SleepDoubles(life: Life, i: nat, j: nat)
    requires life.Valid() && FailsAgain(life, i, j) && FailedCalls(life, j) < 1024
    ensures OpAt(life, i + 1).kind.Sleeping? && OpAt(life, j + 1).kind.Sleeping?
    ensures OpAt(life, j + 1).kind.delay == Min(2.0 * OpAt(life, i + 1).kind.delay, 600.0)
  {
    FailsOnceMore(life, i, j);
    FailureSleeps(life, i);
    FailureSleeps(life, j);
  }

  // ---- When there is a call -----------------------------------------------------------------

  /** Until when calls are put off: by what the log says of the last call that did. */
  function PutOffUntil(life: Life, n: nat): real {
    if n < 2 then 0.0
    else if Succeeded(life, n - 1) then OpAt(life, n - 2).at
    else if FoundBusy(life, n - 1) then OpAt(life, n - 2).at + 20.0
    else if Failed(life, n - 1) && OpAt(life, n).kind.Sleeping? then OpAt(life, n - 2).at + OpAt(life, n).kind.delay
    else PutOffUntil(life, n - 1)
  }

  lemma {:induction false} PutOffStep(life: Life, n: nat)
    requires life.Valid() && life.states(n).memory.notBefore == PutOffUntil(life, n)
    ensures life.states(n + 1).memory.notBefore == PutOffUntil(life, n + 1)
  {
    assert Goes(life, n);
    if IsCall(life, n) { CallFollowsStep(life, n); }
  }

  lemma {:induction false} PutOffIs(life: Life, n: nat)
    requires life.Valid()
    ensures life.states(n).memory.notBefore == PutOffUntil(life, n)
  {
    if n > 0 {
      PutOffIs(life, n - 1);
      PutOffStep(life, n - 1);
    }
  }

  /** It is time to call again for mail already reported: no call has succeeded yet, the last
      one that did reported work left, or was made for a listing too long ago. */
  predicate Due(life: Life, m: nat) {
    var i := LastSuccess(life, m);
    || i.None? || i.value == 0 || life.answers(i.value).remaining > 0
    || OpAt(life, m).at - OpAt(life, i.value - 1).at >= life.settings.retrigger
  }

  lemma {:induction false} LastTriggerIs(life: Life, n: nat)
    requires life.Valid()
    ensures life.states(n).memory.lastTriggerAt == var i := LastSuccess(life, n);
      if i.None? || i.value == 0 || life.answers(i.value).remaining > 0 then None
      else Some(OpAt(life, i.value - 1).at)
  {
    if n > 0 {
      LastTriggerIs(life, n - 1);
      assert Goes(life, n - 1);
      if IsCall(life, n - 1) { CallFollowsStep(life, n - 1); }
    }
  }

  /** The listing calls for the forwarder: there is mail, and some of it is not reported or it
      is time to call again. */
  ghost predicate CallsFor(life: Life, m: nat) {
    life.listings(m) != {} && (Due(life, m) || exists u: Uid :: u in life.listings(m) && !Reported(life, m, u))
  }

  /** Exactly what the process does with a listing: it calls the forwarder if the listing calls
      for that and calls are not put off, sleeps until then if they are, and rests otherwise. */
  lemma CallIff(life: Life, m: nat)
    requires life.Valid() && IsStep(life, m)
    ensures IsCall(life, m + 1) <==> CallsFor(life, m) && OpAt(life, m).at >= PutOffUntil(life, m)
    ensures CallsFor(life, m) && OpAt(life, m).at < PutOffUntil(life, m) ==>
      OpAt(life, m + 1).kind == Sleeping(PutOffUntil(life, m) - OpAt(life, m).at)
    ensures !CallsFor(life, m) ==> Rests(OpAt(life, m + 1))
  {
    assert Goes(life, m);
    PutOffIs(life, m);
    LastTriggerIs(life, m);
    UnreportedIs(life, m);
  }

  lemma UnreportedIs(life: Life, m: nat)
    requires life.Valid()
    ensures (exists u: Uid :: u in life.listings(m) && !Reported(life, m, u)) <==>
      !(life.listings(m) <= life.states(m).memory.notified * life.listings(m))
  {
    var uids := life.listings(m);
    forall u: Uid ensures Reported(life, m, u) <==> u in life.states(m).memory.notified { ReportedHistory(life, m, u); }
  }

  lemma StepOrder(life: Life, k: nat, m: nat)
    requires IsStep(life, k) && IsStep(life, m)
    ensures |Steps(life, k)| < |Steps(life, m)| <==> k < m
  {
    if k < m { StepIs(life, k, m); } else { StepsGrow(life, m, k); }
  }

  /** `j` is the next call after call `i`. */
  ghost predicate NextCall(life: Life, i: nat, j: nat) {
    i < j && IsCall(life, i) && IsCall(life, j) && forall k :: i < k < j ==> !IsCall(life, k)
  }

  lemma NoTriggerBetween(life: Life, i: nat, m: nat, k: nat)
    requires life.Valid() && 0 < i < m && IsStep(life, i - 1) && IsStep(life, m)
    requires forall q :: i < q <= m ==> !IsCall(life, q)
    requires |Steps(life, i - 1)| < k < |Steps(life, m)| < |Steps(life, m + 1)|
    ensures !Triggers(life.settings.retrigger, Steps(life, m + 1), k)
  {
    var p := StepComes(life, m + 1, k);
    StepOrder(life, i - 1, p);
    StepOrder(life, p, m);
    CallsAreTriggers(life, p, m + 1);
  }

  lemma StepsOfTwo(life: Life, k: nat, m: nat)
    requires k < m && IsStep(life, k) && IsStep(life, m)
    ensures |Steps(life, k)| < |Steps(life, m)| < |Steps(life, m + 1)|
    ensures Steps(life, m + 1)[|Steps(life, k)|] == EvAt(life, k)
    ensures Steps(life, m + 1)[|Steps(life, m)|] == EvAt(life, m)
  {
    StepIs(life, k, m + 1);
    StepIs(life, m, m + 1);
    StepOrder(life, k, m);
  }

  lemma QuietBetween(life: Life, i: nat, m: nat)
    requires life.Valid() && 0 < i < m && IsStep(life, i - 1) && IsStep(life, m)
    requires forall q :: i < q <= m ==> !IsCall(life, q)
    requires |Steps(life, i - 1)| < |Steps(life, m)| < |Steps(life, m + 1)|
    ensures Quiet(life.settings.retrigger, Steps(life, m + 1), |Steps(life, i - 1)| + 1, |Steps(life, m)|)
  {
    var r, evs := life.settings.retrigger, Steps(life, m + 1);
    forall k | |Steps(life, i - 1)| + 1 <= k < |Steps(life, m)| ensures !Triggers(r, evs, k) {
      NoTriggerBetween(life, i, m, k);
    }
  }

  /** Calls in the log are triggers of the trace. */
  lemma {:induction false} CallsInTrace(life: Life, i: nat, m: nat)
    requires life.Valid() && IsCall(life, i) && i < m && IsStep(life, m) && forall k :: i < k <= m ==> !IsCall(life, k)
    ensures i > 0 && IsStep(life, i - 1) && |Steps(life, i - 1)| < |Steps(life, m)| < |Steps(life, m + 1)|
    ensures var r, evs := life.settings.retrigger, Steps(life, m + 1);
      && evs[|Steps(life, i - 1)|] == EvAt(life, i - 1) && evs[|Steps(life, m)|] == EvAt(life, m)
      && Triggers(r, evs, |Steps(life, i - 1)|) && Quiet(r, evs, |Steps(life, i - 1)| + 1, |Steps(life, m)|)
      && (Triggers(r, evs, |Steps(life, m)|) <==> IsCall(life, m + 1))
  {
    CallFollowsStep(life, i);
    assert !IsCall(life, m);
    StepsOfTwo(life, i - 1, m);
    CallsAreTriggers(life, i - 1, m + 1);
    CallsAreTriggers(life, m, m + 1);
    QuietBetween(life, i, m);
  }

  /** Spacing: the next call is made for a step at least 20 s after the one that found the
      forwarder busy, at least as long after one that failed as the process slept for that,
      up to the 1024th in a row; and after a success that left nothing, at least the
      retrigger interval later, unless a message now listed was missing then or since. */
  lemma CallSpacing(life: Life, i: nat, j: nat)
    requires life.Valid() && NextCall(life, i, j)
    ensures i > 0 && IsStep(life, i - 1) && IsStep(life, j - 1)
    ensures FoundBusy(life, i) ==> OpAt(life, j - 1).at >= OpAt(life, i - 1).at + 20.0
    ensures Failed(life, i) && FailedCalls(life, i) < 1024 ==>
      OpAt(life, i + 1).kind.Sleeping? && OpAt(life, j - 1).at >= OpAt(life, i - 1).at + OpAt(life, i + 1).kind.delay
    ensures Succeeded(life, i) && life.answers(i).remaining <= 0 ==>
      || OpAt(life, j - 1).at >= OpAt(life, i - 1).at + life.settings.retrigger
      || MissedSince(life, i - 1, j - 1)
  {
    CallFollowsStep(life, j);
    CallsInTrace(life, i, j - 1);
    FailuresAt(life, i, j);
    if Failed(life, i) && FailedCalls(life, i) < 1024 { FailureSleeps(life, i); }
    SpacingInTrace(life, i, j, Steps(life, j), |Steps(life, i - 1)|, |Steps(life, j - 1)|);
  }

  /** ... as a statement about the two steps of the trace. */
  lemma SpacingInTrace(life: Life, i: nat, j: nat, evs: seq<Ev>, k: nat, m: nat)
    requires life.Valid() && 0 < i < j && evs == Steps(life, j)
    requires k == |Steps(life, i - 1)| && m == |Steps(life, j - 1)| && k < m < |evs|
    requires evs[k] == EvAt(life, i - 1) && evs[m] == EvAt(life, j - 1) && IsCall(life, i)
    requires IsStep(life, i - 1) && IsStep(life, j - 1)
    requires var r := life.settings.retrigger;
      Triggers(r, evs, k) && Quiet(r, evs, k + 1, m) && Triggers(r, evs, m)
    requires FailuresBefore(life.settings.retrigger, evs, k) == FailedCalls(life, i)
    ensures FoundBusy(life, i) ==> OpAt(life, j - 1).at >= OpAt(life, i - 1).at + 20.0
    ensures Failed(life, i) && FailedCalls(life, i) < 1024 ==>
      OpAt(life, j - 1).at >= OpAt(life, i - 1).at + Spacing(FailedCalls(life, i) + 1)
    ensures Succeeded(life, i) && life.answers(i).remaining <= 0 ==>
      OpAt(life, j - 1).at >= OpAt(life, i - 1).at + life.settings.retrigger || MissedSince(life, i - 1, j - 1)
  {
    StepsMonotone(life, j);
    TriggerSpacing(life.settings.retrigger, evs, k, m);
    if u :| u in evs[m].uids && !Throughout(evs, k, m, u) { MissedInTrace(life, i - 1, j - 1, evs, k, m, u); }
  }

  lemma MissedInTrace(life: Life, i: nat, j: nat, evs: seq<Ev>, k: nat, m: nat, u: Uid)
    requires i < j && IsStep(life, i) && IsStep(life, j) && evs == Steps(life, j + 1)
    requires k == |Steps(life, i)| && m == |Steps(life, j)| && k < m < |evs| && evs[m] == EvAt(life, j)
    requires u in evs[m].uids && !Throughout(evs, k, m, u)
    ensures MissedSince(life, i, j)
  {
    var p: nat :| k <= p < m && u !in evs[p].uids;
    var q := StepComes(life, j + 1, p);
    StepIs(life, q, j + 1);
    StepOrder(life, q, j);
    StepOrder(life, q, i);
    assert !ListedSince(life, i, j, u);
  }

  lemma FailuresInTrace(life: Life, m: nat)
    requires life.Valid() && IsStep(life, m)
    ensures FailuresBefore(life.settings.retrigger, Steps(life, m), |Steps(life, m)|) == FailedCalls(life, m)
  {
    AlwaysRemembers(life, m);
    FailuresAreCounted(life, m);
    FailuresCounted(life.settings.retrigger, Steps(life, m), |Steps(life, m)|);
  }

  lemma {:induction false} FailuresPrefix(retrigger: real, evs: seq<Ev>, more: seq<Ev>, n: nat)
    requires n <= |evs| && evs <= more
    ensures FailuresBefore(retrigger, more, n) == FailuresBefore(retrigger, evs, n)
  {
    AtPrefix(retrigger, evs, more, n);
    FailuresCounted(retrigger, evs, n);
    FailuresCounted(retrigger, more, n);
  }

  lemma FailuresAt(life: Life, i: nat, n: nat)
    requires life.Valid() && IsCall(life, i) && i <= n
    ensures i > 0 && |Steps(life, i - 1)| <= |Steps(life, n)|
    ensures FailuresBefore(life.settings.retrigger, Steps(life, n), |Steps(life, i - 1)|) == FailedCalls(life, i)
  {
    CallFollowsStep(life, i);
    FailuresInTrace(life, i - 1);
    StepsGrow(life, i - 1, n);
    FailuresPrefix(life.settings.retrigger, Steps(life, i - 1), Steps(life, n), |Steps(life, i - 1)|);
    assert FailedCalls(life, i) == FailedCalls(life, i - 1);
  }

  // ---- How far apart they can be ----------------------------------------------------------------

  /** The operation took no longer than the bounds say, and no sleep was cut short. */
  predicate Prompt(b: Bounds, op: Op) {
    match op.kind
    case ListingInbox => op.takes <= b.listing
    case CallingForwarder => op.takes <= b.trigger
    case Sleeping(delay) => delay <= op.takes <= delay + b.oversleep
    case Idling => op.takes <= b.idle
    case Polling => op.takes <= b.idle
    case _ => true
  }

  /** The session is up, the operation is prompt, and if it is a listing it finds mail. */
  predicate RunsOn(b: Bounds, life: Life, k: nat) {
    !Reconnects(life, k) && Prompt(b, OpAt(life, k)) && (IsStep(life, k) ==> life.listings(k) != {})
  }

  predicate Reconnects(life: Life, k: nat) {
    OpAt(life, k).kind.Connecting?
  }

  ghost predicate Running(b: Bounds, life: Life, m: nat, n: nat) {
    forall k :: m <= k <= n ==> RunsOn(b, life, k)
  }

  ghost predicate Connected(life: Life, m: nat, n: nat) {
    forall k :: m <= k <= n ==> !Reconnects(life, k)
  }

  /** Nothing raises inside a session. */
  lemma NothingRaised(life: Life, m: nat, n: nat, k: nat)
    requires life.Valid() && Connected(life, m, n) && IsStep(life, n) && m <= k < n
    ensures !OpAt(life, k).raised && !OpAt(life, k + 1).kind.BackingOff? && !OpAt(life, k + 1).kind.ClosingSession?
  {
    assert (k + 2 <= n ==> !Reconnects(life, k + 2)) && (k + 3 <= n ==> !Reconnects(life, k + 3));
    EndsAreBackedOff(life, k);
    if k + 1 < n { EndsAreBackedOff(life, k + 1); }
    if k + 2 < n { EndsAreBackedOff(life, k + 2); }
  }

  /** In a session, a step is followed by its call, if it makes one, by its rest, and by the
      next listing. */
  lemma SessionGoesOn(life: Life, m: nat, n: nat)
    requires life.Valid() && IsStep(life, m) && m < n && IsStep(life, n) && Connected(life, m, n)
    ensures var c := RestOf(life, m);
      life.states(c).phase.AtRest? && !OpAt(life, c).raised && c + 1 <= n && IsStep(life, c + 1)
    ensures IsCall(life, m + 1) ==>
      !OpAt(life, m + 1).raised && !Breaks(life.states(m + 1).memory, Some(life.answers(m + 1)))
  {
    assert Goes(life, m) && Goes(life, m + 1) && Goes(life, m + 2);
    NothingRaised(life, m, n, m);
    if IsCall(life, m + 1) { NothingRaised(life, m, n, m + 1); }
    var c := RestOf(life, m);
    NothingRaised(life, m, n, c);
    if c + 1 < n { NothingRaised(life, m, n, c + 1); }
  }

  lemma NextStepIs(life: Life, m: nat)
    requires IsStep(life, m) && life.states(RestOf(life, m)).phase.AtRest?
    ensures |Steps(life, RestOf(life, m) + 1)| == |Steps(life, m)| + 1
  {
    var c := RestOf(life, m);
    assert !IsStep(life, c);
    assert Steps(life, c + 1) == Steps(life, c);
    if IsCall(life, m + 1) { assert Steps(life, m + 2) == Steps(life, m + 1); }
  }

  /** The times of a step and of what follows it, by the operations. */
  lemma StepTimes(b: Bounds, life: Life, m: nat)
    requires life.Valid() && IsStep(life, m) && Prompt(b, OpAt(life, m))
    ensures var e := EvAt(life, m); 0.0 <= e.start - e.now <= b.listing
  {
    assert Goes(life, m);
  }

  lemma ReplyTimes(b: Bounds, life: Life, m: nat)
    requires life.Valid() && IsStep(life, m) && Prompt(b, OpAt(life, m + 1))
    ensures var e := EvAt(life, m);
      && 0.0 <= e.end - e.start <= (if IsCall(life, m + 1) then b.trigger else 0.0)
      && e.end == life.states(RestOf(life, m)).now
  {
    assert Goes(life, m + 1);
  }

  lemma RestTimes(b: Bounds, life: Life, c: nat)
    requires life.Valid() && life.states(c).phase.AtRest? && !OpAt(life, c).raised && Prompt(b, OpAt(life, c))
    ensures Rested(b, life.states(c).phase.delay, life.states(c + 1).now - life.states(c).now)
  {
    assert Goes(life, c);
  }

  /** The step went through: it called and was answered, if it triggered, and then rested. */
  predicate Completes(life: Life, m: nat) {
    && IsStep(life, m) && life.states(RestOf(life, m)).phase.AtRest?
    && (IsCall(life, m + 1) ==>
      !OpAt(life, m + 1).raised && !Breaks(life.states(m + 1).memory, Some(life.answers(m + 1))))
  }

  /** The delay, the decision and the answer of the trace are those of the process. */
  lemma DelayInTrace(life: Life, m: nat, n: nat)
    requires life.Valid() && Completes(life, m) && m < n
    ensures |Steps(life, m)| < |Steps(life, n)|
    ensures
      DelayAt(life.settings.retrigger, Steps(life, n), |Steps(life, m)|) == life.states(RestOf(life, m)).phase.delay
  {
    DelayIs(life, m);
    StepsGrow(life, m + 1, n);
    AtPrefix(life.settings.retrigger, Steps(life, m + 1), Steps(life, n), |Steps(life, m)|);
  }

  lemma AnswerInTrace(life: Life, m: nat, n: nat)
    requires life.Valid() && Completes(life, m) && IsCall(life, m + 1) && m < n
    ensures |Steps(life, m)| < |Steps(life, n)|
    ensures !Breaks(Before(life.settings.retrigger, Steps(life, n), |Steps(life, m)|),
      Steps(life, n)[|Steps(life, m)|].answer)
  {
    StepIs(life, m, n);
    StepsGrow(life, m + 1, n);
    AtPrefix(life.settings.retrigger, Steps(life, m + 1), Steps(life, n), |Steps(life, m)|);
    AlwaysRemembers(life, m + 1);
  }

  lemma StepReplied(b: Bounds, life: Life, m: nat, n: nat)
    requires life.Valid() && Completes(life, m) && m < n && Prompt(b, OpAt(life, m + 1))
    ensures |Steps(life, m)| < |Steps(life, n)| && Replied(b, life.settings.retrigger, Steps(life, n), |Steps(life, m)|)
  {
    StepIs(life, m, n);
    CallsAreTriggers(life, m, n);
    ReplyTimes(b, life, m);
    if IsCall(life, m + 1) { AnswerInTrace(life, m, n); }
  }

  lemma StepRested(b: Bounds, life: Life, m: nat, n: nat)
    requires life.Valid() && Completes(life, m)
    requires !OpAt(life, RestOf(life, m)).raised && Prompt(b, OpAt(life, RestOf(life, m)))
    requires IsStep(life, RestOf(life, m) + 1) && RestOf(life, m) + 1 < n
    ensures |Steps(life, m)| + 1 < |Steps(life, n)|
    ensures var r, evs, k := life.settings.retrigger, Steps(life, n), |Steps(life, m)|;
      Rested(b, DelayAt(r, evs, k), evs[k + 1].now - evs[k].end)
  {
    var c := RestOf(life, m);
    NextStepIs(life, m);
    StepIs(life, m, n);
    StepIs(life, c + 1, n);
    DelayInTrace(life, m, n);
    RestTimes(b, life, c);
    EndOfStep(life, m);
  }

  lemma EndOfStep(life: Life, m: nat)
    ensures EvAt(life, m).end == life.states(RestOf(life, m)).now
  {
  }

  /** Inside a running session each step is linked to the next. */
  lemma StepLinked(b: Bounds, life: Life, m: nat, n: nat)
    requires life.Valid() && IsStep(life, m) && m < n && IsStep(life, n) && Running(b, life, m, n)
    ensures |Steps(life, m)| + 1 < |Steps(life, n + 1)|
    ensures Linked(b, life.settings.retrigger, Steps(life, n + 1), |Steps(life, m)|)
  {
    forall k | m <= k <= n ensures !Reconnects(life, k) { assert RunsOn(b, life, k); }
    SessionGoesOn(life, m, n);
    var c := RestOf(life, m);
    assert RunsOn(b, life, m + 1) && RunsOn(b, life, c);
    StepReplied(b, life, m, n + 1);
    StepRested(b, life, m, n + 1);
  }

  /** A running session is a timed trace. */
  lemma SessionIsTimed(b: Bounds, life: Life, m: nat, n: nat)
    requires life.Valid() && b.Valid() && IsStep(life, m) && m < n && IsStep(life, n) && Running(b, life, m, n)
    ensures |Steps(life, m)| < |Steps(life, n)| < |Steps(life, n + 1)|
    ensures Timed(b, life.settings.retrigger, Steps(life, n + 1), |Steps(life, m)|, |Steps(life, n)|)
  {
    var evs := Steps(life, n + 1);
    StepOrder(life, m, n);
    StepIs(life, n, n + 1);
    StepsMonotone(life, n + 1);
    forall k | |Steps(life, m)| <= k <= |Steps(life, n)|
      ensures ListedInTime(b, evs, k) && evs[k].uids != {}
    {
      StepListed(b, life, m, n, k);
    }
    forall k | |Steps(life, m)| <= k < |Steps(life, n)| ensures Linked(b, life.settings.retrigger, evs, k) {
      StepGoesOn(b, life, m, n, k);
    }
  }

  lemma StepWithin(life: Life, m: nat, n: nat, k: nat) returns (p: nat)
    requires IsStep(life, m) && m <= n && IsStep(life, n)
    requires |Steps(life, m)| <= k <= |Steps(life, n)| < |Steps(life, n + 1)|
    ensures m <= p <= n && IsStep(life, p) && |Steps(life, p)| == k && (p < n <==> k < |Steps(life, n)|)
  {
    p := StepComes(life, n + 1, k);
    StepOrder(life, p, m);
    StepOrder(life, p, n);
  }

  lemma StepListed(b: Bounds, life: Life, m: nat, n: nat, k: nat)
    requires life.Valid() && IsStep(life, m) && m < n && IsStep(life, n) && Running(b, life, m, n)
    requires |Steps(life, m)| <= k <= |Steps(life, n)| < |Steps(life, n + 1)|
    ensures ListedInTime(b, Steps(life, n + 1), k) && Steps(life, n + 1)[k].uids != {}
  {
    var p := StepWithin(life, m, n, k);
    assert RunsOn(b, life, p);
    StepIs(life, p, n + 1);
    StepTimes(b, life, p);
  }

  lemma StepGoesOn(b: Bounds, life: Life, m: nat, n: nat, k: nat)
    requires life.Valid() && IsStep(life, m) && m < n && IsStep(life, n) && Running(b, life, m, n)
    requires |Steps(life, m)| <= k < |Steps(life, n)| < |Steps(life, n + 1)|
    ensures k + 1 < |Steps(life, n + 1)| && Linked(b, life.settings.retrigger, Steps(life, n + 1), k)
  {
    var p := StepWithin(life, m, n, k);
    StepLinked(b, life, p, n);
  }

  /** Bounded gap: while a session runs with mail in INBOX, no listing starts more than
      L + max(R + W, T + max(W, 600)) after the listing of the last call, so neither does
      that of the next call.  The calls themselves keep to that bound if the settings leave
      room for one more listing, and are one listing further apart at most if not. */
  lemma CallGap(b: Bounds, life: Life, i: nat, n: nat)
    requires life.Valid() && b.Valid() && IsCall(life, i) && i < n && IsStep(life, n)
    requires (forall k :: i < k <= n ==> !IsCall(life, k)) && Running(b, life, i - 1, n)
    ensures var r := life.settings.retrigger;
      && OpAt(life, n).at - OpAt(life, i - 1).at <= GapBound(b, r)
      && (IsCall(life, n + 1) && RoomForListing(b, r) ==> OpAt(life, n + 1).at - OpAt(life, i).at <= GapBound(b, r))
      && OpAt(life, n + 1).at - OpAt(life, i).at <=
           b.listing + Max(b.listing + r + b.idle, b.trigger + Max(b.idle, 600.0 + b.oversleep))
  {
    var r, evs, k, m := life.settings.retrigger, Steps(life, n + 1), |Steps(life, i - 1)|, |Steps(life, n)|;
    CallsInTrace(life, i, n);
    SessionIsTimed(b, life, i - 1, n);
    BoundedGap(b, r, evs, k, m);
    if IsCall(life, n + 1) && RoomForListing(b, r) { RequestGap(b, r, evs, k, m); }
  }
}
