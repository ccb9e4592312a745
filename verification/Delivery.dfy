/** The watcher and the forwarder together: how long mail can take from INBOX to Gmail. */
module Delivery {
  import opened Mail
  import opened Run
  import opened Recovery
  import opened Sorting
  import opened Daemon
  import opened Calls
  import Watch

  /** A watcher, and the mailbox as each of its operations finds it.  Call number k of the
      forwarder is a run under the clock `overs(k)`; Gmail's answers are fixed. */
  datatype Pair = Pair(
    life: Life, opts: Run.Options, accepts: Uid -> bool, overs: nat -> (nat -> bool), boxes: nat -> Mailbox)

  /** The run that call `k` starts. */
  ghost function RunOf(d: Pair, k: nat): (Mailbox, Control) {
    Final(Ideal(World(d.accepts, d.overs(k))), d.opts, 0, d.boxes(k), Control.Connecting)
  }

  /** Operation `k`: a listing shows what is listed, a call is a run that handles at least
      one message if there is any, and nothing else touches the mailbox. */
  ghost predicate Works(d: Pair, k: nat) {
    && (IsStep(d.life, k) ==> d.life.listings(k) == ListedUids(d.boxes(k)))
    && d.boxes(k + 1) == (if IsCall(d.life, k) then RunOf(d, k).0 else d.boxes(k))
    && (IsCall(d.life, k) && ListedUids(d.boxes(k)) != {} ==> RunOf(d, k).1.res.remaining < |ListedUids(d.boxes(k))|)
  }

  ghost predicate WorksFrom(d: Pair, m: nat, n: nat) {
    forall k :: m <= k <= n ==> Works(d, k)
  }

  lemma SuffixListed(s: set<Uid>, s': set<Uid>, all: seq<Uid>, left: seq<Uid>)
    requires SuffixOf(left, all) && (forall u :: u in all <==> u in s) && forall u :: u in left <==> u in s'
    ensures s' <= s
  {
    forall u | u in s' ensures u in s {
      var i :| 0 <= i < |left| && left[i] == u;
      assert all[|all| - |left| + i] == u;
    }
  }

  ghost predicate Leaves(w: World, opts: Run.Options, b: Mailbox, b': Mailbox, k: nat) {
    ListedUids(b') <= ListedUids(b) && |ListedUids(b')| == k && Drained(w, opts, b') == Drained(w, opts, b)
  }

  lemma DoneLeft(w: World, opts: Run.Options, b: Mailbox, c: Control, all: seq<Uid>, left: seq<Uid>)
    requires c.Done? && OnCourse(w, opts, b, c, all, left)
    ensures SuffixOf(left, all) && Ascends(all) && Covers(b, {}, left) && c.res.remaining == |left|
  {
  }

  lemma Listing(b: Mailbox, all: seq<Uid>)
    requires all == Ascending(ListedUids(b))
    ensures |all| == |ListedUids(b)| && forall u :: u in all <==> u in ListedUids(b)
  {
    AscendingMembers(ListedUids(b));
  }

  lemma EndLeaves(
    w: World, opts: Run.Options, b: Mailbox, b': Mailbox, c: Control, all: seq<Uid>, left: seq<Uid>)
    requires c.Done? && all == Ascending(ListedUids(b)) && OnCourse(w, opts, b', c, all, left)
    requires Drained(w, opts, b') == Drained(w, opts, b)
    ensures Leaves(w, opts, b, b', c.res.remaining)
  {
    DoneLeft(w, opts, b', c, all, left);
    TailListed(b', all, left);
    Listing(b, all);
    Listing(b', left);
    SuffixListed(ListedUids(b), ListedUids(b'), all, left);
  }

  /** One run leaves as many of the listed messages as it reports. */
  lemma RunLeaves(w: World, opts: Run.Options, b: Mailbox)
    ensures var (b', c) := Final(Ideal(w), opts, 0, b, Control.Connecting);
      Leaves(w, opts, b, b', c.res.remaining)
  {
    var all := Ascending(ListedUids(b));
    StartsOnCourse(w, opts, b);
    var left := FinalOnCourse(w, opts, 0, b, Control.Connecting, all, all);
    var f := Final(Ideal(w), opts, 0, b, Control.Connecting);
    EndLeaves(w, opts, b, f.0, f.1, all, left);
  }

  /** ... so it leaves less to do, and the same end in sight. */
  lemma RunHelps(d: Pair, k: nat, w: World)
    requires IsCall(d.life, k) && Works(d, k) && w.accepts == d.accepts
    ensures ListedUids(d.boxes(k + 1)) <= ListedUids(d.boxes(k))
    ensures ListedUids(d.boxes(k)) != {} ==> |ListedUids(d.boxes(k + 1))| < |ListedUids(d.boxes(k))|
    ensures Drained(w, d.opts, d.boxes(k + 1)) == Drained(w, d.opts, d.boxes(k))
  {
    var w' := World(d.accepts, d.overs(k));
    RunLeaves(w', d.opts, d.boxes(k));
    SameAccepts(w, w', d.opts, d.boxes(k));
    SameAccepts(w, w', d.opts, d.boxes(k + 1));
  }

  /** From one mailbox to the other nothing is listed anew, and the end stays the same. */
  ghost predicate Helped(w: World, opts: Run.Options, b: Mailbox, b': Mailbox) {
    ListedUids(b') <= ListedUids(b) && Drained(w, opts, b') == Drained(w, opts, b)
  }

  lemma HelpedOn(w: World, opts: Run.Options, b: Mailbox, b': Mailbox, b'': Mailbox)
    requires Helped(w, opts, b, b') && Helped(w, opts, b', b'')
    ensures Helped(w, opts, b, b'')
  {
  }

  lemma OperationHelps(d: Pair, k: nat, w: World)
    requires Works(d, k) && w.accepts == d.accepts
    ensures Helped(w, d.opts, d.boxes(k), d.boxes(k + 1))
  {
    if IsCall(d.life, k) { RunHelps(d, k, w); }
  }

  /** The same over any number of operations. */
  lemma {:induction false} RunsHelp(d: Pair, m: nat, n: nat, w: World)
    requires m <= n && WorksFrom(d, m, n) && w.accepts == d.accepts
    ensures Helped(w, d.opts, d.boxes(m), d.boxes(n))
    decreases n
  {
    if m < n {
      RunsHelp(d, m, n - 1, w);
      OperationHelps(d, n - 1, w);
      HelpedOn(w, d.opts, d.boxes(m), d.boxes(n - 1), d.boxes(n));
    }
  }

  function Gap(b: Watch.Bounds, d: Pair): real {
    Watch.GapBound(b, d.life.settings.retrigger)
  }

  /** How much is left to deliver. */
  ghost function Left(d: Pair, k: nat): nat {
    |ListedUids(d.boxes(k))|
  }

  /** Operation `k` leaves as much, or if it is a call, less. */
  ghost predicate Falls(d: Pair, k: nat) {
    if IsCall(d.life, k) then Left(d, k + 1) < Left(d, k) else Left(d, k + 1) == Left(d, k)
  }

  /** A call in a running session finds something listed, and leaves less. */
  lemma WorkFalls(b: Watch.Bounds, d: Pair, k: nat, w: World)
    requires d.life.Valid() && k > 0 && RunsOn(b, d.life, k - 1) && Works(d, k - 1) && Works(d, k)
    requires w.accepts == d.accepts
    ensures Falls(d, k)
  {
    if IsCall(d.life, k) {
      CallFollowsStep(d.life, k);
      RunHelps(d, k, w);
    }
  }

  ghost predicate NoCalls(life: Life, i: nat, m: nat) {
    forall q :: i < q <= m ==> !IsCall(life, q)
  }

  /** `last` is the last call up to operation `m`, and the k-th from call `i` on: each came
      within the gap, and after each one message less is listed. */
  ghost predicate Progress(b: Watch.Bounds, d: Pair, i: nat, m: nat, last: nat, k: nat) {
    && 0 < i <= last <= m && IsCall(d.life, last) && NoCalls(d.life, last, m) && k > 0
    && OpAt(d.life, last - 1).at - OpAt(d.life, i - 1).at <= Watch.Walk(Gap(b, d), k - 1)
    && Left(d, m + 1) + k <= Left(d, i)
  }

  /** A step after the last call is within the gap of it. */
  lemma StepWithinGap(b: Watch.Bounds, d: Pair, i: nat, m: nat, last: nat, k: nat)
    requires d.life.Valid() && b.Valid() && Progress(b, d, i, m, last, k) && IsStep(d.life, m)
    requires Running(b, d.life, i - 1, m)
    ensures OpAt(d.life, m).at - OpAt(d.life, i - 1).at <= Watch.Walk(Gap(b, d), k)
  {
    StepIsNoCall(d.life, m);
    forall q | last - 1 <= q <= m ensures RunsOn(b, d.life, q) { }
    CallGap(b, d.life, last, m);
  }

  lemma StepIsNoCall(life: Life, k: nat)
    ensures !(IsStep(life, k) && IsCall(life, k))
  {
  }

  lemma ProgressGoesOn(b: Watch.Bounds, d: Pair, i: nat, m: nat, last: nat, k: nat) returns (last': nat, k': nat)
    requires d.life.Valid() && b.Valid() && Progress(b, d, i, m, last, k) && Running(b, d.life, i - 1, m)
    requires Falls(d, m + 1)
    ensures Progress(b, d, i, m + 1, last', k')
  {
    last', k' := last, k;
    if IsCall(d.life, m + 1) {
      last', k' := m + 1, k + 1;
      CallInGap(b, d, i, m, last, k);
      CallCounts(b, d, i, m, last, k);
    } else {
      NoCallKeeps(b, d, i, m, last, k);
    }
  }

  lemma CallInGap(b: Watch.Bounds, d: Pair, i: nat, m: nat, last: nat, k: nat)
    requires d.life.Valid() && b.Valid() && Progress(b, d, i, m, last, k) && Running(b, d.life, i - 1, m)
    requires IsCall(d.life, m + 1)
    ensures OpAt(d.life, m).at - OpAt(d.life, i - 1).at <= Watch.Walk(Gap(b, d), k)
  {
    CallFollowsStep(d.life, m + 1);
    StepWithinGap(b, d, i, m, last, k);
  }

  lemma NoCallKeeps(b: Watch.Bounds, d: Pair, i: nat, m: nat, last: nat, k: nat)
    requires Progress(b, d, i, m, last, k) && !IsCall(d.life, m + 1) && Falls(d, m + 1)
    ensures Progress(b, d, i, m + 1, last, k)
  {
  }

  lemma CallCounts(b: Watch.Bounds, d: Pair, i: nat, m: nat, last: nat, k: nat)
    requires Progress(b, d, i, m, last, k) && IsCall(d.life, m + 1) && Falls(d, m + 1)
    requires OpAt(d.life, m).at - OpAt(d.life, i - 1).at <= Watch.Walk(Gap(b, d), k)
    ensures Progress(b, d, i, m + 1, m + 1, k + 1)
  {
  }

  ghost predicate FallsFrom(d: Pair, m: nat, n: nat) {
    forall k :: m <= k <= n ==> Falls(d, k)
  }

  lemma FirstCall(b: Watch.Bounds, d: Pair, i: nat)
    requires 0 < i && IsCall(d.life, i) && Falls(d, i)
    ensures Progress(b, d, i, i, i, 1)
  {
    assert Watch.Walk(Gap(b, d), 0) == 0.0;
  }

  lemma ProgressWithin(b: Watch.Bounds, d: Pair, i: nat, m: nat, n: nat, last: nat, k: nat)
    returns (last': nat, k': nat)
    requires d.life.Valid() && b.Valid() && Progress(b, d, i, m, last, k) && m < n
    requires Running(b, d.life, i - 1, n) && FallsFrom(d, i, n)
    ensures Progress(b, d, i, m + 1, last', k')
  {
    assert Falls(d, m + 1);
    last', k' := ProgressGoesOn(b, d, i, m, last, k);
  }

  /** In a running session calls make progress. */
  lemma CallsProgress(b: Watch.Bounds, d: Pair, i: nat, n: nat) returns (last: nat, k: nat)
    requires d.life.Valid() && b.Valid() && 0 < i <= n && IsCall(d.life, i)
    requires Running(b, d.life, i - 1, n) && FallsFrom(d, i, n)
    ensures Progress(b, d, i, n, last, k)
  {
    assert Falls(d, i);
    FirstCall(b, d, i);
    last, k := i, 1;
    for m := i to n
      invariant Progress(b, d, i, m, last, k)
    {
      last, k := ProgressWithin(b, d, i, m, n, last, k);
    }
  }

  /** The session is up and its operations are prompt. */
  predicate Healthy(b: Watch.Bounds, life: Life, k: nat) {
    !Reconnects(life, k) && Prompt(b, OpAt(life, k))
  }

  lemma AllFalls(b: Watch.Bounds, d: Pair, i: nat, m: nat, w: World)
    requires d.life.Valid() && 0 < i && Running(b, d.life, i - 1, m) && WorksFrom(d, i - 1, m) && w.accepts == d.accepts
    ensures FallsFrom(d, i, m)
  {
    forall q | i <= q <= m ensures Falls(d, q) {
      assert RunsOn(b, d.life, q - 1) && Works(d, q - 1) && Works(d, q);
      WorkFalls(b, d, q, w);
    }
  }

  /** As long as something is listed, it is not too late. */
  lemma NotTooLate(b: Watch.Bounds, d: Pair, i: nat, m: nat)
    requires d.life.Valid() && b.Valid() && 0 < i < m && IsCall(d.life, i) && IsStep(d.life, m)
    requires Running(b, d.life, i - 1, m) && FallsFrom(d, i, m) && Left(d, m) > 0
    ensures Left(d, i) > 0
    ensures OpAt(d.life, m).at - OpAt(d.life, i - 1).at <= Gap(b, d) * (Left(d, i) - 1) as real
  {
    var last, k := CallsProgress(b, d, i, m);
    StepWithinGap(b, d, i, m, last, k);
    StepIsNoCall(d.life, m);
    assert Falls(d, m);
    WalkGrows(Gap(b, d), k, Left(d, i) - 1);
    Watch.WalkIsProduct(Gap(b, d), Left(d, i) - 1);
  }

  lemma StillWithin(b: Watch.Bounds, d: Pair, i: nat, m: nat, w: World)
    requires d.life.Valid() && b.Valid() && 0 < i < m && IsCall(d.life, i) && IsStep(d.life, m)
    requires (forall k :: i - 1 <= k <= m ==> Healthy(b, d.life, k)) && WorksFrom(d, i - 1, m)
    requires w.accepts == d.accepts && ListedUids(d.boxes(m)) != {}
    ensures Left(d, i) > 0
    ensures OpAt(d.life, m).at - OpAt(d.life, i - 1).at <= Gap(b, d) * (Left(d, i) - 1) as real
  {
    StillMail(b, d, i, m, w);
    AllFalls(b, d, i, m, w);
    NotTooLate(b, d, i, m);
  }

  /** With nothing left, the mailbox is as one unlimited run would have left it. */
  lemma DrainedIs(d: Pair, i: nat, m: nat, w: World)
    requires i <= m && WorksFrom(d, i, m) && ListedUids(d.boxes(m)) == {}
    requires w.accepts == d.accepts && forall k :: !w.over(k)
    ensures d.boxes(m) == Final(Ideal(w), d.opts, 0, d.boxes(i), Control.Connecting).0
  {
    RunsHelp(d, i, m, w);
    forall u ensures !Recovery.Listed(d.boxes(m), u) { assert u !in ListedUids(d.boxes(m)); }
    NothingToDrain(w, d.opts, d.boxes(m));
    TimeLimitedRun(w, d.opts, d.boxes(i));
  }

  /** The deadline: while a session stays up with prompt operations, Gmail answers, each run
      handles at least one message and no mail arrives, n messages listed at a call are gone
      from the list at every step later than n - 1 gaps after that call's; and the mailbox
      and Gmail are then as one unlimited run would have left them. */
  lemma DeliveryDeadline(b: Watch.Bounds, d: Pair, i: nat, m: nat, w: World)
    requires d.life.Valid() && b.Valid() && 0 < i < m && IsCall(d.life, i) && IsStep(d.life, m)
    requires (forall k :: i - 1 <= k <= m ==> Healthy(b, d.life, k)) && WorksFrom(d, i - 1, m)
    requires w.accepts == d.accepts && forall k :: !w.over(k)
    requires Left(d, i) > 0
    requires OpAt(d.life, m).at - OpAt(d.life, i - 1).at > Gap(b, d) * (Left(d, i) - 1) as real
    ensures ListedUids(d.boxes(m)) == {}
    ensures d.boxes(m) == Final(Ideal(w), d.opts, 0, d.boxes(i), Control.Connecting).0
  {
    if ListedUids(d.boxes(m)) != {} { StillWithin(b, d, i, m, w); }
    DrainedIs(d, i, m, w);
  }

  /** While something is still listed at the end, every listing before found something. */
  lemma StillMail(b: Watch.Bounds, d: Pair, i: nat, m: nat, w: World)
    requires 0 < i < m && (forall k :: i - 1 <= k <= m ==> Healthy(b, d.life, k)) && WorksFrom(d, i - 1, m)
    requires ListedUids(d.boxes(m)) != {} && w.accepts == d.accepts
    ensures Running(b, d.life, i - 1, m)
  {
    forall k | i - 1 <= k <= m ensures RunsOn(b, d.life, k) {
      assert Healthy(b, d.life, k) && Works(d, k);
      RunsHelp(d, k, m, w);
    }
  }

  lemma {:induction false} WalkGrows(g: real, k: nat, n: nat)
    requires g >= 0.0 && k <= n
    ensures Watch.Walk(g, k) <= Watch.Walk(g, n)
  {
    if k < n { WalkGrows(g, k, n - 1); }
  }

  // ---- The watcher told what the runs did --------------------------------------------------

  /** What the forwarder answers after a run. */
  function AnswerOf(res: Run.Result): Watch.TriggerResult {
    if res.IsOk() then Watch.TriggerResult(true, false, res.remaining) else Watch.TriggerResult(false, false, 0)
  }

  /** Operation `k` is prompt, in a session that is up, and does what it should; if it is a
      call, it is answered with what its run did. */
  ghost predicate Runs(b: Watch.Bounds, d: Pair, k: nat) {
    && Healthy(b, d.life, k) && Works(d, k)
    && (IsCall(d.life, k) ==> d.life.answers(k) == AnswerOf(RunOf(d, k).1.res))
  }

  ghost predicate RunsFrom(b: Watch.Bounds, d: Pair, m: nat, n: nat) {
    forall k :: m <= k <= n ==> Runs(b, d, k)
  }

  /** Far enough from the end of a session, nothing raises. */
  lemma StaysUp(b: Watch.Bounds, d: Pair, k: nat)
    requires d.life.Valid() && Runs(b, d, k + 2)
    ensures !OpAt(d.life, k).raised
  {
    EndsAreBackedOff(d.life, k);
    EndsAreBackedOff(d.life, k + 1);
  }

  /** A call that leaves something is answered so. */
  lemma CallTells(b: Watch.Bounds, d: Pair, k: nat)
    requires Runs(b, d, k) && IsCall(d.life, k)
    ensures d.life.answers(k) == Watch.TriggerResult(true, false, Left(d, k + 1))
  {
    var w := World(d.accepts, d.overs(k));
    IdealRunsAreOk(w, d.opts, 0, d.boxes(k), Control.Connecting);
    RunLeaves(w, d.opts, d.boxes(k));
  }

  /** After such an answer the watcher sleeps for five seconds, lists, and calls again. */
  lemma CallsAgain(b: Watch.Bounds, d: Pair, k: nat)
    requires d.life.Valid() && IsCall(d.life, k) && !OpAt(d.life, k).raised && !OpAt(d.life, k + 2).raised
    requires d.life.answers(k).ok && d.life.answers(k).remaining > 0 && d.life.listings(k + 2) != {}
    ensures OpAt(d.life, k + 1).kind == Sleeping(5.0)
    ensures IsStep(d.life, k + 2) && IsCall(d.life, k + 3)
  {
    CallFollowsStep(d.life, k);
    SleepsFirst(d.life, k);
    ListsNext(d.life, k + 1);
    CallsStale(d.life, k + 2);
  }

  lemma SleepsFirst(life: Life, k: nat)
    requires life.Valid() && k > 0 && IsCall(life, k) && !OpAt(life, k).raised && life.answers(k).ok
    requires life.answers(k).remaining > 0 && life.states(k).phase.at == life.states(k - 1).now
    ensures var s := life.states(k + 1);
      && s.phase.AtRest? && s.phase.delay == Some(5.0)
      && s.memory.lastTriggerAt == None && s.memory.notBefore == life.states(k - 1).now <= s.now
  {
    assert Goes(life, k - 1) && Goes(life, k);
  }

  lemma ListsNext(life: Life, k: nat)
    requires life.Valid() && OpAt(life, k).kind.Sleeping? && life.states(k).phase.AtRest?
    ensures var s, s' := life.states(k), life.states(k + 1);
      s'.phase.AtListing? && s'.memory == s.memory && s'.now >= s.now
  {
    assert Goes(life, k);
  }

  lemma CallsStale(life: Life, k: nat)
    requires life.Valid() && life.states(k).phase.AtListing? && !OpAt(life, k).raised && life.listings(k) != {}
    requires life.states(k).memory.lastTriggerAt == None && life.states(k).memory.notBefore <= life.states(k).now
    ensures IsStep(life, k) && IsCall(life, k + 1)
  {
    assert Goes(life, k);
  }

  /** How long a call, and the round from its listing to the next, can take. */
  lemma RoundTimes(b: Watch.Bounds, life: Life, k: nat)
    requires life.Valid() && k > 0 && IsCall(life, k) && Prompt(b, OpAt(life, k - 1)) && Prompt(b, OpAt(life, k))
    ensures life.states(k + 1).now - life.states(k - 1).now <= b.listing + b.trigger
    ensures OpAt(life, k + 1).kind == Sleeping(5.0) && Prompt(b, OpAt(life, k + 1)) ==>
      life.states(k + 2).now - life.states(k + 1).now <= 5.0 + b.oversleep
  {
    CallFollowsStep(life, k);
    assert Goes(life, k - 1) && Goes(life, k) && Goes(life, k + 1);
  }

  /** The time that `n` calls take, one after the other. */
  function Span(b: Watch.Bounds, n: nat): real
    requires n > 0
  {
    if n == 1 then b.listing + b.trigger
    else Span(b, n - 1) + 5.0 + b.oversleep + b.listing + b.trigger
  }

  lemma {:induction false} SpanGrows(b: Watch.Bounds, m: nat, n: nat)
    requires b.Valid() && 0 < m <= n
    ensures Span(b, m) <= Span(b, n)
  {
    if m < n { SpanGrows(b, m, n - 1); }
  }

  /** n calls, each with its listing, and the sleeps of five seconds between them. */
  function RoundsTime(b: Watch.Bounds, n: nat): real {
    n as real * (b.listing + b.trigger) + (n - 1) as real * (5.0 + b.oversleep)
  }

  lemma {:induction false} SpanIs(b: Watch.Bounds, n: nat)
    requires n > 0
    ensures Span(b, n) == RoundsTime(b, n)
  {
    if n > 1 { SpanIs(b, n - 1); }
  }

  /** One round: a call leaves less, and if anything, there is a next call three operations on. */
  lemma Round(b: Watch.Bounds, d: Pair, i: nat)
    requires d.life.Valid() && i > 0 && IsCall(d.life, i) && Left(d, i) > 0
    requires RunsFrom(b, d, i - 1, i + 3 * Left(d, i))
    ensures Left(d, i + 1) < Left(d, i)
    ensures Left(d, i + 1) > 0 ==>
      && IsCall(d.life, i + 3) && Left(d, i + 3) == Left(d, i + 1)
      && d.life.states(i + 2).now - d.life.states(i - 1).now
           <= b.listing + b.trigger + 5.0 + b.oversleep
  {
    assert Runs(b, d, i - 1) && Runs(b, d, i) && Runs(b, d, i + 1) && Runs(b, d, i + 2);
    RunHelps(d, i, World(d.accepts, d.overs(i)));
    CallTells(b, d, i);
    StaysUp(b, d, i);
    if Left(d, i + 1) > 0 {
      assert Runs(b, d, i + 4);
      StaysUp(b, d, i + 2);
      NextRound(b, d, i);
    }
  }

  /** The sleep and the listing after a call leave the mailbox as it is. */
  lemma NothingMoves(b: Watch.Bounds, d: Pair, i: nat)
    requires d.life.Valid() && i > 0 && IsCall(d.life, i) && Left(d, i + 1) > 0
    requires Works(d, i + 1) && Works(d, i + 2)
    requires d.life.answers(i) == Watch.TriggerResult(true, false, Left(d, i + 1))
    requires !OpAt(d.life, i).raised && !OpAt(d.life, i + 2).raised
    ensures Left(d, i + 3) == Left(d, i + 1) && d.life.listings(i + 2) != {}
  {
    CallFollowsStep(d.life, i);
    SleepsFirst(d.life, i);
    ListsNext(d.life, i + 1);
  }

  lemma NextRound(b: Watch.Bounds, d: Pair, i: nat)
    requires d.life.Valid() && i > 0 && IsCall(d.life, i) && Left(d, i + 1) > 0
    requires Runs(b, d, i - 1) && Runs(b, d, i) && Runs(b, d, i + 1) && Runs(b, d, i + 2)
    requires d.life.answers(i) == Watch.TriggerResult(true, false, Left(d, i + 1))
    requires !OpAt(d.life, i).raised && !OpAt(d.life, i + 2).raised
    ensures IsCall(d.life, i + 3) && Left(d, i + 3) == Left(d, i + 1)
    ensures d.life.states(i + 2).now - d.life.states(i - 1).now
      <= b.listing + b.trigger + 5.0 + b.oversleep
  {
    NothingMoves(b, d, i);
    CallsAgain(b, d, i);
    RoundTimes(b, d.life, i);
  }

  /** Call after call, until nothing is left. */
  lemma {:induction false} Rounds(b: Watch.Bounds, d: Pair, i: nat) returns (m: nat)
    requires d.life.Valid() && b.Valid() && i > 0 && IsCall(d.life, i) && Left(d, i) > 0
    requires RunsFrom(b, d, i - 1, i + 3 * Left(d, i))
    ensures i < m <= i + 3 * Left(d, i) && Left(d, m) == 0
    ensures d.life.states(m).now - d.life.states(i - 1).now <= Span(b, Left(d, i))
    decreases Left(d, i)
  {
    Round(b, d, i);
    if Left(d, i + 1) == 0 {
      m := i + 1;
      assert Runs(b, d, i - 1) && Runs(b, d, i);
      RoundTimes(b, d.life, i);
      SpanGrows(b, 1, Left(d, i));
    } else {
      assert RunsFrom(b, d, i + 2, i + 3 + 3 * Left(d, i + 3));
      m := Rounds(b, d, i + 3);
      SpanGrows(b, Left(d, i + 3) + 1, Left(d, i));
    }
  }

  lemma RunsWork(b: Watch.Bounds, d: Pair, i: nat, m: nat, n: nat)
    requires 0 < i <= m <= n && RunsFrom(b, d, i - 1, n)
    ensures WorksFrom(d, i, m)
  {
    forall k | i <= k <= m ensures Works(d, k) { assert Runs(b, d, k); }
  }

  /** The deadline of a watcher that is told what the runs did: n messages listed at a call
      are gone from the list before n listings, n calls and n - 1 sleeps of five seconds are
      over, however long the retrigger interval is; and the mailbox and Gmail are then as one
      unlimited run would have left them. */
  lemma PromptDelivery(b: Watch.Bounds, d: Pair, i: nat, w: World) returns (m: nat)
    requires d.life.Valid() && b.Valid() && i > 0 && IsCall(d.life, i) && Left(d, i) > 0
    requires RunsFrom(b, d, i - 1, i + 3 * Left(d, i))
    requires w.accepts == d.accepts && forall k :: !w.over(k)
    ensures i < m && ListedUids(d.boxes(m)) == {}
    ensures OpAt(d.life, m).at - OpAt(d.life, i - 1).at <= RoundsTime(b, Left(d, i))
    ensures d.boxes(m) == Final(Ideal(w), d.opts, 0, d.boxes(i), Control.Connecting).0
  {
    m := Rounds(b, d, i);
    SpanIs(b, Left(d, i));
    RunsWork(b, d, i, m, i + 3 * Left(d, i));
    DrainedIs(d, i, m, w);
  }
}
