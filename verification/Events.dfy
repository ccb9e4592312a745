/** What a run makes of each reply, stated over the calls it makes and the replies it gets:
    what every counter counts, in which order messages are taken up, what stops a run, and
    what becomes of each message. */
module Events {
  import opened Mail
  import opened Run
  import opened Accounts
  import opened Order
  import Recovery
  import Sorting

  // ---- The kinds of reply -------------------------------------------------------------------

  /** The message is gone, or was found to be set aside already. */
  predicate Skips(c: Call, r: Reply) {
    c.Fetch? && (r.Gone? || (r.Fetched? && (Failed in r.marks || Unverified in r.marks)))
  }

  predicate Delivers(c: Call, r: Reply) {
    c.Insert? && r.Accepted?
  }

  /** Gmail will not have this message, now or later. */
  predicate Refuses(c: Call, r: Reply) {
    c.Insert? && r.HttpError? && r.status in {400, 404, 409, 410, 412, 413, 422}
  }

  predicate LocksOut(c: Call, r: Reply) {
    c.Insert? && (r.RefreshError? || (r.HttpError? && r.status == 401))
  }

  predicate Postpones(c: Call, r: Reply) {
    c.Insert? && !Delivers(c, r) && !Refuses(c, r) && !LocksOut(c, r)
  }

  /** The message has arrived in a folder. */
  predicate Files(c: Call, r: Reply) {
    (c.Move? || c.Expunge?) && r.Ok?
  }

  predicate Trashes(c: Call, r: Reply) {
    Files(c, r) && c.dest == Trash
  }

  /** The message is set aside: by a confirmed keyword, or in a folder. */
  predicate SetsAside(c: Call, r: Reply) {
    ((c.Store? || c.Refetch?) && c.mark != Inserted && r == Flags(true)) || (Files(c, r) && c.dest != Trash)
  }

  /** The mailbox or the Gmail account cannot be used. */
  predicate Aborts(c: Call, r: Reply) {
    || LocksOut(c, r)
    || (c.Fetch? && !r.Gone? && !r.Fetched?)
    || (c.Locate? && r != Found(MoveCommand) && r != Found(UidPlus))
    || ((c.Move? || c.Copy? || c.StoreDeleted? || c.Expunge?) && !r.Ok?)
  }

  /** One of these ends the work on a message. */
  predicate Concludes(c: Call, r: Reply) {
    Skips(c, r) || Postpones(c, r) || Refuses(c, r) || Trashes(c, r) || SetsAside(c, r)
  }

  // ---- What the counters count ------------------------------------------------------------

  datatype Counts = Counts(
    listings: nat, forwarded: nat, trashed: nat, skipped: nat, postponed: nat, refused: nat, aside: nat, aborts: nat)

  const NONE := Counts(0, 0, 0, 0, 0, 0, 0, 0)

  function One(b: bool): nat { if b then 1 else 0 }

  function Plus(n: Counts, c: Call, r: Reply): Counts {
    Counts(
      n.listings + One(c.List? && r.Listed?), n.forwarded + One(Delivers(c, r)), n.trashed + One(Trashes(c, r)),
      n.skipped + One(Skips(c, r)), n.postponed + One(Postpones(c, r)), n.refused + One(Refuses(c, r)),
      n.aside + One(SetsAside(c, r)), n.aborts + One(Aborts(c, r)))
  }

  /** How many replies of each kind the run has got. */
  function Counted(opts: Options, replies: seq<Reply>): Counts {
    if replies == [] then NONE
    else
      var past, r := replies[..|replies| - 1], replies[|replies| - 1];
      var c := Replay(opts, past);
      if c.Done? then Counted(opts, past) else Plus(Counted(opts, past), NextCall(c), r)
  }

  predicate Shows(res: Result, n: Counts) {
    && res.forwarded == n.forwarded && res.trashed == n.trashed && res.skipped == n.skipped
    && res.retryLater == n.postponed && res.quarantined == n.aside
  }

  /** The counters are the counts, and the run is in error for the reasons there are. */
  predicate CountsFit(ctl: Control, n: Counts) {
    match ctl
    case Budget(_, rejected, res) =>
      Shows(res, n) && n.listings == 1 && n.aborts == 0 && res.error.None? && |rejected| == n.refused
    case Working(_, pc, _, rejected, res) =>
      && Shows(res, n) && n.listings == 1 && n.aborts == 0 && res.error.None? && |rejected| == n.refused
      && LoopPc(pc)
    case Settling(_, pc, _, ledger, res) => Shows(res, n) && SettlePc(pc) && ErrorFits(ledger, res, n)
    case Done(ledger, res) => Shows(res, n) && ErrorFits(ledger, res, n)
    case _ => Zero(n)
  }

  predicate Zero(n: Counts) {
    && n.listings == 0 && n.forwarded == 0 && n.trashed == 0 && n.skipped == 0
    && n.postponed == 0 && n.refused == 0 && n.aside == 0 && n.aborts == 0
  }

  predicate ErrorFits(ledger: Ledger, res: Result, n: Counts) {
    && n.listings <= 1
    && (res.error.None? <==> n.listings == 1 && n.aborts == 0 && !ledger.tripped)
    && (ledger.loopAborted ==> n.aborts > 0)
    && (res.error.Some? ==> !res.error.value.Blank())
  }

  lemma StartFits(opts: Options, rejected: seq<Rejection>, res: Result, aborted: bool, n: Counts)
    requires Shows(res, n) && n.listings == 1 && (res.error.None? <==> n.aborts == 0) && (aborted ==> n.aborts > 0)
    requires res.error.Some? ==> !res.error.value.Blank()
    ensures CountsFit(StartSettling(opts, rejected, res, aborted), n)
  {
  }

  lemma NextFits(opts: Options, queue: seq<Uid>, rejected: seq<Rejection>, res: Result, n: Counts)
    requires Shows(res, n) && n.listings == 1 && n.aborts == 0 && res.error.None? && |rejected| == n.refused
    ensures CountsFit(NextMessage(opts, queue, rejected, res), n)
  {
    if queue == [] { StartFits(opts, rejected, res, false, n); }
  }

  /** The verdict on a message and the kind of the reply. */
  lemma VerdictCounts(opts: Options, u: Uid, pc: Pc, r: Reply)
    ensures var c, next := CallAt(u, pc), Step(opts, u, pc, r);
      && (Skips(c, r) <==> next == End(Skipped)) && (Postpones(c, r) <==> next == End(RetryLater))
      && (Trashes(c, r) <==> next == End(Trashed)) && (SetsAside(c, r) <==> next == End(Quarantined))
      && (Refuses(c, r) <==> next.End? && next.verdict.Rejected?)
      && (Aborts(c, r) <==> next.End? && next.verdict.Aborted?)
      && (Delivers(c, r) ==> next.Go?) && (Aborts(c, r) ==> !next.verdict.reason.Blank())
  {
  }

  lemma WorkFits(opts: Options, ctl: Control, r: Reply, n: Counts)
    requires ctl.Working? && CountsFit(ctl, n)
    ensures CountsFit(Resume(opts, ctl, r), Plus(n, NextCall(ctl), r))
  {
    var next, more := Step(opts, ctl.uid, ctl.pc, r), Plus(n, NextCall(ctl), r);
    var accepted := ctl.pc.AtInsert? && r.Accepted?;
    var res := if accepted then ctl.res.(forwarded := ctl.res.forwarded + 1) else ctl.res;
    VerdictCounts(opts, ctl.uid, ctl.pc, r);
    StepStays(opts, ctl.uid, ctl.pc, r);
    OnwardIs(opts, ctl, accepted, next, res);
    if next.Go? {
    } else if next.verdict.Aborted? {
      var stopped := res.(error := Some(next.verdict.reason), remaining := |ctl.queue| + 1);
      StartFits(opts, ctl.rejected, stopped, true, more);
    } else if next.verdict.Rejected? {
      var all := ctl.rejected + [Rejection(ctl.uid, next.verdict.error, next.verdict.perMessage)];
      NextFits(opts, ctl.queue, all, Tally(res, next.verdict), more);
    } else {
      NextFits(opts, ctl.queue, ctl.rejected, Tally(res, next.verdict), more);
    }
  }

  lemma SettleFits(opts: Options, ctl: Control, r: Reply, n: Counts)
    requires ctl.Settling? && CountsFit(ctl, n)
    ensures CountsFit(Resume(opts, ctl, r), Plus(n, NextCall(ctl), r))
  {
    VerdictCounts(opts, ctl.current.uid, ctl.pc, r);
    StepStays(opts, ctl.current.uid, ctl.pc, r);
  }

  lemma FailedFits(r: Reply, n: Counts)
    requires Zero(n)
    ensures CountsFit(SetupFailed(r), n)
  {
  }

  lemma ListedShows(uids: seq<Uid>, n: Counts)
    requires n.forwarded == 0 && n.trashed == 0 && n.skipped == 0 && n.postponed == 0 && n.aside == 0
    ensures Shows(EMPTY.(listed := |uids|), n)
  {
  }

  lemma PlusSetUp(n: Counts, c: Call, r: Reply)
    requires !c.AboutMessage()
    ensures Plus(n, c, r) == n.(listings := n.listings + One(c.List? && r.Listed?))
  {
  }

  lemma ListingFits(opts: Options, r: Reply, n: Counts, more: Counts)
    requires Zero(n) && more == n.(listings := n.listings + One(r.Listed?))
    ensures CountsFit(Resume(opts, Listing, r), more)
  {
    SetupLeads(opts, r);
    if r.Listed? {
      ListedShows(r.uids, more);
      NextFits(opts, r.uids, [], EMPTY.(listed := |r.uids|), more);
    } else {
      FailedFits(r, more);
    }
  }

  lemma SetUpFits(opts: Options, ctl: Control, r: Reply, n: Counts)
    requires (ctl == Connecting || ctl == Labelling) && Zero(n)
    ensures CountsFit(Resume(opts, ctl, r), n)
  {
    SetupLeads(opts, r);
    FailedFits(r, n);
  }

  lemma BudgetFits(opts: Options, ctl: Control, r: Reply, n: Counts)
    requires ctl.Budget? && CountsFit(ctl, n)
    ensures CountsFit(Resume(opts, ctl, r), n)
  {
    StartFits(opts, ctl.rejected, ctl.res.(remaining := |ctl.queue|), false, n);
  }

  lemma ResumeFits(opts: Options, ctl: Control, r: Reply, n: Counts)
    requires !ctl.Done? && CountsFit(ctl, n)
    ensures CountsFit(Resume(opts, ctl, r), Plus(n, NextCall(ctl), r))
  {
    if ctl.Working? {
      WorkFits(opts, ctl, r, n);
    } else if ctl.Settling? {
      SettleFits(opts, ctl, r, n);
    } else if ctl.Budget? {
      BudgetFits(opts, ctl, r, n);
      assert Plus(n, NextCall(ctl), r) == n;
    } else if ctl.Listing? {
      PlusSetUp(n, List, r);
      ListingFits(opts, r, n, Plus(n, List, r));
    } else {
      PlusSetUp(n, NextCall(ctl), r);
      SetUpFits(opts, ctl, r, n);
    }
  }

  lemma {:induction false} AlwaysFit(opts: Options, replies: seq<Reply>)
    ensures CountsFit(Replay(opts, replies), Counted(opts, replies))
    decreases |replies|
  {
    if replies != [] {
      var past, r := replies[..|replies| - 1], replies[|replies| - 1];
      AlwaysFit(opts, past);
      if !Replay(opts, past).Done? { ResumeFits(opts, Replay(opts, past), r, Counted(opts, past)); }
    }
  }

  /** Every counter of a run is the number of replies of its kind. */
  lemma CountersAreCounts(opts: Options, replies: seq<Reply>)
    requires Replay(opts, replies).Done?
    ensures var res, n := Replay(opts, replies).res, Counted(opts, replies);
      && res.forwarded == n.forwarded && res.trashed == n.trashed && res.skipped == n.skipped
      && res.retryLater == n.postponed && res.quarantined == n.aside
  {
    AlwaysFit(opts, replies);
  }

  /** A run reports no error exactly if it got as far as the listing, nothing aborted it, not
      even while rejections were being settled, and the breaker held. */
  lemma ErrorIff(opts: Options, replies: seq<Reply>)
    requires Replay(opts, replies).Done?
    ensures var Done(ledger, res), n := Replay(opts, replies), Counted(opts, replies);
      res.error.None? <==> n.listings == 1 && n.aborts == 0 && !ledger.tripped
  {
    AlwaysFit(opts, replies);
  }

  /** The counters and the verdict of a run, by the replies it got. */
  predicate Reports(opts: Options, replies: seq<Reply>, res: Result, tripped: bool) {
    var n := Counted(opts, replies);
    && res.forwarded == n.forwarded && res.trashed == n.trashed && res.skipped == n.skipped
    && res.retryLater == n.postponed && res.quarantined == n.aside
    && (res.error.None? <==> n.listings == 1 && n.aborts == 0 && !tripped)
  }

  lemma RunReports(serve: Serve, opts: Options, n: nat, box: Mailbox)
    ensures var (_, ctl) := Final(serve, opts, n, box, Connecting);
      Reports(opts, Said(serve, opts, n, box, Connecting), ctl.res, ctl.ledger.tripped)
  {
    var replies := Said(serve, opts, n, box, Connecting);
    FinalIsReplayFrom(serve, opts, n, box, Connecting, []);
    assert [] + replies == replies;
    CountersAreCounts(opts, replies);
    ErrorIff(opts, replies);
  }

  // ---- In which order messages are taken up ------------------------------------------------

  /** What the run was told to do and did: the listing, the messages it fetched, the readings
      of the clock that it took for in time (false) or over (true), and the messages that a
      reply has concluded. */
  datatype Trail = Trail(listed: seq<Uid>, fetched: seq<Uid>, readings: seq<bool>, concluded: set<Uid>)

  function Further(t: Trail, c: Call, r: Reply): Trail {
    Trail(
      if c.List? && r.Listed? then r.uids else t.listed,
      if c.Fetch? then t.fetched + [c.uid] else t.fetched,
      if c.ReadClock? then t.readings + [r == Clock(true)] else t.readings,
      if c.AboutMessage() && Concludes(c, r) then t.concluded + {c.uid} else t.concluded)
  }

  function TrailOf(opts: Options, replies: seq<Reply>): Trail {
    if replies == [] then Trail([], [], [], {})
    else
      var past, r := replies[..|replies| - 1], replies[|replies| - 1];
      var c := Replay(opts, past);
      if c.Done? then TrailOf(opts, past) else Further(TrailOf(opts, past), NextCall(c), r)
  }

  predicate InTime(readings: seq<bool>) {
    forall i :: 0 <= i < |readings| ==> !readings[i]
  }

  /** The loop has ended: at the end of the listing, on a reading of the clock, or because the
      message fetched last could not be dealt with. */
  predicate LoopOver(t: Trail, aborted: bool, remaining: nat) {
    if aborted then
      && t.fetched != [] && t.fetched <= t.listed && InTime(t.readings) && |t.readings| == |t.fetched|
      && remaining == |t.listed| - |t.fetched| + 1
    else
      && t.fetched <= t.listed && remaining == |t.listed| - |t.fetched|
      && (if remaining == 0 then InTime(t.readings) && |t.readings| == |t.fetched|
          else |t.readings| == |t.fetched| + 1 && t.readings[|t.fetched|] && InTime(t.readings[..|t.fetched|]))
  }

  /** The message is about to be fetched, or is the one fetched last. */
  predicate AtHand(t: Trail, u: Uid, pc: Pc, queue: seq<Uid>) {
    if pc.AtFetch? then
      t.fetched + ([u] + queue) == t.listed && |t.readings| == |t.fetched| + 1
    else
      t.fetched + queue == t.listed && |t.readings| == |t.fetched| && t.fetched != [] && t.fetched[|t.fetched| - 1] == u
  }

  predicate InSequence(ctl: Control, t: Trail) {
    match ctl
    case Budget(queue, _, res) =>
      && queue != [] && t.fetched + queue == t.listed && InTime(t.readings) && |t.readings| == |t.fetched|
      && res.remaining == 0 && res.listed == |t.listed|
    case Working(u, pc, queue, _, res) =>
      InTime(t.readings) && res.remaining == 0 && res.listed == |t.listed| && AtHand(t, u, pc, queue)
    case Settling(_, pc, _, ledger, res) =>
      SettlePc(pc) && LoopOver(t, ledger.loopAborted, res.remaining) && res.listed == |t.listed|
    case Done(ledger, res) => LoopOver(t, ledger.loopAborted, res.remaining) && res.listed == |t.listed|
    case _ => t.listed == [] && t.fetched == [] && t.readings == []
  }

  lemma StartInSequence(opts: Options, rejected: seq<Rejection>, res: Result, aborted: bool, t: Trail)
    requires LoopOver(t, aborted, res.remaining) && res.listed == |t.listed|
    ensures InSequence(StartSettling(opts, rejected, res, aborted), t)
  {
  }

  lemma NextInSequence(opts: Options, queue: seq<Uid>, rejected: seq<Rejection>, res: Result, t: Trail)
    requires t.fetched + queue == t.listed && InTime(t.readings) && |t.readings| == |t.fetched|
    requires res.remaining == 0 && res.listed == |t.listed|
    ensures InSequence(NextMessage(opts, queue, rejected, res), t)
  {
    if queue == [] { StartInSequence(opts, rejected, res, false, t); }
  }

  lemma StepGoesOn(opts: Options, u: Uid, pc: Pc, r: Reply)
    ensures Step(opts, u, pc, r).Go? ==> !Step(opts, u, pc, r).pc.AtFetch?
  {
  }

  /** The trail while one message is worked on. */
  lemma FurtherWork(u: Uid, pc: Pc, r: Reply, t: Trail, queue: seq<Uid>)
    requires AtHand(t, u, pc, queue)
    ensures var t' := Further(t, CallAt(u, pc), r);
      && t'.fetched + queue == t'.listed == t.listed && t'.readings == t.readings && |t.readings| == |t'.fetched|
      && t'.fetched != [] && t'.fetched[|t'.fetched| - 1] == u
  {
    if pc.AtFetch? { assert t.fetched + ([u] + queue) == (t.fetched + [u]) + queue; }
  }

  lemma WorkInSequence(opts: Options, ctl: Control, r: Reply, t: Trail)
    requires ctl.Working? && InSequence(ctl, t)
    ensures InSequence(Resume(opts, ctl, r), Further(t, NextCall(ctl), r))
  {
    var next, t' := Step(opts, ctl.uid, ctl.pc, r), Further(t, NextCall(ctl), r);
    var accepted := ctl.pc.AtInsert? && r.Accepted?;
    var res := if accepted then ctl.res.(forwarded := ctl.res.forwarded + 1) else ctl.res;
    FurtherWork(ctl.uid, ctl.pc, r, t, ctl.queue);
    StepGoesOn(opts, ctl.uid, ctl.pc, r);
    OnwardIs(opts, ctl, accepted, next, res);
    if next.Go? {
    } else if next.verdict.Aborted? {
      var stopped := res.(error := Some(next.verdict.reason), remaining := |ctl.queue| + 1);
      StartInSequence(opts, ctl.rejected, stopped, true, t');
    } else if next.verdict.Rejected? {
      var all := ctl.rejected + [Rejection(ctl.uid, next.verdict.error, next.verdict.perMessage)];
      NextInSequence(opts, ctl.queue, all, Tally(res, next.verdict), t');
    } else {
      NextInSequence(opts, ctl.queue, ctl.rejected, Tally(res, next.verdict), t');
    }
  }

  lemma SettleInSequence(opts: Options, ctl: Control, r: Reply, t: Trail)
    requires ctl.Settling? && InSequence(ctl, t)
    ensures InSequence(Resume(opts, ctl, r), Further(t, NextCall(ctl), r))
  {
    StepStays(opts, ctl.current.uid, ctl.pc, r);
  }

  lemma BudgetInSequence(opts: Options, ctl: Control, r: Reply, t: Trail)
    requires ctl.Budget? && InSequence(ctl, t)
    ensures InSequence(Resume(opts, ctl, r), Further(t, NextCall(ctl), r))
  {
    var t' := Further(t, NextCall(ctl), r);
    assert t'.readings[..|t.readings|] == t.readings;
    if r == Clock(true) {
      StartInSequence(opts, ctl.rejected, ctl.res.(remaining := |ctl.queue|), false, t');
    } else {
      assert [ctl.queue[0]] + ctl.queue[1..] == ctl.queue;
    }
  }

  lemma ListingInSequence(opts: Options, r: Reply, t: Trail)
    requires InSequence(Listing, t)
    ensures InSequence(Resume(opts, Listing, r), Further(t, List, r))
  {
    SetupLeads(opts, r);
    if r.Listed? {
      assert [] + r.uids == r.uids;
      NextInSequence(opts, r.uids, [], EMPTY.(listed := |r.uids|), Further(t, List, r));
    }
  }

  lemma SetUpInSequence(opts: Options, ctl: Control, r: Reply, t: Trail)
    requires (ctl == Connecting || ctl == Labelling) && InSequence(ctl, t)
    ensures InSequence(Resume(opts, ctl, r), Further(t, NextCall(ctl), r))
  {
    SetupLeads(opts, r);
  }

  lemma ResumeInSequence(opts: Options, ctl: Control, r: Reply, t: Trail)
    requires !ctl.Done? && InSequence(ctl, t)
    ensures InSequence(Resume(opts, ctl, r), Further(t, NextCall(ctl), r))
  {
    if ctl.Working? {
      WorkInSequence(opts, ctl, r, t);
    } else if ctl.Settling? {
      SettleInSequence(opts, ctl, r, t);
    } else if ctl.Budget? {
      BudgetInSequence(opts, ctl, r, t);
    } else if ctl.Listing? {
      ListingInSequence(opts, r, t);
    } else {
      SetUpInSequence(opts, ctl, r, t);
    }
  }

  lemma {:induction false} AlwaysInSequence(opts: Options, replies: seq<Reply>)
    ensures InSequence(Replay(opts, replies), TrailOf(opts, replies))
    decreases |replies|
  {
    if replies != [] {
      var past, r := replies[..|replies| - 1], replies[|replies| - 1];
      AlwaysInSequence(opts, past);
      if !Replay(opts, past).Done? { ResumeInSequence(opts, Replay(opts, past), r, TrailOf(opts, past)); }
    }
  }

  /** The message loop: messages are fetched in the order of the listing, each after a reading
      of the clock that is in time; a reading that is over is the last thing the loop does, and
      what it leaves unfetched is what the run reports as remaining, with one more if it was
      the message fetched last that stopped it. */
  lemma LoopKeepsTime(opts: Options, replies: seq<Reply>)
    requires Replay(opts, replies).Done?
    ensures var Done(ledger, res), t := Replay(opts, replies), TrailOf(opts, replies);
      && t.fetched <= t.listed && res.listed == |t.listed|
      && |t.fetched| <= |t.readings| <= |t.fetched| + 1 && InTime(t.readings[..|t.fetched|])
      && (|t.readings| > |t.fetched| <==> true in t.readings)
      && res.remaining == |t.listed| - |t.fetched| + (if ledger.loopAborted then 1 else 0)
      && (true !in t.readings && !ledger.loopAborted ==> t.fetched == t.listed)
  {
    AlwaysInSequence(opts, replies);
    var t := TrailOf(opts, replies);
    assert forall b :: b in t.readings ==> exists i :: 0 <= i < |t.readings| && t.readings[i] == b;
    if |t.readings| == |t.fetched| { assert t.readings[..|t.fetched|] == t.readings; }
  }

  // ---- What stops a run ---------------------------------------------------------------------

  /** The message loop is over, and `left` messages are left. */
  predicate LoopLeft(ctl: Control, left: nat) {
    !Early(ctl) && (ctl.Settling? ==> SettlePc(ctl.pc)) && ctl.res.remaining == left
  }

  lemma LeftStays(opts: Options, ctl: Control, r: Reply, left: nat)
    requires LoopLeft(ctl, left) && !ctl.Done?
    ensures LoopLeft(Resume(opts, ctl, r), left)
  {
    StepStays(opts, ctl.current.uid, ctl.pc, r);
  }

  lemma {:induction false} LeftOnwards(opts: Options, replies: seq<Reply>, i: nat, j: nat, left: nat)
    requires i <= j <= |replies| && LoopLeft(Replay(opts, replies[..i]), left)
    ensures LoopLeft(Replay(opts, replies[..j]), left)
    decreases j
  {
    if i < j {
      LeftOnwards(opts, replies, i, j - 1, left);
      ReplayMore(opts, replies, j);
      var ctl := Replay(opts, replies[..j - 1]);
      if !ctl.Done? { LeftStays(opts, ctl, replies[j - 1], left); }
    }
  }

  /** No further message is fetched or sent. */
  predicate TakesUpNothing(ctl: Control) {
    !ctl.Done? ==> !NextCall(ctl).Fetch? && !NextCall(ctl).Insert?
  }

  lemma LeftTakesUpNothing(ctl: Control, left: nat)
    requires LoopLeft(ctl, left)
    ensures TakesUpNothing(ctl)
  {
  }

  /** The loop has ended with `left` messages left, and only the breaker can say anything. */
  predicate EndsQuietly(ctl: Control, left: nat) {
    LoopLeft(ctl, left) && (ctl.res.error.None? <==> !ctl.ledger.tripped)
  }

  predicate GoesOnWith(ctl: Control, u: Uid) {
    !ctl.Done? && NextCall(ctl) == Fetch(u)
  }

  lemma OverDecides(opts: Options, ctl: Control, r: Reply)
    requires ctl.Budget? && ctl.queue != [] && ctl.res.error.None?
    ensures r == Clock(true) ==> EndsQuietly(Resume(opts, ctl, r), |ctl.queue|)
    ensures r != Clock(true) ==> GoesOnWith(Resume(opts, ctl, r), ctl.queue[0])
  {
  }

  lemma ReadingIs(opts: Options, replies: seq<Reply>, before: Control)
    requires before == Replay(opts, replies) && !before.Done? && NextCall(before) == ReadClock
    ensures before.Budget? && before.queue != [] && before.res.error.None?
  {
    AlwaysInSequence(opts, replies);
    AlwaysFit(opts, replies);
  }

  /** The time budget: if the clock is over before a message, the loop ends there.  All that
      are left are reported as remaining to the end of the run, none of them is fetched or
      sent, and that adds no error, unless the breaker has something to say.  If the clock is
      not over, the message is fetched. */
  lemma OverStops(opts: Options, replies: seq<Reply>, i: nat, j: nat, before: Control)
    requires i < j <= |replies| && before == Replay(opts, replies[..i])
    requires !before.Done? && NextCall(before) == ReadClock
    ensures before.Budget? && before.queue != []
    ensures replies[i] == Clock(true) ==>
      && EndsQuietly(Replay(opts, replies[..i + 1]), |before.queue|)
      && LoopLeft(Replay(opts, replies[..j]), |before.queue|) && TakesUpNothing(Replay(opts, replies[..j]))
    ensures replies[i] != Clock(true) ==> GoesOnWith(Replay(opts, replies[..i + 1]), before.queue[0])
  {
    ReadingIs(opts, replies[..i], before);
    ReplayMore(opts, replies, i + 1);
    OverDecides(opts, before, replies[i]);
    if replies[i] == Clock(true) {
      LeftOnwards(opts, replies, i + 1, j, |before.queue|);
      LeftTakesUpNothing(Replay(opts, replies[..j]), |before.queue|);
    }
  }

  lemma AbortsAt(opts: Options, ctl: Control, r: Reply)
    requires ctl.Working? && Aborts(NextCall(ctl), r)
    ensures Stopped(Resume(opts, ctl, r), |ctl.queue| + 1)
  {
    var next, res := Step(opts, ctl.uid, ctl.pc, r), ctl.res;
    VerdictCounts(opts, ctl.uid, ctl.pc, r);
    AbortedStops(opts, ctl, ctl.pc.AtInsert? && r.Accepted?, next);
  }

  lemma AbortedStops(opts: Options, ctl: Control, accepted: bool, next: Advance)
    requires ctl.Working? && next.End? && next.verdict.Aborted?
    ensures Stopped(Onward(opts, ctl, accepted, next), |ctl.queue| + 1)
  {
  }

  /** A fetch that fails, a move that fails or an account that is locked out stops the loop
      with an error: the message in hand and all after it are reported as remaining, and none
      of them is fetched or sent. */
  lemma AbortStops(opts: Options, replies: seq<Reply>, i: nat, j: nat, before: Control)
    requires i < j <= |replies| && before == Replay(opts, replies[..i])
    requires before.Working? && Aborts(NextCall(before), replies[i])
    ensures Stopped(Replay(opts, replies[..j]), |before.queue| + 1) && TakesUpNothing(Replay(opts, replies[..j]))
  {
    AbortsAt(opts, before, replies[i]);
    ReplayMore(opts, replies, i + 1);
    StoppedOnwards(opts, replies, i + 1, j, |before.queue| + 1);
    LeftTakesUpNothing(Replay(opts, replies[..j]), |before.queue| + 1);
  }

  /** In particular a fetch that gets neither the message nor the news that it is gone. */
  lemma FailedFetchStops(opts: Options, replies: seq<Reply>, i: nat, j: nat, before: Control, u: Uid)
    requires i < j <= |replies| && before == Replay(opts, replies[..i])
    requires !before.Done? && NextCall(before) == Fetch(u) && !replies[i].Gone? && !replies[i].Fetched?
    ensures before.Working?
    ensures Stopped(Replay(opts, replies[..j]), |before.queue| + 1) && TakesUpNothing(Replay(opts, replies[..j]))
  {
    AlwaysInSequence(opts, replies[..i]);
    AbortStops(opts, replies, i, j, before);
  }

  predicate Preparing(ctl: Control) {
    ctl == Connecting || ctl == Labelling || ctl == Listing
  }

  // ---- Which error a run reports -------------------------------------------------------------

  /** The set-up fails, or the work is aborted. */
  predicate Complains(c: Call, r: Reply) {
    || Aborts(c, r) || (c.Connect? && r != Connected(true)) || (c.EnsureLabel? && !r.Ok?) || (c.List? && !r.Listed?)
  }

  /** ... and what is to be said of it. */
  function Complaint(c: Call, r: Reply): (e: RunError)
    ensures !e.Blank()
  {
    match c
    case Fetch(u) => FetchFailure(u, r.Text())
    case Insert(_) => Auth(r.Text())
    case Locate(u, d) => MoveFailure(u, d, r.Text())
    case Move(u, d) => MoveFailure(u, d, r.Text())
    case Copy(u, d) => MoveFailure(u, d, r.Text())
    case StoreDeleted(u, d) => MoveFailure(u, d, r.Text())
    case Expunge(u, d) => MoveFailure(u, d, r.Text())
    case _ => Setup(r.Text())
  }

  function Blamed(errors: seq<RunError>, c: Call, r: Reply): seq<RunError> {
    if Complains(c, r) then errors + [Complaint(c, r)] else errors
  }

  /** What went wrong in a run, in its order. */
  function Complaints(opts: Options, replies: seq<Reply>): seq<RunError> {
    if replies == [] then []
    else
      var past, r := replies[..|replies| - 1], replies[|replies| - 1];
      var c := Replay(opts, past);
      if c.Done? then Complaints(opts, past) else Blamed(Complaints(opts, past), NextCall(c), r)
  }

  /** How the breaker explains itself: by how many rejections are suspicious, and the first. */
  predicate Explains(error: Option<RunError>, suspicious: seq<Rejection>) {
    suspicious != [] && error == Some(BreakerTripped(|suspicious|, suspicious[0].error))
  }

  predicate Says(ledger: Ledger, error: Option<RunError>, errors: seq<RunError>, rejections: seq<Rejection>) {
    if ledger.tripped && !ledger.loopAborted then Explains(error, Suspicious(rejections))
    else if errors == [] then error.None?
    else error == Some(errors[0]) && !errors[0].Blank()
  }

  predicate SaysIt(ctl: Control, errors: seq<RunError>, rejections: seq<Rejection>) {
    match ctl
    case Budget(_, _, res) => errors == [] && res.error.None?
    case Working(_, _, _, _, res) => errors == [] && res.error.None?
    case Settling(_, pc, _, ledger, res) =>
      SettlePc(pc) && |errors| == One(ledger.loopAborted) && Says(ledger, res.error, errors, rejections)
    case Done(ledger, res) => Says(ledger, res.error, errors, rejections)
    case _ => errors == []
  }

  lemma StartSays(opts: Options, rejected: seq<Rejection>, res: Result, aborted: bool, errors: seq<RunError>)
    requires |errors| == One(aborted) && (errors == [] ==> res.error.None?)
    requires errors != [] ==> res.error == Some(errors[0]) && !errors[0].Blank()
    ensures SaysIt(StartSettling(opts, rejected, res, aborted), errors, rejected)
  {
  }

  lemma NextSays(opts: Options, queue: seq<Uid>, rejected: seq<Rejection>, res: Result, errors: seq<RunError>)
    requires errors == [] && res.error.None?
    ensures SaysIt(NextMessage(opts, queue, rejected, res), errors, rejected)
  {
    if queue == [] { StartSays(opts, rejected, res, false, errors); }
  }

  lemma ComplaintIs(opts: Options, u: Uid, pc: Pc, r: Reply)
    ensures var c, next := CallAt(u, pc), Step(opts, u, pc, r);
      && (Complains(c, r) <==> next.End? && next.verdict.Aborted?)
      && (Complains(c, r) ==> next.verdict.reason == Complaint(c, r))
  {
  }

  lemma WorkSays(opts: Options, ctl: Control, r: Reply, errors: seq<RunError>, rejections: seq<Rejection>)
    requires ctl.Working? && errors == [] && ctl.res.error.None?
    requires rejections ==
      ctl.rejected + if Accounts.Rejects(ctl, r) then [Rejection(ctl.uid, r.Text(), r.status == 413)] else []
    ensures SaysIt(Resume(opts, ctl, r), Blamed(errors, NextCall(ctl), r), rejections)
  {
    var next, errors' := Step(opts, ctl.uid, ctl.pc, r), Blamed(errors, NextCall(ctl), r);
    var accepted := ctl.pc.AtInsert? && r.Accepted?;
    var res := if accepted then ctl.res.(forwarded := ctl.res.forwarded + 1) else ctl.res;
    ComplaintIs(opts, ctl.uid, ctl.pc, r);
    RejectsIsRejected(opts, ctl, r);
    OnwardIs(opts, ctl, accepted, next, res);
    if next.Go? {
    } else if next.verdict.Aborted? {
      var stopped := res.(error := Some(next.verdict.reason), remaining := |ctl.queue| + 1);
      assert rejections == ctl.rejected;
      StartSays(opts, ctl.rejected, stopped, true, errors');
    } else if next.verdict.Rejected? {
      NextSays(opts, ctl.queue, rejections, Tally(res, next.verdict), errors');
    } else {
      assert rejections == ctl.rejected;
      NextSays(opts, ctl.queue, ctl.rejected, Tally(res, next.verdict), errors');
    }
  }

  lemma SettleSays(opts: Options, ctl: Control, r: Reply, errors: seq<RunError>, rejections: seq<Rejection>)
    requires ctl.Settling? && SaysIt(ctl, errors, rejections)
    ensures SaysIt(Resume(opts, ctl, r), Blamed(errors, NextCall(ctl), r), rejections)
  {
    ComplaintIs(opts, ctl.current.uid, ctl.pc, r);
    StepStays(opts, ctl.current.uid, ctl.pc, r);
  }

  lemma BudgetSays(opts: Options, ctl: Control, r: Reply, errors: seq<RunError>)
    requires ctl.Budget? && errors == [] && ctl.res.error.None?
    ensures SaysIt(Resume(opts, ctl, r), errors, ctl.rejected)
  {
    StartSays(opts, ctl.rejected, ctl.res.(remaining := |ctl.queue|), false, errors);
  }

  lemma FailedSays(r: Reply, errors: seq<RunError>)
    requires errors == [Setup(r.Text())]
    ensures SaysIt(SetupFailed(r), errors, [])
  {
  }

  lemma SetUpComplains(ctl: Control, r: Reply)
    requires Preparing(ctl)
    ensures Complains(NextCall(ctl), r) ==> Complaint(NextCall(ctl), r) == Setup(r.Text())
  {
  }

  lemma SetUpSays(opts: Options, ctl: Control, r: Reply, errors: seq<RunError>)
    requires Preparing(ctl) && errors == []
    ensures SaysIt(Resume(opts, ctl, r), Blamed(errors, NextCall(ctl), r), [])
  {
    SetUpComplains(ctl, r);
    if Complains(NextCall(ctl), r) {
      assert Resume(opts, ctl, r) == SetupFailed(r);
      FailedSays(r, Blamed(errors, NextCall(ctl), r));
    } else if ctl.Listing? {
      SetupLeads(opts, r);
      NextSays(opts, r.uids, [], EMPTY.(listed := |r.uids|), errors);
    }
  }

  lemma ResumeSays(opts: Options, ctl: Control, r: Reply, errors: seq<RunError>, story: Story)
    requires !ctl.Done? && Kept(opts, story, ctl) && SaysIt(ctl, errors, story.rejections)
    ensures SaysIt(Resume(opts, ctl, r), Blamed(errors, NextCall(ctl), r), Heard(opts, ctl, r, story).rejections)
  {
    var rejections := Heard(opts, ctl, r, story).rejections;
    if ctl.Working? {
      WorkSays(opts, ctl, r, errors, rejections);
    } else if ctl.Settling? {
      assert rejections == story.rejections;
      SettleSays(opts, ctl, r, errors, rejections);
    } else {
      assert rejections == story.rejections;
      if ctl.Budget? { BudgetSays(opts, ctl, r, errors); } else { SetUpSays(opts, ctl, r, errors); }
    }
  }

  lemma {:induction false} AlwaysSays(opts: Options, replies: seq<Reply>)
    ensures SaysIt(Replay(opts, replies), Complaints(opts, replies), Told(opts, replies).rejections)
    decreases |replies|
  {
    if replies != [] {
      var past, r := replies[..|replies| - 1], replies[|replies| - 1];
      var ctl := Replay(opts, past);
      assert replies == past + [r];
      AlwaysSays(opts, past);
      AlwaysKept(opts, past);
      ToldMore(opts, past, r);
      if ctl.Done? {
        assert Told(opts, replies).rejections == Told(opts, past).rejections;
      } else {
        ResumeSays(opts, ctl, r, Complaints(opts, past), Told(opts, past));
      }
    }
  }

  /** The error of a run: what stopped the message loop or the set-up; failing that, that the
      breaker tripped, with the number of suspicious rejections and the first of them; and
      failing that, what went wrong while rejections were being settled. */
  lemma ErrorIs(opts: Options, replies: seq<Reply>)
    requires Replay(opts, replies).Done?
    ensures var Done(ledger, res), errors := Replay(opts, replies), Complaints(opts, replies);
      if ledger.tripped && !ledger.loopAborted then
        Explains(res.error, Suspicious(Told(opts, replies).rejections))
      else res.error == if errors == [] then None else Some(errors[0])
  {
    AlwaysSays(opts, replies);
  }

  // ---- What becomes of each message -----------------------------------------------------------

  /** All messages fetched are concluded, but for the last `open` of them. */
  predicate ConcludedBut(t: Trail, open: nat) {
    forall i :: 0 <= i < |t.fetched| - open ==> t.fetched[i] in t.concluded
  }

  predicate Accounted(ctl: Control, t: Trail) {
    match ctl
    case Working(_, pc, _, _, _) => ConcludedBut(t, One(!pc.AtFetch?))
    case Settling(_, _, _, ledger, _) => ConcludedBut(t, One(ledger.loopAborted))
    case Done(ledger, _) => ConcludedBut(t, One(ledger.loopAborted))
    case _ => ConcludedBut(t, 0)
  }

  lemma StartAccounted(opts: Options, rejected: seq<Rejection>, res: Result, aborted: bool, t: Trail)
    requires ConcludedBut(t, One(aborted))
    ensures Accounted(StartSettling(opts, rejected, res, aborted), t)
  {
  }

  lemma NextAccounted(opts: Options, queue: seq<Uid>, rejected: seq<Rejection>, res: Result, t: Trail)
    requires ConcludedBut(t, 0)
    ensures Accounted(NextMessage(opts, queue, rejected, res), t)
  {
  }

  lemma FurtherConcludes(u: Uid, pc: Pc, r: Reply, t: Trail, queue: seq<Uid>)
    requires AtHand(t, u, pc, queue) && ConcludedBut(t, One(!pc.AtFetch?))
    ensures var t' := Further(t, CallAt(u, pc), r);
      ConcludedBut(t', 1) && (Concludes(CallAt(u, pc), r) ==> ConcludedBut(t', 0))
  {
    var t' := Further(t, CallAt(u, pc), r);
    FurtherWork(u, pc, r, t, queue);
  }

  lemma WorkAccounted(opts: Options, ctl: Control, r: Reply, t: Trail)
    requires ctl.Working? && InSequence(ctl, t) && Accounted(ctl, t)
    ensures Accounted(Resume(opts, ctl, r), Further(t, NextCall(ctl), r))
  {
    var next, t' := Step(opts, ctl.uid, ctl.pc, r), Further(t, NextCall(ctl), r);
    var accepted := ctl.pc.AtInsert? && r.Accepted?;
    var res := if accepted then ctl.res.(forwarded := ctl.res.forwarded + 1) else ctl.res;
    FurtherConcludes(ctl.uid, ctl.pc, r, t, ctl.queue);
    VerdictCounts(opts, ctl.uid, ctl.pc, r);
    StepGoesOn(opts, ctl.uid, ctl.pc, r);
    OnwardIs(opts, ctl, accepted, next, res);
    if next.Go? {
    } else if next.verdict.Aborted? {
      var stopped := res.(error := Some(next.verdict.reason), remaining := |ctl.queue| + 1);
      StartAccounted(opts, ctl.rejected, stopped, true, t');
    } else if next.verdict.Rejected? {
      var all := ctl.rejected + [Rejection(ctl.uid, next.verdict.error, next.verdict.perMessage)];
      NextAccounted(opts, ctl.queue, all, Tally(res, next.verdict), t');
    } else {
      NextAccounted(opts, ctl.queue, ctl.rejected, Tally(res, next.verdict), t');
    }
  }

  lemma OtherAccounted(opts: Options, ctl: Control, r: Reply, t: Trail)
    requires !ctl.Done? && !ctl.Working? && InSequence(ctl, t) && Accounted(ctl, t)
    ensures Accounted(Resume(opts, ctl, r), Further(t, NextCall(ctl), r))
  {
    var t' := Further(t, NextCall(ctl), r);
    if ctl.Settling? {
      StepStays(opts, ctl.current.uid, ctl.pc, r);
    } else if ctl.Budget? {
      StartAccounted(opts, ctl.rejected, ctl.res.(remaining := |ctl.queue|), false, t');
    } else {
      SetUpAccounted(opts, ctl, r, t');
    }
  }

  lemma SetUpAccounted(opts: Options, ctl: Control, r: Reply, t: Trail)
    requires ctl == Connecting || ctl == Labelling || ctl == Listing
    requires ConcludedBut(t, 0)
    ensures Accounted(Resume(opts, ctl, r), t)
  {
    SetupLeads(opts, r);
    if ctl.Listing? && r.Listed? { NextAccounted(opts, r.uids, [], EMPTY.(listed := |r.uids|), t); }
  }

  lemma {:induction false} AlwaysAccounted(opts: Options, replies: seq<Reply>)
    ensures Accounted(Replay(opts, replies), TrailOf(opts, replies))
    decreases |replies|
  {
    if replies != [] {
      var past, r := replies[..|replies| - 1], replies[|replies| - 1];
      var ctl := Replay(opts, past);
      AlwaysAccounted(opts, past);
      AlwaysInSequence(opts, past);
      if ctl.Working? {
        WorkAccounted(opts, ctl, r, TrailOf(opts, past));
      } else if !ctl.Done? {
        OtherAccounted(opts, ctl, r, TrailOf(opts, past));
      }
    }
  }

  /** In a run without an error every listed message is found gone or set aside already, put
      off by Gmail, refused by Gmail, trashed or set aside, or is one of those that are
      reported as remaining, which are the last of the listing. */
  lemma EachListedMessage(opts: Options, replies: seq<Reply>, k: nat)
    requires Replay(opts, replies).Done? && Replay(opts, replies).res.error.None?
    ensures var res, t := Replay(opts, replies).res, TrailOf(opts, replies);
      && res.listed == |t.listed| && res.remaining <= |t.listed|
      && (k < |t.listed| - res.remaining ==> t.listed[k] in t.concluded)
  {
    AlwaysInSequence(opts, replies);
    AlwaysAccounted(opts, replies);
    AlwaysFit(opts, replies);
  }

  /** The reply number `i` was about this message, and concluded it. */
  predicate ConcludedAt(opts: Options, replies: seq<Reply>, i: nat, u: Uid)
    requires i < |replies|
  {
    var before := Replay(opts, replies[..i]);
    && !before.Done? && NextCall(before).AboutMessage() && NextCall(before).uid == u
    && Concludes(NextCall(before), replies[i])
  }

  lemma ConcludedEarlier(opts: Options, past: seq<Reply>, r: Reply, i: nat, u: Uid)
    requires i < |past|
    ensures ConcludedAt(opts, past + [r], i, u) <==> ConcludedAt(opts, past, i, u)
  {
    assert (past + [r])[..i] == past[..i];
  }

  lemma ConcludedNow(opts: Options, past: seq<Reply>, r: Reply, u: Uid)
    ensures var c := Replay(opts, past);
      ConcludedAt(opts, past + [r], |past|, u) <==>
        !c.Done? && NextCall(c).AboutMessage() && NextCall(c).uid == u && Concludes(NextCall(c), r)
  {
    assert (past + [r])[..|past|] == past;
  }

  /** The messages concluded are those that some reply has concluded. */
  lemma {:induction false} ConcludedIs(opts: Options, replies: seq<Reply>, u: Uid)
    ensures u in TrailOf(opts, replies).concluded <==>
      exists i :: 0 <= i < |replies| && ConcludedAt(opts, replies, i, u)
    decreases |replies|
  {
    if replies != [] {
      var past, r := replies[..|replies| - 1], replies[|replies| - 1];
      assert replies == past + [r];
      ConcludedIs(opts, past, u);
      ConcludedNow(opts, past, r, u);
      forall i | 0 <= i < |past| ensures ConcludedAt(opts, replies, i, u) <==> ConcludedAt(opts, past, i, u) {
        ConcludedEarlier(opts, past, r, i, u);
      }
      if u in TrailOf(opts, past).concluded {
        var i :| 0 <= i < |past| && ConcludedAt(opts, past, i, u);
        assert ConcludedAt(opts, replies, i, u);
      }
    }
  }

  // ---- Setting up, and setting aside ----------------------------------------------------------

  /** The run is over before it has begun. */
  predicate NeverBegan(ctl: Control) {
    ctl.Done? && ctl.res.error.Some? && ctl.res.listed == 0 && ctl.res.remaining == 0
  }

  predicate Calls(ctl: Control, c: Call) {
    !ctl.Done? && NextCall(ctl) == c
  }

  /** A run connects, makes sure of the label if there is one, lists, and looks at the clock;
      a server that does not take keywords, or a failure in any of that, ends it with an error
      and nothing done. */
  lemma SetUpOrder(opts: Options, replies: seq<Reply>, r: Reply)
    requires Early(Replay(opts, replies)) && !Replay(opts, replies).Working? && !Replay(opts, replies).Budget?
    ensures replies == [] ==> Calls(Replay(opts, replies), Connect)
    ensures var c, c' := NextCall(Replay(opts, replies)), Replay(opts, replies + [r]);
      && (c.Connect? ==>
            if r == Connected(true) then Calls(c', if opts.labelled then EnsureLabel else List) else NeverBegan(c'))
      && (c.EnsureLabel? ==> if r.Ok? then Calls(c', List) else NeverBegan(c'))
      && (c.List? ==> if r.Listed? then SetOff(c', r.uids) else NeverBegan(c'))
  {
    ToldMore(opts, replies, r);
    SetUpStep(opts, Replay(opts, replies), r);
  }

  /** With nothing listed the run is through, and well. */
  predicate SetOff(ctl: Control, uids: seq<Uid>) {
    if uids == [] then ctl.Done? && ctl.res.IsOk() && ctl.res.listed == 0 else Calls(ctl, ReadClock)
  }

  lemma SetUpStep(opts: Options, ctl: Control, r: Reply)
    requires ctl == Connecting || ctl == Labelling || ctl == Listing
    ensures var c, c' := NextCall(ctl), Resume(opts, ctl, r);
      && (c.Connect? ==>
            if r == Connected(true) then Calls(c', if opts.labelled then EnsureLabel else List) else NeverBegan(c'))
      && (c.EnsureLabel? ==> if r.Ok? then Calls(c', List) else NeverBegan(c'))
      && (c.List? ==> if r.Listed? then SetOff(c', r.uids) else NeverBegan(c'))
  {
  }

  /** The keyword that says what the folder says. */
  predicate Matches(k: Mark, d: Dest) {
    (k == Failed && d == FailedFolder) || (k == Unverified && d == UnverifiedFolder)
  }

  /** The call asks for a keyword that sets a message aside, and the reply does not confirm it. */
  predicate NotMarked(c: Call, r: Reply, u: Uid, d: Dest) {
    && (c.Store? || c.Refetch?) && c.uid == u && Matches(c.mark, d)
    && r != Flags(true) && (c.Store? ==> r != Flags(false))
  }

  lemma LocateComesAfter(opts: Options, uid: Uid, pc: Pc, r: Reply, d: Dest)
    requires opts.keywordMode && d != Trash && Step(opts, uid, pc, r) == Go(AtLocate(d))
    ensures NotMarked(CallAt(uid, pc), r, uid, d)
  {
  }

  predicate Locates(ctl: Control) {
    !ctl.Done? && NextCall(ctl).Locate?
  }

  lemma SettlesByKeyword(opts: Options, todo: seq<Rejection>, ledger: Ledger, res: Result)
    requires opts.keywordMode
    ensures !Locates(SettleNext(opts, todo, ledger, res))
  {
  }

  lemma StartsByKeyword(opts: Options, rejected: seq<Rejection>, res: Result, aborted: bool)
    requires opts.keywordMode
    ensures !Locates(StartSettling(opts, rejected, res, aborted))
  {
  }

  lemma NextByKeyword(opts: Options, queue: seq<Uid>, rejected: seq<Rejection>, res: Result)
    requires opts.keywordMode
    ensures !Locates(NextMessage(opts, queue, rejected, res))
  {
    StartsByKeyword(opts, rejected, res, false);
  }

  /** Only a step of the message in hand leads to a folder. */
  lemma LocatesInHand(opts: Options, ctl: Control, accepted: bool, next: Advance)
    requires ctl.Working? && opts.keywordMode && Locates(Onward(opts, ctl, accepted, next))
    ensures next.Go? && NextCall(Onward(opts, ctl, accepted, next)) == CallAt(ctl.uid, next.pc)
  {
    var res := if accepted then ctl.res.(forwarded := ctl.res.forwarded + 1) else ctl.res;
    OnwardIs(opts, ctl, accepted, next, res);
    if next.Go? {
    } else if next.verdict.Aborted? {
      StartsByKeyword(opts, ctl.rejected,
                      res.(error := Some(next.verdict.reason), remaining := |ctl.queue| + 1), true);
    } else if next.verdict.Rejected? {
      NextByKeyword(opts, ctl.queue,
                    ctl.rejected + [Rejection(ctl.uid, next.verdict.error, next.verdict.perMessage)],
                    Tally(res, next.verdict));
    } else {
      NextByKeyword(opts, ctl.queue, ctl.rejected, Tally(res, next.verdict));
    }
  }

  lemma LocatesSettling(opts: Options, ctl: Control, next: Advance)
    requires ctl.Settling? && opts.keywordMode && Locates(Settled(opts, ctl, next))
    ensures next.Go? && NextCall(Settled(opts, ctl, next)) == CallAt(ctl.current.uid, next.pc)
  {
    if next.End? && !next.verdict.Aborted? {
      SettlesByKeyword(opts, ctl.todo, ctl.ledger.(settled := ctl.ledger.settled + [ctl.current]),
                       Tally(ctl.res, next.verdict));
    }
  }

  lemma LocateIsAt(u: Uid, pc: Pc, v: Uid, d: Dest)
    requires CallAt(u, pc) == Locate(v, d)
    ensures u == v && pc == AtLocate(d)
  {
  }

  lemma LocatesEarly(opts: Options, ctl: Control, r: Reply)
    requires opts.keywordMode && Early(ctl) && !ctl.Working?
    ensures !Locates(Resume(opts, ctl, r))
  {
    if ctl.Budget? {
      StartsByKeyword(opts, ctl.rejected, ctl.res.(remaining := |ctl.queue|), false);
    } else {
      SetupLeads(opts, r);
      if r.Listed? { NextByKeyword(opts, r.uids, [], EMPTY.(listed := |r.uids|)); }
    }
  }

  lemma LastResortStep(opts: Options, ctl: Control, r: Reply, u: Uid, d: Dest)
    requires opts.keywordMode && !ctl.Done? && d != Trash
    requires Calls(Resume(opts, ctl, r), Locate(u, d))
    ensures NotMarked(NextCall(ctl), r, u, d)
  {
    if ctl.Working? {
      var next := Step(opts, ctl.uid, ctl.pc, r);
      LocatesInHand(opts, ctl, ctl.pc.AtInsert? && r.Accepted?, next);
      LocateIsAt(ctl.uid, next.pc, u, d);
      LocateComesAfter(opts, u, ctl.pc, r, d);
    } else if ctl.Settling? {
      var next := Step(opts, ctl.current.uid, ctl.pc, r);
      LocatesSettling(opts, ctl, next);
      LocateIsAt(ctl.current.uid, next.pc, u, d);
      LocateComesAfter(opts, u, ctl.pc, r, d);
    } else {
      LocatesEarly(opts, ctl, r);
    }
  }

  /** In keyword mode a message is set aside in a folder only if the server has just failed to
      confirm the keyword for it. */
  lemma FolderIsLastResort(opts: Options, replies: seq<Reply>, r: Reply, u: Uid, d: Dest)
    requires opts.keywordMode && d != Trash && !Replay(opts, replies).Done?
    requires Calls(Replay(opts, replies + [r]), Locate(u, d))
    ensures NotMarked(NextCall(Replay(opts, replies)), r, u, d)
  {
    ToldMore(opts, replies, r);
    LastResortStep(opts, Replay(opts, replies), r, u, d);
  }

  /** ... and in folder mode no keyword sets a message aside. */
  predicate MarksInserted(ctl: Control) {
    match ctl
    case Working(_, pc, _, _, _) => pc.AtStore? || pc.AtRefetch? ==> pc.mark == Inserted
    case Settling(_, pc, _, _, _) => !pc.AtStore? && !pc.AtRefetch?
    case _ => true
  }

  lemma StepMarks(opts: Options, uid: Uid, pc: Pc, r: Reply)
    requires !opts.keywordMode && Step(opts, uid, pc, r).Go?
    ensures var pc' := Step(opts, uid, pc, r).pc;
      && ((pc'.AtStore? || pc'.AtRefetch?) && !pc.AtStore? ==> pc'.mark == Inserted)
      && (pc.AtStore? && (pc'.AtStore? || pc'.AtRefetch?) ==> pc'.mark == pc.mark)
      && (pc'.AtStore? || pc'.AtRefetch? ==> pc.AtInsert? || pc.AtStore?)
  {
  }

  lemma SettlesByFolder(opts: Options, todo: seq<Rejection>, ledger: Ledger, res: Result)
    requires !opts.keywordMode
    ensures MarksInserted(SettleNext(opts, todo, ledger, res))
  {
  }

  lemma StartsByFolder(opts: Options, rejected: seq<Rejection>, res: Result, aborted: bool)
    requires !opts.keywordMode
    ensures MarksInserted(StartSettling(opts, rejected, res, aborted))
  {
  }

  lemma NextByFolder(opts: Options, queue: seq<Uid>, rejected: seq<Rejection>, res: Result)
    requires !opts.keywordMode
    ensures MarksInserted(NextMessage(opts, queue, rejected, res))
  {
    StartsByFolder(opts, rejected, res, false);
  }

  lemma WorkMarks(opts: Options, ctl: Control, accepted: bool, next: Advance)
    requires ctl.Working? && !opts.keywordMode
    requires next.Go? && (next.pc.AtStore? || next.pc.AtRefetch?) ==> next.pc.mark == Inserted
    ensures MarksInserted(Onward(opts, ctl, accepted, next))
  {
    var res := if accepted then ctl.res.(forwarded := ctl.res.forwarded + 1) else ctl.res;
    OnwardIs(opts, ctl, accepted, next, res);
    if next.Go? {
    } else if next.verdict.Aborted? {
      StartsByFolder(opts, ctl.rejected,
                     res.(error := Some(next.verdict.reason), remaining := |ctl.queue| + 1), true);
    } else if next.verdict.Rejected? {
      NextByFolder(opts, ctl.queue,
                   ctl.rejected + [Rejection(ctl.uid, next.verdict.error, next.verdict.perMessage)],
                   Tally(res, next.verdict));
    } else {
      NextByFolder(opts, ctl.queue, ctl.rejected, Tally(res, next.verdict));
    }
  }

  lemma SettleMarks(opts: Options, ctl: Control, next: Advance)
    requires ctl.Settling? && !opts.keywordMode
    requires next.Go? ==> !next.pc.AtStore? && !next.pc.AtRefetch?
    ensures MarksInserted(Settled(opts, ctl, next))
  {
    if next.End? && !next.verdict.Aborted? {
      SettlesByFolder(opts, ctl.todo, ctl.ledger.(settled := ctl.ledger.settled + [ctl.current]),
                      Tally(ctl.res, next.verdict));
    }
  }

  lemma EarlyMarks(opts: Options, ctl: Control, r: Reply)
    requires !opts.keywordMode && Early(ctl) && !ctl.Working?
    ensures MarksInserted(Resume(opts, ctl, r))
  {
    if ctl.Budget? {
      StartsByFolder(opts, ctl.rejected, ctl.res.(remaining := |ctl.queue|), false);
    } else {
      SetupLeads(opts, r);
      if r.Listed? { NextByFolder(opts, r.uids, [], EMPTY.(listed := |r.uids|)); }
    }
  }

  lemma MarksStay(opts: Options, ctl: Control, r: Reply)
    requires !opts.keywordMode && !ctl.Done? && MarksInserted(ctl) && (ctl.Settling? ==> SettlePc(ctl.pc))
    ensures MarksInserted(Resume(opts, ctl, r))
  {
    if ctl.Working? {
      var next := Step(opts, ctl.uid, ctl.pc, r);
      if next.Go? { StepMarks(opts, ctl.uid, ctl.pc, r); }
      WorkMarks(opts, ctl, ctl.pc.AtInsert? && r.Accepted?, next);
    } else if ctl.Settling? {
      var next := Step(opts, ctl.current.uid, ctl.pc, r);
      if next.Go? { StepMarks(opts, ctl.current.uid, ctl.pc, r); }
      SettleMarks(opts, ctl, next);
    } else {
      EarlyMarks(opts, ctl, r);
    }
  }

  lemma {:induction false} AlwaysMarksInserted(opts: Options, replies: seq<Reply>)
    requires !opts.keywordMode
    ensures MarksInserted(Replay(opts, replies))
    decreases |replies|
  {
    if replies != [] {
      var past := replies[..|replies| - 1];
      AlwaysMarksInserted(opts, past);
      AlwaysFit(opts, past);
      if !Replay(opts, past).Done? { MarksStay(opts, Replay(opts, past), replies[|replies| - 1]); }
    }
  }

  lemma MarkIsInserted(ctl: Control)
    requires MarksInserted(ctl) && !ctl.Done? && (NextCall(ctl).Store? || NextCall(ctl).Refetch?)
    ensures NextCall(ctl).mark == Inserted
  {
  }

  lemma FolderModeMarksNothing(opts: Options, replies: seq<Reply>, ctl: Control)
    requires !opts.keywordMode && ctl == Replay(opts, replies) && !ctl.Done?
    requires NextCall(ctl).Store? || NextCall(ctl).Refetch?
    ensures NextCall(ctl).mark == Inserted
  {
    AlwaysMarksInserted(opts, replies);
    MarkIsInserted(ctl);
  }

  // ---- A run with a time budget, against a server that works ----------------------------------

  /** The clock is read where the run reads it. */
  lemma {:induction false} IdealClock(
    w: Recovery.World, opts: Options, n: nat, b: Mailbox, ctl: Control, past: seq<Reply>, p: nat)
    requires Replay(opts, past) == ctl && |past| == n <= p
    requires var replies := past + Said(Recovery.Ideal(w), opts, n, b, ctl);
      p < |replies| && Calls(Replay(opts, replies[..p]), ReadClock)
    ensures (past + Said(Recovery.Ideal(w), opts, n, b, ctl))[p] == Clock(w.over(p))
    decreases Phase(ctl), Weight(ctl)
  {
    if !ctl.Done? {
      var (r, b') := Recovery.IdealCall(w, n, b, NextCall(ctl));
      assert Recovery.Ideal(w)(n, b, NextCall(ctl)) == (r, b');
      var rest := Said(Recovery.Ideal(w), opts, n + 1, b', Resume(opts, ctl, r));
      ResumeDecreases(opts, ctl, r);
      SaidNext(Recovery.Ideal(w), opts, n, b, ctl, r, b');
      ThenRest(past, r, rest);
      ToldMore(opts, past, r);
      if p == n {
        assert (past + ([r] + rest))[..p] == past;
      } else {
        IdealClock(w, opts, n + 1, b', Resume(opts, ctl, r), past + [r], p);
      }
    }
  }

  lemma TrailMore(opts: Options, past: seq<Reply>, r: Reply)
    requires !Replay(opts, past).Done?
    ensures TrailOf(opts, past + [r]) == Further(TrailOf(opts, past), NextCall(Replay(opts, past)), r)
  {
    assert (past + [r])[..|past|] == past;
  }

  lemma IdealPrepares(w: Recovery.World, opts: Options, n: nat, b: Mailbox, ctl: Control, t: Trail)
    requires Preparing(ctl)
    ensures var (r, b') := Recovery.IdealCall(w, n, b, NextCall(ctl));
      && b' == b
      && (Preparing(Resume(opts, ctl, r)) ||
            Further(t, NextCall(ctl), r).listed == Sorting.Ascending(Recovery.ListedUids(b)))
  {
  }

  lemma NeverPreparesAgain(opts: Options, ctl: Control, r: Reply)
    requires !ctl.Done? && !Preparing(ctl)
    ensures !Preparing(Resume(opts, ctl, r)) && !NextCall(ctl).List?
  {
  }

  lemma {:induction false} IdealLists(
    w: Recovery.World, opts: Options, n: nat, b: Mailbox, ctl: Control, past: seq<Reply>, all: seq<Uid>)
    requires Replay(opts, past) == ctl
    requires Preparing(ctl) ==> all == Sorting.Ascending(Recovery.ListedUids(b))
    requires !Preparing(ctl) ==> TrailOf(opts, past).listed == all
    ensures TrailOf(opts, past + Said(Recovery.Ideal(w), opts, n, b, ctl)).listed == all
    decreases Phase(ctl), Weight(ctl)
  {
    if ctl.Done? {
      assert past + [] == past;
    } else {
      var (r, b') := Recovery.IdealCall(w, n, b, NextCall(ctl));
      assert Recovery.Ideal(w)(n, b, NextCall(ctl)) == (r, b');
      ResumeDecreases(opts, ctl, r);
      SaidNext(Recovery.Ideal(w), opts, n, b, ctl, r, b');
      ThenRest(past, r, Said(Recovery.Ideal(w), opts, n + 1, b', Resume(opts, ctl, r)));
      ToldMore(opts, past, r);
      TrailMore(opts, past, r);
      if Preparing(ctl) {
        IdealPrepares(w, opts, n, b, ctl, TrailOf(opts, past));
      } else {
        NeverPreparesAgain(opts, ctl, r);
      }
      IdealLists(w, opts, n + 1, b', Resume(opts, ctl, r), past + [r], all);
    }
  }

  lemma TakenInTime(opts: Options, replies: seq<Reply>)
    requires Replay(opts, replies).Done? && Replay(opts, replies).res.error.None?
    ensures var res, t := Replay(opts, replies).res, TrailOf(opts, replies);
      && res.remaining <= |t.listed| && t.fetched == t.listed[..|t.listed| - res.remaining]
      && |t.fetched| <= |t.readings| && InTime(t.readings[..|t.fetched|])
      && (res.remaining > 0 <==> |t.readings| == |t.fetched| + 1 && t.readings[|t.fetched|])
  {
    AlwaysInSequence(opts, replies);
    AlwaysFit(opts, replies);
    var t := TrailOf(opts, replies);
    if |t.readings| == |t.fetched| { assert t.readings[..|t.fetched|] == t.readings; }
  }

  lemma AllListed(w: Recovery.World, opts: Options, b: Mailbox, replies: seq<Reply>, all: seq<Uid>)
    requires replies == Said(Recovery.Ideal(w), opts, 0, b, Connecting)
    requires all == Sorting.Ascending(Recovery.ListedUids(b))
    ensures TrailOf(opts, replies).listed == all
  {
    IdealLists(w, opts, 0, b, Connecting, [], all);
    assert [] + replies == replies;
  }

  lemma IdealEnd(w: Recovery.World, opts: Options, b: Mailbox, replies: seq<Reply>)
    requires replies == Said(Recovery.Ideal(w), opts, 0, b, Connecting)
    ensures Replay(opts, replies).Done? && Replay(opts, replies).res.error.None?
    ensures Final(Recovery.Ideal(w), opts, 0, b, Connecting).1 == Replay(opts, replies)
  {
    FinalIsReplay(Recovery.Ideal(w), opts, b);
    Recovery.IdealRunsAreOk(w, opts, 0, b, Connecting);
  }

  /** Against a server that works, a run takes up exactly the messages before the first reading
      of the clock that is over, in the order of their UIDs, and reports the others. */
  lemma TakesUpInTime(w: Recovery.World, opts: Options, b: Mailbox, replies: seq<Reply>, all: seq<Uid>)
    requires replies == Said(Recovery.Ideal(w), opts, 0, b, Connecting)
    requires all == Sorting.Ascending(Recovery.ListedUids(b))
    ensures var res, t := Final(Recovery.Ideal(w), opts, 0, b, Connecting).1.res, TrailOf(opts, replies);
      && res.remaining <= |all| && t.fetched == all[..|all| - res.remaining]
      && |t.fetched| <= |t.readings| && InTime(t.readings[..|t.fetched|])
      && (res.remaining > 0 <==> |t.readings| == |t.fetched| + 1 && t.readings[|t.fetched|])
  {
    IdealEnd(w, opts, b, replies);
    AllListed(w, opts, b, replies, all);
    TakenInTime(opts, replies);
  }
}
