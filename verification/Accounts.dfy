/** What the counters, the circuit breaker and the error of a run promise, for
    every sequence of replies the servers may give. */
module Accounts {
  import opened Mail
  import opened Run

  // ---- Conservation ----------------------------------------------------------

  /** The message in hand is already counted as forwarded, but not yet as done. */
  function InFlight(pc: Pc): nat {
    if pc.AtFetch? || pc.AtInsert? then 0 else 1
  }

  function One(b: bool): nat { if b then 1 else 0 }

  /** An error that is there has words, so that `or` does not pass it over. */
  predicate Worded(res: Result) {
    res.error.Some? ==> !res.error.value.Blank()
  }

  predicate Books(ctl: Control) {
    match ctl
    case Budget(queue, rejected, res) =>
      && res.error.None? && res.remaining == 0
      && res.Balanced(|queue| + |rejected|)
      && res.forwarded <= res.trashed + res.quarantined
    case Working(_, pc, queue, rejected, res) =>
      && res.error.None? && res.remaining == 0
      && res.Balanced(1 + |queue| + |rejected|)
      && res.forwarded <= res.trashed + res.quarantined + InFlight(pc)
    case Settling(_, pc, todo, ledger, res) =>
      && SettlePc(pc) && !ledger.settleAborted
      && res.Balanced(1 + |todo| + |ledger.unsettled|)
      && res.forwarded <= res.trashed + res.quarantined + One(ledger.loopAborted)
      && (res.IsOk() ==> ledger.unsettled == []) && Worded(res)
    case Done(ledger, res) =>
      && res.Balanced(|ledger.unsettled|)
      && res.forwarded <= res.trashed + res.quarantined + One(ledger.loopAborted)
      && (res.IsOk() ==> ledger.unsettled == []) && Worded(res)
    case _ => true
  }

  predicate Fits(pc: Pc, v: Verdict) {
    InFlight(pc) == 1 <==> (v.Trashed? || v.Quarantined? || v.MoveFailed())
  }

  /** Only a message past its insert can be trashed or quarantined in the loop, and
      such a message can end in no other way than that or an abort. */
  lemma VerdictFits(opts: Options, uid: Uid, pc: Pc, r: Reply)
    ensures var s := Step(opts, uid, pc, r); s.End? ==> Fits(pc, s.verdict)
    ensures var s := Step(opts, uid, pc, r);
      s.Go? && pc.AtInsert? ==> r.Accepted? && InFlight(s.pc) == 1
    ensures var s := Step(opts, uid, pc, r); s.Go? ==> InFlight(pc) <= InFlight(s.pc)
    ensures pc.AtInsert? && r.Accepted? ==> Step(opts, uid, pc, r).Go?
    ensures var s := Step(opts, uid, pc, r); s.End? && s.verdict.Aborted? ==> !s.verdict.reason.Blank()
  {
  }

  lemma SettlingBooks(opts: Options, rejected: seq<Rejection>, res: Result, loopAborted: bool)
    requires res.Balanced(|rejected|) && Worded(res)
    requires res.forwarded <= res.trashed + res.quarantined + One(loopAborted)
    ensures Books(StartSettling(opts, rejected, res, loopAborted))
  {
  }

  lemma MessageBooks(opts: Options, queue: seq<Uid>, rejected: seq<Rejection>, res: Result)
    requires res.error.None? && res.remaining == 0 && res.Balanced(|queue| + |rejected|)
    requires res.forwarded <= res.trashed + res.quarantined
    ensures Books(NextMessage(opts, queue, rejected, res))
  {
    if queue == [] { SettlingBooks(opts, rejected, res, false); }
  }

  /** The counters after a message that is done: they count it, or it joins the rejections. */
  lemma EndBooks(ctl: Control, v: Verdict, res: Result)
    requires ctl.Working? && Books(ctl) && Fits(ctl.pc, v) && !v.Aborted? && res == ctl.res
    ensures var more := if v.Rejected? then 1 else 0;
      Tally(res, v).Balanced(|ctl.queue| + |ctl.rejected| + more)
    ensures var t := Tally(res, v); t.forwarded <= t.trashed + t.quarantined && t.error.None? && t.remaining == 0
  {
  }

  lemma {:induction false} NextBooks(opts: Options, ctl: Control, accepted: bool, next: Advance)
    requires ctl.Working? && Books(ctl)
    requires next.End? ==> Fits(ctl.pc, next.verdict)
    requires next.End? && next.verdict.Aborted? ==> !next.verdict.reason.Blank()
    requires accepted ==> ctl.pc.AtInsert? && next.Go? && InFlight(next.pc) == 1
    requires next.Go? ==> InFlight(ctl.pc) <= InFlight(next.pc)
    ensures Books(Onward(opts, ctl, accepted, next))
  {
    var res := if accepted then ctl.res.(forwarded := ctl.res.forwarded + 1) else ctl.res;
    OnwardIs(opts, ctl, accepted, next, res);
    if next.Go? {
    } else if next.verdict.Aborted? {
      SettlingBooks(
        opts, ctl.rejected, res.(error := Some(next.verdict.reason), remaining := |ctl.queue| + 1), true);
    } else if next.verdict.Rejected? {
      EndBooks(ctl, next.verdict, res);
      var more := ctl.rejected + [Rejection(ctl.uid, next.verdict.error, next.verdict.perMessage)];
      MessageBooks(opts, ctl.queue, more, Tally(res, next.verdict));
    } else {
      EndBooks(ctl, next.verdict, res);
      MessageBooks(opts, ctl.queue, ctl.rejected, Tally(res, next.verdict));
    }
  }

  lemma {:induction false} SettledBooks(opts: Options, ctl: Control, next: Advance)
    requires ctl.Settling? && Books(ctl)
    requires next.Go? ==> SettlePc(next.pc)
    requires next.End? ==> next.verdict.Quarantined? || next.verdict.Aborted?
    requires next.End? && next.verdict.Aborted? ==> !next.verdict.reason.Blank()
    ensures Books(Settled(opts, ctl, next))
  {
  }

  lemma {:induction false} WorkingBooks(opts: Options, ctl: Control, r: Reply)
    requires ctl.Working? && Books(ctl)
    ensures Books(Resume(opts, ctl, r))
  {
    VerdictFits(opts, ctl.uid, ctl.pc, r);
    NextBooks(opts, ctl, ctl.pc.AtInsert? && r.Accepted?, Step(opts, ctl.uid, ctl.pc, r));
  }

  lemma {:induction false} SettleBooks(opts: Options, ctl: Control, r: Reply)
    requires ctl.Settling? && Books(ctl)
    ensures Books(Resume(opts, ctl, r))
  {
    StepStays(opts, ctl.current.uid, ctl.pc, r);
    VerdictFits(opts, ctl.current.uid, ctl.pc, r);
    SettledBooks(opts, ctl, Step(opts, ctl.current.uid, ctl.pc, r));
  }

  lemma {:induction false} BudgetBooks(opts: Options, ctl: Control, r: Reply)
    requires ctl.Budget? && Books(ctl)
    ensures Books(Resume(opts, ctl, r))
  {
    var Budget(queue, rejected, res) := ctl;
    if queue == [] || r == Clock(true) {
      SettlingBooks(opts, rejected, res.(remaining := |queue|), false);
    }
  }

  lemma ListingBooks(opts: Options, r: Reply)
    ensures Books(Resume(opts, Listing, r))
  {
    if r.Listed? && r.uids == [] { SettlingBooks(opts, [], EMPTY.(listed := |r.uids|), false); }
  }

  /** Where the setup calls lead. */
  lemma SetupLeads(opts: Options, r: Reply)
    ensures var c := Resume(opts, Connecting, r); c == Labelling || c == Listing || c == SetupFailed(r)
    ensures var c := Resume(opts, Labelling, r); c == Listing || c == SetupFailed(r)
    ensures r.Listed? ==> Resume(opts, Listing, r) == NextMessage(opts, r.uids, [], EMPTY.(listed := |r.uids|))
    ensures !r.Listed? ==> Resume(opts, Listing, r) == SetupFailed(r)
  {
  }

  lemma SetupFailedBooks(r: Reply)
    ensures Books(SetupFailed(r))
  {
  }

  lemma {:induction false} OtherBooks(opts: Options, ctl: Control, r: Reply)
    requires !ctl.Working? && !ctl.Settling? && !ctl.Done? && Books(ctl)
    ensures Books(Resume(opts, ctl, r))
  {
    if ctl.Budget? {
      BudgetBooks(opts, ctl, r);
    } else if ctl.Listing? {
      ListingBooks(opts, r);
    } else {
      SetupFailedBooks(r);
      SetupLeads(opts, r);
    }
  }

  lemma {:induction false} ResumeBooks(opts: Options, ctl: Control, r: Reply)
    requires !ctl.Done? && Books(ctl)
    ensures Books(Resume(opts, ctl, r))
  {
    if ctl.Working? {
      WorkingBooks(opts, ctl, r);
    } else if ctl.Settling? {
      SettleBooks(opts, ctl, r);
    } else {
      OtherBooks(opts, ctl, r);
    }
  }

  /** Conservation: every listed message is accounted for exactly once when a run
      ends, whatever the servers answered; a run without an error left no rejection
      unsettled; and what was forwarded was trashed or quarantined, but for the one
      message an aborted loop was working on. */
  lemma {:induction false} Conservation(serve: Serve, opts: Options, n: nat, box: Mailbox, ctl: Control)
    requires Books(ctl)
    ensures var Done(ledger, res) := Final(serve, opts, n, box, ctl).1;
      && res.listed ==
         res.trashed + res.skipped + res.retryLater + res.quarantined + res.remaining + |ledger.unsettled|
      && (res.IsOk() ==> ledger.unsettled == [])
      && res.forwarded <= res.trashed + res.quarantined + (if ledger.loopAborted then 1 else 0)
    decreases Phase(ctl), Weight(ctl)
  {
    if !ctl.Done? {
      var (r, box') := serve(n, box, NextCall(ctl));
      ResumeDecreases(opts, ctl, r);
      ResumeBooks(opts, ctl, r);
      Conservation(serve, opts, n + 1, box', Resume(opts, ctl, r));
    }
  }

  // ---- Circuit breaker --------------------------------------------------------

  predicate AllPerMessage(rs: seq<Rejection>) {
    forall r :: r in rs ==> r.perMessage
  }

  /** What the breaker decided and may still rely on. */
  predicate Sound(opts: Options, ctl: Control) {
    match ctl
    case Settling(current, _, todo, ledger, res) =>
      SoundLedger(opts, ledger, [current] + todo, res)
    case Done(ledger, res) => SoundLedger(opts, ledger, [], res)
    case _ => true
  }

  predicate SoundLedger(opts: Options, ledger: Ledger, open: seq<Rejection>, res: Result) {
    && (ledger.tripped ==>
          && res.error.Some? && res.forwarded == 0
          && AllPerMessage(ledger.settled) && AllPerMessage(open)
          && opts.threshold != 0
          && |Suspicious(ledger.unsettled)| >= opts.threshold)
    && ((!ledger.tripped && opts.threshold != 0
          && |Suspicious(ledger.settled)| + |Suspicious(open)| >= opts.threshold) ==> res.forwarded > 0)
    && (!ledger.settleAborted && !ledger.tripped ==> ledger.unsettled == [])
    && (!ledger.settleAborted && ledger.tripped ==> forall r :: r in ledger.unsettled ==> !r.perMessage)
  }

  lemma {:induction false} SuspiciousConcat(a: seq<Rejection>, b: seq<Rejection>)
    ensures Suspicious(a + b) == Suspicious(a) + Suspicious(b)
  {
    if a == [] {
      assert a + b == b;
    } else {
      assert (a + b)[1..] == a[1..] + b;
      SuspiciousConcat(a[1..], b);
    }
  }

  lemma {:induction false} SuspiciousOfPure(rs: seq<Rejection>)
    ensures AllPerMessage(rs) ==> Suspicious(rs) == []
    ensures (forall r :: r in rs ==> !r.perMessage) ==> Suspicious(rs) == rs
  {
    if rs != [] {
      SuspiciousOfPure(rs[1..]);
      if forall r :: r in rs ==> !r.perMessage {
        assert forall r :: r in rs[1..] ==> r in rs;
        assert rs == [rs[0]] + rs[1..];
      }
      if AllPerMessage(rs) { assert rs[0] in rs; assert forall r :: r in rs[1..] ==> r in rs; }
    }
  }

  lemma {:induction false} StartSound(opts: Options, rejected: seq<Rejection>, res: Result, loopAborted: bool)
    ensures Sound(opts, StartSettling(opts, rejected, res, loopAborted))
  {
    if Trips(opts, rejected, res) {
      var suspicious := Suspicious(rejected);
      SplitMembers(rejected);
      SuspiciousOfPure(suspicious);
      var error := OrElse(res.error, BreakerTripped(|suspicious|, suspicious[0].error));
      NextSound(opts, PerMessage(rejected), Ledger([], suspicious, true, loopAborted, false), res.(error := error));
    } else {
      NextSound(opts, rejected, Ledger([], [], false, loopAborted, false), res);
    }
  }

  lemma {:induction false} CutShortSound(opts: Options, ledger: Ledger, open: seq<Rejection>, res: Result, e: RunError)
    requires SoundLedger(opts, ledger, open, res)
    ensures SoundLedger(opts, ledger.(unsettled := ledger.unsettled + open, settleAborted := true), [],
                        res.(error := OrElse(res.error, e)))
  {
    SuspiciousConcat(ledger.unsettled, open);
  }

  lemma {:induction false} ParkedSound(
    opts: Options, ledger: Ledger, current: Rejection, todo: seq<Rejection>, res: Result)
    requires SoundLedger(opts, ledger, [current] + todo, res)
    ensures SoundLedger(opts, ledger.(settled := ledger.settled + [current]), todo, res)
  {
    SuspiciousConcat([current], todo);
    SuspiciousConcat(ledger.settled, [current]);
    assert current in [current] + todo && forall r :: r in todo ==> r in [current] + todo;
  }

  lemma NextSound(opts: Options, todo: seq<Rejection>, ledger: Ledger, res: Result)
    requires SoundLedger(opts, ledger, todo, res)
    ensures Sound(opts, SettleNext(opts, todo, ledger, res))
  {
  }

  lemma {:induction false} SettledSound(opts: Options, ctl: Control, next: Advance)
    requires ctl.Settling? && Sound(opts, ctl)
    requires next.End? ==> next.verdict.Quarantined? || next.verdict.Aborted?
    ensures Sound(opts, Settled(opts, ctl, next))
  {
    var Settling(current, _, todo, ledger, res) := ctl;
    if next.End? {
      if next.verdict.Aborted? {
        CutShortSound(opts, ledger, [current] + todo, res, next.verdict.reason);
        assert ledger.unsettled + [current] + todo == ledger.unsettled + ([current] + todo);
      } else {
        ParkedSound(opts, ledger, current, todo, res);
        NextSound(opts, todo, ledger.(settled := ledger.settled + [current]), Tally(res, next.verdict));
      }
    }
  }

  lemma {:induction false} ResumeSound(opts: Options, ctl: Control, r: Reply)
    requires !ctl.Done? && Books(ctl) && Sound(opts, ctl)
    ensures Sound(opts, Resume(opts, ctl, r))
  {
    if ctl.Working? {
      OnwardSound(opts, ctl, ctl.pc.AtInsert? && r.Accepted?, Step(opts, ctl.uid, ctl.pc, r));
    } else if ctl.Settling? {
      StepStays(opts, ctl.current.uid, ctl.pc, r);
      SettledSound(opts, ctl, Step(opts, ctl.current.uid, ctl.pc, r));
    } else if ctl.Budget? {
      StartSound(opts, ctl.rejected, ctl.res.(remaining := |ctl.queue|), false);
    } else if ctl.Listing? && r.Listed? {
      if r.uids == [] { StartSound(opts, [], EMPTY.(listed := |r.uids|), false); }
    }
  }

  lemma NextMessageSound(opts: Options, queue: seq<Uid>, rejected: seq<Rejection>, res: Result)
    ensures Sound(opts, NextMessage(opts, queue, rejected, res))
  {
    StartSound(opts, rejected, res, false);
  }

  lemma {:induction false} OnwardSound(opts: Options, ctl: Control, accepted: bool, next: Advance)
    requires ctl.Working?
    ensures Sound(opts, Onward(opts, ctl, accepted, next))
  {
    var res := if accepted then ctl.res.(forwarded := ctl.res.forwarded + 1) else ctl.res;
    OnwardIs(opts, ctl, accepted, next, res);
    if next.Go? {
    } else if next.verdict.Aborted? {
      StartSound(opts, ctl.rejected, res.(error := Some(next.verdict.reason), remaining := |ctl.queue| + 1), true);
    } else if next.verdict.Rejected? {
      var more := ctl.rejected + [Rejection(ctl.uid, next.verdict.error, next.verdict.perMessage)];
      NextMessageSound(opts, ctl.queue, more, Tally(res, next.verdict));
    } else {
      NextMessageSound(opts, ctl.queue, ctl.rejected, Tally(res, next.verdict));
    }
  }

  // ---- What may be marked as failed -------------------------------------------

  /** The control state after a list of replies, from the start of the run. */
  function Replay(opts: Options, replies: seq<Reply>): Control {
    if replies == [] then Connecting
    else
      var c := Replay(opts, replies[..|replies| - 1]);
      if c.Done? then c else Resume(opts, c, replies[|replies| - 1])
  }

  /** In this run, Gmail answered the insert of this message with a permanent status. */
  ghost predicate PermanentlyRejected(opts: Options, replies: seq<Reply>, j: Rejection) {
    exists i :: 0 <= i < |replies| && RejectedAt(opts, replies, i, j)
  }

  predicate RejectedAt(opts: Options, replies: seq<Reply>, i: nat, j: Rejection)
    requires i < |replies|
  {
    var before := Replay(opts, replies[..i]);
    && !before.Done? && NextCall(before) == Insert(j.uid)
    && replies[i].HttpError? && replies[i].status in {400, 404, 409, 410, 412, 413, 422}
    && replies[i].Text() == j.error
    && (j.perMessage <==> replies[i].status == 413)
  }

  ghost predicate AllRejected(opts: Options, replies: seq<Reply>, js: seq<Rejection>) {
    forall j :: j in js ==> PermanentlyRejected(opts, replies, j)
  }

  ghost predicate Grounded(opts: Options, replies: seq<Reply>, ctl: Control) {
    match ctl
    case Budget(_, rejected, _) => AllRejected(opts, replies, rejected)
    case Working(_, pc, _, rejected, _) => LoopPc(pc) && AllRejected(opts, replies, rejected)
    case Settling(current, pc, todo, ledger, _) =>
      SettlePc(pc) && AllRejected(opts, replies, [current] + todo) && AllRejected(opts, replies, ledger.settled)
    case Done(ledger, _) => AllRejected(opts, replies, ledger.settled)
    case _ => true
  }

  lemma RejectionStays(opts: Options, replies: seq<Reply>, r: Reply, js: seq<Rejection>)
    requires AllRejected(opts, replies, js)
    ensures AllRejected(opts, replies + [r], js)
  {
    forall j | j in js ensures PermanentlyRejected(opts, replies + [r], j) {
      var i :| 0 <= i < |replies| && RejectedAt(opts, replies, i, j);
      assert (replies + [r])[..i] == replies[..i];
      assert RejectedAt(opts, replies + [r], i, j);
    }
  }

  lemma SettlingGrounded(opts: Options, replies: seq<Reply>, rejected: seq<Rejection>, res: Result, aborted: bool)
    requires AllRejected(opts, replies, rejected)
    ensures Grounded(opts, replies, StartSettling(opts, rejected, res, aborted))
  {
    SplitMembers(rejected);
    var todo := if Trips(opts, rejected, res) then PerMessage(rejected) else rejected;
    if todo != [] { assert [todo[0]] + todo[1..] == todo; }
  }

  lemma {:induction false} RejectionNoted(opts: Options, replies: seq<Reply>, r: Reply, before: Control)
    requires before == Replay(opts, replies) && before.Working?
    requires Step(opts, before.uid, before.pc, r).End? && Step(opts, before.uid, before.pc, r).verdict.Rejected?
    ensures var v := Step(opts, before.uid, before.pc, r).verdict;
      PermanentlyRejected(opts, replies + [r], Rejection(before.uid, v.error, v.perMessage))
  {
    var v := Step(opts, before.uid, before.pc, r).verdict;
    var more := replies + [r];
    assert before.pc.AtInsert?;
    assert more[..|replies|] == replies;
    assert RejectedAt(opts, more, |replies|, Rejection(before.uid, v.error, v.perMessage));
  }

  lemma {:induction false} OnwardGrounded(
    opts: Options, replies: seq<Reply>, ctl: Control, accepted: bool, next: Advance)
    requires ctl.Working? && AllRejected(opts, replies, ctl.rejected)
    requires next.Go? ==> LoopPc(next.pc)
    requires next.End? && next.verdict.Rejected? ==>
      PermanentlyRejected(opts, replies, Rejection(ctl.uid, next.verdict.error, next.verdict.perMessage))
    ensures Grounded(opts, replies, Onward(opts, ctl, accepted, next))
  {
    var Working(uid, pc, queue, rejected, res0) := ctl;
    var res := if accepted then res0.(forwarded := res0.forwarded + 1) else res0;
    match next
    case Go(_) =>
    case End(Aborted(e)) =>
      SettlingGrounded(opts, replies, rejected, res.(error := Some(e), remaining := |queue| + 1), true);
    case End(Rejected(error, per)) =>
      SettlingGrounded(opts, replies, rejected + [Rejection(uid, error, per)], res, false);
    case End(v) => SettlingGrounded(opts, replies, rejected, Tally(res, v), false);
  }

  lemma {:induction false} SettledGrounded(opts: Options, replies: seq<Reply>, ctl: Control, next: Advance)
    requires ctl.Settling? && Grounded(opts, replies, ctl)
    requires next.Go? ==> SettlePc(next.pc)
    ensures Grounded(opts, replies, Settled(opts, ctl, next))
  {
  }

  lemma {:induction false} ReplayGrounded(opts: Options, replies: seq<Reply>)
    ensures Grounded(opts, replies, Replay(opts, replies))
    decreases |replies|
  {
    if replies != [] {
      var earlier, r := replies[..|replies| - 1], replies[|replies| - 1];
      var ctl := Replay(opts, earlier);
      assert replies == earlier + [r];
      ReplayGrounded(opts, earlier);
      match ctl
      case Budget(queue, rejected, res) =>
        RejectionStays(opts, earlier, r, rejected);
        SettlingGrounded(opts, replies, rejected, res.(remaining := |queue|), false);
      case Working(uid, pc, _, rejected, _) =>
        RejectionStays(opts, earlier, r, rejected);
        StepStays(opts, uid, pc, r);
        if Step(opts, uid, pc, r).End? && Step(opts, uid, pc, r).verdict.Rejected? {
          RejectionNoted(opts, earlier, r, ctl);
        }
        OnwardGrounded(opts, replies, ctl, pc.AtInsert? && r.Accepted?, Step(opts, uid, pc, r));
      case Settling(current, pc, todo, ledger, _) =>
        RejectionStays(opts, earlier, r, [current] + todo);
        RejectionStays(opts, earlier, r, ledger.settled);
        StepStays(opts, current.uid, pc, r);
        SettledGrounded(opts, replies, ctl, Step(opts, current.uid, pc, r));
      case Done(ledger, _) => RejectionStays(opts, earlier, r, ledger.settled);
      case Listing =>
        if r.Listed? { SettlingGrounded(opts, replies, [], EMPTY.(listed := |r.uids|), false); }
      case _ =>
    }
  }

  /** The call marks its message as failed or moves it towards the failed folder. */
  predicate TowardsFailed(c: Call) {
    match c
    case Store(_, k) => k == Failed
    case Move(_, d) => d == FailedFolder
    case Copy(_, d) => d == FailedFolder
    case StoreDeleted(_, d) => d == FailedFolder
    case Expunge(_, d) => d == FailedFolder
    case _ => false
  }

  /** A run sets a message aside as failed only after Gmail answered the insert of
      that very message, in that very run, with a permanent status. */
  lemma FailedOnlyIfRejected(opts: Options, replies: seq<Reply>)
    ensures var ctl := Replay(opts, replies);
      !ctl.Done? && TowardsFailed(NextCall(ctl)) ==>
        exists j: Rejection :: j.uid == NextCall(ctl).uid && PermanentlyRejected(opts, replies, j)
  {
    ReplayGrounded(opts, replies);
    var ctl := Replay(opts, replies);
    if ctl.Settling? { assert ctl.current in [ctl.current] + ctl.todo; }
  }

  // ---- The circuit breaker -------------------------------------------------------

  /** What the servers said in a run, as far as the breaker goes: the rejections Gmail gave,
      how many messages it accepted, and whether a move failed while rejections were being
      settled. */
  datatype Story = Story(rejections: seq<Rejection>, accepted: nat, cutShort: bool)

  predicate Rejects(ctl: Control, r: Reply) {
    ctl.Working? && ctl.pc.AtInsert? && r.HttpError? && r.status in {400, 404, 409, 410, 412, 413, 422}
  }

  predicate CutsShort(opts: Options, ctl: Control, r: Reply) {
    && ctl.Settling?
    && Step(opts, ctl.current.uid, ctl.pc, r).End? && Step(opts, ctl.current.uid, ctl.pc, r).verdict.Aborted?
  }

  function Heard(opts: Options, ctl: Control, r: Reply, past: Story): Story {
    Story(
      past.rejections + if Rejects(ctl, r) then [Rejection(ctl.uid, r.Text(), r.status == 413)] else [],
      past.accepted + if ctl.Working? && ctl.pc.AtInsert? && r.Accepted? then 1 else 0,
      past.cutShort || CutsShort(opts, ctl, r))
  }

  function Told(opts: Options, replies: seq<Reply>): Story {
    if replies == [] then Story([], 0, false)
    else
      var past := replies[..|replies| - 1];
      Heard(opts, Replay(opts, past), replies[|replies| - 1], Told(opts, past))
  }

  lemma ToldMore(opts: Options, replies: seq<Reply>, r: Reply)
    ensures Told(opts, replies + [r]) == Heard(opts, Replay(opts, replies), r, Told(opts, replies))
    ensures Replay(opts, replies + [r]) ==
      if Replay(opts, replies).Done? then Replay(opts, replies) else Resume(opts, Replay(opts, replies), r)
  {
    assert (replies + [r])[..|replies|] == replies;
  }

  /** Every permanent status Gmail gave in the run is in the story, and nothing else is. */
  lemma {:induction false} ToldRejections(opts: Options, replies: seq<Reply>, j: Rejection)
    ensures j in Told(opts, replies).rejections <==> PermanentlyRejected(opts, replies, j)
  {
    if replies != [] {
      var past, r := replies[..|replies| - 1], replies[|replies| - 1];
      assert replies == past + [r];
      ToldMore(opts, past, r);
      ToldRejections(opts, past, j);
      RejectedLast(opts, past, r, j);
    }
  }

  lemma RejectedEarlier(opts: Options, past: seq<Reply>, r: Reply, i: nat, j: Rejection)
    requires i < |past|
    ensures RejectedAt(opts, past + [r], i, j) <==> RejectedAt(opts, past, i, j)
  {
    assert (past + [r])[..i] == past[..i];
  }

  lemma InsertsWhere(ctl: Control, u: Uid)
    requires !ctl.Done? && (ctl.Settling? ==> SettlePc(ctl.pc))
    ensures NextCall(ctl) == Insert(u) <==> ctl.Working? && ctl.pc.AtInsert? && ctl.uid == u
  {
  }

  lemma RejectedNow(opts: Options, past: seq<Reply>, r: Reply, j: Rejection)
    ensures RejectedAt(opts, past + [r], |past|, j) <==>
      Rejects(Replay(opts, past), r) && j == Rejection(Replay(opts, past).uid, r.Text(), r.status == 413)
  {
    assert (past + [r])[..|past|] == past;
    var ctl := Replay(opts, past);
    ReplayGrounded(opts, past);
    if !ctl.Done? { InsertsWhere(ctl, j.uid); }
  }

  lemma RejectedLast(opts: Options, past: seq<Reply>, r: Reply, j: Rejection)
    ensures PermanentlyRejected(opts, past + [r], j) <==>
      || PermanentlyRejected(opts, past, j)
      || (Rejects(Replay(opts, past), r) && j == Rejection(Replay(opts, past).uid, r.Text(), r.status == 413))
  {
    var more := past + [r];
    RejectedNow(opts, past, r, j);
    if PermanentlyRejected(opts, past, j) {
      var i :| 0 <= i < |past| && RejectedAt(opts, past, i, j);
      RejectedEarlier(opts, past, r, i, j);
    }
    if PermanentlyRejected(opts, more, j) {
      var i :| 0 <= i < |more| && RejectedAt(opts, more, i, j);
      if i < |past| { RejectedEarlier(opts, past, r, i, j); }
    }
  }

  /** The rejections are all in the ledger, or still to be settled. */
  predicate Entered(opts: Options, story: Story, ledger: Ledger, open: seq<Rejection>, res: Result) {
    && multiset(ledger.settled) + multiset(open) + multiset(ledger.unsettled) == multiset(story.rejections)
    && (ledger.tripped <==> Trips(opts, story.rejections, res))
    && (story.cutShort <==> ledger.settleAborted) && res.forwarded == story.accepted
  }

  predicate Kept(opts: Options, story: Story, ctl: Control) {
    match ctl
    case Budget(_, rejected, res) => rejected == story.rejections && res.forwarded == story.accepted && !story.cutShort
    case Working(_, _, _, rejected, res) =>
      rejected == story.rejections && res.forwarded == story.accepted && !story.cutShort
    case Settling(current, _, todo, ledger, res) =>
      Entered(opts, story, ledger, [current] + todo, res) && !ledger.settleAborted
    case Done(ledger, res) => Entered(opts, story, ledger, [], res)
    case _ => story == Story([], 0, false)
  }

  lemma {:induction false} SplitAll(rs: seq<Rejection>)
    ensures multiset(Suspicious(rs)) + multiset(PerMessage(rs)) == multiset(rs)
  {
    if rs != [] {
      SplitAll(rs[1..]);
      assert rs == [rs[0]] + rs[1..];
    }
  }

  lemma SettleNextKept(opts: Options, story: Story, todo: seq<Rejection>, ledger: Ledger, res: Result)
    requires Entered(opts, story, ledger, todo, res) && !ledger.settleAborted
    ensures Kept(opts, story, SettleNext(opts, todo, ledger, res))
  {
    if todo != [] { assert [todo[0]] + todo[1..] == todo; }
  }

  lemma StartKept(opts: Options, story: Story, rejected: seq<Rejection>, res: Result, aborted: bool)
    requires rejected == story.rejections && res.forwarded == story.accepted && !story.cutShort
    ensures Kept(opts, story, StartSettling(opts, rejected, res, aborted))
  {
    var suspicious, sized := Suspicious(rejected), PerMessage(rejected);
    SplitAll(rejected);
    if Trips(opts, rejected, res) {
      var res' := res.(error := OrElse(res.error, BreakerTripped(|suspicious|, suspicious[0].error)));
      var ledger := Ledger([], suspicious, true, aborted, false);
      assert Entered(opts, story, ledger, sized, res');
      SettleNextKept(opts, story, sized, ledger, res');
    } else {
      SettleNextKept(opts, story, rejected, Ledger([], [], false, aborted, false), res);
    }
  }

  lemma NextKept(opts: Options, story: Story, queue: seq<Uid>, rejected: seq<Rejection>, res: Result)
    requires rejected == story.rejections && res.forwarded == story.accepted && !story.cutShort
    ensures Kept(opts, story, NextMessage(opts, queue, rejected, res))
  {
    if queue == [] { StartKept(opts, story, rejected, res, false); }
  }

  lemma RejectsIsRejected(opts: Options, ctl: Control, r: Reply)
    requires ctl.Working?
    ensures var next := Step(opts, ctl.uid, ctl.pc, r);
      && (Rejects(ctl, r) <==> next.End? && next.verdict.Rejected?)
      && (Rejects(ctl, r) ==> next.verdict == Rejected(r.Text(), r.status == 413))
  {
  }

  lemma OnwardKept(opts: Options, told: Story, ctl: Control, accepted: bool, next: Advance)
    requires ctl.Working? && !told.cutShort
    requires told.accepted == ctl.res.forwarded + if accepted then 1 else 0
    requires told.rejections ==
      if next.End? && next.verdict.Rejected? then
        ctl.rejected + [Rejection(ctl.uid, next.verdict.error, next.verdict.perMessage)]
      else ctl.rejected
    ensures Kept(opts, told, Onward(opts, ctl, accepted, next))
  {
    var res := if accepted then ctl.res.(forwarded := ctl.res.forwarded + 1) else ctl.res;
    OnwardIs(opts, ctl, accepted, next, res);
    if next.Go? {
    } else if next.verdict.Aborted? {
      var stopped := res.(error := Some(next.verdict.reason), remaining := |ctl.queue| + 1);
      StartKept(opts, told, ctl.rejected, stopped, true);
    } else {
      NextKept(opts, told, ctl.queue, told.rejections, Tally(res, next.verdict));
    }
  }

  lemma {:induction false} WorkKept(opts: Options, story: Story, ctl: Control, r: Reply)
    requires ctl.Working? && Kept(opts, story, ctl)
    ensures Kept(opts, Heard(opts, ctl, r, story), Resume(opts, ctl, r))
  {
    RejectsIsRejected(opts, ctl, r);
    assert story.rejections + [] == story.rejections;
    OnwardKept(opts, Heard(opts, ctl, r, story), ctl, ctl.pc.AtInsert? && r.Accepted?, Step(opts, ctl.uid, ctl.pc, r));
  }

  lemma SettledKept(opts: Options, story: Story, ctl: Control)
    requires ctl.Settling? && Kept(opts, story, ctl)
    ensures Kept(opts, story, Settled(opts, ctl, End(Quarantined)))
  {
    var Settling(current, _, todo, ledger, res) := ctl;
    var ledger' := ledger.(settled := ledger.settled + [current]);
    assert multiset(ledger'.settled) == multiset(ledger.settled) + multiset{current};
    assert multiset([current] + todo) == multiset{current} + multiset(todo);
    assert Entered(opts, story, ledger', todo, Tally(res, Quarantined));
    SettleNextKept(opts, story, todo, ledger', Tally(res, Quarantined));
  }

  lemma CutShortKept(opts: Options, story: Story, ctl: Control, e: RunError)
    requires ctl.Settling? && Kept(opts, story, ctl)
    ensures Kept(opts, story.(cutShort := true), Settled(opts, ctl, End(Aborted(e))))
  {
    var Settling(current, _, todo, ledger, _) := ctl;
    assert multiset([current] + todo) == multiset{current} + multiset(todo);
    assert multiset(ledger.unsettled + [current] + todo) ==
      multiset(ledger.unsettled) + multiset{current} + multiset(todo);
  }

  lemma {:induction false} SettleKept(opts: Options, story: Story, ctl: Control, r: Reply)
    requires ctl.Settling? && Kept(opts, story, ctl) && SettlePc(ctl.pc)
    ensures Kept(opts, Heard(opts, ctl, r, story), Resume(opts, ctl, r))
  {
    var next, told := Step(opts, ctl.current.uid, ctl.pc, r), Heard(opts, ctl, r, story);
    StepStays(opts, ctl.current.uid, ctl.pc, r);
    assert told.rejections == story.rejections;
    if next.End? && next.verdict.Aborted? {
      CutShortKept(opts, story, ctl, next.verdict.reason);
      assert told == story.(cutShort := true);
    } else {
      assert told == story;
      if next.End? { SettledKept(opts, story, ctl); }
    }
  }

  lemma SetupKept(opts: Options, r: Reply)
    ensures Kept(opts, Story([], 0, false), SetupFailed(r))
  {
    assert Suspicious([]) == [];
  }

  lemma BudgetKept(opts: Options, story: Story, ctl: Control, r: Reply)
    requires ctl.Budget? && Kept(opts, story, ctl)
    ensures Kept(opts, story, Resume(opts, ctl, r))
  {
    if ctl.queue == [] || r == Clock(true) {
      StartKept(opts, story, ctl.rejected, ctl.res.(remaining := |ctl.queue|), false);
    }
  }

  lemma ListingKept(opts: Options, r: Reply)
    ensures Kept(opts, Story([], 0, false), Resume(opts, Listing, r))
  {
    SetupLeads(opts, r);
    if r.Listed? {
      NextKept(opts, Story([], 0, false), r.uids, [], EMPTY.(listed := |r.uids|));
    } else {
      SetupKept(opts, r);
    }
  }

  lemma {:induction false} EarlyKept(opts: Options, story: Story, ctl: Control, r: Reply)
    requires Early(ctl) && !ctl.Working? && Kept(opts, story, ctl)
    ensures Kept(opts, Heard(opts, ctl, r, story), Resume(opts, ctl, r))
  {
    assert Heard(opts, ctl, r, story) == story;
    if ctl.Budget? {
      BudgetKept(opts, story, ctl, r);
    } else if ctl.Listing? {
      ListingKept(opts, r);
    } else {
      SetupKept(opts, r);
      SetupLeads(opts, r);
    }
  }

  lemma {:induction false} AlwaysKept(opts: Options, replies: seq<Reply>)
    ensures Kept(opts, Told(opts, replies), Replay(opts, replies))
    decreases |replies|
  {
    if replies != [] {
      var past, r := replies[..|replies| - 1], replies[|replies| - 1];
      var ctl := Replay(opts, past);
      assert replies == past + [r];
      AlwaysKept(opts, past);
      ToldMore(opts, past, r);
      ReplayGrounded(opts, past);
      KeptOn(opts, Told(opts, past), ctl, r);
    }
  }

  lemma {:induction false} KeptOn(opts: Options, story: Story, ctl: Control, r: Reply)
    requires Kept(opts, story, ctl) && (ctl.Settling? ==> SettlePc(ctl.pc))
    ensures Kept(opts, Heard(opts, ctl, r, story), if ctl.Done? then ctl else Resume(opts, ctl, r))
  {
    if ctl.Working? {
      WorkKept(opts, story, ctl, r);
    } else if ctl.Settling? {
      SettleKept(opts, story, ctl, r);
    } else if !ctl.Done? {
      EarlyKept(opts, story, ctl, r);
    } else {
      assert Heard(opts, ctl, r, story) == story;
    }
  }

  lemma {:induction false} AlwaysSound(opts: Options, replies: seq<Reply>)
    ensures Books(Replay(opts, replies)) && Sound(opts, Replay(opts, replies))
    decreases |replies|
  {
    if replies != [] {
      var past, r := replies[..|replies| - 1], replies[|replies| - 1];
      AlwaysSound(opts, past);
      if !Replay(opts, past).Done? {
        ResumeBooks(opts, Replay(opts, past), r);
        ResumeSound(opts, Replay(opts, past), r);
      }
    }
  }

  /** The circuit breaker, over every run and every permanent status Gmail gave in it.  It
      trips exactly when it is enabled, nothing was accepted and at least `threshold`
      messages were rejected for a reason that may be the account's.  If it trips, the run
      reports an error, every such message is left alone, and every message rejected for its
      own size is settled unless a move failed; if not, all are settled unless a move failed. */
  lemma CircuitBreaker(opts: Options, replies: seq<Reply>, j: Rejection)
    requires Replay(opts, replies).Done?
    ensures var Done(ledger, res), told := Replay(opts, replies), Told(opts, replies);
      && (ledger.tripped <==>
            opts.threshold != 0 && |Suspicious(told.rejections)| >= opts.threshold && told.accepted == 0)
      && (opts.threshold >= 1 && |Suspicious(ledger.settled)| >= opts.threshold ==> told.accepted >= 1)
      && (ledger.tripped ==> !res.IsOk())
      && |ledger.settled| + |ledger.unsettled| == |told.rejections|
      && (PermanentlyRejected(opts, replies, j) <==> j in ledger.settled || j in ledger.unsettled)
      && (PermanentlyRejected(opts, replies, j) && !(ledger.tripped && !j.perMessage) && !told.cutShort ==>
            j in ledger.settled && j !in ledger.unsettled)
      && (PermanentlyRejected(opts, replies, j) && ledger.tripped && !j.perMessage ==>
            j in ledger.unsettled && j !in ledger.settled)
  {
    var Done(ledger, res) := Replay(opts, replies);
    AlwaysKept(opts, replies);
    AlwaysSound(opts, replies);
    ToldRejections(opts, replies, j);
    var all := multiset(Told(opts, replies).rejections);
    assert j in Told(opts, replies).rejections <==> j in all;
    assert j in multiset(ledger.settled) + multiset(ledger.unsettled) <==> j in ledger.settled || j in ledger.unsettled;
    assert |all| == |multiset(ledger.settled)| + |multiset(ledger.unsettled)|;
    UnsettledKind(opts, ledger, res);
  }

  lemma UnsettledKind(opts: Options, ledger: Ledger, res: Result)
    requires SoundLedger(opts, ledger, [], res)
    ensures ledger.tripped ==> AllPerMessage(ledger.settled)
    ensures ledger.tripped && !ledger.settleAborted ==> forall j :: j in ledger.unsettled ==> !j.perMessage
    ensures !ledger.tripped && !ledger.settleAborted ==> ledger.unsettled == []
    ensures opts.threshold >= 1 && |Suspicious(ledger.settled)| >= opts.threshold ==> res.forwarded > 0
  {
    if ledger.tripped { SuspiciousOfPure(ledger.settled); }
  }

  /** What a server replies to a run. */
  function Said(serve: Serve, opts: Options, n: nat, box: Mailbox, ctl: Control): seq<Reply>
    decreases Phase(ctl), Weight(ctl)
  {
    if ctl.Done? then []
    else
      var (r, box') := serve(n, box, NextCall(ctl));
      ResumeDecreases(opts, ctl, r);
      [r] + Said(serve, opts, n + 1, box', Resume(opts, ctl, r))
  }

  /** One more reply: the run, and what is said in it, goes on from there. */
  lemma SaidNext(serve: Serve, opts: Options, n: nat, box: Mailbox, ctl: Control, r: Reply, box': Mailbox)
    requires !ctl.Done? && serve(n, box, NextCall(ctl)) == (r, box')
    ensures Said(serve, opts, n, box, ctl) == [r] + Said(serve, opts, n + 1, box', Resume(opts, ctl, r))
    ensures Final(serve, opts, n, box, ctl) == Final(serve, opts, n + 1, box', Resume(opts, ctl, r))
  {
  }

  lemma ThenRest(past: seq<Reply>, r: Reply, rest: seq<Reply>)
    ensures past + ([r] + rest) == (past + [r]) + rest
  {
  }

  lemma {:induction false} FinalIsReplayFrom(
    serve: Serve, opts: Options, n: nat, box: Mailbox, ctl: Control, past: seq<Reply>)
    requires Replay(opts, past) == ctl
    ensures Replay(opts, past + Said(serve, opts, n, box, ctl)) == Final(serve, opts, n, box, ctl).1
    decreases Phase(ctl), Weight(ctl)
  {
    if ctl.Done? {
      assert past + [] == past;
    } else {
      var (r, box') := serve(n, box, NextCall(ctl));
      ResumeDecreases(opts, ctl, r);
      ToldMore(opts, past, r);
      SaidNext(serve, opts, n, box, ctl, r, box');
      ThenRest(past, r, Said(serve, opts, n + 1, box', Resume(opts, ctl, r)));
      FinalIsReplayFrom(serve, opts, n + 1, box', Resume(opts, ctl, r), past + [r]);
    }
  }

  /** The end of a run follows from what was said in it. */
  lemma FinalIsReplay(serve: Serve, opts: Options, box: Mailbox)
    ensures Replay(opts, Said(serve, opts, 0, box, Connecting)) == Final(serve, opts, 0, box, Connecting).1
  {
    FinalIsReplayFrom(serve, opts, 0, box, Connecting, []);
    assert [] + Said(serve, opts, 0, box, Connecting) == Said(serve, opts, 0, box, Connecting);
  }

  /** The account, not the message, is at fault. */
  predicate AuthFailure(r: Reply) {
    r.RefreshError? || (r.HttpError? && r.status == 401)
  }

  /** The message loop is over, with an error and with `left` messages not handled. */
  predicate Stopped(ctl: Control, left: nat) {
    && !Early(ctl) && (ctl.Settling? ==> SettlePc(ctl.pc))
    && ctl.res.error.Some? && ctl.res.remaining == left
  }

  lemma {:induction false} StaysStopped(opts: Options, ctl: Control, r: Reply, left: nat)
    requires Stopped(ctl, left) && !ctl.Done?
    ensures Stopped(Resume(opts, ctl, r), left)
  {
    StepStays(opts, ctl.current.uid, ctl.pc, r);
  }

  lemma {:induction false} AuthFailureStops(opts: Options, ctl: Control, r: Reply)
    requires ctl.Working? && ctl.pc.AtInsert? && AuthFailure(r)
    ensures Stopped(Resume(opts, ctl, r), |ctl.queue| + 1)
  {
    assert AfterInsert(r).End? && AfterInsert(r).verdict.Aborted?;
  }

  lemma StoppedSendsNothing(ctl: Control, left: nat)
    requires Stopped(ctl, left)
    ensures ctl.Done? || !NextCall(ctl).Insert?
  {
  }

  lemma ReplayMore(opts: Options, replies: seq<Reply>, j: nat)
    requires 0 < j <= |replies|
    ensures var c := Replay(opts, replies[..j - 1]);
      Replay(opts, replies[..j]) == if c.Done? then c else Resume(opts, c, replies[j - 1])
  {
    assert replies[..j][..j - 1] == replies[..j - 1];
  }

  lemma {:induction false} StoppedOnwards(opts: Options, replies: seq<Reply>, i: nat, j: nat, left: nat)
    requires i <= j <= |replies| && Stopped(Replay(opts, replies[..i]), left)
    ensures Stopped(Replay(opts, replies[..j]), left)
    decreases j
  {
    if i < j {
      var ctl := Replay(opts, replies[..j - 1]);
      StoppedOnwards(opts, replies, i, j - 1, left);
      ReplayMore(opts, replies, j);
      if !ctl.Done? { StaysStopped(opts, ctl, replies[j - 1], left); }
    }
  }

  /** An authentication failure stops the run: Gmail is not asked again, an error is
      reported, and the message in hand and all after it are left for the next run. */
  lemma NothingSentAfterAuthFailure(opts: Options, replies: seq<Reply>, i: nat, j: nat, before: Control)
    requires i < j <= |replies| && before == Replay(opts, replies[..i])
    requires before.Working? && before.pc.AtInsert? && AuthFailure(replies[i])
    ensures var ctl := Replay(opts, replies[..j]);
      Stopped(ctl, |before.queue| + 1) && (ctl.Done? || !NextCall(ctl).Insert?)
  {
    AuthFailureStops(opts, before, replies[i]);
    ReplayMore(opts, replies, i + 1);
    StoppedOnwards(opts, replies, i + 1, j, |before.queue| + 1);
    StoppedSendsNothing(Replay(opts, replies[..j]), |before.queue| + 1);
  }

  // ---- The first error ----------------------------------------------------------

  function ErrorOf(ctl: Control): Option<RunError> {
    match ctl
    case Budget(_, _, res) => res.error
    case Working(_, _, _, _, res) => res.error
    case Settling(_, _, _, _, res) => res.error
    case Done(_, res) => res.error
    case _ => None
  }

  /** The first error of a run is never overwritten. */
  lemma {:induction false} FirstErrorKept(serve: Serve, opts: Options, n: nat, box: Mailbox, ctl: Control, e: RunError)
    requires Books(ctl) && ErrorOf(ctl) == Some(e)
    ensures ErrorOf(Final(serve, opts, n, box, ctl).1) == Some(e)
    decreases Phase(ctl), Weight(ctl)
  {
    if !ctl.Done? {
      var (r, box') := serve(n, box, NextCall(ctl));
      ResumeDecreases(opts, ctl, r);
      ResumeBooks(opts, ctl, r);
      StepStays(opts, ctl.current.uid, ctl.pc, r);
      FirstErrorKept(serve, opts, n + 1, box', Resume(opts, ctl, r), e);
    }
  }
}
