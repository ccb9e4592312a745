/** One forwarding run as a small-step machine: `NextCall` is the call the process
    is about to make, `Resume` its control state once the reply is in.  A crash may
    come between any two calls, or after a call took effect and before its reply. */
module Run {
  import opened Mail
  import Gmail

  datatype Options = Options(labelled: bool, keywordMode: bool, threshold: nat)

  datatype RunError =
    | Setup(text: string)
    | Auth(text: string)
    | FetchFailure(uid: Uid, text: string)
    | MoveFailure(uid: Uid, dest: Dest, text: string)
    | BreakerTripped(count: nat, first: string)
  {
    /** The empty string, which `or` treats like no error at all. */
    predicate Blank() {
      (Setup? || Auth?) && text == ""
    }
  }

  datatype Result = Result(
    listed: nat, forwarded: nat, trashed: nat, skipped: nat, retryLater: nat,
    quarantined: nat, remaining: nat, error: Option<RunError>)
  {
    predicate IsOk() { error.None? }

    /** Every listed message was handled or left, but for `open` ones. */
    predicate Balanced(open: nat) {
      listed == trashed + skipped + retryLater + quarantined + remaining + open
    }
  }

  const EMPTY := Result(0, 0, 0, 0, 0, 0, 0, None)

  datatype Rejection = Rejection(uid: Uid, error: string, perMessage: bool)

  // ---- One message ----------------------------------------------------------

  datatype Pc =
    | AtFetch
    | AtInsert
    | AtStore(mark: Mark)
    | AtRefetch(mark: Mark)
    | AtLocate(dest: Dest)
    | AtMove(dest: Dest)
    | AtCopy(dest: Dest)
    | AtStoreDeleted(dest: Dest)
    | AtExpunge(dest: Dest)

  datatype Verdict =
    | Skipped
    | RetryLater
    | Rejected(error: string, perMessage: bool)
    | Trashed
    | Quarantined
    | Aborted(reason: RunError)
  {
    predicate MoveFailed() {
      Aborted? && reason.MoveFailure?
    }
  }

  datatype Advance = Go(pc: Pc) | End(verdict: Verdict)

  function CallAt(uid: Uid, pc: Pc): (c: Call)
    ensures c.AboutMessage() && c.uid == uid
  {
    match pc
    case AtFetch => Fetch(uid)
    case AtInsert => Insert(uid)
    case AtStore(k) => Store(uid, k)
    case AtRefetch(k) => Refetch(uid, k)
    case AtLocate(d) => Locate(uid, d)
    case AtMove(d) => Move(uid, d)
    case AtCopy(d) => Copy(uid, d)
    case AtStoreDeleted(d) => StoreDeleted(uid, d)
    case AtExpunge(d) => Expunge(uid, d)
  }

  function FolderFor(k: Mark): Dest {
    if k == Failed then FailedFolder else UnverifiedFolder
  }

  /** Where a quarantine under keyword `k` starts. */
  function QuarantineStart(opts: Options, k: Mark): Pc {
    if opts.keywordMode then AtStore(k) else AtLocate(FolderFor(k))
  }

  function Confirmed(k: Mark): Advance {
    if k == Inserted then Go(AtLocate(Trash)) else End(Quarantined)
  }

  function Refused(opts: Options, k: Mark): Advance {
    if k == Inserted then Go(QuarantineStart(opts, Unverified)) else Go(AtLocate(FolderFor(k)))
  }

  function Landed(d: Dest): Advance {
    End(if d == Trash then Trashed else Quarantined)
  }

  function Broken(uid: Uid, d: Dest, r: Reply): Advance {
    End(Aborted(MoveFailure(uid, d, r.Text())))
  }

  function AfterFetch(uid: Uid, r: Reply): Advance {
    match r
    case Gone => End(Skipped)
    case Fetched(marks) =>
      if Failed in marks || Unverified in marks then End(Skipped)
      else if Inserted in marks then Go(AtLocate(Trash))
      else Go(AtInsert)
    case _ => End(Aborted(FetchFailure(uid, r.Text())))
  }

  function AfterInsert(r: Reply): Advance {
    match r
    case Accepted => Go(AtStore(Inserted))
    case RefreshError(_) => End(Aborted(Auth(r.Text())))
    case HttpError(status, _) =>
      (match Gmail.Classify(status)
       case AuthError => End(Aborted(Auth(r.Text())))
       case RetryableError => End(RetryLater)
       case PermanentError => End(Rejected(r.Text(), status == Gmail.PER_MESSAGE_STATUS)))
    case _ => End(RetryLater)
  }

  function Step(opts: Options, uid: Uid, pc: Pc, r: Reply): Advance {
    match pc
    case AtFetch => AfterFetch(uid, r)
    case AtInsert => AfterInsert(r)
    case AtStore(k) =>
      if r == Flags(true) then Confirmed(k) else if r == Flags(false) then Go(AtRefetch(k)) else Refused(opts, k)
    case AtRefetch(k) => if r == Flags(true) then Confirmed(k) else Refused(opts, k)
    case AtLocate(d) =>
      if r == Found(MoveCommand) then Go(AtMove(d)) else if r == Found(UidPlus) then Go(AtCopy(d))
        else Broken(uid, d, r)
    case AtMove(d) => if r.Ok? then Landed(d) else Broken(uid, d, r)
    case AtCopy(d) => if r.Ok? then Go(AtStoreDeleted(d)) else Broken(uid, d, r)
    case AtStoreDeleted(d) => if r.Ok? then Go(AtExpunge(d)) else Broken(uid, d, r)
    case AtExpunge(d) => if r.Ok? then Landed(d) else Broken(uid, d, r)
  }

  /** The replies take the process from `pc` to `next`, and not one of them is left over. */
  predicate Plays(opts: Options, uid: Uid, pc: Pc, replies: seq<Reply>, next: Advance)
    decreases |replies|
  {
    replies != [] &&
    var s := Step(opts, uid, pc, replies[0]);
    if |replies| == 1 then s == next else s.Go? && Plays(opts, uid, s.pc, replies[1..], next)
  }

  lemma PlaysMore(opts: Options, uid: Uid, pc: Pc, r: Reply, rest: seq<Reply>, next: Advance)
    requires rest != []
    ensures Plays(opts, uid, pc, [r] + rest, next) <==>
      Step(opts, uid, pc, r).Go? && Plays(opts, uid, Step(opts, uid, pc, r).pc, rest, next)
  {
    assert ([r] + rest)[1..] == rest;
  }

  /** The steps of a message in the main loop: never towards "failed". */
  predicate LoopPc(pc: Pc) {
    match pc
    case AtFetch => true
    case AtInsert => true
    case AtStore(k) => k != Failed
    case AtRefetch(k) => k != Failed
    case _ => pc.dest != FailedFolder
  }

  /** The steps of a rejected message while it is settled: only towards "failed". */
  predicate SettlePc(pc: Pc) {
    match pc
    case AtFetch => false
    case AtInsert => false
    case AtStore(k) => k == Failed
    case AtRefetch(k) => k == Failed
    case _ => pc.dest == FailedFolder
  }

  lemma StepStays(opts: Options, uid: Uid, pc: Pc, r: Reply)
    ensures var s := Step(opts, uid, pc, r); s.Go? && LoopPc(pc) ==> LoopPc(s.pc)
    ensures var s := Step(opts, uid, pc, r); s.Go? && SettlePc(pc) ==> SettlePc(s.pc)
    ensures var s := Step(opts, uid, pc, r);
      s.End? && SettlePc(pc) ==> s.verdict.Quarantined? || s.verdict.MoveFailed()
  {
  }

  function PcRank(pc: Pc): (n: nat)
    ensures 0 < n < 20
  {
    match pc
    case AtFetch => 12
    case AtInsert => 11
    case AtStore(k) => if k == Inserted then 10 else 8
    case AtRefetch(k) => if k == Inserted then 9 else 7
    case AtLocate(_) => 6
    case AtMove(_) => 5
    case AtCopy(_) => 4
    case AtStoreDeleted(_) => 3
    case AtExpunge(_) => 2
  }

  // ---- The whole run --------------------------------------------------------

  /** What became of the rejections, and how the run ended. */
  datatype Ledger = Ledger(
    settled: seq<Rejection>, unsettled: seq<Rejection>, tripped: bool, loopAborted: bool, settleAborted: bool)

  datatype Control =
    | Connecting
    | Labelling
    | Listing
    | Budget(queue: seq<Uid>, rejected: seq<Rejection>, res: Result)
    | Working(uid: Uid, pc: Pc, queue: seq<Uid>, rejected: seq<Rejection>, res: Result)
    | Settling(current: Rejection, pc: Pc, todo: seq<Rejection>, ledger: Ledger, res: Result)
    | Done(ledger: Ledger, res: Result)

  function Suspicious(rs: seq<Rejection>): (s: seq<Rejection>)
    ensures |s| <= |rs|
  {
    if rs == [] then [] else (if rs[0].perMessage then [] else [rs[0]]) + Suspicious(rs[1..])
  }

  function PerMessage(rs: seq<Rejection>): (s: seq<Rejection>)
    ensures |s| + |Suspicious(rs)| == |rs|
  {
    if rs == [] then [] else (if rs[0].perMessage then [rs[0]] else []) + PerMessage(rs[1..])
  }

  lemma SplitMembers(rs: seq<Rejection>)
    ensures forall r :: r in Suspicious(rs) <==> r in rs && !r.perMessage
    ensures forall r :: r in PerMessage(rs) <==> r in rs && r.perMessage
  {
  }

  predicate Trips(opts: Options, rejected: seq<Rejection>, res: Result) {
    opts.threshold != 0 && |Suspicious(rejected)| >= opts.threshold && res.forwarded == 0
  }

  /** `error or e`: the first error wins, unless it is the empty string. */
  function OrElse(error: Option<RunError>, e: RunError): Option<RunError> {
    if error.Some? && !error.value.Blank() then error else Some(e)
  }

  function SettleNext(opts: Options, todo: seq<Rejection>, ledger: Ledger, res: Result): (c: Control)
    ensures c.Done? || (c.Settling? && |c.todo| < |todo|)
  {
    if todo == [] then Done(ledger, res)
    else Settling(todo[0], QuarantineStart(opts, Failed), todo[1..], ledger, res)
  }

  function StartSettling(opts: Options, rejected: seq<Rejection>, res: Result, loopAborted: bool): (c: Control)
    ensures c.Settling? || c.Done?
  {
    if Trips(opts, rejected, res) then
      var suspicious := Suspicious(rejected);
      var error := OrElse(res.error, BreakerTripped(|suspicious|, suspicious[0].error));
      SettleNext(opts, PerMessage(rejected), Ledger([], suspicious, true, loopAborted, false), res.(error := error))
    else
      SettleNext(opts, rejected, Ledger([], [], false, loopAborted, false), res)
  }

  function NextMessage(opts: Options, queue: seq<Uid>, rejected: seq<Rejection>, res: Result): (c: Control)
    ensures (c.Budget? && c.queue == queue) || c.Settling? || c.Done?
  {
    if queue == [] then StartSettling(opts, rejected, res, false) else Budget(queue, rejected, res)
  }

  function NextCall(ctl: Control): Call
    requires !ctl.Done?
  {
    match ctl
    case Connecting => Connect
    case Labelling => EnsureLabel
    case Listing => List
    case Budget(_, _, _) => ReadClock
    case Working(uid, pc, _, _, _) => CallAt(uid, pc)
    case Settling(current, pc, _, _, _) => CallAt(current.uid, pc)
  }

  const NO_LEDGER := Ledger([], [], false, false, false)

  function SetupFailed(r: Reply): Control {
    Done(NO_LEDGER, EMPTY.(error := Some(Setup(r.Text()))))
  }

  function Tally(res: Result, v: Verdict): Result {
    match v
    case Skipped => res.(skipped := res.skipped + 1)
    case RetryLater => res.(retryLater := res.retryLater + 1)
    case Rejected(_, _) => res
    case Trashed => res.(trashed := res.trashed + 1)
    case Quarantined => res.(quarantined := res.quarantined + 1)
    case Aborted(_) => res
  }

  /** The run after one step of the message in hand: `next` is that step. */
  function Onward(opts: Options, ctl: Control, accepted: bool, next: Advance): (c: Control)
    requires ctl.Working?
    ensures c.Working? ==> next.Go? && c.pc == next.pc && c.queue == ctl.queue
    ensures c.Budget? ==> c.queue == ctl.queue
    ensures c.Working? || c.Budget? || c.Settling? || c.Done?
  {
    var Working(uid, _, queue, rejected, res0) := ctl;
    var res := if accepted then res0.(forwarded := res0.forwarded + 1) else res0;
    match next
    case Go(pc') => Working(uid, pc', queue, rejected, res)
    case End(Aborted(e)) =>
      StartSettling(opts, rejected, res.(error := Some(e), remaining := |queue| + 1), true)
    case End(Rejected(error, per)) =>
      NextMessage(opts, queue, rejected + [Rejection(uid, error, per)], res)
    case End(v) => NextMessage(opts, queue, rejected, Tally(res, v))
  }

  /** Where a step in the main loop leads. */
  lemma OnwardIs(opts: Options, ctl: Control, accepted: bool, next: Advance, res: Result)
    requires ctl.Working? && res == if accepted then ctl.res.(forwarded := ctl.res.forwarded + 1) else ctl.res
    ensures next.Go? ==> Onward(opts, ctl, accepted, next) == Working(ctl.uid, next.pc, ctl.queue, ctl.rejected, res)
    ensures next.End? && next.verdict.Aborted? ==>
      Onward(opts, ctl, accepted, next) ==
        StartSettling(opts, ctl.rejected, res.(error := Some(next.verdict.reason), remaining := |ctl.queue| + 1), true)
    ensures next.End? && next.verdict.Rejected? ==>
      Onward(opts, ctl, accepted, next) ==
        NextMessage(opts, ctl.queue,
          ctl.rejected + [Rejection(ctl.uid, next.verdict.error, next.verdict.perMessage)], Tally(res, next.verdict))
    ensures next.End? && !next.verdict.Aborted? && !next.verdict.Rejected? ==>
      Onward(opts, ctl, accepted, next) == NextMessage(opts, ctl.queue, ctl.rejected, Tally(res, next.verdict))
  {
  }

  function Settled(opts: Options, ctl: Control, next: Advance): (c: Control)
    requires ctl.Settling?
    ensures c.Done? || (c.Settling? && next.Go? && c.pc == next.pc && c.todo == ctl.todo)
         || (c.Settling? && |c.todo| < |ctl.todo|)
  {
    var Settling(current, _, todo, ledger, res) := ctl;
    match next
    case Go(pc') => Settling(current, pc', todo, ledger, res)
    case End(Aborted(e)) =>
      Done(ledger.(unsettled := ledger.unsettled + [current] + todo, settleAborted := true),
           res.(error := OrElse(res.error, e)))
    case End(v) => SettleNext(opts, todo, ledger.(settled := ledger.settled + [current]), Tally(res, v))
  }

  function Resume(opts: Options, ctl: Control, r: Reply): Control
    requires !ctl.Done?
  {
    match ctl
    case Connecting =>
      if r == Connected(true) then (if opts.labelled then Labelling else Listing) else SetupFailed(r)
    case Labelling => if r.Ok? then Listing else SetupFailed(r)
    case Listing =>
      if r.Listed? then NextMessage(opts, r.uids, [], EMPTY.(listed := |r.uids|)) else SetupFailed(r)
    case Budget(queue, rejected, res) =>
      if queue == [] || r == Clock(true) then
        StartSettling(opts, rejected, res.(remaining := |queue|), false)
      else
        Working(queue[0], AtFetch, queue[1..], rejected, res)
    case Working(uid, pc, _, _, _) => Onward(opts, ctl, pc.AtInsert? && r.Accepted?, Step(opts, uid, pc, r))
    case Settling(current, pc, _, _, _) => Settled(opts, ctl, Step(opts, current.uid, pc, r))
  }

  /** The run has not yet decided about its rejections. */
  predicate Early(ctl: Control) {
    !ctl.Settling? && !ctl.Done?
  }

  function Phase(ctl: Control): nat {
    match ctl
    case Connecting => 5
    case Labelling => 4
    case Listing => 3
    case Budget(_, _, _) => 2
    case Working(_, _, _, _, _) => 2
    case Settling(_, _, _, _, _) => 1
    case Done(_, _) => 0
  }

  function Weight(ctl: Control): nat {
    match ctl
    case Budget(queue, _, _) => 20 * |queue|
    case Working(_, pc, queue, _, _) => 20 * |queue| + PcRank(pc)
    case Settling(_, pc, todo, _, _) => 20 * |todo| + PcRank(pc)
    case _ => 0
  }

  predicate Smaller(c': Control, c: Control) {
    Phase(c') < Phase(c) || (Phase(c') == Phase(c) && Weight(c') < Weight(c))
  }

  lemma StepDecreases(opts: Options, uid: Uid, pc: Pc, r: Reply)
    ensures Step(opts, uid, pc, r).Go? ==> PcRank(Step(opts, uid, pc, r).pc) < PcRank(pc)
  {
  }

  /** Every reply brings the run strictly closer to its end, whatever it says. */
  lemma {:induction false} ResumeDecreases(opts: Options, ctl: Control, r: Reply)
    requires !ctl.Done?
    ensures Smaller(Resume(opts, ctl, r), ctl)
  {
    match ctl
    case Working(uid, pc, _, _, _) => StepDecreases(opts, uid, pc, r);
    case Settling(current, pc, _, _, _) => StepDecreases(opts, current.uid, pc, r);
    case _ =>
  }

  /** A server: what the n-th call of the run returns and leaves behind. */
  type Serve = (nat, Mailbox, Call) -> (Reply, Mailbox)

  /** The end of a run against a given server: final mailbox and control state. */
  function Final(serve: Serve, opts: Options, n: nat, box: Mailbox, ctl: Control): (f: (Mailbox, Control))
    ensures f.1.Done?
    decreases Phase(ctl), Weight(ctl)
  {
    if ctl.Done? then (box, ctl)
    else
      var (r, box') := serve(n, box, NextCall(ctl));
      ResumeDecreases(opts, ctl, r);
      Final(serve, opts, n + 1, box', Resume(opts, ctl, r))
  }

  /** The mailbox and control state after `k` calls (fewer if the run ends first). */
  function After(serve: Serve, opts: Options, n: nat, box: Mailbox, ctl: Control, k: nat): (Mailbox, Control)
    decreases k
  {
    if k == 0 || ctl.Done? then (box, ctl)
    else
      var (r, box') := serve(n, box, NextCall(ctl));
      After(serve, opts, n + 1, box', Resume(opts, ctl, r), k - 1)
  }
}
