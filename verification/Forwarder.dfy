/** The sync loop as the forwarder runs it (forwarder.py): counters, rejection list
    and mailbox change step by step.  Every call goes through `Session.Do`, which
    demands that it is the call the machine of module Run makes next; so each method
    is proved to follow that machine, and its theorems hold of this code. */
module Forwarder {
  import opened Mail
  import opened Run
  import Accounts
  import Events

  /** The control state once the message in hand has taken the step `next`. */
  ghost function Taken(opts: Options, ctl: Control, next: Advance): Control
    requires ctl.Working? || ctl.Settling?
  {
    if ctl.Working? then Onward(opts, ctl, false, next) else Settled(opts, ctl, next)
  }

  /** The process goes on with the same message. */
  ghost function Onto(ctl: Control, accepted: bool, pc: Pc): Control
    requires ctl.Working? || ctl.Settling?
  {
    match ctl
    case Working(uid, _, queue, rejected, res) =>
      Working(uid, pc, queue, rejected, if accepted then res.(forwarded := res.forwarded + 1) else res)
    case Settling(current, _, todo, ledger, res) => Settling(current, pc, todo, ledger, res)
  }

  lemma TakenOnto(opts: Options, ctl: Control, pc: Pc, next: Advance)
    requires ctl.Working? || ctl.Settling?
    ensures Taken(opts, Onto(ctl, false, pc), next) == Taken(opts, ctl, next)
    ensures forall pc' :: Onto(Onto(ctl, false, pc), false, pc') == Onto(ctl, false, pc')
  {
  }

  /** A rejected message after its quarantine. */
  lemma SettledIs(opts: Options, ctl: Control, abort: Option<RunError>)
    requires ctl.Settling?
    ensures abort.None? ==>
      var ledger := ctl.ledger.(settled := ctl.ledger.settled + [ctl.current]);
      Taken(opts, ctl, End(Quarantined)) == SettleNext(opts, ctl.todo, ledger, Tally(ctl.res, Quarantined))
    ensures abort.Some? ==>
      var c := Taken(opts, ctl, End(Aborted(abort.value)));
      c.Done? && c.res == ctl.res.(error := OrElse(ctl.res.error, abort.value))
  {
  }

  lemma TakenGo(opts: Options, ctl: Control, pc: Pc)
    requires ctl.Working? || ctl.Settling?
    ensures Taken(opts, ctl, Go(pc)) == Onto(ctl, false, pc)
  {
  }

  /** The servers behind a run, and the mailbox as it is now. */
  class Session {
    const serve: Serve
    const opts: Options
    var box: Mailbox
    var calls: nat
    ghost var ctl: Control

    constructor (serve: Serve, opts: Options, box: Mailbox)
      ensures this.serve == serve && this.opts == opts && this.box == box && calls == 0 && ctl == Connecting
    {
      this.serve, this.opts, this.box, calls, ctl := serve, opts, box, 0, Connecting;
    }

    /** How the run will end from here. */
    ghost function Future(): (Mailbox, Control)
      reads this
    {
      Final(serve, opts, calls, box, ctl)
    }

    method Do(c: Call) returns (r: Reply)
      requires !ctl.Done? && c == NextCall(ctl)
      modifies this
      ensures (r, box) == serve(old(calls), old(box), c) && calls == old(calls) + 1
      ensures ctl == Resume(opts, old(ctl), r)
      ensures Future() == old(Future())
    {
      var served := serve(calls, box, c);
      ResumeDecreases(opts, ctl, served.0);
      r, box, calls := served.0, served.1, calls + 1;
      ctl := Resume(opts, ctl, r);
    }

    /** A call about the message in hand: the process goes on with it, or is done with it. */
    method Ask(uid: Uid, pc: Pc) returns (r: Reply)
      requires At(uid, pc)
      modifies this
      ensures Future() == old(Future())
      ensures var next := Step(opts, uid, pc, r);
        ctl == if next.Go? then Onto(old(ctl), pc.AtInsert? && r.Accepted?, next.pc) else Taken(opts, old(ctl), next)
    {
      r := Do(CallAt(uid, pc));
    }

    /** The process is busy with message `uid`, at `pc`. */
    ghost predicate At(uid: Uid, pc: Pc)
      reads this
    {
      (ctl.Working? && ctl.uid == uid && ctl.pc == pc) || (ctl.Settling? && ctl.current.uid == uid && ctl.pc == pc)
    }
  }

  class SyncResult {
    var listed: nat
    var forwarded: nat
    var trashed: nat
    var skipped: nat
    var retryLater: nat
    var quarantined: nat
    var remaining: nat
    var error: Option<RunError>

    constructor ()
      ensures Snapshot() == EMPTY
    {
      listed, forwarded, trashed, skipped := 0, 0, 0, 0;
      retryLater, quarantined, remaining, error := 0, 0, 0, None;
    }

    function Snapshot(): Result
      reads this
    {
      Result(listed, forwarded, trashed, skipped, retryLater, quarantined, remaining, error)
    }
  }

  class RejectionList {
    var items: seq<Rejection>

    constructor ()
      ensures items == []
    {
      items := [];
    }
  }

  class Forwarder {
    const opts: Options

    constructor (opts: Options)
      ensures this.opts == opts
    {
      this.opts := opts;
    }

    /** Set a keyword and have the server confirm it; `ok` is false where the
        client raises its MailboxError. */
    method AddKeyword(uid: Uid, k: Mark, session: Session) returns (ok: bool)
      requires session.opts == opts && session.At(uid, AtStore(k))
      modifies session
      ensures session.Future() == old(session.Future())
      ensures session.ctl == Taken(opts, old(session.ctl), if ok then Confirmed(k) else Refused(opts, k))
    {
      var r := session.Ask(uid, AtStore(k));
      if r == Flags(false) {
        r := session.Ask(uid, AtRefetch(k));
      }
      ok := r == Flags(true);
    }

    /** The fallback for a server without MOVE: the steps, up to the first that fails. */
    method CopyAndExpunge(uid: Uid, d: Dest, session: Session) returns (r: Reply)
      requires session.opts == opts && session.At(uid, AtCopy(d))
      modifies session
      ensures session.Future() == old(session.Future())
      ensures session.ctl == Taken(opts, old(session.ctl), if r.Ok? then Landed(d) else Broken(uid, d, r))
    {
      r := session.Ask(uid, AtCopy(d));
      if !r.Ok? { return; }
      r := Expunge(uid, d, session);
      TakenOnto(opts, old(session.ctl), AtStoreDeleted(d), if r.Ok? then Landed(d) else Broken(uid, d, r));
    }

    method Expunge(uid: Uid, d: Dest, session: Session) returns (r: Reply)
      requires session.opts == opts && session.At(uid, AtStoreDeleted(d))
      modifies session
      ensures session.Future() == old(session.Future())
      ensures session.ctl == Taken(opts, old(session.ctl), if r.Ok? then Landed(d) else Broken(uid, d, r))
    {
      r := session.Ask(uid, AtStoreDeleted(d));
      if r.Ok? {
        r := session.Ask(uid, AtExpunge(d));
        TakenOnto(opts, old(session.ctl), AtExpunge(d), if r.Ok? then Landed(d) else Broken(uid, d, r));
      }
    }

    /** Move a message out of INBOX. */
    method MoveToFolder(uid: Uid, d: Dest, session: Session) returns (error: Option<RunError>)
      requires session.opts == opts && session.At(uid, AtLocate(d))
      modifies session
      ensures session.Future() == old(session.Future())
      ensures session.ctl == Taken(opts, old(session.ctl), if error.None? then Landed(d) else End(Aborted(error.value)))
    {
      var r := session.Ask(uid, AtLocate(d));
      if r != Found(MoveCommand) && r != Found(UidPlus) {
        return Some(MoveFailure(uid, d, r.Text()));
      }
      ghost var pc := if r == Found(MoveCommand) then AtMove(d) else AtCopy(d);
      if r == Found(MoveCommand) {
        r := session.Ask(uid, AtMove(d));
      } else {
        r := CopyAndExpunge(uid, d, session);
      }
      TakenOnto(opts, old(session.ctl), pc, if r.Ok? then Landed(d) else Broken(uid, d, r));
      error := if r.Ok? then None else Some(MoveFailure(uid, d, r.Text()));
    }

    /** Park a message that must stay: the keyword is tried first where the settings ask for
        it, and the folder where they do not or the server does not confirm the keyword. */
    method Quarantine(uid: Uid, k: Mark, session: Session, result: SyncResult) returns (abort: Option<RunError>)
      requires session.opts == opts && k != Inserted && session.At(uid, QuarantineStart(opts, k))
      modifies session, result
      ensures session.Future() == old(session.Future())
      ensures session.ctl ==
        Taken(opts, old(session.ctl), if abort.None? then End(Quarantined) else End(Aborted(abort.value)))
      ensures result.Snapshot() ==
        if abort.None? then Tally(old(result.Snapshot()), Quarantined) else old(result.Snapshot())
    {
      if opts.keywordMode {
        var ok := AddKeyword(uid, k, session);
        if ok {
          result.quarantined := result.quarantined + 1;
          return None;
        }
        TakenGo(opts, old(session.ctl), AtLocate(FolderFor(k)));
      }
      abort := File(uid, FolderFor(k), session, result);
      ghost var next := if abort.None? then End(Quarantined) else End(Aborted(abort.value));
      TakenOnto(opts, old(session.ctl), AtLocate(FolderFor(k)), next);
    }

    /** Move a message to a folder for quarantined mail, and count it. */
    method File(uid: Uid, d: Dest, session: Session, result: SyncResult) returns (abort: Option<RunError>)
      requires session.opts == opts && d != Trash && session.At(uid, AtLocate(d))
      modifies session, result
      ensures session.Future() == old(session.Future())
      ensures session.ctl ==
        Taken(opts, old(session.ctl), if abort.None? then End(Quarantined) else End(Aborted(abort.value)))
      ensures result.Snapshot() ==
        if abort.None? then Tally(old(result.Snapshot()), Quarantined) else old(result.Snapshot())
    {
      abort := MoveToFolder(uid, d, session);
      if abort.None? {
        result.quarantined := result.quarantined + 1;
      }
    }

    /** Offer a message to Gmail.  `next` says how it goes on: only an accepted
        message goes on to its keyword. */
    method Offer(uid: Uid, session: Session, result: SyncResult, rejected: RejectionList) returns (next: Advance)
      requires session.opts == opts && session.ctl.Working? && session.At(uid, AtInsert)
      requires session.ctl.rejected == rejected.items && session.ctl.res == result.Snapshot()
      modifies session, result, rejected
      ensures session.Future() == old(session.Future())
      ensures next.Go? || next.verdict.Aborted? || next.verdict.RetryLater? || next.verdict.Rejected?
      ensures next.Go? ==>
        && rejected.items == old(rejected.items) && next.pc == AtStore(Inserted)
        && session.ctl == Working(uid, AtStore(Inserted), old(session.ctl.queue), rejected.items, result.Snapshot())
      ensures next.End? ==> Concluded(old(session.ctl.queue), session, result, rejected,
                                      if next.verdict.Aborted? then Some(next.verdict.reason) else None)
    {
      var reply := session.Ask(uid, AtInsert);
      next := AfterInsert(reply);
      if next.Go? {
        result.forwarded := result.forwarded + 1;
      } else if next.verdict.RetryLater? {
        result.retryLater := result.retryLater + 1;
      } else if next.verdict.Rejected? {
        rejected.items := rejected.items + [Rejection(uid, next.verdict.error, next.verdict.perMessage)];
      }
    }

    /** The process is done with the message in hand and stands before the next one,
        or has aborted the loop and starts settling. */
    ghost predicate Concluded(
      queue: seq<Uid>, session: Session, result: SyncResult, rejected: RejectionList, abort: Option<RunError>)
      reads session, result, rejected
    {
      session.ctl ==
      if abort.None? then NextMessage(opts, queue, rejected.items, result.Snapshot())
      else StartSettling(opts, rejected.items,
             result.Snapshot().(error := abort, remaining := |queue| + 1), true)
    }

    /** Quarantine a message that Gmail has and whose keyword was not confirmed. */
    method QuarantineUnverified(uid: Uid, session: Session, result: SyncResult, rejected: RejectionList)
      returns (abort: Option<RunError>)
      requires session.opts == opts && session.ctl.Working?
      requires session.At(uid, QuarantineStart(opts, Unverified))
      requires session.ctl.rejected == rejected.items && session.ctl.res == result.Snapshot()
      modifies session, result
      ensures session.Future() == old(session.Future())
      ensures Concluded(old(session.ctl.queue), session, result, rejected, abort)
    {
      abort := Quarantine(uid, Unverified, session, result);
    }

    /** Record an accepted insert on the message; where that fails, quarantine the
        message as unverified, and it is not to be trashed. */
    method Record(uid: Uid, session: Session, result: SyncResult, rejected: RejectionList)
      returns (trash: bool, abort: Option<RunError>)
      requires session.opts == opts && session.ctl.Working? && session.At(uid, AtStore(Inserted))
      requires session.ctl.rejected == rejected.items && session.ctl.res == result.Snapshot()
      modifies session, result
      ensures session.Future() == old(session.Future())
      ensures trash ==>
        session.ctl == Onto(old(session.ctl), false, AtLocate(Trash)) && session.ctl.res == result.Snapshot()
      ensures !trash ==> Concluded(old(session.ctl.queue), session, result, rejected, abort)
    {
      trash := AddKeyword(uid, Inserted, session);
      if !trash {
        abort := QuarantineUnverified(uid, session, result, rejected);
      } else {
        TakenGo(opts, old(session.ctl), AtLocate(Trash));
        abort := None;
      }
    }

    /** The last step of a delivered message. */
    method MoveToTrash(uid: Uid, session: Session, result: SyncResult, rejected: RejectionList)
      returns (abort: Option<RunError>)
      requires session.opts == opts && session.ctl.Working? && session.At(uid, AtLocate(Trash))
      requires session.ctl.rejected == rejected.items && session.ctl.res == result.Snapshot()
      modifies session, result
      ensures session.Future() == old(session.Future())
      ensures Concluded(old(session.ctl.queue), session, result, rejected, abort)
    {
      abort := MoveToFolder(uid, Trash, session);
      if abort.None? {
        result.trashed := result.trashed + 1;
      }
    }

    /** Offer a message, and record it if it was accepted. */
    method Send(uid: Uid, session: Session, result: SyncResult, rejected: RejectionList)
      returns (trash: bool, abort: Option<RunError>)
      requires session.opts == opts && session.ctl.Working? && session.At(uid, AtInsert)
      requires session.ctl.rejected == rejected.items && session.ctl.res == result.Snapshot()
      modifies session, result, rejected
      ensures session.Future() == old(session.Future())
      ensures trash ==>
        session.ctl == Working(uid, AtLocate(Trash), old(session.ctl.queue), rejected.items, result.Snapshot())
      ensures !trash ==> Concluded(old(session.ctl.queue), session, result, rejected, abort)
    {
      var next := Offer(uid, session, result, rejected);
      if next.End? {
        return false, if next.verdict.Aborted? then Some(next.verdict.reason) else None;
      }
      trash, abort := Record(uid, session, result, rejected);
    }

    /** One message, from fetch to Trash. */
    method Process(uid: Uid, session: Session, result: SyncResult, rejected: RejectionList)
      returns (abort: Option<RunError>)
      requires session.opts == opts && session.ctl.Working? && session.At(uid, AtFetch)
      requires session.ctl.rejected == rejected.items && session.ctl.res == result.Snapshot()
      modifies session, result, rejected
      ensures session.Future() == old(session.Future())
      ensures Concluded(old(session.ctl.queue), session, result, rejected, abort)
    {
      var r := session.Ask(uid, AtFetch);
      if r.Gone? {
        result.skipped := result.skipped + 1;
        return None;
      }
      if !r.Fetched? {
        return Some(FetchFailure(uid, r.Text()));
      }
      if Failed in r.marks || Unverified in r.marks {
        result.skipped := result.skipped + 1;
        return None;
      }
      if Inserted !in r.marks {
        var trash;
        trash, abort := Send(uid, session, result, rejected);
        if !trash {
          return;
        }
      }
      abort := MoveToTrash(uid, session, result, rejected);
    }

    /** Act on the rejections, unless they look like the account's fault. */
    method SettleRejections(rejected: RejectionList, session: Session, result: SyncResult, ghost loopAborted: bool)
      requires session.opts == opts
      requires session.ctl == StartSettling(opts, rejected.items, result.Snapshot(), loopAborted)
      modifies session, result
      ensures session.Future() == old(session.Future())
      ensures session.ctl.Done? && session.ctl.res == result.Snapshot()
    {
      var todo := rejected.items;
      var suspicious := Suspicious(todo);
      if opts.threshold != 0 && |suspicious| >= opts.threshold && result.forwarded == 0 {
        result.error := OrElse(result.error, BreakerTripped(|suspicious|, suspicious[0].error));
        todo := PerMessage(todo);
      }
      var i := 0;
      while i < |todo|
        invariant 0 <= i <= |todo|
        invariant session.Future() == old(session.Future())
        invariant i == |todo| ==> session.ctl.Done? && session.ctl.res == result.Snapshot()
        invariant i < |todo| ==>
          && session.ctl.Settling? && session.ctl.current == todo[i] && session.ctl.pc == QuarantineStart(opts, Failed)
          && session.ctl.todo == todo[i + 1..] && session.ctl.res == result.Snapshot()
      {
        ghost var ctl := session.ctl;
        var abort := Quarantine(todo[i].uid, Failed, session, result);
        SettledIs(opts, ctl, abort);
        if abort.Some? {
          result.error := OrElse(result.error, abort.value);
          return;
        }
        i := i + 1;
      }
    }

    /** One run.  Its result and the mailbox it leaves are those of the machine, and its
        counters and its verdict follow from what the servers said. */
    method Run(session: Session) returns (result: SyncResult)
      requires session.opts == opts && session.ctl == Connecting
      modifies session
      ensures fresh(result)
      ensures session.ctl.Done? && session.ctl.res == result.Snapshot()
      ensures (session.box, session.ctl) == Final(session.serve, opts, old(session.calls), old(session.box), Connecting)
      ensures var unsettled := session.ctl.ledger.unsettled;
        && result.listed == result.trashed + result.skipped + result.retryLater + result.quarantined
                            + result.remaining + |unsettled|
        && (result.error.None? ==> unsettled == [])
      ensures var replies := Accounts.Said(session.serve, opts, old(session.calls), old(session.box), Connecting);
        Events.Reports(opts, replies, result.Snapshot(), session.ctl.ledger.tripped)
    {
      Events.RunReports(session.serve, opts, session.calls, session.box);
      Accounts.Conservation(session.serve, opts, session.calls, session.box, Connecting);
      result := new SyncResult();
      var rejected := new RejectionList();
      var uids := SetUp(session, result);
      if uids.None? { return; }
      var aborted := Work(uids.value, session, result, rejected);
      SettleRejections(rejected, session, result, aborted);
    }

    /** Connect, make sure of the label, and list; `uids` is None where any of that fails. */
    method SetUp(session: Session, result: SyncResult) returns (uids: Option<seq<Uid>>)
      requires session.opts == opts && session.ctl == Connecting && result.Snapshot() == EMPTY
      modifies session, result
      ensures session.Future() == old(session.Future())
      ensures uids.None? ==> session.ctl.Done? && session.ctl.res == result.Snapshot()
      ensures uids.Some? ==> session.ctl == NextMessage(opts, uids.value, [], result.Snapshot())
    {
      var r := session.Do(Connect);
      if r != Connected(true) {
        result.error := Some(Setup(r.Text()));
        return None;
      }
      if opts.labelled {
        r := session.Do(EnsureLabel);
        if !r.Ok? {
          result.error := Some(Setup(r.Text()));
          return None;
        }
      }
      uids := ListQueue(session, result);
    }

    method ListQueue(session: Session, result: SyncResult) returns (uids: Option<seq<Uid>>)
      requires session.opts == opts && session.ctl == Listing && result.Snapshot() == EMPTY
      modifies session, result
      ensures session.Future() == old(session.Future())
      ensures uids.None? ==> session.ctl.Done? && session.ctl.res == result.Snapshot()
      ensures uids.Some? ==> session.ctl == NextMessage(opts, uids.value, [], result.Snapshot())
    {
      var r := session.Do(List);
      if !r.Listed? {
        result.error := Some(Setup(r.Text()));
        return None;
      }
      result.listed := |r.uids|;
      uids := Some(r.uids);
    }

    /** Look at the clock before the next message. */
    method TimeIsUp(ghost queue: seq<Uid>, session: Session, result: SyncResult, rejected: RejectionList)
      returns (over: bool)
      requires session.opts == opts && queue != []
      requires session.ctl == NextMessage(opts, queue, rejected.items, result.Snapshot())
      modifies session
      ensures session.Future() == old(session.Future())
      ensures over ==>
        session.ctl == StartSettling(opts, rejected.items, result.Snapshot().(remaining := |queue|), false)
      ensures !over ==> session.ctl == Working(queue[0], AtFetch, queue[1..], rejected.items, result.Snapshot())
    {
      var clock := session.Do(ReadClock);
      over := clock == Clock(true);
    }

    /** One turn of the message loop, and whether it is the last. */
    method Turn(uids: seq<Uid>, index: nat, session: Session, result: SyncResult, rejected: RejectionList)
      returns (last: bool, ghost aborted: bool)
      requires session.opts == opts && index < |uids|
      requires session.ctl == NextMessage(opts, uids[index..], rejected.items, result.Snapshot())
      modifies session, result, rejected
      ensures session.Future() == old(session.Future())
      ensures last ==> session.ctl == StartSettling(opts, rejected.items, result.Snapshot(), aborted)
      ensures !last ==>
        !aborted && session.ctl == NextMessage(opts, uids[index + 1..], rejected.items, result.Snapshot())
    {
      assert uids[index..][1..] == uids[index + 1..];
      last := TimeIsUp(uids[index..], session, result, rejected);
      aborted := false;
      if last {
        result.remaining := |uids| - index;
        return;
      }
      var abort := Process(uids[index], session, result, rejected);
      if abort.Some? {
        result.error := abort;
        result.remaining := |uids| - index;
        last, aborted := true, true;
      }
    }

    /** The message loop, until the queue, the time budget or the connection ends. */
    method Work(
      uids: seq<Uid>, session: Session, result: SyncResult, rejected: RejectionList)
      returns (ghost aborted: bool)
      requires session.opts == opts
      requires session.ctl == NextMessage(opts, uids, rejected.items, result.Snapshot())
      modifies session, result, rejected
      ensures session.Future() == old(session.Future())
      ensures session.ctl == StartSettling(opts, rejected.items, result.Snapshot(), aborted)
    {
      aborted := false;
      var index, last := 0, false;
      while index < |uids| && !last
        invariant 0 <= index <= |uids|
        invariant session.Future() == old(session.Future())
        invariant last ==> session.ctl == StartSettling(opts, rejected.items, result.Snapshot(), aborted)
        invariant !last ==>
          !aborted && session.ctl == NextMessage(opts, uids[index..], rejected.items, result.Snapshot())
      {
        last, aborted := Turn(uids, index, session, result, rejected);
        index := index + 1;
      }
    }
  }
}
