/** What a run does to the messages Gmail rejects, against any truthful server that
    serves this run alone. */
module Breaker {
  import opened Mail
  import opened Run
  import opened Isolation
  import opened Order
  import Accounts

  ghost predicate LawfulServer(serve: Serve) {
    forall n, b, c :: LawfulAt(serve, n, b, c)
  }

  ghost predicate LawfulAt(serve: Serve, n: nat, b: Mailbox, c: Call) {
    var (r, b') := serve(n, b, c);
    Lawful(b, c, r, b') && (r.Listed? ==> NoRepeats(r.uids))
  }

  predicate Same(b0: Mailbox, b: Mailbox, u: Uid) {
    Look(b, u) == Look(b0, u)
  }

  /** Set aside: marked as failed where it is, or out of INBOX. */
  predicate Parked(b: Mailbox, u: Uid) {
    u in b.msgs ==> Failed in b.msgs[u].marks || !b.msgs[u].inInbox
  }

  ghost predicate AllSame(b0: Mailbox, b: Mailbox, rs: seq<Rejection>) {
    forall j :: j in rs ==> Same(b0, b, j.uid)
  }

  /** In INBOX, with neither the mark for failed mail nor a \Deleted. */
  predicate Stuck(b: Mailbox, u: Uid) {
    && u in b.msgs && b.msgs[u].inInbox && Failed !in b.msgs[u].marks
    && !b.msgs[u].toolDeleted && !b.msgs[u].userDeleted
  }

  /** The server has answered the STORE of \Deleted on a rejected message, and not applied it. */
  predicate Ignores(ctl: Control, r: Reply, b': Mailbox) {
    ctl.Settling? && ctl.pc.AtStoreDeleted? && r.Ok? && Stuck(b', ctl.current.uid)
  }

  function More(ctl: Control, r: Reply, b': Mailbox, lost: set<Uid>): set<Uid> {
    lost + if Ignores(ctl, r, b') then {ctl.current.uid} else {}
  }

  /** The messages that this happens to in a run. */
  function Ignored(serve: Serve, opts: Options, n: nat, b: Mailbox, ctl: Control, lost: set<Uid>): set<Uid>
    decreases Phase(ctl), Weight(ctl)
  {
    if ctl.Done? then lost
    else
      var (r, b') := serve(n, b, NextCall(ctl));
      ResumeDecreases(opts, ctl, r);
      Ignored(serve, opts, n + 1, b', Resume(opts, ctl, r), More(ctl, r, b', lost))
  }

  /** `lost` are the messages that a STORE of \Deleted has not taken away so far. */
  ghost predicate Spared(b0: Mailbox, b: Mailbox, ctl: Control, lost: set<Uid>) {
    (Early(ctl) ==> lost == {}) &&
    match ctl
    case Budget(queue, rejected, _) => (forall u :: u in queue ==> Same(b0, b, u)) && AllSame(b0, b, rejected)
    case Working(w, pc, queue, rejected, _) =>
      && (forall u :: u in queue ==> Same(b0, b, u)) && AllSame(b0, b, rejected)
      && (pc.AtFetch? || pc.AtInsert? ==> Same(b0, b, w))
    case Settling(current, pc, todo, ledger, _) =>
      && LedgerSpared(b0, b, ledger, lost)
      && (forall j :: j in ledger.settled + ledger.unsettled ==> !Rejects([current] + todo, j.uid))
      && (current.uid in lost <==> pc.AtExpunge? && Stuck(b, current.uid))
      && (forall j :: j in todo ==> j.uid !in lost)
    case Done(ledger, _) => LedgerSpared(b0, b, ledger, lost)
    case _ => b.msgs == b0.msgs
  }

  ghost predicate LedgerSpared(b0: Mailbox, b: Mailbox, ledger: Ledger, lost: set<Uid>) {
    && (forall j :: j in ledger.settled ==> (Parked(b, j.uid) <==> j.uid !in lost))
    && (ledger.tripped ==> forall j :: j in ledger.unsettled && !j.perMessage ==> Same(b0, b, j.uid))
  }

  lemma OthersSame(b0: Mailbox, b: Mailbox, c: Call, r: Reply, b': Mailbox)
    requires Lawful(b, c, r, b')
    ensures forall u :: !(c.AboutMessage() && c.uid == u) ==> Look(b', u) == Look(b, u)
    ensures c.Fetch? || c.Insert? || !c.AboutMessage() ==> forall u :: Look(b', u) == Look(b, u)
  {
  }

  lemma {:induction false} StartSpared(
    b0: Mailbox, b: Mailbox, opts: Options, rejected: seq<Rejection>, res: Result, aborted: bool)
    requires AllSame(b0, b, rejected) && Distinct(rejected)
    ensures Spared(b0, b, StartSettling(opts, rejected, res, aborted), {})
  {
    SplitMembers(rejected);
    if Trips(opts, rejected, res) {
      var todo := PerMessage(rejected);
      if todo != [] {
        assert [todo[0]] + todo[1..] == todo;
        forall j | j in Suspicious(rejected) ensures !Rejects(todo, j.uid) {
          if k :| k in todo && k.uid == j.uid { SameRejection(rejected, j, k); }
        }
      }
    }
  }

  lemma NextSpared(b0: Mailbox, b: Mailbox, opts: Options, queue: seq<Uid>, rejected: seq<Rejection>, res: Result)
    requires (forall u :: u in queue ==> Same(b0, b, u)) && AllSame(b0, b, rejected) && Distinct(rejected)
    ensures Spared(b0, b, NextMessage(opts, queue, rejected, res), {})
  {
    if queue == [] { StartSpared(b0, b, opts, rejected, res, false); }
  }

  lemma {:induction false} EndSpared(
    b0: Mailbox, b: Mailbox, opts: Options, ctl: Control, accepted: bool, v: Verdict)
    requires ctl.Working? && Distinct(ctl.rejected) && !Rejects(ctl.rejected, ctl.uid) && !v.Aborted?
    requires (forall u :: u in ctl.queue ==> Same(b0, b, u)) && AllSame(b0, b, ctl.rejected)
    requires v.Rejected? ==> Same(b0, b, ctl.uid)
    ensures Spared(b0, b, Onward(opts, ctl, accepted, End(v)), {})
  {
    var res := if accepted then ctl.res.(forwarded := ctl.res.forwarded + 1) else ctl.res;
    if v.Rejected? {
      RejectedSpared(b0, b, opts, ctl, Rejection(ctl.uid, v.error, v.perMessage), res);
    } else {
      NextSpared(b0, b, opts, ctl.queue, ctl.rejected, Tally(res, v));
    }
  }

  lemma {:induction false} OnwardSpared(
    b0: Mailbox, b: Mailbox, opts: Options, ctl: Control, accepted: bool, next: Advance)
    requires ctl.Working? && Distinct(ctl.rejected) && !Rejects(ctl.rejected, ctl.uid)
    requires (forall u :: u in ctl.queue ==> Same(b0, b, u)) && AllSame(b0, b, ctl.rejected)
    requires next.Go? && (next.pc.AtFetch? || next.pc.AtInsert?) ==> Same(b0, b, ctl.uid)
    requires next.End? && next.verdict.Rejected? ==> Same(b0, b, ctl.uid)
    ensures Spared(b0, b, Onward(opts, ctl, accepted, next), {})
  {
    if next.End? && next.verdict.Aborted? {
      var res := if accepted then ctl.res.(forwarded := ctl.res.forwarded + 1) else ctl.res;
      StartSpared(b0, b, opts, ctl.rejected, res.(error := Some(next.verdict.reason), remaining := |ctl.queue| + 1),
        true);
    } else if next.End? {
      EndSpared(b0, b, opts, ctl, accepted, next.verdict);
    }
  }

  lemma RejectedSpared(b0: Mailbox, b: Mailbox, opts: Options, ctl: Control, j: Rejection, res: Result)
    requires ctl.Working? && Distinct(ctl.rejected) && !Rejects(ctl.rejected, ctl.uid) && j.uid == ctl.uid
    requires (forall u :: u in ctl.queue ==> Same(b0, b, u)) && AllSame(b0, b, ctl.rejected) && Same(b0, b, ctl.uid)
    ensures Spared(b0, b, NextMessage(opts, ctl.queue, ctl.rejected + [j], res), {})
  {
    MoreRejected(ctl.rejected, j);
    assert AllSame(b0, b, ctl.rejected + [j]) by {
      forall k | k in ctl.rejected + [j] ensures Same(b0, b, k.uid) {
        assert k in ctl.rejected || k == j;
      }
    }
    NextSpared(b0, b, opts, ctl.queue, ctl.rejected + [j], res);
  }

  lemma StepFrom(opts: Options, u: Uid, pc: Pc, r: Reply)
    ensures var n := Step(opts, u, pc, r); n.Go? && (n.pc.AtFetch? || n.pc.AtInsert?) ==> pc.AtFetch?
    ensures var n := Step(opts, u, pc, r); n.End? && n.verdict.Rejected? ==> pc.AtInsert?
  {
  }

  lemma {:induction false} WorkSpared(
    b0: Mailbox, b: Mailbox, b': Mailbox, opts: Options, all: seq<Uid>, ctl: Control, r: Reply)
    requires ctl.Working? && Spared(b0, b, ctl, {}) && Apart(all, ctl) && Lawful(b, NextCall(ctl), r, b')
    ensures Spared(b0, b', Resume(opts, ctl, r), {})
  {
    var w := ctl.uid;
    OthersSame(b0, b, NextCall(ctl), r, b');
    HeadApart(w, ctl.queue);
    StepFrom(opts, w, ctl.pc, r);
    OnwardSpared(b0, b', opts, ctl, ctl.pc.AtInsert? && r.Accepted?, Step(opts, w, ctl.pc, r));
  }

  lemma {:induction false} SettleSpared(
    b0: Mailbox, b: Mailbox, b': Mailbox, opts: Options, all: seq<Uid>, ctl: Control, r: Reply, lost: set<Uid>)
    requires ctl.Settling? && Spared(b0, b, ctl, lost) && Apart(all, ctl) && Lawful(b, NextCall(ctl), r, b')
    requires Accounts.Sound(opts, ctl)
    ensures Spared(b0, b', Resume(opts, ctl, r), More(ctl, r, b', lost))
  {
    OthersSame(b0, b, NextCall(ctl), r, b');
    StepStays(opts, ctl.current.uid, ctl.pc, r);
    QuarantineParks(opts, b, ctl.current.uid, ctl.pc, r, b');
    IgnoringStep(opts, ctl, r, b');
    SettledSpared(
      b0, b, b', opts, all, ctl, Step(opts, ctl.current.uid, ctl.pc, r), lost, More(ctl, r, b', lost));
  }

  /** A STORE of \Deleted that is answered is followed by the EXPUNGE, and by nothing else. */
  lemma IgnoringStep(opts: Options, ctl: Control, r: Reply, b': Mailbox)
    requires ctl.Settling?
    ensures var next := Step(opts, ctl.current.uid, ctl.pc, r);
      next.Go? && next.pc.AtExpunge? <==> ctl.pc.AtStoreDeleted? && r.Ok?
  {
  }

  lemma {:induction false} EarlySpared(b0: Mailbox, b: Mailbox, opts: Options, all: seq<Uid>, ctl: Control, r: Reply)
    requires Early(ctl) && !ctl.Working? && Spared(b0, b, ctl, {}) && Apart(all, ctl)
    requires ctl.Listing? && r.Listed? ==> r.uids == all
    ensures Spared(b0, b, Resume(opts, ctl, r), {})
  {
    if ctl.Budget? {
      var Budget(queue, rejected, res) := ctl;
      StartSpared(b0, b, opts, rejected, res.(remaining := |queue|), false);
      if queue != [] { assert queue[0] in queue && forall u :: u in queue[1..] ==> u in queue; }
    } else if ctl.Listing? && r.Listed? {
      NextSpared(b0, b, opts, all, [], EMPTY.(listed := |all|));
    }
  }

  /** A settled message has been parked: its keyword was confirmed, or it was moved; except
      exactly where the EXPUNGE found no \Deleted on it. */
  lemma QuarantineParks(opts: Options, b: Mailbox, u: Uid, pc: Pc, r: Reply, b': Mailbox)
    requires SettlePc(pc) && Lawful(b, CallAt(u, pc), r, b')
    ensures Step(opts, u, pc, r).End? && Step(opts, u, pc, r).verdict.Quarantined? ==>
      (Parked(b', u) <==> !(pc.AtExpunge? && Stuck(b, u)))
  {
  }

  lemma {:induction false} SettledSpared(
    b0: Mailbox, b: Mailbox, b': Mailbox, opts: Options, all: seq<Uid>, ctl: Control, next: Advance,
    lost: set<Uid>, lost': set<Uid>)
    requires ctl.Settling? && Spared(b0, b, ctl, lost) && Apart(all, ctl)
    requires forall u :: u != ctl.current.uid ==> Look(b', u) == Look(b, u)
    requires forall u :: u != ctl.current.uid ==> (u in lost' <==> u in lost)
    requires next.End? ==> next.verdict.Quarantined? || next.verdict.Aborted?
    requires next.End? && next.verdict.Quarantined? ==> (Parked(b', ctl.current.uid) <==> ctl.current.uid !in lost')
    requires next.Go? ==> (ctl.current.uid in lost' <==> next.pc.AtExpunge? && Stuck(b', ctl.current.uid))
    requires ctl.ledger.tripped ==> Accounts.AllPerMessage([ctl.current] + ctl.todo)
    ensures Spared(b0, b', Settled(opts, ctl, next), lost')
  {
    var Settling(current, _, todo, ledger, res) := ctl;
    var open := [current] + todo;
    assert current in open && forall j :: j in open <==> j == current || j in todo;
    TailApart(current, todo, 0);
    LedgerKept(b0, b, b', ledger, current, todo, lost, lost');
    TodoKept(current, todo, lost, lost');
    if next.End? && next.verdict.Quarantined? {
      ParkedSpared(b0, b', opts, ledger, current, todo, Tally(res, Quarantined), lost');
    }
  }

  lemma TodoKept(current: Rejection, todo: seq<Rejection>, lost: set<Uid>, lost': set<Uid>)
    requires Distinct([current] + todo) && forall u :: u != current.uid ==> (u in lost' <==> u in lost)
    requires forall j :: j in todo ==> j.uid !in lost
    ensures forall j :: j in todo ==> j.uid !in lost'
  {
    forall j | j in todo ensures j.uid != current.uid {
      var k :| 0 <= k < |todo| && todo[k] == j;
      assert ([current] + todo)[0] == current && ([current] + todo)[k + 1] == j;
    }
  }

  lemma {:induction false} LedgerKept(
    b0: Mailbox, b: Mailbox, b': Mailbox, ledger: Ledger, current: Rejection, todo: seq<Rejection>,
    lost: set<Uid>, lost': set<Uid>)
    requires LedgerSpared(b0, b, ledger, lost)
    requires forall j :: j in ledger.settled + ledger.unsettled ==> !Rejects([current] + todo, j.uid)
    requires forall u :: u != current.uid ==> Look(b', u) == Look(b, u)
    requires forall u :: u != current.uid ==> (u in lost' <==> u in lost)
    ensures LedgerSpared(b0, b', ledger, lost')
  {
    assert current in [current] + todo;
    forall j | j in ledger.settled ensures Parked(b', j.uid) <==> j.uid !in lost' {
      assert j in ledger.settled + ledger.unsettled;
      assert Look(b', j.uid) == Look(b, j.uid);
    }
    forall j | j in ledger.unsettled ensures Same(b0, b, j.uid) ==> Same(b0, b', j.uid) {
      assert j in ledger.settled + ledger.unsettled;
    }
  }

  lemma {:induction false} ParkedSpared(
    b0: Mailbox, b: Mailbox, opts: Options, ledger: Ledger, current: Rejection, todo: seq<Rejection>, res: Result,
    lost: set<Uid>)
    requires LedgerSpared(b0, b, ledger, lost) && (Parked(b, current.uid) <==> current.uid !in lost)
    requires !Rejects(todo, current.uid) && forall j :: j in todo ==> j.uid !in lost
    requires forall j :: j in ledger.settled + ledger.unsettled ==> !Rejects([current] + todo, j.uid)
    ensures Spared(b0, b, SettleNext(opts, todo, ledger.(settled := ledger.settled + [current]), res), lost)
  {
  }

  /** What holds of the run between two calls. */
  ghost predicate Course(opts: Options, b0: Mailbox, b: Mailbox, all: seq<Uid>, ctl: Control, lost: set<Uid>) {
    Spared(b0, b, ctl, lost) && Apart(all, ctl) && Accounts.Books(ctl) && Accounts.Sound(opts, ctl)
  }

  lemma {:induction false} ResumeSpared(
    b0: Mailbox, b: Mailbox, b': Mailbox, opts: Options, all: seq<Uid>, all': seq<Uid>, ctl: Control, r: Reply,
    lost: set<Uid>)
    requires !ctl.Done? && Spared(b0, b, ctl, lost) && Apart(all, ctl) && Accounts.Sound(opts, ctl)
    requires Lawful(b, NextCall(ctl), r, b') && Apart(all', ctl)
    requires ctl.Listing? && r.Listed? ==> r.uids == all'
    ensures Spared(b0, b', Resume(opts, ctl, r), More(ctl, r, b', lost))
  {
    if ctl.Working? {
      WorkSpared(b0, b, b', opts, all, ctl, r);
    } else if ctl.Settling? {
      SettleSpared(b0, b, b', opts, all, ctl, r, lost);
    } else {
      OthersSame(b0, b, NextCall(ctl), r, b');
      EarlySpared(b0, b', opts, all', ctl, r);
    }
  }

  lemma {:induction false} CourseKept(
    b0: Mailbox, b: Mailbox, b': Mailbox, opts: Options, all: seq<Uid>, ctl: Control, r: Reply, lost: set<Uid>)
    returns (all': seq<Uid>)
    requires !ctl.Done? && Course(opts, b0, b, all, ctl, lost)
    requires Lawful(b, NextCall(ctl), r, b') && (r.Listed? ==> NoRepeats(r.uids))
    ensures Course(opts, b0, b', all', Resume(opts, ctl, r), More(ctl, r, b', lost))
  {
    all' := if ctl.Listing? && r.Listed? then r.uids else all;
    Accounts.ResumeBooks(opts, ctl, r);
    Accounts.ResumeSound(opts, ctl, r);
    ResumeApart(opts, all', ctl, r);
    ResumeSpared(b0, b, b', opts, all, all', ctl, r, lost);
  }

  /** From any point of a run on. */
  lemma {:induction false} RunSpares(
    serve: Serve, opts: Options, n: nat, b0: Mailbox, b: Mailbox, ctl: Control, all: seq<Uid>, lost: set<Uid>)
    requires LawfulServer(serve) && Course(opts, b0, b, all, ctl, lost)
    ensures var (b', c') := Final(serve, opts, n, b, ctl); Spared(b0, b', c', Ignored(serve, opts, n, b, ctl, lost))
    decreases Phase(ctl), Weight(ctl)
  {
    if !ctl.Done? {
      var (r, b') := serve(n, b, NextCall(ctl));
      assert LawfulAt(serve, n, b, NextCall(ctl));
      ResumeDecreases(opts, ctl, r);
      var all' := CourseKept(b0, b, b', opts, all, ctl, r, lost);
      RunSpares(serve, opts, n + 1, b0, b', Resume(opts, ctl, r), all', More(ctl, r, b', lost));
    }
  }

  /** What the breaker means for the mail, for every message that Gmail rejected in the run.
      If the breaker is enabled, enough of the rejections may be the account's fault and
      nothing was accepted, each of those messages keeps its flags and its place.  Every
      other rejected message carries the keyword for failed mail or has left INBOX, unless a
      move failed while rejections were being settled; and except exactly where the server
      answered the STORE of \Deleted and did not apply it. */
  lemma BreakerSpares(serve: Serve, opts: Options, b: Mailbox, j: Rejection)
    requires LawfulServer(serve)
    ensures var b', replies := Final(serve, opts, 0, b, Connecting).0, Accounts.Said(serve, opts, 0, b, Connecting);
      var told := Accounts.Told(opts, replies);
      var trips := opts.threshold != 0 && |Suspicious(told.rejections)| >= opts.threshold && told.accepted == 0;
      Accounts.PermanentlyRejected(opts, replies, j) ==>
        && (trips && !j.perMessage ==> Same(b, b', j.uid))
        && (!(trips && !j.perMessage) && !told.cutShort ==>
              (Parked(b', j.uid) <==> j.uid !in Ignored(serve, opts, 0, b, Connecting, {})))
  {
    RunSpares(serve, opts, 0, b, b, Connecting, [], {});
    Accounts.FinalIsReplay(serve, opts, b);
    Accounts.CircuitBreaker(opts, Accounts.Said(serve, opts, 0, b, Connecting), j);
  }
}
