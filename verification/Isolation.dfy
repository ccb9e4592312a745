/** Messages do not disturb each other.  The server here may fail any call in any way,
    as long as its answer to a call depends only on the message the call is about. */
module Isolation {
  import opened Mail
  import opened Order
  import opened Run

  datatype Answer = Answer(reply: Reply, msg: Msg, copies: nat)

  datatype Env = Env(all: seq<Uid>, answer: (Option<Msg>, Call) -> Answer)

  function Look(b: Mailbox, u: Uid): Option<Msg> {
    if u in b.msgs then Some(b.msgs[u]) else None
  }

  /** What is to be seen of a message: its state and its copies in Gmail. */
  datatype View = View(msg: Option<Msg>, copies: nat)

  function ViewOf(b: Mailbox, u: Uid): View {
    View(Look(b, u), multiset(b.gmail)[u])
  }

  function Answered(e: Env, v: View, c: Call): View {
    var a := e.answer(v.msg, c);
    View(if v.msg.Some? then Some(a.msg) else None, v.copies + a.copies)
  }

  function PerMessageCall(e: Env, b: Mailbox, c: Call): (Reply, Mailbox) {
    match c
    case Connect => (Connected(true), b)
    case EnsureLabel => (Ok, b)
    case List => (Listed(e.all), b)
    case ReadClock => (Clock(false), b)
    case _ =>
      var a := e.answer(Look(b, c.uid), c);
      (a.reply, Mailbox(if c.uid in b.msgs then b.msgs[c.uid := a.msg] else b.msgs, b.gmail + Repeat(c.uid, a.copies)))
  }

  function PerMessageServer(e: Env): Serve {
    (n: nat, b: Mailbox, c: Call) => PerMessageCall(e, b, c)
  }

  lemma ViewAfter(e: Env, b: Mailbox, c: Call, v: Uid)
    requires c.AboutMessage()
    ensures ViewOf(PerMessageCall(e, b, c).1, v) == if c.uid == v then Answered(e, ViewOf(b, v), c) else ViewOf(b, v)
  {
  }

  /** One message alone, from `pc` until the process is done with it. */
  function Solo(e: Env, opts: Options, u: Uid, v: View, pc: Pc): (View, Verdict)
    decreases PcRank(pc)
  {
    var c := CallAt(u, pc);
    var r := e.answer(v.msg, c).reply;
    StepDecreases(opts, u, pc, r);
    match Step(opts, u, pc, r)
    case Go(pc') => Solo(e, opts, u, Answered(e, v, c), pc')
    case End(verdict) => (Answered(e, v, c), verdict)
  }

  /** ... including its settlement, if it is rejected: the breaker is the only thing
      that other messages have a say in. */
  function Fate(e: Env, opts: Options, u: Uid, v: View, pc: Pc, tripped: bool): View {
    var (v1, verdict) := Solo(e, opts, u, v, pc);
    if verdict.Rejected? then Parked(e, opts, u, v1, verdict.perMessage, tripped) else v1
  }

  function Parked(e: Env, opts: Options, u: Uid, v: View, perMessage: bool, tripped: bool): View {
    if perMessage || !tripped then Solo(e, opts, u, v, QuarantineStart(opts, Failed)).0 else v
  }

  function ParkedOf(e: Env, opts: Options, u: Uid, v: View, rs: seq<Rejection>, tripped: bool): View
    requires Rejects(rs, u)
    decreases rs
  {
    if rs[0].uid == u then Parked(e, opts, u, v, rs[0].perMessage, tripped)
    else ParkedOf(e, opts, u, v, rs[1..], tripped)
  }

  /** What the run will make of message `u`, if nothing cuts it short. */
  ghost function Expect(e: Env, opts: Options, u: Uid, b: Mailbox, ctl: Control, tripped: bool): View {
    var v := ViewOf(b, u);
    match ctl
    case Budget(queue, rejected, _) =>
      if u in queue then Fate(e, opts, u, v, AtFetch, tripped)
      else if Rejects(rejected, u) then ParkedOf(e, opts, u, v, rejected, tripped)
      else v
    case Working(w, pc, queue, rejected, _) =>
      if u == w then Fate(e, opts, u, v, pc, tripped)
      else if u in queue then Fate(e, opts, u, v, AtFetch, tripped)
      else if Rejects(rejected, u) then ParkedOf(e, opts, u, v, rejected, tripped)
      else v
    case Settling(current, pc, todo, _, _) =>
      if u == current.uid then Solo(e, opts, u, v, pc).0
      else if Rejects(todo, u) then Solo(e, opts, u, v, QuarantineStart(opts, Failed)).0
      else v
    case Done(_, _) => v
    case _ => if u in e.all then Fate(e, opts, u, v, AtFetch, tripped) else v
  }

  lemma {:induction false} ParkedOfMore(
    e: Env, opts: Options, u: Uid, v: View, rs: seq<Rejection>, j: Rejection, tripped: bool)
    requires j.uid != u || !Rejects(rs, u)
    ensures Rejects(rs + [j], u) <==> Rejects(rs, u) || j.uid == u
    ensures Rejects(rs + [j], u) ==>
      (ParkedOf(e, opts, u, v, rs + [j], tripped) ==
       if Rejects(rs, u) then ParkedOf(e, opts, u, v, rs, tripped) else Parked(e, opts, u, v, j.perMessage, tripped))
    decreases rs
  {
    assert (rs + [j])[|rs|] == j;
    if rs != [] {
      assert (rs + [j])[1..] == rs[1..] + [j];
      assert forall k :: k in rs <==> k == rs[0] || k in rs[1..];
      assert forall k :: k in rs + [j] <==> k in rs || k == j;
      if rs[0].uid != u { ParkedOfMore(e, opts, u, v, rs[1..], j, tripped); }
    } else {
      assert rs + [j] == [j];
    }
  }

  lemma {:induction false} ParkedIs(
    e: Env, opts: Options, u: Uid, v: View, rs: seq<Rejection>, j: Rejection, tripped: bool)
    requires Distinct(rs) && j in rs && j.uid == u
    ensures ParkedOf(e, opts, u, v, rs, tripped) == Parked(e, opts, u, v, j.perMessage, tripped)
    decreases rs
  {
    var i :| 0 <= i < |rs| && rs[i] == j;
    if i > 0 {
      assert rs[0].uid != rs[i].uid && rs[1..][i - 1] == j;
      ParkedIs(e, opts, u, v, rs[1..], j, tripped);
    }
  }

  /** Settlement starts: each message keeps the future it had as a rejected one. */
  lemma {:induction false} StartExpect(
    e: Env, opts: Options, u: Uid, b: Mailbox, rejected: seq<Rejection>, res: Result, aborted: bool)
    requires Distinct(rejected)
    ensures var c := StartSettling(opts, rejected, res, aborted);
      && !Early(c) && c.ledger.tripped == Trips(opts, rejected, res)
      && Expect(e, opts, u, b, c, c.ledger.tripped) == RejectedView(e, opts, u, b, rejected, c.ledger.tripped)
  {
    var t := Trips(opts, rejected, res);
    ToSettle(e, opts, u, b, rejected, t);
    if t {
      var suspicious := Suspicious(rejected);
      var error := OrElse(res.error, BreakerTripped(|suspicious|, suspicious[0].error));
      SettleNextExpect(e, opts, u, b, PerMessage(rejected), Ledger([], suspicious, true, aborted, false),
        res.(error := error));
    } else {
      SettleNextExpect(e, opts, u, b, rejected, Ledger([], [], false, aborted, false), res);
    }
  }

  lemma SettleNextExpect(e: Env, opts: Options, u: Uid, b: Mailbox, todo: seq<Rejection>, ledger: Ledger, res: Result)
    ensures var c := SettleNext(opts, todo, ledger, res);
      && !Early(c) && c.ledger == ledger
      && Expect(e, opts, u, b, c, ledger.tripped) ==
         if Rejects(todo, u) then Solo(e, opts, u, ViewOf(b, u), QuarantineStart(opts, Failed)).0 else ViewOf(b, u)
  {
  }

  function RejectedView(e: Env, opts: Options, u: Uid, b: Mailbox, rejected: seq<Rejection>, tripped: bool): View {
    if Rejects(rejected, u) then ParkedOf(e, opts, u, ViewOf(b, u), rejected, tripped) else ViewOf(b, u)
  }

  lemma {:induction false} ToSettle(e: Env, opts: Options, u: Uid, b: Mailbox, rejected: seq<Rejection>, tripped: bool)
    requires Distinct(rejected)
    ensures var todo := if tripped then PerMessage(rejected) else rejected;
      RejectedView(e, opts, u, b, rejected, tripped) ==
      if Rejects(todo, u) then Solo(e, opts, u, ViewOf(b, u), QuarantineStart(opts, Failed)).0 else ViewOf(b, u)
  {
    SplitMembers(rejected);
    var todo := if tripped then PerMessage(rejected) else rejected;
    if Rejects(rejected, u) {
      var j :| j in rejected && j.uid == u;
      ParkedIs(e, opts, u, ViewOf(b, u), rejected, j, tripped);
      assert Rejects(todo, u) <==> j.perMessage || !tripped by {
        if k :| k in todo && k.uid == u { SameRejection(rejected, j, k); }
      }
    }
  }

  lemma {:induction false} NextExpect(
    e: Env, opts: Options, u: Uid, b: Mailbox, queue: seq<Uid>, rejected: seq<Rejection>, res: Result, tripped: bool)
    requires NoRepeats(queue) && Distinct(rejected) && forall w :: w in queue ==> !Rejects(rejected, w)
    requires var c := NextMessage(opts, queue, rejected, res); Early(c) || c.ledger.tripped == tripped
    ensures var c := NextMessage(opts, queue, rejected, res);
      Expect(e, opts, u, b, c, tripped) == Expect(e, opts, u, b, Budget(queue, rejected, res), tripped)
  {
    if queue == [] { StartExpect(e, opts, u, b, rejected, res, false); }
  }

  // ---- One call -------------------------------------------------------------------------

  /** The run stays as expected. */
  ghost predicate Keeps(e: Env, opts: Options, u: Uid, b: Mailbox, ctl: Control, tripped: bool)
    requires !ctl.Done?
  {
    var (r, b') := PerMessageCall(e, b, NextCall(ctl));
    var c' := Resume(opts, ctl, r);
    Expect(e, opts, u, b', c', tripped) == Expect(e, opts, u, b, ctl, tripped)
  }

  /** Nothing cuts the run short here, and the breaker decides as it is taken to. */
  predicate Smooth(opts: Options, ctl: Control, r: Reply, tripped: bool)
    requires !ctl.Done?
  {
    var c' := Resume(opts, ctl, r);
    !Early(c') ==>
      c'.ledger.tripped == tripped && !c'.ledger.loopAborted && !c'.ledger.settleAborted
  }

  /** The message in hand, as the process goes on with it. */
  lemma {:induction false} UnfoldFate(e: Env, opts: Options, u: Uid, v: View, pc: Pc, tripped: bool)
    ensures var c := CallAt(u, pc);
      var v' := Answered(e, v, c);
      Fate(e, opts, u, v, pc, tripped) ==
      match Step(opts, u, pc, e.answer(v.msg, c).reply)
      case Go(pc') => Fate(e, opts, u, v', pc', tripped)
      case End(verdict) => if verdict.Rejected? then Parked(e, opts, u, v', verdict.perMessage, tripped) else v'
  {
  }

  lemma {:induction false} AbortedShows(opts: Options, ctl: Control, accepted: bool, next: Advance)
    requires ctl.Working? && next.End? && next.verdict.Aborted?
    ensures var c' := Onward(opts, ctl, accepted, next); !Early(c') && c'.ledger.loopAborted
  {
  }

  lemma {:induction false} OnwardKeeps(
    e: Env, opts: Options, u: Uid, b: Mailbox, b': Mailbox, ctl: Control, accepted: bool, next: Advance, v': View,
    tripped: bool)
    requires ctl.Working? && Apart(e.all, ctl)
    requires next.Go? ==> LoopPc(next.pc)
    requires forall w :: w != ctl.uid ==> ViewOf(b', w) == ViewOf(b, w)
    requires ViewOf(b', ctl.uid) == v'
    requires Fate(e, opts, ctl.uid, ViewOf(b, ctl.uid), ctl.pc, tripped) ==
      match next
      case Go(pc') => Fate(e, opts, ctl.uid, v', pc', tripped)
      case End(verdict) => if verdict.Rejected? then Parked(e, opts, ctl.uid, v', verdict.perMessage, tripped) else v'
    requires var c' := Onward(opts, ctl, accepted, next);
      !Early(c') ==> c'.ledger.tripped == tripped && !c'.ledger.loopAborted
    ensures var c' := Onward(opts, ctl, accepted, next);
      Expect(e, opts, u, b', c', tripped) == Expect(e, opts, u, b, ctl, tripped)
  {
    var Working(w, _, queue, _, res0) := ctl;
    var res := if accepted then res0.(forwarded := res0.forwarded + 1) else res0;
    HeadApart(w, queue);
    OnwardIs(opts, ctl, accepted, next, res);
    if next.End? {
      if next.verdict.Aborted? {
        AbortedShows(opts, ctl, accepted, next);
      } else if next.verdict.Rejected? {
        RejectedKeeps(e, opts, u, b, b', ctl, res, Rejection(w, next.verdict.error, next.verdict.perMessage), v',
          tripped);
      } else {
        HandledKeeps(e, opts, u, b, b', ctl, Tally(res, next.verdict), v', tripped);
      }
    }
  }

  lemma {:induction false} HandledKeeps(
    e: Env, opts: Options, u: Uid, b: Mailbox, b': Mailbox, ctl: Control, res: Result, v': View, tripped: bool)
    requires ctl.Working? && Apart(e.all, ctl) && NoRepeats(ctl.queue) && ctl.uid !in ctl.queue
    requires forall w :: w != ctl.uid ==> ViewOf(b', w) == ViewOf(b, w)
    requires ViewOf(b', ctl.uid) == v'
    requires Fate(e, opts, ctl.uid, ViewOf(b, ctl.uid), ctl.pc, tripped) == v'
    requires var c' := NextMessage(opts, ctl.queue, ctl.rejected, res);
      !Early(c') ==> c'.ledger.tripped == tripped
    ensures var c' := NextMessage(opts, ctl.queue, ctl.rejected, res);
      Expect(e, opts, u, b', c', tripped) == Expect(e, opts, u, b, ctl, tripped)
  {
    NextExpect(e, opts, u, b', ctl.queue, ctl.rejected, res, tripped);
  }

  lemma {:induction false} RejectedKeeps(
    e: Env, opts: Options, u: Uid, b: Mailbox, b': Mailbox, ctl: Control, res: Result, j: Rejection, v': View,
    tripped: bool)
    requires ctl.Working? && Apart(e.all, ctl) && NoRepeats(ctl.queue) && ctl.uid !in ctl.queue && j.uid == ctl.uid
    requires forall w :: w != ctl.uid ==> ViewOf(b', w) == ViewOf(b, w)
    requires ViewOf(b', ctl.uid) == v'
    requires Fate(e, opts, ctl.uid, ViewOf(b, ctl.uid), ctl.pc, tripped) ==
      Parked(e, opts, ctl.uid, v', j.perMessage, tripped)
    requires var c' := NextMessage(opts, ctl.queue, ctl.rejected + [j], res);
      !Early(c') ==> c'.ledger.tripped == tripped
    ensures var c' := NextMessage(opts, ctl.queue, ctl.rejected + [j], res);
      Expect(e, opts, u, b', c', tripped) == Expect(e, opts, u, b, ctl, tripped)
  {
    var rejected := ctl.rejected;
    var more := rejected + [j];
    MoreRejected(rejected, j);
    ParkedOfMore(e, opts, u, ViewOf(b', u), rejected, j, tripped);
    NextExpect(e, opts, u, b', ctl.queue, more, res, tripped);
  }

  lemma {:induction false} WorkKeeps(e: Env, opts: Options, u: Uid, b: Mailbox, ctl: Control, tripped: bool)
    requires ctl.Working? && Apart(e.all, ctl)
    requires Smooth(opts, ctl, PerMessageCall(e, b, NextCall(ctl)).0, tripped)
    ensures Keeps(e, opts, u, b, ctl, tripped)
  {
    var w, c := ctl.uid, NextCall(ctl);
    var (r, b') := PerMessageCall(e, b, c);
    forall x ensures ViewOf(b', x) == if x == w then Answered(e, ViewOf(b, w), c) else ViewOf(b, x) {
      ViewAfter(e, b, c, x);
    }
    StepStays(opts, w, ctl.pc, r);
    UnfoldFate(e, opts, w, ViewOf(b, w), ctl.pc, tripped);
    OnwardKeeps(e, opts, u, b, b', ctl, ctl.pc.AtInsert? && r.Accepted?, Step(opts, w, ctl.pc, r),
                Answered(e, ViewOf(b, w), c), tripped);
  }

  lemma {:induction false} SettledKeeps(
    e: Env, opts: Options, u: Uid, b: Mailbox, b': Mailbox, ctl: Control, next: Advance, v': View, tripped: bool)
    requires ctl.Settling? && Apart(e.all, ctl)
    requires next.Go? ==> SettlePc(next.pc)
    requires next.End? ==> next.verdict.Quarantined?
    requires forall w :: w != ctl.current.uid ==> ViewOf(b', w) == ViewOf(b, w)
    requires ViewOf(b', ctl.current.uid) == v'
    requires Solo(e, opts, ctl.current.uid, ViewOf(b, ctl.current.uid), ctl.pc).0 ==
      match next case Go(pc') => Solo(e, opts, ctl.current.uid, v', pc').0 case End(_) => v'
    ensures var c' := Settled(opts, ctl, next);
      Expect(e, opts, u, b', c', tripped) == Expect(e, opts, u, b, ctl, tripped)
  {
    TailApart(ctl.current, ctl.todo, u);
  }

  lemma {:induction false} SettleKeeps(e: Env, opts: Options, u: Uid, b: Mailbox, ctl: Control, tripped: bool)
    requires ctl.Settling? && Apart(e.all, ctl)
    requires Smooth(opts, ctl, PerMessageCall(e, b, NextCall(ctl)).0, tripped)
    ensures Keeps(e, opts, u, b, ctl, tripped)
  {
    var w, c := ctl.current.uid, NextCall(ctl);
    var (r, b') := PerMessageCall(e, b, c);
    forall x ensures ViewOf(b', x) == if x == w then Answered(e, ViewOf(b, w), c) else ViewOf(b, x) {
      ViewAfter(e, b, c, x);
    }
    StepStays(opts, w, ctl.pc, r);
    SettledKeeps(e, opts, u, b, b', ctl, Step(opts, w, ctl.pc, r), Answered(e, ViewOf(b, w), c), tripped);
  }

  lemma {:induction false} OtherKeeps(e: Env, opts: Options, u: Uid, b: Mailbox, ctl: Control, tripped: bool)
    requires Early(ctl) && !ctl.Working? && Apart(e.all, ctl)
    requires Smooth(opts, ctl, PerMessageCall(e, b, NextCall(ctl)).0, tripped)
    ensures Keeps(e, opts, u, b, ctl, tripped)
  {
    if ctl.Listing? {
      NextExpect(e, opts, u, b, e.all, [], EMPTY.(listed := |e.all|), tripped);
    } else if ctl.Budget? {
      var Budget(queue, rejected, res) := ctl;
      if queue == [] {
        StartExpect(e, opts, u, b, rejected, res.(remaining := |queue|), false);
      } else {
        assert [queue[0]] + queue[1..] == queue && queue[0] in queue;
      }
    }
  }

  lemma {:induction false} LedgerStays(serve: Serve, opts: Options, n: nat, b: Mailbox, ctl: Control)
    requires !Early(ctl)
    ensures var l := Final(serve, opts, n, b, ctl).1.ledger;
      && l.tripped == ctl.ledger.tripped && l.loopAborted == ctl.ledger.loopAborted
      && (ctl.ledger.settleAborted ==> l.settleAborted)
    decreases Phase(ctl), Weight(ctl)
  {
    if !ctl.Done? {
      var (r, b') := serve(n, b, NextCall(ctl));
      ResumeDecreases(opts, ctl, r);
      SettledLedger(opts, ctl, Step(opts, ctl.current.uid, ctl.pc, r));
      LedgerStays(serve, opts, n + 1, b', Resume(opts, ctl, r));
    }
  }

  lemma SettledLedger(opts: Options, ctl: Control, next: Advance)
    requires ctl.Settling?
    ensures var l := Settled(opts, ctl, next).ledger;
      && l.tripped == ctl.ledger.tripped && l.loopAborted == ctl.ledger.loopAborted
      && (ctl.ledger.settleAborted ==> l.settleAborted)
  {
  }

  /** The run ended neither by an abort of the message loop nor by one of the settlement. */
  predicate Completed(ctl: Control)
    requires ctl.Done?
  {
    !ctl.ledger.loopAborted && !ctl.ledger.settleAborted
  }

  /** A completed run makes of each message what that message alone would come to. */
  lemma {:induction false} EachToItsFate(e: Env, opts: Options, n: nat, b: Mailbox, ctl: Control, u: Uid)
    requires Apart(e.all, ctl) && Completed(Final(PerMessageServer(e), opts, n, b, ctl).1)
    ensures var (b', c') := Final(PerMessageServer(e), opts, n, b, ctl);
      ViewOf(b', u) == Expect(e, opts, u, b, ctl, c'.ledger.tripped)
    decreases Phase(ctl), Weight(ctl)
  {
    if !ctl.Done? {
      var (r, b') := PerMessageCall(e, b, NextCall(ctl));
      assert PerMessageServer(e)(n, b, NextCall(ctl)) == (r, b');
      var c' := Resume(opts, ctl, r);
      var tripped := Final(PerMessageServer(e), opts, n, b, ctl).1.ledger.tripped;
      ResumeDecreases(opts, ctl, r);
      if !Early(c') { LedgerStays(PerMessageServer(e), opts, n + 1, b', c'); }
      if ctl.Working? {
        WorkKeeps(e, opts, u, b, ctl, tripped);
      } else if ctl.Settling? {
        SettleKeeps(e, opts, u, b, ctl, tripped);
      } else {
        OtherKeeps(e, opts, u, b, ctl, tripped);
      }
      ResumeApart(opts, e.all, ctl, r);
      EachToItsFate(e, opts, n + 1, b', c', u);
    }
  }

  lemma {:induction false} SameSolo(e: Env, f: Env, opts: Options, u: Uid, v: View, pc: Pc)
    requires forall m, c: Call :: c.AboutMessage() && c.uid == u ==> e.answer(m, c) == f.answer(m, c)
    ensures Solo(e, opts, u, v, pc) == Solo(f, opts, u, v, pc)
    decreases PcRank(pc)
  {
    var c := CallAt(u, pc);
    assert e.answer(v.msg, c) == f.answer(v.msg, c);
    var r := e.answer(v.msg, c).reply;
    StepDecreases(opts, u, pc, r);
    if Step(opts, u, pc, r).Go? { SameSolo(e, f, opts, u, Answered(e, v, c), Step(opts, u, pc, r).pc); }
  }

  /** Isolation: let the servers answer differently about one message, `odd` (say, let
      Gmail fail on it).  If both runs complete and the circuit breaker decides alike,
      every other message ends in the same state and as often in Gmail. */
  lemma {:induction false} Isolated(e: Env, f: Env, opts: Options, b: Mailbox, odd: Uid, u: Uid)
    requires e.all == f.all && NoRepeats(e.all) && u != odd
    requires forall m, c: Call :: c.AboutMessage() && c.uid != odd ==> e.answer(m, c) == f.answer(m, c)
    requires var c, d :=
      Final(PerMessageServer(e), opts, 0, b, Connecting).1, Final(PerMessageServer(f), opts, 0, b, Connecting).1;
      Completed(c) && Completed(d) && c.ledger.tripped == d.ledger.tripped
    ensures var b1, b2 :=
      Final(PerMessageServer(e), opts, 0, b, Connecting).0, Final(PerMessageServer(f), opts, 0, b, Connecting).0;
      ViewOf(b1, u) == ViewOf(b2, u)
  {
    EachToItsFate(e, opts, 0, b, Connecting, u);
    EachToItsFate(f, opts, 0, b, Connecting, u);
    var v := ViewOf(b, u);
    SameSolo(e, f, opts, u, v, AtFetch);
    SameSolo(e, f, opts, u, Solo(e, opts, u, v, AtFetch).0, QuarantineStart(opts, Failed));
  }

  lemma TransientFate(e: Env, opts: Options, u: Uid, b: Mailbox, r: Reply)
    requires u in b.msgs
    requires e.answer(Some(b.msgs[u]), Fetch(u)) == Answer(Fetched({}), b.msgs[u], 0)
    requires e.answer(Some(b.msgs[u]), Insert(u)) == Answer(r, b.msgs[u], 0)
    requires r.TransportError? || (r.HttpError? && r.status !in {400, 401, 404, 409, 410, 412, 413, 422})
    ensures forall tripped :: Fate(e, opts, u, ViewOf(b, u), AtFetch, tripped) == ViewOf(b, u)
  {
    var v := ViewOf(b, u);
    assert Answered(e, v, Fetch(u)) == v && Answered(e, v, Insert(u)) == v;
    assert Solo(e, opts, u, v, AtInsert) == (v, RetryLater);
    assert Solo(e, opts, u, v, AtFetch) == (v, RetryLater);
  }

  /** A transient failure costs nothing but time: a message Gmail cannot take now is, after
      the run, exactly as it was, for the next run to find. */
  lemma {:induction false} TransientFailureLeaves(e: Env, opts: Options, b: Mailbox, u: Uid, r: Reply)
    requires NoRepeats(e.all) && u in e.all && u in b.msgs
    requires e.answer(Some(b.msgs[u]), Fetch(u)) == Answer(Fetched({}), b.msgs[u], 0)
    requires e.answer(Some(b.msgs[u]), Insert(u)) == Answer(r, b.msgs[u], 0)
    requires r.TransportError? || (r.HttpError? && r.status !in {400, 401, 404, 409, 410, 412, 413, 422})
    requires Completed(Final(PerMessageServer(e), opts, 0, b, Connecting).1)
    ensures ViewOf(Final(PerMessageServer(e), opts, 0, b, Connecting).0, u) == ViewOf(b, u)
  {
    EachToItsFate(e, opts, 0, b, Connecting, u);
    TransientFate(e, opts, u, b, r);
  }
}
