/** Each message has one place in a run: being worked on, queued, or rejected. */
module Order {
  import opened Mail
  import opened Run

  predicate NoRepeats(us: seq<Uid>) {
    forall i, j :: 0 <= i < j < |us| ==> us[i] != us[j]
  }

  predicate Distinct(rs: seq<Rejection>) {
    forall i, j :: 0 <= i < j < |rs| ==> rs[i].uid != rs[j].uid
  }

  ghost predicate Apart(all: seq<Uid>, ctl: Control) {
    match ctl
    case Budget(queue, rejected, _) =>
      NoRepeats(queue) && Distinct(rejected) && forall u :: u in queue ==> !Rejects(rejected, u)
    case Working(w, pc, queue, rejected, _) =>
      && NoRepeats([w] + queue) && Distinct(rejected) && LoopPc(pc)
      && (forall u :: u in queue ==> !Rejects(rejected, u)) && !Rejects(rejected, w)
    case Settling(current, pc, todo, _, _) => Distinct([current] + todo) && SettlePc(pc)
    case Done(_, _) => true
    case _ => NoRepeats(all)
  }

  predicate Rejects(rs: seq<Rejection>, u: Uid) {
    exists j :: j in rs && j.uid == u
  }

  lemma SameRejection(rs: seq<Rejection>, j: Rejection, k: Rejection)
    requires Distinct(rs) && j in rs && k in rs && j.uid == k.uid
    ensures j == k
  {
  }

  lemma {:induction false} PerMessageDistinct(rs: seq<Rejection>)
    requires Distinct(rs)
    ensures Distinct(PerMessage(rs))
  {
    if rs != [] {
      PerMessageDistinct(rs[1..]);
      SplitMembers(rs[1..]);
      forall j | j in rs[1..] ensures j.uid != rs[0].uid {
        var i :| 0 <= i < |rs[1..]| && rs[1..][i] == j;
        assert rs[i + 1] == j;
      }
      var more := PerMessage(rs[1..]);
      assert forall i :: 0 <= i < |more| ==> more[i] in rs[1..];
    }
  }

  lemma RejectsHead(rs: seq<Rejection>, u: Uid)
    requires rs != []
    ensures [rs[0]] + rs[1..] == rs
    ensures Rejects(rs, u) <==> rs[0].uid == u || Rejects(rs[1..], u)
  {
  }

  lemma TailApart(current: Rejection, todo: seq<Rejection>, u: Uid)
    requires Distinct([current] + todo)
    ensures Distinct(todo) && !Rejects(todo, current.uid)
    ensures todo != [] ==>
      && [todo[0]] + todo[1..] == todo
      && (Rejects(todo, u) <==> todo[0].uid == u || Rejects(todo[1..], u))
  {
    var open := [current] + todo;
    assert forall i :: 0 <= i < |todo| ==> open[i + 1] == todo[i];
    forall j | j in todo ensures j.uid != current.uid {
      var i :| 0 <= i < |todo| && todo[i] == j;
      assert open[0].uid != open[i + 1].uid;
    }
    if todo != [] { RejectsHead(todo, u); }
  }

  lemma HeadApart(w: Uid, queue: seq<Uid>)
    requires NoRepeats([w] + queue)
    ensures NoRepeats(queue) && w !in queue
  {
    assert forall i :: 0 <= i < |queue| ==> ([w] + queue)[i + 1] == queue[i];
    assert ([w] + queue)[0] == w;
  }

  lemma MoreRejected(rs: seq<Rejection>, j: Rejection)
    requires Distinct(rs) && !Rejects(rs, j.uid)
    ensures Distinct(rs + [j])
    ensures forall u :: Rejects(rs + [j], u) <==> Rejects(rs, u) || u == j.uid
  {
  }

  lemma StartApart(opts: Options, all: seq<Uid>, rejected: seq<Rejection>, res: Result, aborted: bool)
    requires Distinct(rejected)
    ensures Apart(all, StartSettling(opts, rejected, res, aborted))
  {
    PerMessageDistinct(rejected);
    var todo := if Trips(opts, rejected, res) then PerMessage(rejected) else rejected;
    if todo != [] { assert [todo[0]] + todo[1..] == todo; }
  }

  lemma NextApart(opts: Options, all: seq<Uid>, queue: seq<Uid>, rejected: seq<Rejection>, res: Result)
    requires NoRepeats(queue) && Distinct(rejected) && forall u :: u in queue ==> !Rejects(rejected, u)
    ensures Apart(all, NextMessage(opts, queue, rejected, res))
  {
    if queue == [] { StartApart(opts, all, rejected, res, false); }
  }

  lemma {:induction false} EndApart(opts: Options, all: seq<Uid>, ctl: Control, accepted: bool, v: Verdict)
    requires ctl.Working? && Apart(all, ctl) && !v.Aborted?
    ensures Apart(all, Onward(opts, ctl, accepted, End(v)))
  {
    var res := if accepted then ctl.res.(forwarded := ctl.res.forwarded + 1) else ctl.res;
    HeadApart(ctl.uid, ctl.queue);
    if v.Rejected? {
      RejectedApart(opts, all, ctl, Rejection(ctl.uid, v.error, v.perMessage), res);
    } else {
      NextApart(opts, all, ctl.queue, ctl.rejected, Tally(res, v));
    }
  }

  lemma {:induction false} OnwardApart(opts: Options, all: seq<Uid>, ctl: Control, accepted: bool, next: Advance)
    requires ctl.Working? && Apart(all, ctl) && (next.Go? ==> LoopPc(next.pc))
    ensures Apart(all, Onward(opts, ctl, accepted, next))
  {
    if next.End? && next.verdict.Aborted? {
      var res := if accepted then ctl.res.(forwarded := ctl.res.forwarded + 1) else ctl.res;
      StartApart(opts, all, ctl.rejected, res.(error := Some(next.verdict.reason), remaining := |ctl.queue| + 1), true);
    } else if next.End? {
      EndApart(opts, all, ctl, accepted, next.verdict);
    }
  }

  lemma RejectedApart(opts: Options, all: seq<Uid>, ctl: Control, j: Rejection, res: Result)
    requires ctl.Working? && Apart(all, ctl) && j.uid == ctl.uid
    ensures Apart(all, NextMessage(opts, ctl.queue, ctl.rejected + [j], res))
  {
    HeadApart(ctl.uid, ctl.queue);
    MoreRejected(ctl.rejected, j);
    NextApart(opts, all, ctl.queue, ctl.rejected + [j], res);
  }

  lemma {:induction false} SettledApart(opts: Options, all: seq<Uid>, ctl: Control, next: Advance)
    requires ctl.Settling? && Apart(all, ctl) && (next.Go? ==> SettlePc(next.pc))
    ensures Apart(all, Settled(opts, ctl, next))
  {
    TailApart(ctl.current, ctl.todo, 0);
  }

  lemma {:induction false} ResumeApart(opts: Options, all: seq<Uid>, ctl: Control, r: Reply)
    requires !ctl.Done? && Apart(all, ctl) && (ctl.Listing? && r.Listed? ==> r.uids == all)
    ensures Apart(all, Resume(opts, ctl, r))
  {
    if ctl.Working? {
      StepStays(opts, ctl.uid, ctl.pc, r);
      OnwardApart(opts, all, ctl, ctl.pc.AtInsert? && r.Accepted?, Step(opts, ctl.uid, ctl.pc, r));
    } else if ctl.Settling? {
      StepStays(opts, ctl.current.uid, ctl.pc, r);
      SettledApart(opts, all, ctl, Step(opts, ctl.current.uid, ctl.pc, r));
    } else {
      EarlyApart(opts, all, ctl, r);
    }
  }

  lemma {:induction false} EarlyApart(opts: Options, all: seq<Uid>, ctl: Control, r: Reply)
    requires Early(ctl) && !ctl.Working? && Apart(all, ctl) && (ctl.Listing? && r.Listed? ==> r.uids == all)
    ensures Apart(all, Resume(opts, ctl, r))
  {
    if ctl.Budget? {
      var Budget(queue, rejected, res) := ctl;
      StartApart(opts, all, rejected, res.(remaining := |queue|), false);
      if queue != [] { assert [queue[0]] + queue[1..] == queue && queue[0] in queue; }
    } else if ctl.Listing? && r.Listed? {
      NextApart(opts, all, all, [], EMPTY.(listed := |all|));
    }
  }
}
