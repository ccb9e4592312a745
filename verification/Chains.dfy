/** Runs as the forwarder makes them, one after another, are behaviors of the system:
    what is proved of every interleaving holds of them. */
module Chains {
  import opened Mail
  import opened Run
  import opened System
  import Accounts

  /** A run against a server of its own, which crashes after `calls` calls unless it is
      through before that. */
  datatype Trial = Trial(serve: Run.Serve, calls: nat)

  ghost predicate Truthfully(serve: Run.Serve) {
    forall n, b, c :: LawfulCall(serve, n, b, c)
  }

  ghost predicate LawfulCall(serve: Run.Serve, n: nat, b: Mailbox, c: Call) {
    Lawful(b, c, serve(n, b, c).0, serve(n, b, c).1)
  }

  /** The mailbox after a chain of runs. */
  function Chain(opts: Options, b: Mailbox, trials: seq<Trial>): Mailbox
    decreases |trials|
  {
    if trials == [] then b
    else Chain(opts, After(trials[0].serve, opts, 0, b, Connecting, trials[0].calls).0, trials[1..])
  }

  /** A history of the system that ends in the mailbox `b` with `procs` running. */
  ghost predicate Reaches(
    opts: Options, states: seq<State>, actions: seq<Action>, b: Mailbox, procs: map<Pid, Control>)
  {
    Behavior(opts, true, states, actions) && states[|actions|].box == b && states[|actions|].procs == procs
    && states[|actions|].removed == {}
  }

  /** Each call of a run is a step of the system. */
  lemma {:induction false} RunExtends(
    serve: Run.Serve, opts: Options, n: nat, b: Mailbox, ctl: Control, k: nat, states: seq<State>, actions: seq<Action>)
    returns (states': seq<State>, actions': seq<Action>)
    requires Truthfully(serve) && Reaches(opts, states, actions, b, Running(map[], 0, ctl))
    ensures var (b', ctl') := After(serve, opts, n, b, ctl, k);
      Reaches(opts, states', actions', b', Running(map[], 0, ctl'))
    decreases k
  {
    states', actions' := states, actions;
    if k > 0 && !ctl.Done? {
      var (r, b') := serve(n, b, NextCall(ctl));
      assert LawfulCall(serve, n, b, NextCall(ctl));
      var s := states[|actions|];
      var ctl' := Resume(opts, ctl, r);
      var s' := s.(box := b', procs := Running(s.procs, 0, ctl'), faults := s.faults + CallFaults(opts, ctl, r, b, b'));
      assert s'.procs == Running(map[], 0, ctl');
      OneMore(opts, true, states, actions, Serve(0, r, b'), s');
      states', actions' := RunExtends(serve, opts, n + 1, b', ctl', k - 1, states + [s'], actions + [Serve(0, r, b')]);
    }
  }

  lemma Started(opts: Options, states: seq<State>, actions: seq<Action>, b: Mailbox)
    requires Reaches(opts, states, actions, b, map[])
    ensures var s := states[|actions|];
      Reaches(opts, states + [s.(procs := map[0 := Connecting])], actions + [Begin(0)], b,
        Running(map[], 0, Connecting))
  {
    var s := states[|actions|];
    OneMore(opts, true, states, actions, Begin(0), s.(procs := map[0 := Connecting]));
  }

  /** A run that is not through has crashed when the next one starts. */
  lemma {:induction false} Ended(opts: Options, states: seq<State>, actions: seq<Action>, b: Mailbox, ctl: Control)
    returns (states': seq<State>, actions': seq<Action>)
    requires Reaches(opts, states, actions, b, Running(map[], 0, ctl))
    ensures Reaches(opts, states', actions', b, map[])
  {
    states', actions' := states, actions;
    if !ctl.Done? {
      var s := states[|actions|];
      var s' := s.(procs := s.procs - {0}, faults := s.faults + PendingUid(ctl));
      assert s'.procs == map[];
      OneMore(opts, true, states, actions, Crash(0), s');
      states', actions' := states + [s'], actions + [Crash(0)];
    } else {
      assert states[|actions|].procs == map[];
    }
  }

  lemma {:induction false} ChainExtends(
    opts: Options, b: Mailbox, trials: seq<Trial>, states: seq<State>, actions: seq<Action>)
    returns (states': seq<State>, actions': seq<Action>)
    requires Reaches(opts, states, actions, b, map[]) && forall t :: t in trials ==> Truthfully(t.serve)
    ensures Reaches(opts, states', actions', Chain(opts, b, trials), map[])
    decreases |trials|
  {
    states', actions' := states, actions;
    if trials != [] {
      var t := trials[0];
      assert t in trials;
      Started(opts, states, actions, b);
      states', actions' := RunExtends(t.serve, opts, 0, b, Connecting, t.calls,
        states + [states[|actions|].(procs := map[0 := Connecting])], actions + [Begin(0)]);
      var (b', ctl') := After(t.serve, opts, 0, b, Connecting, t.calls);
      states', actions' := Ended(opts, states', actions', b', ctl');
      states', actions' := ChainExtends(opts, b', trials[1..], states', actions');
    }
  }

  /** However many runs there are, whatever truthful servers they meet, and wherever each
      of them stops: every message stays in INBOX without a \Deleted of the tool, in the
      folder for rejected mail, or in Gmail; and what says that Gmail has it, is right. */
  lemma RunsLoseNothing(opts: Options, b: Mailbox, trials: seq<Trial>, u: Uid)
    requires b.gmail == [] && (forall v :: v in b.msgs ==> Fresh(b.msgs[v])) && u in b.msgs
    requires forall t :: t in trials ==> Truthfully(t.serve)
    ensures var b' := Chain(opts, b, trials);
      var s := State(b', map[], multiset{}, {});
      u in b'.msgs && Kept(s, u) && Truthful(s, u)
  {
    var s0 := State(b, map[], multiset{}, {});
    assert Reaches(opts, [s0], [], b, map[]);
    var states, actions := ChainExtends(opts, b, trials, [s0], []);
    KeysStay(opts, b, trials);
    NoLoss(opts, true, states, actions);
    var s := states[|actions|];
    assert u in s.box.msgs && u !in s.removed;
  }

  lemma KeysKept(b: Mailbox, c: Call, r: Reply, b': Mailbox)
    requires Lawful(b, c, r, b')
    ensures b'.msgs.Keys == b.msgs.Keys
  {
  }

  lemma {:induction false} AfterKeys(serve: Run.Serve, opts: Options, n: nat, b: Mailbox, ctl: Control, k: nat)
    requires Truthfully(serve)
    ensures After(serve, opts, n, b, ctl, k).0.msgs.Keys == b.msgs.Keys
    decreases k
  {
    if k > 0 && !ctl.Done? {
      var (r, b') := serve(n, b, NextCall(ctl));
      assert LawfulCall(serve, n, b, NextCall(ctl));
      KeysKept(b, NextCall(ctl), r, b');
      AfterKeys(serve, opts, n + 1, b', Resume(opts, ctl, r), k - 1);
    }
  }

  lemma {:induction false} KeysStay(opts: Options, b: Mailbox, trials: seq<Trial>)
    requires forall t :: t in trials ==> Truthfully(t.serve)
    ensures Chain(opts, b, trials).msgs.Keys == b.msgs.Keys
    decreases |trials|
  {
    if trials != [] {
      var t := trials[0];
      assert t in trials;
      AfterKeys(t.serve, opts, 0, b, Connecting, t.calls);
      KeysStay(opts, After(t.serve, opts, 0, b, Connecting, t.calls).0, trials[1..]);
    }
  }

  /** A run that is let through ends as `Final` says: so the above holds of it, too. */
  lemma {:induction false} FinalIsAfter(
    serve: Run.Serve, opts: Options, n: nat, b: Mailbox, ctl: Control)
    returns (k: nat)
    ensures After(serve, opts, n, b, ctl, k) == Final(serve, opts, n, b, ctl)
    decreases Phase(ctl), Weight(ctl)
  {
    k := 0;
    if !ctl.Done? {
      var (r, b') := serve(n, b, NextCall(ctl));
      ResumeDecreases(opts, ctl, r);
      k := FinalIsAfter(serve, opts, n + 1, b', Resume(opts, ctl, r));
      k := k + 1;
    }
  }

  // ---- Runs with others in between -------------------------------------------------------

  /** When process `p` was answered in the first `j` steps, from step `i` on. */
  function Answers(actions: seq<Action>, p: Pid, i: nat, j: nat): (times: seq<nat>)
    requires i <= j <= |actions|
    ensures forall k :: 0 <= k < |times| ==> times[k] < j && actions[times[k]].Serve? && actions[times[k]].pid == p
  {
    if i == j then []
    else Answers(actions, p, i, j - 1) + if actions[j - 1].Serve? && actions[j - 1].pid == p then [j - 1] else []
  }

  /** The shared mailbox as the process finds it at each of its calls, and at step `j`. */
  function Boxes(states: seq<State>, times: seq<nat>, j: nat): (boxes: seq<Mailbox>)
    requires j < |states| && forall k :: 0 <= k < |times| ==> times[k] < |states|
    ensures |boxes| == |times| + 1
  {
    seq(|times|, k requires 0 <= k < |times| => states[times[k]].box) + [states[j].box]
  }

  /** The server a process sees: replies, and what the mailbox is at the next call, with all
      that others did to it meanwhile. */
  function Scripted(replies: seq<Reply>, boxes: seq<Mailbox>): Run.Serve {
    (n: nat, b: Mailbox, c: Call) =>
      (if n < |replies| then replies[n] else Ok, if n + 1 < |boxes| then boxes[n + 1] else b)
  }

  predicate GoesOn(opts: Options, replies: seq<Reply>, n: nat)
    requires n <= |replies|
  {
    !Accounts.Replay(opts, replies[..n]).Done?
  }

  ghost predicate NeverDone(opts: Options, replies: seq<Reply>) {
    forall n :: 0 <= n < |replies| ==> GoesOn(opts, replies, n)
  }

  lemma AfterOne(
    serve: Run.Serve, opts: Options, n: nat, b: Mailbox, ctl: Control, k: nat, r: Reply, b': Mailbox)
    requires k > 0 && !ctl.Done? && serve(n, b, NextCall(ctl)) == (r, b')
    ensures After(serve, opts, n, b, ctl, k) == After(serve, opts, n + 1, b', Resume(opts, ctl, r), k - 1)
  {
  }

  lemma ScriptedStep(opts: Options, replies: seq<Reply>, boxes: seq<Mailbox>, n: nat, k: nat)
    requires |boxes| == |replies| + 1 && n < |replies| && NeverDone(opts, replies) && k > 0
    ensures var serve := Scripted(replies, boxes);
      After(serve, opts, n, boxes[n], Accounts.Replay(opts, replies[..n]), k)
        == After(serve, opts, n + 1, boxes[n + 1], Accounts.Replay(opts, replies[..n + 1]), k - 1)
  {
    var ctl := Accounts.Replay(opts, replies[..n]);
    assert GoesOn(opts, replies, n);
    Accounts.ReplayMore(opts, replies, n + 1);
    AfterOne(Scripted(replies, boxes), opts, n, boxes[n], ctl, k, replies[n], boxes[n + 1]);
  }

  predicate Climbs(holds: nat -> bool, k: nat) {
    holds(k) ==> holds(k + 1)
  }

  lemma {:induction false} Climb(holds: nat -> bool, i: nat, j: nat)
    requires i <= j && holds(i) && forall k :: i <= k < j ==> Climbs(holds, k)
    ensures holds(j)
    decreases j
  {
    if i < j {
      Climb(holds, i, j - 1);
      assert Climbs(holds, j - 1);
    }
  }

  /** From call `n` on, the scripted run ends with the last reply. */
  ghost predicate ScriptedAt(opts: Options, replies: seq<Reply>, boxes: seq<Mailbox>, n: nat) {
    && n <= |replies| < |boxes|
    && After(Scripted(replies, boxes), opts, 0, boxes[0], Connecting, |replies|)
       == After(Scripted(replies, boxes), opts, n, boxes[n], Accounts.Replay(opts, replies[..n]), |replies| - n)
  }

  lemma ScriptedRun(opts: Options, replies: seq<Reply>, boxes: seq<Mailbox>)
    requires |boxes| == |replies| + 1 && NeverDone(opts, replies)
    ensures After(Scripted(replies, boxes), opts, 0, boxes[0], Connecting, |replies|)
         == (boxes[|replies|], Accounts.Replay(opts, replies))
  {
    assert replies[..0] == [] && replies[..|replies|] == replies;
    var at := (n: nat) => ScriptedAt(opts, replies, boxes, n);
    forall n: nat | 0 <= n < |replies| ensures Climbs(at, n) {
      ScriptedStep(opts, replies, boxes, n, |replies| - n);
    }
    Climb(at, 0, |replies|);
    assert ScriptedAt(opts, replies, boxes, |replies|);
  }

  lemma {:induction false} ControlMoves(opts: Options, locked: bool, s: State, a: Action, s': State, p: Pid)
    requires Next(opts, locked, s, a, s') && p in s.procs && p in s'.procs
    ensures s'.procs[p] == if a.Serve? && a.pid == p then Resume(opts, s.procs[p], a.reply) else s.procs[p]
    ensures a.Serve? && a.pid == p ==> !s.procs[p].Done?
  {
  }

  /** Step `j`, as far as process `p` goes. */
  predicate Moved(opts: Options, before: map<Pid, Control>, a: Action, after: map<Pid, Control>, p: Pid) {
    && (a == Begin(p) ==> p in after && after[p] == Connecting)
    && (p in before && p in after ==>
          if a.Serve? && a.pid == p then !before[p].Done? && after[p] == Resume(opts, before[p], a.reply)
          else after[p] == before[p])
  }

  lemma {:induction false} MovesAt(opts: Options, locked: bool, s: State, a: Action, s': State, p: Pid)
    requires Next(opts, locked, s, a, s')
    ensures Moved(opts, s.procs, a, s'.procs, p)
  {
    if p in s.procs && p in s'.procs { ControlMoves(opts, locked, s, a, s', p); }
  }

  predicate MovedAt(opts: Options, states: seq<State>, actions: seq<Action>, p: Pid, j: nat)
    requires j < |actions| < |states|
  {
    Moved(opts, states[j].procs, actions[j], states[j + 1].procs, p)
  }

  ghost predicate AllMoved(opts: Options, states: seq<State>, actions: seq<Action>, p: Pid) {
    |states| == |actions| + 1 && forall j :: 0 <= j < |actions| ==> MovedAt(opts, states, actions, p, j)
  }

  lemma {:induction false} BehaviorMoves(opts: Options, locked: bool, states: seq<State>, actions: seq<Action>, p: Pid)
    requires Behavior(opts, locked, states, actions)
    ensures AllMoved(opts, states, actions, p)
  {
    forall j | 0 <= j < |actions| ensures MovedAt(opts, states, actions, p, j) {
      assert NextAt(opts, locked, states, actions, j);
      MovesAt(opts, locked, states[j], actions[j], states[j + 1], p);
    }
  }

  /** What the process has been told by step `j`. */
  function ToldTo(actions: seq<Action>, p: Pid, i: nat, j: nat): (told: seq<Reply>)
    requires i <= j <= |actions|
  {
    if i == j then []
    else
      var told := ToldTo(actions, p, i, j - 1);
      if actions[j - 1].Serve? && actions[j - 1].pid == p then told + [actions[j - 1].reply] else told
  }

  lemma {:induction false} AsManyTold(actions: seq<Action>, p: Pid, i: nat, j: nat)
    requires i <= j <= |actions|
    ensures |ToldTo(actions, p, i, j)| == |Answers(actions, p, i, j)|
    decreases j
  {
    if i < j { AsManyTold(actions, p, i, j - 1); }
  }

  /** The process is alive, and where the replies it got have taken it. */
  ghost predicate InStep(opts: Options, procs: map<Pid, Control>, p: Pid, told: seq<Reply>) {
    p in procs && procs[p] == Accounts.Replay(opts, told) && NeverDone(opts, told)
  }

  lemma StepsOff(opts: Options, before: map<Pid, Control>, after: map<Pid, Control>, p: Pid)
    requires Moved(opts, before, Begin(p), after, p)
    ensures InStep(opts, after, p, [])
  {
  }

  lemma StaysInStep(
    opts: Options, before: map<Pid, Control>, a: Action, after: map<Pid, Control>, p: Pid, told: seq<Reply>)
    requires Moved(opts, before, a, after, p) && InStep(opts, before, p, told) && p in after
    ensures InStep(opts, after, p, told + if a.Serve? && a.pid == p then [a.reply] else [])
  {
    if a.Serve? && a.pid == p {
      Accounts.ToldMore(opts, told, a.reply);
      MoreRuns(opts, told, a.reply);
    } else {
      assert told + [] == told;
    }
  }

  ghost predicate Alive(states: seq<State>, p: Pid, i: nat, j: nat) {
    i < j < |states| && forall k :: i < k <= j ==> p in states[k].procs
  }

  /** At step `j` the process is where `told(j)` has taken it. */
  ghost predicate InStepAt(
    opts: Options, states: seq<State>, p: Pid, told: nat -> seq<Reply>, j: nat)
  {
    j < |states| && InStep(opts, states[j].procs, p, told(j))
  }

  /** ... which step `j` adds to, if it answers the process. */
  predicate Tells(actions: seq<Action>, p: Pid, told: nat -> seq<Reply>, j: nat)
    requires j < |actions|
  {
    told(j + 1) == told(j) + if actions[j].Serve? && actions[j].pid == p then [actions[j].reply] else []
  }

  lemma InStepNext(
    opts: Options, states: seq<State>, actions: seq<Action>, p: Pid, told: nat -> seq<Reply>, j: nat)
    requires AllMoved(opts, states, actions, p) && j < |actions| && Tells(actions, p, told, j)
    requires InStepAt(opts, states, p, told, j) && p in states[j + 1].procs
    ensures InStepAt(opts, states, p, told, j + 1)
  {
    assert MovedAt(opts, states, actions, p, j);
    StaysInStep(opts, states[j].procs, actions[j], states[j + 1].procs, p, told(j));
  }

  lemma StaysTold(
    opts: Options, states: seq<State>, actions: seq<Action>, p: Pid, i: nat, j: nat, told: nat -> seq<Reply>)
    requires AllMoved(opts, states, actions, p) && Alive(states, p, i, j) && actions[i] == Begin(p)
    requires told(i + 1) == [] && forall k :: i < k < j ==> Tells(actions, p, told, k)
    ensures InStepAt(opts, states, p, told, j)
  {
    var at := (k: nat) => InStepAt(opts, states, p, told, k);
    assert MovedAt(opts, states, actions, p, i);
    StepsOff(opts, states[i].procs, states[i + 1].procs, p);
    forall k: nat | i + 1 <= k < j ensures Climbs(at, k) {
      if at(k) { InStepNext(opts, states, actions, p, told, k); }
    }
    Climb(at, i + 1, j);
  }

  function ToldBy(actions: seq<Action>, p: Pid, i: nat): nat -> seq<Reply> {
    (k: nat) => if i < k <= |actions| then ToldTo(actions, p, i + 1, k) else []
  }

  lemma TellsOn(actions: seq<Action>, p: Pid, i: nat, k: nat)
    requires i < k < |actions|
    ensures Tells(actions, p, ToldBy(actions, p, i), k)
  {
    var told := ToldTo(actions, p, i + 1, k);
    assert told + [] == told;
  }

  lemma ControlIsReplay(opts: Options, states: seq<State>, actions: seq<Action>, p: Pid, i: nat, j: nat)
    requires AllMoved(opts, states, actions, p) && Alive(states, p, i, j) && actions[i] == Begin(p)
    ensures InStepAt(opts, states, p, ToldBy(actions, p, i), j)
  {
    forall k | i < k < j ensures Tells(actions, p, ToldBy(actions, p, i), k) { TellsOn(actions, p, i, k); }
    StaysTold(opts, states, actions, p, i, j, ToldBy(actions, p, i));
  }

  lemma MoreRuns(opts: Options, past: seq<Reply>, r: Reply)
    requires NeverDone(opts, past) && !Accounts.Replay(opts, past).Done?
    ensures NeverDone(opts, past + [r])
  {
    forall n | 0 <= n < |past + [r]| ensures GoesOn(opts, past + [r], n) {
      if n < |past| {
        assert GoesOn(opts, past, n) && (past + [r])[..n] == past[..n];
      } else {
        assert (past + [r])[..n] == past;
      }
    }
  }

  /** Every process of every interleaving is a run as the forwarder makes it, against the
      server that gives it the replies it got and shows it the shared mailbox at each call:
      at any step, that run is in the same mailbox and at the same point.  So no such run
      loses mail, whatever others do between its calls. */
  lemma ProcessIsRun(
    opts: Options, locked: bool, states: seq<State>, actions: seq<Action>, p: Pid, i: nat, j: nat)
    requires Behavior(opts, locked, states, actions) && Alive(states, p, i, j) && actions[i] == Begin(p)
    ensures var times := Answers(actions, p, i + 1, j);
      var replies, boxes := ToldTo(actions, p, i + 1, j), Boxes(states, times, j);
      After(Scripted(replies, boxes), opts, 0, boxes[0], Connecting, |times|) == (states[j].box, states[j].procs[p])
    ensures forall u :: u in states[j].box.msgs ==>
      (u !in states[j].removed ==> Kept(states[j], u)) && Truthful(states[j], u)
  {
    var times := Answers(actions, p, i + 1, j);
    var replies, boxes := ToldTo(actions, p, i + 1, j), Boxes(states, times, j);
    AsManyTold(actions, p, i + 1, j);
    BehaviorMoves(opts, locked, states, actions, p);
    ControlIsReplay(opts, states, actions, p, i, j);
    ScriptedRun(opts, replies, boxes);
    NoLoss(opts, locked, states, actions);
  }
}
