/** Any number of forwarder processes over one mailbox, interleaved call by call,
    with crashes and lost replies anywhere, while mail arrives, the user acts on it
    and an operator uses the maintenance commands. */
module System {
  import opened Mail
  import opened Run

  type Pid = nat

  /** `faults` counts, per message, the events that may each cost one duplicate;
      `removed` are the messages the user took away. */
  datatype State = State(box: Mailbox, procs: map<Pid, Control>, faults: multiset<Uid>, removed: set<Uid>)

  datatype Action =
    | Arrive(uid: Uid, m: Msg)
    | UserFlag(uid: Uid, deleted: bool)
    | UserExpunge(uid: Uid)
    | UserRemove(uid: Uid, m: Msg)
    | EmptyTrash(uid: Uid)
    | OperatorMark(uid: Uid, m: Msg)
    | OperatorClear(uid: Uid, mark: Mark, m: Msg)
    | Begin(pid: Pid)
    | Serve(pid: Pid, reply: Reply, box: Mailbox)
    | Crash(pid: Pid)
    | CrashInCall(pid: Pid, reply: Reply, box: Mailbox)

  predicate Fresh(m: Msg) {
    m.inInbox && m.marks <= {Failed} && !m.toolDeleted && m.places == {}
  }

  ghost predicate Init(s: State) {
    && (forall u :: u in s.box.msgs ==> Fresh(s.box.msgs[u]))
    && s.box.gmail == [] && s.procs == map[] && s.faults == multiset{} && s.removed == {}
  }

  /** Gmail has the message and nothing on the message says so yet. */
  predicate Pending(pc: Pc) {
    match pc
    case AtFetch => false
    case AtInsert => false
    case AtStore(k) => k != Failed
    case AtRefetch(k) => k != Failed
    case _ => pc.dest == UnverifiedFolder
  }

  function PendingUid(ctl: Control): multiset<Uid> {
    if ctl.Working? && Pending(ctl.pc) then multiset{ctl.uid} else multiset{}
  }

  function Accepts(b: Mailbox, b': Mailbox): nat {
    if |b.gmail| <= |b'.gmail| then |b'.gmail| - |b.gmail| else 0
  }

  /** The message in hand is given up and still in INBOX: the run aborts, or the EXPUNGE
      that was to take it away found no \Deleted on it. */
  predicate LeftBehind(opts: Options, ctl: Control, r: Reply, b': Mailbox)
    requires ctl.Working?
  {
    var next := Step(opts, ctl.uid, ctl.pc, r);
    next.End? && (next.verdict.Aborted?
      || (ctl.pc.AtExpunge? && ctl.uid in b'.msgs && b'.msgs[ctl.uid].inInbox))
  }

  function CallFaults(opts: Options, ctl: Control, r: Reply, b: Mailbox, b': Mailbox): multiset<Uid>
    requires !ctl.Done?
  {
    if NextCall(ctl).Insert? then
      var n := Accepts(b, b');
      multiset{}[NextCall(ctl).uid := if r.Accepted? && n > 0 then n - 1 else n]
    else if ctl.Working? && Pending(ctl.pc) && LeftBehind(opts, ctl, r, b') then multiset{ctl.uid}
    else multiset{}
  }

  function CrashFaults(ctl: Control, b: Mailbox, b': Mailbox): multiset<Uid>
    requires !ctl.Done?
  {
    if NextCall(ctl).Insert? then multiset{}[NextCall(ctl).uid := Accepts(b, b')] else PendingUid(ctl)
  }

  function Put(s: State, u: Uid, m: Msg): State {
    s.(box := s.box.(msgs := s.box.msgs[u := m]))
  }

  function Running(procs: map<Pid, Control>, p: Pid, ctl: Control): map<Pid, Control> {
    if ctl.Done? then procs - {p} else procs[p := ctl]
  }

  /** `locked`: the processes share the run lock of the server. */
  ghost predicate Next(opts: Options, locked: bool, s: State, a: Action, s': State) {
    match a
    case Arrive(u, m) => u !in s.box.msgs && Fresh(m) && s' == Put(s, u, m)
    case UserFlag(u, deleted) =>
      u in s.box.msgs && s' == Put(s, u, s.box.msgs[u].(userDeleted := deleted))
    // The mail client of the user purges what carries \Deleted, whoever set it.
    case UserExpunge(u) =>
      && u in s.box.msgs
      && var m := s.box.msgs[u];
      s' == Put(s, u, Expunged(m)).(removed := if m.toolDeleted then s.removed else s.removed + {u})
    case UserRemove(u, m) =>
      && u in s.box.msgs
      && m.marks == s.box.msgs[u].marks && m.places <= s.box.msgs[u].places
      && (m.inInbox ==> s.box.msgs[u].inInbox) && m.toolDeleted == s.box.msgs[u].toolDeleted
      && s' == Put(s, u, m).(removed := s.removed + {u})
    case EmptyTrash(u) =>
      u in s.box.msgs && s' == Put(s, u, s.box.msgs[u].(places := s.box.msgs[u].places - {Trash}))
    case OperatorMark(u, m) =>
      && u in s.box.msgs && (m == s.box.msgs[u] || m == Marked(s.box.msgs[u], Failed))
      && s' == Put(s, u, m)
    case OperatorClear(u, k, m) =>
      && u in s.box.msgs && k != Inserted
      && var was := s.box.msgs[u];
      && (m == was || m == was.(marks := was.marks - {k}))
      && s' == Put(s, u, m).(faults :=
           s.faults + if k == Unverified && m != was then multiset{u} else multiset{})
    case Begin(p) =>
      p !in s.procs && (locked ==> s.procs == map[]) && s' == s.(procs := s.procs[p := Connecting])
    case Serve(p, r, b) =>
      && p in s.procs && !s.procs[p].Done?
      && Lawful(s.box, NextCall(s.procs[p]), r, b)
      && s' == s.(box := b,
                  procs := Running(s.procs, p, Resume(opts, s.procs[p], r)),
                  faults := s.faults + CallFaults(opts, s.procs[p], r, s.box, b))
    case Crash(p) =>
      p in s.procs && s' == s.(procs := s.procs - {p}, faults := s.faults + PendingUid(s.procs[p]))
    // The call took its effect, but the process did not live to see the reply.
    case CrashInCall(p, r, b) =>
      && p in s.procs && !s.procs[p].Done?
      && Lawful(s.box, NextCall(s.procs[p]), r, b)
      && s' == s.(box := b, procs := s.procs - {p},
                  faults := s.faults + CrashFaults(s.procs[p], s.box, b))
  }

  ghost predicate NextAt(opts: Options, locked: bool, states: seq<State>, actions: seq<Action>, i: nat)
    requires i < |actions| < |states|
  {
    Next(opts, locked, states[i], actions[i], states[i + 1])
  }

  ghost predicate Behavior(opts: Options, locked: bool, states: seq<State>, actions: seq<Action>) {
    && |states| == |actions| + 1
    && Init(states[0])
    && forall i :: 0 <= i < |actions| ==> NextAt(opts, locked, states, actions, i)
  }

  lemma {:induction false} OneMore(
    opts: Options, locked: bool, states: seq<State>, actions: seq<Action>, a: Action, s: State)
    requires Behavior(opts, locked, states, actions) && Next(opts, locked, states[|actions|], a, s)
    ensures Behavior(opts, locked, states + [s], actions + [a])
  {
    forall i | 0 <= i < |actions + [a]| ensures NextAt(opts, locked, states + [s], actions + [a], i) {
      if i < |actions| { assert NextAt(opts, locked, states, actions, i); }
    }
  }

  // ---- No loss ------------------------------------------------------------------

  /** The message still is where the user can find it, or in Gmail. */
  predicate Kept(s: State, u: Uid)
    requires u in s.box.msgs
  {
    var m := s.box.msgs[u];
    (m.inInbox && !m.toolDeleted) || FailedFolder in m.places || u in s.box.gmail
  }

  /** What says that Gmail has the message, is right. */
  predicate Truthful(s: State, u: Uid)
    requires u in s.box.msgs
  {
    var m := s.box.msgs[u];
    (Trash in m.places || UnverifiedFolder in m.places || Inserted in m.marks || Unverified in m.marks)
    ==> u in s.box.gmail
  }

  predicate MsgSafe(s: State, u: Uid)
    requires u in s.box.msgs
  {
    && Truthful(s, u)
    && (u !in s.removed ==> Kept(s, u))
    && (u !in s.removed && s.box.msgs[u].toolDeleted ==> FailedFolder in s.box.msgs[u].places || u in s.box.gmail)
  }

  predicate NeedsGmail(pc: Pc) {
    match pc
    case AtFetch => false
    case AtInsert => false
    case AtStore(k) => k != Failed
    case AtRefetch(k) => k != Failed
    case _ => pc.dest != FailedFolder
  }

  predicate NeedsCopy(pc: Pc) {
    (pc.AtStoreDeleted? || pc.AtExpunge?) && pc.dest == FailedFolder
  }

  predicate PcSafe(s: State, u: Uid, pc: Pc) {
    && u in s.box.msgs
    && (NeedsGmail(pc) ==> u in s.box.gmail)
    && (NeedsCopy(pc) ==>
          u in s.removed || !s.box.msgs[u].inInbox || FailedFolder in s.box.msgs[u].places)
  }

  predicate Known(b: Mailbox, us: seq<Uid>) {
    forall u :: u in us ==> u in b.msgs
  }

  predicate KnownRejections(b: Mailbox, js: seq<Rejection>) {
    forall j :: j in js ==> j.uid in b.msgs
  }

  predicate CtlSafe(s: State, ctl: Control) {
    match ctl
    case Budget(queue, rejected, _) => Known(s.box, queue) && KnownRejections(s.box, rejected)
    case Working(u, pc, queue, rejected, _) =>
      Known(s.box, queue) && KnownRejections(s.box, rejected) && PcSafe(s, u, pc)
    case Settling(current, pc, todo, _, _) =>
      KnownRejections(s.box, todo) && SettlePc(pc) && PcSafe(s, current.uid, pc)
    case _ => true
  }

  ghost predicate Safe(s: State) {
    && (forall u :: u in s.box.msgs ==> MsgSafe(s, u))
    && (forall p :: p in s.procs ==> CtlSafe(s, s.procs[p]))
  }

  /** How the mailbox may change under the feet of a process. */
  ghost predicate Later(s: State, s': State) {
    && s.box.msgs.Keys <= s'.box.msgs.Keys
    && s.removed <= s'.removed
    && (forall u :: u in s.box.gmail ==> u in s'.box.gmail)
    && forall u :: u in s.box.msgs ==> LaterMsg(s, s', u)
  }

  predicate LaterMsg(s: State, s': State, u: Uid)
    requires u in s.box.msgs && u in s'.box.msgs
  {
    && (s'.box.msgs[u].inInbox ==> s.box.msgs[u].inInbox)
    && (FailedFolder in s.box.msgs[u].places ==> FailedFolder in s'.box.msgs[u].places || u in s'.removed)
  }

  lemma CtlSafeLater(s: State, s': State, ctl: Control)
    requires Later(s, s') && CtlSafe(s, ctl)
    ensures CtlSafe(s', ctl)
  {
  }

  lemma CallLater(s: State, u: Uid, pc: Pc, r: Reply, s': State)
    requires u in s.box.msgs && Lawful(s.box, CallAt(u, pc), r, s'.box) && s'.removed == s.removed
    ensures u in s'.box.msgs && LaterMsg(s, s', u) && (u in s.box.gmail ==> u in s'.box.gmail)
    ensures pc.AtInsert? && r.Accepted? ==> u in s'.box.gmail
  {
  }

  /** One call on one message keeps that message safe. */
  lemma CallSafe(s: State, u: Uid, pc: Pc, r: Reply, s': State)
    requires PcSafe(s, u, pc) && MsgSafe(s, u)
    requires Lawful(s.box, CallAt(u, pc), r, s'.box) && s'.removed == s.removed
    ensures u in s'.box.msgs && MsgSafe(s', u) && LaterMsg(s, s', u)
    ensures u in s.box.gmail ==> u in s'.box.gmail
    ensures pc.AtInsert? && r.Accepted? ==> u in s'.box.gmail
  {
    CallLater(s, u, pc, r, s');
  }

  /** Whatever a process does next rests on what it has just been told. */
  lemma StepSafe(opts: Options, s: State, u: Uid, pc: Pc, r: Reply, s': State)
    requires PcSafe(s, u, pc) && Truthful(s, u)
    requires Lawful(s.box, CallAt(u, pc), r, s'.box) && s'.removed == s.removed
    requires u in s'.box.msgs && LaterMsg(s, s', u) && (u in s.box.gmail ==> u in s'.box.gmail)
    requires pc.AtInsert? && r.Accepted? ==> u in s'.box.gmail
    ensures Step(opts, u, pc, r).Go? ==> PcSafe(s', u, Step(opts, u, pc, r).pc)
  {
  }

  lemma {:induction false} CallFrame(s: State, c: Call, r: Reply, s': State)
    requires Lawful(s.box, c, r, s'.box) && s'.removed == s.removed
    requires c.AboutMessage() ==> c.uid in s.box.msgs && LaterMsg(s, s', c.uid)
    ensures Later(s, s')
    ensures forall v :: v in s.box.msgs && MsgSafe(s, v) && (c.AboutMessage() ==> v != c.uid) ==> MsgSafe(s', v)
    ensures s'.box.msgs.Keys == s.box.msgs.Keys
  {
  }

  lemma StartSafe(opts: Options, s: State, rejected: seq<Rejection>, res: Result, aborted: bool)
    requires KnownRejections(s.box, rejected)
    ensures CtlSafe(s, StartSettling(opts, rejected, res, aborted))
  {
    SplitMembers(rejected);
    var todo := if Trips(opts, rejected, res) then PerMessage(rejected) else rejected;
    if todo != [] { assert todo[0] in todo; assert forall j :: j in todo[1..] ==> j in todo; }
  }

  lemma MessageSafe(opts: Options, s: State, queue: seq<Uid>, rejected: seq<Rejection>, res: Result)
    requires Known(s.box, queue) && KnownRejections(s.box, rejected)
    ensures CtlSafe(s, NextMessage(opts, queue, rejected, res))
  {
    if queue == [] { StartSafe(opts, s, rejected, res, false); }
  }

  lemma {:induction false} OnwardSafe(opts: Options, s: State, ctl: Control, accepted: bool, next: Advance)
    requires ctl.Working? && CtlSafe(s, ctl)
    requires next.Go? ==> PcSafe(s, ctl.uid, next.pc)
    ensures CtlSafe(s, Onward(opts, ctl, accepted, next))
  {
    var res := if accepted then ctl.res.(forwarded := ctl.res.forwarded + 1) else ctl.res;
    OnwardIs(opts, ctl, accepted, next, res);
    if next.Go? {
    } else if next.verdict.Aborted? {
      StartSafe(opts, s, ctl.rejected, res.(error := Some(next.verdict.reason), remaining := |ctl.queue| + 1), true);
    } else if next.verdict.Rejected? {
      var j := Rejection(ctl.uid, next.verdict.error, next.verdict.perMessage);
      MessageSafe(opts, s, ctl.queue, ctl.rejected + [j], Tally(res, next.verdict));
    } else {
      MessageSafe(opts, s, ctl.queue, ctl.rejected, Tally(res, next.verdict));
    }
  }

  /** A process that has just been answered is safe, and so is the message it asked about. */
  lemma {:induction false} ServeSafe(opts: Options, s: State, ctl: Control, r: Reply, s': State)
    requires Safe(s) && CtlSafe(s, ctl) && !ctl.Done?
    requires Lawful(s.box, NextCall(ctl), r, s'.box) && s'.removed == s.removed
    ensures Later(s, s') && CtlSafe(s', Resume(opts, ctl, r))
    ensures forall u :: u in s'.box.msgs ==> MsgSafe(s', u)
  {
    if ctl.Working? {
      CallSafe(s, ctl.uid, ctl.pc, r, s');
      StepSafe(opts, s, ctl.uid, ctl.pc, r, s');
      CallFrame(s, NextCall(ctl), r, s');
      CtlSafeOnward(opts, s, s', ctl, r);
    } else if ctl.Settling? {
      CallSafe(s, ctl.current.uid, ctl.pc, r, s');
      StepSafe(opts, s, ctl.current.uid, ctl.pc, r, s');
      CallFrame(s, NextCall(ctl), r, s');
      StepStays(opts, ctl.current.uid, ctl.pc, r);
      CtlSafeSettled(opts, s, s', ctl, r);
    } else {
      CallFrame(s, NextCall(ctl), r, s');
      OtherSafe(opts, s, s', ctl, r);
    }
  }

  lemma {:induction false} CtlSafeOnward(opts: Options, s: State, s': State, ctl: Control, r: Reply)
    requires ctl.Working? && CtlSafe(s, ctl) && Later(s, s')
    requires var n := Step(opts, ctl.uid, ctl.pc, r); n.Go? ==> PcSafe(s', ctl.uid, n.pc)
    ensures CtlSafe(s', Resume(opts, ctl, r))
  {
    CtlSafeLater(s, s', ctl);
    OnwardSafe(opts, s', ctl, ctl.pc.AtInsert? && r.Accepted?, Step(opts, ctl.uid, ctl.pc, r));
  }

  lemma {:induction false} CtlSafeSettled(opts: Options, s: State, s': State, ctl: Control, r: Reply)
    requires ctl.Settling? && CtlSafe(s, ctl) && Later(s, s')
    requires var n := Step(opts, ctl.current.uid, ctl.pc, r);
      n.Go? ==> SettlePc(n.pc) && PcSafe(s', ctl.current.uid, n.pc)
    ensures CtlSafe(s', Resume(opts, ctl, r))
  {
  }

  lemma {:induction false} OtherSafe(opts: Options, s: State, s': State, ctl: Control, r: Reply)
    requires !ctl.Done? && !ctl.Working? && !ctl.Settling? && CtlSafe(s, ctl) && Later(s, s')
    requires r.Listed? ==> Known(s.box, r.uids)
    ensures CtlSafe(s', Resume(opts, ctl, r))
  {
    if ctl.Budget? {
      var Budget(queue, rejected, res) := ctl;
      StartSafe(opts, s', rejected, res.(remaining := |queue|), false);
      if queue != [] { assert queue[0] in queue; assert forall u :: u in queue[1..] ==> u in queue; }
    } else if ctl.Listing? && r.Listed? {
      StartSafe(opts, s', [], EMPTY.(listed := |r.uids|), false);
    }
  }

  lemma {:induction false} OthersStaySafe(s: State, s': State)
    requires Safe(s) && Later(s, s')
    ensures forall p :: p in s.procs ==> CtlSafe(s', s.procs[p])
  {
  }

  predicate IsProcess(a: Action) {
    a.Begin? || a.Serve? || a.Crash? || a.CrashInCall?
  }

  lemma OutsideLater(opts: Options, locked: bool, s: State, a: Action, s': State)
    requires Next(opts, locked, s, a, s') && !IsProcess(a)
    ensures Later(s, s')
  {
    forall u | u in s.box.msgs ensures u in s'.box.msgs && LaterMsg(s, s', u) { }
  }

  lemma OutsideMsgSafe(opts: Options, locked: bool, s: State, a: Action, s': State, u: Uid)
    requires Next(opts, locked, s, a, s') && !IsProcess(a) && u in s'.box.msgs
    requires u in s.box.msgs ==> MsgSafe(s, u)
    ensures MsgSafe(s', u)
  {
  }

  lemma {:induction false} OutsideSafe(opts: Options, locked: bool, s: State, a: Action, s': State)
    requires Safe(s) && Next(opts, locked, s, a, s') && !IsProcess(a)
    ensures Safe(s')
  {
    OutsideLater(opts, locked, s, a, s');
    OthersStaySafe(s, s');
    assert s'.procs == s.procs;
    forall u | u in s'.box.msgs ensures MsgSafe(s', u) { OutsideMsgSafe(opts, locked, s, a, s', u); }
  }

  lemma {:induction false} NextSafe(opts: Options, locked: bool, s: State, a: Action, s': State)
    requires Safe(s) && Next(opts, locked, s, a, s')
    ensures Safe(s')
  {
    if !IsProcess(a) {
      OutsideSafe(opts, locked, s, a, s');
    } else if a.Serve? || a.CrashInCall? {
      ServeSafe(opts, s, s.procs[a.pid], a.reply, s');
      OthersStaySafe(s, s');
    } else {
      assert Later(s, s') by { forall u | u in s.box.msgs ensures LaterMsg(s, s', u) { } }
      OthersStaySafe(s, s');
      forall u | u in s'.box.msgs ensures MsgSafe(s', u) { assert MsgSafe(s, u); }
    }
  }

  lemma {:induction false} AlwaysSafe(opts: Options, locked: bool, states: seq<State>, actions: seq<Action>, i: nat)
    requires Behavior(opts, locked, states, actions) && i < |states|
    ensures Safe(states[i])
  {
    if i > 0 {
      AlwaysSafe(opts, locked, states, actions, i - 1);
      assert NextAt(opts, locked, states, actions, i - 1);
      NextSafe(opts, locked, states[i - 1], actions[i - 1], states[i]);
    }
  }

  /** No mail is ever lost: in every state of every interleaving, a message the user
      did not take away is in INBOX without a \Deleted of the tool, in the folder for
      rejected mail, or in Gmail; and whatever the tool put into Trash or into the
      folder for unverified mail, or marked as inserted or unverified, is in Gmail. */
  lemma NoLoss(opts: Options, locked: bool, states: seq<State>, actions: seq<Action>)
    requires Behavior(opts, locked, states, actions)
    ensures forall i, u :: 0 <= i < |states| && u in states[i].box.msgs ==>
      && (u !in states[i].removed ==> Kept(states[i], u))
      && Truthful(states[i], u)
  {
    forall i, u | 0 <= i < |states| && u in states[i].box.msgs
      ensures (u !in states[i].removed ==> Kept(states[i], u)) && Truthful(states[i], u)
    {
      AlwaysSafe(opts, locked, states, actions, i);
      assert MsgSafe(states[i], u);
    }
  }
}
