/** How often Gmail can be given the same message. */
module Duplicates {
  import opened Mail
  import opened Run
  import opened System
  import Events

  function Count(b: Mailbox, u: Uid): nat {
    multiset(b.gmail)[u]
  }

  lemma CountAfter(b: Mailbox, c: Call, r: Reply, b': Mailbox, u: Uid)
    requires Lawful(b, c, r, b')
    ensures Count(b', u) == Count(b, u) + (if c.Insert? && c.uid == u then Accepts(b, b') else 0)
  {
  }

  /** Nothing will make the forwarder send this message again. */
  predicate Protected(m: Msg) {
    !m.inInbox || Inserted in m.marks || Unverified in m.marks
  }

  predicate Inserting(ctl: Control, u: Uid) {
    ctl.Working? && ctl.uid == u && ctl.pc.AtInsert?
  }

  predicate PendingFor(ctl: Control, u: Uid) {
    ctl.Working? && ctl.uid == u && Pending(ctl.pc)
  }

  /** One insert is free: the one that protects the message or is about to, as long as no
      process is about to send the message again.  `inserting` and `pending` say what there
      is among the other processes. */
  function Credit(inserting: bool, pending: bool, ctl: Control, b: Mailbox, u: Uid): nat {
    if inserting || Inserting(ctl, u) then 0
    else if pending || PendingFor(ctl, u) || (u in b.msgs && Protected(b.msgs[u])) then 1
    else 0
  }

  predicate Within(inserting: bool, pending: bool, ctl: Control, b: Mailbox, n: nat, u: Uid) {
    Count(b, u) <= n + Credit(inserting, pending, ctl, b, u)
  }

  /** Two processes have the message in hand at once, and one of them sends it in vain: it
      does so while another is about to, or it has found no mark while another has sent it
      and not marked it yet. */
  function Overlap(opts: Options, inserting: bool, pending: bool, ctl: Control, r: Reply, u: Uid): nat {
    if ctl.Working? && ctl.uid == u &&
         ((inserting && ctl.pc.AtInsert? && r.Accepted?) || (pending && Step(opts, u, ctl.pc, r) == Go(AtInsert)))
    then 1 else 0
  }

  // ---- One call of a process -----------------------------------------------------

  predicate Quiet(ctl: Control, u: Uid) {
    !ctl.Working? || ctl.uid != u || ctl.pc.AtFetch?
  }

  lemma {:induction false} ResumeTo(opts: Options, ctl: Control, r: Reply)
    requires ctl.Working?
    ensures GoesTo(opts, ctl, r, Resume(opts, ctl, r))
  {
  }

  /** `c'` is where the process goes with this message after the reply. */
  predicate GoesTo(opts: Options, ctl: Control, r: Reply, c': Control)
    requires ctl.Working?
  {
    var n := Step(opts, ctl.uid, ctl.pc, r);
    if n.Go? then c'.Working? && c'.uid == ctl.uid && c'.pc == n.pc else !c'.Working?
  }

  lemma FetchWithin(
    opts: Options, inserting: bool, pending: bool, ctl: Control, r: Reply, b: Mailbox, c': Control, n: nat)
    requires ctl.Working? && ctl.uid in b.msgs && Within(inserting, pending, ctl, b, n, ctl.uid)
    requires ctl.pc.AtFetch? && LawfulMsg(b.msgs[ctl.uid], NextCall(ctl), r, b.msgs[ctl.uid])
    requires GoesTo(opts, ctl, r, c')
    ensures Within(inserting, pending, c', b, n + Overlap(opts, inserting, pending, ctl, r, ctl.uid), ctl.uid)
  {
  }

  lemma InsertFaults(opts: Options, ctl: Control, r: Reply, b: Mailbox, b': Mailbox)
    requires ctl.Working? && ctl.pc.AtInsert? && Lawful(b, NextCall(ctl), r, b')
    ensures r.Accepted? ==> Accepts(b, b') > 0
    ensures Count(b', ctl.uid) == Count(b, ctl.uid) + Accepts(b, b')
    ensures CallFaults(opts, ctl, r, b, b')[ctl.uid] == Accepts(b, b') - if r.Accepted? then 1 else 0
  {
    CountAfter(b, NextCall(ctl), r, b', ctl.uid);
  }

  lemma InsertGoesTo(opts: Options, ctl: Control, r: Reply, c': Control)
    requires ctl.Working? && ctl.pc.AtInsert? && GoesTo(opts, ctl, r, c')
    ensures r.Accepted? ==> PendingFor(c', ctl.uid)
    ensures !Inserting(c', ctl.uid)
  {
  }

  lemma InsertWithin(
    opts: Options, inserting: bool, pending: bool, ctl: Control, r: Reply, b: Mailbox, b': Mailbox, c': Control, n: nat)
    requires ctl.Working? && ctl.pc.AtInsert? && Within(inserting, pending, ctl, b, n, ctl.uid)
    requires Lawful(b, NextCall(ctl), r, b') && GoesTo(opts, ctl, r, c')
    ensures var more := CallFaults(opts, ctl, r, b, b')[ctl.uid] + Overlap(opts, inserting, pending, ctl, r, ctl.uid);
      Within(inserting, pending, c', b', n + more, ctl.uid)
  {
    InsertFaults(opts, ctl, r, b, b');
    InsertGoesTo(opts, ctl, r, c');
  }

  /** What a reply about the keyword says of the message, and where it leads. */
  lemma MarkStep(opts: Options, u: Uid, pc: Pc, m: Msg, r: Reply, m': Msg)
    requires (pc.AtStore? || pc.AtRefetch?) && LoopPc(pc) && LawfulMsg(m, CallAt(u, pc), r, m')
    ensures Protected(m) ==> Protected(m')
    ensures var next := Step(opts, u, pc, r); next.Go? ==> !next.pc.AtInsert? && (Pending(next.pc) || Protected(m'))
    ensures Step(opts, u, pc, r).End? ==> Protected(m') && !Step(opts, u, pc, r).verdict.Aborted?
  {
  }

  predicate Moving(pc: Pc) {
    pc.AtLocate? || pc.AtMove? || pc.AtCopy? || pc.AtStoreDeleted? || pc.AtExpunge?
  }

  lemma MoveStep(opts: Options, u: Uid, pc: Pc, m: Msg, r: Reply, m': Msg)
    requires Moving(pc) && LawfulMsg(m, CallAt(u, pc), r, m')
    ensures Protected(m) ==> Protected(m')
    ensures var next := Step(opts, u, pc, r); next.Go? ==> Moving(next.pc) && next.pc.dest == pc.dest
    ensures var next := Step(opts, u, pc, r);
      next.End? ==> next.verdict.Aborted? || !m'.inInbox || (pc.AtExpunge? && m'.inInbox)
  {
  }

  /** Giving up a message that was sent and not marked is a fault if it is still in INBOX. */
  lemma LeavingCosts(opts: Options, ctl: Control, r: Reply, b: Mailbox, b': Mailbox)
    requires ctl.Working? && Pending(ctl.pc) && LeftBehind(opts, ctl, r, b')
    ensures CallFaults(opts, ctl, r, b, b')[ctl.uid] == 1
  {
  }

  lemma MoveGoesTo(opts: Options, ctl: Control, m: Msg, r: Reply, b': Mailbox, c': Control)
    requires ctl.Working? && Moving(ctl.pc) && GoesTo(opts, ctl, r, c') && ctl.uid in b'.msgs
    requires LawfulMsg(m, CallAt(ctl.uid, ctl.pc), r, b'.msgs[ctl.uid])
    ensures !Inserting(c', ctl.uid) && (Protected(m) ==> Protected(b'.msgs[ctl.uid]))
    ensures Pending(ctl.pc) ==>
      PendingFor(c', ctl.uid) || Protected(b'.msgs[ctl.uid]) || LeftBehind(opts, ctl, r, b')
  {
    MoveStep(opts, ctl.uid, ctl.pc, m, r, b'.msgs[ctl.uid]);
  }

  /** The process goes on with a message that it has sent, or gives it up. */
  lemma HeldWithin(
    inserting: bool, pending: bool, ctl: Control, b: Mailbox, b': Mailbox, c': Control, n: nat, more: nat)
    requires ctl.Working? && Within(inserting, pending, ctl, b, n, ctl.uid) && !ctl.pc.AtInsert?
    requires ctl.uid in b.msgs && ctl.uid in b'.msgs && b'.gmail == b.gmail
    requires Protected(b.msgs[ctl.uid]) ==> Protected(b'.msgs[ctl.uid])
    requires !Inserting(c', ctl.uid)
    requires Pending(ctl.pc) ==> PendingFor(c', ctl.uid) || Protected(b'.msgs[ctl.uid]) || more > 0
    ensures Within(inserting, pending, c', b', n + more, ctl.uid)
  {
  }

  lemma {:induction false} MarkWithin(
    opts: Options, inserting: bool, pending: bool, ctl: Control, r: Reply, b: Mailbox, b': Mailbox, c': Control, n: nat)
    requires ctl.Working? && ctl.uid in b.msgs && Within(inserting, pending, ctl, b, n, ctl.uid)
    requires (ctl.pc.AtStore? || ctl.pc.AtRefetch?) && LoopPc(ctl.pc)
    requires Lawful(b, NextCall(ctl), r, b') && GoesTo(opts, ctl, r, c')
    ensures Within(inserting, pending, c', b', n, ctl.uid)
  {
    MarkStep(opts, ctl.uid, ctl.pc, b.msgs[ctl.uid], r, b'.msgs[ctl.uid]);
    HeldWithin(inserting, pending, ctl, b, b', c', n, 0);
  }

  lemma {:induction false} MoveWithin(
    opts: Options, inserting: bool, pending: bool, ctl: Control, r: Reply, b: Mailbox, b': Mailbox, c': Control, n: nat)
    requires ctl.Working? && ctl.uid in b.msgs && Within(inserting, pending, ctl, b, n, ctl.uid)
    requires Moving(ctl.pc) && LoopPc(ctl.pc)
    requires Lawful(b, NextCall(ctl), r, b') && GoesTo(opts, ctl, r, c')
    ensures Within(inserting, pending, c', b', n + CallFaults(opts, ctl, r, b, b')[ctl.uid], ctl.uid)
  {
    MoveGoesTo(opts, ctl, b.msgs[ctl.uid], r, b', c');
    if Pending(ctl.pc) && LeftBehind(opts, ctl, r, b') { LeavingCosts(opts, ctl, r, b, b'); }
    HeldWithin(inserting, pending, ctl, b, b', c', n, CallFaults(opts, ctl, r, b, b')[ctl.uid]);
  }

  /** The message in hand, while the process stays with it or gives it up. */
  lemma {:induction false} HandledWithin(
    opts: Options, inserting: bool, pending: bool, ctl: Control, r: Reply, b: Mailbox, b': Mailbox, c': Control, n: nat)
    requires ctl.Working? && ctl.uid in b.msgs && Within(inserting, pending, ctl, b, n, ctl.uid)
    requires LoopPc(ctl.pc) && Lawful(b, NextCall(ctl), r, b') && GoesTo(opts, ctl, r, c')
    ensures var more := CallFaults(opts, ctl, r, b, b')[ctl.uid] + Overlap(opts, inserting, pending, ctl, r, ctl.uid);
      Within(inserting, pending, c', b', n + more, ctl.uid)
  {
    match ctl.pc
    case AtFetch =>
      assert b'.msgs == b.msgs && b'.gmail == b.gmail;
      FetchWithin(opts, inserting, pending, ctl, r, b, c', n);
    case AtInsert => InsertWithin(opts, inserting, pending, ctl, r, b, b', c', n);
    case AtStore(_) => MarkWithin(opts, inserting, pending, ctl, r, b, b', c', n);
    case AtRefetch(_) => MarkWithin(opts, inserting, pending, ctl, r, b, b', c', n);
    case _ => MoveWithin(opts, inserting, pending, ctl, r, b, b', c', n);
  }

  lemma CallKeepsProtection(b: Mailbox, c: Call, r: Reply, b': Mailbox, u: Uid)
    requires Lawful(b, c, r, b') && u in b.msgs
    ensures u in b'.msgs && (Protected(b.msgs[u]) ==> Protected(b'.msgs[u]))
  {
  }

  /** A message that the process is not sending, and has not sent. */
  lemma {:induction false} UntouchedWithin(
    inserting: bool, pending: bool, ctl: Control, c: Call, r: Reply, b: Mailbox, b': Mailbox, c': Control,
    n: nat, u: Uid)
    requires Within(inserting, pending, ctl, b, n, u) && Lawful(b, c, r, b')
    requires c.Insert? ==> c.uid != u
    requires Quiet(ctl, u) && Quiet(c', u)
    ensures Within(inserting, pending, c', b', n, u)
  {
    CountAfter(b, c, r, b', u);
    if u in b.msgs { CallKeepsProtection(b, c, r, b', u); }
  }

  lemma {:induction false} NewControl(opts: Options, ctl: Control, r: Reply, u: Uid)
    requires !ctl.Done? && (ctl.Working? ==> ctl.uid != u)
    ensures Quiet(Resume(opts, ctl, r), u)
  {
    if ctl.Working? { ResumeTo(opts, ctl, r); }
  }

  lemma {:induction false} ServeWithin(
    opts: Options, inserting: bool, pending: bool, s: State, ctl: Control, r: Reply, b': Mailbox, n: nat, u: Uid)
    requires !ctl.Done? && CtlSafe(s, ctl) && (ctl.Working? ==> LoopPc(ctl.pc))
    requires Within(inserting, pending, ctl, s.box, n, u) && Lawful(s.box, NextCall(ctl), r, b')
    ensures var more := CallFaults(opts, ctl, r, s.box, b')[u] + Overlap(opts, inserting, pending, ctl, r, u);
      Within(inserting, pending, Resume(opts, ctl, r), b', n + more, u)
  {
    if ctl.Working? && ctl.uid == u {
      ResumeTo(opts, ctl, r);
      HandledWithin(opts, inserting, pending, ctl, r, s.box, b', Resume(opts, ctl, r), n);
    } else {
      NewControl(opts, ctl, r, u);
      UntouchedWithin(inserting, pending, ctl, NextCall(ctl), r, s.box, b', Resume(opts, ctl, r), n, u);
    }
  }

  lemma {:induction false} LoopPcStays(opts: Options, ctl: Control, r: Reply)
    requires !ctl.Done? && (ctl.Working? ==> LoopPc(ctl.pc))
    ensures Resume(opts, ctl, r).Working? ==> LoopPc(Resume(opts, ctl, r).pc)
  {
  }

  /** Losing the process costs the message in hand its credit: one fault. */
  lemma {:induction false} CrashWithin(inserting: bool, pending: bool, ctl: Control, b: Mailbox, n: nat, u: Uid)
    requires Within(inserting, pending, ctl, b, n, u)
    ensures Within(inserting, pending, Connecting, b, n + PendingUid(ctl)[u], u)
  {
  }

  lemma InsertLost(b: Mailbox, u: Uid, r: Reply, b': Mailbox, ctl: Control, v: Uid)
    requires !ctl.Done? && NextCall(ctl) == Insert(u) && Lawful(b, Insert(u), r, b')
    ensures Count(b', v) == Count(b, v) + CrashFaults(ctl, b, b')[v] && b'.msgs == b.msgs
    ensures PendingUid(ctl)[v] == 0
  {
    CountAfter(b, Insert(u), r, b', v);
  }

  lemma {:induction false} CrashCallWithin(
    inserting: bool, pending: bool, s: State, ctl: Control, r: Reply, b': Mailbox, n: nat, u: Uid)
    requires !ctl.Done? && CtlSafe(s, ctl) && Within(inserting, pending, ctl, s.box, n, u)
    requires Lawful(s.box, NextCall(ctl), r, b')
    ensures Within(inserting, pending, Connecting, b', n + CrashFaults(ctl, s.box, b')[u], u)
  {
    CrashWithin(inserting, pending, ctl, s.box, n, u);
    if NextCall(ctl).Insert? {
      InsertLost(s.box, NextCall(ctl).uid, r, b', ctl, u);
    } else {
      var more := n + PendingUid(ctl)[u];
      UntouchedWithin(inserting, pending, Connecting, NextCall(ctl), r, s.box, b', Connecting, more, u);
    }
  }

  // ---- One step of the system ------------------------------------------------------

  ghost predicate OtherInserting(procs: map<Pid, Control>, p: Pid, u: Uid) {
    exists q :: q in procs && q != p && Inserting(procs[q], u)
  }

  ghost predicate OtherPending(procs: map<Pid, Control>, p: Pid, u: Uid) {
    exists q :: q in procs && q != p && PendingFor(procs[q], u)
  }

  /** The process, or one that does nothing if there is none. */
  function ProcessOf(procs: map<Pid, Control>, p: Pid): Control {
    if p in procs then procs[p] else Connecting
  }

  /** The bound on the message, seen from process `p` (and from any other, see `AnyView`). */
  ghost predicate WithinFor(s: State, p: Pid, n: nat, u: Uid) {
    Within(OtherInserting(s.procs, p, u), OtherPending(s.procs, p, u), ProcessOf(s.procs, p), s.box, n, u)
  }

  lemma AnyView(s: State, p: Pid, q: Pid, n: nat, u: Uid)
    requires WithinFor(s, p, n, u)
    ensures WithinFor(s, q, n, u)
  {
  }

  /** A step of process `p` is none of the others'. */
  lemma OthersStay(procs: map<Pid, Control>, procs': map<Pid, Control>, p: Pid, u: Uid)
    requires forall q :: q != p ==> (q in procs <==> q in procs') && (q in procs ==> procs[q] == procs'[q])
    ensures OtherInserting(procs, p, u) == OtherInserting(procs', p, u)
    ensures OtherPending(procs, p, u) == OtherPending(procs', p, u)
  {
  }

  ghost function OverlapAt(opts: Options, s: State, a: Action, u: Uid): nat {
    if a.Serve? && a.pid in s.procs then
      Overlap(opts, OtherInserting(s.procs, a.pid, u), OtherPending(s.procs, a.pid, u), s.procs[a.pid], a.reply, u)
    else 0
  }

  ghost predicate InLoop(s: State) {
    forall p :: p in s.procs && s.procs[p].Working? ==> LoopPc(s.procs[p].pc)
  }

  lemma {:induction false} InLoopStays(opts: Options, locked: bool, s: State, a: Action, s': State)
    requires Next(opts, locked, s, a, s') && InLoop(s)
    ensures InLoop(s')
  {
    if a.Serve? { LoopPcStays(opts, s.procs[a.pid], a.reply); }
  }

  /** What the user and the operator do. */
  lemma {:induction false} OutsideProtects(opts: Options, locked: bool, s: State, a: Action, s': State, u: Uid)
    requires Next(opts, locked, s, a, s') && !IsProcess(a)
    ensures s'.procs == s.procs && s'.box.gmail == s.box.gmail && s'.faults[u] >= s.faults[u]
    ensures u in s.box.msgs && Protected(s.box.msgs[u]) ==>
      u in s'.box.msgs && (Protected(s'.box.msgs[u]) || s'.faults[u] > s.faults[u])
  {
    if a.OperatorClear? { ClearProtects(opts, locked, s, a, s', u); }
  }

  lemma ClearProtects(opts: Options, locked: bool, s: State, a: Action, s': State, u: Uid)
    requires Next(opts, locked, s, a, s') && a.OperatorClear?
    ensures s'.faults[u] >= s.faults[u]
    ensures u in s.box.msgs && Protected(s.box.msgs[u]) ==>
      u in s'.box.msgs && (Protected(s'.box.msgs[u]) || s'.faults[u] > s.faults[u])
  {
  }

  lemma {:induction false} OutsideWithin(
    opts: Options, locked: bool, s: State, a: Action, s': State, p: Pid, n: nat, u: Uid)
    requires Next(opts, locked, s, a, s') && !IsProcess(a) && WithinFor(s, p, s.faults[u] + n, u)
    ensures WithinFor(s', p, s'.faults[u] + n, u)
  {
    OutsideProtects(opts, locked, s, a, s', u);
  }

  lemma {:induction false} ServedWithin(
    opts: Options, locked: bool, s: State, a: Action, s': State, n: nat, u: Uid)
    requires Next(opts, locked, s, a, s') && Safe(s) && InLoop(s) && a.Serve?
    requires WithinFor(s, a.pid, s.faults[u] + n, u)
    ensures WithinFor(s', a.pid, s'.faults[u] + n + OverlapAt(opts, s, a, u), u)
  {
    var p, ctl := a.pid, s.procs[a.pid];
    var i, j := OtherInserting(s.procs, p, u), OtherPending(s.procs, p, u);
    OthersStay(s.procs, s'.procs, p, u);
    ServeWithin(opts, i, j, s, ctl, a.reply, a.box, s.faults[u] + n, u);
    DoneIsNone(i, j, s.procs, p, Resume(opts, ctl, a.reply), a.box, s'.faults[u] + n + OverlapAt(opts, s, a, u), u);
  }

  lemma {:induction false} CrashedWithin(opts: Options, locked: bool, s: State, a: Action, s': State, n: nat, u: Uid)
    requires Next(opts, locked, s, a, s') && Safe(s) && (a.Crash? || a.CrashInCall?)
    requires WithinFor(s, a.pid, s.faults[u] + n, u)
    ensures WithinFor(s', a.pid, s'.faults[u] + n, u)
  {
    var p, ctl := a.pid, s.procs[a.pid];
    var i, j := OtherInserting(s.procs, p, u), OtherPending(s.procs, p, u);
    OthersStay(s.procs, s'.procs, p, u);
    if a.Crash? {
      CrashWithin(i, j, ctl, s.box, s.faults[u] + n, u);
    } else {
      CrashCallWithin(i, j, s, ctl, a.reply, a.box, s.faults[u] + n, u);
    }
  }

  lemma {:induction false} BegunWithin(opts: Options, locked: bool, s: State, a: Action, s': State, n: nat, u: Uid)
    requires Next(opts, locked, s, a, s') && a.Begin? && WithinFor(s, a.pid, s.faults[u] + n, u)
    ensures WithinFor(s', a.pid, s'.faults[u] + n, u)
  {
    OthersStay(s.procs, s'.procs, a.pid, u);
  }

  lemma {:induction false} ProcessWithin(opts: Options, locked: bool, s: State, a: Action, s': State, n: nat, u: Uid)
    requires Next(opts, locked, s, a, s') && Safe(s) && InLoop(s) && IsProcess(a)
    requires WithinFor(s, a.pid, s.faults[u] + n, u)
    ensures WithinFor(s', a.pid, s'.faults[u] + n + OverlapAt(opts, s, a, u), u)
  {
    if a.Serve? {
      ServedWithin(opts, locked, s, a, s', n, u);
    } else if a.Begin? {
      BegunWithin(opts, locked, s, a, s', n, u);
    } else {
      CrashedWithin(opts, locked, s, a, s', n, u);
    }
  }

  lemma DoneIsNone(
    inserting: bool, pending: bool, procs: map<Pid, Control>, p: Pid, ctl: Control, b: Mailbox, n: nat, u: Uid)
    requires Within(inserting, pending, ctl, b, n, u)
    ensures Within(inserting, pending, ProcessOf(Running(procs, p, ctl), p), b, n, u)
  {
  }

  lemma {:induction false} NextWithin(opts: Options, locked: bool, s: State, a: Action, s': State, n: nat, u: Uid)
    requires Next(opts, locked, s, a, s') && Safe(s) && InLoop(s) && WithinFor(s, 0, s.faults[u] + n, u)
    ensures WithinFor(s', 0, s'.faults[u] + n + OverlapAt(opts, s, a, u), u)
  {
    if IsProcess(a) {
      AnyView(s, 0, a.pid, s.faults[u] + n, u);
      ProcessWithin(opts, locked, s, a, s', n, u);
      AnyView(s', a.pid, 0, s'.faults[u] + n + OverlapAt(opts, s, a, u), u);
    } else {
      OutsideWithin(opts, locked, s, a, s', 0, n, u);
    }
  }

  /** How often, in the first `i` steps, two processes had message `u` in hand at once and
      one of them sent it, or set out to, in vain. */
  ghost function Overlaps(opts: Options, states: seq<State>, actions: seq<Action>, i: nat, u: Uid): nat
    requires i <= |actions| < |states|
  {
    if i == 0 then 0
    else Overlaps(opts, states, actions, i - 1, u) + OverlapAt(opts, states[i - 1], actions[i - 1], u)
  }

  ghost predicate WithinAt(opts: Options, states: seq<State>, actions: seq<Action>, i: nat, u: Uid)
    requires i <= |actions| < |states|
  {
    InLoop(states[i]) && WithinFor(states[i], 0, states[i].faults[u] + Overlaps(opts, states, actions, i, u), u)
  }

  lemma {:induction false} WithinOn(
    opts: Options, locked: bool, states: seq<State>, actions: seq<Action>, i: nat, u: Uid)
    requires Behavior(opts, locked, states, actions) && i < |actions| && WithinAt(opts, states, actions, i, u)
    ensures WithinAt(opts, states, actions, i + 1, u)
  {
    AlwaysSafe(opts, locked, states, actions, i);
    assert NextAt(opts, locked, states, actions, i);
    InLoopStays(opts, locked, states[i], actions[i], states[i + 1]);
    NextWithin(opts, locked, states[i], actions[i], states[i + 1], Overlaps(opts, states, actions, i, u), u);
  }

  lemma WithinFirst(opts: Options, states: seq<State>, actions: seq<Action>, u: Uid)
    requires |actions| < |states| && Init(states[0])
    ensures WithinAt(opts, states, actions, 0, u)
  {
  }

  lemma {:induction false} AlwaysWithin(
    opts: Options, locked: bool, states: seq<State>, actions: seq<Action>, i: nat, u: Uid)
    requires Behavior(opts, locked, states, actions) && i < |states|
    ensures WithinAt(opts, states, actions, i, u)
  {
    if i == 0 {
      WithinFirst(opts, states, actions, u);
    } else {
      AlwaysWithin(opts, locked, states, actions, i - 1, u);
      WithinOn(opts, locked, states, actions, i - 1, u);
    }
  }

  /** However many runs overlap: Gmail is given a message at most once, plus once for each
      fault, plus once for each time that two runs had it in hand at once.  A fault is a
      crash or an abort between an accepted insert and a confirmed marker, an EXPUNGE there
      that found no \Deleted, an accepted insert that was reported as an error, or an
      unverified keyword that an operator cleared. */
  lemma OverlapBound(opts: Options, locked: bool, states: seq<State>, actions: seq<Action>, i: nat, u: Uid)
    requires Behavior(opts, locked, states, actions) && i < |states|
    ensures Count(states[i].box, u) <= 1 + states[i].faults[u] + Overlaps(opts, states, actions, i, u)
  {
    AlwaysWithin(opts, locked, states, actions, i, u);
  }

  // ---- Runs that take turns ------------------------------------------------------------

  ghost predicate OneAtMost(s: State) {
    forall p, q :: p in s.procs && q in s.procs ==> p == q
  }

  lemma {:induction false} TurnsTaken(opts: Options, states: seq<State>, actions: seq<Action>, i: nat)
    requires Behavior(opts, true, states, actions) && i < |states|
    ensures OneAtMost(states[i])
  {
    if i > 0 {
      TurnsTaken(opts, states, actions, i - 1);
      assert NextAt(opts, true, states, actions, i - 1);
    }
  }

  lemma NoOverlapAt(opts: Options, s: State, a: Action, u: Uid)
    requires OneAtMost(s)
    ensures OverlapAt(opts, s, a, u) == 0
  {
    if a.Serve? && a.pid in s.procs {
      assert !OtherInserting(s.procs, a.pid, u) && !OtherPending(s.procs, a.pid, u);
    }
  }

  lemma {:induction false} NoOverlaps(opts: Options, states: seq<State>, actions: seq<Action>, i: nat, u: Uid)
    requires Behavior(opts, true, states, actions) && i < |states|
    ensures Overlaps(opts, states, actions, i, u) == 0
  {
    if i > 0 {
      NoOverlaps(opts, states, actions, i - 1, u);
      TurnsTaken(opts, states, actions, i - 1);
      NoOverlapAt(opts, states[i - 1], actions[i - 1], u);
    }
  }

  /** Duplicates are bounded by faults: with runs serialised by the lock, Gmail is given a
      message at most once, plus once for each fault. */
  lemma DuplicateBound(opts: Options, states: seq<State>, actions: seq<Action>)
    requires Behavior(opts, true, states, actions)
    ensures forall i, u :: 0 <= i < |states| ==> Count(states[i].box, u) <= 1 + states[i].faults[u]
  {
    forall i, u | 0 <= i < |states| ensures Count(states[i].box, u) <= 1 + states[i].faults[u] {
      OverlapBound(opts, true, states, actions, i, u);
      NoOverlaps(opts, states, actions, i, u);
    }
  }

  // ---- Exactly once ------------------------------------------------------------------

  /** Nothing goes wrong in this step: no process dies, the operator does not take back that
      Gmail has a message, Gmail files an insert once if it says so and not at all if not,
      nothing a run does about a message it has sent fails, and an EXPUNGE takes the message
      out of INBOX. */
  predicate Harmless(s: State, a: Action) {
    match a
    case Crash(_) => false
    case CrashInCall(_, _, _) => false
    case OperatorClear(_, k, _) => k == Failed
    case Serve(p, r, b) => p in s.procs && !s.procs[p].Done? && GoesWell(NextCall(s.procs[p]), r, s.box, b)
    case _ => true
  }

  predicate GoesWell(c: Call, r: Reply, b: Mailbox, b': Mailbox) {
    && (c.Insert? ==> |b'.gmail| == |b.gmail| + if r.Accepted? then 1 else 0)
    && ((c.Locate? || c.Move? || c.Copy? || c.StoreDeleted? || c.Expunge?) ==> !Events.Aborts(c, r))
    && (c.Expunge? && c.uid in b'.msgs ==> !b'.msgs[c.uid].inInbox)
  }

  lemma GoodCallCostsNothing(opts: Options, ctl: Control, r: Reply, b: Mailbox, b': Mailbox)
    requires !ctl.Done? && GoesWell(NextCall(ctl), r, b, b')
    ensures CallFaults(opts, ctl, r, b, b') == multiset{}
  {
    if ctl.Working? && Pending(ctl.pc) { Events.VerdictCounts(opts, ctl.uid, ctl.pc, r); }
  }

  lemma HarmlessCostsNothing(opts: Options, s: State, a: Action, s': State)
    requires Next(opts, true, s, a, s') && Harmless(s, a)
    ensures s'.faults == s.faults
  {
    if a.Serve? { GoodCallCostsNothing(opts, s.procs[a.pid], a.reply, s.box, a.box); }
  }

  lemma {:induction false} NoFaults(opts: Options, states: seq<State>, actions: seq<Action>, i: nat)
    requires Behavior(opts, true, states, actions) && i < |states|
    requires forall k :: 0 <= k < |actions| ==> Harmless(states[k], actions[k])
    ensures states[i].faults == multiset{}
  {
    if i > 0 {
      NoFaults(opts, states, actions, i - 1);
      assert NextAt(opts, true, states, actions, i - 1);
      HarmlessCostsNothing(opts, states[i - 1], actions[i - 1], states[i]);
    }
  }

  /** As long as nothing goes wrong, and with runs taking turns, Gmail gets no message twice. */
  lemma AtMostOnce(opts: Options, states: seq<State>, actions: seq<Action>)
    requires Behavior(opts, true, states, actions)
    requires forall k :: 0 <= k < |actions| ==> Harmless(states[k], actions[k])
    ensures forall i, u :: 0 <= i < |states| ==> Count(states[i].box, u) <= 1
  {
    DuplicateBound(opts, states, actions);
    forall i, u | 0 <= i < |states| ensures Count(states[i].box, u) <= 1 { NoFaults(opts, states, actions, i); }
  }

  // ---- A marked message is never sent again ------------------------------------------

  /** No process is about to send the message, and none can get there: it has left
      INBOX or says on itself that it is not to be sent. */
  ghost predicate Frozen(s: State, u: Uid) {
    && u in s.box.msgs
    && (!s.box.msgs[u].inInbox || s.box.msgs[u].marks != {})
    && forall p :: p in s.procs ==> !Inserting(s.procs[p], u)
  }

  /** The operator leaves the message alone, or it is one the operator cannot release. */
  predicate NotReleased(s: State, a: Action, u: Uid) {
    a.OperatorClear? && a.uid == u ==> u in s.box.msgs && (!s.box.msgs[u].inInbox || Inserted in s.box.msgs[u].marks)
  }

  /** Belt and braces: what a fetch shows to be marked is not inserted. */
  lemma OnlyUnmarkedInserted(opts: Options, u: Uid, pc: Pc, r: Reply)
    ensures Step(opts, u, pc, r) == Go(AtInsert) <==> pc.AtFetch? && r == Fetched({})
  {
    if r.Fetched? && r.marks != {} {
      var k :| k in r.marks;
      assert k == Inserted || k == Failed || k == Unverified;
    }
  }

  lemma {:induction false} NotInserting(opts: Options, s: State, ctl: Control, r: Reply, b: Mailbox, u: Uid)
    requires !ctl.Done? && u in s.box.msgs && (!s.box.msgs[u].inInbox || s.box.msgs[u].marks != {})
    requires !Inserting(ctl, u) && Lawful(s.box, NextCall(ctl), r, b)
    ensures !Inserting(Resume(opts, ctl, r), u)
  {
    if ctl.Working? {
      ResumeTo(opts, ctl, r);
      OnlyUnmarkedInserted(opts, ctl.uid, ctl.pc, r);
    }
  }

  lemma MarksStay(s: State, c: Call, r: Reply, b: Mailbox, u: Uid)
    requires Lawful(s.box, c, r, b) && u in s.box.msgs
    ensures u in b.msgs && s.box.msgs[u].marks <= b.msgs[u].marks
    ensures !s.box.msgs[u].inInbox ==> !b.msgs[u].inInbox
  {
  }

  lemma {:induction false} CallFreezes(opts: Options, s: State, ctl: Control, r: Reply, b: Mailbox, u: Uid)
    requires !ctl.Done? && Frozen(s, u) && !Inserting(ctl, u) && Lawful(s.box, NextCall(ctl), r, b)
    requires ctl.Settling? ==> SettlePc(ctl.pc)
    ensures u in b.msgs && (!b.msgs[u].inInbox || b.msgs[u].marks != {})
    ensures !Inserting(Resume(opts, ctl, r), u) && Count(b, u) == Count(s.box, u)
  {
    CountAfter(s.box, NextCall(ctl), r, b, u);
    NotInserting(opts, s, ctl, r, b, u);
    MarksStay(s, NextCall(ctl), r, b, u);
  }

  lemma {:induction false} OutsideFrozen(opts: Options, locked: bool, s: State, a: Action, s': State, u: Uid)
    requires Next(opts, locked, s, a, s') && Frozen(s, u) && NotReleased(s, a, u) && !IsProcess(a)
    ensures Frozen(s', u) && Count(s'.box, u) == Count(s.box, u)
  {
    if a.OperatorClear? && a.uid == u && s.box.msgs[u].inInbox {
      assert Inserted in s'.box.msgs[u].marks;
    }
  }

  lemma {:induction false} StaysFrozen(opts: Options, locked: bool, s: State, a: Action, s': State, u: Uid)
    requires Next(opts, locked, s, a, s') && Frozen(s, u) && NotReleased(s, a, u)
    requires forall p :: p in s.procs && s.procs[p].Settling? ==> SettlePc(s.procs[p].pc)
    ensures Frozen(s', u) && Count(s'.box, u) == Count(s.box, u)
  {
    if !IsProcess(a) {
      OutsideFrozen(opts, locked, s, a, s', u);
    } else if a.Serve? || a.CrashInCall? {
      CallFreezes(opts, s, s.procs[a.pid], a.reply, a.box, u);
    }
  }

  /** One step of a behavior. */
  lemma {:induction false} FrozenStep(
    opts: Options, locked: bool, states: seq<State>, actions: seq<Action>, j: nat, u: Uid)
    requires Behavior(opts, locked, states, actions) && j < |actions|
    requires Frozen(states[j], u) && NotReleased(states[j], actions[j], u)
    ensures Frozen(states[j + 1], u) && Count(states[j + 1].box, u) == Count(states[j].box, u)
  {
    AlwaysSafe(opts, locked, states, actions, j);
    SettlingOnly(states[j]);
    assert NextAt(opts, locked, states, actions, j);
    StaysFrozen(opts, locked, states[j], actions[j], states[j + 1], u);
  }

  lemma {:induction false} SettlingOnly(s: State)
    requires Safe(s)
    ensures forall p :: p in s.procs && s.procs[p].Settling? ==> SettlePc(s.procs[p].pc)
  {
    forall p | p in s.procs && s.procs[p].Settling? ensures SettlePc(s.procs[p].pc) {
      assert CtlSafe(s, s.procs[p]);
    }
  }

  /** Whatever the number of processes and however the listing behaves: once a
      message carries one of the keywords, or has left INBOX, and no process is in
      the middle of sending it, Gmail never gets it again unless the operator clears
      the last reason not to send it. */
  lemma {:induction false} NeverSentAgain(
    opts: Options, locked: bool, states: seq<State>, actions: seq<Action>, i: nat, j: nat, u: Uid)
    requires Behavior(opts, locked, states, actions) && i <= j < |states|
    requires Frozen(states[i], u)
    requires forall k :: i <= k < j ==> NotReleased(states[k], actions[k], u)
    ensures Frozen(states[j], u) && Count(states[j].box, u) == Count(states[i].box, u)
  {
    if i < j {
      NeverSentAgain(opts, locked, states, actions, i, j - 1, u);
      FrozenStep(opts, locked, states, actions, j - 1, u);
    }
  }
}
