/** Runs against a server with MOVE on which nothing fails, while Gmail accepts each
    message or finds it too large: what one uninterrupted run leaves, and that
    crashes and time limits on the way there do not show in the end. */
module Recovery {
  import opened Mail
  import opened Order
  import opened Run
  import opened Sorting
  import Accounts

  /** `accepts` is Gmail's fixed answer per message (else 413); `over` is the answer
      of the clock at the n-th call. */
  datatype World = World(accepts: Uid -> bool, over: nat -> bool)

  predicate Listable(m: Msg) {
    m.inInbox && !m.userDeleted && !m.toolDeleted && Failed !in m.marks && Unverified !in m.marks
  }

  predicate Listed(b: Mailbox, u: Uid) {
    u in b.msgs && Listable(b.msgs[u])
  }

  ghost function ListedUids(b: Mailbox): (s: set<Uid>)
    ensures forall u :: u in s <==> Listed(b, u)
  {
    set u | u in b.msgs && Listed(b, u)
  }

  function OnMessage(b: Mailbox, u: Uid, m: Msg): Mailbox {
    if u in b.msgs then b.(msgs := b.msgs[u := m]) else b
  }

  function Present(b: Mailbox, u: Uid): bool {
    u in b.msgs && b.msgs[u].inInbox
  }

  ghost function IdealCall(w: World, n: nat, b: Mailbox, c: Call): (Reply, Mailbox) {
    match c
    case Connect => (Connected(true), b)
    case EnsureLabel => (Ok, b)
    case List => (Reply.Listed(Ascending(ListedUids(b))), b)
    case ReadClock => (Clock(w.over(n)), b)
    case Fetch(u) => (if Present(b, u) then Fetched(b.msgs[u].marks) else Gone, b)
    case Insert(u) =>
      if w.accepts(u) then (Accepted, b.(gmail := b.gmail + [u])) else (HttpError(413, REFUSAL), b)
    case Store(u, k) =>
      if u in b.msgs then (Flags(Present(b, u)), OnMessage(b, u, Marked(b.msgs[u], k))) else (Flags(false), b)
    case Refetch(u, k) => (Flags(Present(b, u) && k in b.msgs[u].marks), b)
    case Locate(_, _) => (Found(MoveCommand), b)
    case Move(u, d) => (Ok, if u in b.msgs then OnMessage(b, u, Moved(b.msgs[u], d)) else b)
    case Copy(u, d) => (Ok, if u in b.msgs then OnMessage(b, u, Copied(b.msgs[u], d)) else b)
    case StoreDeleted(u, _) => (Ok, if u in b.msgs then OnMessage(b, u, FlaggedDeleted(b.msgs[u])) else b)
    case Expunge(u, _) => (Ok, if u in b.msgs then OnMessage(b, u, Expunged(b.msgs[u])) else b)
  }

  ghost function Ideal(w: World): Serve {
    (n: nat, b: Mailbox, c: Call) => IdealCall(w, n, b, c)
  }

  /** The ideal server is one of the servers the protocol is proved against. */
  lemma IdealIsLawful(w: World, n: nat, b: Mailbox, c: Call)
    ensures var (r, b') := IdealCall(w, n, b, c); Lawful(b, c, r, b')
  {
    if c.List? { AscendingMembers(ListedUids(b)); }
    if c.Insert? && w.accepts(c.uid) { assert Repeat(c.uid, 1) == [c.uid] + Repeat(c.uid, 0); }
  }

  // ---- What a complete run leaves ---------------------------------------------------

  /** The reference: what becomes of one message, without running anything. */
  function Outcome(w: World, opts: Options, u: Uid, m: Msg): Msg {
    if !Listable(m) then m
    else if Inserted in m.marks || w.accepts(u) then Moved(Marked(m, Inserted), Trash)
    else if opts.keywordMode then Marked(m, Failed)
    else Moved(m, FailedFolder)
  }

  /** Listed, not yet inserted, and acceptable. */
  ghost function Insertable(w: World, b: Mailbox): (s: set<Uid>)
    ensures forall u :: u in s <==> Listed(b, u) && Inserted !in b.msgs[u].marks && w.accepts(u)
  {
    set u | u in b.msgs && Listed(b, u) && Inserted !in b.msgs[u].marks && w.accepts(u)
  }

  ghost function Drained(w: World, opts: Options, b: Mailbox): Mailbox {
    Mailbox(map u | u in b.msgs :: Outcome(w, opts, u, b.msgs[u]),
            b.gmail + Ascending(Insertable(w, b)))
  }

  lemma SameDrain(w: World, opts: Options, b: Mailbox, b': Mailbox)
    requires b'.msgs.Keys == b.msgs.Keys
    requires forall u :: u in b.msgs ==> Outcome(w, opts, u, b'.msgs[u]) == Outcome(w, opts, u, b.msgs[u])
    requires b'.gmail + Ascending(Insertable(w, b')) == b.gmail + Ascending(Insertable(w, b))
    ensures Drained(w, opts, b') == Drained(w, opts, b)
  {
  }

  /** One message changed, in a way that does not change its outcome. */
  lemma DrainStep(w: World, opts: Options, b: Mailbox, u: Uid, m: Msg)
    requires u in b.msgs && Outcome(w, opts, u, m) == Outcome(w, opts, u, b.msgs[u])
    requires !(Listable(m) && Inserted !in m.marks && w.accepts(u))
    requires !(Listed(b, u) && Inserted !in b.msgs[u].marks && w.accepts(u))
    ensures Drained(w, opts, OnMessage(b, u, m)) == Drained(w, opts, b)
  {
    var b' := OnMessage(b, u, m);
    assert Insertable(w, b') == Insertable(w, b);
    SameDrain(w, opts, b, b');
  }

  lemma MarkedOutcome(w: World, opts: Options, u: Uid, m: Msg)
    requires Listable(m) && w.accepts(u)
    ensures Outcome(w, opts, u, Marked(m, Inserted)) == Outcome(w, opts, u, m)
  {
  }

  /** The next message in line goes to Gmail and is marked. */
  lemma DrainInsert(w: World, opts: Options, b: Mailbox, u: Uid)
    requires IsLeast(u, Insertable(w, b))
    ensures var b' := OnMessage(b, u, Marked(b.msgs[u], Inserted)).(gmail := b.gmail + [u]);
      Drained(w, opts, b') == Drained(w, opts, b)
  {
    var b' := OnMessage(b, u, Marked(b.msgs[u], Inserted)).(gmail := b.gmail + [u]);
    MarkedOutcome(w, opts, u, b.msgs[u]);
    var rest := Insertable(w, b) - {u};
    assert Insertable(w, b') == rest;
    AscendingLeast(Insertable(w, b), u);
    assert b.gmail + [u] + Ascending(rest) == b.gmail + ([u] + Ascending(rest));
    SameDrain(w, opts, b, b');
  }

  // ---- What holds on the way ---------------------------------------------------------

  function Uids(rs: seq<Rejection>): set<Uid> {
    set j | j in rs :: j.uid
  }

  /** Rejected by size, still in the queue. */
  predicate TooLarge(w: World, b: Mailbox, rs: seq<Rejection>) {
    forall j :: j in rs ==>
      j.perMessage && Listed(b, j.uid) && Inserted !in b.msgs[j.uid].marks && !w.accepts(j.uid)
  }

  /** Exactly `todo` and `left` are still listed. */
  ghost predicate Covers(b: Mailbox, todo: set<Uid>, left: seq<Uid>) {
    && (forall u :: Listed(b, u) <==> u in todo || u in left)
    && (forall u :: u in todo ==> u !in left)
  }

  predicate SuffixOf(left: seq<Uid>, all: seq<Uid>) {
    |left| <= |all| && left == all[|all| - |left|..]
  }

  /** The message in hand, where a run against the ideal server can be with it. */
  predicate InHand(w: World, b: Mailbox, u: Uid, pc: Pc)
    requires Listed(b, u)
  {
    match pc
    case AtFetch => true
    case AtInsert => Inserted !in b.msgs[u].marks
    case AtStore(k) => k == Inserted && Inserted !in b.msgs[u].marks && w.accepts(u)
    case AtLocate(d) => d == Trash && Inserted in b.msgs[u].marks
    case AtMove(d) => d == Trash && Inserted in b.msgs[u].marks
    case _ => false
  }

  predicate InSettlement(opts: Options, pc: Pc) {
    match pc
    case AtStore(k) => k == Failed && opts.keywordMode
    case AtLocate(d) => d == FailedFolder && !opts.keywordMode
    case AtMove(d) => d == FailedFolder && !opts.keywordMode
    case _ => false
  }

  /** `all` is the listing of the run, `left` what the run has not taken up. */
  ghost predicate OnCourse(w: World, opts: Options, b: Mailbox, ctl: Control, all: seq<Uid>, left: seq<Uid>) {
    SuffixOf(left, all) && Ascends(all) &&
    match ctl
    case Budget(queue, rejected, res) =>
      && left == queue && Covers(b, Uids(rejected), queue)
      && Distinct(rejected) && TooLarge(w, b, rejected) && res.remaining == 0
    case Working(u, pc, queue, rejected, res) =>
      && left == queue && Covers(b, Uids(rejected) + {u}, queue)
      && Distinct(rejected) && TooLarge(w, b, rejected) && res.remaining == 0
      && u !in Uids(rejected) && Ascends([u] + queue)
      && InHand(w, b, u, pc)
    case Settling(current, pc, todo, _, res) =>
      && Covers(b, Uids([current] + todo), left)
      && Distinct([current] + todo) && TooLarge(w, b, [current] + todo) && res.remaining == |left|
      && InSettlement(opts, pc)
    case Done(_, res) => Covers(b, {}, left) && res.remaining == |left|
    case _ => left == all && all == Ascending(ListedUids(b))
  }

  /** The mailbox with the marker that the message in hand is about to get. */
  function Virtual(b: Mailbox, ctl: Control): Mailbox {
    if InWindow(ctl) && ctl.uid in b.msgs then OnMessage(b, ctl.uid, Marked(b.msgs[ctl.uid], Inserted)) else b
  }

  /** Gmail has the message in hand and its keyword is not yet set. */
  predicate InWindow(ctl: Control) {
    ctl.Working? && ctl.pc == AtStore(Inserted)
  }

  lemma {:induction false} StartOnCourse(
    w: World, opts: Options, b: Mailbox, rejected: seq<Rejection>, res: Result, all: seq<Uid>, left: seq<Uid>)
    requires SuffixOf(left, all) && Ascends(all)
    requires Covers(b, Uids(rejected), left) && Distinct(rejected) && TooLarge(w, b, rejected)
    requires res.remaining == |left|
    ensures var c := StartSettling(opts, rejected, res, false);
      OnCourse(w, opts, b, c, all, left) && (c.Settling? || c.Done?)
  {
    Accounts.SuspiciousOfPure(rejected);
    if rejected != [] { assert [rejected[0]] + rejected[1..] == rejected; }
  }

  lemma {:induction false} NextOnCourse(
    w: World, opts: Options, b: Mailbox, queue: seq<Uid>, rejected: seq<Rejection>, res: Result, all: seq<Uid>)
    requires SuffixOf(queue, all) && Ascends(all)
    requires Covers(b, Uids(rejected), queue) && Distinct(rejected) && TooLarge(w, b, rejected)
    requires res.remaining == 0
    ensures OnCourse(w, opts, b, NextMessage(opts, queue, rejected, res), all, queue)
  {
    if queue == [] { StartOnCourse(w, opts, b, rejected, res, all, queue); }
  }

  /** What the run has not taken up, after one more call. */
  function LeftAfter(ctl: Control, ctl': Control, left: seq<Uid>): seq<Uid> {
    if ctl.Budget? && ctl'.Working? then ctl'.queue else left
  }

  // ---- One call ------------------------------------------------------------------------

  /** The run goes from one box and control state to the next, staying on course and
      with the same mailbox in the end. */
  ghost predicate Advances(
    w: World, opts: Options, b: Mailbox, ctl: Control, b': Mailbox, ctl': Control, all: seq<Uid>, left: seq<Uid>)
  {
    && OnCourse(w, opts, b', ctl', all, LeftAfter(ctl, ctl', left))
    && Drained(w, opts, Virtual(b', ctl')) == Drained(w, opts, Virtual(b, ctl))
  }

  ghost predicate CallAdvances(w: World, opts: Options, n: nat, b: Mailbox, ctl: Control, all: seq<Uid>, left: seq<Uid>)
    requires !ctl.Done?
  {
    var (r, b') := IdealCall(w, n, b, NextCall(ctl));
    Advances(w, opts, b, ctl, b', Resume(opts, ctl, r), all, left)
  }

  lemma Served(
    w: World, opts: Options, n: nat, b: Mailbox, ctl: Control, r: Reply, b': Mailbox, all: seq<Uid>, left: seq<Uid>)
    requires !ctl.Done? && IdealCall(w, n, b, NextCall(ctl)) == (r, b')
    requires Advances(w, opts, b, ctl, b', Resume(opts, ctl, r), all, left)
    ensures CallAdvances(w, opts, n, b, ctl, all, left)
  {
  }

  lemma HandListed(w: World, opts: Options, b: Mailbox, ctl: Control, all: seq<Uid>, left: seq<Uid>)
    requires ctl.Working? && OnCourse(w, opts, b, ctl, all, left)
    ensures Listed(b, ctl.uid)
  {
  }

  lemma LocateServed(w: World, n: nat, b: Mailbox, ctl: Control)
    requires (ctl.Working? || ctl.Settling?) && ctl.pc.AtLocate?
    ensures IdealCall(w, n, b, NextCall(ctl)) == (Found(MoveCommand), b)
  {
  }

  lemma MoveServed(w: World, n: nat, b: Mailbox, ctl: Control)
    requires ctl.Working? && ctl.pc.AtMove? && ctl.uid in b.msgs
    ensures IdealCall(w, n, b, NextCall(ctl)) == (Ok, OnMessage(b, ctl.uid, Moved(b.msgs[ctl.uid], ctl.pc.dest)))
  {
  }

  /** The mailbox is as before, and the process goes on with the message in hand. */
  lemma {:induction false} GoesOn(
    w: World, opts: Options, b: Mailbox, ctl: Control, r: Reply, pc: Pc, all: seq<Uid>, left: seq<Uid>)
    requires OnCourse(w, opts, b, ctl, all, left)
    requires ctl.Working? && !InWindow(ctl) && pc != AtStore(Inserted) && InHand(w, b, ctl.uid, pc)
    requires Step(opts, ctl.uid, ctl.pc, r) == Go(pc) && !r.Accepted?
    ensures Advances(w, opts, b, ctl, b, Resume(opts, ctl, r), all, left)
  {
  }

  lemma {:induction false} FetchAdvances(
    w: World, opts: Options, n: nat, b: Mailbox, ctl: Control, all: seq<Uid>, left: seq<Uid>)
    requires OnCourse(w, opts, b, ctl, all, left) && ctl.Working? && ctl.pc.AtFetch?
    ensures CallAdvances(w, opts, n, b, ctl, all, left)
  {
    HandListed(w, opts, b, ctl, all, left);
    FetchServed(w, n, b, ctl);
    var marks := b.msgs[ctl.uid].marks;
    GoesOn(w, opts, b, ctl, Fetched(marks), if Inserted in marks then AtLocate(Trash) else AtInsert, all, left);
    Served(w, opts, n, b, ctl, Fetched(marks), b, all, left);
  }

  lemma FetchServed(w: World, n: nat, b: Mailbox, ctl: Control)
    requires ctl.Working? && ctl.pc.AtFetch? && Listed(b, ctl.uid)
    ensures IdealCall(w, n, b, NextCall(ctl)) == (Fetched(b.msgs[ctl.uid].marks), b)
  {
  }

  /** The message in hand is the least that can still be inserted. */
  lemma NextInLine(w: World, b: Mailbox, u: Uid, queue: seq<Uid>, rejected: seq<Rejection>)
    requires Covers(b, Uids(rejected) + {u}, queue) && TooLarge(w, b, rejected) && Ascends([u] + queue)
    requires Inserted !in b.msgs[u].marks && w.accepts(u)
    ensures IsLeast(u, Insertable(w, b))
  {
    assert u in Uids(rejected) + {u};
    forall v | v in Insertable(w, b) ensures u <= v {
      assert Listed(b, v);
      assert forall j :: j in rejected ==> j.uid != v;
      if v != u {
        assert ([u] + queue)[0] == u;
        var i :| 0 <= i < |queue| && queue[i] == v;
        assert ([u] + queue)[i + 1] == v;
      }
    }
  }

  lemma RejectOne(w: World, b: Mailbox, u: Uid, rejected: seq<Rejection>, j: Rejection)
    requires Distinct(rejected) && TooLarge(w, b, rejected) && u !in Uids(rejected)
    requires j.uid == u && j.perMessage && Listed(b, u) && Inserted !in b.msgs[u].marks && !w.accepts(u)
    ensures Uids(rejected + [j]) == Uids(rejected) + {u}
    ensures Distinct(rejected + [j]) && TooLarge(w, b, rejected + [j])
  {
  }

  lemma {:induction false} AcceptedAdvances(
    w: World, opts: Options, b: Mailbox, ctl: Control, all: seq<Uid>, left: seq<Uid>)
    requires OnCourse(w, opts, b, ctl, all, left) && ctl.Working? && ctl.pc.AtInsert? && w.accepts(ctl.uid)
    ensures Advances(w, opts, b, ctl, b.(gmail := b.gmail + [ctl.uid]), Resume(opts, ctl, Accepted), all, left)
  {
    NextInLine(w, b, ctl.uid, ctl.queue, ctl.rejected);
    DrainInsert(w, opts, b, ctl.uid);
  }

  lemma {:induction false} TooLargeAdvances(
    w: World, opts: Options, b: Mailbox, ctl: Control, all: seq<Uid>, left: seq<Uid>, text: Words)
    requires OnCourse(w, opts, b, ctl, all, left) && ctl.Working? && ctl.pc.AtInsert? && !w.accepts(ctl.uid)
    ensures Advances(w, opts, b, ctl, b, Resume(opts, ctl, HttpError(413, text)), all, left)
  {
    var Working(u, _, queue, rejected, res) := ctl;
    assert u in Uids(rejected) + {u};
    var j := Rejection(u, HttpError(413, text).Text(), true);
    RejectOne(w, b, u, rejected, j);
    NextOnCourse(w, opts, b, queue, rejected + [j], res, all);
    TooLargeRejects(opts, ctl, text);
  }

  lemma {:induction false} TooLargeRejects(opts: Options, ctl: Control, text: Words)
    requires ctl.Working? && ctl.pc.AtInsert?
    ensures Resume(opts, ctl, HttpError(413, text))
      == NextMessage(opts, ctl.queue, ctl.rejected + [Rejection(ctl.uid, HttpError(413, text).Text(), true)], ctl.res)
  {
  }

  lemma {:induction false} InsertAdvances(
    w: World, opts: Options, n: nat, b: Mailbox, ctl: Control, all: seq<Uid>, left: seq<Uid>)
    requires OnCourse(w, opts, b, ctl, all, left) && ctl.Working? && ctl.pc.AtInsert?
    ensures CallAdvances(w, opts, n, b, ctl, all, left)
  {
    if w.accepts(ctl.uid) {
      AcceptedAdvances(w, opts, b, ctl, all, left);
      Served(w, opts, n, b, ctl, Accepted, b.(gmail := b.gmail + [ctl.uid]), all, left);
    } else {
      TooLargeAdvances(w, opts, b, ctl, all, left, REFUSAL);
      Served(w, opts, n, b, ctl, HttpError(413, REFUSAL), b, all, left);
    }
  }

  lemma {:induction false} StoreAdvances(
    w: World, opts: Options, n: nat, b: Mailbox, ctl: Control, all: seq<Uid>, left: seq<Uid>)
    requires OnCourse(w, opts, b, ctl, all, left) && InWindow(ctl)
    ensures CallAdvances(w, opts, n, b, ctl, all, left)
  {
    var Working(u, _, queue, rejected, res) := ctl;
    assert u in Uids(rejected) + {u};
    var b' := OnMessage(b, u, Marked(b.msgs[u], Inserted));
    assert forall v :: Listed(b', v) <==> Listed(b, v);
    assert TooLarge(w, b', rejected) by {
      forall j | j in rejected ensures j.uid != u { assert j.uid in Uids(rejected); }
    }
  }

  /** A message that is no longer listed is off the list, and the rest stays on it. */
  lemma Retired(w: World, b: Mailbox, u: Uid, m: Msg, todo: set<Uid>, left: seq<Uid>, rs: seq<Rejection>)
    requires Covers(b, todo + {u}, left) && u !in todo && !Listable(m) && u in b.msgs
    requires TooLarge(w, b, rs) && Uids(rs) <= todo
    ensures Covers(OnMessage(b, u, m), todo, left) && TooLarge(w, OnMessage(b, u, m), rs)
  {
  }

  lemma {:induction false} TrashAdvances(
    w: World, opts: Options, b: Mailbox, ctl: Control, all: seq<Uid>, left: seq<Uid>)
    requires OnCourse(w, opts, b, ctl, all, left) && ctl.Working? && ctl.pc == AtMove(Trash)
    requires ctl.uid in b.msgs
    ensures Advances(w, opts, b, ctl, OnMessage(b, ctl.uid, Moved(b.msgs[ctl.uid], Trash)), Resume(opts, ctl, Ok),
      all, left)
  {
    var Working(u, _, queue, rejected, res) := ctl;
    assert u in Uids(rejected) + {u};
    assert Listed(b, u);
    var m := Moved(b.msgs[u], Trash);
    assert b.msgs[u].marks + {Inserted} == b.msgs[u].marks;
    DrainStep(w, opts, b, u, m);
    Retired(w, b, u, m, Uids(rejected), queue, rejected);
    NextOnCourse(w, opts, OnMessage(b, u, m), queue, rejected, Tally(res, Trashed), all);
    assert Resume(opts, ctl, Ok) == NextMessage(opts, queue, rejected, Tally(res, Trashed));
  }

  lemma UidsHead(current: Rejection, todo: seq<Rejection>)
    ensures Uids([current] + todo) == Uids(todo) + {current.uid}
  {
  }

  lemma HeadAndTail(current: Rejection, todo: seq<Rejection>)
    requires Distinct([current] + todo)
    ensures Distinct(todo) && current.uid !in Uids(todo)
    ensures Uids([current] + todo) == Uids(todo) + {current.uid}
    ensures todo != [] ==> [todo[0]] + todo[1..] == todo
  {
    TailApart(current, todo, 0);
    UidsHead(current, todo);
  }

  /** The rejected message in hand is parked. */
  lemma {:induction false} SettleAdvances(
    w: World, opts: Options, b: Mailbox, ctl: Control, all: seq<Uid>, left: seq<Uid>, m: Msg, c': Control)
    requires OnCourse(w, opts, b, ctl, all, left) && ctl.Settling?
    requires ctl.current.uid in b.msgs
    requires m == (if opts.keywordMode then Marked(b.msgs[ctl.current.uid], Failed)
      else Moved(b.msgs[ctl.current.uid], FailedFolder))
    requires c' == Settled(opts, ctl, End(Quarantined))
    ensures Advances(w, opts, b, ctl, OnMessage(b, ctl.current.uid, m), c', all, left)
  {
    var Settling(current, pc, todo, ledger, res) := ctl;
    var u, open := current.uid, [current] + todo;
    assert current in open && Listed(b, u);
    HeadAndTail(current, todo);
    DrainStep(w, opts, b, u, m);
    assert TooLarge(w, b, todo) by { assert forall j :: j in todo ==> j in open; }
    Retired(w, b, u, m, Uids(todo), left, todo);
  }

  lemma {:induction false} TrashCall(
    w: World, opts: Options, n: nat, b: Mailbox, ctl: Control, all: seq<Uid>, left: seq<Uid>)
    requires OnCourse(w, opts, b, ctl, all, left) && ctl.Working? && ctl.pc == AtMove(Trash)
    ensures CallAdvances(w, opts, n, b, ctl, all, left)
  {
    HandListed(w, opts, b, ctl, all, left);
    MoveServed(w, n, b, ctl);
    TrashAdvances(w, opts, b, ctl, all, left);
    Served(w, opts, n, b, ctl, Ok, OnMessage(b, ctl.uid, Moved(b.msgs[ctl.uid], Trash)), all, left);
  }

  lemma {:induction false} LocateCall(
    w: World, opts: Options, n: nat, b: Mailbox, ctl: Control, all: seq<Uid>, left: seq<Uid>)
    requires OnCourse(w, opts, b, ctl, all, left) && ctl.Working? && ctl.pc == AtLocate(Trash)
    ensures CallAdvances(w, opts, n, b, ctl, all, left)
  {
    HandListed(w, opts, b, ctl, all, left);
    LocateServed(w, n, b, ctl);
    GoesOn(w, opts, b, ctl, Found(MoveCommand), AtMove(Trash), all, left);
    Served(w, opts, n, b, ctl, Found(MoveCommand), b, all, left);
  }

  lemma LocateGoesTo(w: World, opts: Options, n: nat, b: Mailbox, ctl: Control)
    requires ctl.Settling? && ctl.pc == AtLocate(FailedFolder)
    ensures IdealCall(w, n, b, NextCall(ctl)) == (Found(MoveCommand), b)
    ensures Resume(opts, ctl, Found(MoveCommand))
      == Settling(ctl.current, AtMove(FailedFolder), ctl.todo, ctl.ledger, ctl.res)
  {
  }

  lemma MovingAdvances(
    w: World, opts: Options, b: Mailbox, ctl: Control, ctl': Control, all: seq<Uid>, left: seq<Uid>)
    requires OnCourse(w, opts, b, ctl, all, left) && ctl.Settling? && ctl.pc.AtLocate?
    requires ctl' == Settling(ctl.current, AtMove(FailedFolder), ctl.todo, ctl.ledger, ctl.res)
    ensures Advances(w, opts, b, ctl, b, ctl', all, left)
  {
  }

  lemma {:induction false} ParkLocateCall(
    w: World, opts: Options, n: nat, b: Mailbox, ctl: Control, all: seq<Uid>, left: seq<Uid>)
    requires OnCourse(w, opts, b, ctl, all, left) && ctl.Settling? && ctl.pc.AtLocate?
    ensures CallAdvances(w, opts, n, b, ctl, all, left)
  {
    var ctl' := Settling(ctl.current, AtMove(FailedFolder), ctl.todo, ctl.ledger, ctl.res);
    LocateGoesTo(w, opts, n, b, ctl);
    MovingAdvances(w, opts, b, ctl, ctl', all, left);
    Served(w, opts, n, b, ctl, Found(MoveCommand), b, all, left);
  }

  lemma {:induction false} ParkServed(w: World, opts: Options, n: nat, b: Mailbox, ctl: Control, m: Msg)
    requires ctl.Settling? && InSettlement(opts, ctl.pc) && !ctl.pc.AtLocate? && Listed(b, ctl.current.uid)
    requires m == (if opts.keywordMode then Marked(b.msgs[ctl.current.uid], Failed)
      else Moved(b.msgs[ctl.current.uid], FailedFolder))
    ensures var (r, b') := IdealCall(w, n, b, NextCall(ctl));
      b' == OnMessage(b, ctl.current.uid, m) && Resume(opts, ctl, r) == Settled(opts, ctl, End(Quarantined))
  {
  }

  lemma {:induction false} ParkCall(
    w: World, opts: Options, n: nat, b: Mailbox, ctl: Control, all: seq<Uid>, left: seq<Uid>)
    requires OnCourse(w, opts, b, ctl, all, left) && ctl.Settling? && !ctl.pc.AtLocate?
    ensures CallAdvances(w, opts, n, b, ctl, all, left)
  {
    var u := ctl.current.uid;
    assert ctl.current in [ctl.current] + ctl.todo && Listed(b, u);
    var m := if opts.keywordMode then Marked(b.msgs[u], Failed) else Moved(b.msgs[u], FailedFolder);
    ParkServed(w, opts, n, b, ctl, m);
    SettleAdvances(w, opts, b, ctl, all, left, m, Settled(opts, ctl, End(Quarantined)));
  }

  lemma {:induction false} WorkAdvances(
    w: World, opts: Options, n: nat, b: Mailbox, ctl: Control, all: seq<Uid>, left: seq<Uid>)
    requires OnCourse(w, opts, b, ctl, all, left) && ctl.Working?
    ensures CallAdvances(w, opts, n, b, ctl, all, left)
  {
    assert ctl.uid in Uids(ctl.rejected) + {ctl.uid} && Listed(b, ctl.uid);
    if ctl.pc.AtFetch? {
      FetchAdvances(w, opts, n, b, ctl, all, left);
    } else if ctl.pc.AtInsert? {
      InsertAdvances(w, opts, n, b, ctl, all, left);
    } else if ctl.pc.AtStore? {
      StoreAdvances(w, opts, n, b, ctl, all, left);
    } else if ctl.pc.AtMove? {
      TrashCall(w, opts, n, b, ctl, all, left);
    } else {
      LocateCall(w, opts, n, b, ctl, all, left);
    }
  }

  /** One call of a run against the ideal server. */
  lemma {:induction false} EveryCallAdvances(
    w: World, opts: Options, n: nat, b: Mailbox, ctl: Control, all: seq<Uid>, left: seq<Uid>)
    requires OnCourse(w, opts, b, ctl, all, left) && !ctl.Done?
    ensures CallAdvances(w, opts, n, b, ctl, all, left)
  {
    if ctl.Working? {
      WorkAdvances(w, opts, n, b, ctl, all, left);
    } else if ctl.Settling? {
      if ctl.pc.AtLocate? {
        ParkLocateCall(w, opts, n, b, ctl, all, left);
      } else {
        ParkCall(w, opts, n, b, ctl, all, left);
      }
    } else if ctl.Budget? {
      BudgetAdvances(w, opts, b, ctl, all, left, w.over(n));
    } else {
      SetupAdvances(w, opts, n, b, ctl, all, left);
    }
  }

  lemma {:induction false} ListAdvances(w: World, opts: Options, b: Mailbox, all: seq<Uid>)
    requires all == Ascending(ListedUids(b)) && Ascends(all)
    ensures Advances(w, opts, b, Listing, b, Resume(opts, Listing, Reply.Listed(all)), all, all)
  {
    AscendingMembers(ListedUids(b));
    NextOnCourse(w, opts, b, all, [], EMPTY.(listed := |all|), all);
  }

  predicate Preparing(ctl: Control) {
    ctl == Connecting || ctl == Labelling || ctl == Listing
  }

  lemma PreparingAdvances(w: World, opts: Options, b: Mailbox, ctl: Control, ctl': Control, all: seq<Uid>)
    requires OnCourse(w, opts, b, ctl, all, all) && Preparing(ctl) && Preparing(ctl')
    ensures Advances(w, opts, b, ctl, b, ctl', all, all)
  {
    assert Virtual(b, ctl) == b && Virtual(b, ctl') == b && LeftAfter(ctl, ctl', all) == all;
  }

  lemma PreparingServed(w: World, opts: Options, n: nat, b: Mailbox, ctl: Control) returns (r: Reply, ctl': Control)
    requires ctl.Connecting? || ctl.Labelling?
    ensures IdealCall(w, n, b, NextCall(ctl)) == (r, b) && Resume(opts, ctl, r) == ctl' && Preparing(ctl')
  {
    r := if ctl.Connecting? then Connected(true) else Ok;
    ctl' := if ctl.Connecting? && opts.labelled then Labelling else Listing;
  }

  lemma ListingServed(w: World, n: nat, b: Mailbox, all: seq<Uid>)
    requires all == Ascending(ListedUids(b))
    ensures IdealCall(w, n, b, NextCall(Listing)) == (Reply.Listed(all), b)
  {
  }

  lemma {:induction false} PrepareCall(
    w: World, opts: Options, n: nat, b: Mailbox, ctl: Control, all: seq<Uid>, left: seq<Uid>)
    requires OnCourse(w, opts, b, ctl, all, all) && left == all && (ctl.Connecting? || ctl.Labelling?)
    ensures CallAdvances(w, opts, n, b, ctl, all, left)
  {
    var r, ctl' := PreparingServed(w, opts, n, b, ctl);
    PreparingAdvances(w, opts, b, ctl, ctl', all);
    Served(w, opts, n, b, ctl, r, b, all, left);
  }

  lemma {:induction false} ListCall(
    w: World, opts: Options, n: nat, b: Mailbox, all: seq<Uid>, left: seq<Uid>)
    requires all == Ascending(ListedUids(b)) && Ascends(all) && left == all
    ensures CallAdvances(w, opts, n, b, Listing, all, left)
  {
    ListingServed(w, n, b, all);
    ListAdvances(w, opts, b, all);
    Served(w, opts, n, b, Listing, Reply.Listed(all), b, all, left);
  }

  lemma PreparingCourse(w: World, opts: Options, b: Mailbox, ctl: Control, all: seq<Uid>, left: seq<Uid>)
    requires OnCourse(w, opts, b, ctl, all, left) && Preparing(ctl)
    ensures left == all && all == Ascending(ListedUids(b)) && Ascends(all)
  {
  }

  lemma {:induction false} SetupAdvances(
    w: World, opts: Options, n: nat, b: Mailbox, ctl: Control, all: seq<Uid>, left: seq<Uid>)
    requires OnCourse(w, opts, b, ctl, all, left) && Preparing(ctl)
    ensures CallAdvances(w, opts, n, b, ctl, all, left)
  {
    PreparingCourse(w, opts, b, ctl, all, left);
    if ctl == Listing {
      ListCall(w, opts, n, b, all, left);
    } else {
      PrepareCall(w, opts, n, b, ctl, all, left);
    }
  }

  lemma {:induction false} BudgetAdvances(
    w: World, opts: Options, b: Mailbox, ctl: Control, all: seq<Uid>, left: seq<Uid>, over: bool)
    requires OnCourse(w, opts, b, ctl, all, left) && ctl.Budget?
    ensures Advances(w, opts, b, ctl, b, Resume(opts, ctl, Clock(over)), all, left)
  {
    var Budget(queue, rejected, res) := ctl;
    if over || queue == [] {
      StartOnCourse(w, opts, b, rejected, res.(remaining := |queue|), all, left);
    } else {
      TakeUp(w, opts, b, ctl, all, left);
    }
  }

  lemma CoversHead(b: Mailbox, todo: set<Uid>, u: Uid, rest: seq<Uid>)
    requires Covers(b, todo, [u] + rest) && u !in rest
    ensures Covers(b, todo + {u}, rest) && Listed(b, u) && u !in todo
  {
  }

  lemma TailAscends(all: seq<Uid>, u: Uid, rest: seq<Uid>)
    requires SuffixOf([u] + rest, all) && Ascends(all)
    ensures SuffixOf(rest, all) && Ascends([u] + rest) && u !in rest
  {
    var queue := [u] + rest;
    assert rest == queue[1..] == all[|all| - |rest|..];
    assert Ascends(queue);
    forall i | 0 <= i < |rest| ensures u < rest[i] { assert queue[0] < queue[i + 1]; }
  }

  lemma {:induction false} TakeUp(w: World, opts: Options, b: Mailbox, ctl: Control, all: seq<Uid>, left: seq<Uid>)
    requires OnCourse(w, opts, b, ctl, all, left) && ctl.Budget? && ctl.queue != []
    ensures OnCourse(w, opts, b, Working(ctl.queue[0], AtFetch, ctl.queue[1..], ctl.rejected, ctl.res), all,
      ctl.queue[1..])
  {
    var u, rest := ctl.queue[0], ctl.queue[1..];
    assert [u] + rest == ctl.queue;
    TailAscends(all, u, rest);
    CoversHead(b, Uids(ctl.rejected), u, rest);
  }

  // ---- Whole runs ---------------------------------------------------------------------

  lemma {:induction false} WorkLeft(opts: Options, ctl: Control, r: Reply, left: seq<Uid>)
    requires ctl.Working? && ctl.res.remaining == 0 && left == ctl.queue
    requires var c' := Resume(opts, ctl, r); !Early(c') ==> c'.res.remaining == |left|
    ensures Early(Resume(opts, ctl, r)) || left == []
  {
  }

  lemma {:induction false} SetupLeft(w: World, opts: Options, n: nat, b: Mailbox, ctl: Control)
    requires ctl.Connecting? || ctl.Labelling? || ctl.Listing?
    requires ctl.Listing? ==> ListedUids(b) != {}
    ensures Early(Resume(opts, ctl, IdealCall(w, n, b, NextCall(ctl)).0))
  {
  }

  /** What has not been taken up, by where the run is. */
  lemma LeftOf(w: World, opts: Options, b: Mailbox, ctl: Control, all: seq<Uid>, left: seq<Uid>)
    requires OnCourse(w, opts, b, ctl, all, left)
    ensures ctl.Budget? || ctl.Working? ==> left == ctl.queue && ctl.res.remaining == 0
    ensures ctl.Settling? || ctl.Done? ==> ctl.res.remaining == |left|
    ensures ctl.Listing? ==> left == Ascending(ListedUids(b))
  {
  }

  lemma BudgetLeft(opts: Options, ctl: Control)
    requires ctl.Budget?
    ensures Early(Resume(opts, ctl, Clock(false))) || ctl.queue == []
  {
  }

  /** Without a time limit, a run settles only once it has taken up every message. */
  lemma {:induction false} NothingLeft(
    w: World, opts: Options, n: nat, b: Mailbox, ctl: Control, all: seq<Uid>, left: seq<Uid>)
    requires OnCourse(w, opts, b, ctl, all, left) && !ctl.Done? && !w.over(n)
    requires CallAdvances(w, opts, n, b, ctl, all, left)
    requires Early(ctl) || left == []
    ensures var c' := Resume(opts, ctl, IdealCall(w, n, b, NextCall(ctl)).0);
      Early(c') || LeftAfter(ctl, c', left) == []
  {
    LeftOf(w, opts, b, ctl, all, left);
    if ctl.Working? {
      var (r, b') := IdealCall(w, n, b, NextCall(ctl));
      LeftOf(w, opts, b', Resume(opts, ctl, r), all, left);
      WorkLeft(opts, ctl, r, left);
    } else if ctl.Budget? {
      BudgetLeft(opts, ctl);
    } else if Early(ctl) && (ctl.Listing? ==> ListedUids(b) != {}) {
      SetupLeft(w, opts, n, b, ctl);
    }
  }

  /** A run to its end, and what it has not taken up. */
  lemma {:induction false} FinalOnCourse(
    w: World, opts: Options, n: nat, b: Mailbox, ctl: Control, all: seq<Uid>, left: seq<Uid>)
    returns (left': seq<Uid>)
    requires OnCourse(w, opts, b, ctl, all, left)
    ensures var (b', c') := Final(Ideal(w), opts, n, b, ctl);
      && OnCourse(w, opts, b', c', all, left')
      && Drained(w, opts, b') == Drained(w, opts, Virtual(b, ctl))
    ensures (forall k :: !w.over(k)) && (Early(ctl) || left == []) ==> left' == []
    decreases Phase(ctl), Weight(ctl)
  {
    if ctl.Done? {
      left' := left;
    } else {
      var (r, b') := IdealCall(w, n, b, NextCall(ctl));
      assert Ideal(w)(n, b, NextCall(ctl)) == (r, b');
      var c' := Resume(opts, ctl, r);
      ResumeDecreases(opts, ctl, r);
      EveryCallAdvances(w, opts, n, b, ctl, all, left);
      if !w.over(n) && (Early(ctl) || left == []) { NothingLeft(w, opts, n, b, ctl, all, left); }
      left' := FinalOnCourse(w, opts, n + 1, b', c', all, LeftAfter(ctl, c', left));
    }
  }

  lemma {:induction false} AfterOnCourse(
    w: World, opts: Options, n: nat, b: Mailbox, ctl: Control, all: seq<Uid>, left: seq<Uid>, k: nat)
    returns (left': seq<Uid>)
    requires OnCourse(w, opts, b, ctl, all, left)
    ensures var (b', c') := After(Ideal(w), opts, n, b, ctl, k);
      && OnCourse(w, opts, b', c', all, left')
      && Drained(w, opts, Virtual(b', c')) == Drained(w, opts, Virtual(b, ctl))
    decreases k
  {
    if k == 0 || ctl.Done? {
      left' := left;
    } else {
      var (r, b') := IdealCall(w, n, b, NextCall(ctl));
      assert Ideal(w)(n, b, NextCall(ctl)) == (r, b');
      EveryCallAdvances(w, opts, n, b, ctl, all, left);
      var c' := Resume(opts, ctl, r);
      left' := AfterOnCourse(w, opts, n + 1, b', c', all, LeftAfter(ctl, c', left), k - 1);
    }
  }

  lemma NothingToDrain(w: World, opts: Options, b: Mailbox)
    requires forall u :: !Listed(b, u)
    ensures Drained(w, opts, b) == b
  {
    assert Insertable(w, b) == {};
    forall u | u in b.msgs ensures Outcome(w, opts, u, b.msgs[u]) == b.msgs[u] { assert !Listed(b, u); }
    assert Drained(w, opts, b).msgs == b.msgs;
  }

  lemma StartsOnCourse(w: World, opts: Options, b: Mailbox)
    ensures var all := Ascending(ListedUids(b)); OnCourse(w, opts, b, Connecting, all, all)
  {
    AscendingAscends(ListedUids(b));
  }

  lemma {:induction false} EndOfRun(
    w: World, opts: Options, b: Mailbox, b': Mailbox, c: Control, all: seq<Uid>, left: seq<Uid>)
    requires c.Done? && OnCourse(w, opts, b', c, all, left) && Drained(w, opts, b') == Drained(w, opts, b)
    ensures c.res.remaining == |left| <= |all|
    ensures Ascending(ListedUids(b')) == all[|all| - |left|..]
    ensures left == [] ==> b' == Drained(w, opts, b)
  {
    TailListed(b', all, left);
    if left == [] { NothingToDrain(w, opts, b'); }
  }

  /** A time-limited run leaves the tail of its listing listed, as many messages as it
      reports remaining, and nothing it did changes what a complete run would leave;
      when it reports none remaining, it was a complete run. */
  lemma TimeLimitedRun(w: World, opts: Options, b: Mailbox)
    ensures var all := Ascending(ListedUids(b));
      var (b', c) := Final(Ideal(w), opts, 0, b, Connecting);
      && c.res.remaining <= |all|
      && Ascending(ListedUids(b')) == all[|all| - c.res.remaining..]
      && Drained(w, opts, b') == Drained(w, opts, b)
      && (c.res.remaining == 0 ==> b' == Drained(w, opts, b))
      && ((forall k :: !w.over(k)) ==> c.res.remaining == 0)
  {
    var all := Ascending(ListedUids(b));
    StartsOnCourse(w, opts, b);
    var left := FinalOnCourse(w, opts, 0, b, Connecting, all, all);
    var f := Final(Ideal(w), opts, 0, b, Connecting);
    EndOfRun(w, opts, b, f.0, f.1, all, left);
  }

  lemma TailListed(b: Mailbox, all: seq<Uid>, left: seq<Uid>)
    requires SuffixOf(left, all) && Ascends(all) && Covers(b, {}, left)
    ensures Ascending(ListedUids(b)) == left
    ensures left == [] ==> forall u :: !Listed(b, u)
  {
    assert Ascends(left) by {
      forall i, j | 0 <= i < j < |left| ensures left[i] < left[j] {
        assert left[i] == all[|all| - |left| + i] && left[j] == all[|all| - |left| + j];
      }
    }
    AscendingIs(ListedUids(b), left);
  }

  /** An attempt at a run: `over` is its clock; it crashes after `calls` calls, unless
      it is through before that. */
  datatype Attempt = Attempt(over: nat -> bool, calls: nat)

  ghost function Tried(accepts: Uid -> bool, opts: Options, b: Mailbox, a: Attempt): (Mailbox, Control) {
    After(Ideal(World(accepts, a.over)), opts, 0, b, Connecting, a.calls)
  }

  ghost function TriedAll(accepts: Uid -> bool, opts: Options, b: Mailbox, attempts: seq<Attempt>): Mailbox
    decreases |attempts|
  {
    if attempts == [] then b
    else TriedAll(accepts, opts, Tried(accepts, opts, b, attempts[0]).0, attempts[1..])
  }

  /** How many of the attempts crashed between an accepted insert and its keyword. */
  ghost function WindowCrashes(accepts: Uid -> bool, opts: Options, b: Mailbox, attempts: seq<Attempt>): nat
    decreases |attempts|
  {
    if attempts == [] then 0
    else
      var (b', c) := Tried(accepts, opts, b, attempts[0]);
      (if InWindow(c) then 1 else 0) + WindowCrashes(accepts, opts, b', attempts[1..])
  }

  lemma {:induction false} SameAccepts(w: World, w': World, opts: Options, b: Mailbox)
    requires w.accepts == w'.accepts
    ensures Drained(w, opts, b) == Drained(w', opts, b)
  {
  }

  /** A crash in the window costs one duplicate, and nothing else. */
  lemma {:induction false} WindowCost(w: World, opts: Options, b: Mailbox, ctl: Control, all: seq<Uid>, left: seq<Uid>)
    requires OnCourse(w, opts, b, ctl, all, left)
    ensures var d, v := Drained(w, opts, b), Drained(w, opts, Virtual(b, ctl));
      d.msgs == v.msgs && |d.gmail| == |v.gmail| + (if InWindow(ctl) then 1 else 0)
  {
    if InWindow(ctl) {
      var u := ctl.uid;
      assert u in Uids(ctl.rejected) + {u} && Listed(b, u);
      MarkCost(w, opts, b, u);
    }
  }

  lemma MarkCost(w: World, opts: Options, b: Mailbox, u: Uid)
    requires u in Insertable(w, b)
    ensures var b' := OnMessage(b, u, Marked(b.msgs[u], Inserted));
      var d, v := Drained(w, opts, b), Drained(w, opts, b');
      d.msgs == v.msgs && |d.gmail| == |v.gmail| + 1
  {
    var b' := OnMessage(b, u, Marked(b.msgs[u], Inserted));
    MarkedOutcome(w, opts, u, b.msgs[u]);
    assert Insertable(w, b') == Insertable(w, b) - {u};
    assert Drained(w, opts, b).msgs == Drained(w, opts, b').msgs;
  }

  lemma {:induction false} TriedCost(accepts: Uid -> bool, opts: Options, w: World, b: Mailbox, a: Attempt)
    requires w.accepts == accepts
    ensures var (b', c) := Tried(accepts, opts, b, a);
      var d', d := Drained(w, opts, b'), Drained(w, opts, b);
      d'.msgs == d.msgs && |d'.gmail| == |d.gmail| + (if InWindow(c) then 1 else 0)
      && (!InWindow(c) ==> d' == d)
  {
    var w' := World(accepts, a.over);
    var (b', c) := Tried(accepts, opts, b, a);
    StartsOnCourse(w', opts, b);
    var all := Ascending(ListedUids(b));
    var left := AfterOnCourse(w', opts, 0, b, Connecting, all, all, a.calls);
    WindowCost(w', opts, b', c, all, left);
    SameAccepts(w, w', opts, b);
    SameAccepts(w, w', opts, b');
  }

  lemma {:induction false} TriedAllCost(
    accepts: Uid -> bool, opts: Options, w: World, b: Mailbox, attempts: seq<Attempt>)
    requires w.accepts == accepts
    ensures var d', d := Drained(w, opts, TriedAll(accepts, opts, b, attempts)), Drained(w, opts, b);
      var dups := WindowCrashes(accepts, opts, b, attempts);
      d'.msgs == d.msgs && |d'.gmail| == |d.gmail| + dups && (dups == 0 ==> d' == d)
    decreases |attempts|
  {
    if attempts != [] {
      TriedCost(accepts, opts, w, b, attempts[0]);
      TriedAllCost(accepts, opts, w, Tried(accepts, opts, b, attempts[0]).0, attempts[1..]);
    }
  }

  /** Crash recovery equals no crash.  After any number of attempts that crashed at any
      call or ran out of time, one complete run leaves exactly the flags and folders of
      one uninterrupted run, and the same Gmail log if and only if no attempt crashed
      between an accepted insert and its keyword; each one that did left one duplicate. */
  lemma CrashRecovery(accepts: Uid -> bool, opts: Options, w: World, b: Mailbox, attempts: seq<Attempt>)
    requires w.accepts == accepts && forall k :: !w.over(k)
    ensures var straight := Final(Ideal(w), opts, 0, b, Connecting).0;
      var recovered := Final(Ideal(w), opts, 0, TriedAll(accepts, opts, b, attempts), Connecting).0;
      var dups := WindowCrashes(accepts, opts, b, attempts);
      && recovered.msgs == straight.msgs
      && |recovered.gmail| == |straight.gmail| + dups
      && (recovered == straight <==> dups == 0)
  {
    TriedAllCost(accepts, opts, w, b, attempts);
    TimeLimitedRun(w, opts, b);
    TimeLimitedRun(w, opts, TriedAll(accepts, opts, b, attempts));
  }

  // ---- No errors ---------------------------------------------------------------------------

  /** Nothing has gone wrong, and nothing will be taken for the account's fault. */
  predicate Unharmed(ctl: Control) {
    match ctl
    case Budget(_, rejected, res) => res.error.None? && Accounts.AllPerMessage(rejected)
    case Working(_, _, _, rejected, res) => res.error.None? && Accounts.AllPerMessage(rejected)
    case Settling(_, _, _, _, res) => res.error.None?
    case Done(_, res) => res.error.None?
    case _ => true
  }

  lemma StartUnharmed(opts: Options, rejected: seq<Rejection>, res: Result)
    requires res.error.None? && Accounts.AllPerMessage(rejected)
    ensures Unharmed(NextMessage(opts, [], rejected, res))
    ensures forall queue :: Unharmed(NextMessage(opts, queue, rejected, res))
    ensures Unharmed(StartSettling(opts, rejected, res, false))
  {
    Accounts.SuspiciousOfPure(rejected);
  }

  /** What the ideal server can make of a message. */
  lemma IdealStep(w: World, opts: Options, n: nat, b: Mailbox, u: Uid, pc: Pc)
    ensures var next := Step(opts, u, pc, IdealCall(w, n, b, CallAt(u, pc)).0);
      next.End? ==> !next.verdict.Aborted? && (next.verdict.Rejected? ==> next.verdict.perMessage)
  {
  }

  lemma WorkUnharmed(opts: Options, ctl: Control, accepted: bool, next: Advance)
    requires ctl.Working? && Unharmed(ctl)
    requires next.End? ==> !next.verdict.Aborted? && (next.verdict.Rejected? ==> next.verdict.perMessage)
    ensures Unharmed(Onward(opts, ctl, accepted, next))
  {
    var res := if accepted then ctl.res.(forwarded := ctl.res.forwarded + 1) else ctl.res;
    OnwardIs(opts, ctl, accepted, next, res);
    if next.End? {
      StartUnharmed(opts, ctl.rejected, Tally(res, next.verdict));
      if next.verdict.Rejected? {
        var more := ctl.rejected + [Rejection(ctl.uid, next.verdict.error, next.verdict.perMessage)];
        assert Accounts.AllPerMessage(more);
        StartUnharmed(opts, more, Tally(res, next.verdict));
      }
    }
  }

  lemma SettleUnharmed(opts: Options, ctl: Control, next: Advance)
    requires ctl.Settling? && Unharmed(ctl) && (next.End? ==> !next.verdict.Aborted?)
    ensures Unharmed(Settled(opts, ctl, next))
  {
  }

  lemma EarlyUnharmed(w: World, opts: Options, n: nat, b: Mailbox, ctl: Control)
    requires Early(ctl) && !ctl.Working? && Unharmed(ctl)
    ensures Unharmed(Resume(opts, ctl, IdealCall(w, n, b, NextCall(ctl)).0))
  {
    if ctl.Budget? {
      StartUnharmed(opts, ctl.rejected, ctl.res.(remaining := |ctl.queue|));
    } else if ctl.Listing? {
      var uids := Ascending(ListedUids(b));
      StartUnharmed(opts, [], EMPTY.(listed := |uids|));
      Accounts.SetupLeads(opts, Reply.Listed(uids));
    }
  }

  lemma ResumeUnharmed(w: World, opts: Options, n: nat, b: Mailbox, ctl: Control)
    requires !ctl.Done? && Unharmed(ctl)
    ensures Unharmed(Resume(opts, ctl, IdealCall(w, n, b, NextCall(ctl)).0))
  {
    var r := IdealCall(w, n, b, NextCall(ctl)).0;
    if ctl.Working? {
      IdealStep(w, opts, n, b, ctl.uid, ctl.pc);
      WorkUnharmed(opts, ctl, ctl.pc.AtInsert? && r.Accepted?, Step(opts, ctl.uid, ctl.pc, r));
    } else if ctl.Settling? {
      IdealStep(w, opts, n, b, ctl.current.uid, ctl.pc);
      SettleUnharmed(opts, ctl, Step(opts, ctl.current.uid, ctl.pc, r));
    } else {
      EarlyUnharmed(w, opts, n, b, ctl);
    }
  }

  /** A run against a server that works reports no error, whatever Gmail turns away for its
      size. */
  lemma {:induction false} IdealRunsAreOk(w: World, opts: Options, n: nat, b: Mailbox, ctl: Control)
    requires Unharmed(ctl)
    ensures Final(Ideal(w), opts, n, b, ctl).1.res.IsOk()
    decreases Phase(ctl), Weight(ctl)
  {
    if !ctl.Done? {
      var (r, b') := IdealCall(w, n, b, NextCall(ctl));
      assert Ideal(w)(n, b, NextCall(ctl)) == (r, b');
      ResumeDecreases(opts, ctl, r);
      ResumeUnharmed(w, opts, n, b, ctl);
      IdealRunsAreOk(w, opts, n + 1, b', Resume(opts, ctl, r));
    }
  }

  // ---- Time budgets ----------------------------------------------------------------------

  /** A chain of runs, each with its own clock. */
  ghost function Runs(accepts: Uid -> bool, opts: Options, b: Mailbox, overs: seq<nat -> bool>): Mailbox
    decreases |overs|
  {
    if overs == [] then b
    else Runs(accepts, opts, Final(Ideal(World(accepts, overs[0])), opts, 0, b, Connecting).0, overs[1..])
  }

  /** Every run of the chain that finds something in its listing handles at least one message. */
  ghost predicate EachWorks(accepts: Uid -> bool, opts: Options, b: Mailbox, overs: seq<nat -> bool>)
    decreases |overs|
  {
    overs == [] ||
    var (b', c) := Final(Ideal(World(accepts, overs[0])), opts, 0, b, Connecting);
    (ListedUids(b) != {} ==> c.res.remaining < |ListedUids(b)|) && EachWorks(accepts, opts, b', overs[1..])
  }

  /** Time limits do not show in the end: a chain of time-limited runs that each handle
      at least one message drains n messages in at most n runs, into the Gmail log and
      the mailbox of one unlimited run. */
  lemma {:induction false} BudgetSplitting(
    accepts: Uid -> bool, opts: Options, w: World, b: Mailbox, overs: seq<nat -> bool>)
    requires w.accepts == accepts && (forall k :: !w.over(k))
    requires EachWorks(accepts, opts, b, overs) && |ListedUids(b)| <= |overs|
    ensures Runs(accepts, opts, b, overs) == Final(Ideal(w), opts, 0, b, Connecting).0
    decreases |overs|
  {
    TimeLimitedRun(w, opts, b);
    if overs == [] {
      assert ListedUids(b) == {};
      forall u ensures !Listed(b, u) { assert u !in ListedUids(b); }
      NothingToDrain(w, opts, b);
    } else {
      var w' := World(accepts, overs[0]);
      var (b', c) := Final(Ideal(w'), opts, 0, b, Connecting);
      TimeLimitedRun(w', opts, b);
      assert |ListedUids(b')| == c.res.remaining;
      SameAccepts(w, w', opts, b);
      SameAccepts(w, w', opts, b');
      BudgetSplitting(accepts, opts, w, b', overs[1..]);
      TimeLimitedRun(w, opts, b');
    }
  }
}
