/** The watcher process (watcher.py) as a machine: one blocking operation after another, in
    an environment that says how long each takes and how it ends.  Its log is determined by
    that environment; the theorems here are about the operations in the log. */
module Daemon {
  import opened Mail
  import opened Watch

  const HEARTBEAT_MARGIN := 120.0
  const FIRST_BACKOFF := 5.0
  const LONGEST_BACKOFF := 300.0

  datatype Settings = Settings(
    timeout: real, requestTimeout: real, retrigger: real, idleTimeout: real, pollInterval: real)
  {
    predicate Valid() {
      timeout >= 0.0 && requestTimeout >= 0.0 && idleTimeout >= 0.0 && pollInterval >= 0.0
    }
  }

  /** What the process blocks in. */
  datatype Kind =
    | Connecting
    | ListingInbox
    | CallingForwarder
    | Sleeping(delay: real)
    | Idling
    | Polling
    | ClosingSession
    | BackingOff(delay: real)

  /** How long each operation may take before the process counts as stuck. */
  function Budget(s: Settings, kind: Kind): real {
    HEARTBEAT_MARGIN +
    match kind
    case Connecting => s.timeout * 3.0
    case ListingInbox => s.timeout
    case CallingForwarder => s.requestTimeout
    case Sleeping(delay) => delay
    case Idling => s.idleTimeout + s.timeout
    case Polling => s.pollInterval
    case ClosingSession => 0.0
    case BackingOff(delay) => delay
  }

  /** The operations that can raise; a sleep only ends. */
  predicate CanRaise(kind: Kind) {
    kind.Connecting? || kind.ListingInbox? || kind.CallingForwarder? || kind.Idling?
  }

  /** The life of a process.  Operation number n takes `takes(n)`, session teardown included where it raises, which
      it does if it can and `raises(n)`; if it is a listing it finds `listings(n)`, if it is
      a call of the forwarder it is answered `answers(n)`.  `states(n)` is where the process
      is before operation n, which all that determines: see `StatesAreDetermined`. */
  datatype Life = Life(
    settings: Settings, started: real, takes: nat -> real, raises: nat -> bool,
    listings: nat -> set<Uid>, answers: nat -> TriggerResult, supportsIdle: nat -> bool,
    states: nat -> State)
  {
    ghost predicate Sane() {
      settings.Valid() && started >= 0.0 && forall n :: takes(n) >= 0.0
    }

    ghost predicate Valid() {
      Sane() && states(0) == Start(this) && forall n: nat :: Goes(this, n)
    }
  }

  function Start(life: Life): State {
    State(life.started, AtConnect, FRESH, FIRST_BACKOFF)
  }

  predicate Goes(life: Life, n: nat) {
    life.states(n + 1) == Next(life, n, life.states(n))
  }

  /** `AtCall` keeps what the step has read: the clock and the listing.  `AtClose` is where
      the backoff has overflown: the session is torn down after the heartbeat was renewed for
      the answer, while after any other exception the teardown belongs to what raised it. */
  datatype Phase =
    | AtConnect
    | AtListing(idle: bool)
    | AtCall(idle: bool, at: real, uids: set<Uid>)
    | AtRest(idle: bool, delay: Option<real>)
    | AtClose
    | AtBackOff

  datatype State = State(now: real, phase: Phase, memory: Memory, backoff: real)

  function Doing(s: State): Kind {
    match s.phase
    case AtConnect => Connecting
    case AtListing(_) => ListingInbox
    case AtCall(_, _, _) => CallingForwarder
    case AtRest(idle, delay) => if delay.Some? then Sleeping(delay.value) else if idle then Idling else Polling
    case AtClose => ClosingSession
    case AtBackOff => BackingOff(s.backoff)
  }

  function Raises(life: Life, n: nat, s: State): bool {
    CanRaise(Doing(s)) && life.raises(n)
  }

  /** The process after operation `n`. */
  function Next(life: Life, n: nat, s: State): State {
    var now := s.now + life.takes(n);
    if Raises(life, n, s) then State(now, AtBackOff, s.memory, s.backoff)
    else
      match s.phase
      case AtConnect => State(now, AtListing(life.supportsIdle(n)), s.memory, FIRST_BACKOFF)
      case AtListing(idle) => State(now, Listed(life, s, idle, life.listings(n)), Less(s.memory, life.listings(n)),
        s.backoff)
      case AtCall(idle, at, uids) =>
        var (memory, delay) := Answered(s.memory, at, uids, Some(life.answers(n)));
        var broken := Breaks(s.memory, Some(life.answers(n)));
        State(now, if broken then AtClose else AtRest(idle, delay), memory, s.backoff)
      case AtRest(idle, _) => State(now, AtListing(idle), s.memory, s.backoff)
      case AtClose => State(now, AtBackOff, s.memory, s.backoff)
      case AtBackOff => State(now, AtConnect, s.memory, Min(s.backoff * 2.0, LONGEST_BACKOFF))
  }

  /** Where a step goes with its listing: to rest, to wait, or to call the forwarder. */
  function Listed(life: Life, s: State, idle: bool, uids: set<Uid>): Phase {
    match Decide(life.settings.retrigger, Less(s.memory, uids), s.now, uids)
    case Rest => AtRest(idle, None)
    case Wait(delay) => AtRest(idle, Some(delay))
    case Trigger => AtCall(idle, s.now, uids)
  }

  /** The states, one from the other. */
  function Course(life: Life, n: nat): State {
    if n == 0 then Start(life) else Next(life, n - 1, Course(life, n - 1))
  }

  lemma {:induction false} StatesAreDetermined(life: Life, n: nat)
    requires life.Valid()
    ensures life.states(n) == Course(life, n)
  {
    if n > 0 {
      StatesAreDetermined(life, n - 1);
      assert Goes(life, n - 1);
    }
  }

  lemma StatesExist(life: Life)
    requires life.Sane()
    ensures life.(states := (n: nat) => Course(life, n)).Valid()
  {
    var full := life.(states := (n: nat) => Course(life, n));
    forall n: nat ensures Goes(full, n) {
      assert Next(full, n, Course(life, n)) == Next(life, n, Course(life, n));
    }
  }

  /** An operation that is over. */
  datatype Op = Op(kind: Kind, at: real, takes: real, raised: bool)

  function OpAt(life: Life, n: nat): Op {
    var s := life.states(n);
    Op(Doing(s), s.now, life.takes(n), Raises(life, n, s))
  }

  /** The first `n` operations. */
  function Log(life: Life, n: nat): (log: seq<Op>)
    ensures |log| == n && forall k :: 0 <= k < n ==> log[k] == OpAt(life, k)
  {
    if n == 0 then [] else Log(life, n - 1) + [OpAt(life, n - 1)]
  }

  lemma {:induction false} TimeGoesOn(life: Life, m: nat, n: nat)
    requires life.Valid() && m <= n
    ensures 0.0 <= life.states(m).now <= life.states(n).now
    decreases n
  {
    if n > 0 { assert Goes(life, n - 1); }
    if m < n {
      TimeGoesOn(life, m, n - 1);
    } else if m > 0 {
      TimeGoesOn(life, m - 1, m - 1);
    }
  }

  // ---- Reconnecting ---------------------------------------------------------------------------

  /** The backoff at the n-th end of a session in a row. */
  function Paced(n: nat): real
    requires n > 0
  {
    Min(FIRST_BACKOFF * Pow2(n - 1), LONGEST_BACKOFF)
  }

  lemma PacedDoubles(n: nat)
    requires n > 0
    ensures Paced(1) == 5.0 && 0.0 < Paced(n) <= 300.0
    ensures Paced(n + 1) == Min(2.0 * Paced(n), 300.0)
  {
  }

  predicate Connects(op: Op) {
    op.kind.Connecting? && !op.raised
  }

  /** The ends of sessions since the last successful connect, or since the process started. */
  function EndsBefore(life: Life, n: nat): nat {
    if n == 0 || Connects(OpAt(life, n - 1)) then 0
    else EndsBefore(life, n - 1) + if OpAt(life, n - 1).kind.BackingOff? then 1 else 0
  }

  lemma BackoffStep(life: Life, n: nat)
    requires life.Valid()
    ensures life.states(n + 1).backoff ==
      if Connects(OpAt(life, n)) then FIRST_BACKOFF
      else if OpAt(life, n).kind.BackingOff? then Min(life.states(n).backoff * 2.0, LONGEST_BACKOFF)
      else life.states(n).backoff
  {
    assert Goes(life, n);
  }

  lemma {:induction false} BackoffIsPaced(life: Life, n: nat)
    requires life.Valid()
    ensures life.states(n).backoff == Paced(EndsBefore(life, n) + 1)
  {
    PacedDoubles(1);
    if n > 0 {
      BackoffIsPaced(life, n - 1);
      BackoffStep(life, n - 1);
      PacedDoubles(EndsBefore(life, n - 1) + 1);
    }
  }

  lemma BackoffRuns(life: Life, n: nat)
    requires life.Valid()
    ensures 0.0 < life.states(n).backoff <= 300.0
  {
    BackoffIsPaced(life, n);
    PacedDoubles(EndsBefore(life, n) + 1);
  }

  /** The n-th backoff in a row sleeps min(5 * 2^(n-1), 300) seconds. */
  lemma BackoffPaced(life: Life, n: nat)
    requires life.Valid() && OpAt(life, n).kind.BackingOff?
    ensures OpAt(life, n).kind.delay == Paced(EndsBefore(life, n) + 1)
  {
    BackoffIsPaced(life, n);
  }

  /** Sessions end only by an exception, that of an operation or of the backoff, and every
      end is followed by a backoff and a new connect. */
  lemma EndsAreBackedOff(life: Life, n: nat)
    requires life.Valid()
    ensures var (kind, raised) := (OpAt(life, n).kind, OpAt(life, n).raised);
      raised == (life.raises(n) && (kind.Connecting? || kind.ListingInbox? || kind.CallingForwarder? || kind.Idling?))
    ensures OpAt(life, n).raised || OpAt(life, n).kind.ClosingSession? <==> OpAt(life, n + 1).kind.BackingOff?
    ensures OpAt(life, n + 1).kind.ClosingSession? <==>
      IsCall(life, n) && !OpAt(life, n).raised && Breaks(life.states(n).memory, Some(life.answers(n)))
    ensures OpAt(life, n).kind.BackingOff? ==> OpAt(life, n + 1).kind.Connecting?
    ensures OpAt(life, n + 1).kind.Connecting? ==> OpAt(life, n).kind.BackingOff?
  {
    assert Goes(life, n);
  }

  /** What a session knows of its server. */
  predicate Knows(p: Phase, idle: bool) {
    match p
    case AtConnect => false
    case AtListing(i) => i == idle
    case AtCall(i, _, _) => i == idle
    case AtRest(i, _) => i == idle
    case AtClose => true
    case AtBackOff => true
  }

  lemma {:induction false} KnowsOn(life: Life, c: nat, n: nat)
    requires life.Valid() && c < n && Connects(OpAt(life, c))
    requires forall k :: c < k <= n ==> !OpAt(life, k).kind.Connecting?
    ensures Knows(life.states(n).phase, life.supportsIdle(c))
    decreases n
  {
    assert Goes(life, n - 1) && !OpAt(life, n).kind.Connecting?;
    if c < n - 1 { KnowsOn(life, c, n - 1); }
  }

  /** A session blocks in IDLE if the server it has connected to can do that, and sleeps for
      the poll interval if it cannot. */
  lemma IdleOrPolls(life: Life, c: nat, n: nat)
    requires life.Valid() && c < n && Connects(OpAt(life, c))
    requires forall k :: c < k <= n ==> !OpAt(life, k).kind.Connecting?
    ensures OpAt(life, n).kind.Idling? ==> life.supportsIdle(c)
    ensures OpAt(life, n).kind.Polling? ==> !life.supportsIdle(c)
  {
    KnowsOn(life, c, n);
  }

  // ---- Steps -----------------------------------------------------------------------------------

  /** Operation `n` is a listing that returned: a step decides on it. */
  predicate IsStep(life: Life, n: nat) {
    OpAt(life, n).kind.ListingInbox? && !OpAt(life, n).raised
  }

  predicate IsCall(life: Life, n: nat) {
    OpAt(life, n).kind.CallingForwarder?
  }

  /** A call is made for the listing just before it, and for what was read then. */
  lemma CallFollowsStep(life: Life, n: nat)
    requires life.Valid() && IsCall(life, n)
    ensures n > 0 && IsStep(life, n - 1)
    ensures life.states(n).phase.at == life.states(n - 1).now && life.states(n).phase.uids == life.listings(n - 1)
  {
    if n > 0 { assert Goes(life, n - 1); }
  }

  function EvAt(life: Life, n: nat): Ev {
    var called := IsCall(life, n + 1);
    Ev(life.states(n).now, life.listings(n), life.states(n + 1).now,
       if called && !OpAt(life, n + 1).raised then Some(life.answers(n + 1)) else None,
       if called then life.states(n + 2).now else life.states(n + 1).now)
  }

  /** The steps decided in the first `n` operations. */
  function Steps(life: Life, n: nat): (evs: seq<Ev>)
    ensures |evs| <= n
  {
    if n == 0 then [] else Steps(life, n - 1) + if IsStep(life, n - 1) then [EvAt(life, n - 1)] else []
  }

  lemma {:induction false} StepsGrow(life: Life, m: nat, n: nat)
    requires m <= n
    ensures Steps(life, m) <= Steps(life, n)
  {
    if m < n { StepsGrow(life, m, n - 1); }
  }

  /** Each listing that returned is a step, in its order, with its clock reading and UIDs. */
  lemma StepIs(life: Life, m: nat, n: nat)
    requires m < n && IsStep(life, m)
    ensures |Steps(life, m)| < |Steps(life, n)| && Steps(life, n)[|Steps(life, m)|] == EvAt(life, m)
  {
    StepsGrow(life, m + 1, n);
  }

  /** ... and every step is one. */
  lemma {:induction false} StepComes(life: Life, n: nat, k: nat) returns (m: nat)
    requires k < |Steps(life, n)|
    ensures m < n && IsStep(life, m) && |Steps(life, m)| == k
  {
    if k < |Steps(life, n - 1)| {
      m := StepComes(life, n - 1, k);
    } else {
      m := n - 1;
    }
  }

  lemma {:induction false} StepsInOrder(life: Life, n: nat, i: nat, j: nat)
    requires life.Valid() && i <= j < |Steps(life, n)|
    ensures 0.0 <= Steps(life, n)[i].now <= Steps(life, n)[j].now
  {
    var k := StepComes(life, n, i);
    var m := StepComes(life, n, j);
    StepIs(life, k, n);
    StepIs(life, m, n);
    if m < k { StepsGrow(life, m + 1, k); }
    TimeGoesOn(life, k, m);
  }

  lemma StepsMonotone(life: Life, n: nat)
    requires life.Valid()
    ensures Monotone(Steps(life, n))
  {
    var evs := Steps(life, n);
    forall i, j | 0 <= i <= j < |evs| ensures 0.0 <= evs[i].now <= evs[j].now { StepsInOrder(life, n, i, j); }
  }

  /** What the process remembers is what the machine of module Watch does after its steps;
      while it calls the forwarder, what that machine decides on. */
  ghost predicate Remembers(life: Life, n: nat) {
    var evs, r, s := Steps(life, n), life.settings.retrigger, life.states(n);
    if s.phase.AtCall? then
      evs != [] && s.memory == Before(r, evs, |evs| - 1) && Triggers(r, evs, |evs| - 1)
    else
      s.memory == At(r, evs, |evs|)
  }

  lemma {:induction false} AfterListing(life: Life, n: nat)
    requires life.Valid() && IsStep(life, n) && Remembers(life, n)
    ensures Remembers(life, n + 1)
    ensures Triggers(life.settings.retrigger, Steps(life, n + 1), |Steps(life, n)|) <==> IsCall(life, n + 1)
  {
    assert Goes(life, n);
    AtPrefix(life.settings.retrigger, Steps(life, n), Steps(life, n + 1), |Steps(life, n)|);
  }

  lemma {:induction false} AfterCall(life: Life, n: nat)
    requires life.Valid() && IsCall(life, n) && Remembers(life, n)
    ensures Remembers(life, n + 1)
  {
    assert Goes(life, n);
    CallFollowsStep(life, n);
    StepIs(life, n - 1, n);
    assert Steps(life, n + 1) == Steps(life, n) == Steps(life, n - 1) + [EvAt(life, n - 1)];
  }

  lemma {:induction false} OtherwiseSame(life: Life, n: nat)
    requires life.Valid() && !IsStep(life, n) && !IsCall(life, n) && Remembers(life, n)
    ensures Remembers(life, n + 1)
  {
    assert Goes(life, n);
    assert Steps(life, n + 1) == Steps(life, n);
  }

  lemma RemembersOn(life: Life, n: nat)
    requires life.Valid() && Remembers(life, n)
    ensures Remembers(life, n + 1)
  {
    if IsStep(life, n) {
      AfterListing(life, n);
    } else if IsCall(life, n) {
      AfterCall(life, n);
    } else {
      OtherwiseSame(life, n);
    }
  }

  lemma {:induction false} AlwaysRemembers(life: Life, n: nat)
    requires life.Valid()
    ensures Remembers(life, n)
  {
    if n > 0 {
      AlwaysRemembers(life, n - 1);
      RemembersOn(life, n - 1);
    }
  }

  /** The forwarder is called exactly when the machine triggers: the operation after a
      listing is a call if and only if the step on that listing triggers, and there are no
      other calls. */
  lemma CallsAreTriggers(life: Life, m: nat, n: nat)
    requires life.Valid() && m < n
    ensures IsStep(life, m) ==>
      |Steps(life, m)| < |Steps(life, n)|
      && (IsCall(life, m + 1) <==> Triggers(life.settings.retrigger, Steps(life, n), |Steps(life, m)|))
    ensures IsCall(life, m + 1) ==> IsStep(life, m)
  {
    if IsStep(life, m) {
      StepIs(life, m, n);
      AlwaysRemembers(life, m);
      AfterListing(life, m);
      StepsGrow(life, m + 1, n);
      AtPrefix(life.settings.retrigger, Steps(life, m + 1), Steps(life, n), |Steps(life, m)|);
    }
    if IsCall(life, m + 1) { CallFollowsStep(life, m + 1); }
  }

  /** The operation a step rests in, if nothing raises. */
  function RestOf(life: Life, m: nat): nat {
    if IsCall(life, m + 1) then m + 2 else m + 1
  }

  /** The delay of the machine is the delay the process sleeps. */
  lemma DelayIs(life: Life, m: nat)
    requires life.Valid() && IsStep(life, m)
    ensures var c := RestOf(life, m);
      life.states(c).phase.AtRest? ==>
        |Steps(life, m)| < |Steps(life, m + 1)|
        && life.states(c).phase.delay == DelayAt(life.settings.retrigger, Steps(life, m + 1), |Steps(life, m)|)
  {
    assert Goes(life, m) && Goes(life, m + 1);
    AlwaysRemembers(life, m);
    StepsGrow(life, m, m + 1);
    AtPrefix(life.settings.retrigger, Steps(life, m), Steps(life, m + 1), |Steps(life, m)|);
  }

  lemma StepBeforeRest(life: Life, n: nat)
    requires life.Valid() && life.states(n).phase.AtRest?
    ensures n > 0 && (IsStep(life, n - 1) || (n > 1 && IsCall(life, n - 1) && IsStep(life, n - 2)))
  {
    if n > 0 {
      assert Goes(life, n - 1);
      if IsCall(life, n - 1) { CallFollowsStep(life, n - 1); }
    }
  }

  /** Paced: every sleep between two steps is positive and at most ten minutes. */
  lemma SleepsAreSane(life: Life, n: nat)
    requires life.Valid() && OpAt(life, n).kind.Sleeping?
    ensures 0.0 < OpAt(life, n).kind.delay <= 600.0
  {
    StepBeforeRest(life, n);
    var m := if IsStep(life, n - 1) then n - 1 else n - 2;
    DelayIs(life, m);
    StepsMonotone(life, m + 1);
    DelaysAreSane(life.settings.retrigger, Steps(life, m + 1), |Steps(life, m)|);
  }
}
