/** The watcher process as it is written (watcher.py): a loop over IMAP sessions, a step that
    inspects INBOX, and a heartbeat renewed before each blocking operation.  Every operation
    goes through `Process.Block`, which demands that it is the one the machine of module
    Daemon is at; so the log is the log of that machine, and its theorems hold of it. */
module Watcher {
  import opened Mail
  import opened Watch
  import opened Health
  import opened Daemon

  /** The longest an operation may take, by the settings: two minutes more than the timeouts,
      intervals and delays it can itself be held up by. */
  predicate WithinTime(s: Settings, kind: Kind, takes: real) {
    match kind
    case Connecting => takes <= 3.0 * s.timeout + 120.0
    case ListingInbox => takes <= s.timeout + 120.0
    case CallingForwarder => takes <= s.requestTimeout + 120.0
    case Idling => takes <= s.idleTimeout + s.timeout + 120.0
    case Polling => takes <= s.pollInterval + 120.0
    case ClosingSession => takes <= 120.0
    case Sleeping(delay) => takes <= delay + 120.0
    case BackingOff(delay) => takes <= delay + 120.0
  }

  lemma BudgetIsTime(s: Settings, kind: Kind, takes: real)
    ensures WithinTime(s, kind, takes) <==> takes <= Budget(s, kind)
  {
  }

  ghost predicate Timely(s: Settings, log: seq<Op>) {
    forall i :: 0 <= i < |log| ==> WithinTime(s, log[i].kind, log[i].takes)
  }

  datatype Outcome = Returned | Raised | Hung

  /** The process, its clock and its heartbeat.  Operation number `limit` never returns. */
  class Process {
    const life: Life
    const clock: Clock
    const heartbeat: Heartbeat
    const limit: nat
    var ops: nat
    ghost var log: seq<Op>

    constructor (life: Life, clock: Clock, heartbeat: Heartbeat, limit: nat)
      requires life.Valid() && clock.now == life.started
      requires heartbeat.Valid() && heartbeat.clock == clock && |heartbeat.beats| == 1
      requires heartbeat.beats[0].at <= clock.now <= heartbeat.beats[0].deadline
      ensures Valid() && ops == 0 && log == []
      ensures this.life == life && this.clock == clock && this.heartbeat == heartbeat && this.limit == limit
    {
      this.life, this.clock, this.heartbeat, this.limit, ops, log := life, clock, heartbeat, limit, 0, [];
    }

    ghost function Beats(): seq<Beat>
      reads heartbeat
    {
      heartbeat.beats
    }

    /** Where the machine is. */
    ghost function Now(): State
      reads this
    {
      life.states(ops)
    }

    /** The log and the clock are those of the machine; and as long as every operation has
        kept within its budget, the process has been healthy. */
    ghost predicate Valid()
      reads this, clock, heartbeat
    {
      && life.Valid() && ops <= limit && log == Log(life, ops)
      && clock.now == life.states(ops).now >= 0.0
      && heartbeat.Valid() && heartbeat.clock == clock
      && InOrder(Beats()) && Beats()[|Beats()| - 1].at <= clock.now
      && (Timely(life.settings, log) ==> Unbroken(Beats()) && clock.now <= Beats()[|Beats()| - 1].deadline)
    }

    /** The heartbeat has just been renewed for an operation of this kind. */
    ghost predicate Ready(kind: Kind)
      reads this, clock, heartbeat
    {
      Valid() && Beats()[|Beats()| - 1] == Beat(clock.now, clock.now + Budget(life.settings, kind))
    }

    method Renew(ttl: real)
      requires Valid() && ttl >= 0.0
      modifies heartbeat
      ensures Valid() && heartbeat.beats == old(heartbeat.beats) + [Beat(clock.now, clock.now + ttl)]
    {
      heartbeat.Touch(ttl);
    }

    /** Declare how long the next operation may take. */
    method Touch(kind: Kind)
      requires Valid() && (kind.Sleeping? || kind.BackingOff? ==> kind.delay >= 0.0)
      modifies heartbeat
      ensures Ready(kind) && old(heartbeat.beats) <= heartbeat.beats
    {
      Renew(Budget(life.settings, kind));
    }

    /** Block in an operation: the one the machine is at. */
    method Block(kind: Kind) returns (o: Outcome)
      requires Ready(kind) && kind == Doing(Now())
      modifies this, clock
      ensures o.Hung? <==> old(ops) == limit
      ensures o.Hung? ==> Ready(kind) && ops == old(ops) && clock.now == old(clock.now)
      ensures !o.Hung? ==> Valid() && ops == old(ops) + 1 && Now() == Next(life, old(ops), old(Now()))
      ensures o.Raised? <==> !o.Hung? && Raises(life, old(ops), old(Now()))
    {
      if ops == limit { return Hung; }
      ghost var op := OpAt(life, ops);
      GoesOn(life, ops);
      clock.now := clock.now + life.takes(ops);
      o := if life.raises(ops) && CanRaise(kind) then Raised else Returned;
      log := log + [op];
      ops := ops + 1;
      TimelyBefore(life.settings, old(log), op);
    }
  }

  lemma GoesOn(life: Life, n: nat)
    requires life.Valid()
    ensures life.states(n + 1) == Next(life, n, life.states(n))
    ensures life.states(n + 1).now == life.states(n).now + life.takes(n) >= life.states(n).now
    ensures Log(life, n + 1) == Log(life, n) + [OpAt(life, n)]
  {
    assert Goes(life, n);
  }

  lemma TimelyBefore(s: Settings, log: seq<Op>, op: Op)
    ensures Timely(s, log + [op]) ==> Timely(s, log) && op.takes <= Budget(s, op.kind)
  {
    var more := log + [op];
    BudgetIsTime(s, op.kind, op.takes);
    assert more[|log|] == op;
    assert forall i :: 0 <= i < |log| ==> more[i] == log[i];
  }

  lemma CallKeepsBackoff(life: Life, n: nat)
    requires life.Valid() && life.states(n).phase.AtCall?
    ensures life.states(n + 1).backoff == life.states(n).backoff
    ensures Raises(life, n, life.states(n)) ==>
      life.states(n + 1).phase.AtBackOff? && life.states(n + 1).memory == life.states(n).memory
  {
    assert Goes(life, n);
  }

  class WatchLoop {
    const process: Process
    var notified: set<Uid>
    var lastTriggerAt: Option<real>
    var notBefore: real
    var failures: nat

    constructor (process: Process)
      ensures this.process == process && Memory() == FRESH
    {
      this.process := process;
      notified, lastTriggerAt, notBefore, failures := {}, None, 0.0, 0;
    }

    function Memory(): Memory
      reads this
    {
      Watch.Memory(notified, lastTriggerAt, notBefore, failures)
    }

    /** Between two operations the loop remembers what the machine does. */
    ghost predicate Valid()
      reads this, process, process.clock, process.heartbeat
    {
      process.Valid() && Memory() == process.Now().memory
    }

    /** The process is stuck in the operation the machine is at. */
    ghost predicate Stuck()
      reads this, process, process.clock, process.heartbeat
    {
      process.ops == process.limit && process.Ready(Doing(process.Now())) && Memory() == process.Now().memory
    }

    /** Act on what the forwarder answered.  `ok` is false where that raises
        an OverflowError: the backoff of the 1025th failure in a row does not fit a float. */
    method Settle(now: real, uids: set<Uid>, result: TriggerResult) returns (ok: bool, delay: Option<real>)
      modifies this
      ensures (Memory(), delay) == Answered(old(Memory()), now, uids, Some(result))
      ensures ok <==> !Breaks(old(Memory()), Some(result))
    {
      ok, delay := true, None;
      if result.ok {
        failures := 0;
        notified := uids;
        lastTriggerAt := Some(now);
        notBefore := now;
        if result.remaining > 0 {
          lastTriggerAt := None;
          delay := Some(SHORT_DELAY);
        }
      } else if result.busy {
        notBefore := now + BUSY_DELAY;
        delay := Some(BUSY_DELAY);
      } else {
        failures := failures + 1;
        if failures > LAST_PACED_FAILURE {
          ok := false;
        } else {
          delay := Some(Backoff(failures));
          notBefore := now + delay.value;
        }
      }
    }

    /** Tear the session down, within what was declared for the answer of the forwarder. */
    method CloseSession() returns (o: Outcome)
      requires Valid() && process.Ready(ClosingSession) && process.Now().phase.AtClose?
      modifies process, process.clock, process.heartbeat
      ensures !o.Returned?
      ensures o.Hung? ==> Stuck()
      ensures o.Raised? ==> Valid() && process.ops > old(process.ops) && process.Now().phase.AtBackOff?
      ensures o.Raised? ==> process.Now().backoff == old(process.Now()).backoff
    {
      o := process.Block(ClosingSession);
      if o.Returned? { o := Raised; }
    }

    /** Call the forwarder; the heartbeat is renewed when it has answered. */
    method Request() returns (o: Outcome, result: TriggerResult)
      requires Valid() && process.Now().phase.AtCall?
      modifies process, process.clock, process.heartbeat
      ensures o.Hung? ==> Stuck()
      ensures o.Raised? ==> Valid() && process.Now().phase.AtBackOff?
      ensures !o.Hung? ==> process.ops == old(process.ops) + 1 && process.Now().backoff == old(process.Now()).backoff
      ensures o.Returned? ==> process.Ready(ClosingSession) && result == process.life.answers(old(process.ops))
      ensures o.Returned? ==>
        && !Raises(process.life, old(process.ops), old(process.Now()))
        && process.Now() == Next(process.life, old(process.ops), old(process.Now()))
    {
      process.Touch(CallingForwarder);
      result := process.life.answers(process.ops);
      CallKeepsBackoff(process.life, process.ops);
      o := process.Block(CallingForwarder);
      if o.Returned? { process.Renew(HEARTBEAT_MARGIN); }
    }

    /** Call the forwarder and remember what it answers. */
    method CallForwarder(now: real, uids: set<Uid>) returns (o: Outcome, delay: Option<real>)
      requires Valid() && process.Now().phase.AtCall? && process.Now().phase.at == now
      requires process.Now().phase.uids == uids
      modifies this, process, process.clock, process.heartbeat
      ensures o.Hung? ==> Stuck()
      ensures !o.Hung? ==>
        Valid() && process.ops > old(process.ops) && process.Now().backoff == old(process.Now()).backoff
      ensures o.Raised? ==> process.Now().phase.AtBackOff?
      ensures o.Returned? ==> process.Now().phase == AtRest(old(process.Now()).phase.idle, delay)
    {
      delay := None;
      var result, ok;
      o, result := Request();
      if !o.Returned? { return; }
      ok, delay := Settle(now, uids, result);
      if !ok { o := CloseSession(); }
    }

    /** List INBOX and forget what has left it. */
    method List() returns (o: Outcome, now: real, uids: set<Uid>)
      requires Valid() && process.Ready(ListingInbox) && process.Now().phase.AtListing?
      modifies this, process, process.clock, process.heartbeat
      ensures o.Hung? ==> Stuck()
      ensures !o.Hung? ==>
        Valid() && process.ops == old(process.ops) + 1 && process.Now().backoff == old(process.Now()).backoff
      ensures o.Raised? ==> process.Now().phase.AtBackOff?
      ensures o.Returned? ==>
        && now == old(process.clock.now) && Memory() == Less(old(Memory()), uids)
        && IsStep(process.life, old(process.ops))
        && process.Now().phase == match Decide(process.life.settings.retrigger, Memory(), now, uids)
           case Rest => AtRest(old(process.Now()).phase.idle, None)
           case Wait(delay) => AtRest(old(process.Now()).phase.idle, Some(delay))
           case Trigger => AtCall(old(process.Now()).phase.idle, now, uids)
    {
      now, uids := process.clock.now, process.life.listings(process.ops);
      o := process.Block(ListingInbox);
      if o.Returned? { notified := notified * uids; }
    }

    /** Inspect INBOX once; the caller has just declared the listing.  The forwarder is
        called exactly where the machine calls it, and the step returns the delay that the
        machine rests for. */
    method Step() returns (o: Outcome, delay: Option<real>)
      requires Valid() && process.Ready(ListingInbox) && process.Now().phase.AtListing?
      modifies this, process, process.clock, process.heartbeat
      ensures o.Hung? ==> Stuck()
      ensures !o.Hung? ==>
        Valid() && process.ops > old(process.ops) && process.Now().backoff == old(process.Now()).backoff
      ensures o.Raised? ==> process.Now().phase.AtBackOff?
      ensures o.Returned? ==> process.Now().phase == AtRest(old(process.Now()).phase.idle, delay)
    {
      delay := None;
      var now, uids;
      o, now, uids := List();
      if !o.Returned? { return; }
      if uids == {} || (uids <= notified && !Stale(process.life.settings.retrigger, Memory(), now)) { return; }
      if now < notBefore {
        delay := Some(notBefore - now);
        return;
      }
      o, delay := CallForwarder(now, uids);
    }
  }

  /** Sleep, or block in IDLE or for the poll interval, as the step has asked. */
  method Pause(loop: WatchLoop, delay: Option<real>, idle: bool) returns (o: Outcome)
    requires loop.Valid() && loop.process.Now().phase == AtRest(idle, delay) && (delay.Some? ==> delay.value > 0.0)
    modifies loop.process, loop.process.clock, loop.process.heartbeat
    ensures o.Hung? ==> loop.Stuck()
    ensures !o.Hung? ==> loop.Valid() && loop.process.ops > old(loop.process.ops)
    ensures !o.Hung? ==> loop.process.Now().backoff == old(loop.process.Now()).backoff
    ensures o.Returned? ==> loop.process.Now().phase == AtListing(idle)
    ensures o.Raised? ==> loop.process.Now().phase.AtBackOff?
  {
    var kind := if delay.Some? then Sleeping(delay.value) else if idle then Idling else Polling;
    loop.process.Touch(kind);
    o := loop.process.Block(kind);
  }

  /** One turn of a session: list and act, then rest. */
  method Turn(loop: WatchLoop, idle: bool) returns (o: Outcome)
    requires loop.Valid() && loop.process.Now().phase == AtListing(idle)
    modifies loop, loop.process, loop.process.clock, loop.process.heartbeat
    ensures o.Hung? ==> loop.Stuck()
    ensures !o.Hung? ==> loop.Valid() && loop.process.ops > old(loop.process.ops)
    ensures !o.Hung? ==> loop.process.Now().backoff == old(loop.process.Now()).backoff
    ensures o.Returned? ==> loop.process.Now().phase == AtListing(idle)
    ensures o.Raised? ==> loop.process.Now().phase.AtBackOff?
  {
    loop.process.Touch(ListingInbox);
    var delay;
    o, delay := loop.Step();
    if !o.Returned? { return; }
    if delay.Some? { SleepsAreSane(loop.process.life, loop.process.ops); }
    o := Pause(loop, delay, idle);
  }

  /** One session, from its connect to the exception that ends it. */
  method Session(loop: WatchLoop, idle: bool) returns (o: Outcome)
    requires loop.Valid() && loop.process.Now().phase == AtListing(idle)
    modifies loop, loop.process, loop.process.clock, loop.process.heartbeat
    ensures !o.Returned?
    ensures o.Hung? ==> loop.Stuck()
    ensures o.Raised? ==> loop.Valid() && loop.process.ops > old(loop.process.ops)
    ensures o.Raised? ==>
      loop.process.Now().phase.AtBackOff? && loop.process.Now().backoff == old(loop.process.Now()).backoff
  {
    o := Turn(loop, idle);
    while o.Returned?
      invariant o.Hung? ==> loop.Stuck()
      invariant !o.Hung? ==> loop.Valid() && loop.process.ops > old(loop.process.ops)
      invariant !o.Hung? ==> loop.process.Now().backoff == old(loop.process.Now()).backoff
      invariant o.Returned? ==> loop.process.Now().phase == AtListing(idle)
      invariant o.Raised? ==> loop.process.Now().phase.AtBackOff?
      decreases o.Returned?, loop.process.limit - loop.process.ops
    {
      o := Turn(loop, idle);
    }
  }

  /** Connect, and watch while the session lasts.  A connection that succeeds resets the
      backoff, one that fails leaves it. */
  method ConnectAndWatch(loop: WatchLoop, pause: real) returns (o: Outcome, backoff: real)
    requires loop.Valid() && loop.process.Now().phase.AtConnect? && pause == loop.process.Now().backoff
    modifies loop, loop.process, loop.process.clock, loop.process.heartbeat
    ensures !o.Returned?
    ensures o.Hung? ==> loop.Stuck()
    ensures o.Raised? ==>
      && loop.Valid() && loop.process.ops > old(loop.process.ops)
      && loop.process.Now().phase.AtBackOff? && backoff == loop.process.Now().backoff
  {
    var process := loop.process;
    backoff := pause;
    process.Touch(Connecting);
    var idle := process.life.supportsIdle(process.ops);
    o := process.Block(Connecting);
    if !o.Returned? { return; }
    backoff := FIRST_BACKOFF;
    o := Session(loop, idle);
  }

  /** Sleep before the next connect, and double the time for the one after. */
  method BackOff(loop: WatchLoop, pause: real) returns (o: Outcome, backoff: real)
    requires loop.Valid() && loop.process.Now().phase.AtBackOff? && pause == loop.process.Now().backoff
    modifies loop.process, loop.process.clock, loop.process.heartbeat
    ensures !o.Raised?
    ensures o.Hung? ==> loop.Stuck()
    ensures o.Returned? ==>
      && loop.Valid() && loop.process.ops > old(loop.process.ops)
      && loop.process.Now().phase.AtConnect? && backoff == loop.process.Now().backoff
  {
    BackoffRuns(loop.process.life, loop.process.ops);
    loop.process.Touch(BackingOff(pause));
    o := loop.process.Block(BackingOff(pause));
    backoff := if pause * 2.0 <= LONGEST_BACKOFF then pause * 2.0 else LONGEST_BACKOFF;
  }

  /** What the probe sees of a process that is stuck in an operation. */
  lemma StuckIsSeen(process: Process, stuck: Kind)
    requires process.Ready(stuck)
    ensures Timely(process.life.settings, process.log) ==>
      forall t :: process.Beats()[0].at <= t <= process.clock.now ==> Healthy(process.Beats(), t)
    ensures forall t :: process.clock.now < t ==>
      (Healthy(process.Beats(), t) <==> WithinTime(process.life.settings, stuck, t - process.clock.now))
  {
    HealthyThroughout(process.Beats(), process.clock.now);
    forall t | process.clock.now < t
      ensures Healthy(process.Beats(), t) <==> WithinTime(process.life.settings, stuck, t - process.clock.now)
    {
      BudgetIsTime(process.life.settings, stuck, t - process.clock.now);
      HangIsSeen(process.Beats(), t);
    }
  }

  /** The daemon, up to an operation that never returns; any run is the limit of such.  It
      has done exactly the operations of the machine, and is stuck in the next one.  As long
      as every operation, session teardown included, has taken no longer than the settings
      allow, the probe has found the process healthy at every instant; and of the operation
      it is stuck in it finds it healthy exactly as long as they allow that. */
  method RunForever(process: Process) returns (loop: WatchLoop)
    requires process.Valid() && process.ops == 0
    modifies process, process.clock, process.heartbeat
    ensures fresh(loop) && loop.process == process && loop.Stuck()
    ensures process.ops == process.limit && process.log == Log(process.life, process.limit)
    ensures Timely(process.life.settings, process.log) ==>
      forall t :: process.Beats()[0].at <= t <= process.clock.now ==> Healthy(process.Beats(), t)
    ensures var stuck := Doing(process.life.states(process.limit));
      forall t :: process.clock.now < t ==>
        (Healthy(process.Beats(), t) <==> WithinTime(process.life.settings, stuck, t - process.clock.now))
  {
    loop := new WatchLoop(process);
    var backoff := FIRST_BACKOFF;
    var o := Returned;
    while !o.Hung?
      invariant loop.process == process && fresh(loop)
      invariant o.Hung? ==> loop.Stuck()
      invariant !o.Hung? ==> loop.Valid() && process.Now().phase.AtConnect? && backoff == process.Now().backoff
      decreases !o.Hung?, process.limit - process.ops
    {
      o, backoff := ConnectAndWatch(loop, backoff);
      if !o.Hung? {
        o, backoff := BackOff(loop, backoff);
      }
    }
    StuckIsSeen(process, Doing(process.Now()));
  }
}
