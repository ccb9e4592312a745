/** The liveness deadline of the watcher (health.py). */
module Health {

  class Clock {
    var now: real

    constructor (now: real)
      ensures this.now == now
    {
      this.now := now;
    }
  }

  /** A promise made at one time, good until another. */
  datatype Beat = Beat(at: real, deadline: real)

  ghost predicate InOrder(beats: seq<Beat>) {
    forall i, j :: 0 <= i <= j < |beats| ==> beats[i].at <= beats[j].at
  }

  /** Touch `i` is the last one at time `t`, or among the last at that very time. */
  predicate InForce(beats: seq<Beat>, i: int, t: real) {
    0 <= i < |beats| && beats[i].at <= t && forall j :: i < j < |beats| ==> t <= beats[j].at
  }

  /** Whatever deadline is in force at time `t`, it has not passed. */
  ghost predicate Healthy(beats: seq<Beat>, t: real) {
    forall i :: InForce(beats, i, t) ==> t <= beats[i].deadline
  }

  /** Each touch came before the deadline of the one before it had passed. */
  ghost predicate Unbroken(beats: seq<Beat>) {
    forall i, j :: 0 <= i && j == i + 1 && j < |beats| ==> beats[j].at <= beats[i].deadline
  }

  /** Healthy at every instant up to `now`, if and only if no touch came too late and the
      last deadline is still to come. */
  lemma HealthyThroughout(beats: seq<Beat>, now: real)
    requires beats != [] && InOrder(beats) && beats[|beats| - 1].at <= now
    ensures (forall t :: beats[0].at <= t <= now ==> Healthy(beats, t))
        <==> Unbroken(beats) && now <= beats[|beats| - 1].deadline
  {
    var last := |beats| - 1;
    if forall t :: beats[0].at <= t <= now ==> Healthy(beats, t) {
      forall i, j | 0 <= i && j == i + 1 && j < |beats| ensures beats[j].at <= beats[i].deadline {
        assert beats[0].at <= beats[j].at <= beats[last].at;
        assert Healthy(beats, beats[j].at) && InForce(beats, i, beats[j].at);
      }
      assert beats[0].at <= beats[last].at && Healthy(beats, now) && InForce(beats, last, now);
    }
    if Unbroken(beats) && now <= beats[last].deadline {
      forall t | beats[0].at <= t <= now ensures Healthy(beats, t) {
        forall i | InForce(beats, i, t) ensures t <= beats[i].deadline {
          if i < last { assert beats[i + 1].at <= beats[i].deadline; }
        }
      }
    }
  }

  /** A process that hangs is seen to hang from the moment its budget is used up. */
  lemma HangIsSeen(beats: seq<Beat>, t: real)
    requires beats != [] && InOrder(beats) && beats[|beats| - 1].at < t
    ensures Healthy(beats, t) <==> t <= beats[|beats| - 1].deadline
  {
  }

  class Heartbeat {
    const clock: Clock
    var deadline: real
    ghost var beats: seq<Beat>

    constructor (clock: Clock, startupGrace: real)
      ensures Valid() && this.clock == clock
      ensures beats == [Beat(clock.now, clock.now + startupGrace)]
    {
      this.clock := clock;
      deadline := clock.now + startupGrace;
      beats := [Beat(clock.now, clock.now + startupGrace)];
    }

    ghost predicate Valid()
      reads this
    {
      beats != [] && beats[|beats| - 1].deadline == deadline
    }

    method Touch(ttl: real)
      requires Valid()
      modifies this
      ensures Valid()
      ensures beats == old(beats) + [Beat(clock.now, clock.now + if ttl >= 0.0 then ttl else 0.0)]
    {
      deadline := clock.now + if ttl >= 0.0 then ttl else 0.0;
      beats := beats + [Beat(clock.now, deadline)];
    }

    /** What the probe is told: whether the process is healthy at this instant. */
    method Ok() returns (healthy: bool)
      requires Valid() && InOrder(beats) && beats[|beats| - 1].at <= clock.now
      ensures healthy <==> clock.now <= beats[|beats| - 1].deadline
      ensures beats[|beats| - 1].at < clock.now ==> (healthy <==> Healthy(beats, clock.now))
    {
      if beats[|beats| - 1].at < clock.now { HangIsSeen(beats, clock.now); }
      healthy := clock.now <= deadline;
    }
  }
}
