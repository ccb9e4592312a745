/** The endpoint that runs the forwarder (server.py): one run at a time, and no secret in
    the answer.  A request is split where it calls the run, so that others may come between;
    the endpoint keeps the history of the whole system as its ghost state. */
module Server {
  import opened Mail
  import opened Run
  import opened System
  import opened Redaction
  import Duplicates
  import Watch

  const ERROR_TEXT_LIMIT: nat := 500

  /** How a run ended: with its result, or with an exception of any kind. */
  datatype Ending = Completed(error: Option<string>, remaining: nat) | Broke(text: string)

  datatype Response = Response(status: nat, error: Option<string>, remaining: nat)

  /** How the watcher reads a response. */
  function Notice(r: Response): Watch.TriggerResult {
    if r.status == 409 then Watch.TriggerResult(false, true, 0)
    else if r.status != 200 then Watch.TriggerResult(false, false, 0)
    else Watch.TriggerResult(true, false, r.remaining)
  }

  /** No clean secret shows in the error of the response, which is not too long. */
  ghost predicate Discreet(r: Response, secrets: set<string>) {
    r.error.Some? ==>
      && |r.error.value| <= 500
      && forall v :: v in secrets && Clean(v) ==> !Occurs(r.error.value, v)
  }

  /** The text with every secret masked, longest first, and cut to 500 characters. */
  ghost predicate Scrubbed(shown: string, text: string, secrets: set<string>) {
    exists order: seq<string> ::
      Lists(order, secrets) && shown <= RedactAll(text, order) && |shown| == AtMost500(|RedactAll(text, order)|)
  }

  function AtMost500(n: nat): nat {
    if n <= 500 then n else 500
  }

  /** The response says how the run ended: an error is told, with its text scrubbed, unless
      that is empty anyway; and success is told only of a run without one. */
  ghost predicate Tells(r: Response, ending: Ending, secrets: set<string>) {
    match ending
    case Completed(error, remaining) =>
      && r.remaining == remaining && (r.status == 200 <==> error.None?) && (r.error.None? <==> error.None?)
      && (error.Some? ==>
        if error.value == "" then r.error.value == "" else Scrubbed(r.error.value, error.value, secrets))
    case Broke(text) => r.status == 500 && r.error.Some? && Scrubbed(r.error.value, text, secrets)
  }

  /** A step of a run of this process that is not its first. */
  predicate GoesOn(a: Action) {
    a.Serve? || a.Crash? || a.CrashInCall?
  }

  class Endpoint {
    const opts: Options
    const secrets: SecretRegistry
    var runLock: bool
    ghost var states: seq<State>
    ghost var actions: seq<Action>

    constructor (opts: Options, secrets: SecretRegistry, ghost s: State)
      requires Init(s)
      ensures Valid() && this.opts == opts && this.secrets == secrets && !runLock && states == [s] && actions == []
    {
      this.opts, this.secrets, runLock, states, actions := opts, secrets, false, [s], [];
    }

    /** The history so far is one in which runs take turns; and the lock is held exactly
        while there is a run, of which there is one. */
    ghost predicate Valid()
      reads this
    {
      && Behavior(opts, true, states, actions)
      && (runLock <==> Current().procs != map[])
      && forall p, q :: p in Current().procs && q in Current().procs ==> p == q
    }

    ghost function Current(): State
      requires |states| == |actions| + 1
      reads this
    {
      states[|actions|]
    }

    /** The history goes on by one step. */
    ghost method Note(a: Action, s: State)
      requires Behavior(opts, true, states, actions) && Next(opts, true, Current(), a, s)
      modifies this`states, this`actions
      ensures states == old(states) + [s] && actions == old(actions) + [a]
      ensures Behavior(opts, true, states, actions) && Current() == s
    {
      OneMore(opts, true, states, actions, a, s);
      states, actions := states + [s], actions + [a];
    }

    /** A request, up to the point where it starts its run: it does exactly if the caller is
        authorised and no run is under way. */
    method Begin(pid: Pid, authorised: bool) returns (refusal: Option<Response>)
      requires Valid() && pid !in Current().procs
      modifies this
      ensures Valid()
      ensures refusal.None? <==> authorised && old(Current()).procs == map[]
      ensures refusal.None? ==>
        && runLock && actions == old(actions) + [Action.Begin(pid)]
        && Current() == old(Current()).(procs := map[pid := Connecting])
      ensures refusal.Some? ==>
        && runLock == old(runLock) && states == old(states) && actions == old(actions)
        && refusal.value.status == (if authorised then 409 else 403)
        && (Notice(refusal.value).busy <==> authorised) && !Notice(refusal.value).ok
    {
      if !authorised { return Some(Response(403, None, 0)); }
      if runLock { return Some(Response(409, None, 0)); }
      runLock := true;
      assert Current().procs[pid := Connecting] == map[pid := Connecting];
      Note(Action.Begin(pid), Current().(procs := Current().procs[pid := Connecting]));
      refusal := None;
    }

    /** Anything that happens while no run starts or ends: mail arrives, a run makes a call,
        the user or the operator acts. */
    ghost method Proceed(a: Action, s: State)
      requires Valid() && Next(opts, false, Current(), a, s) && !a.Begin? && s.procs.Keys == Current().procs.Keys
      modifies this`states, this`actions
      ensures Valid() && actions == old(actions) + [a] && Current() == s
    {
      ghost var before := Current();
      assert (s.procs == map[]) <==> s.procs.Keys == {};
      assert (before.procs == map[]) <==> before.procs.Keys == {};
      Note(a, s);
      assert forall p :: p in s.procs <==> p in before.procs;
    }

    /** The text of an error, scrubbed and then cut. */
    method ErrorText(text: string) returns (shown: string)
      requires secrets.Valid()
      ensures |shown| <= 500 && forall v :: v in secrets.values && Clean(v) ==> !Occurs(shown, v)
      ensures Scrubbed(shown, text, secrets.values)
    {
      var r, order := secrets.Redact(text);
      shown := r[..if |r| <= ERROR_TEXT_LIMIT then |r| else ERROR_TEXT_LIMIT];
      assert Lists(order, secrets.values) && shown <= RedactAll(text, order);
    }

    /** The answer to a request whose run has ended. */
    method Answer(ending: Ending) returns (response: Response)
      requires secrets.Valid()
      ensures response.status in {200, 500} && Discreet(response, secrets.values)
      ensures Tells(response, ending, secrets.values)
    {
      NoSecretInNothing(secrets);
      if ending.Completed? {
        var error := ending.error;
        if error.Some? && error.value != "" {
          var shown := ErrorText(error.value);
          error := Some(shown);
        }
        response := Response(if ending.error.None? then 200 else 500, error, ending.remaining);
      } else {
        var shown := ErrorText(ending.text);
        response := Response(500, Some(shown), 0);
      }
    }

    /** The rest of the request: its run makes its last step, with a result or an exception,
        or is cut down; the lock is released whatever it was, and the answer goes out. */
    method End(pid: Pid, ending: Ending, ghost a: Action, ghost s: State) returns (response: Response)
      requires Valid() && secrets.Valid() && pid in Current().procs
      requires GoesOn(a) && a.pid == pid && Next(opts, false, Current(), a, s) && pid !in s.procs
      modifies this
      ensures Valid() && !runLock && actions == old(actions) + [a] && Current() == s && s.procs == map[]
      ensures Notice(response).ok <==> ending.Completed? && ending.error.None?
      ensures Notice(response).ok ==> Notice(response).remaining == ending.remaining
      ensures !Notice(response).busy && response.status in {200, 500} && Discreet(response, secrets.values)
      ensures Tells(response, ending, secrets.values)
    {
      response := Answer(ending);
      LastOneGone(Current().procs, s.procs, pid, opts, Current(), a, s);
      Note(a, s);
      runLock := false;
    }
  }

  lemma NoSecretInNothing(secrets: SecretRegistry)
    requires secrets.Valid()
    ensures forall v :: v in secrets.values ==> !Occurs("", v)
  {
  }

  /** When the only run goes, none is left. */
  lemma LastOneGone(
    before: map<Pid, Control>, after: map<Pid, Control>, pid: Pid, opts: Options, s: State, a: Action, s': State)
    requires before == s.procs && after == s'.procs && pid in before && pid !in after
    requires forall p, q :: p in before && q in before ==> p == q
    requires GoesOn(a) && a.pid == pid && Next(opts, false, s, a, s')
    ensures after == map[] && Next(opts, true, s, a, s')
  {
    assert after.Keys == before.Keys - {pid};
    assert after.Keys == {};
  }

  /** Whatever requests came and however they were interleaved, runs took turns, so that the
      bound on duplicates, which rests on that, applies. */
  lemma RunsTakeTurns(endpoint: Endpoint)
    requires endpoint.Valid()
    ensures forall i :: 0 <= i < |endpoint.states| ==> |endpoint.states[i].procs| <= 1
    ensures forall i, u :: 0 <= i < |endpoint.states| ==>
      Duplicates.Count(endpoint.states[i].box, u) <= 1 + endpoint.states[i].faults[u]
  {
    Duplicates.DuplicateBound(endpoint.opts, endpoint.states, endpoint.actions);
    forall i | 0 <= i < |endpoint.states| ensures |endpoint.states[i].procs| <= 1 {
      AtMostOne(endpoint.opts, endpoint.states, endpoint.actions, i);
    }
  }

  lemma AtMostOne(opts: Options, states: seq<State>, actions: seq<Action>, i: nat)
    requires Behavior(opts, true, states, actions) && i < |states|
    ensures |states[i].procs| <= 1
  {
    Duplicates.TurnsTaken(opts, states, actions, i);
    var procs := states[i].procs;
    if procs != map[] {
      var p :| p in procs;
      assert procs.Keys == {p};
      assert |procs| == |procs.Keys|;
    }
  }
}
