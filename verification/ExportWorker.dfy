/** The export worker and its recovery as they update job, journal and gateway, with the outcome of
    every call and commit given from outside.  internal/reportexport/lifecycle.go, reconcile.go */
module ExportWorker {
  import opened Tables
  import opened FileGateway
  import E = ExportJob

  /** One job row, its effect rows, and what the worker and the gateway hold. */
  class Store {
    var now: int
    var job: E.Job
    var effects: map<nat, E.Effect>
    var stages: map<nat, E.Stage>
    var gw: Gateway<nat>
    var sent: set<Message<nat>>
    var publishes: nat

    function State(): E.World
      reads this
    {
      E.World(now, job, effects, stages, gw, sent, publishes)
    }

    method Claim(lease: nat) returns (claimed: bool)
      modifies this
      ensures State() == E.ClaimMove(old(State()), lease)
      ensures claimed <==> job.generation == old(job.generation) + 1
    {
      if job.status == E.Pending || (job.status == E.Processing && job.until < now) {
        var generation := job.generation + 1;
        job := job.(status := E.Processing, generation := generation, until := now + lease);
        stages := stages[generation := E.Claimed];
        return true;
      }
      claimed := false;
    }

    /** The conditional update every leased transaction starts with. */
    method Renew(g: nat, lease: nat) returns (ok: bool)
      modifies this`job
      ensures ok <==> E.Leased(old(State()), g)
      ensures State() == if ok then E.Extended(old(State()), lease) else old(State())
    {
      if job.status != E.Processing || job.generation != g || now >= job.until { return false; }
      job := job.(until := if now + lease < job.until + 1 then job.until + 1 else now + lease);
      ok := true;
    }

    /** Puts a request on the wire. */
    method Send(m: Message<nat>, chosen: Id, reached: bool)
      modifies this`gw, this`sent
      ensures State() == E.Call(old(State()), m, chosen, reached)
    {
      sent := sent + {m};
      if reached { gw := Execute(gw, m, chosen); }
    }

    method PrepareEffect(g: nat, lease: nat, commit: E.Commit)
      modifies this
      ensures State() == E.PrepareMove(old(State()), g, lease, commit)
    {
      if !E.At(State(), g, E.Claimed) || g in effects { return; }
      var row := job;
      var ok := Renew(g, lease);
      if !ok { return; }
      if commit == E.RolledBack {
        job := row;
        stages := stages[g := E.Stopped];
      } else {
        effects := effects[g := E.Effect(E.Prepared, None)];
        stages := stages[g := if commit == E.Commit.Confirmed then E.HasPrepared else E.Stopped];
      }
    }

    method MarkIntent(g: nat, lease: nat, commit: E.Commit)
      modifies this
      ensures State() == E.IntentMove(old(State()), g, lease, commit)
    {
      if !E.At(State(), g, E.HasPrepared) || g !in effects || effects[g].state != E.Prepared { return; }
      var row := job;
      var ok := Renew(g, lease);
      if !ok { return; }
      if commit == E.RolledBack {
        job := row;
        stages := stages[g := E.Stopped];
      } else {
        effects := effects[g := effects[g].(state := E.Intent)];
        stages := stages[g := if commit == E.Commit.Confirmed then E.HasIntent else E.Stopped];
      }
    }

    /** The upload inside its own leased transaction; an error leaves the worker to degrade or fail. */
    method UploadFile(g: nat, lease: nat, chosen: Id, reached: bool, answered: bool, commit: E.Commit)
      modifies this
      ensures State() == E.UploadMove(old(State()), g, lease, chosen, reached, answered, commit)
    {
      if !E.Leased(State(), g) || !E.At(State(), g, E.HasIntent) { return; }
      Send(UploadMsg(g), chosen, reached);
      var answer := if reached && answered then UploadAnswer(gw, g) else None;
      if answer.None? || g !in effects || effects[g].state != E.Intent {
        stages := stages[g := E.Failing];
        return;
      }
      if commit != E.RolledBack {
        var ok := Renew(g, lease);
        effects := effects[g := effects[g].(file := answer)];
      }
      stages := stages[g := if commit == E.Commit.Confirmed then E.Uploaded(answer.value) else E.Failing];
    }

    method BindFile(g: nat, lease: nat, reached: bool, answered: bool, commit: E.Commit)
      modifies this
      ensures State() == E.BindMove(old(State()), g, lease, reached, answered, commit)
    {
      if !E.Leased(State(), g) || g !in stages || !stages[g].Uploaded? { return; }
      var f := stages[g].file;
      Send(BindMsg(f), f, reached);
      if !(reached && answered && f in gw.bound) {
        stages := stages[g := E.Failing];
        return;
      }
      if commit != E.RolledBack { var ok := Renew(g, lease); }
      stages := stages[g := if commit == E.Commit.Confirmed then E.HasBound(f) else E.Failing];
    }

    /** Job and effect rows in one transaction. */
    method Publish(g: nat, commit: E.Commit)
      modifies this
      ensures State() == E.PublishMove(old(State()), g, commit)
    {
      if !E.Leased(State(), g) || g !in stages { return; }
      if !stages[g].HasBound? && stages[g] != E.Claimed && stages[g] != E.Failing { return; }
      var file := if stages[g].HasBound? then Some(stages[g].file) else None;
      stages := stages[g := E.Stopped];
      if commit == E.RolledBack || (file.Some? && g !in effects) { return; }
      job := job.(status := E.Ready, published := file);
      publishes := publishes + 1;
      if file.Some? { effects := effects[g := effects[g].(state := E.Published)]; }
    }

    method FailWithMessage(g: nat)
      modifies this
      ensures State() == E.FailMove(old(State()), g)
    {
      if !E.Leased(State(), g) || g !in stages || stages[g] == E.Stopped { return; }
      job := job.(status := E.Failed);
      stages := stages[g := E.Stopped];
    }

    /** Compensates one abandoned effect: retire the key, release the binding, record what is known. */
    method ReconcileEffect(g: nat, o: Outcomes)
      modifies this
      ensures State() == Reconciled(old(State()), g, o)
    {
      if g !in effects || effects[g].state !in {E.Prepared, E.Intent} || !E.Expired(State(), g) { return; }
      var e := effects[g];
      if job.status == E.Ready && job.generation == g && job.published.Some? && job.published == e.file {
        if o.commits { effects := effects[g := e.(state := E.Published)]; }
        return;
      }
      Send(RetireMsg(g), NOBODY, o.retireReached);
      var answer := RetireAnswer(gw, g);
      if !(o.retireReached && o.retireAnswered) || (e.file.Some? && e.file != answer) { return; }
      Compensate(g, e.state, answer, o);
    }

    method Compensate(g: nat, state: E.EffectState, file: Option<Id>, o: Outcomes)
      modifies this
      ensures State() == E.Compensation(old(State()), g, state, file, o.releaseReached, o.releaseAnswered, o.commits)
    {
      var compensated := true;
      if file.Some? {
        Send(ReleaseMsg(file.value), NOBODY, o.releaseReached);
        compensated := o.releaseReached && o.releaseAnswered;
      }
      if o.commits { effects := effects[g := E.Effect(if compensated then E.Compensated else state, file)]; }
    }

    /** The bounded recovery loop; a failing item does not stop the next. */
    method ReconcileEffects(items: seq<nat>, outcomes: seq<Outcomes>)
      requires |outcomes| == |items|
      modifies this
      ensures State() == ReconciledAll(old(State()), items, outcomes)
    {
      for k := 0 to |items|
        invariant State() == ReconciledAll(old(State()), items[..k], outcomes[..k])
      {
        assert items[..k + 1][..k] == items[..k] && outcomes[..k + 1][..k] == outcomes[..k];
        ReconcileEffect(items[k], outcomes[k]);
      }
      assert items[..|items|] == items && outcomes[..|items|] == outcomes;
    }
  }

  /** How the calls and the commit of one recovery turn out. */
  datatype Outcomes = Outcomes(retireReached: bool, retireAnswered: bool, releaseReached: bool, releaseAnswered: bool, commits: bool)

  function Reconciled(w: E.World, g: nat, o: Outcomes): E.World {
    E.ReconcileMove(w, g, o.retireReached, o.retireAnswered, o.releaseReached, o.releaseAnswered, o.commits)
  }

  function ReconciledAll(w: E.World, items: seq<nat>, outcomes: seq<Outcomes>): E.World
    requires |outcomes| == |items|
  {
    if items == [] then w
    else
      var k := |items| - 1;
      Reconciled(ReconciledAll(w, items[..k], outcomes[..k]), items[k], outcomes[k])
  }

  /** The recovery loop keeps the invariant whatever its calls do. */
  lemma {:induction false} ReconciledAllKeeps(w: E.World, items: seq<nat>, outcomes: seq<Outcomes>)
    requires |outcomes| == |items| && E.Inv(w)
    ensures E.Inv(ReconciledAll(w, items, outcomes))
  {
    if items != [] {
      var k := |items| - 1;
      var o := outcomes[k];
      ReconciledAllKeeps(w, items[..k], outcomes[..k]);
      E.ReconcileKeeps(ReconciledAll(w, items[..k], outcomes[..k]), items[k], o.retireReached, o.retireAnswered, o.releaseReached, o.releaseAnswered, o.commits);
    }
  }
}
