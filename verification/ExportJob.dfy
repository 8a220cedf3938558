/** One report export job: leases with generations, the journal of external effects, publication
    and compensation.  internal/reportexport/lifecycle.go, internal/reportexport/reconcile.go.
    Every transaction holds the job row, so it is one step; the calls it makes may fail, lose
    their answer or be executed late, and its commit may fail or go unreported. */
module ExportJob {
  import opened Tables
  import opened FileGateway

  datatype JobStatus = Pending | Processing | Ready | Failed

  datatype EffectState = Prepared | Intent | Published | Compensated

  datatype Effect = Effect(state: EffectState, file: Option<Id>)

  /** How far the worker that claimed a generation has come. */
  datatype Stage = Claimed | HasPrepared | HasIntent | Uploaded(file: Id) | HasBound(file: Id) | Failing | Stopped

  datatype Job = Job(status: JobStatus, generation: nat, until: int, published: Option<Id>)

  /** `publishes` counts committed publications; it is history, not a column. */
  datatype World = World(
    now: int, job: Job, effects: map<nat, Effect>, stages: map<nat, Stage>,
    gw: Gateway<nat>, sent: set<Message<nat>>, publishes: nat)

  datatype Commit = Confirmed | Unconfirmed | RolledBack

  datatype Move =
    | Tick(elapsed: nat)
    | Claim(lease: nat)
    | Renew(run: nat, lease: nat)
    | Prepare(run: nat, lease: nat, commit: Commit)
    | MarkIntent(run: nat, lease: nat, commit: Commit)
    | Upload(run: nat, lease: nat, chosen: Id, reached: bool, answered: bool, commit: Commit)
    | Bind(run: nat, lease: nat, reached: bool, answered: bool, commit: Commit)
    | Publish(run: nat, commit: Commit)
    | Fail(run: nat)
    | Stop(run: nat)
    | Reconcile(run: nat, retireReached: bool, retireAnswered: bool, releaseReached: bool, releaseAnswered: bool, commit: Commit)
    | Deliver(message: Message<nat>, chosen: Id)

  // ---------- leases

  predicate Leased(w: World, g: nat) {
    w.job.status == Processing && w.job.generation == g && w.now < w.job.until
  }

  /** Can never be leased again: renewing needs a running lease, claiming raises the generation. */
  predicate Expired(w: World, g: nat) {
    g <= w.job.generation && !Leased(w, g)
  }

  function Extended(w: World, lease: nat): World {
    var until := if w.now + lease < w.job.until + 1 then w.job.until + 1 else w.now + lease;
    w.(job := w.job.(until := until))
  }

  predicate At(w: World, g: nat, s: Stage) {
    g in w.stages && w.stages[g] == s
  }

  function SetStage(w: World, g: nat, s: Stage): World {
    w.(stages := w.stages[g := s])
  }

  function SetEffect(w: World, g: nat, e: Effect): World {
    w.(effects := w.effects[g := e])
  }

  /** Puts a request on the wire; if it reaches the gateway it is executed at once. */
  function Call(w: World, m: Message<nat>, chosen: Id, reached: bool): World {
    w.(sent := w.sent + {m}, gw := if reached then Execute(w.gw, m, chosen) else w.gw)
  }

  /** The state after the transaction `before` to `after`, for a worker that goes to `next`
      when the commit is confirmed and to `otherwise` when it sees an error. */
  function Commits(before: World, after: World, g: nat, c: Commit, next: Stage, otherwise: Stage): World {
    match c
    case Confirmed => SetStage(after, g, next)
    case Unconfirmed => SetStage(after, g, otherwise)
    case RolledBack => SetStage(before, g, otherwise)
  }

  // ---------- the moves

  function ClaimMove(w: World, lease: nat): World {
    if w.job.status == Pending || (w.job.status == Processing && w.job.until < w.now) then
      var g := w.job.generation + 1;
      SetStage(w.(job := w.job.(status := Processing, generation := g, until := w.now + lease)), g, Claimed)
    else w
  }

  function PrepareMove(w: World, g: nat, lease: nat, c: Commit): World {
    if Leased(w, g) && At(w, g, Claimed) && g !in w.effects then
      Commits(w, SetEffect(Extended(w, lease), g, Effect(Prepared, None)), g, c, HasPrepared, Stopped)
    else w
  }

  function IntentMove(w: World, g: nat, lease: nat, c: Commit): World {
    if Leased(w, g) && At(w, g, HasPrepared) && g in w.effects && w.effects[g].state == Prepared then
      Commits(w, SetEffect(Extended(w, lease), g, w.effects[g].(state := Intent)), g, c, HasIntent, Stopped)
    else w
  }

  function UploadMove(w: World, g: nat, lease: nat, chosen: Id, reached: bool, answered: bool, c: Commit): World {
    if Leased(w, g) && At(w, g, HasIntent) then
      var called := Call(w, UploadMsg(g), chosen, reached);
      var answer := if reached && answered then UploadAnswer(called.gw, g) else None;
      if answer.None? || g !in w.effects || w.effects[g].state != Intent then SetStage(called, g, Failing)
      else Commits(called, SetEffect(Extended(called, lease), g, w.effects[g].(file := answer)), g, c, Uploaded(answer.value), Failing)
    else w
  }

  function BindMove(w: World, g: nat, lease: nat, reached: bool, answered: bool, c: Commit): World {
    if Leased(w, g) && g in w.stages && w.stages[g].Uploaded? then
      var f := w.stages[g].file;
      var called := Call(w, BindMsg(f), f, reached);
      if !(reached && answered && f in called.gw.bound) then SetStage(called, g, Failing)
      else Commits(called, Extended(called, lease), g, c, HasBound(f), Failing)
    else w
  }

  /** A bound file is published with the job; without a file gateway, or in dual mode after a
      failed call, the job is published without a file and the journal is left to recovery. */
  function PublishMove(w: World, g: nat, c: Commit): World {
    if Leased(w, g) && g in w.stages && (w.stages[g].HasBound? || w.stages[g] in {Claimed, Failing}) then
      var file := if w.stages[g].HasBound? then Some(w.stages[g].file) else None;
      var ready := w.(job := w.job.(status := Ready, published := file), publishes := w.publishes + 1);
      if file.None? then Commits(w, ready, g, c, Stopped, Stopped)
      else if g !in w.effects then SetStage(w, g, Stopped)
      else Commits(w, SetEffect(ready, g, w.effects[g].(state := Published)), g, c, Stopped, Stopped)
    else w
  }

  function FailMove(w: World, g: nat): World {
    if Leased(w, g) && g in w.stages && w.stages[g] != Stopped
    then SetStage(w.(job := w.job.(status := Failed)), g, Stopped) else w
  }

  /** After the key is retired: release its file, if it has one, and record the outcome. */
  function Compensation(w: World, g: nat, state: EffectState, file: Option<Id>, reached: bool, answered: bool, commits: bool): World {
    if file.None? then
      if commits then SetEffect(w, g, Effect(Compensated, None)) else w
    else
      var released := Call(w, ReleaseMsg(file.value), NOBODY, reached);
      if !commits then released
      else SetEffect(released, g, Effect(if reached && answered then Compensated else state, file))
  }

  /** `reconcileEffect` on an effect whose lease is gone. */
  function ReconcileMove(w: World, g: nat, retireReached: bool, retireAnswered: bool,
                         releaseReached: bool, releaseAnswered: bool, commits: bool): World {
    if g !in w.effects || w.effects[g].state !in {Prepared, Intent} || !Expired(w, g) then w
    else
      var e := w.effects[g];
      if w.job.status == Ready && w.job.generation == g && w.job.published.Some? && w.job.published == e.file then
        if commits then SetEffect(w, g, e.(state := Published)) else w
      else
        var retired := Call(w, RetireMsg(g), NOBODY, retireReached);
        var answer := RetireAnswer(retired.gw, g);
        if !(retireReached && retireAnswered) || (e.file.Some? && e.file != answer) then retired
        else Compensation(retired, g, e.state, answer, releaseReached, releaseAnswered, commits)
  }

  function Next(w: World, m: Move): World {
    match m
    case Tick(elapsed) => w.(now := w.now + elapsed)
    case Claim(lease) => ClaimMove(w, lease)
    case Renew(g, lease) => if Leased(w, g) then Extended(w, lease) else w
    case Prepare(g, lease, c) => PrepareMove(w, g, lease, c)
    case MarkIntent(g, lease, c) => IntentMove(w, g, lease, c)
    case Upload(g, lease, chosen, reached, answered, c) => UploadMove(w, g, lease, chosen, reached, answered, c)
    case Bind(g, lease, reached, answered, c) => BindMove(w, g, lease, reached, answered, c)
    case Publish(g, c) => PublishMove(w, g, c)
    case Fail(g) => FailMove(w, g)
    case Stop(g) => SetStage(w, g, Stopped)
    case Reconcile(g, a, b, c, d, commit) => ReconcileMove(w, g, a, b, c, d, commit != RolledBack)
    case Deliver(x, chosen) => if x in w.sent then w.(gw := Execute(w.gw, x, chosen)) else w
  }

  const START := World(0, Job(Pending, 0, 0, None), map[], map[], Gateway(map[], {}, {}, {}), {}, 0)

  ghost function RunFrom(w: World, moves: seq<Move>): World {
    if moves == [] then w else Next(RunFrom(w, moves[..|moves| - 1]), moves[|moves| - 1])
  }

  // ---------- the invariant

  predicate RetireSent(w: World, g: nat) {
    RetireMsg(g) in w.sent
  }

  predicate ReleaseSent(w: World, f: Id) {
    ReleaseMsg(f) in w.sent
  }

  predicate FileKnown(w: World, g: nat, e: Effect) {
    e.file.Some? ==> FileOf(w.gw, g, e.file.value)
  }

  predicate EffectSound(w: World, g: nat)
    requires g in w.effects
  {
    var e := w.effects[g];
    && g <= w.job.generation
    && FileKnown(w, g, e)
    && match e.state
       case Prepared => g !in w.gw.files && UploadMsg(g) !in w.sent
       case Intent => true
       case Published =>
         && w.job.status == Ready && w.job.generation == g && w.job.published == e.file && e.file.Some?
         && e.file.value in w.gw.bound && !ReleaseSent(w, e.file.value) && !RetireSent(w, g)
       case Compensated =>
         && RetireSent(w, g) && g in w.gw.retired && (g in w.gw.files ==> w.gw.files[g] in w.gw.released)
  }

  /** Who caused what is at the gateway or on the wire for one key. */
  predicate KeySound(w: World, g: nat) {
    && (RetireSent(w, g) ==> g in w.effects && Expired(w, g))
    && (g in w.gw.retired ==> RetireSent(w, g))
    && (g in w.gw.files ==> UploadMsg(g) in w.sent)
    && (UploadMsg(g) in w.sent ==> g in w.effects)
  }

  predicate Justified(w: World, g: nat, f: Id) {
    FileOf(w.gw, g, f) && RetireSent(w, g)
  }

  ghost predicate ReleaseSound(w: World, f: Id) {
    && (f in w.gw.released ==> ReleaseSent(w, f))
    && (ReleaseSent(w, f) ==> exists g :: Justified(w, g, f))
  }

  predicate StageSound(w: World, g: nat)
    requires g in w.stages
  {
    match w.stages[g]
    case HasIntent => g in w.effects && w.effects[g].state != Prepared
    case Uploaded(f) => FileOf(w.gw, g, f) && g in w.effects && w.effects[g].file == Some(f)
    case HasBound(f) => FileOf(w.gw, g, f) && g in w.effects && w.effects[g].file == Some(f) && (f in w.gw.bound || ReleaseSent(w, f))
    case _ => true
  }

  predicate JobSound(w: World) {
    && w.publishes == (if w.job.status == Ready then 1 else 0)
    && (w.job.published.Some? ==>
          && w.job.status == Ready && w.job.generation in w.effects
          && w.effects[w.job.generation] == Effect(Published, w.job.published))
  }

  ghost predicate Inv(w: World) {
    && GatewaySound(w.gw) && JobSound(w)
    && (forall g {:trigger EffectSound(w, g)} :: g in w.effects ==> EffectSound(w, g))
    && (forall g {:trigger KeySound(w, g)} :: KeySound(w, g))
    && (forall f {:trigger ReleaseSound(w, f)} :: ReleaseSound(w, f))
    && (forall g {:trigger StageSound(w, g)} :: g in w.stages ==> StageSound(w, g))
  }

  // ---------- the wire and the gateway

  /** Executing a sent request, at any time and any number of times, keeps the invariant. */
  lemma ExecuteSentKeeps(w: World, m: Message<nat>, chosen: Id)
    requires Inv(w) && m in w.sent
    ensures Inv(w.(gw := Execute(w.gw, m, chosen)))
  {
    var n := w.(gw := Execute(w.gw, m, chosen));
    ExecuteKeeps(w.gw, m, chosen);
    forall g ensures KeySound(n, g) { assert KeySound(w, g); }
    forall g | g in n.effects ensures EffectSound(n, g) {
      assert EffectSound(w, g) && KeySound(w, g);
      ExecuteKeepsEffect(w, m, chosen, g);
    }
    forall f ensures ReleaseSound(n, f) {
      assert ReleaseSound(w, f);
      if g :| Justified(w, g, f) { assert Justified(n, g, f); }
    }
    forall g | g in n.stages ensures StageSound(n, g) { assert StageSound(w, g); }
  }

  lemma ExecuteKeepsEffect(w: World, m: Message<nat>, chosen: Id, g: nat)
    requires m in w.sent && g in w.effects && EffectSound(w, g) && GatewaySound(w.gw)
    ensures EffectSound(w.(gw := Execute(w.gw, m, chosen)), g)
  {
  }

  predicate MaySend(w: World, m: Message<nat>) {
    match m
    case UploadMsg(g) => g in w.effects && w.effects[g].state == Intent
    case BindMsg(f) => true
    case RetireMsg(g) => g in w.effects && w.effects[g].state != Published && Expired(w, g)
    case ReleaseMsg(f) => exists g :: g in w.effects && w.effects[g].state != Published && Justified(w, g, f)
  }

  lemma CallKeeps(w: World, m: Message<nat>, chosen: Id, reached: bool)
    requires Inv(w) && MaySend(w, m)
    ensures Inv(Call(w, m, chosen, reached))
  {
    var n := w.(sent := w.sent + {m});
    forall g ensures KeySound(n, g) { assert KeySound(w, g); }
    forall g | g in n.effects ensures EffectSound(n, g) {
      assert EffectSound(w, g);
      if w.effects[g].state == Published { OthersMayNotRelease(w, m, g); }
    }
    forall f ensures ReleaseSound(n, f) {
      assert ReleaseSound(w, f);
      if g :| Justified(w, g, f) { assert Justified(n, g, f); }
      if m == ReleaseMsg(f) {
        var g :| g in w.effects && w.effects[g].state != Published && Justified(w, g, f);
        assert Justified(n, g, f);
      }
    }
    forall g | g in n.stages ensures StageSound(n, g) { assert StageSound(w, g); }
    if reached { ExecuteSentKeeps(n, m, chosen); }
  }

  lemma OthersMayNotRelease(w: World, m: Message<nat>, g: nat)
    requires Inv(w) && MaySend(w, m) && g in w.effects && w.effects[g].state == Published
    ensures w.effects[g].file.Some? && m != RetireMsg(g) && m != ReleaseMsg(w.effects[g].file.value)
  {
    assert EffectSound(w, g);
    assert FileOf(w.gw, g, w.effects[g].file.value);
  }

  // ---------- the rows

  /** Nothing but job, clock and stages changes, the published job stays, and what could not
      be leased before cannot be leased after. */
  lemma JobStepKeeps(w: World, n: World)
    requires Inv(w) && n == w.(now := n.now, job := n.job, stages := n.stages, publishes := n.publishes)
    requires w.job.generation <= n.job.generation && JobSound(n)
    requires w.job.status == Ready ==> n.job == w.job
    requires forall g :: Expired(w, g) ==> Expired(n, g)
    requires forall g {:trigger StageSound(n, g)} :: g in n.stages ==> StageSound(n, g)
    ensures Inv(n)
  {
    forall g ensures KeySound(n, g) { assert KeySound(w, g); }
    forall g | g in n.effects ensures EffectSound(n, g) { assert EffectSound(w, g); }
    forall f ensures ReleaseSound(n, f) {
      assert ReleaseSound(w, f);
      if g :| Justified(w, g, f) { assert Justified(n, g, f); }
    }
  }

  lemma SetStageKeeps(w: World, g: nat, s: Stage)
    requires Inv(w) && StageSound(SetStage(w, g, s), g)
    ensures Inv(SetStage(w, g, s))
  {
    var n := SetStage(w, g, s);
    forall x | x in n.stages ensures StageSound(n, x) { assert x != g ==> StageSound(w, x); }
    JobStepKeeps(w, n);
  }

  lemma ExtendedKeeps(w: World, lease: nat, g: nat)
    requires Inv(w) && Leased(w, g)
    ensures Inv(Extended(w, lease)) && Leased(Extended(w, lease), g)
  {
    var n := Extended(w, lease);
    forall x | x in n.stages ensures StageSound(n, x) { assert StageSound(w, x); }
    JobStepKeeps(w, n);
  }

  /** One effect row changes; a file identity in it is never lost. */
  lemma SetEffectKeeps(w: World, g: nat, e: Effect)
    requires Inv(w) && EffectSound(SetEffect(w, g, e), g)
    requires g in w.effects ==>
      && (w.effects[g].file.Some? ==> e.file == w.effects[g].file)
      && w.effects[g].state != Published && (w.effects[g].state != Prepared ==> e.state != Prepared)
    ensures Inv(SetEffect(w, g, e))
  {
    var n := SetEffect(w, g, e);
    forall x ensures KeySound(n, x) { assert KeySound(w, x); }
    forall x | x in n.effects ensures EffectSound(n, x) { assert x != g ==> EffectSound(w, x); }
    forall f ensures ReleaseSound(n, f) {
      assert ReleaseSound(w, f);
      if x :| Justified(w, x, f) { assert Justified(n, x, f); }
    }
    forall x | x in n.stages ensures StageSound(n, x) { assert StageSound(w, x); }
  }

  lemma CommitsKeeps(before: World, after: World, g: nat, c: Commit, next: Stage, otherwise: Stage)
    requires Inv(before) && Inv(after) && otherwise in {Stopped, Failing}
    requires c.Confirmed? ==> StageSound(SetStage(after, g, next), g)
    ensures Inv(Commits(before, after, g, c, next, otherwise))
  {
    match c
    case Confirmed => SetStageKeeps(after, g, next);
    case Unconfirmed => SetStageKeeps(after, g, otherwise);
    case RolledBack => SetStageKeeps(before, g, otherwise);
  }

  // ---------- every move

  lemma ClaimKeeps(w: World, lease: nat)
    requires Inv(w)
    ensures Inv(ClaimMove(w, lease))
  {
    var n := ClaimMove(w, lease);
    forall g | g in n.stages ensures StageSound(n, g) { assert g in w.stages ==> StageSound(w, g); }
    if n != w { JobStepKeeps(w, n); }
  }

  lemma PrepareKeeps(w: World, g: nat, lease: nat, c: Commit)
    requires Inv(w)
    ensures Inv(PrepareMove(w, g, lease, c))
  {
    if Leased(w, g) && At(w, g, Claimed) && g !in w.effects {
      var x := Extended(w, lease);
      ExtendedKeeps(w, lease, g);
      assert KeySound(x, g);
      SetEffectKeeps(x, g, Effect(Prepared, None));
      CommitsKeeps(w, SetEffect(x, g, Effect(Prepared, None)), g, c, HasPrepared, Stopped);
    }
  }

  lemma IntentKeeps(w: World, g: nat, lease: nat, c: Commit)
    requires Inv(w)
    ensures Inv(IntentMove(w, g, lease, c))
  {
    if Leased(w, g) && At(w, g, HasPrepared) && g in w.effects && w.effects[g].state == Prepared {
      var x := Extended(w, lease);
      ExtendedKeeps(w, lease, g);
      assert EffectSound(x, g);
      var e := x.effects[g].(state := Intent);
      SetEffectKeeps(x, g, e);
      CommitsKeeps(w, SetEffect(x, g, e), g, c, HasIntent, Stopped);
    }
  }

  /** While a generation is leased nothing was retired or released for it. */
  lemma LeasedIsUntouched(w: World, g: nat)
    requires Inv(w) && Leased(w, g)
    ensures !RetireSent(w, g) && g !in w.gw.retired
    ensures g in w.effects ==> w.effects[g].state in {Prepared, Intent}
    ensures g in w.gw.files ==> !ReleaseSent(w, w.gw.files[g])
  {
    assert KeySound(w, g);
    if g in w.effects { assert EffectSound(w, g); }
    if g in w.gw.files {
      var f := w.gw.files[g];
      assert ReleaseSound(w, f) && FileOf(w.gw, g, f);
      forall j ensures !Justified(w, j, f) {
        assert FileOf(w.gw, j, f) ==> j == g;
      }
    }
  }

  lemma UploadKeeps(w: World, g: nat, lease: nat, chosen: Id, reached: bool, answered: bool, c: Commit)
    requires Inv(w)
    ensures Inv(UploadMove(w, g, lease, chosen, reached, answered, c))
  {
    if Leased(w, g) && At(w, g, HasIntent) {
      LeasedIsUntouched(w, g);
      assert StageSound(w, g);
      var called := Call(w, UploadMsg(g), chosen, reached);
      CallKeeps(w, UploadMsg(g), chosen, reached);
      SetStageKeeps(called, g, Failing);
      var answer := if reached && answered then UploadAnswer(called.gw, g) else None;
      if answer.Some? && w.effects[g].state == Intent {
        var x := Extended(called, lease);
        ExtendedKeeps(called, lease, g);
        assert EffectSound(x, g);
        var e := w.effects[g].(file := answer);
        SetEffectKeeps(x, g, e);
        CommitsKeeps(called, SetEffect(x, g, e), g, c, Uploaded(answer.value), Failing);
      }
    }
  }

  lemma BindKeeps(w: World, g: nat, lease: nat, reached: bool, answered: bool, c: Commit)
    requires Inv(w)
    ensures Inv(BindMove(w, g, lease, reached, answered, c))
  {
    if Leased(w, g) && g in w.stages && w.stages[g].Uploaded? {
      var f := w.stages[g].file;
      assert StageSound(w, g);
      var called := Call(w, BindMsg(f), f, reached);
      CallKeeps(w, BindMsg(f), f, reached);
      SetStageKeeps(called, g, Failing);
      if reached && answered && f in called.gw.bound {
        ExtendedKeeps(called, lease, g);
        CommitsKeeps(called, Extended(called, lease), g, c, HasBound(f), Failing);
      }
    }
  }

  /** The rows that a publication writes together are sound. */
  lemma PublishedTogether(w: World, g: nat)
    requires Inv(w) && Leased(w, g) && g in w.stages && w.stages[g].HasBound?
    ensures var f := w.stages[g].file;
      g in w.effects && w.effects[g] == Effect(Intent, Some(f)) && f in w.gw.bound
    ensures Inv(SetEffect(w.(job := w.job.(status := Ready, published := Some(w.stages[g].file)), publishes := w.publishes + 1),
                          g, w.effects[g].(state := Published)))
  {
    LeasedIsUntouched(w, g);
    assert StageSound(w, g) && EffectSound(w, g);
    var n := SetEffect(w.(job := w.job.(status := Ready, published := Some(w.stages[g].file)), publishes := w.publishes + 1),
                       g, w.effects[g].(state := Published));
    forall x ensures KeySound(n, x) { assert KeySound(w, x); }
    forall x | x in n.effects ensures EffectSound(n, x) { assert EffectSound(w, x); }
    forall f ensures ReleaseSound(n, f) {
      assert ReleaseSound(w, f);
      if x :| Justified(w, x, f) { assert Justified(n, x, f); }
    }
    forall x | x in n.stages ensures StageSound(n, x) { assert StageSound(w, x); }
  }

  lemma PublishKeeps(w: World, g: nat, c: Commit)
    requires Inv(w)
    ensures Inv(PublishMove(w, g, c))
  {
    if Leased(w, g) && g in w.stages && (w.stages[g].HasBound? || w.stages[g] in {Claimed, Failing}) {
      if w.stages[g].HasBound? {
        PublishedTogether(w, g);
        var ready := w.(job := w.job.(status := Ready, published := Some(w.stages[g].file)), publishes := w.publishes + 1);
        CommitsKeeps(w, SetEffect(ready, g, w.effects[g].(state := Published)), g, c, Stopped, Stopped);
      } else {
        var ready := w.(job := w.job.(status := Ready, published := None), publishes := w.publishes + 1);
        forall x | x in ready.stages ensures StageSound(ready, x) { assert StageSound(w, x); }
        JobStepKeeps(w, ready);
        CommitsKeeps(w, ready, g, c, Stopped, Stopped);
      }
    }
  }

  lemma FailKeeps(w: World, g: nat)
    requires Inv(w)
    ensures Inv(FailMove(w, g))
  {
    var n := FailMove(w, g);
    forall x | x in n.stages ensures StageSound(n, x) { assert x in w.stages ==> StageSound(w, x); }
    if n != w { JobStepKeeps(w, n); }
  }

  // ---------- recovery

  /** The branch of the recovery that would publish late is unreachable. */
  lemma LatePublicationUnreachable(w: World, g: nat)
    requires Inv(w) && g in w.effects && w.effects[g].state in {Prepared, Intent}
    ensures !(w.job.status == Ready && w.job.generation == g && w.job.published.Some? && w.job.published == w.effects[g].file)
  {
  }

  /** So is the mismatch between the recorded and the retired file. */
  lemma RetirementAgrees(w: World, g: nat)
    requires Inv(w) && g in w.effects
    ensures w.effects[g].file.Some? ==> RetireAnswer(w.gw, g) == w.effects[g].file
  {
    assert EffectSound(w, g);
  }

  lemma ReconcileKeeps(w: World, g: nat, retireReached: bool, retireAnswered: bool, releaseReached: bool, releaseAnswered: bool, commits: bool)
    requires Inv(w)
    ensures Inv(ReconcileMove(w, g, retireReached, retireAnswered, releaseReached, releaseAnswered, commits))
  {
    if g in w.effects && w.effects[g].state in {Prepared, Intent} && Expired(w, g) {
      LatePublicationUnreachable(w, g);
      var retired := Call(w, RetireMsg(g), NOBODY, retireReached);
      CallKeeps(w, RetireMsg(g), NOBODY, retireReached);
      if retireReached && retireAnswered { CompensateKeeps(w, g, releaseReached, releaseAnswered, commits); }
    }
  }

  lemma CompensateKeeps(w: World, g: nat, releaseReached: bool, releaseAnswered: bool, commits: bool)
    requires Inv(w) && g in w.effects && w.effects[g].state in {Prepared, Intent} && Expired(w, g)
    requires Inv(Call(w, RetireMsg(g), NOBODY, true))
    ensures Inv(ReconcileMove(w, g, true, true, releaseReached, releaseAnswered, commits))
  {
    LatePublicationUnreachable(w, g);
    var retired := Call(w, RetireMsg(g), NOBODY, true);
    RetirementAgrees(retired, g);
    assert EffectSound(retired, g);
    if g !in retired.gw.files {
      SetEffectKeeps(retired, g, Effect(Compensated, None));
    } else {
      var f := retired.gw.files[g];
      assert Justified(retired, g, f);
      var released := Call(retired, ReleaseMsg(f), NOBODY, releaseReached);
      CallKeeps(retired, ReleaseMsg(f), NOBODY, releaseReached);
      assert EffectSound(released, g);
      SetEffectKeeps(released, g, Effect(if releaseReached && releaseAnswered then Compensated else w.effects[g].state, Some(f)));
    }
  }

  // ---------- every run

  lemma NextKeeps(w: World, m: Move)
    requires Inv(w)
    ensures Inv(Next(w, m))
  {
    match m
    case Tick(elapsed) =>
      var n := Next(w, m);
      forall x | x in n.stages ensures StageSound(n, x) { assert StageSound(w, x); }
      JobStepKeeps(w, n);
    case Claim(lease) => ClaimKeeps(w, lease);
    case Renew(g, lease) => if Leased(w, g) { ExtendedKeeps(w, lease, g); }
    case Prepare(g, lease, c) => PrepareKeeps(w, g, lease, c);
    case MarkIntent(g, lease, c) => IntentKeeps(w, g, lease, c);
    case Upload(g, lease, chosen, reached, answered, c) => UploadKeeps(w, g, lease, chosen, reached, answered, c);
    case Bind(g, lease, reached, answered, c) => BindKeeps(w, g, lease, reached, answered, c);
    case Publish(g, c) => PublishKeeps(w, g, c);
    case Fail(g) => FailKeeps(w, g);
    case Stop(g) => SetStageKeeps(w, g, Stopped);
    case Reconcile(g, a, b, c, d, commit) => ReconcileKeeps(w, g, a, b, c, d, !commit.RolledBack?);
    case Deliver(x, chosen) => if x in w.sent { ExecuteSentKeeps(w, x, chosen); }
  }

  lemma {:induction false} RunKeeps(moves: seq<Move>)
    ensures Inv(RunFrom(START, moves))
  {
    if moves != [] {
      RunKeeps(moves[..|moves| - 1]);
      NextKeeps(RunFrom(START, moves[..|moves| - 1]), moves[|moves| - 1]);
    }
  }

  /** A job publishes at most once, in every interleaving of workers, crashes, expiring
      leases, failed commits, recoveries and late messages. */
  lemma PublishesAtMostOnce(moves: seq<Move>)
    ensures RunFrom(START, moves).publishes <= 1
    ensures RunFrom(START, moves).publishes == 1 <==> RunFrom(START, moves).job.status == Ready
  {
    RunKeeps(moves);
  }

  /** The binding of a published generation is live, was never released, and no request
      that could release it is on the wire. */
  lemma PublishedStaysBound(moves: seq<Move>, g: nat)
    requires var w := RunFrom(START, moves); g in w.effects && w.effects[g].state == Published
    ensures var w := RunFrom(START, moves);
      && w.job.status == Ready && w.job.published == w.effects[g].file && w.effects[g].file.Some?
      && var f := w.effects[g].file.value;
      && FileOf(w.gw, g, f) && f in w.gw.bound && f !in w.gw.released && ReleaseMsg(f) !in w.sent
  {
    RunKeeps(moves);
    var w := RunFrom(START, moves);
    assert EffectSound(w, g) && ReleaseSound(w, w.effects[g].file.value);
  }

  /** Once no effect is open, the live bindings of the job are exactly its published file,
      or none: whatever is still on the wire changes nothing. */
  lemma SettledBindings(moves: seq<Move>)
    requires forall g :: g in RunFrom(START, moves).effects ==> RunFrom(START, moves).effects[g].state in {Published, Compensated}
    ensures var w := RunFrom(START, moves);
      w.gw.bound == if w.job.published.Some? then {w.job.published.value} else {}
  {
    RunKeeps(moves);
    BoundIsPublished(RunFrom(START, moves));
  }

  lemma BoundIsPublished(w: World)
    requires Inv(w) && forall g :: g in w.effects ==> w.effects[g].state in {Published, Compensated}
    ensures w.gw.bound == if w.job.published.Some? then {w.job.published.value} else {}
  {
    forall f | f in w.gw.bound ensures w.job.published == Some(f) {
      var g :| g in w.gw.files && w.gw.files[g] == f;
      assert KeySound(w, g) && EffectSound(w, g);
    }
    if w.job.published.Some? { assert EffectSound(w, w.job.generation); }
  }

  /** A published job is final: no move touches its row again. */
  lemma ReadyIsFinal(w: World, m: Move)
    requires w.job.status == Ready
    ensures Next(w, m).job == w.job && Next(w, m).publishes == w.publishes
  {
  }
}
