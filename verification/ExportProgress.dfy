/** What the moves of an export job achieve.  `ExportJob` proves what no interleaving breaks; here is what
    a worker whose calls are answered, and a recovery whose calls are answered, bring about. */
module ExportProgress {
  import opened Tables
  import opened FileGateway
  import opened ExportJob

  /** A worker that holds the lease of a bound file publishes exactly that file: job and journal row
      together, once, without another request to the gateway; a rolled-back commit publishes nothing. */
  lemma PublishingPublishes(w: World, g: nat, f: Id, c: Commit)
    requires Inv(w) && Leased(w, g) && At(w, g, HasBound(f))
    ensures var n := Next(w, Publish(g, c));
      if c == RolledBack then n.job == w.job && n.effects == w.effects && n.publishes == w.publishes && n.gw == w.gw && n.sent == w.sent
      else
        && n.job.status == Ready && n.job.published == Some(f) && n.job.generation == g
        && n.effects == w.effects[g := Effect(Published, Some(f))]
        && n.publishes == w.publishes + 1 == 1
        && n.gw == w.gw && n.sent == w.sent && f in n.gw.bound
  {
    PublishedTogether(w, g);
  }

  /** A worker that never uploaded, or whose upload or binding failed, publishes the job without a file,
      and its journal row is left for the recovery. */
  lemma PublishingWithoutFile(w: World, g: nat, c: Commit)
    requires Inv(w) && Leased(w, g) && (At(w, g, Claimed) || At(w, g, Failing)) && c != RolledBack
    ensures var n := Next(w, Publish(g, c));
      && n.job.status == Ready && n.job.published == None && n.publishes == 1
      && n.effects == w.effects && n.gw == w.gw && n.sent == w.sent
  {
  }

  // ---------- one attempt, step by step

  predicate Claimable(w: World) {
    w.job.status == Pending || (w.job.status == Processing && w.job.until < w.now)
  }

  lemma ClaimLeases(w: World, lease: nat)
    requires Inv(w) && Claimable(w) && 0 < lease
    ensures var n := Next(w, Claim(lease)); var g := w.job.generation + 1;
      && Leased(n, g) && At(n, g, Claimed) && n.job.until == w.now + lease
      && g !in n.effects && g !in n.gw.files && g !in n.gw.retired
      && n.effects == w.effects && n.gw == w.gw && n.sent == w.sent && n.publishes == w.publishes
  {
    var g := w.job.generation + 1;
    assert KeySound(w, g);
    forall x | x in w.effects ensures x <= w.job.generation { assert EffectSound(w, x); }
  }

  /** A claim that is not due changes nothing. */
  lemma ClaimNeedsDue(w: World, lease: nat)
    requires !Claimable(w)
    ensures Next(w, Claim(lease)) == w
  {
  }

  /** The gateway has taken no notice of the generation yet. */
  predicate Untouched(w: World, g: nat) {
    g !in w.gw.files && g !in w.gw.retired
  }

  lemma PrepareJournals(w: World, g: nat, lease: nat)
    requires Leased(w, g) && At(w, g, Claimed) && g !in w.effects && Untouched(w, g)
    ensures var n := Next(w, Prepare(g, lease, Commit.Confirmed));
      && Leased(n, g) && At(n, g, HasPrepared) && Untouched(n, g) && w.job.until < n.job.until
      && n.effects == w.effects[g := Effect(Prepared, None)] && n.gw == w.gw && n.sent == w.sent
  {
  }

  lemma IntentComesFirst(w: World, g: nat, lease: nat)
    requires Leased(w, g) && At(w, g, HasPrepared) && g in w.effects && w.effects[g] == Effect(Prepared, None) && Untouched(w, g)
    ensures var n := Next(w, MarkIntent(g, lease, Commit.Confirmed));
      && Leased(n, g) && At(n, g, HasIntent) && Untouched(n, g)
      && n.effects == w.effects[g := Effect(Intent, None)] && n.gw == w.gw && n.sent == w.sent
  {
  }

  lemma UploadRecords(w: World, g: nat, lease: nat, chosen: Id)
    requires Leased(w, g) && At(w, g, HasIntent) && g in w.effects && w.effects[g] == Effect(Intent, None) && Untouched(w, g)
    requires chosen !in w.gw.files.Values
    ensures var n := Next(w, Upload(g, lease, chosen, true, true, Commit.Confirmed));
      && Leased(n, g) && At(n, g, Uploaded(chosen)) && n.effects == w.effects[g := Effect(Intent, Some(chosen))]
      && n.gw == w.gw.(files := w.gw.files[g := chosen])
  {
  }

  lemma BindBinds(w: World, g: nat, lease: nat, f: Id)
    requires Leased(w, g) && At(w, g, Uploaded(f)) && FileOf(w.gw, g, f) && f !in w.gw.released
    ensures var n := Next(w, Bind(g, lease, true, true, Commit.Confirmed));
      && Leased(n, g) && At(n, g, HasBound(f)) && n.effects == w.effects && n.gw == w.gw.(bound := w.gw.bound + {f})
  {
  }

  function Work(g: nat, lease: nat, chosen: Id, last: Commit): seq<Move> {
    [Claim(lease), Prepare(g, lease, Commit.Confirmed), MarkIntent(g, lease, Commit.Confirmed), Upload(g, lease, chosen, true, true, Commit.Confirmed),
     Bind(g, lease, true, true, Commit.Confirmed), Publish(g, last)]
  }

  lemma RunMore(w: World, moves: seq<Move>, m: Move)
    ensures RunFrom(w, moves + [m]) == Next(RunFrom(w, moves), m)
  {
    hide Next;
    assert (moves + [m])[..|moves|] == moves;
  }

  lemma RunOfSix(w: World, a: Move, b: Move, c: Move, d: Move, e: Move, f: Move)
    ensures RunFrom(w, [a, b, c, d, e, f]) == Next(Next(Next(Next(Next(Next(w, a), b), c), d), e), f)
  {
    hide Next;
    RunMore(w, [], a);
    assert [] + [a] == [a];
    RunMore(w, [a], b);
    RunMore(w, [a, b], c);
    RunMore(w, [a, b, c], d);
    RunMore(w, [a, b, c, d], e);
    RunMore(w, [a, b, c, d, e], f);
    assert [a] + [b] == [a, b] && [a, b] + [c] == [a, b, c] && [a, b, c] + [d] == [a, b, c, d];
    assert [a, b, c, d] + [e] == [a, b, c, d, e] && [a, b, c, d, e] + [f] == [a, b, c, d, e, f];
  }

  /** From any state that a run can reach, if the job may be claimed, a worker whose calls are answered
      and whose commits succeed ends with the job ready, its file bound and the journal row published. */
  lemma AttemptPublishes(w: World, lease: nat, chosen: Id, last: Commit)
    requires Inv(w) && Claimable(w) && 0 < lease && chosen !in w.gw.files.Values && last != RolledBack
    ensures var g := w.job.generation + 1; var n := RunFrom(w, Work(g, lease, chosen, last));
      && n.job.status == Ready && n.job.published == Some(chosen) && n.job.generation == g && n.publishes == 1
      && n.effects == w.effects[g := Effect(Published, Some(chosen))]
      && FileOf(n.gw, g, chosen) && chosen in n.gw.bound && n.gw.bound == w.gw.bound + {chosen}
  {
    hide Next, Inv;
    var g := w.job.generation + 1;
    RunOfSix(w, Claim(lease), Prepare(g, lease, Commit.Confirmed), MarkIntent(g, lease, Commit.Confirmed),
             Upload(g, lease, chosen, true, true, Commit.Confirmed), Bind(g, lease, true, true, Commit.Confirmed), Publish(g, last));
    var a := Next(w, Claim(lease));
    ClaimLeases(w, lease); NextKeeps(w, Claim(lease));
    var b := Next(a, Prepare(g, lease, Commit.Confirmed));
    PrepareJournals(a, g, lease); NextKeeps(a, Prepare(g, lease, Commit.Confirmed));
    var c := Next(b, MarkIntent(g, lease, Commit.Confirmed));
    IntentComesFirst(b, g, lease); NextKeeps(b, MarkIntent(g, lease, Commit.Confirmed));
    NewFileIsFree(c, chosen);
    var d := Next(c, Upload(g, lease, chosen, true, true, Commit.Confirmed));
    UploadRecords(c, g, lease, chosen); NextKeeps(c, Upload(g, lease, chosen, true, true, Commit.Confirmed));
    var e := Next(d, Bind(g, lease, true, true, Commit.Confirmed));
    BindBinds(d, g, lease, chosen); NextKeeps(d, Bind(g, lease, true, true, Commit.Confirmed));
    PublishingPublishes(e, g, chosen, last);
    var n := Next(e, Publish(g, last));
    assert e.effects == w.effects[g := Effect(Prepared, None)][g := Effect(Intent, None)][g := Effect(Intent, Some(chosen))];
    assert n.effects == w.effects[g := Effect(Published, Some(chosen))];
  }

  /** A file that no key has was never released. */
  lemma NewFileIsFree(w: World, f: Id)
    requires Inv(w) && f !in w.gw.files.Values
    ensures f !in w.gw.released
  {
    assert ReleaseSound(w, f);
    forall g ensures !Justified(w, g, f) {}
  }

  /** From the beginning: six moves publish the job with its file. */
  lemma FirstAttemptPublishes(lease: nat, chosen: Id)
    requires 0 < lease
    ensures var n := RunFrom(START, Work(1, lease, chosen, Commit.Confirmed));
      n.job.status == Ready && n.job.published == Some(chosen) && n.effects == map[1 := Effect(Published, Some(chosen))] && n.gw.bound == {chosen}
  {
    RunKeeps([]);
    assert RunFrom(START, []) == START;
    AttemptPublishes(START, lease, chosen, Commit.Confirmed);
    assert START.effects[1 := Effect(Published, Some(chosen))] == map[1 := Effect(Published, Some(chosen))];
  }

  // ---------- fencing and failure

  /** The moves of the worker of one generation. */
  predicate WorkerMove(m: Move, g: nat) {
    match m
    case Renew(x, _) => x == g
    case Prepare(x, _, _) => x == g
    case MarkIntent(x, _, _) => x == g
    case Upload(x, _, _, _, _, _) => x == g
    case Bind(x, _, _, _, _) => x == g
    case Publish(x, _) => x == g
    case Fail(x) => x == g
    case _ => false
  }

  /** Without its lease a worker changes nothing at all. */
  lemma FencedWorkerChangesNothing(w: World, m: Move, g: nat)
    requires WorkerMove(m, g) && !Leased(w, g)
    ensures Next(w, m) == w
  {
  }

  lemma FailingFails(w: World, g: nat)
    requires Leased(w, g) && g in w.stages && w.stages[g] != Stopped
    ensures var n := Next(w, Fail(g)); n == w.(job := w.job.(status := Failed), stages := w.stages[g := Stopped])
  {
  }

  lemma RenewExtends(w: World, g: nat, lease: nat)
    requires Leased(w, g)
    ensures var n := Next(w, Renew(g, lease));
      n == w.(job := w.job.(until := n.job.until)) && w.job.until < n.job.until && w.now + lease <= n.job.until && Leased(n, g)
  {
  }

  // ---------- recovery

  /** A recovery whose calls are answered and whose commit is not lost closes an abandoned effect: the
      key is retired, and its file, if the upload ever arrived, is released and bound to nothing. */
  lemma RecoveryCompensates(w: World, g: nat, c: Commit)
    requires Inv(w) && g in w.effects && w.effects[g].state in {Prepared, Intent} && Expired(w, g) && c != RolledBack
    ensures var n := Next(w, Reconcile(g, true, true, true, true, c));
      && n.job == w.job && n.publishes == w.publishes
      && n.effects == w.effects[g := Effect(Compensated, if g in w.gw.files then Some(w.gw.files[g]) else None)]
      && g in n.gw.retired && n.gw.files == w.gw.files
      && (g in w.gw.files ==> w.gw.files[g] in n.gw.released && w.gw.files[g] !in n.gw.bound)
      && (forall f :: f in w.gw.bound && !FileOf(w.gw, g, f) ==> f in n.gw.bound)
  {
    LatePublicationUnreachable(w, g);
    RetirementAgrees(w, g);
  }

  /** An effect that is published, closed or still leased is not recovered. */
  lemma RecoverySkips(w: World, g: nat, a: bool, b: bool, c: bool, d: bool, commit: Commit)
    requires g in w.effects && (w.effects[g].state in {Published, Compensated} || Leased(w, g))
    ensures Next(w, Reconcile(g, a, b, c, d, commit)) == w
  {
  }
}
