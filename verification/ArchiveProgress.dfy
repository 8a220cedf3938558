/** What the moves of the invoice archive achieve when their calls are answered. */
module ArchiveProgress {
  import opened Tables
  import opened FileGateway
  import opened Archive

  /** Neither the key nor the id is in the journal. */
  ghost predicate NewKey(w: World, id: Id, key: Id) {
    id !in w.effects && forall e :: !KeyedBy(w.effects, e, key)
  }

  /** A preparation of unknown content opens one pending row with exactly what was asked for. */
  lemma PreparingOpens(w: World, id: Id, key: Id, content: Content, origin: Id)
    requires NewKey(w, id, key)
    requires forall d :: !DocumentAt(w.documents, d, content.place)
    requires forall e :: !PendingAt(w.effects, e, content.place)
    ensures Next(w, Prepare(id, key, content, origin))
         == w.(effects := w.effects[id := Effect(key, content, origin, PendingUpload, None, None)])
  {
  }

  /** A preparation of archived content inherits document and file, and only within the origin. */
  lemma PreparingInherits(w: World, id: Id, key: Id, content: Content, origin: Id, d: Id)
    requires Inv(w) && NewKey(w, id, key) && DocumentAt(w.documents, d, content.place)
    ensures var n := Next(w, Prepare(id, key, content, origin));
      if exists s :: SourceOf(w, s, d) && w.effects[s].origin == origin
      then n == w.(effects := w.effects[id := Effect(key, content, origin, Archived, Some(w.documents[d].file), Some(d))])
      else n == w
  {
    forall x | DocumentAt(w.documents, x, content.place) ensures x == d { assert DocumentSound(w, d); }
  }

  /** A known key, or content that is pending under another one, changes nothing. */
  lemma PreparingRepeats(w: World, id: Id, key: Id, content: Content, origin: Id)
    requires Inv(w) && ((exists e :: KeyedBy(w.effects, e, key)) || (exists e :: PendingAt(w.effects, e, content.place)))
    ensures Next(w, Prepare(id, key, content, origin)) == w
  {
    if e :| PendingAt(w.effects, e, content.place) {
      assert EffectSound(w, e);
      assert forall d :: !DocumentAt(w.documents, d, content.place);
    }
  }

  const ANSWERED := Wire(true, true)

  /** The file of a key that was neither retired nor archived cannot have been released. */
  lemma PendingIsFree(w: World, id: Id, f: Id)
    requires Inv(w) && id in w.effects && id !in w.gw.retired && (FileOf(w.gw, id, f) || f !in w.gw.files.Values)
    ensures f !in w.gw.released
  {
    assert ReleaseSound(w, f);
    forall s ensures !Justified(w, s, f) {
      assert FileOf(w.gw, s, f) && FileOf(w.gw, id, f) ==> s == id;
    }
  }

  /** A session whose calls are answered and whose commit succeeds archives the pending effect: one
      document at its place, the effect row names it, and its file is bound. */
  lemma SessionArchives(w: World, id: Id, origin: Id, document: Id, chosen: Id)
    requires Inv(w) && id in w.effects && w.effects[id].state == PendingUpload && w.effects[id].origin == origin
    requires id !in w.gw.retired && document !in w.documents && (id in w.gw.files || chosen !in w.gw.files.Values)
    ensures var f := if id in w.gw.files then w.gw.files[id] else chosen;
      var n := Next(w, Session(id, origin, document, chosen, ANSWERED, ANSWERED, true));
      && n.documents == w.documents[document := Document(w.effects[id].content.place, f)]
      && n.effects == w.effects[id := w.effects[id].(state := Archived, file := Some(f), document := Some(document))]
      && FileOf(n.gw, id, f) && n.gw.bound == w.gw.bound + {f}
  {
    var f := if id in w.gw.files then w.gw.files[id] else chosen;
    PendingIsFree(w, id, f);
    assert EffectSound(w, id);
  }

  /** Without the commit, or after the key was retired, nothing is archived. */
  lemma SessionNeedsCommit(w: World, id: Id, origin: Id, document: Id, chosen: Id, upload: Wire, bind: Wire, commits: bool)
    requires id in w.effects && (!commits || (id in w.gw.retired && upload.reached) || !upload.answered || !bind.answered)
    ensures var n := Next(w, Session(id, origin, document, chosen, upload, bind, commits));
      n.documents == w.documents && n.effects == w.effects
  {
  }

  /** A recovery whose calls are answered and whose commit succeeds retires the pending effect: the key
      accepts no upload any more, and its file, if it has one, is released and bound to nothing. */
  lemma RecoveryRetires(w: World, id: Id, origin: Id)
    requires Inv(w) && id in w.effects && w.effects[id].state == PendingUpload && w.effects[id].origin == origin
    ensures var n := Next(w, Recover(id, origin, ANSWERED, ANSWERED, true));
      && n.documents == w.documents && n.effects.Keys == w.effects.Keys
      && (forall e :: e in w.effects && e != id ==> n.effects[e] == w.effects[e])
      && n.effects[id] == w.effects[id].(state := Retired, file := if id in w.gw.files then Some(w.gw.files[id]) else None)
      && id in n.gw.retired && n.gw.files == w.gw.files
      && (id in w.gw.files ==> w.gw.files[id] in n.gw.released && w.gw.files[id] !in n.gw.bound)
  {
    assert EffectSound(w, id);
  }

  /** Archived and retired effects are not recovered, nor those of another origin. */
  lemma RecoverySkips(w: World, id: Id, origin: Id, retire: Wire, release: Wire, commits: bool)
    requires id !in w.effects || w.effects[id].state != PendingUpload || w.effects[id].origin != origin
    ensures Next(w, Recover(id, origin, retire, release, commits)) == w
  {
  }

  /** From any state a run can reach: content that is neither archived nor pending is archived by a
      preparation and one answered session. */
  lemma NewContentIsArchived(w: World, id: Id, key: Id, content: Content, origin: Id, document: Id, chosen: Id)
    requires Inv(w) && NewKey(w, id, key) && document !in w.documents && chosen !in w.gw.files.Values && id !in w.gw.retired
    requires forall d :: !DocumentAt(w.documents, d, content.place)
    requires forall e :: !PendingAt(w.effects, e, content.place)
    ensures var n := Next(Next(w, Prepare(id, key, content, origin)), Session(id, origin, document, chosen, ANSWERED, ANSWERED, true));
      && n.documents == w.documents[document := Document(content.place, chosen)]
      && n.effects == w.effects[id := Effect(key, content, origin, Archived, Some(chosen), Some(document))]
      && n.gw.bound == w.gw.bound + {chosen} && FileOf(n.gw, id, chosen)
  {
    hide Next, Inv;
    var m := Next(w, Prepare(id, key, content, origin));
    PreparingOpens(w, id, key, content, origin);
    NextKeeps(w, Prepare(id, key, content, origin));
    NewIdHasNoFile(w, id);
    SessionArchives(m, id, origin, document, chosen);
    var n := Next(m, Session(id, origin, document, chosen, ANSWERED, ANSWERED, true));
    assert n.effects == w.effects[id := Effect(key, content, origin, Archived, Some(chosen), Some(document))];
  }

  lemma NewIdHasNoFile(w: World, id: Id)
    requires Inv(w) && id !in w.effects
    ensures id !in w.gw.files
  {
    assert KeySound(w, id);
  }
}
