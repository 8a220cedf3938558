/** Invoice documents: the archive journal in front of the file gateway, and its recovery.
    internal/service/invoice_archive.go, invoice_archive_helper.go.  A session and a recovery hold
    the journal row from their first call to their commit, so each is one step. */
module Archive {
  import opened Tables
  import opened FileGateway

  /** A document is identified by its invoice, type and checksum. */
  datatype Place = Place(invoice: Id, kind: Id, checksum: Id)

  datatype Content = Content(place: Place, name: Id, media: Id)

  datatype ArchiveState = PendingUpload | Archived | Retired

  datatype Effect = Effect(key: Id, content: Content, origin: Id, state: ArchiveState, file: Option<Id>, document: Option<Id>)

  datatype Document = Document(place: Place, file: Id)

  /** The request key of an upload is derived from the id of its effect row. */
  datatype World = World(effects: map<Id, Effect>, documents: map<Id, Document>, gw: Gateway<Id>, sent: set<Message<Id>>)

  /** One external call: whether it reached the gateway, and whether its answer came back. */
  datatype Wire = Wire(reached: bool, answered: bool)

  datatype Move =
    | Prepare(id: Id, key: Id, content: Content, origin: Id)
    | Session(id: Id, origin: Id, document: Id, chosen: Id, upload: Wire, bind: Wire, commits: bool)
    | Recover(id: Id, origin: Id, retire: Wire, release: Wire, commits: bool)
    | Deliver(message: Message<Id>, chosen: Id)

  function Call(w: World, m: Message<Id>, chosen: Id, wire: Wire): World {
    w.(sent := w.sent + {m}, gw := if wire.reached then Execute(w.gw, m, chosen) else w.gw)
  }

  predicate DocumentAt(documents: map<Id, Document>, d: Id, place: Place) {
    d in documents && documents[d].place == place
  }

  predicate PendingAt(effects: map<Id, Effect>, e: Id, place: Place) {
    e in effects && effects[e].state == PendingUpload && effects[e].content.place == place
  }

  predicate KeyedBy(effects: map<Id, Effect>, e: Id, key: Id) {
    e in effects && effects[e].key == key
  }

  /** The archived effect that brought a document in, or one that inherited it. */
  predicate SourceOf(w: World, s: Id, d: Id) {
    && s in w.effects && d in w.documents && w.effects[s].state == Archived
    && w.effects[s].document == Some(d) && w.effects[s].file == Some(w.documents[d].file)
    && w.effects[s].content.place == w.documents[d].place
  }

  /** `prepareInvoiceArchive`: a known key keeps its row or conflicts; a document that is
      already archived is inherited under the same origin; otherwise one pending row per content. */
  ghost function PrepareMove(w: World, id: Id, key: Id, content: Content, origin: Id): World {
    if exists e :: KeyedBy(w.effects, e, key) then w
    else if id in w.effects then w
    else if d :| DocumentAt(w.documents, d, content.place) then
      if exists s :: SourceOf(w, s, d) && w.effects[s].origin == origin then
        w.(effects := w.effects[id := Effect(key, content, origin, Archived, Some(w.documents[d].file), Some(d))])
      else w
    else if exists e :: PendingAt(w.effects, e, content.place) then w
    else w.(effects := w.effects[id := Effect(key, content, origin, PendingUpload, None, None)])
  }

  /** A preparation is accepted: its key has a row with the same content and origin, or is new and the
      content is neither archived under another origin nor pending. */
  ghost predicate Prepares(w: World, id: Id, key: Id, content: Content, origin: Id) {
    if exists e :: KeyedBy(w.effects, e, key) then
      exists e :: KeyedBy(w.effects, e, key) && w.effects[e].content == content && w.effects[e].origin == origin
    else
      && id !in w.effects
      && if exists d :: DocumentAt(w.documents, d, content.place)
         then exists d, s :: DocumentAt(w.documents, d, content.place) && SourceOf(w, s, d) && w.effects[s].origin == origin
         else !exists e :: PendingAt(w.effects, e, content.place)
  }

  /** `UploadInvoiceDocument` after its preparation. */
  ghost function SessionMove(w: World, id: Id, origin: Id, document: Id, chosen: Id, upload: Wire, bind: Wire, commits: bool): World {
    if id !in w.effects || w.effects[id].origin != origin || w.effects[id].state != PendingUpload then w
    else
      var uploaded := Call(w, UploadMsg(id), chosen, upload);
      var answer := if upload.reached && upload.answered then UploadAnswer(uploaded.gw, id) else None;
      if answer.None? then uploaded
      else
        var f := answer.value;
        var done := Call(uploaded, BindMsg(f), chosen, bind);
        if !(bind.reached && bind.answered && f in done.gw.bound) then done
        else if document in w.documents || (exists d :: DocumentAt(w.documents, d, w.effects[id].content.place)) || !commits then done
        else done.(documents := w.documents[document := Document(w.effects[id].content.place, f)],
                   effects := w.effects[id := w.effects[id].(state := Archived, file := Some(f), document := Some(document))])
  }

  /** `recoverOne` */
  function RecoverMove(w: World, id: Id, origin: Id, retire: Wire, release: Wire, commits: bool): World {
    if id !in w.effects || w.effects[id].state != PendingUpload || w.effects[id].origin != origin then w
    else
      var e := w.effects[id];
      var retired := Call(w, RetireMsg(id), NOBODY, retire);
      var answer := RetireAnswer(retired.gw, id);
      if !(retire.reached && retire.answered) || (e.file.Some? && e.file != answer) then retired
      else if answer.None? then
        if commits then retired.(effects := w.effects[id := e.(state := Retired, file := None)]) else retired
      else
        var released := Call(retired, ReleaseMsg(answer.value), NOBODY, release);
        if commits && release.reached && release.answered
        then released.(effects := w.effects[id := e.(state := Retired, file := answer)]) else released
  }

  ghost function Next(w: World, m: Move): World {
    match m
    case Prepare(id, key, content, origin) => PrepareMove(w, id, key, content, origin)
    case Session(id, origin, document, chosen, upload, bind, commits) => SessionMove(w, id, origin, document, chosen, upload, bind, commits)
    case Recover(id, origin, retire, release, commits) => RecoverMove(w, id, origin, retire, release, commits)
    case Deliver(x, chosen) => if x in w.sent then w.(gw := Execute(w.gw, x, chosen)) else w
  }

  const START := World(map[], map[], Gateway(map[], {}, {}, {}), {})

  ghost function RunFrom(w: World, moves: seq<Move>): World {
    if moves == [] then w else Next(RunFrom(w, moves[..|moves| - 1]), moves[|moves| - 1])
  }

  // ---------- the invariant

  predicate ReleaseSent(w: World, f: Id) {
    ReleaseMsg(f) in w.sent
  }

  /** The upload that produced a file, once archived. */
  predicate Produced(w: World, s: Id, f: Id) {
    FileOf(w.gw, s, f) && s in w.effects && w.effects[s].state == Archived
  }

  ghost predicate ArchivedSound(w: World, e: Id)
    requires e in w.effects
  {
    var row := w.effects[e];
    && row.file.Some? && row.document.Some? && SourceOf(w, e, row.document.value)
    && row.file.value in w.gw.bound
    && (UploadMsg(e) in w.sent ==> FileOf(w.gw, e, row.file.value))
    && exists s :: Produced(w, s, row.file.value)
  }

  ghost predicate EffectSound(w: World, e: Id)
    requires e in w.effects
  {
    match w.effects[e].state
    case PendingUpload => w.effects[e].file == None && forall d :: !DocumentAt(w.documents, d, w.effects[e].content.place)
    case Archived => ArchivedSound(w, e)
    case Retired => e in w.gw.retired && (e in w.gw.files ==> w.gw.files[e] in w.gw.released)
  }

  predicate KeySound(w: World, e: Id) {
    && (UploadMsg(e) in w.sent ==> e in w.effects)
    && (e in w.gw.files ==> UploadMsg(e) in w.sent)
  }

  /** A release is only ever sent for the file of a retired key that was not archived. */
  predicate Justified(w: World, s: Id, f: Id) {
    FileOf(w.gw, s, f) && s in w.gw.retired && s in w.effects && w.effects[s].state != Archived
  }

  ghost predicate ReleaseSound(w: World, f: Id) {
    && (f in w.gw.released ==> ReleaseSent(w, f))
    && (ReleaseSent(w, f) ==> exists s :: Justified(w, s, f))
  }

  ghost predicate DocumentSound(w: World, d: Id)
    requires d in w.documents
  {
    && (exists s :: SourceOf(w, s, d))
    && (forall x :: DocumentAt(w.documents, x, w.documents[d].place) ==> x == d)
  }

  predicate RowsUnique(effects: map<Id, Effect>, e: Id, d: Id) {
    e in effects && d in effects ==>
      && (effects[e].key == effects[d].key ==> e == d)
      && (PendingAt(effects, e, effects[d].content.place) && effects[d].state == PendingUpload ==> e == d)
  }

  ghost predicate Inv(w: World) {
    && GatewaySound(w.gw)
    && (forall e {:trigger EffectSound(w, e)} :: e in w.effects ==> EffectSound(w, e))
    && (forall e {:trigger KeySound(w, e)} :: KeySound(w, e))
    && (forall f {:trigger ReleaseSound(w, f)} :: ReleaseSound(w, f))
    && (forall d {:trigger DocumentSound(w, d)} :: d in w.documents ==> DocumentSound(w, d))
    && (forall e, d {:trigger RowsUnique(w.effects, e, d)} :: RowsUnique(w.effects, e, d))
  }

  // ---------- the wire and the gateway

  /** The file of an archived effect cannot be released by any request on the wire. */
  lemma ArchivedNotReleased(w: World, e: Id)
    requires Inv(w) && e in w.effects && w.effects[e].state == Archived
    ensures w.effects[e].file.Some? && !ReleaseSent(w, w.effects[e].file.value) && w.effects[e].file.value !in w.gw.released
  {
    assert EffectSound(w, e);
    var f := w.effects[e].file.value;
    var s :| Produced(w, s, f);
    assert ReleaseSound(w, f);
    forall j ensures !Justified(w, j, f) { assert FileOf(w.gw, j, f) ==> j == s; }
  }

  lemma ExecuteSentKeeps(w: World, m: Message<Id>, chosen: Id)
    requires Inv(w) && m in w.sent
    ensures Inv(w.(gw := Execute(w.gw, m, chosen)))
  {
    var n := w.(gw := Execute(w.gw, m, chosen));
    ExecuteKeeps(w.gw, m, chosen);
    forall e ensures KeySound(n, e) { assert KeySound(w, e); }
    forall e | e in n.effects ensures EffectSound(n, e) {
      assert EffectSound(w, e) && KeySound(w, e);
      if w.effects[e].state == Archived {
        ArchivedNotReleased(w, e);
        var s :| Produced(w, s, w.effects[e].file.value);
        assert Produced(n, s, w.effects[e].file.value);
      }
    }
    forall f ensures ReleaseSound(n, f) {
      assert ReleaseSound(w, f);
      if s :| Justified(w, s, f) { assert Justified(n, s, f); }
    }
    forall d | d in n.documents ensures DocumentSound(n, d) {
      assert DocumentSound(w, d);
      var s :| SourceOf(w, s, d);
      assert SourceOf(n, s, d);
    }
    forall e, d ensures RowsUnique(n.effects, e, d) { assert RowsUnique(w.effects, e, d); }
  }

  ghost predicate MaySend(w: World, m: Message<Id>) {
    match m
    case UploadMsg(e) => e in w.effects && w.effects[e].state == PendingUpload
    case BindMsg(f) => true
    case RetireMsg(e) => true
    case ReleaseMsg(f) => exists s :: Justified(w, s, f)
  }

  lemma CallKeeps(w: World, m: Message<Id>, chosen: Id, wire: Wire)
    requires Inv(w) && MaySend(w, m)
    ensures Inv(Call(w, m, chosen, wire))
  {
    var n := w.(sent := w.sent + {m});
    forall e ensures KeySound(n, e) { assert KeySound(w, e); }
    forall e | e in n.effects ensures EffectSound(n, e) {
      assert EffectSound(w, e);
      if w.effects[e].state == Archived {
        var s :| Produced(w, s, w.effects[e].file.value);
        assert Produced(n, s, w.effects[e].file.value);
      }
    }
    forall f ensures ReleaseSound(n, f) {
      assert ReleaseSound(w, f);
      if s :| Justified(w, s, f) { assert Justified(n, s, f); }
    }
    forall d | d in n.documents ensures DocumentSound(n, d) {
      assert DocumentSound(w, d);
      var s :| SourceOf(w, s, d);
      assert SourceOf(n, s, d);
    }
    forall e, d ensures RowsUnique(n.effects, e, d) { assert RowsUnique(w.effects, e, d); }
    if wire.reached { ExecuteSentKeeps(n, m, chosen); }
  }

  // ---------- the journal

  /** One effect row is added or changes; archived rows stay as they are. */
  lemma EffectStepKeeps(w: World, n: World, id: Id)
    requires Inv(w) && id in n.effects && n == w.(effects := w.effects[id := n.effects[id]])
    requires id in w.effects ==>
      && w.effects[id].state == PendingUpload && n.effects[id].state != Archived
      && n.effects[id].key == w.effects[id].key && n.effects[id].content == w.effects[id].content
    requires EffectSound(n, id)
    requires forall e {:trigger RowsUnique(n.effects, e, id)} :: RowsUnique(n.effects, e, id)
    requires forall e {:trigger RowsUnique(n.effects, id, e)} :: RowsUnique(n.effects, id, e)
    ensures Inv(n)
  {
    forall e ensures KeySound(n, e) { assert KeySound(w, e); }
    forall e | e in n.effects ensures EffectSound(n, e) {
      if e != id {
        assert EffectSound(w, e);
        if w.effects[e].state == Archived {
          var s :| Produced(w, s, w.effects[e].file.value);
          assert Produced(n, s, w.effects[e].file.value);
        }
      }
    }
    forall f ensures ReleaseSound(n, f) {
      assert ReleaseSound(w, f);
      if s :| Justified(w, s, f) {
        assert KeySound(w, s);
        assert Justified(n, s, f);
      }
    }
    forall d | d in n.documents ensures DocumentSound(n, d) {
      assert DocumentSound(w, d);
      var s :| SourceOf(w, s, d);
      assert SourceOf(n, s, d);
    }
    forall e, d ensures RowsUnique(n.effects, e, d) { assert RowsUnique(w.effects, e, d) && RowsUnique(n.effects, e, id) && RowsUnique(n.effects, id, d); }
  }

  lemma PrepareKeeps(w: World, id: Id, key: Id, content: Content, origin: Id)
    requires Inv(w)
    ensures Inv(PrepareMove(w, id, key, content, origin))
  {
    var n := PrepareMove(w, id, key, content, origin);
    if n != w {
      forall e ensures RowsUnique(n.effects, e, id) && RowsUnique(n.effects, id, e) {
        assert e in w.effects ==> !KeyedBy(w.effects, e, key) && RowsUnique(w.effects, e, e);
        if n.effects[id].state == PendingUpload { assert !PendingAt(w.effects, e, content.place); }
      }
      if n.effects[id].state == Archived {
        var d := n.effects[id].document.value;
        var s :| SourceOf(w, s, d);
        assert EffectSound(w, s) && KeySound(w, id);
        var x :| Produced(w, x, w.documents[d].file);
        assert Produced(n, x, w.documents[d].file);
      }
      EffectStepKeeps(w, n, id);
    }
  }

  lemma RecoverKeeps(w: World, id: Id, origin: Id, retire: Wire, release: Wire, commits: bool)
    requires Inv(w)
    ensures Inv(RecoverMove(w, id, origin, retire, release, commits))
  {
    if id in w.effects && w.effects[id].state == PendingUpload && w.effects[id].origin == origin {
      var n := RecoverMove(w, id, origin, retire, release, commits);
      assert EffectSound(w, id);
      var retired := Call(w, RetireMsg(id), NOBODY, retire);
      CallKeeps(w, RetireMsg(id), NOBODY, retire);
      var called := retired;
      if retire.reached && retire.answered && id in retired.gw.files {
        var f := retired.gw.files[id];
        assert Justified(retired, id, f);
        called := Call(retired, ReleaseMsg(f), NOBODY, release);
        CallKeeps(retired, ReleaseMsg(f), NOBODY, release);
      }
      if n != called {
        forall e ensures RowsUnique(n.effects, e, id) && RowsUnique(n.effects, id, e) { assert RowsUnique(w.effects, e, id) && RowsUnique(w.effects, id, e); }
        EffectStepKeeps(called, n, id);
      }
    }
  }

  ghost predicate Archives(w: World, n: World, id: Id, document: Id, f: Id) {
    && id in w.effects && w.effects[id].state == PendingUpload
    && FileOf(w.gw, id, f) && id !in w.gw.retired && f in w.gw.bound
    && document !in w.documents && (forall d :: !DocumentAt(w.documents, d, w.effects[id].content.place))
    && n == w.(documents := w.documents[document := Document(w.effects[id].content.place, f)],
               effects := w.effects[id := w.effects[id].(state := Archived, file := Some(f), document := Some(document))])
  }

  lemma ArchiveKeepsDocument(w: World, n: World, id: Id, document: Id, f: Id, d: Id)
    requires Inv(w) && Archives(w, n, id, document, f) && d in n.documents
    ensures DocumentSound(n, d)
  {
    if d == document {
      assert SourceOf(n, id, document);
    } else {
      assert DocumentSound(w, d);
      var s :| SourceOf(w, s, d);
      assert SourceOf(n, s, d);
    }
    var place := n.documents[d].place;
    forall x | DocumentAt(n.documents, x, place) ensures x == d {
      assert x != document ==> DocumentAt(w.documents, x, place);
      assert d != document ==> DocumentAt(w.documents, d, place);
    }
  }

  lemma ArchiveKeepsEffect(w: World, n: World, id: Id, document: Id, f: Id, e: Id)
    requires Inv(w) && Archives(w, n, id, document, f) && e in n.effects
    ensures EffectSound(n, e)
  {
    assert EffectSound(w, e) && RowsUnique(w.effects, e, id);
    if e == id {
      assert SourceOf(n, id, document) && Produced(n, id, f);
    } else if w.effects[e].state == PendingUpload {
      forall d ensures !DocumentAt(n.documents, d, w.effects[e].content.place) {
        assert !DocumentAt(w.documents, d, w.effects[e].content.place);
      }
    } else if w.effects[e].state == Archived {
      var s :| Produced(w, s, w.effects[e].file.value);
      assert Produced(n, s, w.effects[e].file.value);
    }
  }

  /** The commit of a session: the document and the archived row appear together. */
  lemma ArchiveKeeps(w: World, n: World, id: Id, document: Id, f: Id)
    requires Inv(w) && Archives(w, n, id, document, f)
    ensures Inv(n)
  {
    forall e ensures KeySound(n, e) { assert KeySound(w, e); }
    forall e, d ensures RowsUnique(n.effects, e, d) { assert RowsUnique(w.effects, e, d); }
    forall e | e in n.effects ensures EffectSound(n, e) { ArchiveKeepsEffect(w, n, id, document, f, e); }
    forall x ensures ReleaseSound(n, x) {
      assert ReleaseSound(w, x);
      if s :| Justified(w, s, x) { assert Justified(n, s, x); }
    }
    forall d | d in n.documents ensures DocumentSound(n, d) { ArchiveKeepsDocument(w, n, id, document, f, d); }
  }

  lemma SessionKeeps(w: World, id: Id, origin: Id, document: Id, chosen: Id, upload: Wire, bind: Wire, commits: bool)
    requires Inv(w)
    ensures Inv(SessionMove(w, id, origin, document, chosen, upload, bind, commits))
  {
    if id in w.effects && w.effects[id].origin == origin && w.effects[id].state == PendingUpload {
      var uploaded := Call(w, UploadMsg(id), chosen, upload);
      CallKeeps(w, UploadMsg(id), chosen, upload);
      var answer := if upload.reached && upload.answered then UploadAnswer(uploaded.gw, id) else None;
      if answer.Some? {
        var f := answer.value;
        var done := Call(uploaded, BindMsg(f), chosen, bind);
        CallKeeps(uploaded, BindMsg(f), chosen, bind);
        var n := SessionMove(w, id, origin, document, chosen, upload, bind, commits);
        if n != done { ArchiveKeeps(done, n, id, document, f); }
      }
    }
  }

  // ---------- every run

  lemma NextKeeps(w: World, m: Move)
    requires Inv(w)
    ensures Inv(Next(w, m))
  {
    match m
    case Prepare(id, key, content, origin) => PrepareKeeps(w, id, key, content, origin);
    case Session(id, origin, document, chosen, upload, bind, commits) => SessionKeeps(w, id, origin, document, chosen, upload, bind, commits);
    case Recover(id, origin, retire, release, commits) => RecoverKeeps(w, id, origin, retire, release, commits);
    case Deliver(x, chosen) => if x in w.sent { ExecuteSentKeeps(w, x, chosen); }
  }

  lemma {:induction false} RunKeeps(moves: seq<Move>)
    ensures Inv(RunFrom(START, moves))
  {
    if moves != [] {
      RunKeeps(moves[..|moves| - 1]);
      NextKeeps(RunFrom(START, moves[..|moves| - 1]), moves[|moves| - 1]);
    }
  }

  /** Each content has at most one of: a document, or a pending effect. */
  lemma OneRowPerContent(moves: seq<Move>, place: Place)
    ensures var w := RunFrom(START, moves);
      && (forall d, x :: DocumentAt(w.documents, d, place) && DocumentAt(w.documents, x, place) ==> d == x)
      && (forall e, x :: PendingAt(w.effects, e, place) && PendingAt(w.effects, x, place) ==> e == x)
      && (forall d, e :: !(DocumentAt(w.documents, d, place) && PendingAt(w.effects, e, place)))
  {
    RunKeeps(moves);
    var w := RunFrom(START, moves);
    forall d, x | DocumentAt(w.documents, d, place) && DocumentAt(w.documents, x, place) ensures d == x { assert DocumentSound(w, d); }
    forall e, x | PendingAt(w.effects, e, place) && PendingAt(w.effects, x, place) ensures e == x { assert RowsUnique(w.effects, e, x); }
    forall d, e ensures !(DocumentAt(w.documents, d, place) && PendingAt(w.effects, e, place)) {
      if e in w.effects { assert EffectSound(w, e); }
    }
  }

  /** The binding of an archived document is live and no request on the wire can end it. */
  lemma ArchivedStaysBound(moves: seq<Move>, e: Id)
    requires var w := RunFrom(START, moves); e in w.effects && w.effects[e].state == Archived
    ensures var w := RunFrom(START, moves); var file := w.effects[e].file;
      file.Some? && file.value in w.gw.bound && file.value !in w.gw.released && ReleaseMsg(file.value) !in w.sent
  {
    RunKeeps(moves);
    assert EffectSound(RunFrom(START, moves), e);
    ArchivedNotReleased(RunFrom(START, moves), e);
  }

  /** A retired effect has no live binding, whatever is delivered afterwards. */
  lemma RetiredLeavesNothing(moves: seq<Move>, e: Id)
    requires var w := RunFrom(START, moves); e in w.effects && w.effects[e].state == Retired
    ensures var w := RunFrom(START, moves);
      e in w.gw.retired && UploadAnswer(w.gw, e) == None && forall f :: FileOf(w.gw, e, f) ==> f !in w.gw.bound
  {
    RunKeeps(moves);
    assert EffectSound(RunFrom(START, moves), e);
  }

  /** Once nothing is pending, the live bindings are exactly the files of the documents. */
  lemma SettledArchive(moves: seq<Move>, f: Id)
    requires forall e :: e in RunFrom(START, moves).effects ==> RunFrom(START, moves).effects[e].state != PendingUpload
    ensures var w := RunFrom(START, moves); f in w.gw.bound <==> exists d :: d in w.documents && w.documents[d].file == f
  {
    RunKeeps(moves);
    var w := RunFrom(START, moves);
    if f in w.gw.bound {
      var k :| k in w.gw.files && w.gw.files[k] == f;
      assert KeySound(w, k) && EffectSound(w, k);
      assert w.documents[w.effects[k].document.value].file == f;
    }
    if d :| d in w.documents && w.documents[d].file == f {
      assert DocumentSound(w, d);
      var s :| SourceOf(w, s, d);
      assert EffectSound(w, s);
    }
  }

  // ---------- keys

  predicate SameIntent(x: Effect, y: Effect) {
    x.key == y.key && x.content == y.content && x.origin == y.origin && (x.state != PendingUpload ==> x == y)
  }

  lemma NextKeepsIntent(w: World, m: Move, e: Id)
    requires e in w.effects
    ensures e in Next(w, m).effects && SameIntent(w.effects[e], Next(w, m).effects[e])
  {
  }

  lemma {:induction false} LaterKeepsIntent(w: World, moves: seq<Move>, e: Id)
    requires e in w.effects
    ensures e in RunFrom(w, moves).effects && SameIntent(w.effects[e], RunFrom(w, moves).effects[e])
  {
    if moves != [] {
      LaterKeepsIntent(w, moves[..|moves| - 1], e);
      NextKeepsIntent(RunFrom(w, moves[..|moves| - 1]), moves[|moves| - 1], e);
    }
  }

  /** A key never changes content: at any two points of a run the rows of a key agree on it,
      and an archived or retired row never changes again. */
  lemma KeyNeverChangesContent(moves: seq<Move>, more: seq<Move>, e: Id, d: Id)
    requires var w := RunFrom(START, moves); var n := RunFrom(w, more);
      e in w.effects && d in n.effects && w.effects[e].key == n.effects[d].key
    ensures var w := RunFrom(START, moves); var n := RunFrom(w, more);
      d == e && SameIntent(w.effects[e], n.effects[d])
  {
    var w := RunFrom(START, moves);
    LaterKeepsIntent(w, more, e);
    RunKeeps(moves + more);
    RunJoins(START, moves, more);
    assert RowsUnique(RunFrom(w, more).effects, e, d);
  }

  lemma {:induction false} RunJoins(w: World, moves: seq<Move>, more: seq<Move>)
    ensures RunFrom(w, moves + more) == RunFrom(RunFrom(w, moves), more)
  {
    if more == [] {
      assert moves + more == moves;
    } else {
      RunJoins(w, moves, more[..|more| - 1]);
      assert (moves + more)[..|moves + more| - 1] == moves + more[..|more| - 1];
    }
  }
}
