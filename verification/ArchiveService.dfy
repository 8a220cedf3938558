/** The archive session, its preparation and its recovery as they update journal, documents and
    gateway.  internal/service/invoice_archive.go */
module ArchiveService {
  import opened Tables
  import opened FileGateway
  import A = Archive

  class Journal {
    var effects: map<Id, A.Effect>
    var documents: map<Id, A.Document>
    var gw: Gateway<Id>
    var sent: set<Message<Id>>

    function State(): A.World
      reads this
    {
      A.World(effects, documents, gw, sent)
    }

    method Send(m: Message<Id>, chosen: Id, wire: A.Wire)
      modifies this`gw, this`sent
      ensures State() == A.Call(old(State()), m, chosen, wire)
    {
      sent := sent + {m};
      if wire.reached { gw := Execute(gw, m, chosen); }
    }

    /** The row of a key, if there is one. */
    method FindKey(key: Id) returns (e: Option<Id>)
      ensures e.Some? ==> A.KeyedBy(effects, e.value, key)
      ensures e.None? ==> forall x :: !A.KeyedBy(effects, x, key)
    {
      if x :| x in effects && A.KeyedBy(effects, x, key) { e := Some(x); } else { e := None; }
    }

    /** `prepareInvoiceArchive`; the documents table is unique per content. */
    method PrepareInvoiceArchive(id: Id, key: Id, content: A.Content, origin: Id) returns (r: Outcome<Id>)
      requires forall d, x, place :: A.DocumentAt(documents, d, place) && A.DocumentAt(documents, x, place) ==> d == x
      modifies this`effects
      ensures State() == A.PrepareMove(old(State()), id, key, content, origin)
      ensures r.Done? ==> r.value in effects && effects[r.value].key == key && effects[r.value].content == content && effects[r.value].origin == origin
      ensures r.Refused? ==> r.error == Conflict && State() == old(State())
      ensures (forall x, y :: A.KeyedBy(old(effects), x, key) && A.KeyedBy(old(effects), y, key) ==> x == y) ==>
        (r.Done? <==> A.Prepares(old(State()), id, key, content, origin))
    {
      var existing := FindKey(key);
      if existing.Some? {
        var row := effects[existing.value];
        return if row.content != content || row.origin != origin then Refused(Conflict) else Done(existing.value);
      }
      if id in effects { return Refused(Conflict); }
      if d :| d in documents && A.DocumentAt(documents, d, content.place) {
        if !(exists s :: s in effects && A.SourceOf(State(), s, d) && effects[s].origin == origin) { return Refused(Conflict); }
        effects := effects[id := A.Effect(key, content, origin, A.Archived, Some(documents[d].file), Some(d))];
        return Done(id);
      }
      if exists e :: e in effects && A.PendingAt(effects, e, content.place) { return Refused(Conflict); }
      effects := effects[id := A.Effect(key, content, origin, A.PendingUpload, None, None)];
      r := Done(id);
    }

    /** The session of `UploadInvoiceDocument`: upload, bind, document and journal row. */
    method UploadInvoiceDocument(id: Id, origin: Id, document: Id, chosen: Id, upload: A.Wire, bind: A.Wire, commits: bool)
      returns (archived: bool)
      modifies this
      ensures State() == A.SessionMove(old(State()), id, origin, document, chosen, upload, bind, commits)
      ensures archived ==> id in effects && effects[id].state == A.Archived
    {
      if id !in effects || effects[id].origin != origin || effects[id].state != A.PendingUpload { return false; }
      var row := effects[id];
      Send(UploadMsg(id), chosen, upload);
      if !(upload.reached && upload.answered) || UploadAnswer(gw, id) == None { return false; }
      var f := UploadAnswer(gw, id).value;
      Send(BindMsg(f), chosen, bind);
      if !(bind.reached && bind.answered && f in gw.bound) { return false; }
      if document in documents || (exists d :: d in documents && A.DocumentAt(documents, d, row.content.place)) || !commits { return false; }
      documents := documents[document := A.Document(row.content.place, f)];
      effects := effects[id := row.(state := A.Archived, file := Some(f), document := Some(document))];
      archived := true;
    }

    method RecoverOne(id: Id, origin: Id, retire: A.Wire, release: A.Wire, commits: bool)
      modifies this
      ensures State() == A.RecoverMove(old(State()), id, origin, retire, release, commits)
    {
      if id !in effects || effects[id].state != A.PendingUpload || effects[id].origin != origin { return; }
      var e := effects[id];
      Send(RetireMsg(id), NOBODY, retire);
      var answer := RetireAnswer(gw, id);
      if !(retire.reached && retire.answered) || (e.file.Some? && e.file != answer) { return; }
      if answer.Some? {
        Send(ReleaseMsg(answer.value), NOBODY, release);
        if !(release.reached && release.answered) { return; }
      }
      if commits { effects := effects[id := e.(state := A.Retired, file := answer)]; }
    }
  }
}
