/** The backend as a whole: every state-changing request and the background
    ingestion step as events on one store, and the invariants every run keeps. */
module Backend {
  import opened Optional
  import opened Http
  import opened Store
  import opened Documents
  import Ai

  /** Something that happens to the store: an authenticated request, or the
      background ingestion of an upload being carried out. */
  datatype Event =
    | UploadRequest(user: Id, file: Option<UploadedFile>, title: Option<string>, baseUrl: string, now: int)
    | IngestionRuns(id: Id, writeOk: bool)
    | ListRequest(user: Id)
    | ReadRequest(user: Id, param: IdArg, now: int)
    | DeleteRequest(user: Id, param: IdArg)
    | FlashcardsRequest(user: Id, documentId: Option<IdArg>, count: Option<int>)
    | QuizRequest(user: Id, documentId: Option<IdArg>, numQuestions: Option<int>, title: Option<string>)
    | SummaryRequest(user: Id, documentId: Option<IdArg>)
    | ChatRequest(user: Id, documentId: Option<IdArg>, question: Option<string>, now: int)
    | ExplainRequest(user: Id, documentId: Option<IdArg>, concept: Option<string>)
    | HistoryRequest(user: Id, documentId: Option<IdArg>)

  /** Every record `after` has and `before` lacked, in any collection, has an
      identifier drawn from the counter after `before`: identifiers are never
      handed out twice, even once their record is gone. */
  predicate FreshIds(before: Db, after: Db) {
    && after.nextId >= before.nextId
    && FreshKeys(before.documents, after.documents, before.nextId, after.nextId)
    && FreshKeys(before.flashcardSets, after.flashcardSets, before.nextId, after.nextId)
    && FreshKeys(before.quizzes, after.quizzes, before.nextId, after.nextId)
    && FreshKeys(before.histories, after.histories, before.nextId, after.nextId)
  }

  /** The store after one event. An upload first has its file written to disk
      by the upload middleware. An ingestion step runs only for an upload that
      scheduled one and has not run yet; the list, summary, explanation and
      history reads leave the store as it is. */
  function Apply(db: Db, ev: Event, ing: Ingestion, svc: Ai.Services): (r: Db)
    requires Valid(db)
    ensures Valid(r)
    ensures FreshIds(db, r)
    ensures ev.UploadRequest? && ev.file.Some? && Present(ev.title) ==> ev.file.value.path in r.files
    ensures ev.UploadRequest? && ev.file.Some? && !Present(ev.title) ==> ev.file.value.path !in r.files
  {
    match ev
    case UploadRequest(user, file, title, baseUrl, now) => Upload(Receive(db, file), user, file, title, baseUrl, now).db
    case IngestionRuns(id, writeOk) => if id in db.pending then ProcessPdf(db, id, ing, writeOk) else db
    case ListRequest(_) => db
    case ReadRequest(user, param, now) => GetDocument(db, user, param, now).db
    case DeleteRequest(user, param) => DeleteDocument(db, user, param).db
    case FlashcardsRequest(user, documentId, count) => Ai.GenerateFlashcards(db, user, documentId, count, svc).db
    case QuizRequest(user, documentId, n, title) => Ai.GenerateQuiz(db, user, documentId, n, title, svc).db
    case SummaryRequest(_, _) => db
    case ChatRequest(user, documentId, question, now) => Ai.Chat(db, user, documentId, question, svc, now).db
    case ExplainRequest(_, _, _) => db
    case HistoryRequest(_, _) => db
  }

  /** The store after a sequence of events, in order. */
  function Run(db: Db, evs: seq<Event>, ing: Ingestion, svc: Ai.Services): (r: Db)
    requires Valid(db)
    ensures Valid(r)
    ensures FreshIds(db, r)
    decreases |evs|
  {
    if |evs| == 0 then db else Run(Apply(db, evs[0], ing, svc), evs[1..], ing, svc)
  }

  /** `after` has no document `before` lacked, schedules the same ingestion
      steps, and agrees with `before` on each document's status, text and
      chunks. */
  predicate SameStages(before: Db, after: Db) {
    && after.pending == before.pending
    && forall k :: k in after.documents ==>
         && k in before.documents
         && after.documents[k].status == before.documents[k].status
         && after.documents[k].extractedText == before.documents[k].extractedText
         && after.documents[k].chunks == before.documents[k].chunks
  }

  /** A step that keeps every surviving document's stage keeps the lifecycle
      invariant. */
  lemma SameStagesKeepLifecycle(before: Db, after: Db, ing: Ingestion)
    requires Lifecycle(before, ing) && SameStages(before, after)
    ensures Lifecycle(after, ing)
  {
  }

  /** Reads, deletes and the AI requests leave every document's stage alone. */
  lemma RequestsKeepStages(db: Db, ev: Event, ing: Ingestion, svc: Ai.Services)
    requires Valid(db) && !ev.UploadRequest? && !ev.IngestionRuns?
    ensures SameStages(db, Apply(db, ev, ing, svc))
  {
  }

  /** Every event keeps every document at a consistent stage, and a document's
      status only ever leaves `Processing`. */
  lemma ApplyKeepsLifecycle(db: Db, ev: Event, ing: Ingestion, svc: Ai.Services)
    requires Valid(db) && Lifecycle(db, ing)
    ensures var r := Apply(db, ev, ing, svc);
            && Lifecycle(r, ing)
            && forall k :: k in db.documents && k in r.documents ==> Advances(db.documents[k].status, r.documents[k].status)
  {
    var r := Apply(db, ev, ing, svc);
    match ev {
      case UploadRequest(user, file, title, baseUrl, now) =>
        UploadKeepsLifecycle(Receive(db, file), user, file, title, baseUrl, now, ing);
      case IngestionRuns(id, writeOk) =>
        if id in db.pending {
          ProcessPdfAdvances(db, id, ing, writeOk);
        }
      case _ =>
        RequestsKeepStages(db, ev, ing, svc);
        SameStagesKeepLifecycle(db, r, ing);
    }
  }

  /** Runs keep the lifecycle invariant, and statuses only advance. */
  lemma {:induction false} RunKeepsLifecycle(db: Db, evs: seq<Event>, ing: Ingestion, svc: Ai.Services)
    requires Valid(db) && Lifecycle(db, ing)
    ensures Lifecycle(Run(db, evs, ing, svc), ing)
    ensures forall k :: k in db.documents && k in Run(db, evs, ing, svc).documents ==>
              Advances(db.documents[k].status, Run(db, evs, ing, svc).documents[k].status)
    decreases |evs|
  {
    if |evs| > 0 {
      var mid := Apply(db, evs[0], ing, svc);
      ApplyKeepsLifecycle(db, evs[0], ing, svc);
      RunKeepsLifecycle(mid, evs[1..], ing, svc);
      var r := Run(db, evs, ing, svc);
      forall k | k in db.documents && k in r.documents
        ensures Advances(db.documents[k].status, r.documents[k].status)
      {
        assert k in mid.documents;
      }
    }
  }

  /** A document that has been deleted never comes back: an identifier that
      was handed out and is no longer in use stays unused by every later event
      (a consequence of `Run` only adding fresh identifiers). */
  lemma NoResurrection(db: Db, evs: seq<Event>, ing: Ingestion, svc: Ai.Services, id: Id)
    requires Valid(db) && id < db.nextId && id !in db.documents
    ensures id !in Run(db, evs, ing, svc).documents
  {
  }

  /** The empty store satisfies both invariants, so every run from it does. */
  lemma RunFromEmpty(evs: seq<Event>, ing: Ingestion, svc: Ai.Services)
    ensures Valid(Run(EmptyDb(), evs, ing, svc))
    ensures Lifecycle(Run(EmptyDb(), evs, ing, svc), ing)
  {
    RunKeepsLifecycle(EmptyDb(), evs, ing, svc);
  }

  /** An accepted upload whose file is on disk, parses and segments, and whose
      ready-update succeeds, can be served to its owner once ingestion has run,
      and only to its owner. */
  lemma UploadThenIngestServes(db: Db, user: Id, other: Id, file: UploadedFile, title: string,
                               baseUrl: string, now: int, ing: Ingestion)
    requires Valid(db) && title != "" && other != user
    requires file.path in db.files && ing.parsePdf(file.path).Done?
    requires ing.chunkText(ing.parsePdf(file.path).value, ChunkSize, ChunkOverlap).Done?
    ensures var up := Upload(db, user, Some(file), Some(title), baseUrl, now);
            var id := up.reply.data.id;
            var done := ProcessPdf(up.db, id, ing, true);
            && Ai.Servable(done, user, id)
            && !Ai.Servable(done, other, id)
            && done.documents[id].extractedText == ing.parsePdf(file.path).value
            && done.documents[id].chunks == ing.chunkText(ing.parsePdf(file.path).value, ChunkSize, ChunkOverlap).value
  {
  }

  /** From the empty store, one accepted upload whose file parses and
      segments, followed by its ingestion with a successful update, leaves a
      document its owner can use with the AI features. */
  lemma FirstUploadBecomesServable(user: Id, file: UploadedFile, title: string, baseUrl: string, now: int,
                                   ing: Ingestion, svc: Ai.Services)
    requires title != "" && ing.parsePdf(file.path).Done?
    requires ing.chunkText(ing.parsePdf(file.path).value, ChunkSize, ChunkOverlap).Done?
    ensures Ai.Servable(Run(EmptyDb(), [UploadRequest(user, Some(file), Some(title), baseUrl, now), IngestionRuns(0, true)],
                            ing, svc), user, 0)
  {
    var evs := [UploadRequest(user, Some(file), Some(title), baseUrl, now), IngestionRuns(0, true)];
    var db1 := Apply(EmptyDb(), evs[0], ing, svc);
    assert db1.pending == map[0 := file.path] && file.path in db1.files;
    var db2 := Apply(db1, evs[1], ing, svc);
    assert Ingested(db1.files, file.path, ing, true).Some?;
    assert Ai.Servable(db2, user, 0);
    assert evs[1..][1..] == [];
    assert Run(db1, evs[1..], ing, svc) == Run(db2, [], ing, svc);
  }

  /** The delete unlinks the stored `filePath`, which is the public URL and
      not the disk path, so deleting a fresh upload leaves its file on disk. */
  lemma UploadThenDeleteKeepsFile(db: Db, user: Id, file: UploadedFile, title: string, baseUrl: string, now: int)
    requires Valid(db) && title != "" && file.path in db.files
    requires file.path != baseUrl + "/uploads/documents/" + file.filename
    ensures var up := Upload(db, user, Some(file), Some(title), baseUrl, now);
            var gone := DeleteDocument(up.db, user, ObjectId(up.reply.data.id));
            && gone.reply == Ok(200, (), Some(Deleted))
            && up.reply.data.id !in gone.db.documents
            && file.path in gone.db.files
  {
  }

  /** A document whose ingestion failed is never served by the AI features. */
  lemma FailedIsNotServable(db: Db, user: Id, id: Id)
    requires id in db.documents && db.documents[id].status == Failed
    ensures !Ai.Servable(db, user, id)
    ensures Ai.Admit(db, user, Some(ObjectId(id)), true, Ai.NeedDocumentId)
         == Ai.Refused(ErrorReply(404, ErrorBody(false, Ai.NotReady, 404, None)))
  {
  }
}
