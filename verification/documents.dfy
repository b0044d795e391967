/** The document controller: upload, the background ingestion step, and the
    owner-scoped list, read and delete. A Document is created `Processing` and
    the ingestion step moves it once, to `Ready` or to `Failed`. */
module Documents {
  import opened Optional
  import opened Http
  import opened Store

  /** The file Multer stored for the request: its disk path, generated file
      name, the client's file name and the size. */
  datatype UploadedFile = UploadedFile(path: string, filename: string, originalname: string, size: nat)

  /** The ingestion collaborators outside the model: the PDF parser applied to
      a file on disk, and the segmenter `chunkText(text, size, overlap)`. */
  datatype Ingestion = Ingestion(
    parsePdf: string -> Attempt<string>,
    chunkText: (string, nat, nat) -> Attempt<seq<Chunk>>)

  const ChunkSize: nat := 500
  const ChunkOverlap: nat := 50

  const NoFile := "Please upload a PDF file"
  const NoTitle := "Please provide a document title"
  const Uploaded := "Document uploaded successfully. Processing in progress..."
  const NotFound := "Document not found"
  const Deleted := "Document deleted successfully"

  // ---------------------------------------------------------------- upload

  /** The upload middleware, which runs before the handler: a received file is
      already written to its disk path when `uploadDocument` starts. */
  function Receive(db: Db, file: Option<UploadedFile>): Db {
    if file.Some? then db.(files := db.files + {file.value.path}) else db
  }

  /** The record an accepted upload creates. */
  function NewDocument(user: Id, title: string, file: UploadedFile, baseUrl: string, now: int): Document {
    Document(user, title, file.originalname, baseUrl + "/uploads/documents/" + file.filename, file.size,
             "PROCESSING", "", [], Processing, now, now)
  }

  /** `uploadDocument`. A missing file is refused before the title is looked
      at; a missing title is refused after deleting the uploaded file; an
      accepted upload creates exactly one Document, `Processing` with no text
      and no chunks, owned by the requester, whose `filePath` is the public
      URL of the file (not its disk path), and schedules its ingestion. */
  function Upload(db: Db, user: Id, file: Option<UploadedFile>, title: Option<string>,
                  baseUrl: string, now: int): (r: Step<Saved<Document>>)
    requires Valid(db)
    ensures Valid(r.db)
    ensures file.None? ==> r == Step(db, Refuse(400, NoFile))
    ensures file.Some? && !Present(title) ==>
              r == Step(db.(files := db.files - {file.value.path}), Refuse(400, NoTitle))
    ensures file.Some? && Present(title) ==>
              && r.reply.Ok? && r.reply.status == 201 && r.reply.message == Some(Uploaded)
              && r.reply.data.id !in db.documents && db.nextId <= r.reply.data.id < r.db.nextId
              && r.db.documents == db.documents[r.reply.data.id := r.reply.data.record]
              && r.db.pending == db.pending[r.reply.data.id := file.value.path]
              && r.db.files == db.files && r.db.flashcardSets == db.flashcardSets
              && r.db.quizzes == db.quizzes && r.db.histories == db.histories
              && r.reply.data.record.userId == user
              && r.reply.data.record.title == title.value
              && r.reply.data.record.status == Processing
              && r.reply.data.record.extractedText == ""
              && r.reply.data.record.chunks == []
              && r.reply.data.record.fileName == file.value.originalname
              && r.reply.data.record.filePath == baseUrl + "/uploads/documents/" + file.value.filename
              && r.reply.data.record.fileSize == file.value.size
              && r.reply.data.record.content == "PROCESSING"
              && r.reply.data.record.uploadDate == now && r.reply.data.record.lastAccessed == now
  {
    if file.None? then Step(db, Refuse(400, NoFile))
    else if !Present(title) then Step(db.(files := db.files - {file.value.path}), Refuse(400, NoTitle))
    else
      var id := db.nextId;
      var doc := NewDocument(user, title.value, file.value, baseUrl, now);
      Step(db.(documents := db.documents[id := doc], pending := db.pending[id := file.value.path],
               nextId := id + 1),
           Ok(201, Saved(id, doc), Some(Uploaded)))
  }

  // ------------------------------------------------------------ processPDF

  /** The fault `readFileSync` throws for a path that is not on disk. */
  function MissingFileFault(path: string): Fault {
    Fault("Error", "ENOENT: no such file or directory, open '" + path + "'", 0, 0, TextCode("ENOENT"), [], [], "")
  }

  /** `extractTextFromPDF(path)`: reading the file, then parsing it. */
  function Extract(files: set<string>, path: string, ing: Ingestion): (r: Attempt<string>)
    ensures path !in files ==> r.Threw?
    ensures path in files ==> r == ing.parsePdf(path)
  {
    if path in files then ing.parsePdf(path) else Threw(MissingFileFault(path))
  }

  /** The text and chunks the ingestion step writes, or `None` when extraction,
      chunking (with size 500 and overlap 50) or the ready-update fails. */
  function Ingested(files: set<string>, path: string, ing: Ingestion, writeOk: bool): (r: Option<(string, seq<Chunk>)>)
    ensures r.Some? <==> (Extract(files, path, ing).Done?
                          && ing.chunkText(Extract(files, path, ing).value, ChunkSize, ChunkOverlap).Done?
                          && writeOk)
    ensures r.Some? ==> Extract(files, path, ing) == Done(r.value.0)
                        && ing.chunkText(r.value.0, ChunkSize, ChunkOverlap) == Done(r.value.1)
  {
    match Extract(files, path, ing)
    case Threw(_) => None
    case Done(text) =>
      match ing.chunkText(text, ChunkSize, ChunkOverlap)
      case Threw(_) => None
      case Done(chunks) => if writeOk then Some((text, chunks)) else None
  }

  /** `processPDF`, run as a separate later step for a document whose upload
      scheduled it. Both of its updates target an existing identifier without
      upsert: a document deleted in the meantime stays deleted. On success the
      text, the chunks and `Ready` are written in one update; on any failure
      only the status changes, to `Failed`. Nothing else in the store changes. */
  function ProcessPdf(db: Db, id: Id, ing: Ingestion, writeOk: bool): (r: Db)
    requires id in db.pending
    ensures r.documents.Keys == db.documents.Keys
    ensures r.pending == db.pending - {id}
    ensures r.files == db.files && r.flashcardSets == db.flashcardSets && r.quizzes == db.quizzes
    ensures r.histories == db.histories && r.nextId == db.nextId
    ensures forall k :: k in db.documents && k != id ==> r.documents[k] == db.documents[k]
    ensures id in db.documents ==>
              match Ingested(db.files, db.pending[id], ing, writeOk)
              case Some((text, chunks)) =>
                r.documents[id] == db.documents[id].(extractedText := text, chunks := chunks, status := Ready)
              case None =>
                r.documents[id] == db.documents[id].(status := Failed)
  {
    var rest := db.pending - {id};
    if id !in db.documents then db.(pending := rest)
    else
      var doc := db.documents[id];
      var doc' := match Ingested(db.files, db.pending[id], ing, writeOk)
        case Some((text, chunks)) => doc.(extractedText := text, chunks := chunks, status := Ready)
        case None => doc.(status := Failed);
      db.(documents := db.documents[id := doc'], pending := rest)
  }

  // -------------------------------------------------------------- lifecycle

  /** What a document's status says about the rest of it: `Processing` exactly
      while its ingestion is still scheduled, with no text and no chunks;
      `Failed` with no text and no chunks; `Ready` with the chunks the segmenter
      makes of its text. */
  predicate Stage(doc: Document, scheduled: bool, ing: Ingestion) {
    match doc.status
    case Processing => scheduled && doc.extractedText == "" && doc.chunks == []
    case Failed => !scheduled && doc.extractedText == "" && doc.chunks == []
    case Ready => !scheduled && ing.chunkText(doc.extractedText, ChunkSize, ChunkOverlap) == Done(doc.chunks)
  }

  /** Every document is at a consistent stage of its lifecycle. */
  predicate Lifecycle(db: Db, ing: Ingestion) {
    forall id :: id in db.documents ==> Stage(db.documents[id], id in db.pending, ing)
  }

  /** A status may stay as it is or leave `Processing`; nothing else. */
  predicate Advances(before: Status, after: Status) {
    before == after || (before == Processing && after != Processing)
  }

  /** Uploading keeps every document at a consistent stage. */
  lemma UploadKeepsLifecycle(db: Db, user: Id, file: Option<UploadedFile>, title: Option<string>,
                             baseUrl: string, now: int, ing: Ingestion)
    requires Valid(db) && Lifecycle(db, ing)
    ensures Lifecycle(Upload(db, user, file, title, baseUrl, now).db, ing)
  {
  }

  /** The ingestion step moves its document from `Processing` to `Ready` or
      `Failed` and keeps every document at a consistent stage. */
  lemma ProcessPdfAdvances(db: Db, id: Id, ing: Ingestion, writeOk: bool)
    requires Lifecycle(db, ing) && id in db.pending
    ensures Lifecycle(ProcessPdf(db, id, ing, writeOk), ing)
    ensures id in db.documents ==> db.documents[id].status == Processing
    ensures id in db.documents ==> ProcessPdf(db, id, ing, writeOk).documents[id].status in {Ready, Failed}
    ensures forall k :: k in db.documents ==>
              Advances(db.documents[k].status, ProcessPdf(db, id, ing, writeOk).documents[k].status)
  {
  }

  // ------------------------------------------------------------ getDocuments

  /** A listed document with the sizes of its joined flashcard sets and quizzes. */
  datatype Listed = Listed(id: Id, document: Document, flashcardCount: nat, quizCount: nat)

  /** The body of the list response: `count` and `data`. */
  datatype Listing = Listing(count: nat, documents: seq<Listed>)

  /** Flashcard sets referring to document `doc`. */
  function FlashcardsOf(db: Db, doc: Id): set<Id> {
    set k | k in db.flashcardSets && db.flashcardSets[k].documentId == doc
  }

  /** Quizzes referring to document `doc`. */
  function QuizzesOf(db: Db, doc: Id): set<Id> {
    set k | k in db.quizzes && db.quizzes[k].documentId == doc
  }

  /** The list entry of a stored document (the `$lookup` joins match on the
      document identifier alone). */
  function Entry(db: Db, id: Id): Listed
    requires id in db.documents
  {
    Listed(id, db.documents[id], |FlashcardsOf(db, id)|, |QuizzesOf(db, id)|)
  }

  /** The identifiers in [`from`, `bound`) of documents owned by `user`, in
      increasing order. */
  function OwnedFrom(docs: map<Id, Document>, user: Id, from: nat, bound: nat): (ids: seq<Id>)
    ensures forall i :: 0 <= i < |ids| ==> ids[i] in docs && docs[ids[i]].userId == user && from <= ids[i] < bound
    ensures forall i, j :: 0 <= i < j < |ids| ==> ids[i] < ids[j]
    ensures forall k :: from <= k < bound && k in docs && docs[k].userId == user ==> k in ids
    decreases bound - from
  {
    if from >= bound then []
    else if from in docs && docs[from].userId == user then [from] + OwnedFrom(docs, user, from + 1, bound)
    else OwnedFrom(docs, user, from + 1, bound)
  }

  /** The sort key. */
  function Date(x: Listed): int { x.document.uploadDate }

  /** Newest upload first. */
  predicate NewestFirst(xs: seq<Listed>) {
    forall i, j :: 0 <= i < j < |xs| ==> Date(xs[i]) >= Date(xs[j])
  }

  /** An entry no older than any entry of a newest-first list can go in front. */
  lemma PrependNewest(h: Listed, t: seq<Listed>)
    requires NewestFirst(t)
    requires forall y :: y in t ==> Date(h) >= Date(y)
    ensures NewestFirst([h] + t)
  {
  }

  /** Inserts `x` into a newest-first list. */
  function InsertByDate(x: Listed, xs: seq<Listed>): (r: seq<Listed>)
    requires NewestFirst(xs)
    ensures NewestFirst(r)
    ensures multiset(r) == multiset(xs) + multiset{x}
    ensures forall y :: y in r ==> y == x || y in xs
    decreases |xs|
  {
    if |xs| == 0 || Date(x) >= Date(xs[0]) then
      PrependNewest(x, xs);
      [x] + xs
    else
      assert NewestFirst(xs[1..]) by {
        forall i, j | 0 <= i < j < |xs[1..]| ensures Date(xs[1..][i]) >= Date(xs[1..][j]) {
          assert xs[1..][i] == xs[i + 1] && xs[1..][j] == xs[j + 1];
        }
      }
      var tail := InsertByDate(x, xs[1..]);
      assert forall y :: y in xs[1..] ==> Date(xs[0]) >= Date(y) by {
        forall y | y in xs[1..] ensures Date(xs[0]) >= Date(y) {
          var j :| 0 <= j < |xs[1..]| && xs[1..][j] == y;
          assert xs[j + 1] == y;
        }
      }
      PrependNewest(xs[0], tail);
      assert xs == [xs[0]] + xs[1..];
      [xs[0]] + tail
  }

  /** `$sort: { uploadDate: -1 }`: a newest-first arrangement of the same
      entries (the order among equal dates is not promised). */
  function SortByDate(xs: seq<Listed>): (r: seq<Listed>)
    ensures NewestFirst(r)
    ensures multiset(r) == multiset(xs)
    decreases |xs|
  {
    if |xs| == 0 then []
    else
      assert xs == [xs[0]] + xs[1..];
      InsertByDate(xs[0], SortByDate(xs[1..]))
  }

  /** An element occurring at two positions of a sequence occurs at least
      twice in its multiset. */
  lemma TwoPositions<T>(s: seq<T>, i: nat, j: nat)
    requires i < j < |s| && s[i] == s[j]
    ensures multiset(s)[s[i]] >= 2
  {
    assert s == s[..i] + [s[i]] + s[i + 1..j] + [s[j]] + s[j + 1..];
  }

  /** In a sequence without repetitions every element occurs once. */
  lemma {:induction false} OnceEach<T>(s: seq<T>, x: T)
    requires forall i, j :: 0 <= i < j < |s| ==> s[i] != s[j]
    ensures multiset(s)[x] <= 1
    decreases |s|
  {
    if |s| > 0 {
      assert s == [s[0]] + s[1..];
      OnceEach(s[1..], x);
      if x == s[0] {
        assert x !in s[1..];
      }
    }
  }

  /** A rearrangement of a sequence without repetitions has none either. */
  lemma PermutationKeepsDistinct<T>(a: seq<T>, b: seq<T>)
    requires multiset(a) == multiset(b)
    requires forall i, j :: 0 <= i < j < |b| ==> b[i] != b[j]
    ensures forall i, j :: 0 <= i < j < |a| ==> a[i] != a[j]
  {
    forall i, j | 0 <= i < j < |a|
      ensures a[i] != a[j]
    {
      if a[i] == a[j] {
        TwoPositions(a, i, j);
        OnceEach(b, a[i]);
        assert false;
      }
    }
  }

  /** The entries are exactly the requester's documents, each once. */
  ghost predicate ListsOwned(db: Db, user: Id, xs: seq<Listed>) {
    && (forall i :: 0 <= i < |xs| ==> Owns(db, user, xs[i].id) && xs[i] == Entry(db, xs[i].id))
    && (forall k :: Owns(db, user, k) ==> exists i :: 0 <= i < |xs| && xs[i].id == k)
    && (forall i, j :: 0 <= i < j < |xs| ==> xs[i].id != xs[j].id)
  }

  /** The `$match` stage: the requester's documents in identifier order. */
  function OwnedEntries(db: Db, user: Id): (xs: seq<Listed>)
    requires Valid(db)
    ensures ListsOwned(db, user, xs)
  {
    var ids := OwnedFrom(db.documents, user, 0, db.nextId);
    var xs := seq(|ids|, i requires 0 <= i < |ids| => Entry(db, ids[i]));
    assert forall k :: Owns(db, user, k) ==> exists i :: 0 <= i < |xs| && xs[i].id == k by {
      forall k | Owns(db, user, k) ensures exists i :: 0 <= i < |xs| && xs[i].id == k {
        var i :| 0 <= i < |ids| && ids[i] == k;
        assert xs[i].id == k;
      }
    }
    xs
  }

  /** Rearranging the entries keeps them exactly the requester's, each once. */
  lemma RearrangedListsOwned(db: Db, user: Id, a: seq<Listed>, b: seq<Listed>)
    requires ListsOwned(db, user, b)
    requires multiset(a) == multiset(b)
    ensures ListsOwned(db, user, a)
  {
    forall i | 0 <= i < |a| ensures Owns(db, user, a[i].id) && a[i] == Entry(db, a[i].id) {
      assert a[i] in multiset(b);
    }
    forall k | Owns(db, user, k) ensures exists i :: 0 <= i < |a| && a[i].id == k {
      var p :| 0 <= p < |b| && b[p].id == k;
      assert b[p] in multiset(a);
      var i :| 0 <= i < |a| && a[i] == b[p];
    }
    assert forall i, j :: 0 <= i < j < |b| ==> b[i] != b[j];
    PermutationKeepsDistinct(a, b);
  }

  /** `getDocuments`: exactly the requester's documents, each once and with
      its join counts, newest upload first, with `count` the number returned.
      The store is not changed. */
  function GetDocuments(db: Db, user: Id): (r: Reply<Listing>)
    requires Valid(db)
    ensures r.Ok? && r.status == 200 && r.message == None
    ensures r.data.count == |r.data.documents|
    ensures NewestFirst(r.data.documents)
    ensures ListsOwned(db, user, r.data.documents)
  {
    var entries := OwnedEntries(db, user);
    var sorted := SortByDate(entries);
    RearrangedListsOwned(db, user, sorted, entries);
    Ok(200, Listing(|sorted|, sorted), None)
  }

  // ------------------------------------------------------------- getDocument

  /** A document with the counts of the requester's flashcard sets and quizzes
      for it. */
  datatype Detail = Detail(id: Id, document: Document, flashcardCount: nat, quizCount: nat)

  /** The requester's flashcard sets for document `doc`. */
  function OwnFlashcardsOf(db: Db, user: Id, doc: Id): set<Id> {
    set k | k in db.flashcardSets && db.flashcardSets[k].documentId == doc && db.flashcardSets[k].userId == user
  }

  /** The requester's quizzes for document `doc`. */
  function OwnQuizzesOf(db: Db, user: Id, doc: Id): set<Id> {
    set k | k in db.quizzes && db.quizzes[k].documentId == doc && db.quizzes[k].userId == user
  }

  /** `getDocument`: found only when both the identifier and the owner match,
      otherwise 404 with no change. When found, only its `lastAccessed` is
      updated and the reply carries the updated record and the counts. */
  function GetDocument(db: Db, user: Id, param: IdArg, now: int): (r: Step<Detail>)
    ensures param.Uncastable? ==> r == Step(db, Forward(CastFault(param.text)))
    ensures param.ObjectId? && !Owns(db, user, param.id) ==> r == Step(db, Refuse(404, NotFound))
    ensures param.ObjectId? && Owns(db, user, param.id) ==>
              && r.reply.Ok? && r.reply.status == 200
              && r.reply.data.id == param.id
              && r.reply.data.document == db.documents[param.id].(lastAccessed := now)
              && r.reply.data.flashcardCount == |OwnFlashcardsOf(db, user, param.id)|
              && r.reply.data.quizCount == |OwnQuizzesOf(db, user, param.id)|
              && r.db == db.(documents := db.documents[param.id := r.reply.data.document])
  {
    match param
    case Uncastable(text) => Step(db, Forward(CastFault(text)))
    case ObjectId(id) =>
      if !Owns(db, user, id) then Step(db, Refuse(404, NotFound))
      else
        var doc := db.documents[id].(lastAccessed := now);
        Step(db.(documents := db.documents[id := doc]),
             Ok(200, Detail(id, doc, |OwnFlashcardsOf(db, user, id)|, |OwnQuizzesOf(db, user, id)|), None))
  }

  // ---------------------------------------------------------- deleteDocument

  /** `deleteDocument`: found only when both the identifier and the owner
      match, otherwise 404 with no change. When found, the stored `filePath` is
      unlinked (a failure to unlink is ignored) and that Document record alone
      is removed: flashcard sets, quizzes, chat histories and a still scheduled
      ingestion are left as they are. */
  function DeleteDocument(db: Db, user: Id, param: IdArg): (r: Step<()>)
    ensures param.Uncastable? ==> r == Step(db, Forward(CastFault(param.text)))
    ensures param.ObjectId? && !Owns(db, user, param.id) ==> r == Step(db, Refuse(404, NotFound))
    ensures param.ObjectId? && Owns(db, user, param.id) ==>
              && r.reply == Ok(200, (), Some(Deleted))
              && r.db.documents == db.documents - {param.id}
              && r.db.files == db.files - {db.documents[param.id].filePath}
              && r.db.flashcardSets == db.flashcardSets && r.db.quizzes == db.quizzes
              && r.db.histories == db.histories && r.db.pending == db.pending
              && r.db.nextId == db.nextId
  {
    match param
    case Uncastable(text) => Step(db, Forward(CastFault(text)))
    case ObjectId(id) =>
      if !Owns(db, user, id) then Step(db, Refuse(404, NotFound))
      else
        Step(db.(files := db.files - {db.documents[id].filePath}, documents := db.documents - {id}),
             Ok(200, (), Some(Deleted)))
  }
}
