/** The persistent store the controllers work on: the Document, Flashcard,
    Quiz and ChatHistory collections as maps from identifier to record, the
    upload directory, and the background ingestion calls still to run. */
module Store {
  import opened Optional
  import opened Http

  /** A document's processing state. */
  datatype Status = Processing | Ready | Failed

  /** One segment of a document's text, as the segmenter produces it; the
      controllers use only these two fields. */
  datatype Chunk = Chunk(chunkIndex: int, content: string)

  /** A Document record. `filePath` holds the public URL of the upload;
      `uploadDate` and `lastAccessed` are timestamps. */
  datatype Document = Document(
    userId: Id,
    title: string,
    fileName: string,
    filePath: string,
    fileSize: nat,
    content: string,
    extractedText: string,
    chunks: seq<Chunk>,
    status: Status,
    uploadDate: int,
    lastAccessed: int)

  /** A stored flashcard. */
  datatype Card = Card(question: string, answer: string, difficulty: string, reviewCount: nat, isStarred: bool)

  /** A Flashcard record: one generated set of cards for a document. */
  datatype FlashcardSet = FlashcardSet(userId: Id, documentId: Id, cards: seq<Card>)

  /** One generated quiz question, stored verbatim; its fields belong to the
      generation service and are never inspected here. */
  datatype QuizItem = QuizItem(json: string)

  /** One recorded answer of a quiz attempt, likewise opaque. */
  datatype Answer = Answer(json: string)

  /** A Quiz record. */
  datatype Quiz = Quiz(
    userId: Id,
    documentId: Id,
    title: string,
    questions: seq<QuizItem>,
    totalQuestions: nat,
    userAnswers: seq<Answer>,
    score: int)

  datatype Role = UserRole | AssistantRole

  /** One turn of a conversation; `relevantChunks` are chunk indices. */
  datatype Message = Message(role: Role, content: string, timestamp: int, relevantChunks: seq<int>)

  /** A ChatHistory record: the conversation of one user about one document. */
  datatype ChatHistory = ChatHistory(userId: Id, documentId: Id, messages: seq<Message>)

  /** The whole store. `pending` maps a document to the disk path of the upload
      its background ingestion call will read; `files` is the set of paths on
      disk; `nextId` is where the store's fresh identifiers come from. */
  datatype Db = Db(
    documents: map<Id, Document>,
    flashcardSets: map<Id, FlashcardSet>,
    quizzes: map<Id, Quiz>,
    histories: map<Id, ChatHistory>,
    pending: map<Id, string>,
    files: set<string>,
    nextId: Id)

  /** A handler's effect: the store afterwards and the reply. */
  datatype Step<T> = Step(db: Db, reply: Reply<T>)

  /** A record together with the identifier it is stored under. */
  datatype Saved<T> = Saved(id: Id, record: T)

  /** The store before any request. */
  function EmptyDb(): Db {
    Db(map[], map[], map[], map[], map[], {}, 0)
  }

  /** Every key of `m` is below `bound`. */
  predicate Below<T>(m: map<Id, T>, bound: Id) {
    forall id :: id in m ==> id < bound
  }

  /** Every key `after` has and `before` lacks was drawn from the counter
      between `lo` and `hi`: it is fresh, never an identifier used before. */
  predicate FreshKeys<T>(before: map<Id, T>, after: map<Id, T>, lo: Id, hi: Id) {
    forall k :: k in after && k !in before ==> lo <= k < hi
  }

  /** `h` is the conversation of `user` about `doc`. */
  predicate HistoryOf(h: ChatHistory, user: Id, doc: Id) {
    h.userId == user && h.documentId == doc
  }

  /** No two histories belong to the same (user, document) pair. */
  predicate OneHistoryPerPair(hs: map<Id, ChatHistory>) {
    forall a, b :: a in hs && b in hs && HistoryOf(hs[b], hs[a].userId, hs[a].documentId) ==> a == b
  }

  /** The store's own invariant: identifiers already handed out are below
      `nextId` (so a fresh identifier is never in use and never reused), and
      there is at most one chat history per (user, document). */
  predicate Valid(db: Db) {
    && Below(db.documents, db.nextId)
    && Below(db.flashcardSets, db.nextId)
    && Below(db.quizzes, db.nextId)
    && Below(db.histories, db.nextId)
    && Below(db.pending, db.nextId)
    && OneHistoryPerPair(db.histories)
  }

  /** The first history of (`user`, `doc`) with identifier in [`from`, `bound`),
      scanning in identifier order, which is insertion order. */
  function FirstHistory(hs: map<Id, ChatHistory>, user: Id, doc: Id, from: nat, bound: nat): (r: Option<Id>)
    ensures r.Some? ==> r.value in hs && HistoryOf(hs[r.value], user, doc) && from <= r.value < bound
    ensures r.None? ==> forall k :: from <= k < bound && k in hs ==> !HistoryOf(hs[k], user, doc)
    decreases bound - from
  {
    if from >= bound then None
    else if from in hs && HistoryOf(hs[from], user, doc) then Some(from)
    else FirstHistory(hs, user, doc, from + 1, bound)
  }

  /** `ChatHistory.findOne({ userId, documentId })`. */
  function FindHistory(db: Db, user: Id, doc: Id): Option<Id> {
    FirstHistory(db.histories, user, doc, 0, db.nextId)
  }

  /** In a valid store the lookup finds a history exactly when the pair has
      one, and then it finds that one. */
  lemma FindHistoryExact(db: Db, user: Id, doc: Id)
    requires Valid(db)
    ensures FindHistory(db, user, doc).None? <==> forall k :: k in db.histories ==> !HistoryOf(db.histories[k], user, doc)
    ensures forall k :: k in db.histories && HistoryOf(db.histories[k], user, doc) ==> FindHistory(db, user, doc) == Some(k)
  {
  }

  /** The messages of the pair's history, or none when it has no history. */
  function Messages(db: Db, user: Id, doc: Id): seq<Message> {
    match FindHistory(db, user, doc)
    case Some(h) => db.histories[h].messages
    case None => []
  }

  /** The document exists and belongs to `user`. */
  predicate Owns(db: Db, user: Id, id: Id) {
    id in db.documents && db.documents[id].userId == user
  }
}
