/** The AI controller: flashcards, quizzes, summaries, chat and concept
    explanations over a ready document, and the chat-history read. The ranker
    and the generation service are outside the model and arrive as functions. */
module Ai {
  import opened Optional
  import opened Http
  import opened Store
  import Text

  /** A flashcard as the generation service returns it. */
  datatype GeneratedCard = GeneratedCard(question: string, answer: string, difficulty: string)

  /** The collaborators: `findRelevantChunks(chunks, query, topN)` and the
      generation service's five calls. */
  datatype Services = Services(
    rank: (seq<Chunk>, string, nat) -> Attempt<seq<Chunk>>,
    flashcards: (string, int) -> Attempt<seq<GeneratedCard>>,
    quiz: (string, int) -> Attempt<seq<QuizItem>>,
    summary: string -> Attempt<string>,
    chatWithContext: (string, seq<Chunk>) -> Attempt<string>,
    explain: (string, string) -> Attempt<string>)

  const TopN: nat := 3
  const DefaultCardCount := 10
  const DefaultQuestionCount := 5

  const NeedDocumentId := "Please provide documentId"
  const NeedQuestion := "Please provide documentId and question"
  const NeedConcept := "Please provide documentId and concept"
  const NotReady := "Document not found or not ready"
  const CardsGenerated := "Flashcards generated successfully"
  const QuizGenerated := "Quiz generated successfully"
  const SummaryGenerated := "Summary generated successfully"
  const ChatAnswered := "Response generated successfully"
  const ConceptExplained := "Explanation generated successfully"
  const NoHistory := "No chat history found for this document"
  const HistoryFound := "Chat history retrieved successfully"

  // ------------------------------------------------------------ the gate

  /** The document exists, belongs to `user` and is ready. */
  predicate Servable(db: Db, user: Id, id: Id) {
    id in db.documents && db.documents[id].userId == user && db.documents[id].status == Ready
  }

  /** Whether a request passes validation and the readiness lookup
      `Document.findOne({ _id, userId, status: "ready" })`. */
  datatype Admission = Admitted(id: Id) | Refused(response: ErrorReply) | CastFailed(fault: Fault)

  /** The validation and readiness prefix every generator shares. Missing
      inputs give 400 with `missing`; an identifier that does not cast makes the
      query throw; a document that is absent, someone else's, or not ready gives
      one and the same 404. */
  function Admit(db: Db, user: Id, documentId: Option<IdArg>, inputsPresent: bool, missing: string): (a: Admission)
    ensures a.Admitted? <==> PresentId(documentId) && inputsPresent && documentId.value.ObjectId?
                             && Servable(db, user, documentId.value.id)
    ensures a.Admitted? ==> a.id == documentId.value.id
    ensures !(PresentId(documentId) && inputsPresent) ==> a == Refused(ErrorReply(400, ErrorBody(false, missing, 400, None)))
    ensures PresentId(documentId) && inputsPresent && documentId.value.Uncastable? ==>
              a == CastFailed(CastFault(documentId.value.text))
    ensures (PresentId(documentId) && inputsPresent && documentId.value.ObjectId?
             && !Servable(db, user, documentId.value.id))
              ==> a == Refused(ErrorReply(404, ErrorBody(false, NotReady, 404, None)))
  {
    if !(PresentId(documentId) && inputsPresent) then Refused(ErrorReply(400, ErrorBody(false, missing, 400, None)))
    else
      match documentId.value
      case Uncastable(text) => CastFailed(CastFault(text))
      case ObjectId(id) =>
        if Servable(db, user, id) then Admitted(id)
        else Refused(ErrorReply(404, ErrorBody(false, NotReady, 404, None)))
  }

  /** The reply that ends a request the gate did not admit. */
  function Reject<T>(a: Admission): Reply<T>
    requires !a.Admitted?
  {
    match a
    case Refused(response) => Fail(response)
    case CastFailed(fault) => Forward(fault)
  }

  // ------------------------------------------------------------- flashcards

  /** The stored form of a generated card: its text kept, never reviewed, not
      starred. */
  function StoreCard(c: GeneratedCard): Card {
    Card(c.question, c.answer, c.difficulty, 0, false)
  }

  /** `generateFlashcards`. After the gate, the service is asked for `count`
      cards (10 when absent) from the document's text; a throw is forwarded and
      nothing is stored; otherwise one flashcard set is created holding the
      generated cards in order, with their question, answer and difficulty, a
      review count of 0 and not starred. */
  function GenerateFlashcards(db: Db, user: Id, documentId: Option<IdArg>, count: Option<int>,
                              svc: Services): (r: Step<Saved<FlashcardSet>>)
    requires Valid(db)
    ensures Valid(r.db)
    ensures !Admit(db, user, documentId, true, NeedDocumentId).Admitted? ==>
              r == Step(db, Reject(Admit(db, user, documentId, true, NeedDocumentId)))
    ensures Admit(db, user, documentId, true, NeedDocumentId).Admitted? ==>
              match svc.flashcards(db.documents[documentId.value.id].extractedText, count.GetOr(DefaultCardCount))
              case Threw(f) => r == Step(db, Forward(f))
              case Done(cards) =>
                && r.reply.Ok? && r.reply.status == 201 && r.reply.message == Some(CardsGenerated)
                && r.reply.data.id !in db.flashcardSets && db.nextId <= r.reply.data.id < r.db.nextId
                && r.db == db.(flashcardSets := db.flashcardSets[r.reply.data.id := r.reply.data.record],
                               nextId := r.db.nextId)
                && r.reply.data.record.userId == user
                && r.reply.data.record.documentId == documentId.value.id
                && |r.reply.data.record.cards| == |cards|
                && forall i :: 0 <= i < |cards| ==>
                     && r.reply.data.record.cards[i].question == cards[i].question
                     && r.reply.data.record.cards[i].answer == cards[i].answer
                     && r.reply.data.record.cards[i].difficulty == cards[i].difficulty
                     && r.reply.data.record.cards[i].reviewCount == 0
                     && !r.reply.data.record.cards[i].isStarred
  {
    var a := Admit(db, user, documentId, true, NeedDocumentId);
    if !a.Admitted? then Step(db, Reject(a))
    else
      var doc := db.documents[a.id];
      match svc.flashcards(doc.extractedText, count.GetOr(DefaultCardCount))
      case Threw(f) => Step(db, Forward(f))
      case Done(cards) =>
        var set' := FlashcardSet(user, a.id, seq(|cards|, i requires 0 <= i < |cards| => StoreCard(cards[i])));
        var id := db.nextId;
        Step(db.(flashcardSets := db.flashcardSets[id := set'], nextId := id + 1),
             Ok(201, Saved(id, set'), Some(CardsGenerated)))
  }

  // ------------------------------------------------------------------- quiz

  /** The quiz title: the one given, or "<document title> - Quiz". */
  function QuizTitle(title: Option<string>, doc: Document): string {
    if Present(title) then title.value else doc.title + " - Quiz"
  }

  /** `generateQuiz`. After the gate, the service is asked for `numQuestions`
      questions (5 when absent); a throw is forwarded and nothing is stored;
      otherwise one quiz is created with the questions as generated,
      `totalQuestions` their number, no answers and a score of 0. */
  function GenerateQuiz(db: Db, user: Id, documentId: Option<IdArg>, numQuestions: Option<int>,
                        title: Option<string>, svc: Services): (r: Step<Saved<Quiz>>)
    requires Valid(db)
    ensures Valid(r.db)
    ensures !Admit(db, user, documentId, true, NeedDocumentId).Admitted? ==>
              r == Step(db, Reject(Admit(db, user, documentId, true, NeedDocumentId)))
    ensures Admit(db, user, documentId, true, NeedDocumentId).Admitted? ==>
              var doc := db.documents[documentId.value.id];
              match svc.quiz(doc.extractedText, numQuestions.GetOr(DefaultQuestionCount))
              case Threw(f) => r == Step(db, Forward(f))
              case Done(questions) =>
                && r.reply.Ok? && r.reply.status == 201 && r.reply.message == Some(QuizGenerated)
                && r.reply.data.id !in db.quizzes && db.nextId <= r.reply.data.id < r.db.nextId
                && r.db == db.(quizzes := db.quizzes[r.reply.data.id := r.reply.data.record], nextId := r.db.nextId)
                && r.reply.data.record.userId == user
                && r.reply.data.record.documentId == documentId.value.id
                && r.reply.data.record.questions == questions
                && r.reply.data.record.totalQuestions == |questions|
                && r.reply.data.record.userAnswers == []
                && r.reply.data.record.score == 0
                && (Present(title) ==> r.reply.data.record.title == title.value)
                && (!Present(title) ==> r.reply.data.record.title == doc.title + " - Quiz")
  {
    var a := Admit(db, user, documentId, true, NeedDocumentId);
    if !a.Admitted? then Step(db, Reject(a))
    else
      var doc := db.documents[a.id];
      match svc.quiz(doc.extractedText, numQuestions.GetOr(DefaultQuestionCount))
      case Threw(f) => Step(db, Forward(f))
      case Done(questions) =>
        var quiz := Quiz(user, a.id, QuizTitle(title, doc), questions, |questions|, [], 0);
        var id := db.nextId;
        Step(db.(quizzes := db.quizzes[id := quiz], nextId := id + 1),
             Ok(201, Saved(id, quiz), Some(QuizGenerated)))
  }

  // ---------------------------------------------------------------- summary

  /** The summary response body. */
  datatype SummaryData = SummaryData(documentId: Id, title: string, summary: string)

  /** `generateSummary`: after the gate, the service's summary of the text,
      returned and not stored. */
  function GenerateSummary(db: Db, user: Id, documentId: Option<IdArg>, svc: Services): (r: Reply<SummaryData>)
    ensures !Admit(db, user, documentId, true, NeedDocumentId).Admitted? ==>
              r == Reject(Admit(db, user, documentId, true, NeedDocumentId))
    ensures Admit(db, user, documentId, true, NeedDocumentId).Admitted? ==>
              var doc := db.documents[documentId.value.id];
              match svc.summary(doc.extractedText)
              case Threw(f) => r == Forward(f)
              case Done(s) => r == Ok(200, SummaryData(documentId.value.id, doc.title, s), Some(SummaryGenerated))
  {
    var a := Admit(db, user, documentId, true, NeedDocumentId);
    if !a.Admitted? then Reject(a)
    else
      var doc := db.documents[a.id];
      match svc.summary(doc.extractedText)
      case Threw(f) => Forward(f)
      case Done(s) => Ok(200, SummaryData(a.id, doc.title, s), Some(SummaryGenerated))
  }

  // ------------------------------------------------------------------- chat

  /** `relevantChunks.map(c => c.chunkIndex)`. */
  function Indices(chunks: seq<Chunk>): (r: seq<int>)
    ensures |r| == |chunks|
    ensures forall i :: 0 <= i < |chunks| ==> r[i] == chunks[i].chunkIndex
  {
    seq(|chunks|, i requires 0 <= i < |chunks| => chunks[i].chunkIndex)
  }

  /** The chat response body. */
  datatype ChatAnswer = ChatAnswer(question: string, answer: string, relevantChunks: seq<int>, chatHistoryId: Id)

  /** The history a chat call appends to: the pair's existing one, or a new
      empty one, created (and saved) only when the pair has none. */
  function OpenHistory(db: Db, user: Id, doc: Id): (r: (Db, Id))
    requires Valid(db)
    ensures Valid(r.0)
    ensures r.1 in r.0.histories && HistoryOf(r.0.histories[r.1], user, doc)
    ensures FindHistory(r.0, user, doc) == Some(r.1)
    ensures FindHistory(db, user, doc).Some? ==> r == (db, FindHistory(db, user, doc).value)
    ensures FindHistory(db, user, doc).None? ==>
              && r.1 !in db.histories && db.nextId <= r.1 < r.0.nextId
              && r.0 == db.(histories := db.histories[r.1 := ChatHistory(user, doc, [])], nextId := r.0.nextId)
  {
    FindHistoryExact(db, user, doc);
    match FindHistory(db, user, doc)
    case Some(h) => (db, h)
    case None =>
      var h := db.nextId;
      var db' := db.(histories := db.histories[h := ChatHistory(user, doc, [])], nextId := h + 1);
      FindHistoryExact(db', user, doc);
      (db', h)
  }

  /** The two turns one successful chat call records. */
  function Exchange(question: string, answer: string, indices: seq<int>, now: int): seq<Message> {
    [Message(UserRole, question, now, []), Message(AssistantRole, answer, now, indices)]
  }

  /** `chat`. After the gate (which also needs a question), the ranker picks up
      to three chunks; a ranker failure is forwarded before anything is
      stored. Then the pair's history is found or created, and the service
      answers. A throw is forwarded and no message is recorded, but the pair
      now has a history (a new one stays empty). Otherwise exactly two
      messages are appended: the question with no chunks, then the answer with
      the ranked chunks' indices in ranker order, which the response repeats.
      Other pairs' histories, documents, flashcards and quizzes are untouched. */
  function Chat(db: Db, user: Id, documentId: Option<IdArg>, question: Option<string>,
                svc: Services, now: int): (r: Step<ChatAnswer>)
    requires Valid(db)
    ensures Valid(r.db)
    ensures r.db.documents == db.documents && r.db.pending == db.pending && r.db.files == db.files
    ensures r.db.flashcardSets == db.flashcardSets && r.db.quizzes == db.quizzes
    ensures FreshKeys(db.histories, r.db.histories, db.nextId, r.db.nextId)
    ensures !Admit(db, user, documentId, Present(question), NeedQuestion).Admitted? ==>
              r == Step(db, Reject(Admit(db, user, documentId, Present(question), NeedQuestion)))
    ensures Admit(db, user, documentId, Present(question), NeedQuestion).Admitted? ==>
              var doc := documentId.value.id;
              match svc.rank(db.documents[doc].chunks, question.value, TopN)
              case Threw(f) => r == Step(db, Forward(f))
              case Done(ranked) =>
                && r.db.histories.Keys >= db.histories.Keys
                && (forall k :: k in db.histories ==>
                      HistoryOf(r.db.histories[k], db.histories[k].userId, db.histories[k].documentId))
                && (FindHistory(db, user, doc).Some? ==>
                      && r.db.histories.Keys == db.histories.Keys
                      && FindHistory(r.db, user, doc) == FindHistory(db, user, doc))
                && (forall k :: k in db.histories && !HistoryOf(db.histories[k], user, doc) ==>
                      r.db.histories[k] == db.histories[k])
                && (forall k :: k in r.db.histories && k !in db.histories ==> HistoryOf(r.db.histories[k], user, doc))
                && FindHistory(r.db, user, doc).Some?
                && match svc.chatWithContext(question.value, ranked)
                   case Threw(f) =>
                     r.reply == Forward(f) && Messages(r.db, user, doc) == Messages(db, user, doc)
                   case Done(answer) =>
                     && r.reply.Ok?
                     && r.reply == Ok(200, ChatAnswer(question.value, answer, Indices(ranked), r.reply.data.chatHistoryId),
                                      Some(ChatAnswered))
                     && FindHistory(r.db, user, doc) == Some(r.reply.data.chatHistoryId)
                     && Messages(r.db, user, doc)
                          == Messages(db, user, doc) + Exchange(question.value, answer, Indices(ranked), now)
  {
    var a := Admit(db, user, documentId, Present(question), NeedQuestion);
    if !a.Admitted? then Step(db, Reject(a))
    else
      var q := question.value;
      match svc.rank(db.documents[a.id].chunks, q, TopN)
      case Threw(f) => Step(db, Forward(f))
      case Done(ranked) =>
        var indices := Indices(ranked);
        var (db1, h) := OpenHistory(db, user, a.id);
        match svc.chatWithContext(q, ranked)
        case Threw(f) => Step(db1, Forward(f))
        case Done(answer) =>
          var history := db1.histories[h];
          var db2 := db1.(histories := db1.histories[h := history.(messages := history.messages + Exchange(q, answer, indices, now))]);
          FindHistoryExact(db2, user, a.id);
          Step(db2, Ok(200, ChatAnswer(q, answer, indices, h), Some(ChatAnswered)))
  }

  // ---------------------------------------------------------- explainConcept

  /** The grounding text: the chunks' contents in the given order, separated by
      a blank line. */
  function Context(chunks: seq<Chunk>): string {
    Text.Join(seq(|chunks|, i requires 0 <= i < |chunks| => chunks[i].content), "\n\n")
  }

  /** The explanation response body. */
  datatype Explanation = Explanation(concept: string, explanation: string, relevantChunks: seq<int>)

  /** `explainConcept`. After the gate (which also needs a concept), the ranker
      picks up to three chunks (its failure is forwarded), their contents
      joined in ranker order are sent with the concept, and the answer is
      returned with the chunks' indices. It changes nothing in the store. */
  function ExplainConcept(db: Db, user: Id, documentId: Option<IdArg>, concept: Option<string>,
                          svc: Services): (r: Reply<Explanation>)
    ensures !Admit(db, user, documentId, Present(concept), NeedConcept).Admitted? ==>
              r == Reject(Admit(db, user, documentId, Present(concept), NeedConcept))
    ensures Admit(db, user, documentId, Present(concept), NeedConcept).Admitted? ==>
              match svc.rank(db.documents[documentId.value.id].chunks, concept.value, TopN)
              case Threw(f) => r == Forward(f)
              case Done(ranked) =>
                match svc.explain(concept.value, Context(ranked))
                case Threw(f) => r == Forward(f)
                case Done(e) => r == Ok(200, Explanation(concept.value, e, Indices(ranked)), Some(ConceptExplained))
  {
    var a := Admit(db, user, documentId, Present(concept), NeedConcept);
    if !a.Admitted? then Reject(a)
    else
      match svc.rank(db.documents[a.id].chunks, concept.value, TopN)
      case Threw(f) => Forward(f)
      case Done(ranked) =>
        match svc.explain(concept.value, Context(ranked))
        case Threw(f) => Forward(f)
        case Done(e) => Ok(200, Explanation(concept.value, e, Indices(ranked)), Some(ConceptExplained))
  }

  // ---------------------------------------------------------- getChatHistory

  /** `getChatHistory`: the messages of the requester's history for the
      document, and an empty list (a success, not an error) when there is
      none. The document itself is not consulted. */
  function GetChatHistory(db: Db, user: Id, documentId: Option<IdArg>): (r: Reply<seq<Message>>)
    ensures !PresentId(documentId) ==> r == Refuse(400, NeedDocumentId)
    ensures PresentId(documentId) && documentId.value.Uncastable? ==> r == Forward(CastFault(documentId.value.text))
    ensures PresentId(documentId) && documentId.value.ObjectId? ==>
              && r.Ok? && r.status == 200 && r.data == Messages(db, user, documentId.value.id)
              && (FindHistory(db, user, documentId.value.id).None? ==> r == Ok(200, [], Some(NoHistory)))
              && (FindHistory(db, user, documentId.value.id).Some? ==> r.message == Some(HistoryFound))
  {
    if !PresentId(documentId) then Refuse(400, NeedDocumentId)
    else
      match documentId.value
      case Uncastable(text) => Forward(CastFault(text))
      case ObjectId(doc) =>
        match FindHistory(db, user, doc)
        case None => Ok(200, [], Some(NoHistory))
        case Some(h) => Ok(200, db.histories[h].messages, Some(HistoryFound))
  }

  // ------------------------------------------------------------------ lemmas

  /** A successful chat call followed by a history read returns the earlier
      conversation followed by the question and the answer. */
  lemma ChatThenHistory(db: Db, user: Id, doc: Id, question: string, svc: Services, now: int)
    requires Valid(db) && Servable(db, user, doc) && question != ""
    requires svc.rank(db.documents[doc].chunks, question, TopN).Done?
    requires svc.chatWithContext(question, svc.rank(db.documents[doc].chunks, question, TopN).value).Done?
    ensures var ranked := svc.rank(db.documents[doc].chunks, question, TopN).value;
            var answer := svc.chatWithContext(question, ranked).value;
            GetChatHistory(Chat(db, user, Some(ObjectId(doc)), Some(question), svc, now).db, user, Some(ObjectId(doc))).data
              == Messages(db, user, doc) + Exchange(question, answer, Indices(ranked), now)
  {
  }

  /** Two chat calls in a row leave exactly four new messages, alternating
      question and answer, after the earlier conversation. */
  lemma TwoChatsAppendInOrder(db: Db, user: Id, doc: Id, q1: string, q2: string, svc: Services, t1: int, t2: int)
    requires Valid(db) && Servable(db, user, doc) && q1 != "" && q2 != ""
    requires svc.rank(db.documents[doc].chunks, q1, TopN).Done? && svc.rank(db.documents[doc].chunks, q2, TopN).Done?
    requires svc.chatWithContext(q1, svc.rank(db.documents[doc].chunks, q1, TopN).value).Done?
    requires svc.chatWithContext(q2, svc.rank(db.documents[doc].chunks, q2, TopN).value).Done?
    ensures var db1 := Chat(db, user, Some(ObjectId(doc)), Some(q1), svc, t1).db;
            var db2 := Chat(db1, user, Some(ObjectId(doc)), Some(q2), svc, t2).db;
            var ms := Messages(db2, user, doc);
            var n := |Messages(db, user, doc)|;
            && |ms| == n + 4
            && ms[..n] == Messages(db, user, doc)
            && ms[n].role == UserRole && ms[n].content == q1
            && ms[n + 1].role == AssistantRole
            && ms[n + 2].role == UserRole && ms[n + 2].content == q2
            && ms[n + 3].role == AssistantRole
  {
  }

  /** A chat call, whatever its outcome, leaves every other pair's
      conversation as it was: no pair gains, loses or changes messages
      because another pair chatted. */
  lemma ChatKeepsOtherPairs(db: Db, user: Id, documentId: Option<IdArg>, question: Option<string>,
                            svc: Services, now: int, u: Id, d: Id)
    requires Valid(db)
    requires !(PresentId(documentId) && documentId.value.ObjectId? && documentId.value.id == d && u == user)
    ensures Messages(Chat(db, user, documentId, question, svc, now).db, u, d) == Messages(db, u, d)
  {
  }

  /** Explaining a concept does not depend on the chat histories: it neither
      reads nor (having no store in its result) writes them. */
  lemma ExplainIgnoresHistories(db: Db, hs: map<Id, ChatHistory>, user: Id, documentId: Option<IdArg>,
                                concept: Option<string>, svc: Services)
    ensures ExplainConcept(db.(histories := hs), user, documentId, concept, svc)
         == ExplainConcept(db, user, documentId, concept, svc)
  {
  }

  /** The context for no chunks is empty, for one chunk its content, and each
      further chunk adds a blank line and its content at the end: the contents
      appear in ranker order. */
  lemma ContextInOrder(chunks: seq<Chunk>, c: Chunk)
    ensures Context([]) == ""
    ensures Context([c]) == c.content
    ensures |chunks| > 0 ==> Context(chunks + [c]) == Context(chunks) + "\n\n" + c.content
  {
    var contents := seq(|chunks|, i requires 0 <= i < |chunks| => chunks[i].content);
    var longer := seq(|chunks + [c]|, i requires 0 <= i < |chunks + [c]| => (chunks + [c])[i].content);
    assert longer == contents + [c.content];
    if |chunks| > 0 {
      Text.JoinAppend(contents, c.content, "\n\n");
    }
  }
}
