/** The help-desk orchestrator: one request taken through classification,
    knowledge retrieval, the escalation decision and the response, in that
    order, with a fixed error response when a step raises. */
module HelpDesk {
  import opened Wrappers
  import opened Models
  import Classifier
  import Knowledge
  import Escalation
  import Response

  /** The replies of the model calls made while one request is processed:
      the three classifier prompts, the chunk-selection prompt and the
      response prompt. `None` is a call that raised. */
  datatype PipelineReplies = PipelineReplies(
    classification: Classifier.ClassifierReplies,
    retrieval: Option<string>,
    response: Option<string>)

  const ClassificationErrorLead: string := "Error in classification: "
  const ApologyLead: string :=
    "I apologize, but I encountered an error processing your request. Please contact IT support directly for assistance. Error: "
  const SystemErrorLead: string := "System error: "

  /** The response built in the `except` branch for an exception with text
      `message`. */
  function ErrorResponse(requestId: string, message: string, processingTime: real): HelpDeskResponse {
    HelpDeskResponse(
      requestId,
      ClassificationResult(PolicyQuestion, 0.0, ClassificationErrorLead + message),
      [],
      ApologyLead + message,
      EscalationDecision(true, SystemErrorLead + message, High),
      processingTime)
  }

  /** The identifier a request carries once processing starts: its own when it
      has a non-empty one, otherwise the freshly generated one. */
  function AssignedId(id: Option<string>, freshId: string): (r: string)
    ensures id.Some? && id.value != "" ==> r == id.value
    ensures id.None? || id.value == "" ==> r == freshId
  {
    if id.None? || id.value == "" then freshId else id.value
  }

  /** `process_request` on values: the components' tables, the request text
      and identifier, the model replies and the measured time. */
  function Processing(categories: Classifier.Table, chunks: seq<Knowledge.Chunk>,
                      rules: map<string, seq<string>>, requestId: string, request: string,
                      replies: PipelineReplies, processingTime: real,
                      parseFloat: string -> Option<real>, formatConfidence: real -> string): HelpDeskResponse
    requires Classifier.ValidTable(categories)
  {
    match Classifier.Classification(categories, request, replies.classification, parseFloat)
    case Err(message) => ErrorResponse(requestId, message, processingTime)
    case Ok(classification) =>
      var knowledge := Knowledge.Retrieval(chunks, request, replies.retrieval);
      var escalation := Escalation.Decide(rules, request, classification.category,
        classification.confidence, formatConfidence);
      var text := Response.GenerateResponse(classification.category, escalation, replies.response);
      HelpDeskResponse(requestId, classification, knowledge, text, escalation, processingTime)
  }

  /** With categories configured, the response packages each step's output
      unchanged: the classification, the knowledge retrieved for the request,
      the escalation decided for the classified category and confidence, and
      the text generated from them. Without categories, classification raises
      and the error response is returned. */
  lemma ProcessingSteps(categories: Classifier.Table, chunks: seq<Knowledge.Chunk>,
                        rules: map<string, seq<string>>, requestId: string, request: string,
                        replies: PipelineReplies, processingTime: real,
                        parseFloat: string -> Option<real>, formatConfidence: real -> string)
    requires Classifier.ValidTable(categories)
    ensures var r := Processing(categories, chunks, rules, requestId, request, replies,
                                processingTime, parseFloat, formatConfidence);
      && r.requestId == requestId
      && r.processingTime == processingTime
      && (categories.names == [] ==>
            r == ErrorResponse(requestId, Classifier.IndexErrorMessage, processingTime))
      && (categories.names != [] ==>
            var c := Classifier.Classification(categories, request, replies.classification, parseFloat);
            && c.Ok?
            && r.classification == c.value
            && r.retrievedKnowledge == Knowledge.Retrieval(chunks, request, replies.retrieval)
            && r.escalation == Escalation.Decide(rules, request, c.value.category, c.value.confidence, formatConfidence)
            && r.response == Response.GenerateResponse(c.value.category, r.escalation, replies.response))
  {
    Classifier.ClassificationOutcome(categories, request, replies.classification, parseFloat);
    if categories.names == [] {
      Classifier.ClassificationFallsBack(categories, request, replies.classification, parseFloat);
    }
  }

  /** What every response satisfies: at most three knowledge results; a
      confidence in [0, 1]; a category that some configured category maps to,
      unless the error response was returned; a confidence below the
      threshold, an urgency above normal and the error response all come
      with an escalation. */
  lemma ProcessingOutcome(categories: Classifier.Table, chunks: seq<Knowledge.Chunk>,
                          rules: map<string, seq<string>>, requestId: string, request: string,
                          replies: PipelineReplies, processingTime: real,
                          parseFloat: string -> Option<real>, formatConfidence: real -> string)
    requires Classifier.ValidTable(categories)
    ensures var r := Processing(categories, chunks, rules, requestId, request, replies,
                                processingTime, parseFloat, formatConfidence);
      && |r.retrievedKnowledge| <= Knowledge.MaxResults
      && 0.0 <= r.classification.confidence <= 1.0
      && (categories.names != [] ==>
            exists n :: n in categories.entries && categories.entries[n].category == r.classification.category)
      && (r.classification.confidence < 0.8 ==> r.escalation.shouldEscalate)
      && (r.escalation.urgencyLevel != Normal ==> r.escalation.shouldEscalate)
  {
    ProcessingSteps(categories, chunks, rules, requestId, request, replies, processingTime,
                    parseFloat, formatConfidence);
    Classifier.ClassificationOutcome(categories, request, replies.classification, parseFloat);
    var c := Classifier.Classification(categories, request, replies.classification, parseFloat);
    if c.Ok? {
      Knowledge.RetrievalOutcome(chunks, request, replies.retrieval);
      Escalation.ConfidenceOnlyAddsReason(rules, request, c.value.category, c.value.confidence,
                                          c.value.confidence, formatConfidence, formatConfidence);
      Escalation.RaisedUrgencyEscalates(rules, request, c.value.category, c.value.confidence, formatConfidence);
    }
  }

  /** `HelpDeskSystem`: the four components, built once and shared by every
      request. The response generator holds no state of its own. */
  class HelpDeskSystem {
    const classifier: Classifier.RequestClassifier
    const retriever: Knowledge.KnowledgeRetriever
    const engine: Escalation.EscalationEngine

    /** The classifier's table is one it can classify against. */
    ghost predicate Valid()
      reads this, classifier
    {
      Classifier.ValidTable(classifier.categories)
    }

    /** `__init__`: builds the classifier, the retriever and the escalation
        engine from the category configuration and the knowledge files. */
    constructor(categoryConfig: Option<seq<(string, Classifier.RawCategory)>>,
                escalationConfig: Option<map<string, Option<seq<string>>>>,
                dataDir: string, files: Knowledge.KnowledgeFiles)
      ensures Valid()
      ensures classifier.categories == Classifier.LoadedTable(Classifier.EmptyTable, categoryConfig)
      ensures retriever.chunks == Knowledge.LoadedChunks(dataDir, files)
      ensures forall c :: c in engine.rules <==> escalationConfig.Some? && c in escalationConfig.value
      ensures forall c :: c in engine.rules ==> engine.rules[c] == escalationConfig.value[c].GetOr([])
    {
      classifier := new Classifier.RequestClassifier(categoryConfig);
      retriever := new Knowledge.KnowledgeRetriever(dataDir, files);
      engine := new Escalation.EscalationEngine(escalationConfig);
    }

    /** `process_request(request)`: gives the request an identifier if it has
        none, then runs the four steps. `freshId` stands for the generated
        UUID and the two times for the clock readings before and after. */
    method ProcessRequest(request: HelpDeskRequest, replies: PipelineReplies, freshId: string,
                          startTime: real, endTime: real,
                          parseFloat: string -> Option<real>, formatConfidence: real -> string)
      returns (r: HelpDeskResponse)
      requires Valid()
      modifies request
      ensures request.id == Some(AssignedId(old(request.id), freshId))
      ensures request.request == old(request.request) && request.userId == old(request.userId)
      ensures request.priority == old(request.priority) && request.timestamp == old(request.timestamp)
      ensures r == Processing(classifier.categories, retriever.chunks, engine.rules, request.id.value,
                              request.request, replies, endTime - startTime, parseFloat, formatConfidence)
    {
      if request.id.None? || request.id.value == "" {
        request.id := Some(freshId);
      }
      var id := request.id.value;
      var text := request.request;
      var classification := classifier.Classify(text, replies.classification, parseFloat);
      if classification.Err? {
        return ErrorResponse(id, classification.message, endTime - startTime);
      }
      var category := classification.value.category;
      var confidence := classification.value.confidence;
      var knowledge := retriever.Retrieve(text, replies.retrieval);
      var escalation := engine.Evaluate(text, category, confidence, formatConfidence);
      var response := Response.GenerateResponse(category, escalation, replies.response);
      r := HelpDeskResponse(id, classification.value, knowledge, response, escalation, endTime - startTime);
    }
  }
}
