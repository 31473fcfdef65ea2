/** The steps of the generate / extract / review / execute agent that change its
    shared state in place, and the two routing functions that read the statuses
    they write. Every model call is a parameter: the text or object it returned. */
module DynamicAgent {
  import opened Common
  import CodeExtraction

  /** The structured reply schema of the code reviewer. */
  datatype CodeReviewResult = CodeReviewResult(result: string, message: string)

  /** What the `code_review_result` key holds: a plain string (the initial "" or
      the "" written by a reset), or a review object once one was stored. */
  datatype ReviewSlot = Text(text: string) | Review(review: CodeReviewResult)

  /** What the reviewer chain returned: an instance of the schema, or some other
      object, whose `.result` attribute may be missing (`None` here). */
  datatype ReviewReply =
    | Conforming(review: CodeReviewResult)
    | Foreign(result: Option<string>)

  /** The string labels that select the next node. */
  datatype Label = Continue | Regenerate

  /** Raised when a routing function reads a status that was never written. */
  datatype KeyError = KeyError(key: string)

  /** The status strings the agents write. */
  const ContinueStatus := "continue"
  const RegenerateStatus := "regenerate"

  /** The keys `agent_code_generation` clears, in the order it clears them. */
  datatype ResetKey = GeneratedCodeKey | ExtractedCodeKey | ReviewResultKey | FinalOutputKey

  const ResetKeys: seq<ResetKey> := [GeneratedCodeKey, ExtractedCodeKey, ReviewResultKey, FinalOutputKey]

  /** The shared state dictionary. A status that is `None` has not been written
      yet: the initial state does not contain the two status keys. */
  class AgentState {
    var initialRequest: string
    var preprocessorAgentResult: string
    var generatedCodeResult: string
    var codeExtractionStatus: Option<string>
    var extractedPythonCode: string
    var codeReviewResult: ReviewSlot
    var codeReviewStatus: Option<string>
    var finalOutput: string

    /** The state each request starts from: the request and five empty texts. */
    constructor (request: string)
      ensures initialRequest == request
      ensures preprocessorAgentResult == "" && generatedCodeResult == ""
      ensures extractedPythonCode == "" && codeReviewResult == Text("") && finalOutput == ""
      ensures codeExtractionStatus == None && codeReviewStatus == None
    {
      initialRequest := request;
      preprocessorAgentResult := "";
      generatedCodeResult := "";
      codeExtractionStatus := None;
      extractedPythonCode := "";
      codeReviewResult := Text("");
      codeReviewStatus := None;
      finalOutput := "";
    }

    /** `agent_preprocessor`: stores the preprocessor's reply. */
    method Preprocess(reply: string)
      modifies this
      ensures preprocessorAgentResult == reply
      ensures initialRequest == old(initialRequest) && generatedCodeResult == old(generatedCodeResult)
      ensures codeExtractionStatus == old(codeExtractionStatus) && extractedPythonCode == old(extractedPythonCode)
      ensures codeReviewResult == old(codeReviewResult) && codeReviewStatus == old(codeReviewStatus)
      ensures finalOutput == old(finalOutput)
    {
      preprocessorAgentResult := reply;
    }

    /** `state[key] = ""` for one of the keys the reset clears. */
    method Clear(key: ResetKey)
      modifies this
      ensures key == GeneratedCodeKey ==> generatedCodeResult == ""
      ensures key != GeneratedCodeKey ==> generatedCodeResult == old(generatedCodeResult)
      ensures key == ExtractedCodeKey ==> extractedPythonCode == ""
      ensures key != ExtractedCodeKey ==> extractedPythonCode == old(extractedPythonCode)
      ensures key == ReviewResultKey ==> codeReviewResult == Text("")
      ensures key != ReviewResultKey ==> codeReviewResult == old(codeReviewResult)
      ensures key == FinalOutputKey ==> finalOutput == ""
      ensures key != FinalOutputKey ==> finalOutput == old(finalOutput)
      ensures initialRequest == old(initialRequest) && preprocessorAgentResult == old(preprocessorAgentResult)
      ensures codeExtractionStatus == old(codeExtractionStatus) && codeReviewStatus == old(codeReviewStatus)
    {
      match key
      case GeneratedCodeKey => generatedCodeResult := "";
      case ExtractedCodeKey => extractedPythonCode := "";
      case ReviewResultKey => codeReviewResult := Text("");
      case FinalOutputKey => finalOutput := "";
    }

    /** The reset condition of `agent_code_generation`: either text field holds
        the literal "regenerate". (A stored review object never equals it.) */
    predicate NeedsReset()
      reads this
    {
      generatedCodeResult == RegenerateStatus || codeReviewResult == Text(RegenerateStatus)
    }

    /** `agent_code_generation`: clears exactly the four reset keys when the reset
        condition holds, then stores the generator's reply. */
    method CodeGeneration(generated: string)
      modifies this
      ensures generatedCodeResult == generated
      ensures extractedPythonCode == if old(NeedsReset()) then "" else old(extractedPythonCode)
      ensures codeReviewResult == if old(NeedsReset()) then Text("") else old(codeReviewResult)
      ensures finalOutput == if old(NeedsReset()) then "" else old(finalOutput)
      ensures initialRequest == old(initialRequest) && preprocessorAgentResult == old(preprocessorAgentResult)
      ensures codeExtractionStatus == old(codeExtractionStatus) && codeReviewStatus == old(codeReviewStatus)
    {
      if NeedsReset() {
        for i := 0 to |ResetKeys|
          invariant initialRequest == old(initialRequest) && preprocessorAgentResult == old(preprocessorAgentResult)
          invariant codeExtractionStatus == old(codeExtractionStatus) && codeReviewStatus == old(codeReviewStatus)
          invariant extractedPythonCode == if i > 1 then "" else old(extractedPythonCode)
          invariant codeReviewResult == if i > 2 then Text("") else old(codeReviewResult)
          invariant finalOutput == if i > 3 then "" else old(finalOutput)
        {
          Clear(ResetKeys[i]);
        }
      }
      generatedCodeResult := generated;
    }

    /** `agent_extract_code`: on success stores the extracted code and writes
        "continue"; on an empty reply writes "regenerate" and keeps the old code. */
    method ExtractCode()
      modifies this
      ensures codeExtractionStatus == Some(if old(generatedCodeResult) != "" then ContinueStatus else RegenerateStatus)
      ensures extractedPythonCode == match CodeExtraction.Extract(old(generatedCodeResult))
                                     case Some(e) => e.code
                                     case None => old(extractedPythonCode)
      ensures initialRequest == old(initialRequest) && preprocessorAgentResult == old(preprocessorAgentResult)
      ensures generatedCodeResult == old(generatedCodeResult) && codeReviewResult == old(codeReviewResult)
      ensures codeReviewStatus == old(codeReviewStatus) && finalOutput == old(finalOutput)
    {
      StoreExtraction(CodeExtraction.Extract(generatedCodeResult));
    }

    /** The writes of `agent_extract_code` for one extraction result. */
    method StoreExtraction(extracted: Option<CodeExtraction.Extraction>)
      modifies this
      ensures codeExtractionStatus == Some(if extracted.Some? then ContinueStatus else RegenerateStatus)
      ensures extractedPythonCode == if extracted.Some? then extracted.value.code else old(extractedPythonCode)
      ensures initialRequest == old(initialRequest) && preprocessorAgentResult == old(preprocessorAgentResult)
      ensures generatedCodeResult == old(generatedCodeResult) && codeReviewResult == old(codeReviewResult)
      ensures codeReviewStatus == old(codeReviewStatus) && finalOutput == old(finalOutput)
    {
      match extracted
      case Some(e) =>
        extractedPythonCode := e.code;
        codeExtractionStatus := Some(ContinueStatus);
      case None =>
        codeExtractionStatus := Some(RegenerateStatus);
    }

    /** `agent_code_review`: stores the reply only when it is a schema instance;
        the status is "continue" exactly when the reply's `result` attribute is
        "correct", and "regenerate" otherwise, a missing attribute included. */
    method CodeReview(reply: ReviewReply)
      modifies this
      ensures codeReviewResult == if reply.Conforming? then Review(reply.review) else old(codeReviewResult)
      ensures codeReviewStatus == Some(if ReviewPasses(reply) then ContinueStatus else RegenerateStatus)
      ensures initialRequest == old(initialRequest) && preprocessorAgentResult == old(preprocessorAgentResult)
      ensures generatedCodeResult == old(generatedCodeResult) && extractedPythonCode == old(extractedPythonCode)
      ensures codeExtractionStatus == old(codeExtractionStatus) && finalOutput == old(finalOutput)
    {
      if reply.Conforming? {
        codeReviewResult := Review(reply.review);
      }
      match reply
      case Conforming(review) =>
        codeReviewStatus := Some(if review.result == "correct" then ContinueStatus else RegenerateStatus);
      case Foreign(Some(result)) =>
        codeReviewStatus := Some(if result == "correct" then ContinueStatus else RegenerateStatus);
      case Foreign(None) =>
        codeReviewStatus := Some(RegenerateStatus);
    }
  }

  /** The reviewer's verdict is "correct". */
  predicate ReviewPasses(reply: ReviewReply) {
    match reply
    case Conforming(review) => review.result == "correct"
    case Foreign(result) => result == Some("correct")
  }

  /** `conditional_should_continue_after_extraction`. */
  function ShouldContinueAfterExtraction(status: Option<string>): (r: Result<Label, KeyError>)
    ensures status.None? <==> r == Err(KeyError("code_extraction_status"))
    ensures r == Ok(Continue) <==> status == Some(ContinueStatus)
    ensures r == Ok(Regenerate) <==> status.Some? && status.value != ContinueStatus
  {
    match status
    case None => Err(KeyError("code_extraction_status"))
    case Some(s) => Ok(if s == ContinueStatus then Continue else Regenerate)
  }

  /** `conditional_should_continue_after_code_review`. */
  function ShouldContinueAfterCodeReview(status: Option<string>): (r: Result<Label, KeyError>)
    ensures status.None? <==> r == Err(KeyError("code_review_status"))
    ensures r == Ok(Continue) <==> status == Some(ContinueStatus)
    ensures r == Ok(Regenerate) <==> status.Some? && status.value != ContinueStatus
  {
    match status
    case None => Err(KeyError("code_review_status"))
    case Some(s) => Ok(if s == ContinueStatus then Continue else Regenerate)
  }
}
