/** The dictionary that flows through the workflow of `medical_graph/medical_graph.py`
    and that every agent reads and returns as `{**state, ...}`. Each key is a
    field; `None` means the key is absent from the dictionary. */
module AgentState {
  import opened Common

  datatype State = State(
    // set by `process_message`
    message: Option<string>,
    patientId: Option<string>,
    context: Option<string>,
    sessionData: Option<map<string, string>>,
    // set by the classifier
    intent: Option<string>,
    confidence: Option<int>,
    urgency: Option<int>,
    reasoning: Option<string>,
    // set by the agents and the node wrappers
    response: Option<string>,
    error: Option<string>,
    nextAction: Option<string>,
    emergencyType: Option<string>,
    alertSent: Option<bool>,
    alertId: Option<string>,
    requestType: Option<string>,
    patientVerified: Option<bool>,
    queryType: Option<string>,
    faqsUsed: Option<int>,
    // set by the response builder and the memory updater
    timestamp: Option<string>,
    finalResponseBuilt: Option<bool>,
    memoryUpdated: Option<bool>,
    conversationComplete: Option<bool>,
    memoryError: Option<string>)

  /** The empty dictionary `{}`. */
  const Empty: State := State(None, None, None, None, None, None, None, None, None, None, None,
                              None, None, None, None, None, None, None, None, None, None, None, None)

  /** `state.get("message", "")`. */
  function MessageOf(s: State): string {
    s.message.GetOr("")
  }

  /** What a call to the language model produces: the text of its reply, or the
      exception it raised (network failure, missing key, rate limit...). */
  datatype LlmReply = Reply(content: string) | Failure(reason: string)

  /** The keys `process_message` and the classifier set are the same in `after`
      as in `before`. */
  predicate KeepsClassification(before: State, after: State) {
    after.message == before.message && after.patientId == before.patientId
    && after.context == before.context && after.sessionData == before.sessionData
    && after.intent == before.intent && after.confidence == before.confidence
    && after.urgency == before.urgency && after.reasoning == before.reasoning
  }
}
