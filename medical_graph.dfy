/** The workflow of `medical_graph/medical_graph.py`: a graph whose entry node
    classifies the message, routes it to at most one specialist agent, builds
    the final response and records the interaction in the patient's memory.
    The agents themselves are modelled in their own modules; here each one is
    a parameter (what it returns for a state, or the exception it raises), so
    every property of the workflow holds whatever the agents do. */
module MedicalGraph {
  import opened Common
  import opened AgentState
  import opened Strings
  import opened Seqs
  import Classifier = IntentClassifier

  // ---------------------------------------------------------------------
  // The graph
  // ---------------------------------------------------------------------

  /** The nodes of the workflow; `End` is the graph's terminal node. */
  datatype Node =
    | IntentClassifier | EmergencyAgent | SchedulerAgent | RoutineAgent | RecordsAgent
    | ResponseBuilder | MemoryUpdater | End
  {
    /** The four agents the classifier can route to. */
    predicate IsSpecialist() {
      this == EmergencyAgent || this == SchedulerAgent || this == RoutineAgent || this == RecordsAgent
    }

    /** How many nodes at most are still to run from this one. */
    function Rank(): nat {
      match this
      case IntentClassifier => 4
      case ResponseBuilder => 2
      case MemoryUpdater => 1
      case End => 0
      case _ => 3
    }
  }

  /** The labels the router returns. */
  datatype Route = ToEmergency | ToAppointment | ToRoutine | ToMedicalRecords | ToError
  {
    /** The label as the router spells it. */
    function Label(): string {
      match this
      case ToEmergency => "emergency"
      case ToAppointment => "appointment"
      case ToRoutine => "routine"
      case ToMedicalRecords => "medical_records"
      case ToError => "error"
    }
  }

  /** A compiled graph: its nodes, its entry point, the conditional edges out of
      the classifier (route label to node) and the fixed edges. */
  datatype Workflow = Workflow(nodes: set<Node>, entry: Option<Node>,
                               routes: map<Route, Node>, edges: map<Node, Node>)

  /** The graph `_build_graph` compiles. */
  const TheGraph: Workflow := Workflow(
    {IntentClassifier, EmergencyAgent, SchedulerAgent, RoutineAgent, RecordsAgent, ResponseBuilder, MemoryUpdater},
    Some(IntentClassifier),
    map[ToEmergency := EmergencyAgent, ToAppointment := SchedulerAgent, ToRoutine := RoutineAgent,
        ToMedicalRecords := RecordsAgent, ToError := ResponseBuilder],
    map[EmergencyAgent := ResponseBuilder, SchedulerAgent := ResponseBuilder, RoutineAgent := ResponseBuilder,
        RecordsAgent := ResponseBuilder, ResponseBuilder := MemoryUpdater, MemoryUpdater := End])

  /** `_build_graph`: adds the seven nodes, the entry point, the conditional
      edges of the router and the fixed edges, one call at a time. */
  method BuildGraph() returns (w: Workflow)
    ensures w == TheGraph
  {
    w := Workflow({}, None, map[], map[]);
    w := w.(nodes := w.nodes + {IntentClassifier});
    w := w.(nodes := w.nodes + {EmergencyAgent});
    w := w.(nodes := w.nodes + {SchedulerAgent});
    w := w.(nodes := w.nodes + {RoutineAgent});
    w := w.(nodes := w.nodes + {RecordsAgent});
    w := w.(nodes := w.nodes + {ResponseBuilder});
    w := w.(nodes := w.nodes + {MemoryUpdater});
    w := w.(entry := Some(IntentClassifier));
    w := w.(routes := map[ToEmergency := EmergencyAgent, ToAppointment := SchedulerAgent,
                          ToRoutine := RoutineAgent, ToMedicalRecords := RecordsAgent,
                          ToError := ResponseBuilder]);
    w := w.(edges := w.edges[EmergencyAgent := ResponseBuilder]);
    w := w.(edges := w.edges[SchedulerAgent := ResponseBuilder]);
    w := w.(edges := w.edges[RoutineAgent := ResponseBuilder]);
    w := w.(edges := w.edges[RecordsAgent := ResponseBuilder]);
    w := w.(edges := w.edges[ResponseBuilder := MemoryUpdater]);
    w := w.(edges := w.edges[MemoryUpdater := End]);
  }

  /** The wiring of the graph: the classifier is the entry; every router label
      has an edge, the error label going straight to the response builder and
      every other one to a specialist; every specialist leads to the response
      builder, which leads to the memory updater, which ends the run. */
  lemma GraphWiring()
    ensures TheGraph.entry == Some(IntentClassifier)
    ensures forall l: Route :: l in TheGraph.routes
    ensures TheGraph.routes[ToError] == ResponseBuilder
    ensures forall l :: l != ToError ==> TheGraph.routes[l].IsSpecialist()
    ensures forall l, m :: l != m ==> TheGraph.routes[l] != TheGraph.routes[m]
    ensures forall n: Node :: n.IsSpecialist() ==> n in TheGraph.edges && TheGraph.edges[n] == ResponseBuilder
    ensures ResponseBuilder in TheGraph.edges && TheGraph.edges[ResponseBuilder] == MemoryUpdater
    ensures MemoryUpdater in TheGraph.edges && TheGraph.edges[MemoryUpdater] == End
    ensures End !in TheGraph.nodes && TheGraph.edges.Keys <= TheGraph.nodes && IntentClassifier !in TheGraph.edges
  {
    forall l: Route ensures l in TheGraph.routes {
      match l
      case ToEmergency =>
      case ToAppointment =>
      case ToRoutine =>
      case ToMedicalRecords =>
      case ToError =>
    }
  }

  /** Every edge of the graph, fixed or conditional, leads to a node of lower
      rank, so every run ends. */
  lemma EdgesDescend()
    ensures forall n :: n in TheGraph.edges ==> TheGraph.edges[n].Rank() < n.Rank()
    ensures forall l :: l in TheGraph.routes ==> TheGraph.routes[l].Rank() < IntentClassifier.Rank()
  {
  }

  /** `_route_by_intent`: the route for the classified state. */
  function RouteByIntent(s: State): Route {
    var intent := s.intent.GetOr("routine");
    if intent == "emergency" then ToEmergency
    else if intent == "appointment" then ToAppointment
    else if intent == "medical_records" then ToMedicalRecords
    else if intent == "routine" then ToRoutine
    else ToError
  }

  /** The router is total: a missing intent counts as `routine`, each intent
      with an agent routes to its own label, and every other intent is an
      error. */
  lemma RouterCases(s: State)
    ensures s.intent == None ==> RouteByIntent(s) == ToRoutine
    ensures s.intent.Some? && s.intent.value in Classifier.KnownIntents ==> RouteByIntent(s).Label() == s.intent.value
    ensures RouteByIntent(s) == ToError <==> s.intent.Some? && s.intent.value !in Classifier.KnownIntents
  {
  }

  /** The node the router sends a classified state to. */
  function Target(s: State): (n: Node)
    ensures n.IsSpecialist() || n == ResponseBuilder
    ensures n == ResponseBuilder <==> RouteByIntent(s) == ToError
  {
    TheGraph.routes[RouteByIntent(s)]
  }

  // ---------------------------------------------------------------------
  // The nodes
  // ---------------------------------------------------------------------

  /** What each agent does with a state: the state it returns, or the text of
      the exception it raises. */
  datatype Agents = Agents(classify: State -> Attempt<State>,
                           emergency: State -> Attempt<State>,
                           schedule: State -> Attempt<State>,
                           routine: State -> Attempt<State>,
                           records: State -> Attempt<State>)
  {
    /** The agent behind a specialist node. */
    function For(n: Node): State -> Attempt<State>
      requires n.IsSpecialist()
    {
      match n
      case EmergencyAgent => emergency
      case SchedulerAgent => schedule
      case RoutineAgent => routine
      case RecordsAgent => records
    }

    /** Every agent returns the state it was given with the message and the
        patient unchanged, as `{**state, ...}` does. */
    ghost predicate KeepIdentity() {
      KeepsIdentity(classify) && KeepsIdentity(emergency) && KeepsIdentity(schedule)
      && KeepsIdentity(routine) && KeepsIdentity(records)
    }
  }

  ghost predicate KeepsIdentity(f: State -> Attempt<State>) {
    forall s :: f(s).Returned? ==> f(s).result.message == s.message && f(s).result.patientId == s.patientId
  }

  /** `_intent_classifier_node`: the classifier's state, or on an exception the
      input marked with intent `error` and the exception's text. */
  function ClassifierNode(agents: Agents, s: State): (r: State)
    ensures agents.classify(s).Returned? ==> r == agents.classify(s).result
    ensures agents.classify(s).Raised? ==>
              RouteByIntent(r) == ToError && r.error == Some(agents.classify(s).message)
              && r.response == s.response && KeepsClassificationInputs(s, r)
  {
    match agents.classify(s)
    case Returned(t) => t
    case Raised(e) => s.(intent := Some("error"), error := Some(e))
  }

  /** The keys `process_message` sets are the same in `after` as in `before`. */
  predicate KeepsClassificationInputs(before: State, after: State) {
    after.message == before.message && after.patientId == before.patientId
    && after.context == before.context && after.sessionData == before.sessionData
  }

  const EmergencyFallback := "Emergency system error. " + "Please call 911 immediately."
  const SchedulerFallback := "I'm having trouble with the scheduling system. " + "Please call (555) 123-4567."
  const RoutineFallback := "I'm having trouble processing your request. " + "Please call our office for assistance."
  const RecordsFallback := "I'm having trouble accessing medical records. "
                           + "Please call our office or use the patient portal."

  /** The answer a specialist node gives when its agent raises. */
  function Fallback(n: Node): (text: string)
    requires n.IsSpecialist()
    ensures text != ""
  {
    match n
    case EmergencyAgent => EmergencyFallback
    case SchedulerAgent => SchedulerFallback
    case RoutineAgent => RoutineFallback
    case RecordsAgent => RecordsFallback
  }

  /** `_emergency_agent_node`, `_scheduler_agent_node`, `_routine_agent_node`
      and `_records_agent_node`: the agent's state, or on an exception the input
      with the node's own fallback answer and the exception's text. */
  function SpecialistNode(agents: Agents, n: Node, s: State): (r: State)
    requires n.IsSpecialist()
    ensures agents.For(n)(s).Returned? ==> r == agents.For(n)(s).result
    ensures agents.For(n)(s).Raised? ==>
              r.response == Some(Fallback(n)) && r.error == Some(agents.For(n)(s).message)
              && r.intent == s.intent && KeepsClassificationInputs(s, r)
  {
    match agents.For(n)(s)
    case Returned(t) => t
    case Raised(e) => s.(response := Some(Fallback(n)), error := Some(e))
  }

  const Apology := "I apologize, but I couldn't process your request. "
                   + "Please contact our office at (555) 123-4567 for assistance."

  const EmergencyClosing := "\n\n⚠️ **Remember:** This AI assistant cannot replace "
                            + "professional medical care. "
                            + "Always consult healthcare providers for medical decisions."
  const AppointmentClosing := "\n\n📅 **Next Steps:** " + "I'll help you with any additional scheduling needs."
  const RecordsClosing := "\n\n🔒 **Privacy:** " + "Your medical information is secure and access is logged."
  const GeneralClosing := "\n\n💡 **How else can I help?** Feel free to ask about "
                          + "appointments, medical records, or general questions."

  /** The four closings are different texts. */
  lemma ClosingsDistinct()
    ensures |{EmergencyClosing, AppointmentClosing, RecordsClosing, GeneralClosing}| == 4
  {
    assert |EmergencyClosing| == 137 && |AppointmentClosing| == 71;
    assert |RecordsClosing| == 73 && |GeneralClosing| == 104;
  }

  /** The closing the response builder appends for an intent. */
  function Closing(intent: string): string {
    if intent == "emergency" then EmergencyClosing
    else if intent == "appointment" then AppointmentClosing
    else if intent == "medical_records" then RecordsClosing
    else GeneralClosing
  }

  /** Exactly one of the four closings is chosen, and which one depends on the
      intent alone: every intent without its own closing gets the general one. */
  lemma ClosingChoice(intent: string)
    ensures Closing(intent) in {EmergencyClosing, AppointmentClosing, RecordsClosing, GeneralClosing}
    ensures Closing(intent) == EmergencyClosing <==> intent == "emergency"
    ensures Closing(intent) == AppointmentClosing <==> intent == "appointment"
    ensures Closing(intent) == RecordsClosing <==> intent == "medical_records"
    ensures Closing(intent) == GeneralClosing <==> intent !in {"emergency", "appointment", "medical_records"}
  {
    ClosingsDistinct();
  }

  /** The answer before its closing: the agent's response, or the apology when
      there is none or it is empty. */
  function BaseResponse(s: State): (r: string)
    ensures r != ""
    ensures s.response.Some? && s.response.value != "" ==> r == s.response.value
    ensures s.response.None? || s.response.value == "" ==> r == Apology
  {
    var response := s.response.GetOr("");
    if response == "" then Apology else response
  }

  /** `_response_builder_node`: the answer with the closing for the intent, the
      time it was built, and the flag saying it was built; nothing else changes. */
  function ResponseBuilderNode(s: State, timestamp: string): (r: State)
    ensures r.response.Some? && r.response.value == BaseResponse(s) + Closing(s.intent.GetOr(""))
    ensures r.timestamp == Some(timestamp) && r.finalResponseBuilt == Some(true)
    ensures r.(response := s.response, timestamp := s.timestamp, finalResponseBuilt := s.finalResponseBuilt) == s
  {
    var response := BaseResponse(s);
    var finalResponse := response + Closing(s.intent.GetOr(""));
    s.(response := Some(finalResponse), timestamp := Some(timestamp), finalResponseBuilt := Some(true))
  }

  /** The agent's own non-empty answer is kept in full at the start of the
      final answer. */
  lemma {:induction false} BuilderKeepsAnswer(s: State, timestamp: string)
    requires s.response.Some? && s.response.value != ""
    ensures var r := ResponseBuilderNode(s, timestamp).response.value;
            |r| > |s.response.value| && r[..|s.response.value|] == s.response.value
  {
    var c := Closing(s.intent.GetOr(""));
    assert |c| > 0 by { assert |GeneralClosing| == 104; }
  }

  // ---------------------------------------------------------------------
  // Memory
  // ---------------------------------------------------------------------

  /** A message of a conversation, as the buffer of `memory/memory_manager.py`
      stores it. */
  datatype ChatMessage = Human(content: string) | Ai(content: string)

  /** The metadata the memory updater saves with an interaction. */
  datatype Metadata = Metadata(intent: string, confidence: int, urgency: int,
                               timestamp: string, sessionId: string)

  /** A patient's `MemoryManager`: its conversation buffer and the medical
      context, which holds the metadata of the latest interaction. */
  datatype Memory = Memory(patientId: string, messages: seq<ChatMessage>, medicalContext: Option<Metadata>)
  {
    /** `save_interaction`: the user's input and the answer join the buffer
        and the metadata replaces the context (it always has the same keys). */
    function SaveInteraction(input: string, output: string, metadata: Metadata): (m: Memory)
      ensures m.patientId == patientId && m.medicalContext == Some(metadata)
      ensures |m.messages| == |messages| + 2 && m.messages[..|messages|] == messages
      ensures m.messages[|messages|] == Human(input) && m.messages[|messages| + 1] == Ai(output)
    {
      this.(messages := messages + [Human(input), Ai(output)], medicalContext := Some(metadata))
    }

    /** `clear_memory`. */
    function Cleared(): (m: Memory)
      ensures m.patientId == patientId && m.messages == [] && m.medicalContext == None
    {
      this.(messages := [], medicalContext := None)
    }
  }

  /** `get_memory_manager(patient_id)`: a fresh memory for the patient. */
  function GetMemoryManager(patientId: string): (m: Memory)
    ensures m.messages == [] && m.medicalContext == None
    ensures m.patientId == if patientId == "" then "default_patient" else patientId
  {
    Memory(if patientId == "" then "default_patient" else patientId, [], None)
  }

  /** The key the memory updater files a state under. */
  function PatientKey(s: State): string {
    s.patientId.GetOr("default_patient")
  }

  /** The metadata the memory updater builds from a state. */
  function MetadataOf(s: State): Metadata {
    var session := s.sessionData.GetOr(map[]);
    Metadata(s.intent.GetOr(""), s.confidence.GetOr(0), s.urgency.GetOr(0), s.timestamp.GetOr(""),
             if "session_id" in session then session["session_id"] else "")
  }

  /** The memories after the updater saved the interaction of `s`: the
      patient's memory, created when missing, with one more interaction. */
  function SavedTo(managers: map<string, Memory>, s: State): map<string, Memory> {
    var key := PatientKey(s);
    var memory := if key in managers then managers[key] else GetMemoryManager(key);
    managers[key := memory.SaveInteraction(MessageOf(s), s.response.GetOr(""), MetadataOf(s))]
  }

  /** The state the memory updater returns: marked complete, or, when tracing
      the interaction raised, marked with the error; the memory is saved
      before tracing, so it is updated in both cases. */
  function MemoryUpdated(s: State, traceFailure: Option<string>): (r: State)
    ensures r.response == s.response && KeepsClassificationInputs(s, r)
    ensures traceFailure.None? ==> r.memoryUpdated == Some(true) && r.conversationComplete == Some(true)
                                   && r.memoryError == s.memoryError
    ensures traceFailure.Some? ==> r.memoryError == traceFailure && r.memoryUpdated == s.memoryUpdated
                                   && r.conversationComplete == s.conversationComplete
  {
    match traceFailure
    case None => s.(memoryUpdated := Some(true), conversationComplete := Some(true))
    case Some(e) => s.(memoryError := Some(e))
  }

  /** An entry of `get_conversation_history`; messages carry no timestamp. */
  datatype HistoryEntry = HistoryEntry(kind: string, content: string, timestamp: string)

  function EntryOf(m: ChatMessage): HistoryEntry {
    match m
    case Human(c) => HistoryEntry("HumanMessage", c, "")
    case Ai(c) => HistoryEntry("AIMessage", c, "")
  }

  /** The conversation history of a patient: one entry per stored message, and
      none for a patient without a memory. */
  function History(managers: map<string, Memory>, patientId: string): (h: seq<HistoryEntry>)
    ensures patientId !in managers ==> h == []
    ensures patientId in managers ==> |h| == |managers[patientId].messages|
    ensures patientId in managers ==>
              forall k :: 0 <= k < |h| ==> h[k] == EntryOf(managers[patientId].messages[k])
  {
    if patientId in managers then Map(managers[patientId].messages, EntryOf) else []
  }

  /** Saving an interaction adds two entries to the memory's history. */
  lemma SavedEntries(m: Memory, input: string, output: string, metadata: Metadata)
    ensures Map(m.SaveInteraction(input, output, metadata).messages, EntryOf)
            == Map(m.messages, EntryOf) + [HistoryEntry("HumanMessage", input, ""), HistoryEntry("AIMessage", output, "")]
  {
    assert m.SaveInteraction(input, output, metadata).messages == m.messages + [Human(input)] + [Ai(output)];
    MapAppend(m.messages, Human(input), EntryOf);
    MapAppend(m.messages + [Human(input)], Ai(output), EntryOf);
  }

  /** Saving an interaction adds exactly the message and its answer to the
      history of the state's patient, and leaves every other history alone. */
  lemma HistoryAfterSave(managers: map<string, Memory>, s: State)
    ensures History(SavedTo(managers, s), PatientKey(s))
            == History(managers, PatientKey(s))
               + [HistoryEntry("HumanMessage", MessageOf(s), ""), HistoryEntry("AIMessage", s.response.GetOr(""), "")]
    ensures forall p :: p != PatientKey(s) ==> History(SavedTo(managers, s), p) == History(managers, p)
  {
    var key := PatientKey(s);
    var memory := if key in managers then managers[key] else GetMemoryManager(key);
    var after := memory.SaveInteraction(MessageOf(s), s.response.GetOr(""), MetadataOf(s));
    var saved := SavedTo(managers, s);
    assert saved == managers[key := after];
    SavedEntries(memory, MessageOf(s), s.response.GetOr(""), MetadataOf(s));
    assert History(saved, key) == Map(after.messages, EntryOf);
    assert History(managers, key) == Map(memory.messages, EntryOf);
    forall p | p != key
      ensures History(saved, p) == History(managers, p)
    {
      if p in managers {
        assert saved[p] == managers[p];
      }
    }
  }

  /** The memories after `clear_patient_memory(patient_id)`. */
  function ClearedIn(managers: map<string, Memory>, patientId: string): map<string, Memory> {
    if patientId in managers then managers[patientId := managers[patientId].Cleared()] else managers
  }

  /** Clearing empties the patient's history, keeps the patient's memory and
      leaves every other patient alone; for an unknown patient it changes nothing. */
  lemma ClearedHistory(managers: map<string, Memory>, patientId: string)
    ensures History(ClearedIn(managers, patientId), patientId) == []
    ensures ClearedIn(managers, patientId).Keys == managers.Keys
    ensures forall p :: p != patientId ==> History(ClearedIn(managers, patientId), p) == History(managers, p)
    ensures patientId !in managers ==> ClearedIn(managers, patientId) == managers
  {
  }

  // ---------------------------------------------------------------------
  // A run of the graph
  // ---------------------------------------------------------------------

  /** The state after the specialist the classified state `s1` is routed to;
      on the error route no specialist runs. */
  function Specialized(agents: Agents, s1: State): State {
    if Target(s1).IsSpecialist() then SpecialistNode(agents, Target(s1), s1) else s1
  }

  /** The state the response builder returns in a run from `s0`. */
  function Built(agents: Agents, s0: State, timestamp: string): State {
    ResponseBuilderNode(Specialized(agents, ClassifierNode(agents, s0)), timestamp)
  }

  /** The nodes a run visits up to the specialist `s1` is routed to. */
  function UpToAgent(s1: State): seq<Node> {
    [IntentClassifier] + if Target(s1).IsSpecialist() then [Target(s1)] else []
  }

  /** The nodes a run visits once the classifier produced `s1`. */
  function Visits(s1: State): seq<Node> {
    UpToAgent(s1) + [ResponseBuilder] + [MemoryUpdater]
  }

  /** `b` follows `a` in the graph: by a fixed edge, or by a route out of the
      classifier. */
  predicate Connected(w: Workflow, a: Node, b: Node) {
    (a in w.edges && w.edges[a] == b) || (a == IntentClassifier && b in w.routes.Values)
  }

  /** A run starts at the entry, follows the edges of the graph, visits at most
      one specialist (the one the intent names) and ends with the response
      builder and the memory updater, after which the graph ends. */
  lemma VisitsFollowGraph(s1: State)
    ensures var p := Visits(s1);
            && p[0] == TheGraph.entry.value
            && (forall i :: 0 <= i < |p| - 1 ==> Connected(TheGraph, p[i], p[i + 1]))
            && p[|p| - 2] == ResponseBuilder && p[|p| - 1] == MemoryUpdater
            && TheGraph.edges[p[|p| - 1]] == End
            && (|p| == 3 <==> RouteByIntent(s1) == ToError)
            && (|p| == 4 ==> p[1] == Target(s1) && p[1].IsSpecialist())
            && (forall i :: 0 <= i < |p| && i != 1 ==> !p[i].IsSpecialist())
  {
    var p := Visits(s1);
    assert TheGraph.routes[RouteByIntent(s1)] in TheGraph.routes.Values;
  }

  /** When the classifier raises, the run skips the specialists and answers
      with the generic closing and the exception recorded. */
  lemma ClassifierFailureSkipsAgents(agents: Agents, s0: State, timestamp: string)
    requires agents.classify(s0).Raised?
    ensures Visits(ClassifierNode(agents, s0)) == [IntentClassifier, ResponseBuilder, MemoryUpdater]
    ensures var r := Built(agents, s0, timestamp);
            r.response == Some(BaseResponse(s0) + GeneralClosing) && r.error == Some(agents.classify(s0).message)
  {
  }

  /** When the specialist raises, its own fallback answer reaches the patient,
      followed by the closing for the intent that chose it. */
  lemma SpecialistFailureAnswered(agents: Agents, s0: State, timestamp: string)
    requires var s1 := ClassifierNode(agents, s0);
             Target(s1).IsSpecialist() && agents.For(Target(s1))(s1).Raised?
    ensures var s1 := ClassifierNode(agents, s0);
            Built(agents, s0, timestamp).response
              == Some(Fallback(Target(s1)) + Closing(RouteByIntent(s1).Label()))
  {
    var s1 := ClassifierNode(agents, s0);
    var n := Target(s1);
    assert Closing(s1.intent.GetOr("")) == Closing(RouteByIntent(s1).Label());
  }

  /** Agents that keep the message and the patient leave them unchanged for the
      memory updater too. */
  lemma BuiltKeepsIdentity(agents: Agents, s0: State, timestamp: string)
    requires agents.KeepIdentity()
    ensures Built(agents, s0, timestamp).message == s0.message
    ensures Built(agents, s0, timestamp).patientId == s0.patientId
  {
    var s1 := ClassifierNode(agents, s0);
    if agents.classify(s0).Returned? {
      assert KeepsIdentity(agents.classify);
    }
    if Target(s1).IsSpecialist() && agents.For(Target(s1))(s1).Returned? {
      assert KeepsIdentity(agents.For(Target(s1)));
    }
  }

  /** The agents with the classifier of `agents/intent_classifier.py`, given
      the model's answer `reply`. */
  function WithClassifier(agents: Agents, reply: LlmReply): Agents {
    agents.(classify := s => Returned(Classifier.Classify(s, reply)))
  }

  /** A message naming an emergency keyword goes to the emergency agent,
      whatever the model answers. */
  lemma EmergencyMessagesReachEmergencyAgent(agents: Agents, reply: LlmReply, s0: State)
    requires AnyIn(Lower(MessageOf(s0)), Classifier.EmergencyKeywords)
    ensures Visits(ClassifierNode(WithClassifier(agents, reply), s0))
            == [IntentClassifier, EmergencyAgent, ResponseBuilder, MemoryUpdater]
  {
    Classifier.EmergencyShortcut(s0, reply, reply);
  }

  /** When the model fails, the run still reaches a specialist: the error
      route is never taken. */
  lemma ModelFailureReachesAgent(agents: Agents, reason: string, s0: State)
    ensures var s1 := ClassifierNode(WithClassifier(agents, Failure(reason)), s0);
            Target(s1).IsSpecialist() && |Visits(s1)| == 4
  {
    Classifier.FailureGivesKnownIntent(s0, reason);
  }

  // ---------------------------------------------------------------------
  // The agent
  // ---------------------------------------------------------------------

  /** The literal texts of `process_message` and `process_patient_message`. */
  const DefaultPatient := "default_patient"
  const TechnicalDifficulties := "I apologize, but I'm experiencing technical difficulties. "
                                 + "Please contact our office at (555) 123-4567 for immediate assistance."
  const NoResponse := "I apologize, but I couldn't process your request."

  /** `patient_id or "default_patient"`. */
  function PatientOrDefault(patientId: Option<string>): (p: string)
    ensures p != ""
    ensures patientId.Some? && patientId.value != "" ==> p == patientId.value
    ensures patientId.None? || patientId.value == "" ==> p == DefaultPatient
  {
    var p := patientId.GetOr("");
    if p == "" then DefaultPatient else p
  }

  /** The session id of a message received at `epochSeconds`. */
  function SessionId(epochSeconds: int): string {
    "session_" + IntToString(epochSeconds)
  }

  /** Two messages get the same session id exactly when they arrive in the same
      second. */
  lemma SessionIdInjective(a: int, b: int)
    ensures SessionId(a) == SessionId(b) <==> a == b
  {
    if SessionId(a) == SessionId(b) {
      assert SessionId(a)[8..] == IntToString(a);
      assert SessionId(b)[8..] == IntToString(b);
      ParseIntOfIntToString(a);
      ParseIntOfIntToString(b);
    }
  }

  /** The state `process_message` hands to the graph. */
  function InitialState(message: string, patientId: Option<string>, context: string,
                        epochSeconds: int, startTime: string): (s: State)
    ensures s.message == Some(message) && s.patientId == Some(PatientOrDefault(patientId))
    ensures s.context == Some(context) && s.response == None && s.intent == None
    ensures s.sessionData == Some(map["session_id" := SessionId(epochSeconds), "start_time" := startTime])
  {
    Empty.(message := Some(message), patientId := Some(PatientOrDefault(patientId)), context := Some(context),
           sessionData := Some(map["session_id" := SessionId(epochSeconds), "start_time" := startTime]))
  }

  /** What `process_message` returns when running the graph raises: a fresh
      dictionary with only an apology, the error and the intent `system_error`. */
  function ProcessingFailure(reason: string): (r: State)
    ensures r.response == Some(TechnicalDifficulties) && r.error == Some(reason)
    ensures r.intent == Some("system_error") && r.patientId == None && r.message == None
    ensures r.finalResponseBuilt == None && r.memoryUpdated == None
  {
    Empty.(response := Some(TechnicalDifficulties), error := Some(reason), intent := Some("system_error"))
  }

  /** `result.get("response", ...)` in `process_patient_message`. */
  function ReplyOf(r: State): (reply: string)
    ensures r.response.Some? ==> reply == r.response.value
    ensures r.response.None? ==> reply == NoResponse
  {
    r.response.GetOr(NoResponse)
  }

  /** `MedicalAIAgent`: the compiled graph and one memory per patient. */
  class MedicalAIAgent {
    const graph: Workflow
    var memoryManagers: map<string, Memory>

    constructor()
      ensures graph == TheGraph && memoryManagers == map[]
    {
      var g := BuildGraph();
      graph := g;
      memoryManagers := map[];
    }

    /** `_memory_updater_node`: gets or creates the patient's memory, saves
        the interaction, then traces it (tracing may raise). */
    method MemoryUpdaterNode(s: State, traceFailure: Option<string>) returns (r: State)
      modifies this
      ensures memoryManagers == SavedTo(old(memoryManagers), s)
      ensures r == MemoryUpdated(s, traceFailure)
    {
      var patientId := s.patientId.GetOr(DefaultPatient);
      var message := MessageOf(s);
      var response := s.response.GetOr("");
      if patientId !in memoryManagers {
        memoryManagers := memoryManagers[patientId := GetMemoryManager(patientId)];
      }
      var memory := memoryManagers[patientId];
      var metadata := MetadataOf(s);
      memoryManagers := memoryManagers[patientId := memory.SaveInteraction(message, response, metadata)];
      match traceFailure {
        case None =>
          r := s.(memoryUpdated := Some(true), conversationComplete := Some(true));
        case Some(e) =>
          r := s.(memoryError := Some(e));
      }
    }

    /** `graph.invoke(state)`: runs the nodes from the entry point along the
        edges of the graph, returning the last state and the nodes visited. */
    method Invoke(s0: State, agents: Agents, timestamp: string, traceFailure: Option<string>)
      returns (r: State, path: seq<Node>)
      requires graph == TheGraph
      modifies this
      ensures path == Visits(ClassifierNode(agents, s0))
      ensures r == MemoryUpdated(Built(agents, s0, timestamp), traceFailure)
      ensures memoryManagers == SavedTo(old(memoryManagers), Built(agents, s0, timestamp))
    {
      var node := graph.entry.value;
      path := [node];
      var state := ClassifierNode(agents, s0);
      ghost var s1 := state;
      node := graph.routes[RouteByIntent(state)];
      assert node == Target(s1);
      if node.IsSpecialist() {
        path := path + [node];
        state := SpecialistNode(agents, node, state);
        node := graph.edges[node];
      }
      assert node == ResponseBuilder && state == Specialized(agents, s1);
      assert path == UpToAgent(s1);
      path := path + [node];
      state := ResponseBuilderNode(state, timestamp);
      assert state == Built(agents, s0, timestamp);
      node := graph.edges[node];
      path := path + [node];
      r := MemoryUpdaterNode(state, traceFailure);
    }

    /** `process_message`: builds the initial state and runs the graph. When
        the agents keep the message and the patient, the patient's history
        gains exactly this message and its final answer. */
    method ProcessMessage(message: string, patientId: Option<string>, context: string,
                          epochSeconds: int, startTime: string,
                          agents: Agents, timestamp: string, traceFailure: Option<string>)
      returns (r: State)
      requires graph == TheGraph
      modifies this
      ensures var s0 := InitialState(message, patientId, context, epochSeconds, startTime);
              r == MemoryUpdated(Built(agents, s0, timestamp), traceFailure)
              && memoryManagers == SavedTo(old(memoryManagers), Built(agents, s0, timestamp))
      ensures r.response.Some? && r.response.value != "" && r.finalResponseBuilt == Some(true)
      ensures agents.KeepIdentity() ==>
                History(memoryManagers, PatientOrDefault(patientId))
                == old(History(memoryManagers, PatientOrDefault(patientId)))
                   + [HistoryEntry("HumanMessage", message, ""), HistoryEntry("AIMessage", r.response.value, "")]
    {
      var initial := InitialState(message, patientId, context, epochSeconds, startTime);
      ghost var before := memoryManagers;
      ghost var built := Built(agents, initial, timestamp);
      var path;
      r, path := Invoke(initial, agents, timestamp, traceFailure);
      HistoryAfterSave(before, built);
      if agents.KeepIdentity() {
        BuiltKeepsIdentity(agents, initial, timestamp);
      }
    }

    /** `get_conversation_history`. */
    function GetConversationHistory(patientId: string): (h: seq<HistoryEntry>)
      reads this
      ensures patientId !in memoryManagers ==> h == []
    {
      History(memoryManagers, patientId)
    }

    /** `clear_patient_memory`: clears a known patient's memory; an unknown
        patient is ignored. */
    method ClearPatientMemory(patientId: string)
      modifies this
      ensures memoryManagers == ClearedIn(old(memoryManagers), patientId)
      ensures GetConversationHistory(patientId) == []
    {
      if patientId in memoryManagers {
        memoryManagers := memoryManagers[patientId := memoryManagers[patientId].Cleared()];
      }
    }
  }

  /** `process_patient_message`: the final answer of a run of the agent's graph. */
  method ProcessPatientMessage(agent: MedicalAIAgent, message: string, patientId: Option<string>, context: string,
                               epochSeconds: int, startTime: string,
                               agents: Agents, timestamp: string, traceFailure: Option<string>)
    returns (reply: string)
    requires agent.graph == TheGraph
    modifies agent
    ensures var s0 := InitialState(message, patientId, context, epochSeconds, startTime);
            reply == Built(agents, s0, timestamp).response.value
    ensures reply != ""
  {
    var r := agent.ProcessMessage(message, patientId, context, epochSeconds, startTime,
                                  agents, timestamp, traceFailure);
    reply := ReplyOf(r);
  }
}
