/** `services/ai.ts`: the supervisor picks a specialist (or the operator forces one), the
    specialist searches its own knowledge folders, and the answer is generated from a prompt
    assembled from its persona, the recent conversation and the retrieved documents. The two
    model calls are parameters: what each one answers is given, and the prompts sent are
    returned so that contracts can speak about them. */
module Agents {
  import opened Types
  import opened Text
  import opened Seqs
  import opened Provider
  import opened Retrieval
  import opened VectorStore

  /** `AGENT_MEMORY_ACCESS`: the folders each role may search. */
  function MemoryAccess(role: AgentRole): (folders: seq<string>) {
    match role
    case SUPERVISOR => []
    case GUARDIAN => [CORE_IDENTITY]
    case GROWTH => [MARKETING_OPS, CORE_IDENTITY]
    case ARCHITECT => [TECH_DOCS, CORE_IDENTITY]
  }

  /** Only the supervisor has no folders; every specialist can read the core identity. */
  lemma MemoryAccessShape(role: AgentRole)
    ensures MemoryAccess(role) == [] <==> role == SUPERVISOR
    ensures role != SUPERVISOR ==> CORE_IDENTITY in MemoryAccess(role)
    ensures TECH_DOCS in MemoryAccess(role) <==> role == ARCHITECT
    ensures MARKETING_OPS in MemoryAccess(role) <==> role == GROWTH
  {
  }

  const INTENT_OPENING := "Query: \""
  const INTENT_QUESTION := "\". Who handles this? GUARDIAN (Brand), GROWTH (Marketing), ARCHITECT (Tech). Reply ONE word."

  /** The supervisor's classification prompt. */
  function IntentPrompt(query: string): string {
    INTENT_OPENING + query + INTENT_QUESTION
  }

  /** How the supervisor's reply is read: trimmed, upper-cased, then searched for a role name,
      GROWTH before ARCHITECT, GUARDIAN otherwise. */
  function Classify(reply: string): AgentRole {
    var intentText := Upper(Trim(reply));
    if Contains(intentText, "GROWTH") then GROWTH
    else if Contains(intentText, "ARCHITECT") then ARCHITECT
    else GUARDIAN
  }

  /** The classification never yields the supervisor, and GROWTH wins over ARCHITECT. */
  lemma ClassifyPriority(reply: string)
    ensures Classify(reply) != SUPERVISOR
    ensures Classify(reply) == GROWTH <==> Contains(Upper(Trim(reply)), "GROWTH")
    ensures Classify(reply) == ARCHITECT <==>
      !Contains(Upper(Trim(reply)), "GROWTH") && Contains(Upper(Trim(reply)), "ARCHITECT")
    ensures Classify(reply) == GUARDIAN <==>
      !Contains(Upper(Trim(reply)), "GROWTH") && !Contains(Upper(Trim(reply)), "ARCHITECT")
  {
  }

  /** A reply that, trimmed and upper-cased, is a specialist's name selects that
      specialist, whatever its letter case and surrounding white space. */
  lemma ClassifyRoleName(reply: string, r: AgentRole)
    requires r != SUPERVISOR && Upper(Trim(reply)) == RoleName(r)
    ensures Classify(reply) == r
  {
    if r == GROWTH {
      assert Contains("GROWTH", "GROWTH");
    } else if r == ARCHITECT {
      ArchitectNamesOnlyItself();
    } else {
      GuardianNamesNoOtherRole();
    }
  }

  lemma ArchitectNamesOnlyItself()
    ensures !Contains("ARCHITECT", "GROWTH") && Contains("ARCHITECT", "ARCHITECT")
  {
    ContainedCharsOccur("ARCHITECT", "GROWTH");
    assert "GROWTH"[0] !in "ARCHITECT";
    assert Contains("ARCHITECT", "ARCHITECT");
  }

  lemma GuardianNamesNoOtherRole()
    ensures !Contains("GUARDIAN", "GROWTH") && !Contains("GUARDIAN", "ARCHITECT")
  {
    GuardianIsNotGrowth();
    GuardianIsNotArchitect();
  }

  lemma GuardianIsNotGrowth()
    ensures !Contains("GUARDIAN", "GROWTH")
  {
    ContainedCharsOccur("GUARDIAN", "GROWTH");
    assert "GROWTH"[3] !in "GUARDIAN";
  }

  lemma GuardianIsNotArchitect()
    ensures !Contains("GUARDIAN", "ARCHITECT")
  {
    ContainedCharsOccur("GUARDIAN", "ARCHITECT");
    assert "ARCHITECT"[2] !in "GUARDIAN";
  }

  /** An empty reply selects the Guardian. */
  lemma ClassifyEmpty()
    ensures Classify("") == GUARDIAN
  {
    assert Trim("") == "" && Upper("") == "";
    ContainedCharsOccur("", "GROWTH");
    ContainedCharsOccur("", "ARCHITECT");
  }

  /** When the supervisor call fails, `generateText` hands back its diagnostic, which names
      neither GROWTH nor ARCHITECT, so the query goes to the Guardian. */
  lemma FailedSupervisorSelectsGuardian()
    ensures Classify(ErrorText(FAST_MODEL)) == GUARDIAN
  {
    var s := ErrorText(FAST_MODEL);
    ErrorTextHarmless();
    assert Trim(s) == s;
    var u := Upper(s);
    forall k | 0 <= k < |u| ensures u[k] != 'W' {
      assert s[k] in s;
    }
    ContainedCharsOccur(u, "GROWTH");
    assert "GROWTH"[3] == 'W';
    if Contains(u, "ARCHITECT") {
      ArchitectHasCapitalHI(s);
    }
  }

  /** What the proof needs of each part of the diagnostic: no `w`, no upper-cased `HI`, and
      its first and last characters. */
  predicate Harmless(s: string, first: char, last: char) {
    'w' !in s && 'W' !in s && NoCapitalHI(s) && |s| > 0 && s[0] == first && s[|s| - 1] == last
  }

  /** The literals are taken in pieces short enough for the solver to read character by
      character, cut so that no piece holds both an `h` and an `i` in either case. */
  predicate CleanPiece(s: string) {
    'w' !in s && 'W' !in s && (('h' !in s && 'H' !in s) || ('i' !in s && 'I' !in s))
  }

  lemma HarmlessPiece(s: string, first: char, last: char)
    requires CleanPiece(s) && |s| > 0 && s[0] == first && s[|s| - 1] == last
    ensures Harmless(s, first, last)
  {
    NoCapitalHIWithoutOne(s);
  }

  lemma HarmlessAppend(p: string, q: string, first: char, middle: char, start: char, last: char)
    requires Harmless(p, first, middle) && Harmless(q, start, last)
    requires !(UpperChar(middle) == 'H' && UpperChar(start) == 'I')
    ensures Harmless(p + q, first, last)
  {
    NoCapitalHIAppend(p, q);
  }

  lemma HarmlessOpeningHead()
    ensures Harmless("[SYSTEM ERROR]: ", '[', ' ')
  {
    HarmlessPiece("[SYSTEM ERROR]: ", '[', ' ');
  }

  lemma HarmlessOpeningMiddle()
    ensures Harmless("Could not generate ", 'C', ' ')
  {
    HarmlessPiece("Could not generate ", 'C', ' ');
  }

  lemma HarmlessOpeningTail()
    ensures Harmless("response using model ", 'r', ' ')
  {
    HarmlessPiece("response using model ", 'r', ' ');
  }

  lemma HarmlessOpening()
    ensures Harmless(ERROR_OPENING, '[', ' ')
  {
    var a, b, c := "[SYSTEM ERROR]: ", "Could not generate ", "response using model ";
    HarmlessOpeningHead();
    HarmlessOpeningMiddle();
    HarmlessOpeningTail();
    HarmlessAppend(a, b, '[', ' ', 'C', ' ');
    HarmlessAppend(a + b, c, '[', ' ', 'r', ' ');
    OpeningPieces();
  }

  lemma OpeningPieces()
    ensures ERROR_OPENING == "[SYSTEM ERROR]: " + "Could not generate " + "response using model "
  {
    OpeningPrefixPieces();
    OpeningHalves();
  }

  lemma OpeningHalves()
    ensures ERROR_OPENING == "[SYSTEM ERROR]: Could not generate " + "response using model "
  {
  }

  lemma OpeningPrefixPieces()
    ensures "[SYSTEM ERROR]: Could not generate " == "[SYSTEM ERROR]: " + "Could not generate "
  {
  }

  lemma HarmlessModel()
    ensures Harmless(FAST_MODEL, 'g', 'h')
  {
    var a, b := "gemini-2.5-flas", "h";
    HarmlessPiece(a, 'g', 's');
    HarmlessPiece(b, 'h', 'h');
    HarmlessAppend(a, b, 'g', 's', 'h', 'h');
    assert FAST_MODEL == a + b;
  }

  lemma HarmlessAdviceHead()
    ensures Harmless(". Please check ", '.', ' ')
  {
    HarmlessPiece(". Please check ", '.', ' ');
  }

  lemma HarmlessAdviceTail()
    ensures Harmless("API Key or Quota.", 'A', '.')
  {
    HarmlessPiece("API Key or Quota.", 'A', '.');
  }

  lemma HarmlessAdvice()
    ensures Harmless(ERROR_ADVICE, '.', '.')
  {
    var a, b := ". Please check ", "API Key or Quota.";
    HarmlessAdviceHead();
    HarmlessAdviceTail();
    HarmlessAppend(a, b, '.', ' ', 'A', '.');
    assert ERROR_ADVICE == a + b;
  }

  lemma ErrorTextHarmless()
    ensures Harmless(ErrorText(FAST_MODEL), '[', '.')
  {
    HarmlessOpening();
    HarmlessModel();
    HarmlessAdvice();
    HarmlessAppend(ERROR_OPENING, FAST_MODEL, '[', ' ', 'g', 'h');
    HarmlessAppend(ERROR_OPENING + FAST_MODEL, ERROR_ADVICE, '[', 'h', '.', '.');
  }

  /** Upper-cased, `s` has an `H` at `j - 1` directly followed by an `I` at `j`. */
  predicate CapitalHIAt(s: string, j: int) {
    1 <= j < |s| && UpperChar(s[j - 1]) == 'H' && UpperChar(s[j]) == 'I'
  }

  predicate NoCapitalHI(s: string) {
    forall j :: 1 <= j < |s| ==> !CapitalHIAt(s, j)
  }

  lemma ArchitectHasCapitalHI(s: string)
    requires Contains(Upper(s), "ARCHITECT")
    ensures !NoCapitalHI(s)
  {
    var u := Upper(s);
    ContainsAt(u, "ARCHITECT");
    var i: nat :| OccursAt(u, "ARCHITECT", i);
    assert u[i..i + 9][3] == 'H' && u[i..i + 9][4] == 'I';
    assert CapitalHIAt(s, i + 4);
  }

  /** A string without any `h`, or without any `i`, has no `HI` once upper-cased. */
  lemma NoCapitalHIWithoutOne(s: string)
    requires ('h' !in s && 'H' !in s) || ('i' !in s && 'I' !in s)
    ensures NoCapitalHI(s)
  {
    forall j | 1 <= j < |s| ensures !CapitalHIAt(s, j) {
      assert s[j - 1] in s && s[j] in s;
    }
  }

  lemma NoCapitalHIAppend(p: string, q: string)
    requires NoCapitalHI(p) && NoCapitalHI(q)
    requires p == [] || q == [] || !(UpperChar(p[|p| - 1]) == 'H' && UpperChar(q[0]) == 'I')
    ensures NoCapitalHI(p + q)
  {
    var s := p + q;
    forall j | 1 <= j < |s| ensures !CapitalHIAt(s, j) {
      if j < |p| {
        assert !CapitalHIAt(p, j);
      } else if j > |p| {
        assert !CapitalHIAt(q, j - |p|);
      }
    }
  }

  /** Every character of a contained string occurs in the containing one. */
  lemma {:induction false} ContainedCharsOccur(s: string, sub: string)
    ensures Contains(s, sub) ==> forall k :: 0 <= k < |sub| ==> sub[k] in s
    decreases |s|
  {
    if |s| > 0 {
      ContainedCharsOccur(s[1..], sub);
      assert forall x :: x in s[1..] ==> x in s;
    }
    if sub <= s {
      assert forall k :: 0 <= k < |sub| ==> sub[k] == s[k];
    }
  }

  /** Who a history line is attributed to. */
  function Speaker(m: ChatMessage): string {
    match m.role
    case User => "USER"
    case Assistant => "ASSISTANT (" + (match m.agent case Some(a) => RoleName(a) case None => "SYSTEM") + ")"
  }

  /** One line of the conversation history. */
  function HistoryLine(m: ChatMessage): string {
    Concat([Speaker(m), ": ", m.content])
  }

  const NO_HISTORY := "No previous context."

  /** The history block: the last six messages, one labelled line each. */
  function HistoryText(history: Option<seq<ChatMessage>>): string {
    if history.Some? && |history.value| > 0 then Join(Map(TakeLast(history.value, 6), HistoryLine), "\n\n")
    else NO_HISTORY
  }

  /** Only the last six messages matter, and each of them appears in the history block. */
  lemma HistoryUsesLastSix(h: seq<ChatMessage>, h': seq<ChatMessage>)
    requires |h| > 0 && |h'| > 0 && TakeLast(h, 6) == TakeLast(h', 6)
    ensures HistoryText(Some(h)) == HistoryText(Some(h'))
    ensures forall i :: 0 <= i < |h| && |h| - 6 <= i ==> Contains(HistoryText(Some(h)), h[i].content)
    ensures HistoryText(None) == HistoryText(Some([])) == NO_HISTORY
  {
    var last := TakeLast(h, 6);
    var lines := Map(last, HistoryLine);
    forall i | 0 <= i < |h| && |h| - 6 <= i ensures Contains(HistoryText(Some(h)), h[i].content) {
      var k := i - (|h| - |last|);
      assert last[k] == h[i];
      JoinContains(lines, "\n\n", k);
      JoinContains([Speaker(h[i]), ": ", h[i].content], "", 2);
      ContainsTransitive(HistoryText(Some(h)), lines[k], h[i].content);
    }
  }

  /** One retrieved document as the prompt shows it. */
  function SourceBlock(d: VectorDocument): string {
    Concat(["[SOURCE: ", CategoryOf(d), " - ", d.metadata.title, "]\n", d.content])
  }

  function ContextText(docs: seq<VectorDocument>): string {
    Join(Map(docs, SourceBlock), "\n\n")
  }

  function TitleOf(d: VectorDocument): string {
    d.metadata.title
  }

  /** The pieces of the specialist's prompt, in order: the fixed template text around the
      persona, the history block, the folder list, the context block and the query. */
  function PromptParts(persona: string, historyText: string, folders: seq<string>, contextText: string,
                       query: string): seq<string> {
    [PROMPT_OPENING, persona, PROMPT_HISTORY, historyText, PROMPT_CONTEXT, Join(folders, ", "),
     PROMPT_CONTEXT_END, contextText, PROMPT_COMMAND, query, PROMPT_INSTRUCTIONS]
  }

  const PROMPT_OPENING := "\n    "
  const PROMPT_HISTORY := "\n\n    CONVERSATION HISTORY (Last 3 exchanges):\n    "
  const PROMPT_CONTEXT := "\n\n    CONTEXT FROM NEURAL DATABASE ("
  const PROMPT_CONTEXT_END := "):\n    "
  const PROMPT_COMMAND := "\n\n    CURRENT USER COMMAND:\n    \""
  const PROMPT_INSTRUCTIONS := "\"\n\n    INSTRUCTIONS:\n"
    + "    - Consider the conversation history for continuity\n"
    + "    - Answer strictly based on the Context provided\n"
    + "    - Maintain your Persona perfectly\n"
    + "    - If context is missing, state clearly \"Information not found in Knowledge Base\"\n  "

  /** The specialist's prompt. */
  function FinalPrompt(persona: string, historyText: string, folders: seq<string>, contextText: string,
                       query: string): string {
    Concat(PromptParts(persona, historyText, folders, contextText, query))
  }

  /** The specialist sees its persona, the query, the history block, the folders it searched
      and every retrieved document's text. */
  lemma FinalPromptCarriesInputs(persona: string, history: Option<seq<ChatMessage>>, folders: seq<string>,
                                 docs: seq<VectorDocument>, query: string)
    ensures var p := FinalPrompt(persona, HistoryText(history), folders, ContextText(docs), query);
      Contains(p, persona) && Contains(p, query) && Contains(p, HistoryText(history)) &&
      (forall j :: 0 <= j < |folders| ==> Contains(p, folders[j])) &&
      forall i :: 0 <= i < |docs| ==> Contains(p, docs[i].content)
  {
    var c := ContextText(docs);
    var parts := PromptParts(persona, HistoryText(history), folders, c, query);
    var p := Concat(parts);
    JoinContains(parts, "", 1);
    JoinContains(parts, "", 3);
    JoinContains(parts, "", 5);
    JoinContains(parts, "", 7);
    JoinContains(parts, "", 9);
    forall j | 0 <= j < |folders| ensures Contains(p, folders[j]) {
      JoinContains(folders, ", ", j);
      ContainsTransitive(p, parts[5], folders[j]);
    }
    forall i | 0 <= i < |docs| ensures Contains(p, docs[i].content) {
      var blocks := Map(docs, SourceBlock);
      JoinContains(blocks, "\n\n", i);
      var d := docs[i];
      JoinContains(["[SOURCE: ", CategoryOf(d), " - ", d.metadata.title, "]\n", d.content], "", 5);
      ContainsTransitive(c, blocks[i], d.content);
      ContainsTransitive(p, c, d.content);
    }
  }

  /** How the supervisor's classification call ended: with whatever `generateText` resolved
      to, or by rejecting. The `generateText` of `services/gemini.ts` catches every error, so
      with it the call always completes. */
  datatype SupervisorOutcome = Completed(reply: GenReply) | Rejected

  /** A prompt sent to a model. */
  datatype ModelCall = ModelCall(model: string, prompt: string)

  /** A progress notification (`onProgress(stage, agent)`). */
  datatype Progress = Progress(stage: string, agent: AgentRole)

  /** What the run returns. */
  datatype RunResult = RunResult(text: string, agent: AgentRole, context: seq<VectorDocument>, logs: seq<AgentLog>)

  function StepOf(log: AgentLog): Step {
    log.step
  }

  /** The agent a run ends with. */
  function SelectedAgent(forcedAgent: Option<AgentRole>, supervisor: SupervisorOutcome): AgentRole {
    if forcedAgent.Some? && forcedAgent.value != SUPERVISOR then forcedAgent.value
    else match supervisor
      case Completed(reply) => Classify(GenerateText(FAST_MODEL, reply))
      case Rejected => GUARDIAN
  }

  /** Whether the operator's choice overrides the supervisor. */
  predicate Overridden(forcedAgent: Option<AgentRole>) {
    forcedAgent.Some? && forcedAgent.value != SUPERVISOR
  }

  /** The supervisor's part of the audit log. */
  function SupervisorSteps(forcedAgent: Option<AgentRole>, supervisor: SupervisorOutcome): seq<Step> {
    if Overridden(forcedAgent) then [MANUAL_OVERRIDE]
    else [INTENT_ANALYSIS, if supervisor.Completed? then DELEGATION else ERROR]
  }

  /** The specialist's part of the audit log. */
  function SpecialistSteps(found: bool): seq<Step> {
    [MEMORY_ACCESS, if found then CITATION else MEMORY_MISS, EXECUTION_COMPLETE]
  }

  /** The steps of the audit log, in order. */
  function ExpectedSteps(forcedAgent: Option<AgentRole>, supervisor: SupervisorOutcome, found: bool): seq<Step> {
    SupervisorSteps(forcedAgent, supervisor) + SpecialistSteps(found)
  }

  /** The entries of `logs` from index `lo` up to `hi` are written by `agent` at time `now`. */
  predicate LoggedBy(logs: seq<AgentLog>, lo: int, hi: int, agent: AgentRole, now: int) {
    forall i :: lo <= i < hi && 0 <= i < |logs| ==> logs[i].agent == agent && logs[i].timestamp == now
  }

  /** The folder list as the memory-access log shows it. */
  function FolderList(folders: seq<string>): string {
    if |folders| > 0 then Join(folders, ", ") else "GLOBAL"
  }

  // The fixed texts of the audit log and of the progress notifications.
  const OVERRIDE_DETAILS := "Operator forced control to: "
  const OVERRIDE_STAGE := "Manual override active"
  const ANALYZING_STAGE := "Analyzing intent..."
  const ANALYZING_DETAILS := "Supervisor analyzing query intent..."
  const DELEGATION_DETAILS := "Intent detected. Delegating to: "
  const DELEGATED_STAGE := "Delegated to "
  const UNREACHABLE_DETAILS := "Supervisor unreachable. Defaulting to Guardian."
  const SEARCHING_STAGE := " searching memory..."
  const AGENT_DETAILS := "Agent "
  const ELLIPSIS := "..."
  const FOUND_OPENING := "Found "
  const MS := "ms"
  const QUERYING_DETAILS := " querying Neural Folders: "
  const MISS_DETAILS := "No relevant documents found in folders: "
  const FOUND_DETAILS := " references: "
  const GENERATING_STAGE := " generating response..."
  const GENERATED_DETAILS := "Response generated in "
  const COMPLETE_STAGE := "Complete"
  const MALFUNCTION := "Agent malfunction."

  /** Step 1 of the run: the operator's choice, or the supervisor's classification of the
      query (GUARDIAN when the call rejects). */
  method SelectAgent(query: string, forcedAgent: Option<AgentRole>, supervisor: SupervisorOutcome, now: int)
    returns (agent: AgentRole, logs: seq<AgentLog>, sent: seq<ModelCall>, progress: seq<Progress>)
    ensures agent == SelectedAgent(forcedAgent, supervisor) && agent != SUPERVISOR
    ensures Map(logs, StepOf) == SupervisorSteps(forcedAgent, supervisor)
    ensures LoggedBy(logs, 0, |logs|, SUPERVISOR, now)
    ensures sent == if Overridden(forcedAgent) then [] else [ModelCall(FAST_MODEL, IntentPrompt(query))]
    ensures |progress| > 0 && forall i :: 0 <= i < |progress| ==> progress[i].agent == SUPERVISOR
  {
    if Overridden(forcedAgent) {
      agent := forcedAgent.value;
      logs := [AgentLog(MANUAL_OVERRIDE, OVERRIDE_DETAILS + RoleName(agent), SUPERVISOR, now)];
      sent := [];
      progress := [Progress(OVERRIDE_STAGE, SUPERVISOR)];
    } else {
      progress := [Progress(ANALYZING_STAGE, SUPERVISOR)];
      logs := [AgentLog(INTENT_ANALYSIS, ANALYZING_DETAILS, SUPERVISOR, now)];
      sent := [ModelCall(FAST_MODEL, IntentPrompt(query))];
      match supervisor
      case Completed(reply) =>
        var intentText := GenerateText(FAST_MODEL, reply);
        agent := Classify(intentText);
        ClassifyPriority(intentText);
        logs := logs + [AgentLog(DELEGATION, DELEGATION_DETAILS + RoleName(agent), SUPERVISOR, now)];
        progress := progress + [Progress(DELEGATED_STAGE + RoleName(agent), SUPERVISOR)];
      case Rejected =>
        agent := GUARDIAN;
        logs := logs + [AgentLog(ERROR, UNREACHABLE_DETAILS, SUPERVISOR, now)];
    }
  }

  /** The two entries of the search step: which folders are queried, then either the
      titles found or the miss. */
  function SearchLogs(agent: AgentRole, docs: seq<VectorDocument>, now: int): (logs: seq<AgentLog>)
    ensures |logs| == 2 && logs[0].step == MEMORY_ACCESS && logs[1].step == if |docs| > 0 then CITATION else MEMORY_MISS
    ensures LoggedBy(logs, 0, |logs|, agent, now)
  {
    var allowedCategories := MemoryAccess(agent);
    var access := AgentLog(MEMORY_ACCESS,
      AGENT_DETAILS + RoleName(agent) + QUERYING_DETAILS + FolderList(allowedCategories) + ELLIPSIS,
      agent, now);
    if |docs| > 0 then
      [access, AgentLog(CITATION,
        FOUND_OPENING + NatToString(|docs|) + FOUND_DETAILS + Join(Map(docs, TitleOf), ", "), agent, now)]
    else
      [access, AgentLog(MEMORY_MISS, MISS_DETAILS + Join(allowedCategories, ", "), agent, now)]
  }

  /** Step 2 of the run: the agent searches its own folders for at most five documents. */
  method RetrieveContext(store: VectorStore, query: string, agent: AgentRole, now: int)
    returns (docs: seq<VectorDocument>, logs: seq<AgentLog>, progress: Progress)
    requires agent != SUPERVISOR
    ensures docs == SearchResult(GetEmbedding(store.provider, query), store.documents, 5,
                                 Some(MemoryAccess(agent)), store.sqrt)
    ensures |docs| <= 5
    ensures forall i :: 0 <= i < |docs| ==> docs[i] in store.documents && CategoryOf(docs[i]) in MemoryAccess(agent)
    ensures |logs| == 2 && logs[0].step == MEMORY_ACCESS && logs[1].step == if |docs| > 0 then CITATION else MEMORY_MISS
    ensures LoggedBy(logs, 0, |logs|, agent, now)
    ensures progress == Progress(RoleName(agent) + SEARCHING_STAGE, agent)
  {
    var allowedCategories := MemoryAccess(agent);
    MemoryAccessShape(agent);
    progress := Progress(RoleName(agent) + SEARCHING_STAGE, agent);
    docs := store.Search(query, 5, Some(allowedCategories));
    forall i | 0 <= i < |docs| ensures docs[i] in store.documents && CategoryOf(docs[i]) in allowedCategories {
      assert InScope(docs[i], Some(allowedCategories));
    }
    logs := SearchLogs(agent, docs, now);
  }

  /** The supervisor's entries, then the specialist's two, then the completion entry make
      up the whole audit log. */
  lemma LogAssembly(sup: seq<AgentLog>, spec: seq<AgentLog>, done: AgentLog, forcedAgent: Option<AgentRole>,
                    supervisor: SupervisorOutcome, found: bool, agent: AgentRole, now: int)
    requires Map(sup, StepOf) == SupervisorSteps(forcedAgent, supervisor) && LoggedBy(sup, 0, |sup|, SUPERVISOR, now)
    requires |spec| == 2 && spec[0].step == MEMORY_ACCESS && spec[1].step == if found then CITATION else MEMORY_MISS
    requires LoggedBy(spec, 0, |spec|, agent, now)
    requires done.step == EXECUTION_COMPLETE && done.agent == agent && done.timestamp == now
    ensures var all := sup + spec + [done];
      Map(all, StepOf) == ExpectedSteps(forcedAgent, supervisor, found) && |all| >= 3 &&
      LoggedBy(all, 0, |all| - 3, SUPERVISOR, now) && LoggedBy(all, |all| - 3, |all|, agent, now)
  {
    var all := sup + spec + [done];
    MapConcat(sup, spec + [done], StepOf);
    MapConcat(spec, [done], StepOf);
  }

  /** `runMultiAgentSystem(query, forcedAgent, conversationHistory, onProgress)`.
      `supervisor` and `specialist` are what the two model calls answer, `personas` the
      persona texts, `now` the clock reading used for every log entry and `elapsedMs` the
      duration reported at the end. */
  method RunMultiAgentSystem(store: VectorStore, query: string, forcedAgent: Option<AgentRole>,
                             conversationHistory: Option<seq<ChatMessage>>, supervisor: SupervisorOutcome,
                             specialist: GenReply, personas: AgentRole -> string, now: int, elapsedMs: nat)
    returns (res: RunResult, sent: seq<ModelCall>, progress: seq<Progress>)
    ensures res.agent == SelectedAgent(forcedAgent, supervisor) && res.agent != SUPERVISOR
    ensures Overridden(forcedAgent) ==> res.agent == forcedAgent.value && |sent| == 1
    ensures !Overridden(forcedAgent) ==> |sent| == 2 && sent[0] == ModelCall(FAST_MODEL, IntentPrompt(query))
    ensures sent[|sent| - 1] == ModelCall(SMART_MODEL,
      FinalPrompt(personas(res.agent), HistoryText(conversationHistory), MemoryAccess(res.agent),
                  ContextText(res.context), query))
    ensures res.context == SearchResult(GetEmbedding(store.provider, query), store.documents, 5,
                                        Some(MemoryAccess(res.agent)), store.sqrt)
    ensures Map(res.logs, StepOf) == ExpectedSteps(forcedAgent, supervisor, |res.context| > 0)
    ensures |res.logs| >= 3
    ensures LoggedBy(res.logs, 0, |res.logs| - 3, SUPERVISOR, now)
    ensures LoggedBy(res.logs, |res.logs| - 3, |res.logs|, res.agent, now)
    ensures var answer := GenerateText(SMART_MODEL, specialist);
      res.text == (if answer == "" then MALFUNCTION else answer) && res.text != ""
    ensures |progress| >= 3 && progress[|progress| - 1] == Progress(COMPLETE_STAGE, res.agent)
  {
    var selectedAgent, logs, calls, notes := SelectAgent(query, forcedAgent, supervisor, now);
    var relevantDocs, searchLogs, searching := RetrieveContext(store, query, selectedAgent, now);

    // Step 3: generation by the specialist.
    var generating := Progress(RoleName(selectedAgent) + GENERATING_STAGE, selectedAgent);
    var finalPrompt := FinalPrompt(personas(selectedAgent), HistoryText(conversationHistory),
                                   MemoryAccess(selectedAgent), ContextText(relevantDocs), query);
    sent := calls + [ModelCall(SMART_MODEL, finalPrompt)];
    var responseText := GenerateText(SMART_MODEL, specialist);
    var done := AgentLog(EXECUTION_COMPLETE, GENERATED_DETAILS + NatToString(elapsedMs) + MS, selectedAgent, now);
    progress := notes + [searching, generating, Progress(COMPLETE_STAGE, selectedAgent)];

    var allLogs := logs + searchLogs + [done];
    LogAssembly(logs, searchLogs, done, forcedAgent, supervisor, |relevantDocs| > 0, selectedAgent, now);
    res := RunResult(if responseText == "" then MALFUNCTION else responseText,
                     selectedAgent, relevantDocs, allLogs);
  }
}
