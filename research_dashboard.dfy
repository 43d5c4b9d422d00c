/**
 * ResearchDashboard of the client: validates the drug name, drives the four
 * agent cards idle -> thinking -> completed (or error), and keeps the
 * loading, error and result state of one analysis.
 */
module ResearchDashboard {
  import opened Values
  import AgentStatusCard

  datatype Icon = FileText | TrendingUp | Eye

  /** One entry of `agentStatuses`. */
  datatype AgentEntry = AgentEntry(name: string, status: string, icon: Icon)

  const IDLE := "idle"
  const THINKING := "thinking"
  const COMPLETED := "completed"
  const ERROR := "error"

  /** Every status the dashboard ever assigns. */
  const DASHBOARD_STATUSES: set<string> := {IDLE, THINKING, COMPLETED, ERROR}

  /** The initial `agentStatuses` list. */
  const INITIAL_AGENTS: seq<AgentEntry> := [
    AgentEntry("Clinical Agent", IDLE, FileText),
    AgentEntry("Patent Agent", IDLE, FileText),
    AgentEntry("Market Agent", IDLE, TrendingUp),
    AgentEntry("Vision Agent", IDLE, Eye)
  ]

  /** The names the completion loop walks through, written out separately in the source. */
  const COMPLETION_ORDER: seq<string> := ["Clinical Agent", "Patent Agent", "Market Agent", "Vision Agent"]

  const EMPTY_NAME_ERROR := "Please enter a drug or molecule name"
  const REQUEST_FAILED_ERROR := "Failed to process research request"

  /** What `researchService.analyze` does: resolve with the response body, or reject
      with the value at `err.response?.data?.error` (undefined when absent). */
  datatype AnalyzeOutcome = Responded(data: Json) | Rejected(serverError: Json)

  /** The arguments handed to `researchService.analyze`. */
  datatype AnalyzeRequest = AnalyzeRequest(drugName: string, privacyMode: string)

  /** `prev.map(agent => ({ ...agent, status }))`. */
  function WithStatus(agents: seq<AgentEntry>, status: string): (r: seq<AgentEntry>)
    ensures |r| == |agents|
    ensures forall i :: 0 <= i < |r| ==> r[i] == agents[i].(status := status)
  {
    if agents == [] then []
    else [agents[0].(status := status)] + WithStatus(agents[1..], status)
  }

  /** `prev.map(agent => agent.name === name ? { ...agent, status } : agent)`. */
  function WithStatusFor(agents: seq<AgentEntry>, name: string, status: string): (r: seq<AgentEntry>)
    ensures |r| == |agents|
    ensures forall i :: 0 <= i < |r| ==>
              r[i] == if agents[i].name == name then agents[i].(status := status) else agents[i]
  {
    if agents == [] then []
    else [if agents[0].name == name then agents[0].(status := status) else agents[0]]
         + WithStatusFor(agents[1..], name, status)
  }

  /** The list after the completion loop has marked each of `names` completed, in order. */
  function CompletedInOrder(agents: seq<AgentEntry>, names: seq<string>): (r: seq<AgentEntry>)
    ensures |r| == |agents|
    ensures forall i :: 0 <= i < |r| ==> r[i].name == agents[i].name && r[i].icon == agents[i].icon
    ensures forall i :: 0 <= i < |r| && r[i].status != agents[i].status ==> r[i].status == COMPLETED
  {
    if names == [] then agents
    else WithStatusFor(CompletedInOrder(agents, names[..|names| - 1]), names[|names| - 1], COMPLETED)
  }

  /** After the loop, exactly the agents whose names it visited are completed;
      every other entry is untouched. */
  lemma {:induction false} CompletedInOrderMarksVisited(agents: seq<AgentEntry>, names: seq<string>)
    ensures |CompletedInOrder(agents, names)| == |agents|
    ensures forall i :: 0 <= i < |agents| ==>
              CompletedInOrder(agents, names)[i] ==
                if agents[i].name in names then agents[i].(status := COMPLETED) else agents[i]
  {
    if names != [] {
      var init := names[..|names| - 1];
      CompletedInOrderMarksVisited(agents, init);
      forall i | 0 <= i < |agents|
        ensures agents[i].name in names <==> agents[i].name in init || agents[i].name == names[|names| - 1]
      {
        assert names == init + [names[|names| - 1]];
      }
    }
  }

  /** Only `status` ever changes: the roster's length, order, names and icons are those of
      the initial list. */
  ghost predicate HasRoster(agents: seq<AgentEntry>) {
    WithStatus(agents, IDLE) == INITIAL_AGENTS
  }

  /** Because the loop's names are the roster's names, the loop completes every agent. */
  lemma CompletionCoversRoster(agents: seq<AgentEntry>)
    requires HasRoster(agents)
    ensures CompletedInOrder(agents, COMPLETION_ORDER) == WithStatus(agents, COMPLETED)
  {
    CompletedInOrderMarksVisited(agents, COMPLETION_ORDER);
    forall i | 0 <= i < |agents| ensures agents[i].name in COMPLETION_ORDER {
      assert agents[i].name == WithStatus(agents, IDLE)[i].name == INITIAL_AGENTS[i].name;
    }
  }

  /** Setting a status keeps the roster, and setting twice is setting once. */
  lemma WithStatusKeepsRoster(agents: seq<AgentEntry>, s: string, t: string)
    ensures HasRoster(agents) ==> HasRoster(WithStatus(agents, s))
    ensures WithStatus(WithStatus(agents, s), t) == WithStatus(agents, t)
  {
    assert WithStatus(WithStatus(agents, s), IDLE) == WithStatus(agents, IDLE);
  }

  /** The dashboard's agent list: the four-agent roster, each in a status the page assigns. */
  ghost predicate ValidAgents(agents: seq<AgentEntry>) {
    && HasRoster(agents)
    && forall i :: 0 <= i < |agents| ==> agents[i].status in DASHBOARD_STATUSES
  }

  /** A bulk update to a dashboard status keeps the agent list valid. */
  lemma WithStatusKeepsValid(agents: seq<AgentEntry>, s: string)
    requires ValidAgents(agents) && s in DASHBOARD_STATUSES
    ensures ValidAgents(WithStatus(agents, s))
  {
    WithStatusKeepsRoster(agents, s, IDLE);
  }

  /** The Analyze button: disabled while loading or while the trimmed name is empty. */
  function SubmitDisabled(isLoading: bool, drugName: string): (disabled: bool)
    ensures disabled <==> isLoading || AllWhitespace(drugName)
  {
    isLoading || Trim(drugName) == ""
  }

  /** `!drugName.trim()`: the name is blank when trimming leaves nothing. */
  method IsBlankName(name: string) returns (blank: bool)
    ensures blank <==> AllWhitespace(name)
  {
    blank := Trim(name) == "";
  }

  /** Every status the dashboard assigns has its own card configuration, so the
      idle fallback never fires for a dashboard agent. */
  lemma DashboardStatusesHaveCards(agents: seq<AgentEntry>)
    requires forall i :: 0 <= i < |agents| ==> agents[i].status in DASHBOARD_STATUSES
    ensures forall i :: 0 <= i < |agents| ==>
              agents[i].status in AgentStatusCard.STATUS_CONFIG &&
              AgentStatusCard.ConfigFor(agents[i].status) == AgentStatusCard.STATUS_CONFIG[agents[i].status]
  {
  }

  class Dashboard {
    var drugName: string
    var isLoading: bool
    var results: Json
    var error: Json
    var agentStatuses: seq<AgentEntry>

    ghost predicate Valid()
      reads this
    {
      ValidAgents(agentStatuses)
    }

    constructor ()
      ensures Valid()
      ensures drugName == "" && !isLoading && results == JNull && error == JNull
      ensures agentStatuses == INITIAL_AGENTS
    {
      drugName := "";
      isLoading := false;
      results := JNull;
      error := JNull;
      agentStatuses := INITIAL_AGENTS;
    }

    /** The input's `onChange`. */
    method SetDrugName(name: string)
      requires Valid()
      modifies this
      ensures Valid()
      ensures drugName == name
      ensures isLoading == old(isLoading) && results == old(results) && error == old(error)
      ensures agentStatuses == old(agentStatuses)
    {
      drugName := name;
    }

    /** `handleSubmit` up to its `await`: reject a blank name, or enter the loading state
        with every agent thinking and return the request to send (the untrimmed name). */
    method StartSubmit(privacyMode: string) returns (request: Option<AnalyzeRequest>)
      requires Valid()
      modifies this
      ensures Valid()
      ensures drugName == old(drugName)
      ensures request.None? <==> AllWhitespace(drugName)
      ensures request.None? ==>
                && error == JString(EMPTY_NAME_ERROR)
                && isLoading == old(isLoading) && results == old(results)
                && agentStatuses == old(agentStatuses)
      ensures request.Some? ==>
                && request.value == AnalyzeRequest(drugName, privacyMode)
                && isLoading && error == JNull && results == JNull
                && agentStatuses == WithStatus(old(agentStatuses), THINKING)
    {
      var blank := IsBlankName(drugName);
      if blank {
        error := JString(EMPTY_NAME_ERROR);
        return None;
      }
      isLoading := true;
      error := JNull;
      results := JNull;
      WithStatusKeepsValid(agentStatuses, THINKING);
      agentStatuses := WithStatus(agentStatuses, THINKING);
      request := Some(AnalyzeRequest(drugName, privacyMode));
    }

    /** `handleSubmit` after its `await`: on a response, mark the agents completed one
        by one and store the data; on a rejection, record the error and mark every
        agent failed; either way stop loading. */
    method FinishSubmit(outcome: AnalyzeOutcome)
      requires Valid()
      modifies this
      ensures Valid()
      ensures !isLoading && drugName == old(drugName)
      ensures outcome.Responded? ==>
                && agentStatuses == CompletedInOrder(old(agentStatuses), COMPLETION_ORDER)
                && agentStatuses == WithStatus(old(agentStatuses), COMPLETED)
                && results == outcome.data && error == old(error)
      ensures outcome.Rejected? ==>
                && agentStatuses == WithStatus(old(agentStatuses), ERROR)
                && error == (if Truthy(outcome.serverError) then outcome.serverError
                             else JString(REQUEST_FAILED_ERROR))
                && results == old(results)
    {
      match outcome {
      case Responded(data) =>
        for i := 0 to |COMPLETION_ORDER|
          invariant agentStatuses == CompletedInOrder(old(agentStatuses), COMPLETION_ORDER[..i])
          invariant drugName == old(drugName) && results == old(results) && error == old(error)
          invariant isLoading == old(isLoading)
        {
          agentStatuses := WithStatusFor(agentStatuses, COMPLETION_ORDER[i], COMPLETED);
          assert COMPLETION_ORDER[..i + 1][..i] == COMPLETION_ORDER[..i];
        }
        assert COMPLETION_ORDER[..|COMPLETION_ORDER|] == COMPLETION_ORDER;
        CompletionCoversRoster(old(agentStatuses));
        WithStatusKeepsValid(old(agentStatuses), COMPLETED);
        results := data;
      case Rejected(serverError) =>
        error := if Truthy(serverError) then serverError else JString(REQUEST_FAILED_ERROR);
        WithStatusKeepsValid(agentStatuses, ERROR);
        agentStatuses := WithStatus(agentStatuses, ERROR);
      }
      isLoading := false;
    }

    /** `handleSubmit` end to end, the network call given as `outcome`. */
    method HandleSubmit(privacyMode: string, outcome: AnalyzeOutcome) returns (request: Option<AnalyzeRequest>)
      requires Valid()
      modifies this
      ensures Valid()
      ensures drugName == old(drugName)
      ensures request.None? <==> AllWhitespace(drugName)
      ensures request.None? ==>
                && error == JString(EMPTY_NAME_ERROR)
                && isLoading == old(isLoading) && results == old(results)
                && agentStatuses == old(agentStatuses)
      ensures request.Some? ==> request.value == AnalyzeRequest(drugName, privacyMode) && !isLoading
      ensures request.Some? && outcome.Responded? ==>
                && results == outcome.data && error == JNull
                && agentStatuses == WithStatus(old(agentStatuses), COMPLETED)
      ensures request.Some? && outcome.Rejected? ==>
                && results == JNull
                && error == (if Truthy(outcome.serverError) then outcome.serverError
                             else JString(REQUEST_FAILED_ERROR))
                && agentStatuses == WithStatus(old(agentStatuses), ERROR)
    {
      request := StartSubmit(privacyMode);
      if request.Some? {
        FinishSubmit(outcome);
        WithStatusKeepsRoster(old(agentStatuses), THINKING, COMPLETED);
        WithStatusKeepsRoster(old(agentStatuses), THINKING, ERROR);
      }
    }

    /** `handleReset`: clear the name, the result and the error, and idle every agent. */
    method HandleReset()
      requires Valid()
      modifies this
      ensures Valid()
      ensures drugName == "" && results == JNull && error == JNull
      ensures agentStatuses == WithStatus(old(agentStatuses), IDLE)
      ensures isLoading == old(isLoading)
    {
      drugName := "";
      results := JNull;
      error := JNull;
      WithStatusKeepsValid(agentStatuses, IDLE);
      agentStatuses := WithStatus(agentStatuses, IDLE);
    }

    /** Whether the Analyze button is disabled in the current state. */
    function IsSubmitDisabled(): (disabled: bool)
      reads this
      ensures disabled <==> isLoading || AllWhitespace(drugName)
    {
      SubmitDisabled(isLoading, drugName)
    }
  }
}
