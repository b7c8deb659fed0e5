/**
 * The `/query_agents` operation: validate the request, invoke every agent
 * in order with the same query, turn each success or failure into its own
 * `AgentResponse`, and return them in input order with the query echoed.
 *
 * The remote service is a parameter: `remote` answers one `InvokeAgent`
 * call with the raw response dictionary or with the message of what was
 * raised (client construction included). The session identifiers the
 * service requires, freshly generated per call, are also parameters.
 */
module Api {
  import opened Wrappers
  import opened PyValues
  import opened Whitespace
  import opened Schema
  import opened Normalizer

  /** One `InvokeAgent` request, sent to the runtime client of `region`. */
  datatype InvokeAgentCall = InvokeAgentCall(
    region: string, agentId: string, agentAliasId: string, sessionId: string, inputText: string)

  /** The agent service: a raw response, or the message of the exception raised. */
  type Remote = InvokeAgentCall -> Result<Response, string>

  /** The detail of the refusal of an empty agent list. */
  const NoAgentsDetail: string := "At least one agent must be provided."

  /** The call made for `agent` with session `sessionId`. */
  function CallFor(agent: AgentInput, sessionId: string, query: string): InvokeAgentCall {
    InvokeAgentCall(agent.region, agent.agentId, agent.aliasId, sessionId, query)
  }

  /** The calls made for `agents`, one per agent, in order. */
  function CallsFor(agents: seq<AgentInput>, sessions: seq<string>, query: string): (calls: seq<InvokeAgentCall>)
    requires |sessions| == |agents|
  {
    seq(|agents|, i requires 0 <= i < |agents| => CallFor(agents[i], sessions[i], query))
  }

  /** What invoking one agent yields: the normalised response, or the failure message unchanged. */
  function Invoked(remote: Remote, call: InvokeAgentCall): Result<Response, string> {
    match remote(call)
    case Success(response) => Success(Normalized(response))
    case Failure(message) => Failure(message)
  }

  /** The `AgentResponse` recorded for `agent` once its invocation has produced `outcome`. */
  function Respond(agent: AgentInput, outcome: Result<Response, string>): (r: AgentResponse)
    ensures r.Echoes(agent) && r.OneSided()
    ensures r.success <==> outcome.Success?
    ensures outcome.Success? ==> r.output == Some(outcome.value)
    ensures outcome.Failure? ==> r.error == Some(outcome.error)
  {
    match outcome
    case Success(output) => AgentResponse(agent.role, agent.agentId, agent.aliasId, agent.region, true, Some(output), None)
    case Failure(message) => AgentResponse(agent.role, agent.agentId, agent.aliasId, agent.region, false, None, Some(message))
  }

  /** The results of invoking `agents` one after another, each appended after those before it. */
  function Fanout(remote: Remote, agents: seq<AgentInput>, sessions: seq<string>, query: string): (results: seq<AgentResponse>)
    requires |sessions| == |agents|
    ensures |results| == |agents|
  {
    if agents == [] then
      []
    else
      var n := |agents| - 1;
      Fanout(remote, agents[..n], sessions[..n], query)
        + [Respond(agents[n], Invoked(remote, CallFor(agents[n], sessions[n], query)))]
  }

  /** The result in position `i` is the one for agent `i` and its own call, whatever the other agents do. */
  lemma {:induction false} FanoutAt(remote: Remote, agents: seq<AgentInput>, sessions: seq<string>, query: string, i: nat)
    requires |sessions| == |agents| && i < |agents|
    ensures Fanout(remote, agents, sessions, query)[i]
              == Respond(agents[i], Invoked(remote, CallFor(agents[i], sessions[i], query)))
  {
    var n := |agents| - 1;
    if i < n {
      FanoutAt(remote, agents[..n], sessions[..n], query, i);
    }
  }

  /**
   * Every result echoes its agent's selector in the same position, has
   * exactly one of output and error, succeeded exactly when its own call
   * did, and carries that call's normalised response or failure message.
   */
  lemma {:induction false} FanoutResults(remote: Remote, agents: seq<AgentInput>, sessions: seq<string>, query: string)
    requires |sessions| == |agents|
    ensures var results := Fanout(remote, agents, sessions, query);
            var calls := CallsFor(agents, sessions, query);
            |results| == |agents| &&
            forall i :: 0 <= i < |agents| ==>
              results[i].Echoes(agents[i]) && results[i].OneSided() &&
              (results[i].success <==> remote(calls[i]).Success?) &&
              (remote(calls[i]).Success? ==> results[i].output == Some(Normalized(remote(calls[i]).value))) &&
              (remote(calls[i]).Failure? ==> results[i].error == Some(remote(calls[i]).error))
  {
    forall i | 0 <= i < |agents| {
      FanoutAt(remote, agents, sessions, query, i);
    }
  }

  /**
   * Failure isolation: two services that answer agent `i`'s call alike give
   * agent `i` the same result, whatever they answer for the other agents.
   */
  lemma {:induction false} FanoutIsolation(remote1: Remote, remote2: Remote, agents: seq<AgentInput>, sessions: seq<string>, query: string, i: nat)
    requires |sessions| == |agents| && i < |agents|
    requires remote1(CallFor(agents[i], sessions[i], query)) == remote2(CallFor(agents[i], sessions[i], query))
    ensures Fanout(remote1, agents, sessions, query)[i] == Fanout(remote2, agents, sessions, query)[i]
  {
    FanoutAt(remote1, agents, sessions, query, i);
    FanoutAt(remote2, agents, sessions, query, i);
  }

  /** When every call succeeds, every result is a success without an error. */
  lemma {:induction false} FanoutAllSucceed(remote: Remote, agents: seq<AgentInput>, sessions: seq<string>, query: string)
    requires |sessions| == |agents|
    requires forall i :: 0 <= i < |agents| ==> remote(CallFor(agents[i], sessions[i], query)).Success?
    ensures forall r :: r in Fanout(remote, agents, sessions, query) ==> r.success && r.error == None
  {
    var results := Fanout(remote, agents, sessions, query);
    forall r | r in results ensures r.success && r.error == None {
      var i :| 0 <= i < |results| && results[i] == r;
      FanoutAt(remote, agents, sessions, query, i);
    }
  }

  /** When every call fails, every result is a failure without output, its selector still echoed. */
  lemma {:induction false} FanoutAllFail(remote: Remote, agents: seq<AgentInput>, sessions: seq<string>, query: string)
    requires |sessions| == |agents|
    requires forall i :: 0 <= i < |agents| ==> remote(CallFor(agents[i], sessions[i], query)).Failure?
    ensures var results := Fanout(remote, agents, sessions, query);
            forall i :: 0 <= i < |agents| ==>
              !results[i].success && results[i].output == None && results[i].error.Some? && results[i].Echoes(agents[i])
  {
    forall i | 0 <= i < |agents| {
      FanoutAt(remote, agents, sessions, query, i);
    }
  }

  /**
   * `_invoke_bedrock_agent`: one call to the service, its response
   * normalised; a failure propagates. `call` is the request sent.
   */
  method InvokeBedrockAgent(remote: Remote, region: string, agentId: string, aliasId: string, query: string, sessionId: string)
    returns (result: Result<Response, string>, ghost call: InvokeAgentCall)
    ensures call == InvokeAgentCall(region, agentId, aliasId, sessionId, query)
    ensures result == Invoked(remote, InvokeAgentCall(region, agentId, aliasId, sessionId, query))
  {
    var request := InvokeAgentCall(region, agentId, aliasId, sessionId, query);
    call := request;
    var reply := remote(request);
    match reply {
      case Failure(message) =>
        result := Failure(message);
      case Success(response) =>
        var output := Normalize(response);
        result := Success(output);
    }
  }

  /**
   * `query_agents`: refuses an empty agent list with status 400 before any
   * call; otherwise invokes every agent in order, each failure caught and
   * recorded in its own result. `calls` is the sequence of calls made.
   */
  method QueryAgents(payload: QueryAgentsRequest, remote: Remote, sessions: seq<string>)
    returns (r: Result<QueryAgentsResponse, Rejection>, ghost calls: seq<InvokeAgentCall>)
    requires |sessions| == |payload.agents|
    ensures r.Failure? <==> payload.agents == []
    ensures r.Failure? ==> r.error == BadRequest(NoAgentsDetail) && r.error.Status() == 400 && calls == []
    ensures r.Success? ==> r.value.query == payload.query
    ensures r.Success? ==> r.value.results == Fanout(remote, payload.agents, sessions, payload.query)
    ensures r.Success? ==> calls == CallsFor(payload.agents, sessions, payload.query)
  {
    if |payload.agents| == 0 {
      r, calls := Failure(BadRequest(NoAgentsDetail)), [];
      return;
    }
    var results: seq<AgentResponse> := [];
    calls := [];
    for i := 0 to |payload.agents|
      invariant results == Fanout(remote, payload.agents[..i], sessions[..i], payload.query)
      invariant calls == CallsFor(payload.agents[..i], sessions[..i], payload.query)
    {
      var agent := payload.agents[i];
      ghost var before := results;
      ghost var call;
      var output;
      output, call := InvokeBedrockAgent(remote, agent.region, agent.agentId, agent.aliasId, payload.query, sessions[i]);
      calls := calls + [call];
      assert call == CallFor(agent, sessions[i], payload.query);
      match output {
        case Success(o) =>
          results := results + [AgentResponse(agent.role, agent.agentId, agent.aliasId, agent.region, true, Some(o), None)];
        case Failure(e) =>
          results := results + [AgentResponse(agent.role, agent.agentId, agent.aliasId, agent.region, false, None, Some(e))];
      }
      assert results == before + [Respond(agent, output)];
      assert payload.agents[..i + 1][..i] == payload.agents[..i];
      assert sessions[..i + 1][..i] == sessions[..i];
    }
    assert payload.agents[..|payload.agents|] == payload.agents;
    assert sessions[..|sessions|] == sessions;
    r := Success(QueryAgentsResponse(payload.query, results));
  }

  /**
   * The whole operation: the body is validated first (status 422 on a
   * constraint violation), then handed to `QueryAgents`. A refused request
   * makes no call; an accepted one calls every validated agent, in order,
   * with the validated query, and answers with the results of those calls.
   */
  method HandleQueryAgents(raw: RawRequest, remote: Remote, sessions: seq<string>)
    returns (r: Result<QueryAgentsResponse, Rejection>, ghost calls: seq<InvokeAgentCall>)
    requires |sessions| == |raw.agents|
    ensures r.Failure? ==> calls == []
    ensures (r.Failure? && r.error.Status() == 422) <==> !RequestAcceptable(raw)
    ensures (r.Failure? && r.error.Status() == 400) <==> RequestAcceptable(raw) && raw.agents == []
    ensures r.Success? ==> r.value.query == Strip(raw.query) && |r.value.results| == |raw.agents|
    ensures r.Success? ==>
              var payload := ValidateRequest(raw).value;
              r.value.results == Fanout(remote, payload.agents, sessions, payload.query) &&
              calls == CallsFor(payload.agents, sessions, payload.query)
  {
    var payload := ValidateRequest(raw);
    if payload.Failure? {
      r, calls := Failure(payload.error), [];
      return;
    }
    r, calls := QueryAgents(payload.value, remote, sessions);
  }
}
