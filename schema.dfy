/**
 * The request and response models of the `/query_agents` operation and the
 * field constraints their validation enforces: every agent field and the
 * query are `constr(strip_whitespace=True, min_length=1)`, i.e. they are
 * stripped and must keep at least one character.
 */
module Schema {
  import opened Wrappers
  import opened Whitespace
  import opened PyValues

  /** One agent selector as the client sent it, before validation. */
  datatype RawAgent = RawAgent(role: string, agentId: string, aliasId: string, region: string)

  /** The request body as the client sent it, before validation. */
  datatype RawRequest = RawRequest(agents: seq<RawAgent>, query: string)

  /** `AgentInput`: a validated agent selector. */
  datatype AgentInput = AgentInput(role: string, agentId: string, aliasId: string, region: string)
  {
    predicate Valid() {
      Constrained(role) && Constrained(agentId) && Constrained(aliasId) && Constrained(region)
    }
  }

  /** `QueryAgentsRequest`: a validated request; the agent list itself has no length constraint. */
  datatype QueryAgentsRequest = QueryAgentsRequest(agents: seq<AgentInput>, query: string)
  {
    predicate Valid() {
      (forall i :: 0 <= i < |agents| ==> agents[i].Valid()) && Constrained(query)
    }
  }

  /** `AgentResponse`: the outcome of invoking one agent, with the selector echoed back. */
  datatype AgentResponse = AgentResponse(
    role: string, agentId: string, aliasId: string, region: string,
    success: bool, output: Option<map<string, Value>>, error: Option<string>)
  {
    /** Exactly one of `output` and `error` is set, and `success` says which. */
    predicate OneSided() {
      (success ==> output.Some? && error.None?) && (!success ==> output.None? && error.Some?)
    }

    /** The selector fields are those of `agent`. */
    predicate Echoes(agent: AgentInput) {
      role == agent.role && agentId == agent.agentId && aliasId == agent.aliasId && region == agent.region
    }
  }

  /** `QueryAgentsResponse`: the query and one result per requested agent. */
  datatype QueryAgentsResponse = QueryAgentsResponse(query: string, results: seq<AgentResponse>)

  /** Why a request is refused before any agent is invoked. */
  datatype Rejection =
    | Unprocessable             // the body fails the model's field constraints
    | BadRequest(detail: string) // raised by the handler itself
  {
    function Status(): nat {
      if Unprocessable? then 422 else 400
    }
  }

  /** The value a `constr(strip_whitespace=True, min_length=1)` field holds once validated. */
  predicate Constrained(s: string) {
    |s| >= 1 && Unpadded(s)
  }

  /**
   * The constraint on a raw field: it is not entirely whitespace, so by
   * `Whitespace.StripEmptyIff` something is left once it is stripped.
   */
  predicate Acceptable(s: string) {
    !Blank(s)
  }

  /** The constraint a raw agent selector must meet: every field acceptable. */
  predicate AgentAcceptable(a: RawAgent) {
    Acceptable(a.role) && Acceptable(a.agentId) && Acceptable(a.aliasId) && Acceptable(a.region)
  }

  /** The constraint a raw request must meet: every agent acceptable and an acceptable query. */
  predicate RequestAcceptable(raw: RawRequest) {
    (forall i :: 0 <= i < |raw.agents| ==> AgentAcceptable(raw.agents[i])) && Acceptable(raw.query)
  }

  /** The selector a raw one becomes once its fields are stripped. */
  function Stripped(a: RawAgent): AgentInput {
    AgentInput(Strip(a.role), Strip(a.agentId), Strip(a.aliasId), Strip(a.region))
  }

  /** Validates one constrained string field: strip it, then require at least one character. */
  function ValidateField(s: string): (r: Option<string>)
    ensures r.Some? <==> Acceptable(s)
    ensures r.Some? ==> r.value == Strip(s) && Constrained(r.value)
  {
    StripEmptyIff(s);
    var v := Strip(s);
    if |v| >= 1 then Some(v) else None
  }

  /** Validates an `AgentInput`. */
  function ValidateAgent(a: RawAgent): (r: Option<AgentInput>)
    ensures r.Some? <==> AgentAcceptable(a)
    ensures r.Some? ==> r.value == Stripped(a)
  {
    var role := ValidateField(a.role);
    var agentId := ValidateField(a.agentId);
    var aliasId := ValidateField(a.aliasId);
    var region := ValidateField(a.region);
    if role.Some? && agentId.Some? && aliasId.Some? && region.Some? then
      Some(AgentInput(role.value, agentId.value, aliasId.value, region.value))
    else
      None
  }

  /** A selector whose fields are all acceptable strips to a valid `AgentInput`. */
  lemma StrippedValid(a: RawAgent)
    requires AgentAcceptable(a)
    ensures Stripped(a).Valid()
  {
    StripEmptyIff(a.role);
    StripEmptyIff(a.agentId);
    StripEmptyIff(a.aliasId);
    StripEmptyIff(a.region);
  }

  /** Validates the `agents` list: every element must validate. */
  function ValidateAgents(raws: seq<RawAgent>): (r: Option<seq<AgentInput>>)
    ensures r.Some? <==> forall i :: 0 <= i < |raws| ==> AgentAcceptable(raws[i])
    ensures r.Some? ==> |r.value| == |raws|
    ensures r.Some? ==> forall i :: 0 <= i < |raws| ==> r.value[i] == Stripped(raws[i])
  {
    if forall i :: 0 <= i < |raws| ==> AgentAcceptable(raws[i]) then
      Some(seq(|raws|, i requires 0 <= i < |raws| => ValidateAgent(raws[i]).value))
    else
      None
  }

  /**
   * Validates a `QueryAgentsRequest` body. A failure is answered with
   * status 422 by the framework, before the handler runs.
   */
  function ValidateRequest(raw: RawRequest): (r: Result<QueryAgentsRequest, Rejection>)
    ensures r.Success? <==> RequestAcceptable(raw)
    ensures r.Failure? ==> r.error == Unprocessable
    ensures r.Success? ==> r.value.Valid() && r.value.query == Strip(raw.query)
    ensures r.Success? ==> |r.value.agents| == |raw.agents|
    ensures r.Success? ==> forall i :: 0 <= i < |raw.agents| ==> r.value.agents[i] == Stripped(raw.agents[i])
  {
    var agents := ValidateAgents(raw.agents);
    var query := ValidateField(raw.query);
    if agents.Some? && query.Some? then
      assert forall i :: 0 <= i < |raw.agents| ==> agents.value[i].Valid() by {
        forall i | 0 <= i < |raw.agents| ensures agents.value[i].Valid() {
          StrippedValid(raw.agents[i]);
        }
      }
      Success(QueryAgentsRequest(agents.value, query.value))
    else
      Failure(Unprocessable)
  }

  /** The selector a client would send to obtain exactly `a`. */
  function UnvalidatedAgent(a: AgentInput): RawAgent {
    RawAgent(a.role, a.agentId, a.aliasId, a.region)
  }

  /** The body a client would send to obtain exactly `req`. */
  function Unvalidated(req: QueryAgentsRequest): RawRequest {
    RawRequest(seq(|req.agents|, i requires 0 <= i < |req.agents| => UnvalidatedAgent(req.agents[i])), req.query)
  }

  /** A constrained value passes its own constraint unchanged. */
  lemma ConstrainedRevalidates(s: string)
    requires Constrained(s)
    ensures Acceptable(s) && Strip(s) == s
  {
    assert !IsSpace(s[0]);
    StripFixedIff(s);
  }

  /** A valid selector passes validation unchanged. */
  lemma AgentRevalidates(a: AgentInput)
    requires a.Valid()
    ensures AgentAcceptable(UnvalidatedAgent(a)) && Stripped(UnvalidatedAgent(a)) == a
  {
    ConstrainedRevalidates(a.role);
    ConstrainedRevalidates(a.agentId);
    ConstrainedRevalidates(a.aliasId);
    ConstrainedRevalidates(a.region);
  }

  /** Selector `i` of a valid request's raw form is acceptable and strips back to selector `i`. */
  lemma UnvalidatedAgentAt(req: QueryAgentsRequest, i: nat)
    requires req.Valid() && i < |req.agents|
    ensures AgentAcceptable(Unvalidated(req).agents[i])
    ensures Stripped(Unvalidated(req).agents[i]) == req.agents[i]
  {
    var a := req.agents[i];
    assert a.Valid();
    assert Unvalidated(req).agents[i] == UnvalidatedAgent(a);
    AgentRevalidates(a);
  }

  /** The raw form of a valid request meets every constraint. */
  lemma UnvalidatedAcceptable(req: QueryAgentsRequest)
    requires req.Valid()
    ensures RequestAcceptable(Unvalidated(req))
  {
    forall i | 0 <= i < |req.agents| ensures AgentAcceptable(Unvalidated(req).agents[i]) {
      UnvalidatedAgentAt(req, i);
    }
    assert Acceptable(Unvalidated(req).query) by {
      ConstrainedRevalidates(req.query);
    }
  }

  /** The selectors of a valid request's raw form strip back to the request's agents. */
  lemma UnvalidatedAgentsStripBack(req: QueryAgentsRequest)
    requires req.Valid()
    ensures |Unvalidated(req).agents| == |req.agents|
    ensures forall i :: 0 <= i < |req.agents| ==> Stripped(Unvalidated(req).agents[i]) == req.agents[i]
  {
    forall i | 0 <= i < |req.agents| ensures Stripped(Unvalidated(req).agents[i]) == req.agents[i] {
      UnvalidatedAgentAt(req, i);
    }
  }

  /** The selectors of a valid request's raw form validate back to the request's agents. */
  lemma ValidateAgentsUnvalidated(req: QueryAgentsRequest)
    requires req.Valid()
    ensures ValidateAgents(Unvalidated(req).agents) == Some(req.agents)
  {
    UnvalidatedAcceptable(req);
    UnvalidatedAgentsStripBack(req);
    var r := ValidateAgents(Unvalidated(req).agents);
    assert r.value == req.agents;
  }

  /** A constrained value validates to itself. */
  lemma ValidateFieldConstrained(s: string)
    requires Constrained(s)
    ensures ValidateField(s) == Some(s)
  {
    ConstrainedRevalidates(s);
  }

  /** Validation is a round trip on validated requests: sending one back validates to itself. */
  lemma ValidateUnvalidated(req: QueryAgentsRequest)
    requires req.Valid()
    ensures ValidateRequest(Unvalidated(req)) == Success(req)
  {
    ValidateAgentsUnvalidated(req);
    ValidateFieldConstrained(req.query);
  }
}
