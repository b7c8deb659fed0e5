# Multi-agent query backend: a Dafny model of `query_agents`

This project models the request path of the backend's `/query_agents`
operation (`backend_aws_bedrock_rag/src/api/main.py`). A client sends one
query and a list of agent selectors, each made of a role, an agent id, an
alias id and a region. The backend validates the request, sends the same
query to every agent in order, normalises each agent's raw response, and
records each success or failure in that agent's own result. It returns the
results in input order together with the query.

Files, one module each:

- `wrappers.dfy` (`Wrappers`): `Option` and `Result`.
- `py_values.dfy` (`PyValues`): the Python values that a response
  dictionary can hold, with Python truthiness, `a or b` and `dict.get`.
- `whitespace.dfy` (`Whitespace`): whitespace stripping for
  `constr(strip_whitespace=True)` fields.
- `schema.dfy` (`Schema`): the models `AgentInput`, `QueryAgentsRequest`,
  `AgentResponse` and `QueryAgentsResponse`, and the validation of a raw
  request body against their field constraints.
- `normalizer.dfy` (`Normalizer`): the normalisation of the raw response.
  `Normalize` is the loop as the code writes it. `Normalized` is a
  declarative reference definition, and `Normalize` is proved equal to it.
- `api.dfy` (`Api`): `_invoke_bedrock_agent`, the `query_agents` loop, and
  the whole operation (validation, then the handler). `Fanout` is the
  specification function that the loop is proved against.

The remote service is a parameter, `remote: InvokeAgentCall -> Result<Response, string>`.
For each call it returns either the raw response dictionary or the message
of the exception raised. Building the regional client happens inside
`remote` too, so a failure there is also just a `Failure`. Each call's
session id comes from the caller as one element of `sessions`. The code
draws these from `uuid.uuid4()`. The methods also return a ghost `calls`:
the calls made, in order. Through it, the contracts state that a refused
request makes no call and that an accepted one calls every agent once, in
order.

Validation follows pydantic. Each field is stripped first, and at least one
character must remain. The stripped value is the one that is stored, echoed
back and sent to the service. When the body breaks a field constraint, the
framework answers with status 422 and the handler never runs. An empty
agent list passes the schema, because `agents` has no length constraint.
The handler then refuses it with status 400 and the detail
"At least one agent must be provided.". The route declares 400
("Invalid input request.") and 500, but not 422 (main.py:150-153); a
constraint violation never reaches the route: FastAPI answers it with 422.
The model follows the code: 422 for a constraint violation, 400 only for an
empty list.

## Model

| member | source | states |
|---|---|---|
| PyValues.Truthy | backend_aws_bedrock_rag/src/api/main.py:132 | a value is truthy exactly when it is not `None`, `False`, zero, or an empty string, bytes, list or dictionary |
| PyValues.Or | backend_aws_bedrock_rag/src/api/main.py:132 | Python's `a or b` is the left operand when that is truthy and the right one otherwise; it is truthy exactly when one operand is |
| PyValues.Get | backend_aws_bedrock_rag/src/api/main.py:132 | `d.get(key)` is the stored value when the key is present and `None` when it is absent |
| Whitespace.TrimStart | backend_aws_bedrock_rag/src/api/main.py:10-13 | the result is a suffix of the field and does not start with whitespace |
| Whitespace.TrimStartDropsBlank | backend_aws_bedrock_rag/src/api/main.py:10-13 | everything removed from the start is whitespace |
| Whitespace.TrimEnd | backend_aws_bedrock_rag/src/api/main.py:10-13 | the result is a prefix of the field and does not end with whitespace |
| Whitespace.TrimEndDropsBlank | backend_aws_bedrock_rag/src/api/main.py:10-13 | everything removed from the end is whitespace |
| Whitespace.Strip | backend_aws_bedrock_rag/src/api/main.py:10-13 | a stripped field is no longer than the input and neither starts nor ends with whitespace |
| Whitespace.StripEmptyIff | backend_aws_bedrock_rag/src/api/main.py:10-13 | nothing is left after stripping exactly when the field is entirely whitespace |
| Whitespace.StripIsMiddle | backend_aws_bedrock_rag/src/api/main.py:10-13 | what stripping keeps is a contiguous part of the field, with only whitespace on either side |
| Whitespace.StripFixedIff | backend_aws_bedrock_rag/src/api/main.py:10-13 | stripping leaves a string unchanged exactly when it has no leading or trailing whitespace |
| Whitespace.StripIdempotent | backend_aws_bedrock_rag/src/api/main.py:10-13 | stripping twice gives the same as stripping once |
| Schema.ValidateField | backend_aws_bedrock_rag/src/api/main.py:19 | a constrained field is accepted exactly when it is not entirely whitespace; the value stored is the stripped field, which has at least one character and no surrounding whitespace |
| Schema.ValidateAgent | backend_aws_bedrock_rag/src/api/main.py:8-13 | a selector is accepted exactly when all four fields are; the result holds the four stripped fields |
| Schema.StrippedValid | backend_aws_bedrock_rag/src/api/main.py:8-13 | an acceptable selector strips to one that meets every field constraint |
| Schema.ValidateAgents | backend_aws_bedrock_rag/src/api/main.py:18 | the list is accepted exactly when every selector is; the result has the same length, and each position holds that selector stripped |
| Schema.ValidateRequest | backend_aws_bedrock_rag/src/api/main.py:16-19 | a body is accepted exactly when every selector and the query are acceptable; otherwise it is refused as unprocessable (422); an accepted body keeps agent order and stores the stripped query |
| Schema.ConstrainedRevalidates | backend_aws_bedrock_rag/src/api/main.py:19 | a field value that already meets the constraint is accepted and left unchanged |
| Schema.AgentRevalidates | backend_aws_bedrock_rag/src/api/main.py:8-13 | a valid selector, sent again, validates to itself |
| Schema.UnvalidatedAgentAt | backend_aws_bedrock_rag/src/api/main.py:8-13 | each selector of a valid request, sent again, is acceptable and strips back to itself |
| Schema.UnvalidatedAcceptable | backend_aws_bedrock_rag/src/api/main.py:8-19 | the raw form of a valid request meets every field constraint |
| Schema.UnvalidatedAgentsStripBack | backend_aws_bedrock_rag/src/api/main.py:8-18 | the selectors of a valid request, sent again, strip back to the same selectors, position by position |
| Schema.ValidateAgentsUnvalidated | backend_aws_bedrock_rag/src/api/main.py:8-18 | the selectors of a valid request, sent again, validate to the same list |
| Schema.ValidateFieldConstrained | backend_aws_bedrock_rag/src/api/main.py:19 | a field value that already meets the constraint validates to itself |
| Schema.ValidateUnvalidated | backend_aws_bedrock_rag/src/api/main.py:8-19 | round trip: a valid request, sent again as a raw body, validates to the same request |
| Normalizer.CompletionText | backend_aws_bedrock_rag/src/api/main.py:130-134 | text is found exactly when `completion` is present, is a dictionary, and has a truthy `text` or `content`; it is `text` when that is truthy, `content` otherwise |
| Normalizer.Normalized | backend_aws_bedrock_rag/src/api/main.py:123-136 | the keys are among sessionId, invocationId, contentType, completion and text; each of the first four is present exactly when it is in the raw response, with its value unchanged; `text` is present exactly when completion text is found, and holds it |
| Normalizer.Normalize | backend_aws_bedrock_rag/src/api/main.py:123-136 | the loop over the recognised keys, followed by the text step, computes exactly `Normalized` |
| Normalizer.NormalizedEmptyIff | backend_aws_bedrock_rag/src/api/main.py:123-136 | normalising yields an empty dictionary exactly when no recognised key is present; an empty response yields an empty result without failing |
| Normalizer.NormalizedIdempotent | backend_aws_bedrock_rag/src/api/main.py:123-136 | normalising a normalised response changes nothing |
| Normalizer.NormalizedCompletionOnly | backend_aws_bedrock_rag/src/api/main.py:124-134 | a response holding only `completion: {text: t}` normalises, for a non-empty `t`, to that completion plus `text: t`, and nothing else |
| Api.Respond | backend_aws_bedrock_rag/src/api/main.py:184-207 | a result echoes its selector; it succeeded exactly when the invocation did; exactly one of output and error is set, holding the normalised response or the failure message |
| Api.Fanout | backend_aws_bedrock_rag/src/api/main.py:174-207 | there is one result per agent |
| Api.FanoutAt | backend_aws_bedrock_rag/src/api/main.py:176-207 | result `i` is determined by agent `i` and the outcome of that agent's own call alone |
| Api.FanoutResults | backend_aws_bedrock_rag/src/api/main.py:176-207 | for every position: the selector is echoed, exactly one side is set, success matches the call's success, and the output is the normalised response or the error is the call's message |
| Api.FanoutIsolation | backend_aws_bedrock_rag/src/api/main.py:176-207 | failure isolation: whatever the service answers for the other agents, agent `i`'s result depends only on the answer to agent `i`'s call |
| Api.FanoutAllSucceed | backend_aws_bedrock_rag/src/api/main.py:184-194 | when every call succeeds, every result succeeded and has no error |
| Api.FanoutAllFail | backend_aws_bedrock_rag/src/api/main.py:195-207 | when every call fails, every result failed, has no output and has an error, and its selector is still echoed |
| Api.InvokeBedrockAgent | backend_aws_bedrock_rag/src/api/main.py:91-136 | the result is `Invoked` of the call it makes: a service failure propagates with its message unchanged; a success returns the normalised response |
| Api.QueryAgents | backend_aws_bedrock_rag/src/api/main.py:156-209 | an empty agent list is refused with status 400 and no call is made; otherwise every agent is called once, in order, and the results are `Fanout` of the agents, with the query echoed |
| Api.HandleQueryAgents | backend_aws_bedrock_rag/src/api/main.py:8-172 | status 422 exactly when the body breaks a field constraint; status 400 exactly when it is acceptable but has no agents; no call is made on refusal; otherwise the response holds the stripped query and the fan-out over the validated agents |

## Left out

- The FastAPI application, routing, CORS middleware, OpenAPI metadata and the health check (main.py:39-71). These are framework configuration.
- `_get_bedrock_runtime_client` and the lazy `boto3` import (main.py:74-88). They are part of the `remote` parameter: any exception they raise reaches the loop as a `Failure`, as it does in the code.
- The network call itself and `uuid.uuid4()` (main.py:99-116). The call is the `remote` parameter. The session ids are the `sessions` parameter, and the model does not state that they are distinct.
- The text of `str(e)`. The error message is an opaque string. The code does not guarantee that it is non-empty.
- Api.FanoutAllFail: states that each error is present, not that it is non-empty, because `str(e)` can be empty.
- The body of a 422 answer. The model records only that the request is refused as unprocessable. Pydantic's coercion of non-string JSON values into string fields is not modelled: fields are strings from the start.
- Response serialisation by the framework.
- The key order of the normalised dictionary. Python keeps insertion order (sessionId, invocationId, contentType, completion, then text), and the serialised output follows it; `Response` is a `map<string, Value>`, which has no order.
- Python floats and other value types in a response dictionary. `PyValues.Value` covers None, booleans, integers, strings, bytes, lists and dictionaries with string keys.
- Whitespace: `IsSpace` is the Unicode White_Space set, which is what pydantic 2 trims. Python's `str.strip` (pydantic 1) also strips U+001C to U+001F. The pinned pydantic version is not part of this model.
- An unexpected fault outside the per-agent `try` (status 500). The loop body that is modelled cannot raise outside its `try`.
- Concurrency: the code calls the agents one after another, and so does the model.
