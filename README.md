# Agent runtime labs in Dafny

This project models the deterministic core of an agent-runtime teaching
repository: the bookkeeping that surrounds the language-model calls, with
the model calls themselves as oracle parameters. It covers:

- **Plugin tool system** (function-calling lab):
  - the `BaseTool` descriptor and its OpenAI schema;
  - the registry that stores tools by name, with one rate limiter per tool;
  - execution behind an error boundary, with or without a permission check;
  - the calculator plugin;
  - the lab checker's structural validators;
  - the path sanitizer that keeps file paths inside a base directory.
- **Routing and resilience lab**:
  - the mock `search` and `calculate` tools;
  - the decorator-based tool registry with categories;
  - the query router that maps the model's answer to a domain;
  - the loop detector (exact, fuzzy and stagnation checks over word-level Jaccard similarity);
  - the tracer's store of traces;
  - the uninstrumented ReAct loop `run_agent`.
- **Project starter**: the instrumented `BaseAgent`:
  - its tool list and schemas;
  - guarded tool execution (loop check, lookup, validation, error text);
  - the step and end-of-run hooks that report to the tracer.
- **API-client lab**:
  - the retrying LiteLLM client (exponential backoff after a rate limit, a fixed delay after a network error);
  - the caching client built on it.
- **Newsroom lab**: the plan-and-execute orchestrator:
  - execution of the plan in list order;
  - dependency context;
  - formatting of the step results for synthesis.
- **Evaluation lab**:
  - test cases, with their loading and saving;
  - the evaluation runner and its Markdown report.

## Modelling conventions

- **Oracles as parameters.** Every outside dependency is a parameter of the operation that uses it:
  - the model's replies;
  - what each attempt of a completion call does;
  - `eval`;
  - the specialists and the synthesis call;
  - the evaluation library;
  - the clock;
  - the two float formats of the report.
- **Python exceptions** are the `Failure` side of a `Result`. Each one carries the message the source would raise.
- **Files** are a map from path to the JSON value the file holds.
- **Dicts** keep insertion order (an association list, `Dict`).
- **Numbers** are exact `real`s.
- **Classes.** Where the source keeps state in an object (the two registries, the loop detector, the tracer, the agent, the clients), the model is a class:
  - its methods carry `modifies` clauses;
  - each method is proved against a function that describes the new state;
  - the properties are proved about those functions.
- **Loops** the source runs in place are methods with loops proved against the same functions:
  - the retry loop;
  - the ReAct loop and its inner tool loop;
  - the plan execution;
  - the evaluation loop;
  - the report builder;
  - the detector's scans.

## Stub bodies

Many functions of the labs are exercises whose bodies are `pass` or return a
placeholder. For those, the model follows the steps their docstrings and
TODO comments prescribe. The affected functions are:

- the plugin registry;
- the calculator;
- the path sanitizer;
- the loop detector;
- the tracer;
- the retry and cache branches of the clients;
- the orchestrator's context, execution and planning.

Where those steps leave a choice open, the model makes it explicit:

- **The detector's threshold comparisons.** `fuzzyCmp` and `stagnationCmp` say whether `>=` or `>` applies. The defaults are "at least" for tool calls and "exceeds" for outputs.
- **Similarity of two texts with no words.** Given by the `bothEmpty` field (default 1.0).
- **A dependency without a stored result.** The `MissingDep` policy either skips it or writes a marker line.
- **An unknown trace id.** Logging a step or ending a trace under it changes nothing.
- **A finalised trace.** `end_trace` finalises a running trace once; logging to it or ending it again afterwards changes nothing. Ending with the status "running" leaves the trace open.
- **The rate limiter.** `manager.py` is not part of this model, so the limiter is a 60-second window that opens at the first call.
- **Plan dependencies.** `create_plan` returns the steps the planner's reply parses into, without checking their dependency edges, and the model does the same. Execution follows whatever dependencies the plan carries; a dependency with no stored result (a missing or a later step) is handled by the `MissingDep` policy. `Orchestrator.PolicyIrrelevantWhenDepsPointBack` shows that the policy matters only when an edge does not point to an earlier step.

## Model

| member | source | states |
|---|---|---|
| Json.EscapeIsPrintable | project_starter/src/agent/base.py:71 | the text `json.dumps` writes for a string is printable ASCII (`ensure_ascii=True`): a tab, a newline, any other control character or a non-ASCII character never appears raw, so the only whitespace the loop detector can see in it is the space |
| Json.VerbatimTextUnchanged | project_starter/src/agent/base.py:71 | a string of printable ASCII characters other than the quote and the backslash is written unchanged |
| Json.Dumps | project_starter/src/agent/base.py:70-72 | never empty; a string is written between double quotes, a list between brackets and a dict between braces; the text of every item of a list, and every `"key": value` entry of a dict, occurs in the written text |
| Json.SortByKey | 01_architecture_fundamentals/lab/lab_02_api_client/starter/cached_client.py:34 | sorting a dict's entries by key keeps exactly the same entries |
| Json.SortSorted | 01_architecture_fundamentals/lab/lab_02_api_client/starter/cached_client.py:34 | the sorted entries of a dict with unique keys are in strictly increasing key order |
| Json.SortedUnique | 01_architecture_fundamentals/lab/lab_02_api_client/starter/cached_client.py:34 | two key-sorted lists holding the same entries are equal |
| Json.CanonIgnoresKeyOrder | 01_architecture_fundamentals/lab/lab_02_api_client/starter/cached_client.py:34 | two dicts with the same entries in any insertion order have the same canonical (`sort_keys=True`) form |
| Json.Canon | 01_architecture_fundamentals/lab/lab_02_api_client/starter/cached_client.py:34 | a dict keeps its number of entries and exactly its keys, in strictly increasing key order when they are unique; a list keeps its length; every other value is unchanged |
| BaseAgent.Schemas | project_starter/src/agent/base.py:56 | one schema per tool, in tool order, each the tool's `to_openai_schema()` and naming that tool |
| BaseAgent.ToolsOf | project_starter/src/agent/base.py:51-54 | with no tools given, every registered tool (one per registry name); otherwise exactly the given list |
| BaseAgent.OrDefault | project_starter/src/agent/base.py:46-49 | `x or default`: the given text when it is non-empty, the default otherwise |
| BaseAgent.ToolResult | project_starter/src/agent/base.py:67-97 | a flagged call gets the loop warning; otherwise an unknown name gets the not-found error; otherwise the text of executing the registered tool (a non-mapping argument raises a TypeError text); never an exception |
| BaseAgent.LoopSkipsTool | project_starter/src/agent/base.py:69-83 | a flagged call's answer depends neither on the registry nor on the arguments, and starts with "SYSTEM: " |
| BaseAgent.ValidationFailureSkipsFunction | project_starter/src/agent/base.py:89-94 | arguments the tool's model rejects give the validation error text, whatever the tool's function would do |
| BaseAgent.RepeatedCallIsRefused | project_starter/src/agent/base.py:69-83 | repeating an earlier call (same name, same `json.dumps` of the arguments) under the default threshold 2 is flagged as exact and answered "SYSTEM: {message} (Detection: exact)" |
| BaseAgent.ToolRecords | project_starter/src/agent/base.py:131-139 | one `ToolCallRecord` per `(name, args, result, dur_ms)` tuple, in order, with the four fields copied |
| BaseAgent.ToolRecordsAppend | project_starter/src/agent/base.py:131-139 | the records of two batches of calls are the records of each, one after the other |
| BaseAgent.StepRecord | project_starter/src/agent/base.py:120-149 | step number, reasoning and duration copied; 0 input and output tokens without usage; cost 0.0 when pricing fails; the records of the calls |
| BaseAgent.UnmeteredStepIsFree | project_starter/src/agent/base.py:122-129 | a response without usage that cannot be priced gives a step with no tokens and no cost |
| BaseAgent.EndKwargs | project_starter/src/agent/base.py:160-164 | holds "status" if and only if the status is not "success", "error" if and only if the error is truthy, with those values, and no other key |
| BaseAgent.SuccessfulEndPassesNothing | project_starter/src/agent/base.py:160-164 | the default status with no error passes no keyword arguments |
| BaseAgent.Agent.constructor | project_starter/src/agent/base.py:37-63 | model and system prompt fall back to the configured defaults; tools are the given ones or all registered; one schema per tool; a fresh detector with thresholds 2, 0.8 and window 3; no current trace |
| BaseAgent.Agent.ExecuteTool | project_starter/src/agent/base.py:67-97 | the answer is `ToolResult` of the detector's verdict on the earlier history, and the call is recorded as `(name, json.dumps(arguments))` whatever the answer |
| BaseAgent.Agent.OnStepEnd | project_starter/src/agent/base.py:111-150 | exactly one step is logged, under the current trace id, and nothing else changes |
| BaseAgent.Agent.OnLoopEnd | project_starter/src/agent/base.py:152-165 | exactly one `end_trace` call, with the current trace id, the answer and `EndKwargs` |
| ApiClient.Tries | 01_architecture_fundamentals/lab/lab_02_api_client/starter/litellm_client.py:46-88 | never more completion calls than the attempts left; one wait per retried call, so the call count is the number of waits or one more; when every call was retried the query ends with "Failed after {max_retries} attempts." |
| ApiClient.FirstUnretriedDecides | 01_architecture_fundamentals/lab/lab_02_api_client/starter/litellm_client.py:46-86 | the first attempt that is not retried decides the result: its content, "Unexpected error: ...", or the network error itself; calls are counted up to and including it |
| ApiClient.FirstSuccessReturned | 01_architecture_fundamentals/lab/lab_02_api_client/starter/litellm_client.py:47-54 | after rate limits and network failures, the first completed attempt's content is returned, after exactly that many calls |
| ApiClient.UnexpectedIsNotRetried | 01_architecture_fundamentals/lab/lab_02_api_client/starter/litellm_client.py:84-86 | an unexpected error on the first attempt ends the query at once, with one call and no wait |
| ApiClient.NetworkOnLastAttemptRaises | 01_architecture_fundamentals/lab/lab_02_api_client/starter/litellm_client.py:71-82 | a network failure on the last attempt is raised as it is, without a wait |
| ApiClient.AllRateLimited | 01_architecture_fundamentals/lab/lab_02_api_client/starter/litellm_client.py:56-88 | when every attempt is rate limited, every attempt is made, each followed by the wait `retry_delay * 2 ** attempt`, and the query ends with "Failed after ..." |
| ApiClient.NoAttemptsAllowed | 01_architecture_fundamentals/lab/lab_02_api_client/starter/litellm_client.py:46-88 | with `max_retries` of 0 or less no call is made and the query ends with "Failed after ..." |
| ApiClient.RetryStep | 01_architecture_fundamentals/lab/lab_02_api_client/starter/litellm_client.py:56-82 | a retried attempt adds its wait (the backoff after a rate limit, the fixed delay after a network failure) and one call to what the later attempts do |
| ApiClient.BackoffDoubles | 01_architecture_fundamentals/lab/lab_02_api_client/starter/litellm_client.py:62 | the first backoff is the delay itself and each further rate limit doubles it |
| ApiClient.BackoffAtLeastDelay | 01_architecture_fundamentals/lab/lab_02_api_client/starter/litellm_client.py:62 | a backoff is never shorter than a non-negative delay |
| ApiClient.BackoffIncreases | 01_architecture_fundamentals/lab/lab_02_api_client/starter/litellm_client.py:62 | with a positive delay, a later rate-limited attempt waits strictly longer |
| ApiClient.LiteLLMClient.constructor | 01_architecture_fundamentals/lab/lab_02_api_client/starter/litellm_client.py:32-34 | the given retry count and delay |
| ApiClient.LiteLLMClient.Query | 01_architecture_fundamentals/lab/lab_02_api_client/starter/litellm_client.py:38-88 | the loop's result, waits and call count are exactly those `Tries` describes from attempt 0 |
| CachedClient.CacheKey | 01_architecture_fundamentals/lab/lab_02_api_client/starter/cached_client.py:32-35 | the key is the sorted-key form `{"messages": ..., "model": model_id}` of the request, with every message in canonical form |
| CachedClient.CacheKeyIgnoresKeyOrder | 01_architecture_fundamentals/lab/lab_02_api_client/starter/cached_client.py:32-35 | messages differing only in the order of their dict keys give the same key |
| CachedClient.CacheKeySeparatesModels | 01_architecture_fundamentals/lab/lab_02_api_client/starter/cached_client.py:32-35 | requests to different models never share a key |
| CachedClient.EntryRoundTrip | 01_architecture_fundamentals/lab/lab_02_api_client/starter/cached_client.py:45-48 | the response read back from an entry written as `{"response": result}` is the response written |
| CachedClient.Queried | 01_architecture_fundamentals/lab/lab_02_api_client/starter/cached_client.py:37-73 | with caching on and an entry present, the stored response with no API call and the cache unchanged; otherwise the parent's query runs; its success is returned and written to the cache, its failure propagates and writes nothing |
| CachedClient.HitReturnsStored | 01_architecture_fundamentals/lab/lab_02_api_client/starter/cached_client.py:43-48 | a cache hit returns exactly the stored response |
| CachedClient.SecondQueryHits | 01_architecture_fundamentals/lab/lab_02_api_client/starter/cached_client.py:37-73 | after a successful miss, the same request with caching on is a hit returning the same response without an API call |
| CachedClient.CacheOffStillWrites | 01_architecture_fundamentals/lab/lab_02_api_client/starter/cached_client.py:37-73 | with `use_cache=False` the API is called and the response is still written to the cache |
| CachedClient.ReorderedRequestHits | 01_architecture_fundamentals/lab/lab_02_api_client/starter/cached_client.py:32-48 | a request whose messages differ only in dict key order hits the entry stored for the other |
| CachedClient.CachedLiteLLMClient.constructor | 01_architecture_fundamentals/lab/lab_02_api_client/starter/cached_client.py:27-30 | the parent's defaults (3 retries, 5-second delay) and the cache files already present |
| CachedClient.CachedLiteLLMClient.Query | 01_architecture_fundamentals/lab/lab_02_api_client/starter/cached_client.py:37-73 | the result and the new cache are those of `Queried` on the old cache, with the parent's attempts |
| PluginBase.NewTool | 02_function_calling_tools/lab/lab_02_plugin_system/starter/base.py:44-52 | a tool with the given name, description and parameters and the default empty permission list |
| PluginBase.ResultDict | 02_function_calling_tools/lab/lab_02_plugin_system/starter/base.py:54-62 | the structured result is a dict with exactly the keys "success", "result" and "error", carrying the record's values |
| PluginBase.GetSchema | 02_function_calling_tools/lab/lab_02_plugin_system/starter/base.py:64-73 | a "function" schema that names the tool and carries its description and its parameters unchanged |
| PluginRegistry.NewLimiter | 02_function_calling_tools/lab/lab_02_plugin_system/starter/registry.py:32-44 | a limiter for the given calls per minute, with no call counted and no window open |
| PluginRegistry.Acquire | 02_function_calling_tools/lab/lab_02_plugin_system/starter/registry.py:61-69 | a call is allowed exactly when fewer than the limit were counted in the current 60-second window (none outside it); an allowed call is counted; the window then covers `now` |
| PluginRegistry.AcquireKeepsLimit | 02_function_calling_tools/lab/lab_02_plugin_system/starter/registry.py:61-69 | a limiter never counts more calls than its limit |
| PluginRegistry.OneWindowCap | 02_function_calling_tools/lab/lab_02_plugin_system/starter/registry.py:61-69 | within one window, no more calls are allowed than the limit leaves open |
| PluginRegistry.Boundary | 02_function_calling_tools/lab/lab_02_plugin_system/starter/registry.py:61-69 | a returned record passes through unchanged; an exception becomes a failed record "Execution error: ..." |
| PluginRegistry.Missing | 02_function_calling_tools/lab/lab_02_plugin_system/starter/registry.py:85-88 | exactly the required permissions the caller does not hold, never more than required |
| PluginRegistry.MissingAppend | 02_function_calling_tools/lab/lab_02_plugin_system/starter/registry.py:85-88 | the missing permissions keep the order of the tool's list |
| PluginRegistry.ExecuteCall | 02_function_calling_tools/lab/lab_02_plugin_system/starter/registry.py:61-71 | an unknown tool gives "not found" and touches no limiter; the tool runs if and only if it exists and its limiter (if any) allows the call; a run gives the boundary's result; a refused call is a failure; no other limiter changes |
| PluginRegistry.SecureCall | 02_function_calling_tools/lab/lab_02_plugin_system/starter/registry.py:73-92 | a tool requiring a permission the caller lacks is refused with "Access Denied. Missing: ..." listing them, and no limiter changes; otherwise the call is exactly `ExecuteCall` |
| PluginRegistry.SecureInvokesOnlyPermitted | 02_function_calling_tools/lab/lab_02_plugin_system/starter/registry.py:73-92 | a tool runs through `execute_secure` only when the caller holds every permission it requires |
| PluginRegistry.ListFilesNeedsRead | 02_function_calling_tools/lab/lab_02_plugin_system/starter/registry.py:114-118 | `list_files` is refused without "filesystem:read" and runs as an ordinary call with it |
| PluginRegistry.ReRegisterKeepsNames | 02_function_calling_tools/lab/lab_02_plugin_system/starter/registry.py:32-44 | registering a tool again under its name replaces it in place: same names, same number of tools |
| PluginRegistry.ToolRegistry.constructor | 02_function_calling_tools/lab/lab_02_plugin_system/starter/registry.py:28-30 | no tools and no limiters |
| PluginRegistry.ToolRegistry.Register | 02_function_calling_tools/lab/lab_02_plugin_system/starter/registry.py:32-46 | the tool is stored under its name (replacing an earlier one in place) and gets a fresh limiter for the given rate |
| PluginRegistry.ToolRegistry.GetTool | 02_function_calling_tools/lab/lab_02_plugin_system/starter/registry.py:48-50 | a tool is found exactly when one is registered under the name, and it carries that name |
| PluginRegistry.ToolRegistry.GetSchemas | 02_function_calling_tools/lab/lab_02_plugin_system/starter/registry.py:52-59 | one schema per registered tool, in registration order, each naming its tool |
| PluginRegistry.ToolRegistry.Execute | 02_function_calling_tools/lab/lab_02_plugin_system/starter/registry.py:61-71 | result and limiters are those of `ExecuteCall` on the old state; the tools are unchanged |
| PluginRegistry.ToolRegistry.ExecuteSecure | 02_function_calling_tools/lab/lab_02_plugin_system/starter/registry.py:73-92 | result and limiters are those of `SecureCall` on the old state; the tools are unchanged |
| PathSanitizer.ValidateSafePath | 02_function_calling_tools/lab/lab_02_plugin_system/starter/security.py:38-43 | accepted if and only if the resolved join of the resolved base and the target starts, as text, with the resolved base; then the answer is that resolved path |
| PathSanitizer.AbsPath | 02_function_calling_tools/lab/lab_02_plugin_system/starter/security.py:39-40 | the resolved path is absolute, and resolving it again gives the same segments (resolution is idempotent) |
| PathSanitizer.PathJoin | 02_function_calling_tools/lab/lab_02_plugin_system/starter/security.py:40 | an absolute target replaces the base; otherwise the result starts with the base and ends with the target, with at most one character between them, a slash that is there whenever the base is not empty |
| PathSanitizer.SplitConcat | 02_function_calling_tools/lab/lab_02_plugin_system/starter/security.py:39-40 | splitting at slashes turns a join with "/" into the concatenation of the two splits |
| PathSanitizer.SplitJoin | 02_function_calling_tools/lab/lab_02_plugin_system/starter/security.py:39-40 | splitting the slash-join of slash-free segments gives those segments back |
| PathSanitizer.ResolvedIsClean | 02_function_calling_tools/lab/lab_02_plugin_system/starter/security.py:39-40 | the segments of a resolved path hold no empty, "." or ".." segment and no slash |
| PathSanitizer.ResolveRendered | 02_function_calling_tools/lab/lab_02_plugin_system/starter/security.py:39-40 | resolving an already resolved path gives its segments back (resolution is idempotent) |
| PathSanitizer.RelativeDescentAccepted | 02_function_calling_tools/lab/lab_02_plugin_system/starter/security.py:38-42 | a relative target without ".." is always accepted and resolves to the base's segments followed by its own (minus empty and "." ones) |
| PathSanitizer.AbsoluteTargetReplacesBase | 02_function_calling_tools/lab/lab_02_plugin_system/starter/security.py:38-42 | an absolute target replaces the base in the join: accepted exactly when its resolution starts with the resolved base |
| PathSanitizer.StarterFileAccepted | 02_function_calling_tools/lab/lab_02_plugin_system/starter/security.py:51-55 | "starter/base.py" from "." is accepted and resolves below the working directory |
| PathSanitizer.ClimbingOutRejected | 02_function_calling_tools/lab/lab_02_plugin_system/starter/security.py:57-61 | "../../etc/passwd" from "." in "/home/user/project" resolves to "/home/etc/passwd" and is refused |
| PathSanitizer.SiblingOfBase | 02_function_calling_tools/lab/lab_02_plugin_system/starter/security.py:41 | as written, a sibling "../m" of base "…/n" is accepted exactly when "n" is a text prefix of "m", although it is never within the base |
| PathSanitizer.SiblingWithSharedPrefix | 02_function_calling_tools/lab/lab_02_plugin_system/starter/security.py:41 | as written, base "/srv/app" accepts "../app-secrets" as "/srv/app-secrets"; the segment-wise check refuses it |
| PathSanitizer.SiblingClimbRejected | 02_function_calling_tools/lab/lab_02_plugin_system/starter/security.py:41-42 | base "/srv/app" refuses "../etc" |
| PathSanitizer.ValidateSafePathWithin | 02_function_calling_tools/lab/lab_02_plugin_system/starter/security.py:25-36 | the corrected check: an accepted path is the resolved join, accepted only when the resolved base's segments are a prefix of the resolved target's |
| PathSanitizer.WithinIsStricter | 02_function_calling_tools/lab/lab_02_plugin_system/starter/security.py:25-43 | whatever the corrected check accepts, the textual check accepts too, with the same path |
| PathSanitizer.WithinMeansUnder | 02_function_calling_tools/lab/lab_02_plugin_system/starter/security.py:25-36 | the corrected check accepts if and only if the resolved target is the root's own path, or the root is "/", or the target starts with the root followed by "/" |
| Calculator.PosPow | 02_function_calling_tools/lab/lab_02_plugin_system/starter/calculator_tool.py:54 | a non-zero base raised to a natural power is never zero |
| Calculator.Execute | 02_function_calling_tools/lab/lab_02_plugin_system/starter/calculator_tool.py:42-58 | success exactly when there is no error, with a number then; add, subtract and multiply give the sum, difference and product; divide refuses a zero divisor and otherwise gives the quotient; a natural exponent gives the repeated product; any other operation is "Unsupported operation: {operation}" |
| Calculator.SubtractUndoesAdd | 02_function_calling_tools/lab/lab_02_plugin_system/starter/calculator_tool.py:50-51 | subtracting `b` from the sum of `a` and `b` gives `a` back |
| Calculator.DivideUndoesMultiply | 02_function_calling_tools/lab/lab_02_plugin_system/starter/calculator_tool.py:52-53 | dividing the product by a non-zero `b` gives `a` back; dividing by zero never succeeds |
| Calculator.PosPowAdd | 02_function_calling_tools/lab/lab_02_plugin_system/starter/calculator_tool.py:54 | powers with natural exponents add: `a**(m+n) == a**m * a**n` |
| Calculator.NegativePower | 02_function_calling_tools/lab/lab_02_plugin_system/starter/calculator_tool.py:54-57 | a negative integral exponent gives the reciprocal of the positive power, and zero to a negative power is an error record rather than an exception |
| Calculator.ExecuteArgs | 02_function_calling_tools/lab/lab_02_plugin_system/starter/calculator_tool.py:42-58 | the keyword call returns a record exactly when all three arguments are present; a missing one raises the TypeError of the call |
| Calculator.KeywordCallIsPositional | 02_function_calling_tools/lab/lab_02_plugin_system/starter/calculator_tool.py:42-58 | called with the three keyword arguments well-typed, the tool does exactly what `execute(operation, operand_a, operand_b)` does |
| Calculator.CalculatorTool | 02_function_calling_tools/lab/lab_02_plugin_system/starter/calculator_tool.py:19-22 | the tool is named "execute_calculation" and needs no permission |
| Calculator.CalculatorSchema | 02_function_calling_tools/lab/lab_02_plugin_system/starter/calculator_tool.py:32-40 | the schema names "execute_calculation", the operation enum lists the five operations in order, and all three inputs are required |
| LabChecker.CheckHotelSchema | 02_function_calling_tools/lab/checker/lab01.py:4-21 | passes if and only if the schema is named "search_hotels" and has "location", "price_range" (with an enum) and "amenities" (of type "array") properties; a schema without "function" ends in the generic error branch |
| LabChecker.CheckCalculatorLogic | 02_function_calling_tools/lab/checker/lab01.py:48-63 | passes if and only if each of the five probes gives the expected field value |
| LabChecker.WrongNameFailsFirst | 02_function_calling_tools/lab/checker/lab01.py:7 | a schema whose function has another name fails on the first assertion, with an empty message |
| LabChecker.FirstProbeRaising | 02_function_calling_tools/lab/checker/lab01.py:51-62 | a function raising on the first probe ends in the error branch |
| LabChecker.CalculatorPassesCheck | 02_function_calling_tools/lab/checker/lab01.py:48-57 | the plugin lab's calculator passes all five probes |
| LabChecker.PowProbe | 02_function_calling_tools/lab/checker/lab01.py:54 | the calculator gives 1024 for 2 to the power 10 |
| LabChecker.ReferenceHotelSchemaChecks | 02_function_calling_tools/lab/checker/lab01.py:4-15 | a schema meeting every requirement passes |
| BrokenAgent.ToolMessages | 03_ai_agents/lab/lab_02_routing_and_resilience/agent/broken_agent.py:55-70 | succeeds if and only if no requested tool raises; then exactly one tool message per call, in call order, each answering its own call |
| BrokenAgent.ToolMessagesFirstFailure | 03_ai_agents/lab/lab_02_routing_and_resilience/agent/broken_agent.py:55-70 | the first call whose tool raises ends the step with that exception, whatever the later calls would do |
| BrokenAgent.LoopGrowth | 03_ai_agents/lab/lab_02_routing_and_resilience/agent/broken_agent.py:37-80 | the conversation only grows, by exactly one block (assistant reply, then one tool message per call with matching id and name) per step taken, and the step count stays between the current step and `max_steps` |
| BrokenAgent.LoopAnswer | 03_ai_agents/lab/lab_02_routing_and_resilience/agent/broken_agent.py:76-80 | the answer is either "[Max steps reached]" with `max_steps` steps or the text of the last reply, which asked for no tool; ending before the bound happens only on such a reply |
| BrokenAgent.RunShape | 03_ai_agents/lab/lab_02_routing_and_resilience/agent/broken_agent.py:21-80 | at most `max_steps` steps; the conversation opens with the system prompt and the user's query; one completion is requested per step taken |
| BrokenAgent.Loop | 03_ai_agents/lab/lab_02_routing_and_resilience/agent/broken_agent.py:37-80 | on success the conversation only grows; the final step count lies between the starting step and `max_steps`, strictly past the start when the start is below `max_steps` |
| BrokenAgent.Run | 03_ai_agents/lab/lab_02_routing_and_resilience/agent/broken_agent.py:21-80 | on success the conversation opens with the system prompt and the query; with `max_steps` of 0 or more the step count is at most `max_steps`, and at least 1 when `max_steps` is positive |
| BrokenAgent.ImmediateAnswer | 03_ai_agents/lab/lab_02_routing_and_resilience/agent/broken_agent.py:37-78 | a first reply with text and no tool call ends the run at step 1 with that text |
| BrokenAgent.SilentReplyContinues | 03_ai_agents/lab/lab_02_routing_and_resilience/agent/broken_agent.py:76 | a reply with neither text nor tool call does not end the run: it is appended and the next step follows |
| BrokenAgent.UnknownToolObserved | 03_ai_agents/lab/lab_02_routing_and_resilience/agent/broken_agent.py:65 | an unknown tool name is answered "Unknown tool" rather than raising |
| BrokenAgent.RunTools | 03_ai_agents/lab/lab_02_routing_and_resilience/agent/broken_agent.py:55-70 | the `for tc in tool_calls` loop builds exactly `ToolMessages` (the per-call messages, or the first exception) |
| BrokenAgent.RunAgent | 03_ai_agents/lab/lab_02_routing_and_resilience/agent/broken_agent.py:21-80 | returns the answer and step count of the run, or the exception a tool call raises |
| MockTools.FirstHit | 03_ai_agents/lab/lab_02_routing_and_resilience/tools/mock_tools.py:13-15 | none exactly when no key occurs in the lowered query; otherwise the value of the first key, in insertion order, that occurs in it |
| MockTools.Search | 03_ai_agents/lab/lab_02_routing_and_resilience/tools/mock_tools.py:5-18 | a query containing no key gets the "No results found" error text naming the query; otherwise one of the three canned answers |
| MockTools.SearchCapital | 03_ai_agents/lab/lab_02_routing_and_resilience/tools/mock_tools.py:8-15 | any query mentioning "capital of france", in any case, gets "Paris is the capital of France." |
| MockTools.SearchIgnoresCase | 03_ai_agents/lab/lab_02_routing_and_resilience/tools/mock_tools.py:12-15 | two queries equal after lowering get the same canned answer |
| MockTools.SearchMiss | 03_ai_agents/lab/lab_02_routing_and_resilience/tools/mock_tools.py:17-18 | a query with no key answers "Error: No results found for '{query}'. Try searching with different keywords." |
| MockTools.AllAllowed | 03_ai_agents/lab/lab_02_routing_and_resilience/tools/mock_tools.py:24-25 | true exactly when every character is a digit, an operator, a dot, a parenthesis or a space |
| MockTools.Calculate | 03_ai_agents/lab/lab_02_routing_and_resilience/tools/mock_tools.py:21-29 | a character outside the allowed set gives "Error: Invalid expression"; otherwise the evaluated value's text, or "Error: {e}" when evaluation raises |
| MockTools.CalculateRefusesLetters | 03_ai_agents/lab/lab_02_routing_and_resilience/tools/mock_tools.py:24-27 | an expression containing a letter is refused before evaluation |
| MockTools.OneParamSchemaName | 03_ai_agents/lab/lab_02_routing_and_resilience/tools/mock_tools.py:33-62 | each schema entry names its tool under `function.name` |
| MockTools.ToolsDictMatchesSchema | 03_ai_agents/lab/lab_02_routing_and_resilience/tools/mock_tools.py:31-62 | `TOOLS_SCHEMA` has one entry per `TOOLS_DICT` tool, in the same order and under the same names |
| MockTools.Invoke | 03_ai_agents/lab/lab_02_routing_and_resilience/tools/mock_tools.py:5-31 | `TOOLS_DICT.get(name, lambda **_: "Unknown tool")(**args)`: a non-mapping argument raises; an unknown name answers "Unknown tool"; a single string argument of the right name runs search or calculate |
| LoopDetector.Jaccard | 03_ai_agents/lab/lab_02_routing_and_resilience/agent/loop_detector.py:22-26 | the word-level similarity `\|intersection\| / \|union\|` always lies between 0 and 1 |
| LoopDetector.JaccardSymmetric | 03_ai_agents/lab/lab_02_routing_and_resilience/agent/loop_detector.py:22-26 | the similarity does not depend on the order of the two texts |
| LoopDetector.JaccardOneIffSameWords | 03_ai_agents/lab/lab_02_routing_and_resilience/agent/loop_detector.py:22-26 | for texts with at least one word, the similarity is 1.0 if and only if they have the same set of words |
| LoopDetector.CatsExample | 03_ai_agents/lab/lab_02_routing_and_resilience/agent/loop_detector.py:22-26 | "find information about cats" against "find info about cats" shares 3 of 5 words: similarity 0.6 |
| LoopDetector.ToolCallVerdict | 03_ai_agents/lab/lab_02_routing_and_resilience/agent/loop_detector.py:28-32 | a well-formed result; "exact" if and only if the pair occurs `exact_threshold` times counting this call; "fuzzy" if and only if it is not exact and an earlier call to the same tool had a similar enough input |
| LoopDetector.Recent | 03_ai_agents/lab/lab_02_routing_and_resilience/agent/loop_detector.py:34-38 | the last `stagnation_window` outputs (all of them when fewer, none for a window of 0 or less) |
| LoopDetector.StagnationVerdict | 03_ai_agents/lab/lab_02_routing_and_resilience/agent/loop_detector.py:34-38 | flags a loop if and only if one of the recent outputs is similar enough to the new one, and then names "stagnation" |
| LoopDetector.StagnationSeesOnlyWindow | 03_ai_agents/lab/lab_02_routing_and_resilience/agent/loop_detector.py:34-38 | outputs older than the window never change the verdict |
| LoopDetector.RepeatIsExact | 03_ai_agents/lab/lab_02_routing_and_resilience/agent/loop_detector.py:15-32 | with the default threshold 2, any call identical to an earlier one is flagged "exact" |
| LoopDetector.FirstCallIsClean | 03_ai_agents/lab/lab_02_routing_and_resilience/agent/loop_detector.py:28-32 | the first call to a tool is never flagged, for any threshold above 1 |
| LoopDetector.ScanCalls | 03_ai_agents/lab/lab_02_routing_and_resilience/agent/loop_detector.py:28-32 | the scan of the history counts the identical calls (plus this one) and finds a similar call to the same tool exactly when one exists |
| LoopDetector.ScanOutputs | 03_ai_agents/lab/lab_02_routing_and_resilience/agent/loop_detector.py:34-38 | the scan finds a similar enough output exactly when the window holds one |
| LoopDetector.AdvancedLoopDetector.constructor | 03_ai_agents/lab/lab_02_routing_and_resilience/agent/loop_detector.py:15-20 | the given thresholds and window, and empty tool and output histories |
| LoopDetector.AdvancedLoopDetector.Default | 03_ai_agents/lab/lab_02_routing_and_resilience/agent/loop_detector.py:15-20 | the defaults 2, 0.8 and 3, and empty histories |
| LoopDetector.AdvancedLoopDetector.CheckToolCall | 03_ai_agents/lab/lab_02_routing_and_resilience/agent/loop_detector.py:28-32 | the verdict of `ToolCallVerdict` on the calls made before, and the call appended to the tool history; the output history is unchanged |
| LoopDetector.AdvancedLoopDetector.CheckOutputStagnation | 03_ai_agents/lab/lab_02_routing_and_resilience/agent/loop_detector.py:34-38 | the verdict of `StagnationVerdict` on the outputs seen before, and the output appended; the tool history is unchanged |
| Tracer.NewStep | 03_ai_agents/lab/lab_02_routing_and_resilience/agent/tracer.py:19-25 | a step with the given number and reasoning, no tool calls, duration 0.0 and the current time as timestamp |
| Tracer.NewTrace | 03_ai_agents/lab/lab_02_routing_and_resilience/agent/tracer.py:27-33 | a trace with the given id, agent and query, no steps and status "running" |
| Tracer.Started | 03_ai_agents/lab/lab_02_routing_and_resilience/agent/tracer.py:40-44 | the new id was not in use before; the new trace is fresh and running; every earlier trace is kept unchanged; exactly one id is added |
| Tracer.Logged | 03_ai_agents/lab/lab_02_routing_and_resilience/agent/tracer.py:46-50 | an open ("running") trace gets the step appended at its end; every other trace is unchanged; an unknown id or a finalised trace changes nothing, so logging after the end is a no-op, not a reopen |
| Tracer.Ended | 03_ai_agents/lab/lab_02_routing_and_resilience/agent/tracer.py:52-56 | an open trace takes the given status and keeps its steps; every other trace is unchanged; an unknown id or an already finalised trace changes nothing, so the terminal status is set once |
| Tracer.ApplyToTrace | 03_ai_agents/lab/lab_02_routing_and_resilience/agent/tracer.py:40-56 | one event changes a trace only when it names it and the trace is open: a log appends the step, a finalising end sets the status; agent and query never change |
| Tracer.FinalisedTraceIsFrozen | 03_ai_agents/lab/lab_02_routing_and_resilience/agent/tracer.py:52-56 | a finalised trace is immutable: no sequence of later starts, logs or ends changes it |
| Tracer.TraceCollectsItsSteps | 03_ai_agents/lab/lab_02_routing_and_resilience/agent/tracer.py:40-56 | after any sequence of events an open trace holds its earlier steps followed by exactly the steps logged under its id before the first end that finalises it, in order, and that first end's status ("running" when none comes) |
| Tracer.NewTraceSeesOnlyLaterSteps | 03_ai_agents/lab/lab_02_routing_and_resilience/agent/tracer.py:40-56 | a trace started now collects only the steps logged after it and before its first end, and stays "running" until ended |
| Tracer.StartedIdsDiffer | 03_ai_agents/lab/lab_02_routing_and_resilience/agent/tracer.py:40-44 | two traces started one after the other get different ids |
| Tracer.AgentTracer.constructor | 03_ai_agents/lab/lab_02_routing_and_resilience/agent/tracer.py:36-38 | no traces and the given verbosity |
| Tracer.AgentTracer.StartTrace | 03_ai_agents/lab/lab_02_routing_and_resilience/agent/tracer.py:40-44 | the tracer's state becomes `Started` of the old state and the id returned is the new trace's id |
| Tracer.AgentTracer.LogStep | 03_ai_agents/lab/lab_02_routing_and_resilience/agent/tracer.py:46-50 | the tracer's state becomes `Logged` of the old state: an open trace takes the step, a finalised one is left as it is |
| Tracer.AgentTracer.EndTrace | 03_ai_agents/lab/lab_02_routing_and_resilience/agent/tracer.py:52-56 | the tracer's state becomes `Ended` of the old state: an open trace is finalised with the status, a finalised one is left as it is |
| RoutingRegistry.Execute | 03_ai_agents/lab/lab_02_routing_and_resilience/tools/registry.py:39-41 | arguments the model rejects end in that validation error and never reach the function; a value is what the function returned on the validated arguments |
| RoutingRegistry.ToOpenAiSchema | 03_ai_agents/lab/lab_02_routing_and_resilience/tools/registry.py:22-37 | a "function" schema naming the tool, with its description, `strict` true, an object of parameters closed to extra properties, and the model schema's properties and required list |
| RoutingRegistry.SchemaDefaults | 03_ai_agents/lab/lab_02_routing_and_resilience/tools/registry.py:31-32 | a model schema without properties or required list gives `{}` and `[]` |
| RoutingRegistry.EmptyRegistry | 03_ai_agents/lab/lab_02_routing_and_resilience/tools/registry.py:44-46 | the empty registry satisfies the registry invariant |
| RoutingRegistry.Registered | 03_ai_agents/lab/lab_02_routing_and_resilience/tools/registry.py:48-55 | the name now gives the new tool; every other name is unchanged; the name is appended to its category's list (created if absent); other categories are unchanged; the invariant (names stored once, every listed name stored) is kept |
| RoutingRegistry.ToolNamed | 03_ai_agents/lab/lab_02_routing_and_resilience/tools/registry.py:57 | a tool is found if and only if the name is registered |
| RoutingRegistry.AllTools | 03_ai_agents/lab/lab_02_routing_and_resilience/tools/registry.py:58 | the stored tools in insertion order, one per registered name |
| RoutingRegistry.ToolsByCategory | 03_ai_agents/lab/lab_02_routing_and_resilience/tools/registry.py:59-60 | one tool per name listed under the category, in order, each the tool stored under that name; none for an unknown category |
| RoutingRegistry.ReRegisterDuplicates | 03_ai_agents/lab/lab_02_routing_and_resilience/tools/registry.py:51-53 | registering a name twice in one category lists it twice, and both entries give the newer tool |
| RoutingRegistry.MovedNameStays | 03_ai_agents/lab/lab_02_routing_and_resilience/tools/registry.py:51-60 | a name registered again under another category stays listed under the old one, where it now gives the new tool |
| RoutingRegistry.ToolRegistry.constructor | 03_ai_agents/lab/lab_02_routing_and_resilience/tools/registry.py:44-46 | no tools and no categories |
| RoutingRegistry.ToolRegistry.Register | 03_ai_agents/lab/lab_02_routing_and_resilience/tools/registry.py:48-55 | the registry's state becomes `Registered` of the old state, and the decorator hands back the function itself |
| Router.Classify | 03_ai_agents/lab/lab_02_routing_and_resilience/routing/router.py:20-28 | fails (the `.strip()` on `None`) exactly when the reply has no content; otherwise always one of the three valid domains: the normalised reply when it is one, "general" otherwise |
| Router.Normalize | 03_ai_agents/lab/lab_02_routing_and_resilience/routing/router.py:27 | never longer than the reply; no ASCII capital letter is left; the result neither starts nor ends with a single quote |
| Router.Route | 03_ai_agents/lab/lab_02_routing_and_resilience/routing/router.py:30-32 | succeeds exactly when classification does; the domain is valid and the tools are exactly the registry's tools for it |
| Router.QuotedWordIsRead | 03_ai_agents/lab/lab_02_routing_and_resilience/routing/router.py:27-28 | a bare lower-case word wrapped in one kind of quotes is read as the word itself |
| Router.SingleThenDoubleQuotedFallsBack | 03_ai_agents/lab/lab_02_routing_and_resilience/routing/router.py:27-28 | a word in double quotes inside single quotes keeps its double quotes after normalisation (the double quotes are stripped first) and so falls back to "general" |
| Router.SpaceInsideQuotesFallsBack | 03_ai_agents/lab/lab_02_routing_and_resilience/routing/router.py:27-28 | a space inside the quotes survives normalisation (whitespace is stripped before the quotes) and so falls back to "general" |
| Orchestrator.NewPlanStep | 03_ai_agents/lab/lab_01_multi_agent_newsroom/starter/orchestrator.py:36-40 | a step declared without `depends_on` gets the empty list |
| Orchestrator.DepLines | 03_ai_agents/lab/lab_01_multi_agent_newsroom/starter/orchestrator.py:75-81 | at most one line per dependency; when every dependency has a stored result, exactly one line per dependency, in listed order, each "Step N: result"; with a marker policy every dependency contributes a line |
| Orchestrator.Context | 03_ai_agents/lab/lab_01_multi_agent_newsroom/starter/orchestrator.py:75-81 | a step without dependencies gets ""; the context holds "Step N: result" for every dependency N that has a stored result |
| Orchestrator.SubTask | 03_ai_agents/lab/lab_01_multi_agent_newsroom/starter/orchestrator.py:100-104 | with no context the specialist gets the task itself; otherwise the task followed by the context |
| Orchestrator.StepNumbers | 03_ai_agents/lab/lab_01_multi_agent_newsroom/starter/orchestrator.py:95-96 | one step number per plan step, in plan order |
| Orchestrator.ExecutedKeys | 03_ai_agents/lab/lab_01_multi_agent_newsroom/starter/orchestrator.py:93-104 | the results hold a key exactly for each step number of the plan |
| Orchestrator.ExecutedValue | 03_ai_agents/lab/lab_01_multi_agent_newsroom/starter/orchestrator.py:93-104 | with unique step numbers, each step's stored result is the specialist's answer to its task and the context built from the results of the steps before it |
| Orchestrator.Executed | 03_ai_agents/lab/lab_01_multi_agent_newsroom/starter/orchestrator.py:93-104 | the results have unique keys, no more of them than the plan has steps, and one for the plan's last step |
| Orchestrator.ExecutePlan | 03_ai_agents/lab/lab_01_multi_agent_newsroom/starter/orchestrator.py:93-104 | the loop over the plan fills exactly the results `Executed` describes |
| Orchestrator.DepLinesPolicyFree | 03_ai_agents/lab/lab_01_multi_agent_newsroom/starter/orchestrator.py:75-81 | when every dependency has a result, the missing-dependency choice makes no difference |
| Orchestrator.PolicyIrrelevantWhenDepsPointBack | 03_ai_agents/lab/lab_01_multi_agent_newsroom/starter/orchestrator.py:93-104 | when every dependency points to an earlier step, the results do not depend on the missing-dependency choice |
| Orchestrator.ContextOfTwoDeps | 03_ai_agents/lab/lab_01_multi_agent_newsroom/starter/orchestrator.py:75-104 | for the plan 1, 2 after 1, 3 after 1 and 2, step 3's context holds step 1's and step 2's results verbatim, in that order |
| Orchestrator.ResultLines | 03_ai_agents/lab/lab_01_multi_agent_newsroom/starter/orchestrator.py:118-121 | one "Step N (task): answer" entry per plan step, in plan order |
| Orchestrator.Run | 03_ai_agents/lab/lab_01_multi_agent_newsroom/starter/orchestrator.py:83-116 | returns the planner's plan, the results of executing it (one key per step number) and the synthesis of the query with the formatted step results |
| TestCases.NewTestCase | 03_ai_agents/lab/lab_03_the_broken_agent/evaluation/test_cases.py:19-26 | a case with the given input, expected output and tools, and the defaults "general" and "medium" |
| TestCases.ToolCalls | 03_ai_agents/lab/lab_03_the_broken_agent/evaluation/test_cases.py:33-36 | one `ToolCall` per expected tool, in order, named after it and with empty input parameters |
| TestCases.ToolNames | 03_ai_agents/lab/lab_03_the_broken_agent/evaluation/test_cases.py:33-36 | the names of the calls, in order |
| TestCases.ToLlmTestCaseKeepsTools | 03_ai_agents/lab/lab_03_the_broken_agent/evaluation/test_cases.py:28-37 | the converted case keeps input, expected output and the expected tools in order, each call with empty parameters, and has no actual output |
| TestCases.ToLlmTestCase | 03_ai_agents/lab/lab_03_the_broken_agent/evaluation/test_cases.py:28-37 | input and expected output copied, no actual output yet, and one tool call per expected tool, in order, named after it with empty input parameters |
| TestCases.Texts | 03_ai_agents/lab/lab_03_the_broken_agent/evaluation/test_cases.py:74 | a list is read as texts exactly when every item is a string, item for item |
| TestCases.FromItem | 03_ai_agents/lab/lab_03_the_broken_agent/evaluation/test_cases.py:70-79 | a non-dict item is refused; an item without "input" raises `KeyError('input')`; an accepted case carries the item's input |
| TestCases.OnlyInputTakesDefaults | 03_ai_agents/lab/lab_03_the_broken_agent/evaluation/test_cases.py:72-76 | an item holding only "input" gets "", [], "general" and "medium" |
| TestCases.FromItems | 03_ai_agents/lab/lab_03_the_broken_agent/evaluation/test_cases.py:70-79 | the list loads exactly when every item does, one case per item, in order |
| TestCases.MissingFileLoadsNothing | 03_ai_agents/lab/lab_03_the_broken_agent/evaluation/test_cases.py:62-65 | a missing file loads as the empty list |
| TestCases.LoadKeepsOrder | 03_ai_agents/lab/lab_03_the_broken_agent/evaluation/test_cases.py:62-82 | a file holding a list loads exactly when every item does, one case per item, in file order |
| TestCases.LoadTestCases | 03_ai_agents/lab/lab_03_the_broken_agent/evaluation/test_cases.py:62-82 | a missing file loads as []; content that is not a list is a TypeError; otherwise the file loads exactly when every item does, one case per item, in order |
| TestCases.SaveTestCases | 03_ai_agents/lab/lab_03_the_broken_agent/evaluation/test_cases.py:85-99 | the file now holds exactly the given list; every other file is unchanged |
| TestCases.JsonTexts | 03_ai_agents/lab/lab_03_the_broken_agent/evaluation/test_cases.py:85-99 | one JSON string per text, in order |
| TestCases.TextsOfJsonTexts | 03_ai_agents/lab/lab_03_the_broken_agent/evaluation/test_cases.py:74 | texts written as JSON strings read back as the same texts |
| TestCases.ToDictFields | 03_ai_agents/lab/lab_03_the_broken_agent/evaluation/test_cases.py:85-99 | the dict of a case holds its five fields under their own keys |
| TestCases.FromItemOfDict | 03_ai_agents/lab/lab_03_the_broken_agent/evaluation/test_cases.py:70-79 | loading the dict of a case gives the case back |
| TestCases.SaveLoadRoundTrip | 03_ai_agents/lab/lab_03_the_broken_agent/evaluation/test_cases.py:62-99 | saving the dicts of a list of cases and loading the file gives the same cases back, in order |
| SampleCases.SampleTestCasesShape | 03_ai_agents/lab/lab_03_the_broken_agent/evaluation/test_cases.py:102-152 | six samples, each with all five keys; saved and loaded they give the six cases back |
| SampleCases.CreateSampleTestCases | 03_ai_agents/lab/lab_03_the_broken_agent/evaluation/test_cases.py:102-152 | one dict per sample record, in order, each loading back as that record |
| Runner.ActualOutput | 03_ai_agents/lab/lab_03_the_broken_agent/evaluation/runner.py:55 | a text reply is the output itself; a dict reply gives its "answer", or "" without one |
| Runner.Answered | 03_ai_agents/lab/lab_03_the_broken_agent/evaluation/runner.py:49-56 | one converted case per test case, in order, each carrying the agent's output for that case's input |
| Runner.Records | 03_ai_agents/lab/lab_03_the_broken_agent/evaluation/runner.py:70-73 | one `{"input", "actual_output"}` record per converted case, in order |
| Runner.NoCasesNoRun | 03_ai_agents/lab/lab_03_the_broken_agent/evaluation/runner.py:40-42 | with no test cases the answer is the error dict "No test cases provided", whatever the agent and the evaluator |
| Runner.EvaluatedRecordsCases | 03_ai_agents/lab/lab_03_the_broken_agent/evaluation/runner.py:44-74 | with test cases, the dict reports their number and the threshold and one record per case holding its input and the agent's output, in order |
| Runner.Evaluated | 03_ai_agents/lab/lab_03_the_broken_agent/evaluation/runner.py:22-74 | the error dict "No test cases provided" exactly when there are no cases; otherwise the number of cases, the threshold, the evaluator's results on the answered cases and one record per case |
| Runner.EvaluatorSeesExpectedTools | 03_ai_agents/lab/lab_03_the_broken_agent/evaluation/runner.py:54 | the case handed to the evaluator lists the case's expected tools, in order |
| Runner.EvaluateAgent | 03_ai_agents/lab/lab_03_the_broken_agent/evaluation/runner.py:22-74 | the loop builds exactly the dict `Evaluated` describes |
| Runner.MissingFileIsReported | 03_ai_agents/lab/lab_03_the_broken_agent/evaluation/runner.py:97-101 | a missing test-case file gives the error dict "No test cases loaded from {path}" |
| Runner.LoadedFileIsEvaluated | 03_ai_agents/lab/lab_03_the_broken_agent/evaluation/runner.py:97-103 | a file that loads a non-empty list is evaluated exactly as `evaluate_agent` evaluates those cases |
| Runner.EvaluatedFromFile | 03_ai_agents/lab/lab_03_the_broken_agent/evaluation/runner.py:76-103 | a missing file gives "No test cases loaded from {path}"; it fails exactly when loading fails; a results dict is `Evaluated` on the loaded, non-empty list |
| Runner.Zip | 03_ai_agents/lab/lab_03_the_broken_agent/evaluation/runner.py:135-136 | pairs up records and results position by position, as long as the shorter list |
| Runner.ErrorReport | 03_ai_agents/lab/lab_03_the_broken_agent/evaluation/runner.py:117-118 | an error dict is reported as "Evaluation Error: {error}" |
| Runner.Report | 03_ai_agents/lab/lab_03_the_broken_agent/evaluation/runner.py:117-161 | an error dict gives "Evaluation Error: {error}"; a results report opens with the line "# Agent Evaluation Report" |
| Runner.ReportHasTitleAndCount | 03_ai_agents/lab/lab_03_the_broken_agent/evaluation/runner.py:120-129 | a results report holds the title and the line "**Test Cases**: N" (0 when absent) |
| Runner.NoResultsIsSaid | 03_ai_agents/lab/lab_03_the_broken_agent/evaluation/runner.py:150-151 | without evaluation results the report says "No detailed results available." |
| Runner.SectionsHoldEachCase | 03_ai_agents/lab/lab_03_the_broken_agent/evaluation/runner.py:134-149 | the sections hold, for each paired case, its heading immediately followed by its answer line |
| Runner.ReportHoldsEachPairedHeading | 03_ai_agents/lab/lab_03_the_broken_agent/evaluation/runner.py:134-138 | the report holds the heading of every case that has a paired result |
| Runner.ReportHoldsEachPairedAnswer | 03_ai_agents/lab/lab_03_the_broken_agent/evaluation/runner.py:134-139 | the report holds the answer line of every case that has a paired result |
| Runner.CaseLinesAreTruncated | 03_ai_agents/lab/lab_03_the_broken_agent/evaluation/runner.py:138-139 | headings show at most 60 characters of the input and answer lines at most 200 of the output; a short input is shown whole |
| Runner.SectionsLength | 03_ai_agents/lab/lab_03_the_broken_agent/evaluation/runner.py:134-149 | at least three lines per paired case (heading, answer, closing blank line) |
| Runner.AppendMetrics | 03_ai_agents/lab/lab_03_the_broken_agent/evaluation/runner.py:141-148 | the metric loop appends exactly the metric lines, in order |
| Runner.AppendCase | 03_ai_agents/lab/lab_03_the_broken_agent/evaluation/runner.py:138-149 | one case appends its heading, its answer, its metric lines and a blank line |
| Runner.CaseSections | 03_ai_agents/lab/lab_03_the_broken_agent/evaluation/runner.py:134-149 | the loop over the pairs builds exactly `Sections` |
| Runner.CreateEvaluationReport | 03_ai_agents/lab/lab_03_the_broken_agent/evaluation/runner.py:106-169 | the report is `Report` of the dict; it is written to the output file only when there is one and the dict is not an error |

## Left out

- Language-model and embedding calls (`completion`, `acompletion`, `completion_cost`, the evaluation library's metrics) are oracle parameters. What a model answers is never modelled.
- Floating point: every number is an exact `real`. Rounding, `inf` and `nan` are not modelled. A non-integral power in the calculator is the oracle `fracPow`, and Python's `eval` in the mock calculator is the oracle `eval`.
- Report formatting: `repr` of the threshold, the `:.3f` score format and the `strftime` date are parameters of the report.
- Time: `time.time`, `datetime.now` and every duration are parameters. `time.sleep` is not performed: the client records the list of waits instead.
- Identifiers: `uuid` trace ids come from a counter in the tracer store. That gives the same freshness, but not the text of a uuid.
- Hashing: the SHA-256 cache digest is taken to be injective, so the canonical JSON value of the request is used as the key itself. `CacheKeySeparatesModels` depends on this.
- File system:
  - files are a map from path to the JSON value they hold;
  - directory creation (`mkdir(parents=True)`, the cache directory) and text encodings are not modelled;
  - the path sanitizer resolves lexically, without symlinks, with the working directory as a parameter.
- JSON text: tool-call arguments arrive already decoded. A malformed `arguments` string, on which `json.loads` raises, is not modelled.
- Libraries:
  - pydantic: the schema derived from a function signature and the validation of keyword arguments are given with each routing-lab tool as a `Signature`;
  - `_create_pydantic_model` itself is not modelled;
  - `check_hotel_model` needs a pydantic class and is not modelled.
- Rate limiter: `manager.py` is not part of this model. The limiter is a 60-second window that opens at the first call after the previous window.
- Output: logging, `structlog`, `print`, the tracer's `verbose` printing and `print_summary` produce output only and are not modelled.
- Concurrency: `asyncio` and parallel tool calls. The orchestrator's awaited calls are sequential function applications.
- Stubs with no steps:
  - `BaseAgent.run` only raises `NotImplementedError`;
  - `_on_step_start` and `_on_tool_result` are empty hooks;
  - `TaskPlanner.create_plan`'s model call is the `planner` parameter.
- BaseAgent dependencies: the project's own registry, loop detector and tracer modules are not part of this model. The agent uses the routing lab's registry and detector, and records the calls it makes to the tracer, in order.
- Excluded files:
  - the semantic routers and `semantic_agent.py`;
  - `specialists.py`;
  - the MCP client and server;
  - `filesystem.py` (except its `filesystem:read` permission, used as an example);
  - `hello_litellm.py`, the configuration files, `main.py`, `run_eval.py`, `deepeval_test.py`, `prompts.py`;
  - `orchestration.py` and `exceptions.py`.

  They are network, process or environment plumbing, or hold no behaviour.
- Json.Dumps: a Python int and a float of equal value are one `Num` and are written alike (`2.0` is written "2", where Python writes "2.0"), so the loop detector's key for `{"x": 2}` and `{"x": 2.0}` is the same in the model and different in Python.
- Text: lower-casing covers ASCII letters only; Unicode case folding is not modelled. Whitespace for `split` and `strip` is Python's full `str.isspace` set.
- ApiClient.Query: the classification of the library's exceptions (rate limit, connection error, anything else) is the `Outcome` datatype. The exception classes themselves are not modelled.
- MockTools.Invoke: arguments that do not bind exactly the one string parameter make the call fail. In the source, a non-string `expression` would be caught by `calculate`'s own `except` and answered as "Error: ..." text. This case is left out.
- TestCases.FromItem: a field of the wrong JSON type is refused with a `TypeError`. The Python dataclass would store it unchecked and fail later.
- Runner.ActualOutput: a dict reply from the agent is modelled with text values only.
- BrokenAgent.RunAgent: the model oracle `llm` is total. A `completion` call that raises, which would propagate out of `run_agent`, is not modelled; only a raising tool call fails the run.
- Router.Classify: the model oracle is total. A `completion` call that raises, which would propagate out of `classify_query`, is not modelled; only a reply without content fails.
- Orchestrator.Run: the planner, specialist and synthesis oracles are total. An `acompletion` call that raises, which would propagate out of `run`, is not modelled.
- Plan validation: the source's `create_plan` does not check dependency edges to a missing or not-smaller step, and neither does the model.
- CachedClient.Queried: a stored `response` that is neither a text nor null is treated as an unreadable entry. The source returns `cached["response"]` whatever its type.
- RoutingRegistry.Registered: `register`'s default `category="general"` is the constant `DefaultCategory`, which a caller passes explicitly; Dafny has no default arguments.
- ApiClient.LiteLLMClient.constructor: the constructor's call to `get_api_key`, which raises `EnvironmentError` when `OPENROUTER_API_KEY` is unset, is not modelled; the client is built as if the key were present.
- Calculator.ExecuteArgs: the lab leaves wrong-typed arguments open. The model answers an operation that is not a text, or an operand that is neither a number nor a boolean, with an error record. In Python, `"a" + "b"` would succeed and a non-text operation would be shown with `str()`.
- MockTools.Search: the contract names one of the canned answers rather than the exact one. The exact one, the first key in insertion order, is stated by `MockTools.FirstHit`.

## Findings

| source | as written | input that shows it | evidently intended | confidence | as-written member | corrected member |
|---|---|---|---|---|---|---|
| 02_function_calling_tools/lab/lab_02_plugin_system/starter/security.py:41 | the target is accepted when its resolved path starts, as text, with the resolved base directory | base "/srv/app", target "../app-secrets": resolves to "/srv/app-secrets", which starts with "/srv/app" and is accepted | accept only paths within the base: the base itself or a path below it (the base's segments are a prefix of the target's) | high, not executed | PathSanitizer.SiblingWithSharedPrefix | PathSanitizer.WithinMeansUnder |
