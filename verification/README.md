# Multi-agent task orchestrator — Dafny model

This project models the orchestration core of a small multi-agent system that
drives a text-generation service. A *mother agent* works in three steps:

1. It asks the service how many child agents a task needs. The reply is read
   with `int(reply.strip())`; if that fails, the count is 1.
2. It spawns that many children, named `ChildAgent_1 .. ChildAgent_n`. All of
   them share the mother's API client.
3. It hands the task to each child in turn. Each child sends
   `"<name> doit <task>"` to the service and returns the reply unchanged.

Next to the agents sits the `PromptManager`. It builds a prompt from a fixed
preamble, an optional role block chosen by the role string, and the task line.

The service itself is not modelled. It is an arbitrary total function
`Backend = Request -> string`. Every operation returns its value together with
a *transcript*: the requests it sent and the replies it received, in order.
Counting, ordering and "one call per X" facts are stated over that transcript.
Agents are immutable records. An operation that changes the mother's children
returns a new `MotherAgent`.

Files:

- `wrappers.dfy`: `Option`, standing in for Python's `None`.
- `text.dfy`: the Python built-ins the core relies on: `str.strip()`,
  `int(str)`, `str(int)`.
- `api_client.dfy`: the client's configuration, the request it sends and the
  oracle that answers it.
- `prompts.dfy`: `PromptManager.buildPrompt`.
- `agents.dfy`: `Agent.performTask` and the `MotherAgent` operations.
- `session.dfy`: the entry point's sequence (decide, spawn, delegate) as one round.

Facts about the code that shape the model:

- The count is read with `int()`; there is no plan parser. When the reply
  does not read as an integer, the count is 1. Children are named
  `ChildAgent_<i+1>`.
- Children are called one after another, in list order, once each, with no
  retry.
- `performTask` builds its own prompt `"<name> doit <task>"`; it does not use
  the `PromptManager`.
- `delegateTasks` returns nothing; the replies are only logged. The model
  returns them as `results` so that the caller can state facts about them.

## Model

| member | source | states |
|---|---|---|
| Prompts.RoleLine | modules/PromptManager.py:16-22 | The role block is empty exactly when the role is None or ""; "MotherAgent" and "Agent" give their fixed directives; any other role is inserted verbatim as "[Rôle: role]\n"; every non-empty block is bracketed |
| Prompts.BuildPrompt | modules/PromptManager.py:10-24 | The prompt begins with the preamble and a blank line, ends with "<agent> doit <task>", and holds exactly the role block between them, so at most one role block is ever inserted |
| Prompts.NoRoleGivesBasePrompt | modules/PromptManager.py:15-23 | With no role (None or "") the prompt is exactly preamble + "\n\n" + "<agent> doit <task>" |
| Prompts.SamePromptIffSameRoleLine | modules/PromptManager.py:15-23 | For fixed preamble, agent and task, two roles give equal prompts if and only if they give equal role blocks |
| Prompts.VerbatimRolesDistinguished | modules/PromptManager.py:21-22 | Two different roles that are both inserted verbatim always give different prompts |
| Prompts.NamedRolesHaveVerbatimAliases | modules/PromptManager.py:17-22 | The role "Agent" gives the same prompt as the verbatim role spelling out its instruction, and likewise for "MotherAgent": the prompt alone does not tell them apart |
| ApiClient.NewClient | modules/MistralApiClient.py:8-10 | A client built from a key alone targets the default base URL |
| ApiClient.CallModel | modules/MistralApiClient.py:13-34 | One request goes to baseUrl + "/v1/generate" under the client's key, with the default model, the given prompt and token budget; the reply is the service's answer, which may be "" |
| Text.Strip | modules/Agent.py:44 | The stripped text has no whitespace at either end, and the input is that text with only whitespace around it |
| Text.StripRemovesPadding | modules/Agent.py:44 | Stripping any whitespace padding off a text that has no whitespace at its ends gives back that text |
| Text.NatToString | modules/Agent.py:56 | str(n) for n >= 0 is a non-empty run of digits with no leading zero unless n is 0 |
| Text.NatToStringRoundTrip | modules/Agent.py:56 | Reading str(n) back as digits gives n |
| Text.NatToStringInjective | modules/Agent.py:56 | str(a) == str(b) if and only if a == b |
| Text.IntToString | modules/Agent.py:44-46 | str(n) is non-empty and starts with "-" exactly when n is negative |
| Text.ParseInt | modules/Agent.py:44 | int(s) succeeds exactly on an optional sign followed by one or more digits; a "-" sign gives a value <= 0, otherwise >= 0 |
| Text.ParseIntValue | modules/Agent.py:44-46 | Every accepted literal has the value of its digits: a bare or "+"-signed digit run d reads as the value of d, a "-"-signed one as its negation |
| Text.LeadingZeroIgnored | modules/Agent.py:44-46 | A leading zero does not change the value of a digit run, so "05" reads as 5 |
| Text.ParseIntRoundTrip | modules/Agent.py:44-46 | int(str(n)) == n for every integer n, zero and negatives included |
| Text.NoDigitRejected | modules/Agent.py:44-47 | A text without any digit is rejected by int() |
| Text.StripKeepsNoDigit | modules/Agent.py:44 | Stripping a text without digits leaves a text without digits |
| Text.IntToStringTrimmed | modules/Agent.py:44-46 | str(n) has no whitespace at either end, so stripping leaves it as it is |
| Agents.PerformTask | modules/Agent.py:16-24 | Exactly one call is made, through the agent's own client, with prompt "<name> doit <task>" and the default budget; the reply is returned unchanged |
| Agents.NewMotherAgent | modules/Agent.py:30-32 | A new mother agent keeps its name and client and starts with no children |
| Agents.DetermineNumberOfAgents | modules/Agent.py:34-49 | Exactly one call is made, with the planning prompt and a budget of 10 tokens; if the stripped reply is an integer literal, its value is returned with no bound (0 and negatives pass); otherwise the result is 1 |
| Agents.Children | modules/Agent.py:55-58 | The list has exactly `count` agents, and agent i is named ChildAgent_<i+1> and uses the given client |
| Agents.SpawnChildAgents | modules/Agent.py:51-59 | After spawning, the mother has max(number, 0) children; child i is named "ChildAgent_" + str(i+1) and shares her client; her name and client are unchanged |
| Agents.DelegateTasks | modules/Agent.py:61-68 | Each child performs the task exactly once, in list order: there is one call and one result per child, and call i is child i's performTask call |
| Agents.SpawnEstablishesSpawned | modules/Agent.py:30-58 | A new mother, and any mother after spawning, holds exactly the children ChildAgent_1.. in order, sharing her client |
| Agents.SpawnReplacesChildren | modules/Agent.py:55-58 | The result of spawning does not depend on the previous children: the new list replaces them |
| Agents.ChildNamesDistinct | modules/Agent.py:56 | Two child names are equal if and only if they are at the same position, so spawned names are pairwise distinct |
| Agents.SpawnedPromptsDistinct | modules/Agent.py:55-67 | In a delegation round, different children send different prompts, so no two requests of the round coincide |
| Agents.DetermineReadsPaddedInteger | modules/Agent.py:42-46 | A reply that is str(n) with any whitespace around it yields exactly n, for every integer n |
| Agents.DetermineFallsBackWithoutDigits | modules/Agent.py:42-49 | A reply without any digit, including the empty reply of a failed call, yields 1 |
| Session.Round | main.py:13-18 | One round makes one planning call through the client, then one call per child in spawn order: 1 + max(count, 0) calls in all, each answered by the service; the count follows the parse-or-1 rule; child i's call carries "ChildAgent_<i+1> doit <task>" with the default budget, and its reply is child i's result |
| Session.NonPositivePlanRunsNoChild | modules/Agent.py:44-58 | A planning reply that reads as 0 or a negative integer, with any whitespace around it, is taken as is and spawns no child at all |
| Session.FailedPlanRunsOneChild | modules/Agent.py:47-58 | After a planning reply without digits (for example the empty reply of a failed call), the round spawns exactly one child, ChildAgent_1 |

## Left out

- The HTTP exchange inside `callModel` (the `requests.post` call, the JSON
  body and the `generated_text` field) is network I/O. The service is an
  arbitrary function from requests to replies. Any reply, the empty string
  included, is possible.
- ApiClient.CallModel: the reply is always a string. In the source the reply
  is "" in two cases: a failure that `requests` raises, and a successful JSON
  object without a `generated_text` field. Both are covered, since the
  service may answer "". A JSON body that is not an object makes `.get` raise,
  and that exception reaches the caller; this is not modelled. A
  `generated_text` value that is not a string (None, a number) is not modelled
  either. In the source, `performTask` returns such a value unchanged and
  `delegateTasks` only logs it, while `determineNumberOfAgents` raises
  `AttributeError` from `.strip()`, which its `except ValueError` does not
  catch.
- The backend is a function of the request, so two identical requests would
  get the same reply. Within a round no request repeats (see
  `Agents.SpawnedPromptsDistinct`, and the planning prompt differs from every
  child prompt), so every combination of replies a real service could give in
  a round is still covered.
- Text.ParseInt: Python's `int()` also accepts underscores between digits and
  non-ASCII decimal digits. This model accepts only an optional sign followed
  by ASCII digits. It also has no limit on the number of digits. CPython 3.11
  and later, and the security releases of 3.7 to 3.10, raise `ValueError` for
  a decimal string of more than 4300 digits, so `determineNumberOfAgents`
  returns 1 for such a reply. The model returns the number instead.
- Text.ParseIntRoundTrip: it holds for every integer here. In CPython with the
  digit limit, `str(n)` itself raises once n has more than 4300 digits, so the
  round trip is a fact about Python only below that size.
- Text.IntToString: it has no digit limit, for the same reason.
- Text.Strip: whitespace is Python's `str.isspace()` as a fixed list of code
  points. This is the ASCII whitespace and separators plus the Unicode space
  characters. No Unicode database is consulted.
- All `logging` calls: they are observability side effects and do not affect
  any result.
- `config/config.py`: it reads a JSON file at import time. That is file I/O,
  and the modelled core does not use it.
- `main.py`: the hard-coded API key and task, and the logging setup, are
  glue. Only the decide/spawn/delegate sequence is modelled, as `Session.Round`.
- The `model` parameter of `callModel` is never passed by the core, so it is
  fixed at its default.
