/**
 `Agent` and `MotherAgent`: an agent forwards "<name> doit <task>" to the
 service; the mother agent asks the service how many children to create,
 creates them as `ChildAgent_1 .. ChildAgent_n`, and hands the task to each
 child in turn.

 Every operation returns, besides its value, the transcript of the calls it
 made, in the order it made them.
 */
module Agents {
  import opened Wrappers
  import opened Text
  import opened ApiClient
  import opened Prompts

  /** A worker: its name and the client it calls through. */
  datatype Agent = Agent(name: string, client: Client)

  /** The coordinating agent and the children it currently holds. */
  datatype MotherAgent = MotherAgent(name: string, client: Client, childAgents: seq<Agent>)

  /** A value together with the calls made to produce it. */
  datatype Step<T> = Step(value: T, transcript: seq<Exchange>)

  /** The token budget of the "how many agents" question. */
  const PlanMaxTokens: int := 10

  /** The fallback child count when the answer is not an integer. */
  const FallbackCount: int := 1

  /** The question put to the service before spawning. */
  function PlanPrompt(name: string, task: string): string {
    name + " doit décider combien d'agents sont nécessaires pour accomplir la tâche suivante : '"
    + task + "'. Réponds uniquement par un nombre entier."
  }

  /** How the service's answer is read: `int(answer.strip())`, or the fallback when that fails. */
  function CountFromReply(reply: string): int {
    ParseInt(Strip(reply)).GetOr(FallbackCount)
  }

  /** The name of the child at 0-based position `i`. */
  function ChildName(i: nat): string {
    "ChildAgent_" + NatToString(i + 1)
  }

  // ---------------------------------------------------------------------------
  // Agent
  // ---------------------------------------------------------------------------

  /**
   `performTask`: exactly one call, through the agent's own client, with the
   prompt "<name> doit <task>" and the default budget; the answer is returned
   as it came.
   */
  function PerformTask(agent: Agent, taskDescription: string, backend: Backend): (r: Step<string>)
    ensures |r.transcript| == 1
    ensures r.transcript[0].request.prompt == TaskLine(agent.name, taskDescription)
    ensures r.transcript[0] == CallModel(agent.client, backend, TaskLine(agent.name, taskDescription), DefaultMaxTokens)
    ensures r.value == r.transcript[0].reply == backend(r.transcript[0].request)
  {
    var e := CallModel(agent.client, backend, TaskLine(agent.name, taskDescription), DefaultMaxTokens);
    Step(e.reply, [e])
  }

  // ---------------------------------------------------------------------------
  // MotherAgent
  // ---------------------------------------------------------------------------

  /** A new mother agent has no children yet. */
  function NewMotherAgent(name: string, client: Client): (m: MotherAgent)
    ensures m.name == name && m.client == client
    ensures |m.childAgents| == 0
  {
    MotherAgent(name, client, [])
  }

  /**
   `determineNumberOfAgents`: one call with a budget of 10 tokens; the answer,
   stripped, is read as an integer with no bound on it (zero and negatives
   pass through), and anything that does not read as one gives 1.
   */
  function DetermineNumberOfAgents(m: MotherAgent, task: string, backend: Backend): (r: Step<int>)
    ensures |r.transcript| == 1
    ensures r.transcript[0] == CallModel(m.client, backend, PlanPrompt(m.name, task), PlanMaxTokens)
    ensures IsIntLiteral(Strip(r.transcript[0].reply)) ==> Some(r.value) == ParseInt(Strip(r.transcript[0].reply))
    ensures !IsIntLiteral(Strip(r.transcript[0].reply)) ==> r.value == 1
  {
    var e := CallModel(m.client, backend, PlanPrompt(m.name, task), PlanMaxTokens);
    Step(CountFromReply(e.reply), [e])
  }

  /** The first `count` children, all sharing `client`. */
  function Children(count: nat, client: Client): (cs: seq<Agent>)
    ensures |cs| == count
    ensures forall i :: 0 <= i < count ==> cs[i] == Agent(ChildName(i), client)
  {
    if count == 0 then [] else Children(count - 1, client) + [Agent(ChildName(count - 1), client)]
  }

  /**
   The children are exactly those `spawnChildAgents` makes: named in order
   from ChildAgent_1 and sharing the mother's client.
   */
  predicate Spawned(m: MotherAgent) {
    forall i :: 0 <= i < |m.childAgents| ==> m.childAgents[i] == Agent(ChildName(i), m.client)
  }

  /**
   `spawnChildAgents`: replaces whatever children there were by `max(number, 0)`
   fresh ones (`range(number)` is empty for a negative number); nothing else changes.
   */
  function SpawnChildAgents(m: MotherAgent, number: int): (r: MotherAgent)
    ensures r.name == m.name && r.client == m.client
    ensures |r.childAgents| == if number < 0 then 0 else number
    ensures forall i :: 0 <= i < |r.childAgents| ==>
              r.childAgents[i].name == "ChildAgent_" + NatToString(i + 1) && r.childAgents[i].client == m.client
  {
    m.(childAgents := Children(if number < 0 then 0 else number, m.client))
  }

  /**
   `delegateTasks`: each child performs the task once, in list order; the
   transcript is the children's calls one after another, and the results are
   their answers.
   */
  method DelegateTasks(m: MotherAgent, task: string, backend: Backend) returns (results: seq<string>, transcript: seq<Exchange>)
    ensures |results| == |m.childAgents| && |transcript| == |m.childAgents|
    ensures forall i :: 0 <= i < |m.childAgents| ==>
              [transcript[i]] == PerformTask(m.childAgents[i], task, backend).transcript
    ensures forall i :: 0 <= i < |m.childAgents| ==>
              results[i] == PerformTask(m.childAgents[i], task, backend).value
  {
    results := [];
    transcript := [];
    for k := 0 to |m.childAgents|
      invariant |results| == k && |transcript| == k
      invariant forall i :: 0 <= i < k ==> [transcript[i]] == PerformTask(m.childAgents[i], task, backend).transcript
      invariant forall i :: 0 <= i < k ==> results[i] == PerformTask(m.childAgents[i], task, backend).value
    {
      var step := PerformTask(m.childAgents[k], task, backend);
      results := results + [step.value];
      transcript := transcript + step.transcript;
    }
  }

  // ---------------------------------------------------------------------------
  // Properties
  // ---------------------------------------------------------------------------

  /** A new mother is trivially in the spawned shape, and spawning keeps her in it. */
  lemma SpawnEstablishesSpawned(m: MotherAgent, number: int)
    ensures Spawned(NewMotherAgent(m.name, m.client))
    ensures Spawned(SpawnChildAgents(m, number))
  {
  }

  /** Spawning forgets the previous children entirely. */
  lemma SpawnReplacesChildren(m: MotherAgent, others: seq<Agent>, number: int)
    ensures SpawnChildAgents(m, number) == SpawnChildAgents(m.(childAgents := others), number)
  {
  }

  /** No two children of a spawn share a name. */
  lemma ChildNamesDistinct(i: nat, j: nat)
    ensures ChildName(i) == ChildName(j) <==> i == j
  {
    var prefix := "ChildAgent_";
    if ChildName(i) == ChildName(j) {
      assert NatToString(i + 1) == ChildName(i)[|prefix|..];
      assert NatToString(j + 1) == ChildName(j)[|prefix|..];
      NatToStringInjective(i + 1, j + 1);
    }
  }

  /**
   In a spawned mother, the children's prompts for one task are pairwise
   distinct, so no two calls of a delegation round are the same request.
   */
  lemma SpawnedPromptsDistinct(m: MotherAgent, task: string, i: nat, j: nat)
    requires Spawned(m)
    requires i < j < |m.childAgents|
    ensures TaskLine(m.childAgents[i].name, task) != TaskLine(m.childAgents[j].name, task)
  {
    var a := ChildName(i);
    var b := ChildName(j);
    ChildNamesDistinct(i, j);
    var pa := TaskLine(a, task);
    var pb := TaskLine(b, task);
    assert pa[..|a|] == a && |pa| == |a| + 6 + |task|;
    assert pb[..|b|] == b && |pb| == |b| + 6 + |task|;
  }

  /** A reply that is an integer, with any whitespace around it, is read as that integer. */
  lemma DetermineReadsPaddedInteger(m: MotherAgent, task: string, backend: Backend, w1: string, n: int, w2: string)
    requires AllSpace(w1) && AllSpace(w2)
    requires backend(CallModel(m.client, backend, PlanPrompt(m.name, task), PlanMaxTokens).request) == w1 + IntToString(n) + w2
    ensures DetermineNumberOfAgents(m, task, backend).value == n
  {
    IntToStringTrimmed(n);
    StripRemovesPadding(w1, IntToString(n), w2);
    ParseIntRoundTrip(n);
  }

  /** A reply without any digit, the empty reply of a failed call among them, gives one child. */
  lemma DetermineFallsBackWithoutDigits(m: MotherAgent, task: string, backend: Backend)
    requires NoDigit(backend(CallModel(m.client, backend, PlanPrompt(m.name, task), PlanMaxTokens).request))
    ensures DetermineNumberOfAgents(m, task, backend).value == 1
  {
  }
}
