/**
 One run of the entry point: a mother agent named "MotherAgent" decides the
 number of children, spawns them and delegates the task to them.
 */
module Session {
  import opened Wrappers
  import opened Text
  import opened ApiClient
  import opened Agents
  import opened Prompts

  const MotherName: string := "MotherAgent"

  /**
   The whole round: one planning call first, then one call per child in
   spawn order. The transcript has 1 + max(count, 0) calls, the children
   are ChildAgent_1 .. ChildAgent_count, and each child's answer is its result.
   */
  method Round(client: Client, task: string, backend: Backend)
    returns (mother: MotherAgent, count: int, results: seq<string>, transcript: seq<Exchange>)
    ensures mother.name == MotherName && mother.client == client && Spawned(mother)
    ensures |mother.childAgents| == (if count < 0 then 0 else count)
    ensures |transcript| == 1 + |mother.childAgents| && |results| == |mother.childAgents|
    ensures transcript[0] == CallModel(client, backend, PlanPrompt(MotherName, task), PlanMaxTokens)
    ensures IsIntLiteral(Strip(transcript[0].reply)) ==> Some(count) == ParseInt(Strip(transcript[0].reply))
    ensures !IsIntLiteral(Strip(transcript[0].reply)) ==> count == 1
    ensures forall i :: 0 <= i < |mother.childAgents| ==>
              && transcript[i + 1] == CallModel(client, backend, TaskLine(ChildName(i), task), DefaultMaxTokens)
              && results[i] == transcript[i + 1].reply
  {
    mother := NewMotherAgent(MotherName, client);
    var plan := DetermineNumberOfAgents(mother, task, backend);
    count := plan.value;
    mother := SpawnChildAgents(mother, count);
    SpawnEstablishesSpawned(NewMotherAgent(MotherName, client), count);
    var delegated;
    results, delegated := DelegateTasks(mother, task, backend);
    transcript := plan.transcript + delegated;
    forall i | 0 <= i < |mother.childAgents|
      ensures transcript[i + 1] == CallModel(client, backend, TaskLine(ChildName(i), task), DefaultMaxTokens)
    {
      assert transcript[i + 1] == delegated[i];
      assert [delegated[i]] == PerformTask(mother.childAgents[i], task, backend).transcript;
    }
  }

  /**
   When the planning answer has no digit at all (an empty reply from a failed
   call, or prose), the round still spawns exactly one child, ChildAgent_1.
   */
  lemma FailedPlanRunsOneChild(client: Client, task: string, backend: Backend, reply: string)
    requires NoDigit(reply)
    ensures !IsIntLiteral(Strip(reply))
    ensures CountFromReply(reply) == 1
    ensures SpawnChildAgents(NewMotherAgent(MotherName, client), CountFromReply(reply)).childAgents
            == [Agent("ChildAgent_1", client)]
  {
    StripKeepsNoDigit(reply);
    NoDigitRejected(Strip(reply));
    var children := SpawnChildAgents(NewMotherAgent(MotherName, client), 1).childAgents;
    assert NatToString(1) == "1";
    assert ChildName(0) == "ChildAgent_1";
    assert children[0] == Agent("ChildAgent_1", client);
  }

  /**
   The count has no lower bound: a planning reply "0" or "-3", padded or not,
   spawns no child at all, so the delegation that follows makes no call.
   */
  lemma NonPositivePlanRunsNoChild(client: Client, w1: string, n: int, w2: string)
    requires n <= 0
    requires AllSpace(w1) && AllSpace(w2)
    ensures CountFromReply(w1 + IntToString(n) + w2) == n
    ensures SpawnChildAgents(NewMotherAgent(MotherName, client), CountFromReply(w1 + IntToString(n) + w2)).childAgents == []
  {
    IntToStringTrimmed(n);
    StripRemovesPadding(w1, IntToString(n), w2);
    ParseIntRoundTrip(n);
  }
}
