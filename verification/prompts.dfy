/**
 `PromptManager`: assembles a prompt from a fixed preamble, an optional role
 block chosen by the role string, and the line "<agent> doit <task>".
 */
module Prompts {
  import opened Wrappers

  /** The manager holds its preamble and nothing else. */
  datatype PromptManager = PromptManager(prePrompt: string)

  const RoleOpen: string := "[Rôle: "
  const RoleClose: string := "]\n"

  /** What the role "MotherAgent" asks for: well-formed JSON such as {"agentCount": 3}. */
  const MotherInstruction: string :=
    "Agent mère - veille à renvoyer des réponses JSON correctement formatées, par exemple: {\"agentCount\": 3}"

  /** What the role "Agent" asks for: a modular, clear answer. */
  const AgentInstruction: string := "Agent - fournir une réponse modulaire et claire"

  /** The block inserted for the role "MotherAgent". */
  const MotherDirective: string := RoleOpen + MotherInstruction + RoleClose

  /** The block inserted for the role "Agent". */
  const AgentDirective: string := RoleOpen + AgentInstruction + RoleClose

  /** Python truthiness of the optional role: `None` and "" are both false. */
  predicate HasRole(role: Option<string>) {
    role.Some? && role.value != ""
  }

  /** A bracketed role block: "[Rôle: ", some text, "]\n". */
  predicate IsRoleBlock(line: string) {
    |line| >= |RoleOpen| + |RoleClose|
    && line[..|RoleOpen|] == RoleOpen
    && line[|line| - |RoleClose|..] == RoleClose
  }

  /** The separator between the preamble and the rest. */
  function Preamble(pm: PromptManager): string {
    pm.prePrompt + "\n\n"
  }

  /** The closing line that names the agent and the task. */
  function TaskLine(agentName: string, taskDescription: string): string {
    agentName + " doit " + taskDescription
  }

  /** The one block, possibly empty, that the role contributes. */
  function RoleLine(role: Option<string>): (line: string)
    ensures line == [] <==> !HasRole(role)
    ensures HasRole(role) ==> IsRoleBlock(line)
    ensures role == Some("MotherAgent") ==> line == MotherDirective
    ensures role == Some("Agent") ==> line == AgentDirective
    ensures HasRole(role) && role.value != "MotherAgent" && role.value != "Agent" ==>
              line == RoleOpen + role.value + RoleClose
  {
    if !HasRole(role) then ""
    else if role.value == "MotherAgent" then MotherDirective
    else if role.value == "Agent" then AgentDirective
    else RoleOpen + role.value + RoleClose
  }

  /**
   `buildPrompt`: the preamble and a blank line, then the role's block, then
   the task line. The result splits into exactly those three parts.
   */
  function BuildPrompt(pm: PromptManager, agentName: string, taskDescription: string, role: Option<string>): (r: string)
    ensures |r| == |pm.prePrompt| + 2 + |RoleLine(role)| + |TaskLine(agentName, taskDescription)|
    ensures r[..|pm.prePrompt| + 2] == pm.prePrompt + "\n\n"
    ensures r[|r| - |TaskLine(agentName, taskDescription)|..] == TaskLine(agentName, taskDescription)
    ensures r[|pm.prePrompt| + 2..|r| - |TaskLine(agentName, taskDescription)|] == RoleLine(role)
  {
    var r := Preamble(pm) + RoleLine(role) + TaskLine(agentName, taskDescription);
    assert r[..|pm.prePrompt| + 2] == Preamble(pm);
    r
  }

  /** Without a role (None or ""), the prompt is just the preamble and the task line. */
  lemma NoRoleGivesBasePrompt(pm: PromptManager, agentName: string, taskDescription: string, role: Option<string>)
    requires !HasRole(role)
    ensures BuildPrompt(pm, agentName, taskDescription, role) == pm.prePrompt + "\n\n" + TaskLine(agentName, taskDescription)
  {
  }

  /**
   Two roles give the same prompt exactly when they contribute the same block:
   the prompt determines the role block, and nothing but the block depends on the role.
   */
  lemma SamePromptIffSameRoleLine(pm: PromptManager, agentName: string, taskDescription: string,
                                  role1: Option<string>, role2: Option<string>)
    ensures BuildPrompt(pm, agentName, taskDescription, role1) == BuildPrompt(pm, agentName, taskDescription, role2)
            <==> RoleLine(role1) == RoleLine(role2)
  {
  }

  /** Distinct verbatim roles are told apart in the prompt. */
  lemma VerbatimRolesDistinguished(pm: PromptManager, agentName: string, taskDescription: string, a: string, b: string)
    requires a != "" && a != "MotherAgent" && a != "Agent"
    requires b != "" && b != "MotherAgent" && b != "Agent"
    requires a != b
    ensures BuildPrompt(pm, agentName, taskDescription, Some(a)) != BuildPrompt(pm, agentName, taskDescription, Some(b))
  {
    var la := RoleLine(Some(a));
    var lb := RoleLine(Some(b));
    assert a == la[|RoleOpen|..|la| - |RoleClose|];
    assert b == lb[|RoleOpen|..|lb| - |RoleClose|];
    SamePromptIffSameRoleLine(pm, agentName, taskDescription, Some(a), Some(b));
  }

  /**
   The two named roles are not the only way to their blocks: the verbatim role
   that spells out a directive's instruction yields the very same prompt.
   */
  lemma NamedRolesHaveVerbatimAliases(pm: PromptManager, agentName: string, taskDescription: string)
    ensures BuildPrompt(pm, agentName, taskDescription, Some("Agent"))
         == BuildPrompt(pm, agentName, taskDescription, Some(AgentInstruction))
    ensures BuildPrompt(pm, agentName, taskDescription, Some("MotherAgent"))
         == BuildPrompt(pm, agentName, taskDescription, Some(MotherInstruction))
  {
  }
}
