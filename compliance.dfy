/**
 * The compliance gate `check_command_compliance`
 * (robot_db/python/typeDB_main/auxiliary.py:551-564) and the `use_tool`
 * choice that feeds it (robot_db/python/typeDB_main/inquirer.py:155-187).
 *
 * The goal lists are store answers and arrive here as plain sequences.
 */
module Compliance {
  import opened Wrappers
  import opened Text

  /** How a call of `check_command_compliance` ends. */
  datatype Verdict =
    | RequiresTool     // `use_tool` set: reported compliant without any check
    | Compliant        // some goal-list item contains the element or its class
    | NotCompliant     // `ComplianceError` is raised

  /** Some item of the goal list holds `s` as a substring (`bool(list(filter(lambda item: s in item, g)))`). */
  predicate AnyContains(goals: seq<string>, s: string) {
    exists i :: 0 <= i < |goals| && Contains(goals[i], s)
  }

  /** `check_command_compliance(c, e, use_tool, s_class, g_list)` with `e` and `s_class` already turned into text. */
  function CheckCommandCompliance(element: string, useTool: bool, superclass: string, goals: seq<string>): (v: Verdict)
    ensures useTool <==> v == RequiresTool
    ensures !useTool ==> (v == NotCompliant <==> !AnyContains(goals, element) && !AnyContains(goals, superclass))
  {
    if useTool then RequiresTool
    else if AnyContains(goals, element) || AnyContains(goals, superclass) then Compliant
    else NotCompliant
  }

  /** With an empty goal list the gate raises unless a tool is in use. */
  lemma EmptyGoalsRaise(element: string, superclass: string)
    ensures CheckCommandCompliance(element, false, superclass, []) == NotCompliant
  {
  }

  /** An item equal to the element, or one that merely contains it, makes the command compliant. */
  lemma {:induction false} ContainingItemComplies(element: string, superclass: string, goals: seq<string>, i: nat)
    requires i < |goals|
    requires Contains(goals[i], element)
    ensures CheckCommandCompliance(element, false, superclass, goals) == Compliant
  {
    assert AnyContains(goals, element);
  }

  /** Adding goals never turns a compliant command into a raised error. */
  lemma {:induction false} MoreGoalsStayCompliant(element: string, useTool: bool, superclass: string, goals: seq<string>, extra: seq<string>)
    requires CheckCommandCompliance(element, useTool, superclass, goals) != NotCompliant
    ensures CheckCommandCompliance(element, useTool, superclass, goals + extra) == CheckCommandCompliance(element, useTool, superclass, goals)
  {
    if !useTool {
      if AnyContains(goals, element) {
        var i :| 0 <= i < |goals| && Contains(goals[i], element);
        assert (goals + extra)[i] == goals[i];
      } else {
        var i :| 0 <= i < |goals| && Contains(goals[i], superclass);
        assert (goals + extra)[i] == goals[i];
      }
    }
  }

  /**
   * The `use_tool` flag of `command_line`: with a command it is `'function' in
   * command_list` (list membership, not substring); without one it is never
   * assigned (`None` here).
   */
  function UseTool(command: Option<string>, commandGoals: seq<string>): (u: Option<bool>)
    ensures u.Some? <==> command.Some?
    ensures u == Some(true) <==> command.Some? && exists i :: 0 <= i < |commandGoals| && commandGoals[i] == "function"
  {
    if command.None? then None
    else Some("function" in commandGoals)
  }

  /**
   * How the element inquiry of `command_line` reaches the gate in the attribute
   * branch of `build_question`. Without a command, `command_type` (bound only
   * with a command) is read unbound by `inquiry_element` before the gate, and
   * the inquiry fails there (`UnboundCommandType`); `use_tool` is unbound too,
   * but the gate is never reached.
   */
  datatype GateOutcome = Gate(verdict: Verdict) | UnboundCommandType

  /** `check_command_compliance(command, element, use_tool, superclass, g_list)` as called from `build_question`. */
  function AttributeGate(command: Option<string>, commandGoals: seq<string>, element: string, superclass: string, goals: seq<string>): (g: GateOutcome)
    ensures g == UnboundCommandType <==> command.None?
    ensures g.Gate? ==> g.verdict == CheckCommandCompliance(element, UseTool(command, commandGoals).value, superclass, goals)
  {
    match UseTool(command, commandGoals)
    case None => UnboundCommandType
    case Some(u) => Gate(CheckCommandCompliance(element, u, superclass, goals))
  }

  /** A tool command passes the gate whatever the goal list; a goal named `function` only as a substring does not count. */
  lemma ToolCommandPasses(command: string, commandGoals: seq<string>, element: string, superclass: string, goals: seq<string>)
    requires "function" in commandGoals
    ensures AttributeGate(Some(command), commandGoals, element, superclass, goals) == Gate(RequiresTool)
  {
  }

  /** A command whose goal list only has `function` inside a longer word is checked against the goals. */
  lemma SubstringIsNotTool(command: string, element: string, superclass: string)
    ensures AttributeGate(Some(command), ["functional"], element, superclass, []) == Gate(NotCompliant)
  {
    assert "functional" != "function";
  }
}
