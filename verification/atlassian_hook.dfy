/**
 * The Atlassian approval hook: guards the Confluence page and comment tools
 * and the Jira issue, comment, transition and worklog tools, listing every
 * argument through the generic formatter under the heading "Atlassian: ".
 * None of them is destructive.
 */
module AtlassianHook {
  import opened PyStrings
  import opened HookCommon
  import opened Formatters

  /** The tools this hook guards, with the name shown to the user. */
  const Protected: map<string, string> := map[
    "mcp__atlassian__createConfluencePage" := "Create Confluence Page",
    "mcp__atlassian__updateConfluencePage" := "Update Confluence Page",
    "mcp__atlassian__createConfluenceFooterComment" := "Add Confluence Comment",
    "mcp__atlassian__createConfluenceInlineComment" := "Add Confluence Inline Comment",
    "mcp__atlassian__createJiraIssue" := "Create Jira Issue",
    "mcp__atlassian__editJiraIssue" := "Edit Jira Issue",
    "mcp__atlassian__addCommentToJiraIssue" := "Add Jira Comment",
    "mcp__atlassian__transitionJiraIssue" := "Transition Jira Issue",
    "mcp__atlassian__addWorklogToJiraIssue" := "Add Jira Worklog"
  ]

  /** No Atlassian operation is destructive. */
  const Destructive: set<string> := {}

  const Heading: string := "Atlassian: "

  /** The lines of the reason shown for a guarded tool. */
  function ReasonLines(name: string, destructive: bool, args: Args): seq<string>
  {
    GenericLines(Heading, name, destructive, args)
  }

  /**
   * The hook: an envelope that does not decode, or a tool outside the table,
   * is allowed; a guarded tool is asked about with the formatted reason.
   * The decoder hands over `tool_input` as a dict (`DictOf`), each key once.
   */
  method Hook(request: Option<Invocation>) returns (verdict: Verdict)
    requires request.Some? ==> DistinctKeys(request.value.toolInput)
    ensures request.None? ==> verdict == Allow
    ensures request.Some? && request.value.toolName !in Protected ==> verdict == Allow
    ensures request.Some? && request.value.toolName in Protected ==>
              verdict == Ask(Join(ReasonLines(Protected[request.value.toolName],
                                              request.value.toolName in Destructive, request.value.toolInput), "\n"))
  {
    if request.None? {
      return Allow;
    }
    var toolName := request.value.toolName;
    var args := request.value.toolInput;
    if toolName !in Protected {
      return Allow;
    }
    var name := Protected[toolName];
    var isDestructive := toolName in Destructive;
    var message := FormatGeneric(Heading, name, isDestructive, args);
    verdict := Ask(message);
  }

  // ------------------------------------------------------------------
  // Properties
  // ------------------------------------------------------------------

  /**
   * Every reason opens with "Atlassian: " and the name, lists each argument
   * on its own line in the order given, never carries the "cannot be undone"
   * footer, and ends with a blank line and "Approve?".
   */
  lemma ReasonFrame(toolName: string, name: string, args: Args)
    ensures var lines := ReasonLines(name, toolName in Destructive, args);
      && |lines| == 5 + |args|
      && lines[0] == "Atlassian: " + name && lines[2] == "Parameters:"
      && (forall k | 0 <= k < |args| :: lines[3 + k] == ParamLine(args[k]))
      && Footer !in lines
      && EndsWith(Join(lines, "\n"), "\n\nApprove?")
  {
    var lines := ReasonLines(name, false, args);
    GenericLayout(Heading, name, false, args);
    assert Plain(Heading + name);
    GenericDestructive(Heading, name, false, args);
    ReasonEndsWithPrompt(lines);
  }
}
