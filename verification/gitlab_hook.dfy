/**
 * The GitLab approval hook: guards issue, merge request and comment tools,
 * showing the project and the fields of the section the tool name mentions.
 */
module GitLabHook {
  import opened PyStrings
  import opened HookCommon
  import opened Formatters

  const CreateIssue: string := "mcp__gitlab__create_issue"
  const UpdateIssue: string := "mcp__gitlab__update_issue"
  const DeleteIssue: string := "mcp__gitlab__delete_issue"
  const CreateMergeRequest: string := "mcp__gitlab__create_merge_request"
  const UpdateMergeRequest: string := "mcp__gitlab__update_merge_request"
  const CreateNote: string := "mcp__gitlab__create_note"

  /** The tools this hook guards, with the name shown to the user. */
  const Protected: map<string, string> := map[
    CreateIssue := "Create GitLab Issue",
    UpdateIssue := "Update GitLab Issue",
    DeleteIssue := "Delete GitLab Issue",
    CreateMergeRequest := "Create GitLab Merge Request",
    UpdateMergeRequest := "Update GitLab Merge Request",
    CreateNote := "Add GitLab Comment"
  ]

  /** Deleting an issue is the one operation that cannot be undone. */
  const Destructive: set<string> := {DeleteIssue}

  /**
   * The hook: an envelope that does not decode, or a tool outside the table,
   * is allowed; a guarded tool is asked about with the formatted reason.
   * The decoder hands over `tool_input` as a dict (`DictOf`), each key once.
   */
  method Hook(request: Option<Invocation>) returns (verdict: Verdict)
    requires request.Some? ==> DistinctKeys(request.value.toolInput)
    ensures request.None? ==> verdict == Allow
    ensures request.Some? && request.value.toolName !in Protected ==> verdict == Allow
    ensures request.Some? && request.value.toolName in Protected ==>
              verdict == Ask(Join(GitLabLines(Protected[request.value.toolName], request.value.toolName,
                                              request.value.toolName in Destructive, request.value.toolInput), "\n"))
  {
    if request.None? {
      return Allow;
    }
    var toolName := request.value.toolName;
    var args := request.value.toolInput;
    if toolName !in Protected {
      return Allow;
    }
    var name := Protected[toolName];
    var isDestructive := toolName in Destructive;
    var message := FormatGitLab(name, toolName, isDestructive, args);
    verdict := Ask(message);
  }

  // ------------------------------------------------------------------
  // Properties
  // ------------------------------------------------------------------

  /** Every destructive tool is a guarded one. */
  lemma DestructiveProtected()
    ensures Destructive <= Protected.Keys
  {
  }

  /**
   * The reason opens with the banner for `delete_issue` and with "GitLab: "
   * and the name for every other tool, carries the "cannot be undone" footer
   * exactly for `delete_issue`, and ends with a blank line and "Approve?".
   */
  lemma ReasonFrame(toolName: string, name: string, args: Args)
    ensures var lines := GitLabLines(name, toolName, toolName in Destructive, args);
      && |lines| >= 4 && lines[|lines| - 2..] == Closing
      && lines[0] == (if toolName == DeleteIssue then Banner(name) else "GitLab: " + name)
      && (Footer in lines <==> toolName == DeleteIssue)
      && EndsWith(Join(lines, "\n"), "\n\nApprove?")
  {
    var lines := GitLabLines(name, toolName, toolName in Destructive, args);
    GitLabDestructive(name, toolName, toolName in Destructive, ReadGitLab(args));
    ReasonEndsWithPrompt(lines);
  }

  /** The three issue tools show the issue section only. */
  lemma IssueToolsSections(toolName: string, f: GitLabFields)
    requires toolName == CreateIssue || toolName == UpdateIssue || toolName == DeleteIssue
    ensures SectionsOf(toolName, f) == IssueOf(f.issueIid, f.title)
  {
    assert OccursAt(toolName, "issue", |toolName| - 5);
    NoPair(toolName, "merge_request");
    NoPair(toolName, "note");
  }

  /** The two merge request tools show the merge request section only. */
  lemma MergeRequestToolsSections(toolName: string, f: GitLabFields)
    requires toolName == CreateMergeRequest || toolName == UpdateMergeRequest
    ensures SectionsOf(toolName, f) == MergeRequestOf(f.mrIid, f.title, f.source, f.target)
  {
    assert OccursAt(toolName, "merge_request", |toolName| - 13);
    NoPair(toolName, "issue");
    NoPair(toolName, "note");
  }

  /** The comment tool shows the comment preview only. */
  lemma NoteToolSections(f: GitLabFields)
    ensures SectionsOf(CreateNote, f) == NoteOf(f.body)
  {
    assert OccursAt(CreateNote, "note", 20);
    NoPair(CreateNote, "issue");
    NoPair(CreateNote, "merge_request");
  }
}
