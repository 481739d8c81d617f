/**
 * The devflow plugin's knowledge-base approval hook: one hook guarding the
 * RAG Memory, Atlassian, GitLab and Google Workspace tools, dispatching each
 * guarded tool to the formatter of its family by the tool name's prefix.
 * Its Workspace formatter has no `update_drive_file` branch.
 */
module DevflowKbHook {
  import opened PyStrings
  import opened HookCommon
  import opened Formatters

  const IngestPrefix: string := "mcp__rag-memory__ingest_"
  const GitLabPrefix: string := "mcp__gitlab__"
  const WorkspacePrefix: string := "mcp__google-workspace__"

  const DeleteCollection: string := "mcp__rag-memory__delete_collection"
  const DeleteDocument: string := "mcp__rag-memory__delete_document"
  const DeleteIssue: string := "mcp__gitlab__delete_issue"
  const UpdateDriveFile: string := "mcp__google-workspace__update_drive_file"

  /** The tools this hook guards, with the name shown to the user. */
  const Protected: map<string, string> := map[
    "mcp__rag-memory__create_collection" := "Create Collection",
    DeleteCollection := "Delete Collection",
    "mcp__rag-memory__update_collection_metadata" := "Update Collection Metadata",
    "mcp__rag-memory__update_document" := "Update Document",
    DeleteDocument := "Delete Document",
    "mcp__rag-memory__manage_collection_link" := "Manage Collection Link",
    "mcp__rag-memory__ingest_text" := "Ingest Text",
    "mcp__rag-memory__ingest_url" := "Ingest URL",
    "mcp__rag-memory__ingest_file" := "Ingest File",
    "mcp__rag-memory__ingest_directory" := "Ingest Directory",
    "mcp__atlassian__createConfluencePage" := "Create Confluence Page",
    "mcp__atlassian__updateConfluencePage" := "Update Confluence Page",
    "mcp__atlassian__createConfluenceFooterComment" := "Add Confluence Comment",
    "mcp__atlassian__createConfluenceInlineComment" := "Add Confluence Inline Comment",
    "mcp__atlassian__createJiraIssue" := "Create Jira Issue",
    "mcp__atlassian__editJiraIssue" := "Edit Jira Issue",
    "mcp__atlassian__addCommentToJiraIssue" := "Add Jira Comment",
    "mcp__atlassian__transitionJiraIssue" := "Transition Jira Issue",
    "mcp__atlassian__addWorklogToJiraIssue" := "Add Jira Worklog",
    "mcp__gitlab__create_issue" := "Create GitLab Issue",
    "mcp__gitlab__update_issue" := "Update GitLab Issue",
    DeleteIssue := "Delete GitLab Issue",
    "mcp__gitlab__create_merge_request" := "Create GitLab Merge Request",
    "mcp__gitlab__update_merge_request" := "Update GitLab Merge Request",
    "mcp__gitlab__create_note" := "Add GitLab Comment",
    "mcp__google-workspace__create_doc" := "Create Google Doc",
    "mcp__google-workspace__modify_doc_text" := "Modify Google Doc",
    "mcp__google-workspace__create_drive_file" := "Create Drive File",
    UpdateDriveFile := "Update Drive File",
    "mcp__google-workspace__share_drive_file" := "Share Drive File"
  ]

  /** The guarded tools whose effect cannot be undone. */
  const Destructive: set<string> := {DeleteCollection, DeleteDocument, DeleteIssue}

  /** The formatter a tool name goes to: the first matching prefix, else the generic one. */
  function Route(toolName: string): Family
  {
    if StartsWith(toolName, IngestPrefix) then IngestFamily
    else if StartsWith(toolName, GitLabPrefix) then GitLabFamily
    else if StartsWith(toolName, WorkspacePrefix) then WorkspaceFamily
    else GenericFamily
  }

  /** The lines of the reason shown for a guarded tool, given its operation name and destructive flag. */
  function ReasonLines(toolName: string, name: string, destructive: bool, args: Args): seq<string>
  {
    match Route(toolName)
    case IngestFamily => IngestLines(name, toolName, args)
    case GitLabFamily => GitLabLines(name, toolName, destructive, args)
    case WorkspaceFamily => WorkspaceLines(name, toolName, args, false)
    case GenericFamily => GenericLines("", name, destructive, args)
  }

  /**
   * The hook: an envelope that does not decode, or a tool outside the table,
   * is allowed; a guarded tool is asked about with the formatted reason.
   * The decoder hands over `tool_input` as a dict (`DictOf`), each key once.
   */
  method Hook(request: Option<Invocation>) returns (verdict: Verdict)
    requires request.Some? ==> DistinctKeys(request.value.toolInput)
    ensures request.None? ==> verdict == Allow
    ensures request.Some? && request.value.toolName !in Protected ==> verdict == Allow
    ensures request.Some? && request.value.toolName in Protected ==>
              verdict == Ask(Join(ReasonLines(request.value.toolName, Protected[request.value.toolName],
                                              request.value.toolName in Destructive, request.value.toolInput), "\n"))
  {
    if request.None? {
      return Allow;
    }
    var toolName := request.value.toolName;
    var args := request.value.toolInput;
    if toolName !in Protected {
      return Allow;
    }
    var name := Protected[toolName];
    var isDestructive := toolName in Destructive;
    var message;
    if StartsWith(toolName, IngestPrefix) {
      message := FormatIngest(name, toolName, args);
    } else if StartsWith(toolName, GitLabPrefix) {
      message := FormatGitLab(name, toolName, isDestructive, args);
    } else if StartsWith(toolName, WorkspacePrefix) {
      message := FormatWorkspace(name, toolName, args, false);
    } else {
      message := FormatGeneric("", name, isDestructive, args);
    }
    verdict := Ask(message);
  }

  // ------------------------------------------------------------------
  // Properties
  // ------------------------------------------------------------------

  /** Every destructive tool is a guarded one. */
  lemma DestructiveProtected()
    ensures Destructive <= Protected.Keys
  {
  }

  /** No tool name starts with two of the dispatch prefixes. */
  lemma PrefixesDisjoint(toolName: string)
    ensures !(StartsWith(toolName, IngestPrefix) && StartsWith(toolName, GitLabPrefix))
    ensures !(StartsWith(toolName, IngestPrefix) && StartsWith(toolName, WorkspacePrefix))
    ensures !(StartsWith(toolName, GitLabPrefix) && StartsWith(toolName, WorkspacePrefix))
  {
    if StartsWith(toolName, IngestPrefix) {
      assert toolName[5] == 'r';
      DiffersAt(toolName, GitLabPrefix, 5);
      DiffersAt(toolName, WorkspacePrefix, 5);
    }
    if StartsWith(toolName, GitLabPrefix) {
      assert toolName[6] == 'i';
      DiffersAt(toolName, WorkspacePrefix, 6);
    }
  }

  /** Dispatch goes to a family exactly when the tool name carries that family's prefix. */
  lemma RouteByPrefix(toolName: string)
    ensures Route(toolName) == IngestFamily <==> StartsWith(toolName, IngestPrefix)
    ensures Route(toolName) == GitLabFamily <==> StartsWith(toolName, GitLabPrefix)
    ensures Route(toolName) == WorkspaceFamily <==> StartsWith(toolName, WorkspacePrefix)
    ensures Route(toolName) == GenericFamily <==>
              !StartsWith(toolName, IngestPrefix) && !StartsWith(toolName, GitLabPrefix)
              && !StartsWith(toolName, WorkspacePrefix)
  {
    PrefixesDisjoint(toolName);
  }

  /** The two RAG deletions go to the generic formatter, the GitLab one to the GitLab formatter. */
  lemma DestructiveRoutes()
    ensures Route(DeleteCollection) == GenericFamily && Route(DeleteDocument) == GenericFamily
    ensures Route(DeleteIssue) == GitLabFamily
  {
    DiffersAt(DeleteCollection, IngestPrefix, 17);
    DiffersAt(DeleteCollection, GitLabPrefix, 5);
    DiffersAt(DeleteCollection, WorkspacePrefix, 5);
    DiffersAt(DeleteDocument, IngestPrefix, 17);
    DiffersAt(DeleteDocument, GitLabPrefix, 5);
    DiffersAt(DeleteDocument, WorkspacePrefix, 5);
    DiffersAt(DeleteIssue, IngestPrefix, 5);
    PrefixOf(GitLabPrefix, "delete_issue");
  }

  /** Every operation name in the table starts with an ASCII letter. */
  lemma NamesPlain(toolName: string)
    requires toolName in Protected
    ensures Plain(Protected[toolName])
  {
  }

  /** The ingest and Workspace families serve no destructive tool. */
  lemma RichFamiliesNotDestructive(toolName: string)
    requires Route(toolName) == IngestFamily || Route(toolName) == WorkspaceFamily
    ensures toolName !in Destructive
  {
    DestructiveRoutes();
  }

  /** Each family's reason ends with the prompt and carries the footer exactly when destructive. */
  lemma FamilyFrame(toolName: string, name: string, destructive: bool, args: Args)
    requires Plain(name)
    requires Route(toolName) == IngestFamily || Route(toolName) == WorkspaceFamily ==> !destructive
    ensures var lines := ReasonLines(toolName, name, destructive, args);
      && |lines| >= 4 && lines[|lines| - 2..] == Closing
      && (Footer in lines <==> destructive)
  {
    match Route(toolName)
    case IngestFamily =>
      IngestFrame(name, toolName, args);
    case GitLabFamily =>
      GitLabDestructive(name, toolName, destructive, ReadGitLab(args));
    case WorkspaceFamily =>
      WorkspaceFrame(name, toolName, args, false);
    case GenericFamily =>
      assert "" + name == name;
      GenericLayout("", name, destructive, args);
      GenericDestructive("", name, destructive, args);
  }

  /**
   * Every guarded tool is asked about with a reason ending in a blank line and
   * "Approve?", and the "cannot be undone" footer appears exactly for the
   * destructive tools.
   */
  lemma ReasonFrame(toolName: string, name: string, args: Args)
    requires Plain(name)
    ensures var lines := ReasonLines(toolName, name, toolName in Destructive, args);
      && |lines| >= 4 && lines[|lines| - 2..] == Closing
      && (Footer in lines <==> toolName in Destructive)
      && EndsWith(Join(lines, "\n"), "\n\nApprove?")
  {
    var destructive := toolName in Destructive;
    if Route(toolName) == IngestFamily || Route(toolName) == WorkspaceFamily {
      RichFamiliesNotDestructive(toolName);
    }
    FamilyFrame(toolName, name, destructive, args);
    ReasonEndsWithPrompt(ReasonLines(toolName, name, destructive, args));
  }

  /** The GitLab and generic reasons open with the destructive banner exactly for the destructive tools. */
  lemma ReasonBanner(toolName: string, name: string, args: Args)
    requires Plain(name) && (Route(toolName) == GitLabFamily || Route(toolName) == GenericFamily)
    ensures ReasonLines(toolName, name, toolName in Destructive, args)[0] == Banner(name) <==> toolName in Destructive
  {
    var destructive := toolName in Destructive;
    if Route(toolName) == GitLabFamily {
      GitLabDestructive(name, toolName, destructive, ReadGitLab(args));
    } else {
      assert "" + name == name;
      GenericDestructive("", name, destructive, args);
    }
  }

  /** `update_drive_file` mentions none of the Workspace formatter's section names. */
  lemma UpdateDriveFileSections()
    ensures !Contains(UpdateDriveFile, "create_doc") && !Contains(UpdateDriveFile, "modify_doc")
    ensures !Contains(UpdateDriveFile, "create_drive_file") && !Contains(UpdateDriveFile, "share_drive_file")
  {
    NoCreate("create_doc");
    NoCreate("create_drive_file");
    NoPair(UpdateDriveFile, "modify_doc");
    NoPair(UpdateDriveFile, "share_drive_file");
  }

  lemma NoCreate(sub: string)
    requires |sub| >= 2 && sub[0] == 'c' && sub[1] == 'r'
    ensures !Contains(UpdateDriveFile, sub)
  {
    NoPair(UpdateDriveFile, sub);
  }

  /** `update_drive_file` is guarded, not destructive, and shown as "Update Drive File". */
  lemma UpdateDriveFileEntry()
    ensures UpdateDriveFile in Protected && Protected[UpdateDriveFile] == "Update Drive File"
    ensures UpdateDriveFile !in Destructive
  {
  }

  lemma UpdateDriveFileRoute()
    ensures Route(UpdateDriveFile) == WorkspaceFamily
  {
    PrefixOf(WorkspacePrefix, "update_drive_file");
    DiffersAt(UpdateDriveFile, IngestPrefix, 5);
    DiffersAt(UpdateDriveFile, GitLabPrefix, 6);
  }

  /** This copy has no `update_drive_file` branch: that tool's reason is only the header and the prompt. */
  lemma UpdateDriveFileHeaderOnly(args: Args)
    ensures ReasonLines(UpdateDriveFile, "Update Drive File", false, args)
            == ["Google Workspace: Update Drive File", "", "", "Approve?"]
  {
    UpdateDriveFileRoute();
    UpdateDriveFileSections();
    WorkspaceNoSection("Update Drive File", UpdateDriveFile, args, false);
    assert "Google Workspace: " + "Update Drive File" == "Google Workspace: Update Drive File";
    assert ReasonLines(UpdateDriveFile, "Update Drive File", false, args)
           == WorkspaceLines("Update Drive File", UpdateDriveFile, args, false);
  }
}
