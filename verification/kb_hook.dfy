/**
 * The knowledge-base approval hook: guards the RAG Memory and Atlassian
 * tools, sending the RAG ingest tools to the ingest formatter and every other
 * guarded tool to the generic formatter, whose plain header is the bare
 * operation name.
 */
module KbHook {
  import opened PyStrings
  import opened HookCommon
  import opened Formatters

  const IngestPrefix: string := "mcp__rag-memory__ingest_"

  const DeleteCollection: string := "mcp__rag-memory__delete_collection"
  const DeleteDocument: string := "mcp__rag-memory__delete_document"

  /** The tools this hook guards, with the name shown to the user. */
  const Protected: map<string, string> := map[
    "mcp__rag-memory__create_collection" := "Create Collection",
    DeleteCollection := "Delete Collection",
    "mcp__rag-memory__update_collection_metadata" := "Update Collection Metadata",
    "mcp__rag-memory__update_document" := "Update Document",
    DeleteDocument := "Delete Document",
    "mcp__rag-memory__manage_collection_link" := "Manage Collection Link",
    "mcp__rag-memory__ingest_text" := "Ingest Text",
    "mcp__rag-memory__ingest_url" := "Ingest URL",
    "mcp__rag-memory__ingest_file" := "Ingest File",
    "mcp__rag-memory__ingest_directory" := "Ingest Directory",
    "mcp__atlassian__createConfluencePage" := "Create Confluence Page",
    "mcp__atlassian__updateConfluencePage" := "Update Confluence Page",
    "mcp__atlassian__createConfluenceFooterComment" := "Add Confluence Comment",
    "mcp__atlassian__createConfluenceInlineComment" := "Add Confluence Inline Comment",
    "mcp__atlassian__createJiraIssue" := "Create Jira Issue",
    "mcp__atlassian__editJiraIssue" := "Edit Jira Issue",
    "mcp__atlassian__addCommentToJiraIssue" := "Add Jira Comment",
    "mcp__atlassian__transitionJiraIssue" := "Transition Jira Issue",
    "mcp__atlassian__addWorklogToJiraIssue" := "Add Jira Worklog"
  ]

  /** The guarded tools whose effect cannot be undone. */
  const Destructive: set<string> := {DeleteCollection, DeleteDocument}

  /** The formatter a tool name goes to: ingest for the ingest prefix, else the generic one. */
  function Route(toolName: string): Family
  {
    if StartsWith(toolName, IngestPrefix) then IngestFamily else GenericFamily
  }

  /** The lines of the reason shown for a guarded tool, given its operation name and destructive flag. */
  function ReasonLines(toolName: string, name: string, destructive: bool, args: Args): seq<string>
  {
    if Route(toolName) == IngestFamily then IngestLines(name, toolName, args)
    else GenericLines("", name, destructive, args)
  }

  /**
   * The hook: an envelope that does not decode, or a tool outside the table,
   * is allowed; a guarded tool is asked about with the formatted reason.
   * The decoder hands over `tool_input` as a dict (`DictOf`), each key once.
   */
  method Hook(request: Option<Invocation>) returns (verdict: Verdict)
    requires request.Some? ==> DistinctKeys(request.value.toolInput)
    ensures request.None? ==> verdict == Allow
    ensures request.Some? && request.value.toolName !in Protected ==> verdict == Allow
    ensures request.Some? && request.value.toolName in Protected ==>
              verdict == Ask(Join(ReasonLines(request.value.toolName, Protected[request.value.toolName],
                                              request.value.toolName in Destructive, request.value.toolInput), "\n"))
  {
    if request.None? {
      return Allow;
    }
    var toolName := request.value.toolName;
    var args := request.value.toolInput;
    if toolName !in Protected {
      return Allow;
    }
    var name := Protected[toolName];
    var isDestructive := toolName in Destructive;
    var message;
    if StartsWith(toolName, IngestPrefix) {
      message := FormatIngest(name, toolName, args);
    } else {
      message := FormatGeneric("", name, isDestructive, args);
    }
    verdict := Ask(message);
  }

  // ------------------------------------------------------------------
  // Properties
  // ------------------------------------------------------------------

  /** Every destructive tool is a guarded one. */
  lemma DestructiveProtected()
    ensures Destructive <= Protected.Keys
  {
  }

  /** The two deletions go to the generic formatter. */
  lemma DestructiveRoutes()
    ensures Route(DeleteCollection) == GenericFamily && Route(DeleteDocument) == GenericFamily
  {
    DiffersAt(DeleteCollection, IngestPrefix, 17);
    DiffersAt(DeleteDocument, IngestPrefix, 17);
  }

  /** Every operation name in the table starts with an ASCII letter. */
  lemma NamesPlain(toolName: string)
    requires toolName in Protected
    ensures Plain(Protected[toolName])
  {
  }

  /**
   * A guarded tool's reason opens with "RAG Memory: " and the name for an
   * ingest tool, otherwise with the banner when destructive and the bare name
   * when not; it ends with a blank line and "Approve?", and carries the
   * "cannot be undone" footer exactly for the destructive tools.
   */
  lemma ReasonFrame(toolName: string, name: string, args: Args)
    requires Plain(name)
    ensures var lines := ReasonLines(toolName, name, toolName in Destructive, args);
      && |lines| >= 4 && lines[|lines| - 2..] == Closing
      && (Route(toolName) == IngestFamily ==> lines[0] == "RAG Memory: " + name)
      && (Route(toolName) == GenericFamily ==>
            lines[0] == (if toolName in Destructive then Banner(name) else name))
      && (Footer in lines <==> toolName in Destructive)
      && EndsWith(Join(lines, "\n"), "\n\nApprove?")
  {
    var destructive := toolName in Destructive;
    var lines := ReasonLines(toolName, name, destructive, args);
    DestructiveRoutes();
    if Route(toolName) == IngestFamily {
      assert !destructive;
      IngestFrame(name, toolName, args);
    } else {
      assert "" + name == name;
      GenericLayout("", name, destructive, args);
      GenericDestructive("", name, destructive, args);
    }
    ReasonEndsWithPrompt(lines);
  }
}
