/**
 * The Google Workspace approval hook: guards document and Drive file tools,
 * showing the fields of the branch the tool name selects.  None of them is
 * destructive.
 */
module GoogleWorkspaceHook {
  import opened PyStrings
  import opened HookCommon
  import opened Formatters

  const CreateDoc: string := "mcp__google-workspace__create_doc"
  const ModifyDocText: string := "mcp__google-workspace__modify_doc_text"
  const CreateDriveFile: string := "mcp__google-workspace__create_drive_file"
  const UpdateDriveFile: string := "mcp__google-workspace__update_drive_file"
  const ShareDriveFile: string := "mcp__google-workspace__share_drive_file"

  /** The tools this hook guards, with the name shown to the user. */
  const Protected: map<string, string> := map[
    CreateDoc := "Create Google Doc",
    ModifyDocText := "Modify Google Doc",
    CreateDriveFile := "Create Drive File",
    UpdateDriveFile := "Update Drive File",
    ShareDriveFile := "Share Drive File"
  ]

  /** No Workspace operation is destructive. */
  const Destructive: set<string> := {}

  /**
   * The hook: an envelope that does not decode, or a tool outside the table,
   * is allowed; a guarded tool is asked about with the formatted reason.
   * The decoder hands over `tool_input` as a dict (`DictOf`), each key once.
   */
  method Hook(request: Option<Invocation>) returns (verdict: Verdict)
    requires request.Some? ==> DistinctKeys(request.value.toolInput)
    ensures request.None? ==> verdict == Allow
    ensures request.Some? && request.value.toolName !in Protected ==> verdict == Allow
    ensures request.Some? && request.value.toolName in Protected ==>
              verdict == Ask(Join(WorkspaceLines(Protected[request.value.toolName], request.value.toolName,
                                                 request.value.toolInput, true), "\n"))
  {
    if request.None? {
      return Allow;
    }
    var toolName := request.value.toolName;
    var args := request.value.toolInput;
    if toolName !in Protected {
      return Allow;
    }
    var name := Protected[toolName];
    var message := FormatWorkspace(name, toolName, args, true);
    verdict := Ask(message);
  }

  // ------------------------------------------------------------------
  // Properties
  // ------------------------------------------------------------------

  /**
   * Every reason opens with "Google Workspace: " and the name, never carries
   * the "cannot be undone" footer, and ends with a blank line and "Approve?".
   */
  lemma ReasonFrame(toolName: string, name: string, args: Args)
    ensures var lines := WorkspaceLines(name, toolName, args, true);
      && lines[0] == "Google Workspace: " + name
      && Footer !in lines
      && EndsWith(Join(lines, "\n"), "\n\nApprove?")
  {
    WorkspaceFrame(name, toolName, args, true);
    ReasonEndsWithPrompt(WorkspaceLines(name, toolName, args, true));
  }

  /** `create_doc` shows the title. */
  lemma CreateDocBranch(args: Args)
    ensures WorkspaceBody(CreateDoc, args, true) == ["Title: " + Show(Get(args, "title", Str("")))]
  {
    assert OccursAt(CreateDoc, "create_doc", 23);
  }

  /** `modify_doc_text` takes the `modify_doc` branch. */
  lemma ModifyDocTextBranch(args: Args)
    ensures WorkspaceBody(ModifyDocText, args, true) == ModifyDocLines(args)
  {
    NoPair(ModifyDocText, "create_doc");
    assert OccursAt(ModifyDocText, "modify_doc", 23);
  }

  /** `create_drive_file` takes its own branch. */
  lemma CreateDriveFileBranch(args: Args)
    ensures WorkspaceBody(CreateDriveFile, args, true) == CreateDriveFileLines(args)
  {
    NotCreateDoc();
    NotModify(CreateDriveFile);
    assert OccursAt(CreateDriveFile, "create_drive_file", 23);
  }

  /** The create-file tool name does not mention `create_doc`: no 'c' is followed by 'c' eight places on. */
  lemma NotCreateDoc()
    ensures !Contains(CreateDriveFile, "create_doc")
  {
    NoPairAt(CreateDriveFile, "create_doc", 8);
  }

  /** `update_drive_file` shows the file id cut to 20 characters. */
  lemma UpdateDriveFileBranch(args: Args)
    ensures WorkspaceBody(UpdateDriveFile, args, true) == [FileLine(Get(args, "fileId", Str("")))]
  {
    NotCreate(UpdateDriveFile);
    NotModify(UpdateDriveFile);
    assert OccursAt(UpdateDriveFile, "update_drive_file", 23);
  }

  /** `share_drive_file` shows the file id, the e-mail and the role. */
  lemma ShareDriveFileBranch(args: Args)
    ensures WorkspaceBody(ShareDriveFile, args, true) == ShareLines(args)
  {
    NotCreate(ShareDriveFile);
    NotModify(ShareDriveFile);
    NotUpdate();
    assert OccursAt(ShareDriveFile, "share_drive_file", 23);
  }

  /** The update and share tool names mention neither creation branch. */
  lemma NotCreate(toolName: string)
    requires toolName == UpdateDriveFile || toolName == ShareDriveFile
    ensures !Contains(toolName, "create_doc") && !Contains(toolName, "create_drive_file")
  {
    NoPair(toolName, "cr");
    assert "cr" + "eate_doc" == "create_doc";
    NotExtended(toolName, "cr", "eate_doc");
    assert "cr" + "eate_drive_file" == "create_drive_file";
    NotExtended(toolName, "cr", "eate_drive_file");
  }

  /** The Drive file tool names do not mention `modify_doc`: they have no 'y'. */
  lemma NotModify(toolName: string)
    requires toolName == CreateDriveFile || toolName == UpdateDriveFile || toolName == ShareDriveFile
    ensures !Contains(toolName, "modify_doc")
  {
    NoChar(toolName, "modify_doc", 5);
  }

  /** The share tool name does not mention `update_drive_file`: it has no 'u'. */
  lemma NotUpdate()
    ensures !Contains(ShareDriveFile, "update_drive_file")
  {
    NoChar(ShareDriveFile, "update_drive_file", 0);
  }
}
