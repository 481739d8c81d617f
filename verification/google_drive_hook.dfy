/**
 * The Google Drive approval hook: asks before a file is uploaded or a folder
 * is created, showing the local path, the chosen name and the target folder.
 */
module GoogleDriveHook {
  import opened PyStrings
  import opened HookCommon

  const UploadTool: string := "mcp__google-drive__upload_file"
  const CreateFolderTool: string := "mcp__google-drive__create_folder"

  /** The tools this hook guards, with the name shown to the user. */
  const Protected: map<string, string> := map[
    UploadTool := "Upload File to Google Drive",
    CreateFolderTool := "Create Google Drive Folder"
  ]

  /** No Drive operation is destructive. */
  const Destructive: set<string> := {}

  /** The upload section: the local path always, the name and the folder id (cut to 20 characters) when truthy. */
  function UploadOf(localPath: Value, folderId: Value, fileName: Value): seq<string>
  {
    ["File: " + Show(localPath)]
    + (if Truthy(fileName) then ["Name: " + Show(fileName)] else [])
    + (if Truthy(folderId) then ["Folder: " + Truncate(AsText(folderId), 20)] else [])
  }

  /** The folder section: the folder name as given, and the parent id (cut to 20 characters) when truthy. */
  function CreateFolderOf(folderName: Value, parent: Value): seq<string>
  {
    ["Folder: " + Show(folderName)]
    + (if Truthy(parent) then ["Parent: " + Truncate(AsText(parent), 20)] else [])
  }

  function DriveBody(toolName: string, args: Args): seq<string>
  {
    if Contains(toolName, "upload_file") then
      UploadOf(Get(args, "local_path", Str("")), Get(args, "folder_id", Str("")), Get(args, "file_name", Str("")))
    else if Contains(toolName, "create_folder") then
      CreateFolderOf(Get(args, "folder_name", Str("")), Get(args, "parent_folder_id", Str("")))
    else []
  }

  function DriveHead(name: string): seq<string>
  {
    ["Google Drive: " + name, ""]
  }

  /** The lines of the reason, before they are joined with newlines. */
  function DriveLines(name: string, toolName: string, args: Args): seq<string>
  {
    DriveHead(name) + DriveBody(toolName, args) + Closing
  }

  method FormatDrive(name: string, toolName: string, args: Args) returns (message: string)
    ensures message == Join(DriveLines(name, toolName, args), "\n")
  {
    var lines: seq<string> := [];
    lines := lines + ["Google Drive: " + name];
    lines := lines + [""];
    ghost var head := lines;
    assert head == DriveHead(name);
    if Contains(toolName, "upload_file") {
      lines := AppendUploadLines(lines, args);
    } else if Contains(toolName, "create_folder") {
      lines := AppendCreateFolderLines(lines, args);
    }
    assert lines == head + DriveBody(toolName, args);
    lines := lines + [""];
    lines := lines + ["Approve?"];
    assert lines == head + DriveBody(toolName, args) + Closing;
    message := Join(lines, "\n");
  }

  /** The upload section, appended to `lines`. */
  method AppendUploadLines(lines: seq<string>, args: Args) returns (extended: seq<string>)
    ensures extended == lines + UploadOf(Get(args, "local_path", Str("")), Get(args, "folder_id", Str("")),
                                         Get(args, "file_name", Str("")))
  {
    var localPath := Get(args, "local_path", Str(""));
    var folderId := Get(args, "folder_id", Str(""));
    var fileName := Get(args, "file_name", Str(""));
    extended := lines + ["File: " + Show(localPath)];
    if Truthy(fileName) {
      extended := extended + ["Name: " + Show(fileName)];
    }
    if Truthy(folderId) {
      extended := extended + ["Folder: " + Truncate(AsText(folderId), 20)];
    }
  }

  /** The folder section, appended to `lines`. */
  method AppendCreateFolderLines(lines: seq<string>, args: Args) returns (extended: seq<string>)
    ensures extended == lines + CreateFolderOf(Get(args, "folder_name", Str("")), Get(args, "parent_folder_id", Str("")))
  {
    var folderName := Get(args, "folder_name", Str(""));
    var parent := Get(args, "parent_folder_id", Str(""));
    extended := lines + ["Folder: " + Show(folderName)];
    if Truthy(parent) {
      extended := extended + ["Parent: " + Truncate(AsText(parent), 20)];
    }
  }

  /**
   * The hook: an envelope that does not decode, or a tool outside the table,
   * is allowed; a guarded tool is asked about with the formatted reason.
   * The decoder hands over `tool_input` as a dict (`DictOf`), each key once.
   */
  method Hook(request: Option<Invocation>) returns (verdict: Verdict)
    requires request.Some? ==> DistinctKeys(request.value.toolInput)
    ensures request.None? ==> verdict == Allow
    ensures request.Some? && request.value.toolName !in Protected ==> verdict == Allow
    ensures request.Some? && request.value.toolName in Protected ==>
              verdict == Ask(Join(DriveLines(Protected[request.value.toolName], request.value.toolName,
                                             request.value.toolInput), "\n"))
  {
    if request.None? {
      return Allow;
    }
    var toolName := request.value.toolName;
    var args := request.value.toolInput;
    if toolName !in Protected {
      return Allow;
    }
    var name := Protected[toolName];
    var message := FormatDrive(name, toolName, args);
    verdict := Ask(message);
  }

  // ------------------------------------------------------------------
  // Properties
  // ------------------------------------------------------------------

  /** No Drive body line is the footer. */
  lemma DriveBodyNoFooter(toolName: string, args: Args)
    ensures Footer !in DriveBody(toolName, args)
  {
    var body := DriveBody(toolName, args);
    assert NoLineLeads(body, '\U{26A0}');
    assert Footer[0] == '\U{26A0}';
    NoLineLeadsNoPrefix(body, Footer);
    if Footer in body {
      LineHasLine(body, Footer);
    }
  }

  /** Every Drive reason names the operation, ends with the prompt and never carries the footer. */
  lemma DriveFrame(name: string, toolName: string, args: Args)
    ensures var lines := DriveLines(name, toolName, args);
      && |lines| >= 4 && lines[0] == "Google Drive: " + name
      && lines[|lines| - 2..] == Closing
      && Footer !in lines
      && EndsWith(Join(lines, "\n"), "\n\nApprove?")
  {
    var lines := DriveLines(name, toolName, args);
    DriveBodyNoFooter(toolName, args);
    assert ("Google Drive: " + name)[0] != Footer[0];
    assert lines[|lines| - 2..] == Closing;
    ReasonEndsWithPrompt(lines);
  }

  /** A line that does not start like the header or the prompt comes from the body. */
  lemma DriveHasLine(name: string, toolName: string, args: Args, prefix: string)
    requires |prefix| > 0 && prefix[0] != 'G' && prefix[0] != 'A'
    ensures HasLine(DriveLines(name, toolName, args), prefix) <==> HasLine(DriveBody(toolName, args), prefix)
  {
    var head := DriveHead(name);
    assert NoLineLeads(head, prefix[0]);
    NoLineLeadsNoPrefix(head, prefix);
    assert NoLineLeads(Closing, prefix[0]);
    NoLineLeadsNoPrefix(Closing, prefix);
    HasLineConcat(head, DriveBody(toolName, args), prefix);
    HasLineConcat(head + DriveBody(toolName, args), Closing, prefix);
  }

  lemma UploadOfLines(localPath: Value, folderId: Value, fileName: Value)
    ensures var lines := UploadOf(localPath, folderId, fileName);
      && lines[0] == "File: " + Show(localPath)
      && (HasLine(lines, "Name: ") <==> Truthy(fileName))
      && (HasLine(lines, "Folder: ") <==> Truthy(folderId))
      && (Truthy(folderId) ==> "Folder: " + Truncate(AsText(folderId), 20) in lines)
  {
    var lines := UploadOf(localPath, folderId, fileName);
    assert forall line | line in lines ::
      line == "File: " + Show(localPath) || line == "Name: " + Show(fileName)
      || line == "Folder: " + Truncate(AsText(folderId), 20);
    UploadNameLine(localPath, folderId, fileName);
    UploadFolderLine(localPath, folderId, fileName);
  }

  lemma UploadNameLine(localPath: Value, folderId: Value, fileName: Value)
    requires forall line | line in UploadOf(localPath, folderId, fileName) ::
      line == "File: " + Show(localPath) || line == "Name: " + Show(fileName)
      || line == "Folder: " + Truncate(AsText(folderId), 20)
    ensures HasLine(UploadOf(localPath, folderId, fileName), "Name: ") <==> Truthy(fileName)
  {
    DiffersAt("File: " + Show(localPath), "Name: ", 0);
    DiffersAt("Folder: " + Truncate(AsText(folderId), 20), "Name: ", 0);
    if Truthy(fileName) {
      PrefixOf("Name: ", Show(fileName));
      assert UploadOf(localPath, folderId, fileName)[1] == "Name: " + Show(fileName);
    }
  }

  lemma UploadFolderLine(localPath: Value, folderId: Value, fileName: Value)
    requires forall line | line in UploadOf(localPath, folderId, fileName) ::
      line == "File: " + Show(localPath) || line == "Name: " + Show(fileName)
      || line == "Folder: " + Truncate(AsText(folderId), 20)
    ensures HasLine(UploadOf(localPath, folderId, fileName), "Folder: ") <==> Truthy(folderId)
    ensures Truthy(folderId) ==> "Folder: " + Truncate(AsText(folderId), 20) in UploadOf(localPath, folderId, fileName)
  {
    var lines := UploadOf(localPath, folderId, fileName);
    DiffersAt("File: " + Show(localPath), "Folder: ", 1);
    DiffersAt("Name: " + Show(fileName), "Folder: ", 0);
    if Truthy(folderId) {
      PrefixOf("Folder: ", Truncate(AsText(folderId), 20));
      assert lines[|lines| - 1] == "Folder: " + Truncate(AsText(folderId), 20);
    }
  }

  lemma CreateFolderOfLines(folderName: Value, parent: Value)
    ensures var lines := CreateFolderOf(folderName, parent);
      && lines[0] == "Folder: " + Show(folderName)
      && (HasLine(lines, "Parent: ") <==> Truthy(parent))
      && (Truthy(parent) ==> "Parent: " + Truncate(AsText(parent), 20) in lines)
  {
    var lines := CreateFolderOf(folderName, parent);
    DiffersAt(lines[0], "Parent: ", 0);
    if Truthy(parent) {
      PrefixOf("Parent: ", Truncate(AsText(parent), 20));
      assert lines[1] in lines;
    }
  }

  /** An upload always shows the local path; the name and the folder exactly when given and truthy. */
  lemma DriveUpload(name: string, args: Args)
    ensures var lines := DriveLines(name, UploadTool, args);
      var folderId := Get(args, "folder_id", Str(""));
      && lines[2] == "File: " + Show(Get(args, "local_path", Str("")))
      && (HasLine(lines, "Name: ") <==> Truthy(Get(args, "file_name", Str(""))))
      && (HasLine(lines, "Folder: ") <==> Truthy(folderId))
      && (Truthy(folderId) ==> "Folder: " + Truncate(AsText(folderId), 20) in lines)
  {
    assert OccursAt(UploadTool, "upload_file", 19);
    var localPath := Get(args, "local_path", Str(""));
    var folderId := Get(args, "folder_id", Str(""));
    var fileName := Get(args, "file_name", Str(""));
    var body := UploadOf(localPath, folderId, fileName);
    assert DriveBody(UploadTool, args) == body;
    DriveHasLine(name, UploadTool, args, "Name: ");
    DriveHasLine(name, UploadTool, args, "Folder: ");
    UploadOfLines(localPath, folderId, fileName);
  }

  /** Creating a folder shows its name as given, and the parent exactly when given and truthy. */
  lemma DriveCreateFolder(name: string, args: Args)
    ensures var lines := DriveLines(name, CreateFolderTool, args);
      var parent := Get(args, "parent_folder_id", Str(""));
      && lines[2] == "Folder: " + Show(Get(args, "folder_name", Str("")))
      && (HasLine(lines, "Parent: ") <==> Truthy(parent))
      && (Truthy(parent) ==> "Parent: " + Truncate(AsText(parent), 20) in lines)
  {
    NoPair(CreateFolderTool, "upload_file");
    assert OccursAt(CreateFolderTool, "create_folder", 19);
    var folderName := Get(args, "folder_name", Str(""));
    var parent := Get(args, "parent_folder_id", Str(""));
    var body := CreateFolderOf(folderName, parent);
    assert DriveBody(CreateFolderTool, args) == body;
    DriveHasLine(name, CreateFolderTool, args, "Parent: ");
    CreateFolderOfLines(folderName, parent);
  }

  /** Exactly the upload and folder-creation tools are asked about; the reason always ends with the prompt. */
  lemma DriveVerdicts(toolName: string, args: Args)
    ensures toolName in Protected <==> toolName == UploadTool || toolName == CreateFolderTool
    ensures toolName in Protected ==>
              EndsWith(Join(DriveLines(Protected[toolName], toolName, args), "\n"), "\n\nApprove?")
  {
    if toolName in Protected {
      DriveFrame(Protected[toolName], toolName, args);
    }
  }
}
