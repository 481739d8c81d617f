/**
 * The reason formatters the approval hooks share.  Each formatter is given as
 * a function from the operation's display name, the tool name and the
 * arguments to the reason's lines, and as a method that builds those lines by
 * appending, as the hooks do, and returns them joined with "\n".
 *
 * The ingest and GitLab formatters are word-for-word the same in every hook
 * that has them; the generic formatter differs between hooks only in the
 * header of a non-destructive operation (`heading`), and the Google Workspace
 * formatter only in whether it has an `update_drive_file` branch.
 */
module Formatters {
  import opened PyStrings
  import opened HookCommon

  /** The reingest warning of the ingest formatter. */
  const Reingest: string := Warning + "  Mode: REINGEST (will replace existing)"

  /** The "  └─ " indent of the ingest formatter's detail lines. */
  const Bullet: string := "  \U{2514}\U{2500} "

  /** The crawl detail of a URL ingest. */
  function CrawlLine(maxPages: Value): string
  {
    Bullet + "Crawl up to " + Show(maxPages) + " pages"
  }

  const DryRunLine: string := Bullet + "DRY RUN (preview only)"

  const RecursiveLine: string := Bullet + "Recursive: YES"

  /** The " → " between the source and target branch. */
  const Arrow: string := " \U{2192} "

  // ------------------------------------------------------------------
  // RAG Memory ingest operations
  // ------------------------------------------------------------------

  function IngestLines(name: string, toolName: string, args: Args): seq<string>
  {
    IngestHeader(name, args) + IngestBody(toolName, args) + MetadataLines(args) + Closing
  }

  function IngestHeader(name: string, args: Args): seq<string>
  {
    HeaderOf(name, Get(args, "collection_name", Str("Unknown")), Get(args, "topic", Str("(none)")),
             Get(args, "mode", Str("ingest")) == Str("reingest"))
  }

  /** The ingest header once the collection, topic and mode have been read. */
  function HeaderOf(name: string, collection: Value, topic: Value, reingest: bool): seq<string>
  {
    ["RAG Memory: " + name, "", "Collection: " + Show(collection), "Topic: " + Show(topic)]
    + (if reingest then [Reingest] else [])
    + [""]
  }

  function IngestBody(toolName: string, args: Args): seq<string>
  {
    if Contains(toolName, "ingest_text") then TextLines(args)
    else if Contains(toolName, "ingest_url") then UrlLines(args)
    else if Contains(toolName, "ingest_file") then ["File: " + Show(Get(args, "file_path", Str("")))]
    else if Contains(toolName, "ingest_directory") then DirectoryLines(args)
    else []
  }

  /** The content preview: cut to 150 characters, then newlines escaped. */
  function TextPreview(content: Value): string
  {
    Replace(Truncate(AsText(content), 150), "\n", "\\n")
  }

  function TextLines(args: Args): seq<string>
  {
    var title := Get(args, "document_title", Null);
    ["Text: \"" + TextPreview(Get(args, "content", Str(""))) + "\"",
     if Truthy(title) then "Title: " + Show(title) else "Title: (auto-generated)"]
  }

  function UrlLines(args: Args): seq<string>
  {
    UrlOf(Get(args, "url", Str("")), Get(args, "follow_links", Bool(false)),
          Get(args, "max_pages", Int(10)), Get(args, "dry_run", Bool(false)))
  }

  /** The URL section once its arguments have been read. */
  function UrlOf(url: Value, followLinks: Value, maxPages: Value, dryRun: Value): seq<string>
  {
    ["URL: " + Show(url)]
    + (if Truthy(followLinks) then [CrawlLine(maxPages)] else [])
    + (if Truthy(dryRun) then [DryRunLine] else [])
  }

  /** What `", ".join(v)` walks over: a list's items, a string's characters, an object's keys. */
  function Elements(v: Value): seq<string>
  {
    match v
    case List(items) => seq(|items|, k requires 0 <= k < |items| => Show(items[k]))
    case Str(s) => seq(|s|, k requires 0 <= k < |s| => [s[k]])
    case Dict(entries) => Keys(entries)
    case _ => []
  }

  function DirectoryLines(args: Args): seq<string>
  {
    DirectoryOf(Get(args, "directory_path", Str("")), Get(args, "file_extensions", Null),
                Get(args, "recursive", Bool(false)))
  }

  /** The directory section once its arguments have been read. */
  function DirectoryOf(path: Value, extensions: Value, recursive: Value): seq<string>
  {
    ["Directory: " + Show(path)]
    + (if Truthy(extensions) then [TypesLine(extensions)] else [])
    + (if Truthy(recursive) then [RecursiveLine] else [])
  }

  /** The file types of a directory ingest, joined with ", ". */
  function TypesLine(extensions: Value): string
  {
    Bullet + "Types: " + Join(Elements(extensions), ", ")
  }

  /** The keys of the metadata object, never its values. */
  function MetadataKeys(metadata: Value): seq<string>
  {
    if metadata.Dict? then Keys(metadata.entries) else []
  }

  function MetadataLines(args: Args): seq<string>
  {
    MetadataOf(Get(args, "metadata", Null))
  }

  function MetadataOf(metadata: Value): seq<string>
  {
    if Truthy(metadata) then ["Metadata: " + Join(MetadataKeys(metadata), ", ")] else []
  }

  method FormatIngest(name: string, toolName: string, args: Args) returns (message: string)
    ensures message == Join(IngestLines(name, toolName, args), "\n")
  {
    var lines := IngestHeaderLines(name, args);
    if Contains(toolName, "ingest_text") {
      lines := AppendTextLines(lines, args);
    } else if Contains(toolName, "ingest_url") {
      lines := AppendUrlLines(lines, args);
    } else if Contains(toolName, "ingest_file") {
      var filePath := Get(args, "file_path", Str(""));
      lines := lines + ["File: " + Show(filePath)];
    } else if Contains(toolName, "ingest_directory") {
      lines := AppendDirectoryLines(lines, args);
    }
    assert lines == IngestHeader(name, args) + IngestBody(toolName, args);
    lines := AppendMetadataLines(lines, args);
    lines := AppendClosing(lines);
    message := Join(lines, "\n");
  }

  /** The ingest header: the operation, collection, topic and mode. */
  method IngestHeaderLines(name: string, args: Args) returns (lines: seq<string>)
    ensures lines == IngestHeader(name, args)
  {
    lines := [];
    lines := lines + ["RAG Memory: " + name];
    lines := lines + [""];
    var collection := Get(args, "collection_name", Str("Unknown"));
    var topic := Get(args, "topic", Str("(none)"));
    var mode := Get(args, "mode", Str("ingest"));
    lines := lines + ["Collection: " + Show(collection)];
    lines := lines + ["Topic: " + Show(topic)];
    if mode == Str("reingest") {
      lines := lines + [Reingest];
    }
    lines := lines + [""];
  }

  /** The metadata line, appended to `lines`. */
  method AppendMetadataLines(lines: seq<string>, args: Args) returns (extended: seq<string>)
    ensures extended == lines + MetadataLines(args)
  {
    extended := lines;
    var metadata := Get(args, "metadata", Null);
    if Truthy(metadata) {
      extended := extended + ["Metadata: " + Join(MetadataKeys(metadata), ", ")];
    }
  }

  /** The blank line and the prompt every reason ends with. */
  method AppendClosing(lines: seq<string>) returns (extended: seq<string>)
    ensures extended == lines + Closing
  {
    extended := lines;
    extended := extended + [""];
    extended := extended + ["Approve?"];
  }

  /** The footer of a destructive operation, then the closing lines. */
  method AppendTail(lines: seq<string>, destructive: bool) returns (extended: seq<string>)
    ensures extended == lines + Tail(destructive)
  {
    extended := lines;
    if destructive {
      extended := extended + [""];
      extended := extended + [Footer];
    }
    extended := extended + [""];
    extended := extended + ["Approve?"];
  }

  /** The `ingest_text` section, appended to `lines`. */
  method AppendTextLines(lines: seq<string>, args: Args) returns (extended: seq<string>)
    ensures extended == lines + TextLines(args)
  {
    extended := lines;
    var text := Get(args, "content", Str(""));
    var preview := Truncate(AsText(text), 150);
    preview := Replace(preview, "\n", "\\n");
    extended := extended + ["Text: \"" + preview + "\""];
    var title := Get(args, "document_title", Null);
    if Truthy(title) {
      extended := extended + ["Title: " + Show(title)];
    } else {
      extended := extended + ["Title: (auto-generated)"];
    }
  }

  /** The `ingest_url` section, appended to `lines`. */
  method AppendUrlLines(lines: seq<string>, args: Args) returns (extended: seq<string>)
    ensures extended == lines + UrlLines(args)
  {
    extended := lines;
    var url := Get(args, "url", Str(""));
    extended := extended + ["URL: " + Show(url)];
    var followLinks := Get(args, "follow_links", Bool(false));
    var maxPages := Get(args, "max_pages", Int(10));
    var dryRun := Get(args, "dry_run", Bool(false));
    if Truthy(followLinks) {
      extended := extended + [CrawlLine(maxPages)];
    }
    if Truthy(dryRun) {
      extended := extended + [DryRunLine];
    }
  }

  /** The `ingest_directory` section, appended to `lines`. */
  method AppendDirectoryLines(lines: seq<string>, args: Args) returns (extended: seq<string>)
    ensures extended == lines + DirectoryLines(args)
  {
    extended := lines;
    var dirPath := Get(args, "directory_path", Str(""));
    extended := extended + ["Directory: " + Show(dirPath)];
    var extensions := Get(args, "file_extensions", Null);
    var recursive := Get(args, "recursive", Bool(false));
    if Truthy(extensions) {
      extended := extended + [Bullet + "Types: " + Join(Elements(extensions), ", ")];
    }
    if Truthy(recursive) {
      extended := extended + [RecursiveLine];
    }
  }

  // ------------------------------------------------------------------
  // Generic operations: one line per argument
  // ------------------------------------------------------------------

  /** An argument as the generic formatter shows it: strings over 100 characters are cut. */
  function ParamLine(f: Field): string
  {
    "  " + f.key + ": " + (if f.val.Str? then Truncate(f.val.s, 100) else Show(f.val))
  }

  function ParamLines(args: Args): (lines: seq<string>)
  {
    seq(|args|, k requires 0 <= k < |args| => ParamLine(args[k]))
  }

  /** The generic header: the banner when destructive, else `heading` and the name. */
  function GenericHeader(heading: string, name: string, destructive: bool): string
  {
    if destructive then Banner(name) else heading + name
  }

  function GenericLines(heading: string, name: string, destructive: bool, args: Args): seq<string>
  {
    [GenericHeader(heading, name, destructive), "", "Parameters:"] + ParamLines(args) + Tail(destructive)
  }

  method FormatGeneric(heading: string, name: string, destructive: bool, args: Args)
    returns (message: string)
    ensures message == Join(GenericLines(heading, name, destructive, args), "\n")
  {
    var lines: seq<string> := [];
    if destructive {
      lines := lines + [Banner(name)];
    } else {
      lines := lines + [heading + name];
    }
    lines := lines + [""];
    lines := lines + ["Parameters:"];
    var i := 0;
    while i < |args|
      invariant 0 <= i <= |args|
      invariant lines == [GenericHeader(heading, name, destructive), "", "Parameters:"] + ParamLines(args[..i])
    {
      var key, value := args[i].key, args[i].val;
      if value.Str? {
        value := Str(Truncate(value.s, 100));
      }
      lines := lines + ["  " + key + ": " + Show(value)];
      assert ParamLines(args[..i + 1]) == ParamLines(args[..i]) + [ParamLine(args[i])];
      i := i + 1;
    }
    assert args[..i] == args;
    lines := AppendTail(lines, destructive);
    message := Join(lines, "\n");
  }

  // ------------------------------------------------------------------
  // GitLab operations
  // ------------------------------------------------------------------

  /** The arguments the GitLab formatter reads, each with its default. */
  datatype GitLabFields = GitLabFields(
    projectId: Value, issueIid: Value, mrIid: Value, title: Value,
    source: Value, target: Value, body: Value)

  /** `issue_iid` and `merge_request_iid` fall back to `iid`, which falls back to "". */
  function ReadGitLab(args: Args): GitLabFields
  {
    GitLabFields(
      Get(args, "project_id", Str("")),
      Get(args, "issue_iid", Get(args, "iid", Str(""))),
      Get(args, "merge_request_iid", Get(args, "iid", Str(""))),
      Get(args, "title", Str("")),
      Get(args, "source_branch", Str("")),
      Get(args, "target_branch", Str("")),
      Get(args, "body", Str("")))
  }

  function ProjectOf(projectId: Value): seq<string>
  {
    if Truthy(projectId) then ["Project: " + Show(projectId)] else []
  }

  function IssueOf(issueIid: Value, title: Value): seq<string>
  {
    (if Truthy(issueIid) then ["Issue: #" + Show(issueIid)] else [])
    + (if Truthy(title) then ["Title: " + Show(title)] else [])
  }

  function MergeRequestOf(mrIid: Value, title: Value, source: Value, target: Value): seq<string>
  {
    (if Truthy(mrIid) then ["MR: !" + Show(mrIid)] else [])
    + (if Truthy(title) then ["Title: " + Show(title)] else [])
    + (if Truthy(source) && Truthy(target) then [BranchesLine(source, target)] else [])
  }

  function BranchesLine(source: Value, target: Value): string
  {
    "Branches: " + Show(source) + Arrow + Show(target)
  }

  /** The comment preview: the body cut to 100 characters. */
  function NoteOf(body: Value): seq<string>
  {
    ["Comment: \"" + Truncate(AsText(body), 100) + "\""]
  }

  /** The issue, merge request and note sections, each present when the tool name mentions it. */
  function SectionsOf(toolName: string, f: GitLabFields): seq<string>
  {
    (if Contains(toolName, "issue") then IssueOf(f.issueIid, f.title) else [])
    + (if Contains(toolName, "merge_request") then MergeRequestOf(f.mrIid, f.title, f.source, f.target) else [])
    + (if Contains(toolName, "note") then NoteOf(f.body) else [])
  }

  function GitLabHead(name: string, destructive: bool): seq<string>
  {
    [if destructive then Banner(name) else "GitLab: " + name, ""]
  }

  function GitLabOf(name: string, toolName: string, destructive: bool, f: GitLabFields): seq<string>
  {
    GitLabHead(name, destructive) + ProjectOf(f.projectId) + SectionsOf(toolName, f) + Tail(destructive)
  }

  function GitLabLines(name: string, toolName: string, destructive: bool, args: Args): seq<string>
  {
    GitLabOf(name, toolName, destructive, ReadGitLab(args))
  }

  method FormatGitLab(name: string, toolName: string, destructive: bool, args: Args)
    returns (message: string)
    ensures message == Join(GitLabLines(name, toolName, destructive, args), "\n")
  {
    var lines: seq<string> := [];
    if destructive {
      lines := lines + [Banner(name)];
    } else {
      lines := lines + ["GitLab: " + name];
    }
    lines := lines + [""];
    var projectId := Get(args, "project_id", Str(""));
    if Truthy(projectId) {
      lines := lines + ["Project: " + Show(projectId)];
    }
    assert lines == GitLabHead(name, destructive) + ProjectOf(projectId);
    lines := AppendGitLabSections(lines, toolName, args);
    lines := AppendTail(lines, destructive);
    message := Join(lines, "\n");
  }

  /** The sections the tool name selects, appended to `lines`. */
  method AppendGitLabSections(lines: seq<string>, toolName: string, args: Args) returns (extended: seq<string>)
    ensures extended == lines + SectionsOf(toolName, ReadGitLab(args))
  {
    ghost var f := ReadGitLab(args);
    extended := lines;
    if Contains(toolName, "issue") {
      extended := AppendIssueLines(extended, args);
    }
    ghost var issue := extended;
    assert issue == lines + (if Contains(toolName, "issue") then IssueOf(f.issueIid, f.title) else []);
    if Contains(toolName, "merge_request") {
      extended := AppendMergeRequestLines(extended, args);
    }
    ghost var mergeRequest := extended;
    assert mergeRequest == issue
      + (if Contains(toolName, "merge_request") then MergeRequestOf(f.mrIid, f.title, f.source, f.target) else []);
    if Contains(toolName, "note") {
      var body := AsText(Get(args, "body", Str("")));
      var preview := Truncate(body, 100);
      extended := extended + ["Comment: \"" + preview + "\""];
    }
    assert extended == mergeRequest + (if Contains(toolName, "note") then NoteOf(f.body) else []);
  }

  /** The issue section, appended to `lines`. */
  method AppendIssueLines(lines: seq<string>, args: Args) returns (extended: seq<string>)
    ensures extended == lines + IssueOf(Get(args, "issue_iid", Get(args, "iid", Str(""))), Get(args, "title", Str("")))
  {
    extended := lines;
    var issueIid := Get(args, "issue_iid", Get(args, "iid", Str("")));
    var title := Get(args, "title", Str(""));
    if Truthy(issueIid) {
      extended := extended + ["Issue: #" + Show(issueIid)];
    }
    if Truthy(title) {
      extended := extended + ["Title: " + Show(title)];
    }
  }

  /** The merge request section, appended to `lines`. */
  method AppendMergeRequestLines(lines: seq<string>, args: Args) returns (extended: seq<string>)
    ensures extended == lines + MergeRequestOf(Get(args, "merge_request_iid", Get(args, "iid", Str(""))),
                                               Get(args, "title", Str("")), Get(args, "source_branch", Str("")),
                                               Get(args, "target_branch", Str("")))
  {
    extended := lines;
    var mrIid := Get(args, "merge_request_iid", Get(args, "iid", Str("")));
    var title := Get(args, "title", Str(""));
    var source := Get(args, "source_branch", Str(""));
    var target := Get(args, "target_branch", Str(""));
    ghost var a := if Truthy(mrIid) then ["MR: !" + Show(mrIid)] else [];
    ghost var b := if Truthy(title) then ["Title: " + Show(title)] else [];
    ghost var c := if Truthy(source) && Truthy(target) then [BranchesLine(source, target)] else [];
    if Truthy(mrIid) {
      extended := extended + ["MR: !" + Show(mrIid)];
    }
    assert extended == lines + a;
    if Truthy(title) {
      extended := extended + ["Title: " + Show(title)];
    }
    assert extended == lines + a + b;
    if Truthy(source) && Truthy(target) {
      extended := extended + [BranchesLine(source, target)];
    }
    assert extended == lines + a + b + c;
  }

  // ------------------------------------------------------------------
  // Google Workspace operations
  // ------------------------------------------------------------------

  /** Python's `v[0]` on the `parents` value once it is known to be truthy. */
  function First(v: Value): Value
  {
    match v
    case List(items) => if |items| > 0 then items[0] else Null
    case Str(s) => if |s| > 0 then Str([s[0]]) else Null
    case _ => Null
  }

  /** The `create_drive_file` section: the name always, the type and the first parent folder when truthy. */
  function CreateDriveFileOf(fileName: Value, mimeType: Value, parents: Value): seq<string>
  {
    ["Name: " + Show(fileName)]
    + (if Truthy(mimeType) then ["Type: " + Show(mimeType)] else [])
    + (if Truthy(parents) then ["Folder: " + Truncate(AsText(First(parents)), 20)] else [])
  }

  function CreateDriveFileLines(args: Args): seq<string>
  {
    CreateDriveFileOf(Get(args, "name", Str("")), Get(args, "mimeType", Str("")), Get(args, "parents", List([])))
  }

  /** The `modify_doc` section: the document id cut to 20 characters, and the number of operations when truthy. */
  function ModifyDocOf(documentId: Value, operations: Value): seq<string>
  {
    ["Document: " + Truncate(AsText(documentId), 20)]
    + (if Truthy(operations) then ["Operations: " + Decimal(Len(operations)) + " changes"] else [])
  }

  function ModifyDocLines(args: Args): seq<string>
  {
    ModifyDocOf(Get(args, "documentId", Str("")), Get(args, "operations", List([])))
  }

  /** The `update_drive_file` section: the file id cut to 20 characters. */
  function FileLine(fileId: Value): string
  {
    "File: " + Truncate(AsText(fileId), 20)
  }

  /** The `share_drive_file` section: the file id cut to 20 characters, then the e-mail and role as given. */
  function ShareOf(fileId: Value, email: Value, role: Value): seq<string>
  {
    [FileLine(fileId), "Share with: " + Show(email), "Role: " + Show(role)]
  }

  function ShareLines(args: Args): seq<string>
  {
    ShareOf(Get(args, "fileId", Str("")), Get(args, "email", Str("")), Get(args, "role", Str("")))
  }

  /**
   * The body of the Google Workspace formatter.  `updateBranch` says whether
   * the hook's copy has the `update_drive_file` branch.
   */
  function WorkspaceBody(toolName: string, args: Args, updateBranch: bool): seq<string>
  {
    if Contains(toolName, "create_doc") then ["Title: " + Show(Get(args, "title", Str("")))]
    else if Contains(toolName, "modify_doc") then ModifyDocLines(args)
    else if Contains(toolName, "create_drive_file") then CreateDriveFileLines(args)
    else if updateBranch && Contains(toolName, "update_drive_file") then [FileLine(Get(args, "fileId", Str("")))]
    else if Contains(toolName, "share_drive_file") then ShareLines(args)
    else []
  }

  function WorkspaceHead(name: string): seq<string>
  {
    ["Google Workspace: " + name, ""]
  }

  function WorkspaceLines(name: string, toolName: string, args: Args, updateBranch: bool): seq<string>
  {
    WorkspaceHead(name) + WorkspaceBody(toolName, args, updateBranch) + Closing
  }

  method FormatWorkspace(name: string, toolName: string, args: Args, updateBranch: bool)
    returns (message: string)
    ensures message == Join(WorkspaceLines(name, toolName, args, updateBranch), "\n")
  {
    var lines: seq<string> := [];
    lines := lines + ["Google Workspace: " + name];
    lines := lines + [""];
    ghost var head := lines;
    assert head == WorkspaceHead(name);
    if Contains(toolName, "create_doc") {
      var title := Get(args, "title", Str(""));
      lines := lines + ["Title: " + Show(title)];
    } else if Contains(toolName, "modify_doc") {
      lines := AppendModifyDocLines(lines, args);
    } else if Contains(toolName, "create_drive_file") {
      lines := AppendCreateDriveFileLines(lines, args);
    } else if updateBranch && Contains(toolName, "update_drive_file") {
      var fileId := AsText(Get(args, "fileId", Str("")));
      lines := lines + ["File: " + Truncate(fileId, 20)];
      assert lines == head + [FileLine(Get(args, "fileId", Str("")))];
    } else if Contains(toolName, "share_drive_file") {
      lines := AppendShareLines(lines, args);
    }
    assert lines == head + WorkspaceBody(toolName, args, updateBranch);
    lines := AppendClosing(lines);
    message := Join(lines, "\n");
  }

  /** The `modify_doc` section, appended to `lines`. */
  method AppendModifyDocLines(lines: seq<string>, args: Args) returns (extended: seq<string>)
    ensures extended == lines + ModifyDocLines(args)
  {
    extended := lines;
    var docId := AsText(Get(args, "documentId", Str("")));
    extended := extended + ["Document: " + Truncate(docId, 20)];
    var operations := Get(args, "operations", List([]));
    if Truthy(operations) {
      extended := extended + ["Operations: " + Decimal(Len(operations)) + " changes"];
    }
  }

  /** The `create_drive_file` section, appended to `lines`. */
  method AppendCreateDriveFileLines(lines: seq<string>, args: Args) returns (extended: seq<string>)
    ensures extended == lines + CreateDriveFileLines(args)
  {
    extended := lines;
    var fileName := Get(args, "name", Str(""));
    var mimeType := Get(args, "mimeType", Str(""));
    var parents := Get(args, "parents", List([]));
    extended := extended + ["Name: " + Show(fileName)];
    if Truthy(mimeType) {
      extended := extended + ["Type: " + Show(mimeType)];
    }
    if Truthy(parents) {
      var folder := AsText(First(parents));
      extended := extended + ["Folder: " + Truncate(folder, 20)];
    }
  }

  /** The `share_drive_file` section, appended to `lines`. */
  method AppendShareLines(lines: seq<string>, args: Args) returns (extended: seq<string>)
    ensures extended == lines + ShareLines(args)
  {
    extended := lines;
    var fileId := AsText(Get(args, "fileId", Str("")));
    var email := Get(args, "email", Str(""));
    var role := Get(args, "role", Str(""));
    extended := extended + ["File: " + Truncate(fileId, 20)];
    extended := extended + ["Share with: " + Show(email)];
    extended := extended + ["Role: " + Show(role)];
  }

  // ------------------------------------------------------------------
  // Properties of the ingest formatter
  // ------------------------------------------------------------------

  /** The warning lines of a reason are told apart by their fourth character. */
  lemma WarningsDiffer(n: string)
    ensures !Plain(Footer) && !Plain(Banner(n)) && !Plain(Reingest)
    ensures Reingest != Footer && Reingest != Banner(n) && Footer != Banner(n)
  {
    assert Reingest[3] == ' ' && Footer[3] == 'T' && Banner(n)[3] == 'D';
  }

  lemma IngestBodyPlain(toolName: string, args: Args)
    ensures forall line | line in IngestBody(toolName, args) + MetadataLines(args) + Closing :: Plain(line)
  {
    if Contains(toolName, "ingest_text") {
      TextLinesPlain(args);
    } else if Contains(toolName, "ingest_url") {
      UrlLinesPlain(args);
    } else if !Contains(toolName, "ingest_file") {
      DirectoryLinesPlain(args);
    }
  }

  lemma TextLinesPlain(args: Args)
    ensures forall line | line in TextLines(args) :: Plain(line)
  {
  }

  lemma UrlLinesPlain(args: Args)
    ensures forall line | line in UrlLines(args) :: Plain(line)
  {
  }

  lemma DirectoryLinesPlain(args: Args)
    ensures forall line | line in DirectoryLines(args) :: Plain(line)
  {
  }

  /** Every ingest line starts with an ASCII character, except the reingest warning. */
  lemma IngestLinesPlain(name: string, toolName: string, args: Args)
    ensures forall line | line in IngestLines(name, toolName, args) ::
              Plain(line) || (line == Reingest && Get(args, "mode", Str("ingest")) == Str("reingest"))
  {
    IngestBodyPlain(toolName, args);
    assert IngestLines(name, toolName, args)
      == IngestHeader(name, args) + (IngestBody(toolName, args) + MetadataLines(args) + Closing);
  }

  /**
   * The ingest reason names the operation first, ends with the prompt, and never
   * carries a destructive banner or the "cannot be undone" footer.
   */
  lemma IngestFrame(name: string, toolName: string, args: Args)
    ensures var lines := IngestLines(name, toolName, args);
      |lines| >= 7 && lines[0] == "RAG Memory: " + name && lines[|lines| - 2..] == Closing
      && Footer !in lines && forall n :: Banner(n) !in lines
  {
    var lines := IngestLines(name, toolName, args);
    IngestLinesPlain(name, toolName, args);
    WarningsDiffer("");
    forall n ensures Banner(n) !in lines {
      WarningsDiffer(n);
    }
  }

  lemma IngestHeaderLeads(name: string, args: Args)
    ensures NoLineLeads(IngestHeader(name, args), ' ') && NoLineLeads(IngestHeader(name, args), 'M')
  {
    HeaderOfLeads(name, Get(args, "collection_name", Str("Unknown")), Get(args, "topic", Str("(none)")),
                  Get(args, "mode", Str("ingest")) == Str("reingest"));
  }

  lemma HeaderOfLeads(name: string, collection: Value, topic: Value, reingest: bool)
    ensures NoLineLeads(HeaderOf(name, collection, topic, reingest), ' ')
    ensures NoLineLeads(HeaderOf(name, collection, topic, reingest), 'M')
  {
    var first, c, t := "RAG Memory: " + name, "Collection: " + Show(collection), "Topic: " + Show(topic);
    assert first[0] == 'R' && c[0] == 'C' && t[0] == 'T' && Reingest[0] == '\U{26A0}';
    forall line | line in HeaderOf(name, collection, topic, reingest)
      ensures line == "" || line == first || line == c || line == t || line == Reingest
    {
    }
  }

  lemma MetadataLeads(args: Args)
    ensures NoLineLeads(MetadataLines(args), ' ') && NoLineLeads(Closing, ' ')
  {
  }

  /** Only lines of the operation's own section can start with a space. */
  lemma IngestDetailLines(name: string, toolName: string, args: Args, prefix: string)
    requires |prefix| > 0 && prefix[0] == ' '
    ensures HasLine(IngestLines(name, toolName, args), prefix) <==> HasLine(IngestBody(toolName, args), prefix)
  {
    var header, body, metadata := IngestHeader(name, args), IngestBody(toolName, args), MetadataLines(args);
    IngestHeaderLeads(name, args);
    MetadataLeads(args);
    NoLineLeadsNoPrefix(header, prefix);
    NoLineLeadsNoPrefix(metadata, prefix);
    NoLineLeadsNoPrefix(Closing, prefix);
    HasLineConcat(header, body, prefix);
    HasLineConcat(header + body, metadata, prefix);
    HasLineConcat(header + body + metadata, Closing, prefix);
  }

  /** The operation's defaults: collection "Unknown" and topic "(none)", used only when the key is absent. */
  lemma IngestDefaults(name: string, toolName: string, args: Args)
    ensures var lines := IngestLines(name, toolName, args);
      && (Lookup(args, "collection_name").None? ==> lines[2] == "Collection: Unknown")
      && (Lookup(args, "collection_name").Some? ==> lines[2] == "Collection: " + Show(Lookup(args, "collection_name").value))
      && (Lookup(args, "topic").None? ==> lines[3] == "Topic: (none)")
      && (Lookup(args, "topic").Some? ==> lines[3] == "Topic: " + Show(Lookup(args, "topic").value))
  {
    IngestHeaderShown(name, toolName, args);
    HeaderDefaults(args);
  }

  /** The collection and topic lines, as `get` with its defaults renders them. */
  lemma HeaderDefaults(args: Args)
    ensures Lookup(args, "collection_name").None? ==>
              "Collection: " + Show(Get(args, "collection_name", Str("Unknown"))) == "Collection: Unknown"
    ensures Lookup(args, "collection_name").Some? ==>
              Get(args, "collection_name", Str("Unknown")) == Lookup(args, "collection_name").value
    ensures Lookup(args, "topic").None? ==> "Topic: " + Show(Get(args, "topic", Str("(none)"))) == "Topic: (none)"
    ensures Lookup(args, "topic").Some? ==> Get(args, "topic", Str("(none)")) == Lookup(args, "topic").value
  {
    if Lookup(args, "collection_name").None? {
      assert "Collection: " + Show(Str("Unknown")) == "Collection: Unknown";
    }
    if Lookup(args, "topic").None? {
      assert "Topic: " + Show(Str("(none)")) == "Topic: (none)";
    }
  }

  lemma IngestHeaderShown(name: string, toolName: string, args: Args)
    ensures var lines := IngestLines(name, toolName, args);
      && |lines| > 3
      && lines[2] == "Collection: " + Show(Get(args, "collection_name", Str("Unknown")))
      && lines[3] == "Topic: " + Show(Get(args, "topic", Str("(none)")))
  {
    var head := IngestHeader(name, args);
    assert IngestLines(name, toolName, args) == head + (IngestBody(toolName, args) + MetadataLines(args) + Closing);
  }

  /** The reingest warning is shown exactly when `mode` is the string "reingest". */
  lemma IngestReingest(name: string, toolName: string, args: Args)
    ensures Reingest in IngestLines(name, toolName, args) <==> Lookup(args, "mode") == Some(Str("reingest"))
  {
    IngestLinesPlain(name, toolName, args);
    WarningsDiffer("");
    if Lookup(args, "mode") == Some(Str("reingest")) {
      assert IngestLines(name, toolName, args)[4] == Reingest;
    }
  }

  /** The text preview is the content cut to 150 characters with each newline written as `\n`. */
  lemma TextPreviewSpec(content: Value)
    ensures TextPreview(content) == EscapeNewlines(Truncate(AsText(content), 150))
    ensures '\n' !in TextPreview(content)
    ensures |AsText(content)| <= 150 && '\n' !in AsText(content) ==> TextPreview(content) == AsText(content)
  {
    ReplaceNewlines(Truncate(AsText(content), 150));
    if '\n' !in AsText(content) {
      EscapeIdentity(AsText(content));
    }
  }

  /** A text ingest shows the escaped preview and the title, or "(auto-generated)" when it is falsy. */
  lemma IngestText(name: string, toolName: string, args: Args)
    requires Contains(toolName, "ingest_text")
    ensures var lines := IngestLines(name, toolName, args);
      var preview := TextPreview(Get(args, "content", Str("")));
      var title := Get(args, "document_title", Null);
      && "Text: \"" + preview + "\"" in lines
      && '\n' !in preview
      && (Truthy(title) ==> "Title: " + Show(title) in lines)
      && (!Truthy(title) ==> "Title: (auto-generated)" in lines)
  {
    TextPreviewSpec(Get(args, "content", Str("")));
    var lines := IngestLines(name, toolName, args);
    var h := |IngestHeader(name, args)|;
    assert lines[h..h + 2] == TextLines(args);
  }

  /** Within the URL section, the crawl line depends on `follow_links` alone and the dry-run line on `dry_run` alone. */
  lemma UrlOfLines(url: Value, followLinks: Value, maxPages: Value, dryRun: Value)
    ensures var lines := UrlOf(url, followLinks, maxPages, dryRun);
      && (HasLine(lines, Bullet + "Crawl up to ") <==> Truthy(followLinks))
      && (HasLine(lines, DryRunLine) <==> Truthy(dryRun))
  {
    var lines := UrlOf(url, followLinks, maxPages, dryRun);
    var crawl := Bullet + "Crawl up to ";
    var first := "URL: " + Show(url);
    DiffersAt(first, crawl, 0);
    DiffersAt(first, DryRunLine, 0);
    DiffersAt(DryRunLine, crawl, 5);
    assert CrawlLine(maxPages) == crawl + (Show(maxPages) + " pages");
    PrefixOf(crawl, Show(maxPages) + " pages");
    DiffersAt(CrawlLine(maxPages), DryRunLine, 5);
    PrefixOf(DryRunLine, "");
    assert DryRunLine + "" == DryRunLine;
    assert forall line | line in lines :: line == first || line == CrawlLine(maxPages) || line == DryRunLine;
    if Truthy(followLinks) {
      assert CrawlLine(maxPages) in lines;
    }
    if Truthy(dryRun) {
      assert DryRunLine in lines;
    }
  }

  /**
   * A URL ingest shows the crawl line exactly when `follow_links` is truthy, with
   * `max_pages` defaulting to 10, and the dry-run line exactly when `dry_run` is truthy.
   */
  lemma IngestUrl(name: string, toolName: string, args: Args)
    requires !Contains(toolName, "ingest_text") && Contains(toolName, "ingest_url")
    ensures var lines := IngestLines(name, toolName, args);
      && (HasLine(lines, Bullet + "Crawl up to ") <==> Truthy(Get(args, "follow_links", Bool(false))))
      && (HasLine(lines, DryRunLine) <==> Truthy(Get(args, "dry_run", Bool(false))))
      && ((Truthy(Get(args, "follow_links", Bool(false))) && Lookup(args, "max_pages").None?)
          ==> CrawlLine(Int(10)) in lines)
  {
    IngestDetailLines(name, toolName, args, Bullet + "Crawl up to ");
    IngestDetailLines(name, toolName, args, DryRunLine);
    UrlOfLines(Get(args, "url", Str("")), Get(args, "follow_links", Bool(false)),
               Get(args, "max_pages", Int(10)), Get(args, "dry_run", Bool(false)));
  }

  /**
   * A directory ingest shows the file types, joined with ", ", exactly when
   * `file_extensions` is truthy and "Recursive: YES" exactly when `recursive` is truthy.
   */
  lemma DirectoryOfLines(path: Value, extensions: Value, recursive: Value)
    ensures var lines := DirectoryOf(path, extensions, recursive);
      && lines[0] == "Directory: " + Show(path)
      && (HasLine(lines, Bullet + "Types: ") <==> Truthy(extensions))
      && (Truthy(extensions) ==> Bullet + "Types: " + Join(Elements(extensions), ", ") in lines)
      && (HasLine(lines, RecursiveLine) <==> Truthy(recursive))
  {
    var lines := DirectoryOf(path, extensions, recursive);
    var types := Bullet + "Types: ";
    var first := "Directory: " + Show(path);
    DiffersAt(first, types, 0);
    DiffersAt(first, RecursiveLine, 0);
    DiffersAt(RecursiveLine, types, 5);
    assert TypesLine(extensions) == types + Join(Elements(extensions), ", ");
    PrefixOf(types, Join(Elements(extensions), ", "));
    DiffersAt(TypesLine(extensions), RecursiveLine, 5);
    PrefixOf(RecursiveLine, "");
    assert RecursiveLine + "" == RecursiveLine;
    assert forall line | line in lines :: line == first || line == TypesLine(extensions) || line == RecursiveLine;
    if Truthy(extensions) {
      assert TypesLine(extensions) in lines;
    }
    if Truthy(recursive) {
      assert RecursiveLine in lines;
    }
  }

  lemma IngestDirectory(name: string, toolName: string, args: Args)
    requires !Contains(toolName, "ingest_text") && !Contains(toolName, "ingest_url")
    requires !Contains(toolName, "ingest_file") && Contains(toolName, "ingest_directory")
    ensures var lines := IngestLines(name, toolName, args);
      var extensions := Get(args, "file_extensions", Null);
      && (HasLine(lines, Bullet + "Types: ") <==> Truthy(extensions))
      && (Truthy(extensions) ==> Bullet + "Types: " + Join(Elements(extensions), ", ") in lines)
      && (HasLine(lines, RecursiveLine) <==> Truthy(Get(args, "recursive", Bool(false))))
  {
    IngestDetailLines(name, toolName, args, Bullet + "Types: ");
    IngestDetailLines(name, toolName, args, RecursiveLine);
    var extensions := Get(args, "file_extensions", Null);
    DirectoryOfLines(Get(args, "directory_path", Str("")), extensions, Get(args, "recursive", Bool(false)));
    if Truthy(extensions) {
      var body := IngestBody(toolName, args);
      assert body == DirectoryLines(args);
      assert TypesLine(extensions) in body;
      assert IngestLines(name, toolName, args)
        == IngestHeader(name, args) + body + (MetadataLines(args) + Closing);
    }
  }

  lemma IngestBodyLeads(toolName: string, args: Args)
    ensures NoLineLeads(IngestBody(toolName, args), 'M')
  {
    var body := IngestBody(toolName, args);
    if Contains(toolName, "ingest_text") {
      assert forall line | line in body :: line[0] == 'T';
    } else if Contains(toolName, "ingest_url") {
      assert forall line | line in body :: line[0] == 'U' || line[0] == ' ';
    } else if Contains(toolName, "ingest_file") {
    } else if Contains(toolName, "ingest_directory") {
      assert forall line | line in body :: line[0] == 'D' || line[0] == ' ';
    }
  }

  lemma MetadataOfLines(metadata: Value)
    ensures HasLine(MetadataOf(metadata), "Metadata: ") <==> Truthy(metadata)
    ensures metadata.Dict? && Truthy(metadata) ==>
              MetadataOf(metadata) == ["Metadata: " + Join(Keys(metadata.entries), ", ")]
  {
    if Truthy(metadata) {
      PrefixOf("Metadata: ", Join(MetadataKeys(metadata), ", "));
      assert MetadataOf(metadata)[0] in MetadataOf(metadata);
    }
  }

  /** The metadata line is shown exactly when `metadata` is truthy, and it lists the keys only. */
  lemma IngestMetadata(name: string, toolName: string, args: Args)
    ensures var lines := IngestLines(name, toolName, args);
      var metadata := Get(args, "metadata", Null);
      && (HasLine(lines, "Metadata: ") <==> Truthy(metadata))
      && (metadata.Dict? && Truthy(metadata) ==> "Metadata: " + Join(Keys(metadata.entries), ", ") in lines)
  {
    var header, body, metadata := IngestHeader(name, args), IngestBody(toolName, args), MetadataLines(args);
    var prefix := "Metadata: ";
    IngestHeaderLeads(name, args);
    IngestBodyLeads(toolName, args);
    assert NoLineLeads(Closing, 'M');
    NoLineLeadsNoPrefix(header, prefix);
    NoLineLeadsNoPrefix(body, prefix);
    NoLineLeadsNoPrefix(Closing, prefix);
    HasLineConcat(header, body, prefix);
    HasLineConcat(header + body, metadata, prefix);
    HasLineConcat(header + body + metadata, Closing, prefix);
    MetadataOfLines(Get(args, "metadata", Null));
  }

  // ------------------------------------------------------------------
  // Properties of the generic formatter
  // ------------------------------------------------------------------

  /** An argument line shows the key, then the value: strings over 100 characters cut, other values whole. */
  lemma ParamLineShape(f: Field)
    ensures StartsWith(ParamLine(f), "  " + f.key + ": ")
    ensures f.val.Str? && |f.val.s| <= 100 ==> ParamLine(f) == "  " + f.key + ": " + f.val.s
    ensures f.val.Str? && |f.val.s| > 100 ==>
              ParamLine(f) == "  " + f.key + ": " + f.val.s[..100] + "..." && |ParamLine(f)| == |f.key| + 107
    ensures !f.val.Str? ==> ParamLine(f) == "  " + f.key + ": " + Show(f.val)
  {
    var value := if f.val.Str? then Truncate(f.val.s, 100) else Show(f.val);
    PrefixOf("  " + f.key + ": ", value);
  }

  /**
   * The generic reason: the header, a blank line, "Parameters:", exactly one
   * line per argument in the order the arguments were given, then the tail.
   */
  lemma GenericLayout(heading: string, name: string, destructive: bool, args: Args)
    ensures var lines := GenericLines(heading, name, destructive, args);
      && |lines| == 3 + |args| + (if destructive then 4 else 2)
      && lines[1] == "" && lines[2] == "Parameters:"
      && (forall k | 0 <= k < |args| :: lines[3 + k] == ParamLine(args[k]))
      && lines[|lines| - 2..] == Closing
  {
  }

  /**
   * The generic reason opens with the destructive banner, and carries the
   * "cannot be undone" footer, exactly when the operation is destructive.
   */
  lemma GenericDestructive(heading: string, name: string, destructive: bool, args: Args)
    requires Plain(heading + name)
    ensures var lines := GenericLines(heading, name, destructive, args);
      && (lines[0] == Banner(name) <==> destructive)
      && (Footer in lines <==> destructive)
  {
    var head := [GenericHeader(heading, name, destructive), "", "Parameters:"];
    var params := ParamLines(args);
    WarningsDiffer(name);
    PlainIsNotWarning(heading + name, name);
    assert forall line | line in params :: line[0] == ' ';
    assert Footer !in params;
    assert Footer !in head;
  }

  // ------------------------------------------------------------------
  // Properties of the GitLab formatter
  // ------------------------------------------------------------------

  /** `issue_iid` (and `merge_request_iid`) is used whenever present, even when falsy; `iid` only when it is absent. */
  lemma ReadGitLabIds(args: Args)
    ensures Lookup(args, "issue_iid").Some? ==> ReadGitLab(args).issueIid == Lookup(args, "issue_iid").value
    ensures Lookup(args, "issue_iid").None? ==> ReadGitLab(args).issueIid == Get(args, "iid", Str(""))
    ensures Lookup(args, "merge_request_iid").Some? ==> ReadGitLab(args).mrIid == Lookup(args, "merge_request_iid").value
    ensures Lookup(args, "merge_request_iid").None? ==> ReadGitLab(args).mrIid == Get(args, "iid", Str(""))
  {
  }

  lemma ProjectOfLines(projectId: Value)
    ensures HasLine(ProjectOf(projectId), "Project: ") <==> Truthy(projectId)
  {
    if Truthy(projectId) {
      PrefixOf("Project: ", Show(projectId));
      assert ProjectOf(projectId)[0] in ProjectOf(projectId);
    }
  }

  lemma ProjectOfNoLine(projectId: Value, prefix: string)
    requires |prefix| > 0 && prefix[0] != 'P'
    ensures !HasLine(ProjectOf(projectId), prefix)
  {
    assert NoLineLeads(ProjectOf(projectId), prefix[0]);
    NoLineLeadsNoPrefix(ProjectOf(projectId), prefix);
  }

  /** The issue section shows the issue number exactly when it is truthy, and the title exactly when that is. */
  lemma IssueOfLines(issueIid: Value, title: Value)
    ensures HasLine(IssueOf(issueIid, title), "Issue: #") <==> Truthy(issueIid)
    ensures HasLine(IssueOf(issueIid, title), "Title: ") <==> Truthy(title)
  {
    var lines := IssueOf(issueIid, title);
    DiffersAt("Title: " + Show(title), "Issue: #", 0);
    DiffersAt("Issue: #" + Show(issueIid), "Title: ", 0);
    if Truthy(issueIid) {
      PrefixOf("Issue: #", Show(issueIid));
      assert lines[0] in lines;
    }
    if Truthy(title) {
      PrefixOf("Title: ", Show(title));
      assert lines[|lines| - 1] in lines;
    }
  }

  lemma IssueOfNoLine(issueIid: Value, title: Value, prefix: string)
    requires |prefix| > 0 && prefix[0] != 'I' && prefix[0] != 'T'
    ensures !HasLine(IssueOf(issueIid, title), prefix)
  {
    assert NoLineLeads(IssueOf(issueIid, title), prefix[0]);
    NoLineLeadsNoPrefix(IssueOf(issueIid, title), prefix);
  }

  /**
   * The merge request section shows the merge request number exactly when it
   * is truthy, the title exactly when that is, and the branches exactly when
   * both are.
   */
  lemma MergeRequestOfLines(mrIid: Value, title: Value, source: Value, target: Value)
    ensures HasLine(MergeRequestOf(mrIid, title, source, target), "MR: !") <==> Truthy(mrIid)
    ensures HasLine(MergeRequestOf(mrIid, title, source, target), "Title: ") <==> Truthy(title)
    ensures HasLine(MergeRequestOf(mrIid, title, source, target), "Branches: ") <==> Truthy(source) && Truthy(target)
  {
    var lines := MergeRequestOf(mrIid, title, source, target);
    var mr := "MR: !" + Show(mrIid);
    var titleLine := "Title: " + Show(title);
    var branches := BranchesLine(source, target);
    assert forall line | line in lines :: line == mr || line == titleLine || line == branches;
    MergeRequestMrLine(mrIid, title, source, target);
    MergeRequestTitleLine(mrIid, title, source, target);
    MergeRequestBranchesLine(mrIid, title, source, target);
  }

  lemma MergeRequestMrLine(mrIid: Value, title: Value, source: Value, target: Value)
    requires forall line | line in MergeRequestOf(mrIid, title, source, target) ::
      line == "MR: !" + Show(mrIid) || line == "Title: " + Show(title) || line == BranchesLine(source, target)
    ensures HasLine(MergeRequestOf(mrIid, title, source, target), "MR: !") <==> Truthy(mrIid)
  {
    DiffersAt("Title: " + Show(title), "MR: !", 0);
    DiffersAt(BranchesLine(source, target), "MR: !", 0);
    if Truthy(mrIid) {
      PrefixOf("MR: !", Show(mrIid));
      assert MergeRequestOf(mrIid, title, source, target)[0] == "MR: !" + Show(mrIid);
    }
  }

  lemma MergeRequestTitleLine(mrIid: Value, title: Value, source: Value, target: Value)
    requires forall line | line in MergeRequestOf(mrIid, title, source, target) ::
      line == "MR: !" + Show(mrIid) || line == "Title: " + Show(title) || line == BranchesLine(source, target)
    ensures HasLine(MergeRequestOf(mrIid, title, source, target), "Title: ") <==> Truthy(title)
  {
    DiffersAt("MR: !" + Show(mrIid), "Title: ", 0);
    DiffersAt(BranchesLine(source, target), "Title: ", 0);
    if Truthy(title) {
      PrefixOf("Title: ", Show(title));
      var k := if Truthy(mrIid) then 1 else 0;
      assert MergeRequestOf(mrIid, title, source, target)[k] == "Title: " + Show(title);
    }
  }

  lemma MergeRequestBranchesLine(mrIid: Value, title: Value, source: Value, target: Value)
    requires forall line | line in MergeRequestOf(mrIid, title, source, target) ::
      line == "MR: !" + Show(mrIid) || line == "Title: " + Show(title) || line == BranchesLine(source, target)
    ensures HasLine(MergeRequestOf(mrIid, title, source, target), "Branches: ") <==> Truthy(source) && Truthy(target)
  {
    var lines := MergeRequestOf(mrIid, title, source, target);
    DiffersAt("MR: !" + Show(mrIid), "Branches: ", 0);
    DiffersAt("Title: " + Show(title), "Branches: ", 0);
    if Truthy(source) && Truthy(target) {
      var branches := BranchesLine(source, target);
      assert branches == "Branches: " + (Show(source) + Arrow + Show(target));
      PrefixOf("Branches: ", Show(source) + Arrow + Show(target));
      assert lines[|lines| - 1] == branches;
    }
  }

  lemma MergeRequestOfNoLine(mrIid: Value, title: Value, source: Value, target: Value, prefix: string)
    requires |prefix| > 0 && prefix[0] != 'M' && prefix[0] != 'T' && prefix[0] != 'B'
    ensures !HasLine(MergeRequestOf(mrIid, title, source, target), prefix)
  {
    assert NoLineLeads(MergeRequestOf(mrIid, title, source, target), prefix[0]);
    NoLineLeadsNoPrefix(MergeRequestOf(mrIid, title, source, target), prefix);
  }

  lemma NoteOfLines(body: Value)
    ensures HasLine(NoteOf(body), "Comment: ")
  {
    var preview := Truncate(AsText(body), 100);
    assert NoteOf(body)[0] == "Comment: " + ("\"" + preview + "\"");
    PrefixOf("Comment: ", "\"" + preview + "\"");
    assert NoteOf(body)[0] in NoteOf(body);
  }

  lemma NoteOfNoLine(body: Value, prefix: string)
    requires |prefix| > 0 && prefix[0] != 'C'
    ensures !HasLine(NoteOf(body), prefix)
  {
    assert NoLineLeads(NoteOf(body), prefix[0]);
    NoLineLeadsNoPrefix(NoteOf(body), prefix);
  }

  lemma GitLabHeadNoLine(name: string, destructive: bool, prefix: string)
    requires |prefix| > 0 && prefix[0] != 'G' && prefix[0] != '\U{26A0}'
    ensures !HasLine(GitLabHead(name, destructive), prefix)
  {
    assert Banner(name)[0] == '\U{26A0}';
    assert NoLineLeads(GitLabHead(name, destructive), prefix[0]);
    NoLineLeadsNoPrefix(GitLabHead(name, destructive), prefix);
  }

  /** A line that does not start like the header or the tail comes from the project line or the sections. */
  lemma GitLabHasLine(name: string, toolName: string, destructive: bool, f: GitLabFields, prefix: string)
    requires |prefix| > 0 && prefix[0] != 'G' && prefix[0] != '\U{26A0}' && prefix[0] != 'A'
    ensures HasLine(GitLabOf(name, toolName, destructive, f), prefix) <==>
      HasLine(ProjectOf(f.projectId), prefix) || HasLine(SectionsOf(toolName, f), prefix)
  {
    GitLabHeadNoLine(name, destructive, prefix);
    TailNoLine(destructive, prefix);
    HasLineLayout(GitLabHead(name, destructive), ProjectOf(f.projectId), SectionsOf(toolName, f), Tail(destructive), prefix);
  }

  /** Each section shows its lines exactly when the tool name mentions it. */
  lemma SectionsHasLine(toolName: string, f: GitLabFields, prefix: string)
    ensures HasLine(SectionsOf(toolName, f), prefix) <==>
      || (Contains(toolName, "issue") && HasLine(IssueOf(f.issueIid, f.title), prefix))
      || (Contains(toolName, "merge_request") && HasLine(MergeRequestOf(f.mrIid, f.title, f.source, f.target), prefix))
      || (Contains(toolName, "note") && HasLine(NoteOf(f.body), prefix))
  {
    var a := if Contains(toolName, "issue") then IssueOf(f.issueIid, f.title) else [];
    var b := if Contains(toolName, "merge_request") then MergeRequestOf(f.mrIid, f.title, f.source, f.target) else [];
    var c := if Contains(toolName, "note") then NoteOf(f.body) else [];
    assert SectionsOf(toolName, f) == a + b + c;
    HasLineConcat(a, b, prefix);
    HasLineConcat(a + b, c, prefix);
  }

  /** No GitLab body line is the footer. */
  lemma GitLabBodyNoFooter(toolName: string, f: GitLabFields)
    ensures Footer !in SectionsOf(toolName, f)
    ensures Footer !in ProjectOf(f.projectId)
  {
    assert Footer[0] == '\U{26A0}';
    SectionsHasLine(toolName, f, Footer);
    ProjectOfNoLine(f.projectId, Footer);
    IssueOfNoLine(f.issueIid, f.title, Footer);
    MergeRequestOfNoLine(f.mrIid, f.title, f.source, f.target, Footer);
    NoteOfNoLine(f.body, Footer);
    if Footer in SectionsOf(toolName, f) {
      LineHasLine(SectionsOf(toolName, f), Footer);
    }
    if Footer in ProjectOf(f.projectId) {
      LineHasLine(ProjectOf(f.projectId), Footer);
    }
  }

  /**
   * A GitLab reason opens with the destructive banner, and carries the "cannot
   * be undone" footer, exactly when the operation is destructive.
   */
  lemma GitLabDestructive(name: string, toolName: string, destructive: bool, f: GitLabFields)
    ensures var lines := GitLabOf(name, toolName, destructive, f);
      && |lines| >= 4 && lines[|lines| - 2..] == Closing
      && (lines[0] == Banner(name) <==> destructive)
      && (Footer in lines <==> destructive)
  {
    var head := GitLabHead(name, destructive) + ProjectOf(f.projectId);
    GitLabBodyNoFooter(toolName, f);
    WarningsDiffer(name);
    PlainIsNotWarning("GitLab: " + name, name);
    assert Footer !in head;
    TailLayout(head, SectionsOf(toolName, f), destructive);
  }

  /** The project line is shown exactly when `project_id` is truthy. */
  lemma GitLabProject(name: string, toolName: string, destructive: bool, f: GitLabFields)
    ensures HasLine(GitLabOf(name, toolName, destructive, f), "Project: ") <==> Truthy(f.projectId)
  {
    GitLabHasLine(name, toolName, destructive, f, "Project: ");
    SectionsHasLine(toolName, f, "Project: ");
    IssueOfNoLine(f.issueIid, f.title, "Project: ");
    MergeRequestOfNoLine(f.mrIid, f.title, f.source, f.target, "Project: ");
    NoteOfNoLine(f.body, "Project: ");
    ProjectOfLines(f.projectId);
  }

  /** The issue line is shown exactly for an issue tool whose issue id is truthy. */
  lemma GitLabIssue(name: string, toolName: string, destructive: bool, f: GitLabFields)
    ensures HasLine(GitLabOf(name, toolName, destructive, f), "Issue: #")
            <==> Contains(toolName, "issue") && Truthy(f.issueIid)
  {
    GitLabHasLine(name, toolName, destructive, f, "Issue: #");
    SectionsHasLine(toolName, f, "Issue: #");
    ProjectOfNoLine(f.projectId, "Issue: #");
    MergeRequestOfNoLine(f.mrIid, f.title, f.source, f.target, "Issue: #");
    NoteOfNoLine(f.body, "Issue: #");
    IssueOfLines(f.issueIid, f.title);
  }

  /** The branches line is shown exactly for a merge request tool whose source and target are both truthy. */
  lemma GitLabBranches(name: string, toolName: string, destructive: bool, f: GitLabFields)
    ensures HasLine(GitLabOf(name, toolName, destructive, f), "Branches: ")
            <==> Contains(toolName, "merge_request") && Truthy(f.source) && Truthy(f.target)
  {
    GitLabHasLine(name, toolName, destructive, f, "Branches: ");
    SectionsHasLine(toolName, f, "Branches: ");
    ProjectOfNoLine(f.projectId, "Branches: ");
    IssueOfNoLine(f.issueIid, f.title, "Branches: ");
    NoteOfNoLine(f.body, "Branches: ");
    MergeRequestOfLines(f.mrIid, f.title, f.source, f.target);
  }

  /** The merge request number is shown exactly for a merge request tool whose number is truthy. */
  lemma GitLabMergeRequest(name: string, toolName: string, destructive: bool, f: GitLabFields)
    ensures HasLine(GitLabOf(name, toolName, destructive, f), "MR: !")
            <==> Contains(toolName, "merge_request") && Truthy(f.mrIid)
  {
    GitLabHasLine(name, toolName, destructive, f, "MR: !");
    SectionsHasLine(toolName, f, "MR: !");
    ProjectOfNoLine(f.projectId, "MR: !");
    IssueOfNoLine(f.issueIid, f.title, "MR: !");
    NoteOfNoLine(f.body, "MR: !");
    MergeRequestOfLines(f.mrIid, f.title, f.source, f.target);
  }

  /** The title is shown exactly for an issue or merge request tool whose title is truthy. */
  lemma GitLabTitle(name: string, toolName: string, destructive: bool, f: GitLabFields)
    ensures HasLine(GitLabOf(name, toolName, destructive, f), "Title: ")
            <==> (Contains(toolName, "issue") || Contains(toolName, "merge_request")) && Truthy(f.title)
  {
    GitLabHasLine(name, toolName, destructive, f, "Title: ");
    SectionsHasLine(toolName, f, "Title: ");
    ProjectOfNoLine(f.projectId, "Title: ");
    NoteOfNoLine(f.body, "Title: ");
    IssueOfLines(f.issueIid, f.title);
    MergeRequestOfLines(f.mrIid, f.title, f.source, f.target);
  }

  /**
   * A note tool, and only a note tool, shows the comment preview: the body
   * itself when at most 100 characters, else its first 100 and "...".
   */
  lemma GitLabNote(name: string, toolName: string, destructive: bool, f: GitLabFields)
    ensures HasLine(GitLabOf(name, toolName, destructive, f), "Comment: ") <==> Contains(toolName, "note")
    ensures Contains(toolName, "note") ==>
              "Comment: \"" + Truncate(AsText(f.body), 100) + "\"" in GitLabOf(name, toolName, destructive, f)
  {
    GitLabHasLine(name, toolName, destructive, f, "Comment: ");
    SectionsHasLine(toolName, f, "Comment: ");
    ProjectOfNoLine(f.projectId, "Comment: ");
    IssueOfNoLine(f.issueIid, f.title, "Comment: ");
    MergeRequestOfNoLine(f.mrIid, f.title, f.source, f.target, "Comment: ");
    NoteOfLines(f.body);
    if Contains(toolName, "note") {
      var sections := SectionsOf(toolName, f);
      assert NoteOf(f.body)[0] in sections;
      assert GitLabOf(name, toolName, destructive, f)
        == GitLabHead(name, destructive) + ProjectOf(f.projectId) + sections + Tail(destructive);
    }
  }

  // ------------------------------------------------------------------
  // Properties of the Google Workspace formatter
  // ------------------------------------------------------------------

  /** No Workspace body line starts with the warning sign. */
  lemma WorkspaceBodyLeads(toolName: string, args: Args, updateBranch: bool)
    ensures NoLineLeads(WorkspaceBody(toolName, args, updateBranch), '\U{26A0}')
  {
  }

  /**
   * Every Workspace operation is non-destructive: the reason opens with the
   * plain header, never carries the footer, and ends with the prompt.
   */
  lemma WorkspaceFrame(name: string, toolName: string, args: Args, updateBranch: bool)
    ensures var lines := WorkspaceLines(name, toolName, args, updateBranch);
      && |lines| >= 4 && lines[0] == "Google Workspace: " + name && lines[1] == ""
      && lines[|lines| - 2..] == Closing
      && Footer !in lines
  {
    var body := WorkspaceBody(toolName, args, updateBranch);
    WorkspaceBodyLeads(toolName, args, updateBranch);
    assert Footer[0] == '\U{26A0}';
    NoLineLeadsNoPrefix(body, Footer);
    if Footer in body {
      LineHasLine(body, Footer);
    }
    assert "Google Workspace: " + name != Footer by {
      assert ("Google Workspace: " + name)[0] != Footer[0];
    }
    var lines := WorkspaceHead(name) + body + Closing;
    assert lines[|lines| - 2..] == Closing;
  }

  /** A line that does not start like the header or the prompt comes from the selected section. */
  lemma WorkspaceHasLine(name: string, toolName: string, args: Args, updateBranch: bool, prefix: string)
    requires |prefix| > 0 && prefix[0] != 'G' && prefix[0] != 'A'
    ensures HasLine(WorkspaceLines(name, toolName, args, updateBranch), prefix)
            <==> HasLine(WorkspaceBody(toolName, args, updateBranch), prefix)
  {
    var head := WorkspaceHead(name);
    assert NoLineLeads(head, prefix[0]);
    NoLineLeadsNoPrefix(head, prefix);
    assert NoLineLeads(Closing, prefix[0]);
    NoLineLeadsNoPrefix(Closing, prefix);
    HasLineConcat(head, WorkspaceBody(toolName, args, updateBranch), prefix);
    HasLineConcat(head + WorkspaceBody(toolName, args, updateBranch), Closing, prefix);
  }

  lemma ModifyDocOfLines(documentId: Value, operations: Value)
    ensures "Document: " + Truncate(AsText(documentId), 20) in ModifyDocOf(documentId, operations)
    ensures HasLine(ModifyDocOf(documentId, operations), "Operations: ") <==> Truthy(operations)
    ensures operations.List? && |operations.items| > 0 ==>
              "Operations: " + Decimal(|operations.items|) + " changes" in ModifyDocOf(documentId, operations)
  {
    var lines := ModifyDocOf(documentId, operations);
    assert lines[0] in lines;
    DiffersAt(lines[0], "Operations: ", 0);
    if Truthy(operations) {
      var count := Decimal(Len(operations));
      assert lines[1] == "Operations: " + (count + " changes");
      PrefixOf("Operations: ", count + " changes");
      assert lines[1] in lines;
    }
  }

  lemma CreateDriveFileOfLines(fileName: Value, mimeType: Value, parents: Value)
    ensures "Name: " + Show(fileName) in CreateDriveFileOf(fileName, mimeType, parents)
    ensures HasLine(CreateDriveFileOf(fileName, mimeType, parents), "Type: ") <==> Truthy(mimeType)
    ensures HasLine(CreateDriveFileOf(fileName, mimeType, parents), "Folder: ") <==> Truthy(parents)
    ensures Truthy(parents) ==>
              "Folder: " + Truncate(AsText(First(parents)), 20) in CreateDriveFileOf(fileName, mimeType, parents)
  {
    var lines := CreateDriveFileOf(fileName, mimeType, parents);
    var nameLine := "Name: " + Show(fileName);
    var typeLine := "Type: " + Show(mimeType);
    var folderLine := "Folder: " + Truncate(AsText(First(parents)), 20);
    assert lines[0] == nameLine;
    assert forall line | line in lines :: line == nameLine || line == typeLine || line == folderLine;
    DiffersAt(nameLine, "Type: ", 0);
    DiffersAt(nameLine, "Folder: ", 0);
    DiffersAt(typeLine, "Folder: ", 0);
    DiffersAt(folderLine, "Type: ", 0);
    PrefixOf("Type: ", Show(mimeType));
    PrefixOf("Folder: ", Truncate(AsText(First(parents)), 20));
    if Truthy(mimeType) {
      assert lines[1] == typeLine;
      assert typeLine in lines;
    }
    if Truthy(parents) {
      assert folderLine in lines;
    }
  }

  /** The e-mail and role are shown as given, after the file id cut to 20 characters. */
  lemma ShareOfLines(fileId: Value, email: Value, role: Value)
    ensures FileLine(fileId) in ShareOf(fileId, email, role)
    ensures "Share with: " + Show(email) in ShareOf(fileId, email, role)
    ensures "Role: " + Show(role) in ShareOf(fileId, email, role)
    ensures |ShareOf(fileId, email, role)| == 3
  {
  }

  /** `modify_doc`: the truncated document id, and the operation count exactly when operations are truthy. */
  lemma WorkspaceModifyDoc(name: string, toolName: string, args: Args, updateBranch: bool)
    requires !Contains(toolName, "create_doc") && Contains(toolName, "modify_doc")
    ensures var lines := WorkspaceLines(name, toolName, args, updateBranch);
      var operations := Get(args, "operations", List([]));
      && "Document: " + Truncate(AsText(Get(args, "documentId", Str(""))), 20) in lines
      && (HasLine(lines, "Operations: ") <==> Truthy(operations))
      && (operations.List? && |operations.items| > 0 ==>
            "Operations: " + Decimal(|operations.items|) + " changes" in lines)
  {
    var documentId := Get(args, "documentId", Str(""));
    var operations := Get(args, "operations", List([]));
    var body := ModifyDocOf(documentId, operations);
    assert WorkspaceBody(toolName, args, updateBranch) == body;
    assert WorkspaceLines(name, toolName, args, updateBranch) == WorkspaceHead(name) + body + Closing;
    WorkspaceHasLine(name, toolName, args, updateBranch, "Operations: ");
    ModifyDocOfLines(documentId, operations);
  }

  /** `create_drive_file`: the name always, the type and the truncated first parent exactly when truthy. */
  lemma WorkspaceCreateDriveFile(name: string, toolName: string, args: Args, updateBranch: bool)
    requires !Contains(toolName, "create_doc") && !Contains(toolName, "modify_doc")
    requires Contains(toolName, "create_drive_file")
    ensures var lines := WorkspaceLines(name, toolName, args, updateBranch);
      var parents := Get(args, "parents", List([]));
      && "Name: " + Show(Get(args, "name", Str(""))) in lines
      && (HasLine(lines, "Type: ") <==> Truthy(Get(args, "mimeType", Str(""))))
      && (HasLine(lines, "Folder: ") <==> Truthy(parents))
      && (Truthy(parents) ==> "Folder: " + Truncate(AsText(First(parents)), 20) in lines)
  {
    var fileName := Get(args, "name", Str(""));
    var mimeType := Get(args, "mimeType", Str(""));
    var parents := Get(args, "parents", List([]));
    var body := CreateDriveFileOf(fileName, mimeType, parents);
    assert WorkspaceBody(toolName, args, updateBranch) == body;
    assert WorkspaceLines(name, toolName, args, updateBranch) == WorkspaceHead(name) + body + Closing;
    WorkspaceHasLine(name, toolName, args, updateBranch, "Type: ");
    WorkspaceHasLine(name, toolName, args, updateBranch, "Folder: ");
    CreateDriveFileOfLines(fileName, mimeType, parents);
  }

  /** `update_drive_file`, in a copy that has the branch: only the truncated file id. */
  lemma WorkspaceUpdateDriveFile(name: string, toolName: string, args: Args)
    requires !Contains(toolName, "create_doc") && !Contains(toolName, "modify_doc")
    requires !Contains(toolName, "create_drive_file") && Contains(toolName, "update_drive_file")
    ensures WorkspaceLines(name, toolName, args, true)
            == WorkspaceHead(name) + [FileLine(Get(args, "fileId", Str("")))] + Closing
  {
  }

  /** `share_drive_file`: the truncated file id, then the e-mail and role verbatim. */
  lemma WorkspaceShare(name: string, toolName: string, args: Args, updateBranch: bool)
    requires !Contains(toolName, "create_doc") && !Contains(toolName, "modify_doc")
    requires !Contains(toolName, "create_drive_file") && !(updateBranch && Contains(toolName, "update_drive_file"))
    requires Contains(toolName, "share_drive_file")
    ensures var lines := WorkspaceLines(name, toolName, args, updateBranch);
      && |lines| == 7
      && lines[2] == "File: " + Truncate(AsText(Get(args, "fileId", Str(""))), 20)
      && lines[3] == "Share with: " + Show(Get(args, "email", Str("")))
      && lines[4] == "Role: " + Show(Get(args, "role", Str("")))
  {
  }

  /** A tool name matching no branch gets only the header and the prompt. */
  lemma WorkspaceNoSection(name: string, toolName: string, args: Args, updateBranch: bool)
    requires !Contains(toolName, "create_doc") && !Contains(toolName, "modify_doc")
    requires !Contains(toolName, "create_drive_file") && !(updateBranch && Contains(toolName, "update_drive_file"))
    requires !Contains(toolName, "share_drive_file")
    ensures WorkspaceLines(name, toolName, args, updateBranch) == ["Google Workspace: " + name, "", "", "Approve?"]
  {
  }
}
