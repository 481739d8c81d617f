# Approval hooks and plugin discovery, modelled in Dafny

This project models the approval hooks that a coding assistant runs before
each tool call (the `PreToolUse` event). Each hook reads a JSON envelope
holding `tool_name` and `tool_input`. It then decides one of two things:

- it **allows** the call silently, when the envelope does not decode or the
  tool is not in the hook's table of guarded operations;
- it **asks** the user, with a reason text built line by line. The reason opens
  with a header naming the operation. The body shows the arguments that matter.
  Destructive operations get a `⚠️ DESTRUCTIVE:` banner and a
  `⚠️ This action cannot be undone` footer. Every reason ends with a blank line
  and `Approve?`.

There are seven hooks:

- the devflow plugin's combined knowledge-base hook. It has four formatters:
  RAG Memory ingest, GitLab, Google Workspace and a generic one. It chooses
  among them by the tool name's prefix.
- the stand-alone knowledge-base, RAG Memory, GitLab, Google Workspace, Google
  Drive and Atlassian hooks.

The project also models the pure parts of the devflow guide's discovery
script:

- the YAML front-matter parser;
- the skill categories taken from directory-name prefixes;
- the script name taken from a hook command;
- the grouping of hook matchers by backend, with duplicates removed.

Layout:

- `pystrings.dfy` (`PyStrings`): the Python `str` operations the scripts use.
  These are `in`, `startswith`, `endswith`, `find`, `split`, `join`, `strip`
  and the lower-case comparison.
- `hook_common.dfy` (`HookCommon`): what all hooks share. This covers JSON
  values, `dict.get`, truthiness, `str()`, truncation, newline escaping, the
  banner, footer and prompt lines, and the verdict.
- `formatters.dfy` (`Formatters`): the ingest, generic, GitLab and Workspace
  formatters. Each has a reference function giving the reason's lines, and a
  method that builds the lines by appending and joins them. Both the method and
  the lemmas are stated against that function. The knowledge-base and RAG
  Memory hooks carry their own copies of the ingest and generic formatters. The
  copies are identical except for the generic header, which is a parameter
  here.
- one module per hook script, with its table, destructive set, dispatch and
  `Hook` method.
- `discover.dfy` (`Discover`): the discovery script's string logic.

Where the devflow hook and the stand-alone Workspace hook differ, the model
follows each one's own code. The devflow copy guards `update_drive_file` but
has no branch for it, so that tool's reason is the header and the prompt only
(`DevflowKbHook.UpdateDriveFileHeaderOnly`). The stand-alone copy shows the
file id (`GoogleWorkspaceHook.UpdateDriveFileBranch`). `Formatters.WorkspaceLines`
takes a flag for that branch.

## Model

| member | source | states |
|---|---|---|
| PyStrings.JoinSplit | skills/devflow-guide/scripts/discover.py:35 | joining the pieces of a split with the same separator gives back the original string |
| PyStrings.SplitPieces | skills/devflow-guide/scripts/discover.py:35 | no piece of a split holds the separator |
| PyStrings.SplitCount | skills/devflow-guide/scripts/discover.py:192 | a split has two or more pieces exactly when the string holds the separator |
| PyStrings.SplitLast | skills/devflow-guide/scripts/discover.py:192 | the last piece of a split is a suffix of the string, and follows an occurrence of the separator when there is one |
| PyStrings.Strip | skills/devflow-guide/scripts/discover.py:38-39 | the result is a slice of the input with only whitespace cut off either end, and it neither starts nor ends with whitespace |
| PyStrings.Find | skills/devflow-guide/scripts/discover.py:37 | the index found is the first occurrence, and there is none exactly when the substring is absent |
| HookCommon.LookupStore | plugins/devflow/hooks/kb-modification-approval.py:16 | storing a decoded member changes what its own key looks up to, and no other key |
| HookCommon.StoreDistinct | plugins/devflow/hooks/kb-modification-approval.py:16 | storing a member into a dict with distinct keys keeps the keys distinct |
| HookCommon.DictOfLastWins | plugins/devflow/hooks/kb-modification-approval.py:16 | the decoded object holds each key once, and each key looks up to the value written last for it |
| HookCommon.GetAbsent | plugins/devflow/hooks/kb-modification-approval.py:100-102 | `dict.get` returns the default when no field has the key |
| HookCommon.GetPresent | plugins/devflow/hooks/kb-modification-approval.py:100-102 | `dict.get` returns the value of the field holding the key whenever there is one, even a falsy value |
| HookCommon.Truncate | plugins/devflow/hooks/kb-modification-approval.py:115 | text within the limit is unchanged; longer text becomes its first n characters followed by "..." (n + 3 in all) |
| HookCommon.TruncateBound | plugins/devflow/hooks/kb-modification-approval.py:204 | a preview is never longer than the limit plus three, and is either a prefix of the text or starts with the text's first n characters |
| HookCommon.TruncateIdempotent | plugins/devflow/hooks/kb-modification-approval.py:272 | truncating an already truncated text changes nothing |
| HookCommon.EscapeNewlines | plugins/devflow/hooks/kb-modification-approval.py:117 | the escaped text holds no newline and is no shorter than the input |
| HookCommon.ReplaceNewlines | plugins/devflow/hooks/kb-modification-approval.py:117 | `replace("\n", "\\n")`, read as a join of the split pieces, equals escaping each newline character by character |
| HookCommon.EscapeIdentity | plugins/devflow/hooks/kb-modification-approval.py:117 | text without a newline is left unchanged by the escape |
| HookCommon.EscapeAppend | plugins/devflow/hooks/kb-modification-approval.py:117 | escaping distributes over concatenation |
| HookCommon.Digits | plugins/devflow/hooks/kb-modification-approval.py:233 | the decimal rendering of a count is non-empty and all digits |
| HookCommon.DigitsRoundTrip | plugins/devflow/hooks/kb-modification-approval.py:233 | reading the rendered digits back gives the number |
| HookCommon.Tail | plugins/devflow/hooks/kb-modification-approval.py:275-280 | the reason always ends with a blank line and "Approve?", and holds the footer exactly when the operation is destructive |
| HookCommon.TailLayout | plugins/devflow/hooks/kb-modification-approval.py:207-212 | appending the tail keeps the lines before it, ends with the prompt, and adds the footer exactly for a destructive operation |
| HookCommon.ReasonEndsWithPrompt | plugins/devflow/hooks/kb-modification-approval.py:279-282 | any line list ending in "" and "Approve?" joins to a text ending in a blank line and "Approve?" |
| HookCommon.PlainIsNotWarning | plugins/devflow/hooks/kb-modification-approval.py:263-266 | a line starting with an ASCII character is neither the banner nor the footer |
| Formatters.FormatIngest | plugins/devflow/hooks/kb-modification-approval.py:91-163 | the appended lines, joined with newlines, are the reference ingest reason |
| Formatters.IngestHeaderLines | plugins/devflow/hooks/kb-modification-approval.py:95-110 | builds the header, collection, topic, optional re-ingest warning and blank line of the reference reason |
| Formatters.AppendTextLines | plugins/devflow/hooks/kb-modification-approval.py:113-124 | appends exactly the text-ingest section to the lines so far |
| Formatters.AppendUrlLines | plugins/devflow/hooks/kb-modification-approval.py:126-137 | appends exactly the URL-ingest section to the lines so far |
| Formatters.AppendDirectoryLines | plugins/devflow/hooks/kb-modification-approval.py:143-153 | appends exactly the directory-ingest section to the lines so far |
| Formatters.AppendMetadataLines | plugins/devflow/hooks/kb-modification-approval.py:155-158 | appends the metadata line exactly as the reference reason has it |
| Formatters.AppendClosing | plugins/devflow/hooks/kb-modification-approval.py:160-161 | appends the blank line and "Approve?" |
| Formatters.AppendTail | plugins/devflow/hooks/kb-modification-approval.py:275-280 | appends the footer pair for a destructive operation, then the prompt |
| Formatters.IngestFrame | plugins/devflow/hooks/kb-modification-approval.py:91-163 | an ingest reason has at least seven lines, opens with "RAG Memory: " and the name, ends with the prompt, and never holds the banner or the footer |
| Formatters.IngestLinesPlain | plugins/devflow/hooks/kb-modification-approval.py:91-163 | every ingest line starts with an ASCII character, except the re-ingest warning, which appears only for mode "reingest" |
| Formatters.IngestDefaults | plugins/devflow/hooks/kb-modification-approval.py:100-105 | the collection line shows "Unknown" and the topic line "(none)" exactly when the argument is absent, and the given value otherwise |
| Formatters.IngestReingest | plugins/devflow/hooks/kb-modification-approval.py:107-108 | the re-ingest warning appears exactly when `mode` is the string "reingest" |
| Formatters.TextPreviewSpec | plugins/devflow/hooks/kb-modification-approval.py:114-117 | the preview is the content cut to 150 characters with newlines escaped; it holds no newline; short newline-free content is shown as is |
| Formatters.IngestText | plugins/devflow/hooks/kb-modification-approval.py:113-124 | a text ingest shows the quoted preview, and the title when truthy, else "(auto-generated)" |
| Formatters.UrlOfLines | plugins/devflow/hooks/kb-modification-approval.py:130-137 | the crawl line appears exactly when `follow_links` is truthy, and the dry-run line exactly when `dry_run` is |
| Formatters.IngestUrl | plugins/devflow/hooks/kb-modification-approval.py:126-137 | in a URL ingest reason the crawl and dry-run lines appear exactly when their flags are truthy; the crawl limit defaults to 10 |
| Formatters.DirectoryOfLines | plugins/devflow/hooks/kb-modification-approval.py:147-153 | the section opens with the directory; the types line appears exactly when `file_extensions` is truthy and then lists its elements joined by ", "; the recursive line appears exactly when `recursive` is truthy |
| Formatters.IngestDirectory | plugins/devflow/hooks/kb-modification-approval.py:143-153 | in a directory ingest reason the types line appears exactly when `file_extensions` is truthy, listing its elements joined by ", ", and the recursive line exactly when `recursive` is truthy |
| Formatters.MetadataOfLines | plugins/devflow/hooks/kb-modification-approval.py:156-158 | a metadata line appears exactly when the metadata is truthy, listing an object's keys joined by ", " |
| Formatters.IngestMetadata | plugins/devflow/hooks/kb-modification-approval.py:155-158 | the whole ingest reason has a metadata line exactly when the metadata is truthy |
| Formatters.IngestDetailLines | plugins/devflow/hooks/kb-modification-approval.py:134-153 | an indented detail line in the reason can only come from the tool-specific section |
| Formatters.FormatGeneric | plugins/devflow/hooks/kb-modification-approval.py:259-282 | the loop over the arguments appends one line per argument in order, and the joined result is the reference generic reason |
| Formatters.ParamLineShape | plugins/devflow/hooks/kb-modification-approval.py:270-273 | each argument line is two spaces, the key, ": " and the value; strings over 100 characters are cut to 100 plus "..."; other values are rendered whole |
| Formatters.GenericLayout | plugins/devflow/hooks/kb-modification-approval.py:259-282 | header, blank line, "Parameters:", then exactly one line per argument in input order, then the tail |
| Formatters.GenericDestructive | plugins/devflow/hooks/kb-modification-approval.py:263-277 | the generic reason opens with the banner, and carries the footer, exactly when the operation is destructive |
| Formatters.FormatGitLab | plugins/devflow/hooks/kb-modification-approval.py:166-214 | the appended lines, joined, are the reference GitLab reason |
| Formatters.AppendGitLabSections | plugins/devflow/hooks/kb-modification-approval.py:182-205 | appends the issue, merge-request and note sections, each exactly when the tool name mentions it |
| Formatters.AppendIssueLines | plugins/devflow/hooks/kb-modification-approval.py:182-188 | appends the issue section, reading the id from `issue_iid` with `iid` as fallback |
| Formatters.AppendMergeRequestLines | plugins/devflow/hooks/kb-modification-approval.py:190-200 | appends the merge-request section, reading the id from `merge_request_iid` with `iid` as fallback |
| Formatters.ReadGitLabIds | plugins/devflow/hooks/kb-modification-approval.py:183-191 | `issue_iid` and `merge_request_iid` are used whenever present, even when falsy; `iid` is used only when they are absent |
| Formatters.ProjectOfLines | plugins/devflow/hooks/kb-modification-approval.py:178-180 | the project line appears exactly when `project_id` is truthy |
| Formatters.IssueOfLines | plugins/devflow/hooks/kb-modification-approval.py:185-188 | the issue line appears exactly when the issue id is truthy, and the title line exactly when the title is |
| Formatters.MergeRequestOfLines | plugins/devflow/hooks/kb-modification-approval.py:195-200 | the "MR: !" line appears exactly when the merge-request id is truthy, the title line exactly when the title is, and the branches line exactly when both branches are |
| Formatters.NoteOfLines | plugins/devflow/hooks/kb-modification-approval.py:202-205 | the note section always has a comment line |
| Formatters.SectionsHasLine | plugins/devflow/hooks/kb-modification-approval.py:182-205 | a line of the sections comes from a section whose keyword the tool name mentions |
| Formatters.GitLabDestructive | plugins/devflow/hooks/kb-modification-approval.py:170-212 | a GitLab reason ends with the prompt, and opens with the banner and holds the footer exactly when destructive |
| Formatters.GitLabProject | plugins/devflow/hooks/kb-modification-approval.py:178-180 | the whole reason has a project line exactly when `project_id` is truthy |
| Formatters.GitLabIssue | plugins/devflow/hooks/kb-modification-approval.py:182-186 | the reason has an issue line exactly when the tool name mentions "issue" and the issue id is truthy |
| Formatters.GitLabBranches | plugins/devflow/hooks/kb-modification-approval.py:190-200 | the reason has a branches line exactly when the tool name mentions "merge_request" and both branches are truthy |
| Formatters.GitLabMergeRequest | plugins/devflow/hooks/kb-modification-approval.py:190-196 | the reason has an "MR: !" line exactly when the tool name mentions "merge_request" and the merge-request id is truthy |
| Formatters.GitLabTitle | plugins/devflow/hooks/kb-modification-approval.py:182-198 | the reason has a title line exactly when the tool name mentions "issue" or "merge_request" and the title is truthy |
| Formatters.GitLabNote | plugins/devflow/hooks/kb-modification-approval.py:202-205 | the reason has a comment line exactly when the tool name mentions "note", and it quotes the body cut to 100 characters |
| Formatters.FormatWorkspace | plugins/devflow/hooks/kb-modification-approval.py:217-256 | the appended lines, joined, are the reference Workspace reason |
| Formatters.AppendModifyDocLines | plugins/devflow/hooks/kb-modification-approval.py:228-233 | appends the document line and, for non-empty operations, the change count |
| Formatters.AppendCreateDriveFileLines | plugins/devflow/hooks/kb-modification-approval.py:235-243 | appends the name, the optional type and the optional first parent folder |
| Formatters.AppendShareLines | plugins/devflow/hooks/kb-modification-approval.py:245-251 | appends the file, share-with and role lines |
| Formatters.WorkspaceFrame | plugins/devflow/hooks/kb-modification-approval.py:217-256 | a Workspace reason opens with "Google Workspace: " and the name and a blank line, ends with the prompt, and never holds the footer |
| Formatters.ModifyDocOfLines | plugins/devflow/hooks/kb-modification-approval.py:228-233 | the document id is shown cut to 20 characters; an operations line appears exactly when operations are truthy, giving their count |
| Formatters.CreateDriveFileOfLines | plugins/devflow/hooks/kb-modification-approval.py:235-243 | the name is always shown; the type and folder lines appear exactly when truthy; the folder is the first parent cut to 20 characters |
| Formatters.ShareOfLines | plugins/devflow/hooks/kb-modification-approval.py:245-251 | the share section is exactly three lines: file, e-mail and role |
| Formatters.WorkspaceModifyDoc | plugins/devflow/hooks/kb-modification-approval.py:228-233 | a `modify_doc` reason shows the cut document id, and an operations count exactly when operations are truthy |
| Formatters.WorkspaceCreateDriveFile | plugins/devflow/hooks/kb-modification-approval.py:235-243 | a `create_drive_file` reason shows the name, and the type and folder exactly when truthy |
| Formatters.WorkspaceUpdateDriveFile | hooks/google-workspace-approval.py:80-82 | with the update branch, an `update_drive_file` reason is the header, the file line and the prompt |
| Formatters.WorkspaceShare | plugins/devflow/hooks/kb-modification-approval.py:245-251 | a `share_drive_file` reason is seven lines, with the file, e-mail and role at lines 2 to 4 |
| Formatters.WorkspaceNoSection | plugins/devflow/hooks/kb-modification-approval.py:217-256 | a tool name matching no branch gets the header, a blank line and the prompt only |
| DevflowKbHook.Hook | plugins/devflow/hooks/kb-modification-approval.py:15-293 | an undecodable envelope or an unguarded tool is allowed; a guarded tool is asked about with the reason its family's formatter builds |
| DevflowKbHook.DestructiveProtected | plugins/devflow/hooks/kb-modification-approval.py:30-76 | every destructive tool is a guarded one |
| DevflowKbHook.PrefixesDisjoint | plugins/devflow/hooks/kb-modification-approval.py:286-292 | no tool name has two of the three dispatch prefixes, so the order of the tests does not matter |
| DevflowKbHook.RouteByPrefix | plugins/devflow/hooks/kb-modification-approval.py:286-293 | each family is chosen exactly when the tool name has its prefix; generic exactly when it has none |
| DevflowKbHook.DestructiveRoutes | plugins/devflow/hooks/kb-modification-approval.py:72-76 | the two RAG deletions go to the generic formatter and the issue deletion to the GitLab one |
| DevflowKbHook.NamesPlain | plugins/devflow/hooks/kb-modification-approval.py:30-70 | every operation name starts with an ASCII character |
| DevflowKbHook.RichFamiliesNotDestructive | plugins/devflow/hooks/kb-modification-approval.py:72-76 | no ingest or Workspace tool is destructive |
| DevflowKbHook.FamilyFrame | plugins/devflow/hooks/kb-modification-approval.py:91-293 | every family's reason ends with the prompt and holds the footer exactly when destructive |
| DevflowKbHook.ReasonFrame | plugins/devflow/hooks/kb-modification-approval.py:91-293 | a guarded tool's reason ends with a blank line and "Approve?", and holds the footer exactly for the destructive tools |
| DevflowKbHook.ReasonBanner | plugins/devflow/hooks/kb-modification-approval.py:170-173 | for the GitLab and generic families the reason opens with the banner exactly for the destructive tools |
| DevflowKbHook.UpdateDriveFileSections | plugins/devflow/hooks/kb-modification-approval.py:224-245 | the `update_drive_file` tool name matches none of the four Workspace branches |
| DevflowKbHook.UpdateDriveFileEntry | plugins/devflow/hooks/kb-modification-approval.py:68 | `update_drive_file` is guarded as "Update Drive File" and is not destructive |
| DevflowKbHook.UpdateDriveFileRoute | plugins/devflow/hooks/kb-modification-approval.py:290-291 | `update_drive_file` is sent to the Workspace formatter |
| DevflowKbHook.UpdateDriveFileHeaderOnly | plugins/devflow/hooks/kb-modification-approval.py:217-256 | the `update_drive_file` reason is the header, a blank line and the prompt, with no file line |
| KbHook.Hook | hooks/kb-modification-approval.py:60-178 | an undecodable envelope or an unguarded tool is allowed; ingest tools get the ingest reason and the others the generic one |
| KbHook.DestructiveProtected | hooks/kb-modification-approval.py:28-58 | every destructive tool is a guarded one |
| KbHook.DestructiveRoutes | hooks/kb-modification-approval.py:175-178 | the two deletions go to the generic formatter |
| KbHook.NamesPlain | hooks/kb-modification-approval.py:28-53 | every operation name starts with an ASCII character |
| KbHook.ReasonFrame | hooks/kb-modification-approval.py:73-178 | ingest reasons open with "RAG Memory: " and the name; generic ones with the banner when destructive, else the bare name; the footer appears exactly for the deletions; all end with the prompt |
| RagMemoryHook.Hook | hooks/rag-memory-approval.py:49-161 | an undecodable envelope or an unguarded tool is allowed; ingest tools get the ingest reason and the others the generic one |
| RagMemoryHook.DestructiveProtected | hooks/rag-memory-approval.py:28-47 | every destructive tool is a guarded one |
| RagMemoryHook.DestructiveRoutes | hooks/rag-memory-approval.py:158-161 | the two deletions go to the generic formatter |
| RagMemoryHook.ReasonFrame | hooks/rag-memory-approval.py:62-161 | the reason opens with the banner for a deletion and with "RAG Memory: " and the name otherwise, holds the footer exactly for the deletions, and ends with the prompt |
| GitLabHook.Hook | hooks/gitlab-approval.py:41-104 | an undecodable envelope or an unguarded tool is allowed; a guarded tool is asked about with the GitLab reason |
| GitLabHook.DestructiveProtected | hooks/gitlab-approval.py:28-39 | the destructive tool is a guarded one |
| GitLabHook.ReasonFrame | hooks/gitlab-approval.py:54-101 | the reason opens with the banner only for `delete_issue`, else "GitLab: " and the name; it holds the footer exactly for `delete_issue`; it ends with the prompt |
| GitLabHook.IssueToolsSections | hooks/gitlab-approval.py:69-92 | the three issue tools show the issue section only |
| GitLabHook.MergeRequestToolsSections | hooks/gitlab-approval.py:69-92 | the two merge-request tools show the merge-request section only |
| GitLabHook.NoteToolSections | hooks/gitlab-approval.py:69-92 | the note tool shows the comment section only |
| GoogleWorkspaceHook.Hook | hooks/google-workspace-approval.py:39-98 | an undecodable envelope or an unguarded tool is allowed; a guarded tool is asked about with the Workspace reason, update branch included |
| GoogleWorkspaceHook.ReasonFrame | hooks/google-workspace-approval.py:52-95 | every reason opens with "Google Workspace: " and the name, never holds the footer, and ends with the prompt |
| GoogleWorkspaceHook.CreateDocBranch | hooks/google-workspace-approval.py:59-61 | `create_doc` shows the title |
| GoogleWorkspaceHook.ModifyDocTextBranch | hooks/google-workspace-approval.py:63-68 | `modify_doc_text` takes the document branch |
| GoogleWorkspaceHook.CreateDriveFileBranch | hooks/google-workspace-approval.py:70-78 | `create_drive_file` takes its own branch and not the `create_doc` one |
| GoogleWorkspaceHook.UpdateDriveFileBranch | hooks/google-workspace-approval.py:80-82 | `update_drive_file` shows only the file id cut to 20 characters |
| GoogleWorkspaceHook.ShareDriveFileBranch | hooks/google-workspace-approval.py:84-90 | `share_drive_file` shows the file id, the e-mail and the role |
| GoogleDriveHook.FormatDrive | hooks/google-drive-approval.py:47-74 | the appended lines, joined, are the reference Drive reason |
| GoogleDriveHook.AppendUploadLines | hooks/google-drive-approval.py:54-62 | appends the file line, then the name and folder lines when truthy |
| GoogleDriveHook.AppendCreateFolderLines | hooks/google-drive-approval.py:64-69 | appends the folder line, then the parent line when truthy |
| GoogleDriveHook.Hook | hooks/google-drive-approval.py:34-77 | an undecodable envelope or an unguarded tool is allowed; a guarded tool is asked about with the Drive reason |
| GoogleDriveHook.DriveFrame | hooks/google-drive-approval.py:47-74 | every reason opens with "Google Drive: " and the name, never holds the footer, and ends with the prompt |
| GoogleDriveHook.UploadOfLines | hooks/google-drive-approval.py:54-62 | the local path is always shown; the name and folder lines appear exactly when truthy; the folder id is cut to 20 characters |
| GoogleDriveHook.CreateFolderOfLines | hooks/google-drive-approval.py:64-69 | the folder name is always shown; the parent line appears exactly when truthy, cut to 20 characters |
| GoogleDriveHook.DriveUpload | hooks/google-drive-approval.py:54-62 | in an upload reason the name and folder lines appear exactly when truthy |
| GoogleDriveHook.DriveCreateFolder | hooks/google-drive-approval.py:64-69 | in a folder-creation reason the parent line appears exactly when truthy |
| GoogleDriveHook.DriveVerdicts | hooks/google-drive-approval.py:27-43 | exactly the upload and folder-creation tools are asked about, always with a reason that ends with the prompt |
| AtlassianHook.Hook | hooks/atlassian-approval.py:43-82 | an undecodable envelope or an unguarded tool is allowed; a guarded tool is asked about with the generic reason under "Atlassian: " |
| AtlassianHook.ReasonFrame | hooks/atlassian-approval.py:56-79 | the reason opens with "Atlassian: " and the name, lists each argument once in input order, never holds the footer, and ends with the prompt |
| Discover.TryOpenSpec | skills/devflow-guide/scripts/discover.py:30 | backtracking over the whitespace after the dashes finds a block exactly when some newline in that run is followed by a closing "\n---", and takes the longest such run |
| Discover.FrontmatterBlockSpec | skills/devflow-guide/scripts/discover.py:30-32 | a block exists exactly when the content opens with "---", optional whitespace ending in a newline, and a later "\n---"; the block runs up to the first closing "\n---" |
| Discover.ParseFrontmatter | skills/devflow-guide/scripts/discover.py:28-50 | the loop over the block's lines fills the same dictionary as the reference parse, and gives an empty one without a block |
| Discover.CollectStep | skills/devflow-guide/scripts/discover.py:48 | each parsed line overwrites its key in the dictionary built so far |
| Discover.ConvertFlags | skills/devflow-guide/scripts/discover.py:40-43 | a value becomes the flag true or false exactly when it reads "true" or "false" in any letter case |
| Discover.ConvertQuoted | skills/devflow-guide/scripts/discover.py:44-47 | a value wrapped in double or single quotes loses exactly one outer pair |
| Discover.ConvertPlain | skills/devflow-guide/scripts/discover.py:40-48 | a value that is no flag and opens with no quote is kept as it is |
| Discover.ParseLineSpec | skills/devflow-guide/scripts/discover.py:35-39 | only lines with a colon and no leading space or tab give an entry; the key is the stripped text before the first colon and never holds a colon; the value is the rest, stripped and converted |
| Discover.LastWins | skills/devflow-guide/scripts/discover.py:48 | the dictionary holds exactly the parsed keys, each with the value of its last occurrence |
| Discover.FrontmatterKeys | skills/devflow-guide/scripts/discover.py:28-50 | no front-matter key holds a colon; content without a block gives no keys |
| Discover.CategorySpec | skills/devflow-guide/scripts/discover.py:86-100 | a directory's category is the one prefix it starts with, and "core" exactly when it starts with none |
| Discover.ScriptNameSpec | skills/devflow-guide/scripts/discover.py:192 | the script name is the command's suffix after its last '/': it holds no '/', and is the whole command when there is none |
| Discover.OperationSpec | skills/devflow-guide/scripts/discover.py:219 | the operation is a suffix of the pattern holding no "__", following a "__" when the pattern has one, and the whole pattern when it has none |
| Discover.OperationFirstCut | skills/devflow-guide/scripts/discover.py:219 | the pattern is cut at its first "__" and the search goes on after it, so the operation is that of the text after the first "__"; this fixes the operation uniquely |
| Discover.OperationOddRun | skills/devflow-guide/scripts/discover.py:219 | in "a___b" the cut falls after the first two underscores, so the operation is "_b" |
| Discover.BackendSpec | skills/devflow-guide/scripts/discover.py:205-215 | a pattern's backend is one whose marker it mentions, and "Other" exactly when it mentions none; a pattern naming several goes to the earliest of RAG Memory, Atlassian, Google Drive and GitLab |
| Discover.GroupByBackend | skills/devflow-guide/scripts/discover.py:203-224 | the loop over the matchers builds the reference grouping |
| Discover.StepDistinct | skills/devflow-guide/scripts/discover.py:219-224 | adding a matcher keeps each operation at most once within its backend |
| Discover.StepPreserves | skills/devflow-guide/scripts/discover.py:203-224 | one matcher's turn keeps the grouping well formed for the matchers seen so far |
| Discover.GroupsOfWellGrouped | skills/devflow-guide/scripts/discover.py:203-224 | each backend is listed once with a non-empty group; each operation appears once per backend; every entry sits under its pattern's backend with its pattern's operation; every matcher's operation is listed |

## Left out

- JSON decoding and printing. The decoder's result is an `Option` of the tool
  name and arguments, where `None` stands for a decode error. The printed
  decision is the `Verdict`. `sys.exit(0)` is not modelled: every hook always
  succeeds.
- A decoded envelope that is not an object, or a `tool_input` that is not one,
  would make the scripts fail. The model takes the arguments as an ordered list
  of fields and does not model that crash.
- Decoding JSON text into values is not modelled. How the decoder builds an
  object from its members is: `HookCommon.DictOf` keeps each key once, at the
  position it was first written, with the value written last. Each `Hook`
  takes `tool_input` as such a dict, with distinct keys. Objects nested inside
  argument values are not required to have distinct keys. For one that repeats
  a key, `Show` and `Keys` list every repeat, where Python's dict holds the key
  once.
- Floating-point JSON numbers are not modelled. `Show` follows Python's `str()`
  for strings, integers, booleans, `None`, lists and objects.
- Repr: the escaping Python's `repr` applies to strings inside a rendered list
  or object is not modelled. Python escapes backslashes, quotes, newlines, tabs
  and other non-printable characters, and switches to double quotes when the
  string holds a single quote. The model puts the string between single quotes
  as it is. For an argument `["a\nb"]` Python shows one line with a literal
  `\n`, where the model's line holds a real newline.
- Arguments of the wrong JSON type are out of scope. Wherever Python would
  raise on one, the model still gives a reason. The cases are:
  - slicing a non-string `folder_id`, `parent`, `documentId`, `fileId`,
    `parents[0]`, `body` or `content`: the model slices its `Show` text;
  - `len(operations)` on a number, boolean or `null`: `Len` gives 0;
  - `", ".join` over a list of non-strings, or over a number or boolean:
    `Elements` renders the items with `Show`, or gives nothing;
  - `metadata.keys()` on a truthy value that is not an object: the line lists
    no keys;
  - `parents[0]` on an object, number or boolean: `First` gives `None`.
- Argument order is the order in which each key was first written, as the
  decoder's dict keeps it (`HookCommon.DictOf`).
- In the discovery script, the plugin-root lookup, directory scans, file
  reads, reading `hooks.json`, the `tools:` list extraction, the
  `hook_descriptions` lookup, the skill and agent record defaults, sorting and
  the JSON output are not modelled. These are file-system plumbing around the
  modelled string logic. The grouping reads only the `matcher` pattern of each
  matcher record.
- `\s` in the front-matter pattern and `strip()` use the whitespace set of
  `PyStrings.IsSpace`. Lower-casing compares ASCII letters only. This is exact
  for the words "true" and "false".
- The brand skill's scripts (`render_pdf.py`, `bootstrap.py`) and the
  primitives toolkit's `setup-skills.py` are not part of this model.
