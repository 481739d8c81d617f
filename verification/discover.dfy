/**
 * The string logic of the DevFlow discovery script: the YAML front-matter
 * parser, the skill categories taken from directory-name prefixes, the script
 * name taken from a hook command, and the grouping of hook matchers by
 * backend.  The directory scanning and file reading around them are not
 * modelled.
 */
module Discover {
  import opened PyStrings

  // ------------------------------------------------------------------
  // The front-matter block: three dashes at the very start, optional
  // whitespace ending in a newline, the block (newlines allowed, shortest
  // first), then a newline and three dashes
  // ------------------------------------------------------------------

  /** Length of the whitespace run right after the opening "---". */
  function RunLength(content: string): (w: nat)
    requires |content| >= 3
    ensures 3 + w <= |content|
  {
    LeadingSpaces(content[3..])
  }

  /**
   * The regular expression matches with `\s*` taking `j` characters and the
   * lazy group ending at `e`: the opening dashes, a newline at `3 + j` inside
   * the whitespace run, and `e` the first "\n---" at or after `4 + j`.
   */
  ghost predicate Opens(content: string, j: int, e: int)
  {
    && StartsWith(content, "---")
    && 0 <= j < RunLength(content)
    && content[3 + j] == '\n'
    && 4 + j <= e && OccursAt(content, "\n---", e)
    && forall e' | 4 + j <= e' < e :: !OccursAt(content, "\n---", e')
  }

  /** Backtracking over `\s*`: try the newline positions of the run from the last one down. */
  function TryOpen(content: string, j: int): Option<string>
    requires StartsWith(content, "---") && j < RunLength(content)
    decreases j + 1
  {
    if j < 0 then None
    else if content[3 + j] == '\n' && FindFrom(content, "\n---", 4 + j).Some? then
      Some(content[4 + j..FindFrom(content, "\n---", 4 + j).value])
    else TryOpen(content, j - 1)
  }

  /** The text between the opening and closing dashes, when the content has a front-matter block. */
  function FrontmatterBlock(content: string): Option<string>
  {
    if StartsWith(content, "---") then TryOpen(content, RunLength(content) - 1) else None
  }

  lemma {:induction false} TryOpenSpec(content: string, j: int)
    requires StartsWith(content, "---") && j < RunLength(content)
    decreases j + 1
    ensures TryOpen(content, j).Some? <==> exists j', e | j' <= j :: Opens(content, j', e)
    ensures TryOpen(content, j).Some? ==>
              exists j', e | j' <= j :: Opens(content, j', e) && TryOpen(content, j).value == content[4 + j'..e]
                                        && forall j2, e2 | j' < j2 <= j :: !Opens(content, j2, e2)
  {
    if j >= 0 {
      var f := FindFrom(content, "\n---", 4 + j);
      if content[3 + j] == '\n' && f.Some? {
        assert Opens(content, j, f.value);
      } else {
        TryOpenSpec(content, j - 1);
        if content[3 + j] == '\n' {
          assert f.None?;
        }
        assert forall e :: !Opens(content, j, e);
        if TryOpen(content, j).Some? {
          var j', e :| j' <= j - 1 && Opens(content, j', e) && TryOpen(content, j).value == content[4 + j'..e]
                       && forall j2, e2 | j' < j2 <= j - 1 :: !Opens(content, j2, e2);
          assert forall j2, e2 | j' < j2 <= j :: !Opens(content, j2, e2);
        }
      }
    }
  }

  /**
   * A block is found exactly when the content opens with "---", a newline
   * ends a prefix of the whitespace run after it, and "\n---" follows; the
   * block is the text up to the first "\n---", for the longest such run.
   */
  lemma FrontmatterBlockSpec(content: string)
    ensures FrontmatterBlock(content).Some? <==> exists j, e :: Opens(content, j, e)
    ensures FrontmatterBlock(content).Some? ==>
              exists j, e :: Opens(content, j, e) && FrontmatterBlock(content).value == content[4 + j..e]
                             && forall j2, e2 | j < j2 :: !Opens(content, j2, e2)
  {
    if StartsWith(content, "---") {
      var w: int := RunLength(content);
      TryOpenSpec(content, w - 1);
      assert forall j, e | Opens(content, j, e) :: j <= w - 1;
    } else {
      assert forall j, e :: !Opens(content, j, e);
    }
  }

  // ------------------------------------------------------------------
  // Front-matter lines
  // ------------------------------------------------------------------

  /** A front-matter value: `true`/`false` in any case become flags, everything else stays text. */
  datatype FmValue = Flag(b: bool) | Text(s: string)

  /** Python's `v[1:-1]`, which is empty for a string shorter than two. */
  function Unquote(v: string): string
  {
    if |v| >= 2 then v[1..|v| - 1] else ""
  }

  function Convert(value: string): FmValue
  {
    if LowerEquals(value, "true") then Flag(true)
    else if LowerEquals(value, "false") then Flag(false)
    else if StartsWith(value, "\"") && EndsWith(value, "\"") then Text(Unquote(value))
    else if StartsWith(value, "'") && EndsWith(value, "'") then Text(Unquote(value))
    else Text(value)
  }

  /** Index of the first `c` in `s`. */
  function FirstIndex(s: string, c: char): (i: nat)
    requires c in s
    ensures i < |s| && s[i] == c && c !in s[..i]
  {
    if s[0] == c then 0
    else
      assert c in s[1..] by { var k :| 0 <= k < |s| && s[k] == c; assert s[1..][k - 1] == c; }
      1 + FirstIndex(s[1..], c)
  }

  /** A line with a colon and no leading space or tab gives the stripped text around its first colon. */
  function ParseLine(line: string): Option<(string, FmValue)>
  {
    if ':' in line && !StartsWith(line, " ") && !StartsWith(line, "\t") then
      var i := FirstIndex(line, ':');
      Some((Strip(line[..i]), Convert(Strip(line[i + 1..]))))
    else None
  }

  /** The entries of the lines that parse, in order. */
  function Entries(lines: seq<string>): seq<(string, FmValue)>
  {
    if |lines| == 0 then []
    else
      var p := ParseLine(Last(lines));
      Entries(lines[..|lines| - 1]) + (if p.Some? then [p.value] else [])
  }

  /** The dictionary filled from `entries` in order, a later key overwriting an earlier one. */
  function Collect(entries: seq<(string, FmValue)>): map<string, FmValue>
  {
    if |entries| == 0 then map[] else Collect(entries[..|entries| - 1])[Last(entries).0 := Last(entries).1]
  }

  /** The parsed front matter: empty without a block. */
  function Frontmatter(content: string): map<string, FmValue>
  {
    var block := FrontmatterBlock(content);
    if block.None? then map[] else Collect(Entries(Split(block.value, "\n")))
  }

  /** `parse_frontmatter`: the block's lines, one at a time, into a dictionary. */
  method ParseFrontmatter(content: string) returns (fm: map<string, FmValue>)
    ensures fm == Frontmatter(content)
  {
    var block := FrontmatterBlock(content);
    if block.None? {
      return map[];
    }
    var lines := Split(block.value, "\n");
    fm := map[];
    var i := 0;
    while i < |lines|
      invariant 0 <= i <= |lines|
      invariant fm == Collect(Entries(lines[..i]))
    {
      var line := lines[i];
      assert lines[..i + 1][..i] == lines[..i];
      CollectStep(lines, i);
      if ':' in line && !StartsWith(line, " ") && !StartsWith(line, "\t") {
        var colon := FirstIndex(line, ':');
        var key := Strip(line[..colon]);
        var value := Strip(line[colon + 1..]);
        fm := fm[key := Convert(value)];
      }
      i := i + 1;
    }
    assert lines[..i] == lines;
  }

  /** One more line of the block: its entry, if any, overwrites the dictionary so far. */
  lemma CollectStep(lines: seq<string>, i: nat)
    requires i < |lines|
    ensures ParseLine(lines[i]).None? ==> Collect(Entries(lines[..i + 1])) == Collect(Entries(lines[..i]))
    ensures ParseLine(lines[i]).Some? ==>
              var e := ParseLine(lines[i]).value;
              Collect(Entries(lines[..i + 1])) == Collect(Entries(lines[..i]))[e.0 := e.1]
  {
    var p := ParseLine(lines[i]);
    var before := Entries(lines[..i]);
    EntriesStep(lines, i, p);
    if p.Some? {
      CollectAppend(before, p.value);
    }
  }

  lemma EntriesStep(lines: seq<string>, i: nat, p: Option<(string, FmValue)>)
    requires i < |lines| && p == ParseLine(lines[i])
    ensures p.None? ==> Entries(lines[..i + 1]) == Entries(lines[..i])
    ensures p.Some? ==> Entries(lines[..i + 1]) == Entries(lines[..i]) + [p.value]
  {
    assert lines[..i + 1][..i] == lines[..i];
  }

  lemma CollectAppend(entries: seq<(string, FmValue)>, e: (string, FmValue))
    ensures Collect(entries + [e]) == Collect(entries)[e.0 := e.1]
  {
    assert (entries + [e])[..|entries|] == entries;
  }

  // ------------------------------------------------------------------
  // Properties of the front-matter parser
  // ------------------------------------------------------------------

  /** `true` and `false` in any letter case become flags, and nothing else does. */
  lemma ConvertFlags(value: string)
    ensures Convert(value) == Flag(true) <==> LowerEquals(value, "true")
    ensures Convert(value) == Flag(false) <==> LowerEquals(value, "false")
  {
    if LowerEquals(value, "false") {
      assert |value| != |"true"|;
    }
  }

  /** A value wrapped in one pair of double or single quotes loses exactly that pair. */
  lemma ConvertQuoted(s: string, q: char)
    requires q == '"' || q == '\''
    ensures Convert([q] + s + [q]) == Text(s)
  {
    var v := [q] + s + [q];
    assert LowerChar(v[0]) == q;
    assert !LowerEquals(v, "true") && !LowerEquals(v, "false");
    assert v[1..|v| - 1] == s;
  }

  /** Text that is not a flag and does not open with a quote is kept as it is. */
  lemma ConvertPlain(value: string)
    requires !LowerEquals(value, "true") && !LowerEquals(value, "false")
    requires |value| == 0 || (value[0] != '"' && value[0] != '\'')
    ensures Convert(value) == Text(value)
  {
  }

  /**
   * A parsed line comes from its first colon: the key is the stripped text
   * before it, so never holds a colon, and the value is the converted,
   * stripped text after it.  Lines starting with a space or tab give nothing.
   */
  lemma ParseLineSpec(line: string)
    ensures |line| > 0 && (line[0] == ' ' || line[0] == '\t') ==> ParseLine(line).None?
    ensures ':' !in line ==> ParseLine(line).None?
    ensures ParseLine(line).Some? ==>
              exists i | 0 <= i < |line| :: line[i] == ':' && ':' !in line[..i]
                                           && ParseLine(line).value == (Strip(line[..i]), Convert(Strip(line[i + 1..])))
    ensures ParseLine(line).Some? ==> ':' !in ParseLine(line).value.0
  {
    if |line| > 0 && (line[0] == ' ' || line[0] == '\t') {
      assert StartsWith(line, [line[0]]);
    }
    if ParseLine(line).Some? {
      var i := FirstIndex(line, ':');
      StripKeeps(line[..i], ':');
    }
  }

  /** Stripping cannot bring in a character the text lacks. */
  lemma StripKeeps(s: string, c: char)
    requires c !in s
    ensures c !in Strip(s)
  {
    var a, b :| 0 <= a <= b <= |s| && Strip(s) == s[a..b];
    assert forall k | 0 <= k < b - a :: s[a..b][k] == s[a + k];
  }

  /**
   * The dictionary has exactly the keys of the entries, and each key holds
   * the value of its last entry.
   */
  lemma {:induction false} LastWins(entries: seq<(string, FmValue)>, key: string)
    ensures key in Collect(entries) <==> exists i | 0 <= i < |entries| :: entries[i].0 == key
    ensures forall i | 0 <= i < |entries| && entries[i].0 == key
                       && (forall j | i < j < |entries| :: entries[j].0 != key) ::
              Collect(entries)[key] == entries[i].1
    decreases |entries|
  {
    if |entries| > 0 {
      var init := entries[..|entries| - 1];
      LastWins(init, key);
      assert forall i | 0 <= i < |init| :: init[i] == entries[i];
      if key in Collect(init) {
        var i :| 0 <= i < |init| && init[i].0 == key;
        assert entries[i].0 == key;
      }
    }
  }

  lemma {:induction false} EntriesKeys(lines: seq<string>)
    ensures forall i | 0 <= i < |Entries(lines)| :: ':' !in Entries(lines)[i].0
    decreases |lines|
  {
    if |lines| > 0 {
      EntriesKeys(lines[..|lines| - 1]);
      ParseLineSpec(Last(lines));
    }
  }

  /** No front-matter key holds a colon; content without a block has no keys. */
  lemma FrontmatterKeys(content: string)
    ensures forall key | key in Frontmatter(content) :: ':' !in key
    ensures FrontmatterBlock(content).None? ==> Frontmatter(content) == map[]
  {
    if FrontmatterBlock(content).Some? {
      var lines := Split(FrontmatterBlock(content).value, "\n");
      var entries := Entries(lines);
      EntriesKeys(lines);
      forall key | key in Frontmatter(content) ensures ':' !in key {
        LastWins(entries, key);
      }
    }
  }

  // ------------------------------------------------------------------
  // Skill categories
  // ------------------------------------------------------------------

  /** The category prefixes, tried in this order; a directory matching none is "core". */
  const Categories: seq<string> := ["build", "pm", "docs", "rag-memory", "devops", "foundation"]

  function SkillCategory(directory: string): string
  {
    if StartsWith(directory, "build") then "build"
    else if StartsWith(directory, "pm") then "pm"
    else if StartsWith(directory, "docs") then "docs"
    else if StartsWith(directory, "rag-memory") then "rag-memory"
    else if StartsWith(directory, "devops") then "devops"
    else if StartsWith(directory, "foundation") then "foundation"
    else "core"
  }

  /**
   * No category prefix extends another, so the order of the tests does not
   * matter: a directory falls in the one category it starts with, and in
   * "core" exactly when it starts with none.
   */
  lemma CategorySpec(directory: string)
    ensures forall p | p in Categories && StartsWith(directory, p) :: SkillCategory(directory) == p
    ensures SkillCategory(directory) == "core" <==> forall p | p in Categories :: !StartsWith(directory, p)
    ensures SkillCategory(directory) != "core" ==> StartsWith(directory, SkillCategory(directory))
  {
    forall p | p in Categories && StartsWith(directory, p) ensures SkillCategory(directory) == p {
      assert directory[0] == p[0] && directory[1] == p[1];
    }
  }

  // ------------------------------------------------------------------
  // Script names and operations
  // ------------------------------------------------------------------

  /** The script file a hook command runs: the text after its last '/', or the whole command when it has none. */
  function ScriptName(command: string): string
  {
    if Contains(command, "/") then Last(Split(command, "/")) else command
  }

  /** The script name is what follows the last '/' of the command: a suffix with no '/', after a '/'. */
  lemma ScriptNameSpec(command: string)
    ensures var name := ScriptName(command);
      && EndsWith(command, name) && !Contains(name, "/")
      && (Contains(command, "/") ==> EndsWith(command, "/" + name))
      && (!Contains(command, "/") ==> name == command)
  {
    SplitLast(command, "/");
    if Contains(command, "/") {
      SplitPieces(command, "/");
    }
  }

  /**
   * The operation a matcher pattern names: the last piece when the pattern is
   * cut at each "__" found scanning left to right, or the whole pattern when it
   * has no "__".
   */
  function Operation(pattern: string): string
  {
    if Contains(pattern, "__") then Last(Split(pattern, "__")) else pattern
  }

  /**
   * The operation is the suffix after the last separator found scanning left
   * to right: it holds no "__" and follows one when the pattern has one.
   */
  lemma OperationSpec(pattern: string)
    ensures var op := Operation(pattern);
      && EndsWith(pattern, op) && !Contains(op, "__")
      && (Contains(pattern, "__") ==> EndsWith(pattern, "__" + op))
      && (!Contains(pattern, "__") ==> op == pattern)
  {
    SplitLast(pattern, "__");
    if Contains(pattern, "__") {
      SplitPieces(pattern, "__");
    }
  }

  /**
   * The cut is made at the first "__" and the search goes on after it, so the
   * operation of a pattern holding "__" is the operation of what follows its
   * first "__". This pins the operation down uniquely.
   */
  lemma OperationFirstCut(pattern: string)
    ensures Find(pattern, "__").Some? ==>
              Operation(pattern) == Operation(pattern[Find(pattern, "__").value + 2..])
    ensures Find(pattern, "__").None? ==> Operation(pattern) == pattern
  {
    var f := Find(pattern, "__");
    if f.Some? {
      var rest := pattern[f.value + 2..];
      var parts := Split(pattern, "__");
      assert parts == [pattern[..f.value]] + Split(rest, "__");
      assert Last(parts) == Last(Split(rest, "__"));
      if !Contains(rest, "__") {
        assert Find(rest, "__").None?;
        assert Split(rest, "__") == [rest];
      }
    }
  }

  /** In a run of three underscores the cut falls after the first two, leaving "_b" rather than "b". */
  lemma OperationOddRun()
    ensures Operation("a___b") == "_b"
  {
    var p := "a___b";
    assert p[0..2][0] == 'a' && p[1..3] == "__";
    assert Find(p, "__") == Some(1);
    OperationFirstCut(p);
    assert p[3..] == "_b";
    NoPair("_b", "__");
  }

  // ------------------------------------------------------------------
  // Grouping matchers by backend
  // ------------------------------------------------------------------

  /** The backend a matcher pattern belongs to, the first marker it mentions deciding. */
  function Backend(pattern: string): string
  {
    if Contains(pattern, "rag-memory") then "RAG Memory"
    else if Contains(pattern, "atlassian") then "Atlassian"
    else if Contains(pattern, "google-drive") then "Google Drive"
    else if Contains(pattern, "gitlab") then "GitLab"
    else "Other"
  }

  /** The marker each backend is recognised by. */
  const Markers: map<string, string> := map[
    "RAG Memory" := "rag-memory", "Atlassian" := "atlassian",
    "Google Drive" := "google-drive", "GitLab" := "gitlab"
  ]

  /**
   * A pattern goes to a backend whose marker it mentions, or to "Other" when it
   * mentions none; when it mentions several, the earliest of RAG Memory,
   * Atlassian, Google Drive and GitLab wins.
   */
  lemma BackendSpec(pattern: string)
    ensures var b := Backend(pattern);
      && (b in Markers ==> Contains(pattern, Markers[b]))
      && (b == "Other" <==> forall m | m in Markers.Values :: !Contains(pattern, m))
      && (b == "Atlassian" ==> !Contains(pattern, "rag-memory"))
      && (b == "Google Drive" ==> !Contains(pattern, "rag-memory") && !Contains(pattern, "atlassian"))
      && (b == "GitLab" ==>
            !Contains(pattern, "rag-memory") && !Contains(pattern, "atlassian") && !Contains(pattern, "google-drive"))
  {
    assert Markers.Values == {"rag-memory", "atlassian", "google-drive", "gitlab"} by {
      assert Markers["RAG Memory"] == "rag-memory" && Markers["Atlassian"] == "atlassian";
      assert Markers["Google Drive"] == "google-drive" && Markers["GitLab"] == "gitlab";
    }
  }

  /** One listed operation of a backend, with the pattern it came from. */
  datatype Entry = Entry(operation: string, matcher: string)

  /** The groups by backend, with the backends in the order they were first seen. */
  datatype Grouping = Grouping(order: seq<string>, groups: map<string, seq<Entry>>)

  function Ops(entries: seq<Entry>): seq<string>
  {
    seq(|entries|, k requires 0 <= k < |entries| => entries[k].operation)
  }

  /** One matcher's turn: open its backend's group if new, then list its operation unless already listed. */
  function Step(g: Grouping, pattern: string): Grouping
  {
    var backend := Backend(pattern);
    var op := Operation(pattern);
    var started := Open(g, backend);
    if op in Ops(started.groups[backend]) then started
    else Grouping(started.order, started.groups[backend := started.groups[backend] + [Entry(op, pattern)]])
  }

  /** The grouping of a run of matcher patterns, taken in order. */
  function GroupsOf(patterns: seq<string>): Grouping
  {
    if |patterns| == 0 then Grouping([], map[]) else Step(GroupsOf(patterns[..|patterns| - 1]), Last(patterns))
  }

  /** The grouping loop of `discover_hooks`, over the matcher patterns in order. */
  method GroupByBackend(patterns: seq<string>) returns (g: Grouping)
    ensures g == GroupsOf(patterns)
  {
    var order: seq<string> := [];
    var groups: map<string, seq<Entry>> := map[];
    var i := 0;
    while i < |patterns|
      invariant 0 <= i <= |patterns|
      invariant Grouping(order, groups) == GroupsOf(patterns[..i])
    {
      var pattern := patterns[i];
      assert patterns[..i + 1][..i] == patterns[..i];
      var backend := Backend(pattern);
      if backend !in groups {
        order := order + [backend];
        groups := groups[backend := []];
      }
      var op := Operation(pattern);
      if op !in Ops(groups[backend]) {
        groups := groups[backend := groups[backend] + [Entry(op, pattern)]];
      }
      i := i + 1;
    }
    assert patterns[..i] == patterns;
    g := Grouping(order, groups);
  }

  predicate DistinctOps(entries: seq<Entry>)
  {
    forall k, l | 0 <= k < l < |entries| :: entries[k].operation != entries[l].operation
  }

  /** Every backend in the order has a group, and is listed once. */
  ghost predicate OrderOk(g: Grouping)
  {
    && (forall b | b in g.groups :: b in g.order)
    && (forall k | 0 <= k < |g.order| :: g.order[k] in g.groups)
    && (forall k, l | 0 <= k < l < |g.order| :: g.order[k] != g.order[l])
  }

  /** Every group is non-empty and lists each operation once. */
  ghost predicate GroupsDistinct(g: Grouping)
  {
    forall b | b in g.groups :: |g.groups[b]| > 0 && DistinctOps(g.groups[b])
  }

  /** Every entry sits in its pattern's backend, names its pattern's operation, and comes from `patterns`. */
  ghost predicate EntriesSound(g: Grouping, patterns: seq<string>)
  {
    forall b, e | b in g.groups && e in g.groups[b] ::
      Backend(e.matcher) == b && e.operation == Operation(e.matcher) && e.matcher in patterns
  }

  /** Every pattern's operation is listed under its backend. */
  ghost predicate Complete(g: Grouping, patterns: seq<string>)
  {
    forall p | p in patterns :: Backend(p) in g.groups && Operation(p) in Ops(g.groups[Backend(p)])
  }

  /** What the grouping promises about the patterns it has seen. */
  ghost predicate WellGrouped(g: Grouping, patterns: seq<string>)
  {
    OrderOk(g) && GroupsDistinct(g) && EntriesSound(g, patterns) && Complete(g, patterns)
  }

  /** Opening the group of a pattern's backend, when it is new. */
  function Open(g: Grouping, backend: string): Grouping
  {
    if backend in g.groups then g else Grouping(g.order + [backend], g.groups[backend := []])
  }

  lemma StepOrder(g: Grouping, pattern: string)
    requires OrderOk(g)
    ensures OrderOk(Step(g, pattern))
  {
    assert Step(g, pattern).order == Open(g, Backend(pattern)).order;
    assert Step(g, pattern).groups.Keys == Open(g, Backend(pattern)).groups.Keys;
  }

  lemma StepDistinct(g: Grouping, pattern: string)
    requires GroupsDistinct(g)
    ensures GroupsDistinct(Step(g, pattern))
  {
    var backend := Backend(pattern);
    var op := Operation(pattern);
    var started := Open(g, backend);
    if op !in Ops(started.groups[backend]) {
      var entries := started.groups[backend] + [Entry(op, pattern)];
      assert Step(g, pattern).groups == started.groups[backend := entries];
      forall k, l | 0 <= k < l < |entries| ensures entries[k].operation != entries[l].operation {
        if l == |entries| - 1 {
          assert Ops(started.groups[backend])[k] == entries[k].operation;
        }
      }
    }
  }

  lemma StepSound(g: Grouping, patterns: seq<string>, pattern: string)
    requires EntriesSound(g, patterns)
    ensures EntriesSound(Step(g, pattern), patterns + [pattern])
  {
    assert forall p | p in patterns :: p in patterns + [pattern];
    assert pattern in patterns + [pattern];
  }

  lemma StepComplete(g: Grouping, patterns: seq<string>, pattern: string)
    requires Complete(g, patterns)
    ensures Complete(Step(g, pattern), patterns + [pattern])
  {
    var backend := Backend(pattern);
    var op := Operation(pattern);
    var started := Open(g, backend);
    var next := Step(g, pattern);
    forall p | p in patterns ensures Backend(p) in next.groups && Operation(p) in Ops(next.groups[Backend(p)]) {
      var ops := Ops(g.groups[Backend(p)]);
      var i :| 0 <= i < |ops| && ops[i] == Operation(p);
      assert Ops(next.groups[Backend(p)])[i] == Operation(p);
    }
    if op !in Ops(started.groups[backend]) {
      var entries := started.groups[backend] + [Entry(op, pattern)];
      assert Ops(entries)[|entries| - 1] == op;
    }
  }

  lemma StepPreserves(g: Grouping, patterns: seq<string>, pattern: string)
    requires WellGrouped(g, patterns)
    ensures WellGrouped(Step(g, pattern), patterns + [pattern])
  {
    StepOrder(g, pattern);
    StepDistinct(g, pattern);
    StepSound(g, patterns, pattern);
    StepComplete(g, patterns, pattern);
  }

  /**
   * Every backend is listed once and has a non-empty group; within a group
   * each operation appears once; every entry belongs to its group and names
   * its pattern's operation; and every pattern's operation is listed.
   */
  lemma {:induction false} GroupsOfWellGrouped(patterns: seq<string>)
    ensures WellGrouped(GroupsOf(patterns), patterns)
    decreases |patterns|
  {
    if |patterns| > 0 {
      var init := patterns[..|patterns| - 1];
      GroupsOfWellGrouped(init);
      StepPreserves(GroupsOf(init), init, Last(patterns));
      assert init + [Last(patterns)] == patterns;
    }
  }
}
