/**
 * What every PreToolUse approval hook shares: the decoded JSON values of a
 * tool call, Python's `dict.get`, truthiness and `str()` on those values, the
 * truncation and newline-escaping rules of the rendered reason, the fixed
 * lines of that reason, and the verdict the hook emits.
 */
module HookCommon {
  import opened PyStrings

  /** A decoded JSON value (floats are not modelled). */
  datatype Value =
    | Str(s: string)
    | Int(i: int)
    | Bool(b: bool)
    | List(items: seq<Value>)
    | Dict(entries: seq<Field>)
    | Null

  /** One key/value pair of a JSON object, in the order the object was written. */
  datatype Field = Field(key: string, val: Value)

  /**
   * The `tool_input` object: its fields in insertion order. A decoded object
   * holds each key once (see `DistinctKeys` and `DictOf`).
   */
  type Args = seq<Field>

  /** A decoded envelope: `tool_name` and `tool_input`. */
  datatype Invocation = Invocation(toolName: string, toolInput: Args)

  /** The hook's `permissionDecision`, with `permissionDecisionReason` for `ask`. */
  datatype Verdict = Allow | Ask(reason: string)

  /** The formatter a hook dispatches a protected tool to. */
  datatype Family = IngestFamily | GitLabFamily | WorkspaceFamily | GenericFamily

  /** The value of the first field holding `key`, if any. */
  function Lookup(args: Args, key: string): Option<Value>
  {
    if |args| == 0 then None
    else if args[0].key == key then Some(args[0].val)
    else Lookup(args[1..], key)
  }

  /** Python's `tool_input.get(key, default)`: the default is used only when the key is absent. */
  function Get(args: Args, key: string, default: Value): Value
  {
    match Lookup(args, key)
    case Some(x) => x
    case None => default
  }

  /** `get` falls back to the default exactly when no field has the key. */
  lemma {:induction false} GetAbsent(args: Args, key: string, default: Value)
    requires forall j | 0 <= j < |args| :: args[j].key != key
    ensures Get(args, key, default) == default
    ensures Lookup(args, key).None?
  {
    if |args| > 0 {
      assert args[0].key != key;
      GetAbsent(args[1..], key, default);
    }
  }

  /** `get` returns the value of the first field with the key, whatever the default, even a falsy value. */
  lemma {:induction false} GetPresent(args: Args, key: string, default: Value, j: nat)
    requires j < |args| && args[j].key == key
    requires forall i | 0 <= i < j :: args[i].key != key
    ensures Get(args, key, default) == args[j].val
    ensures Lookup(args, key) == Some(args[j].val)
  {
    if j > 0 {
      assert args[0].key != key;
      GetPresent(args[1..], key, default, j - 1);
    }
  }

  /** No two fields share a key, as in a Python dict: the first key does not recur, and so on down the rest. */
  predicate DistinctKeys(fields: seq<Field>)
    decreases |fields|
  {
    |fields| == 0 || (Lookup(fields[1..], fields[0].key).None? && DistinctKeys(fields[1..]))
  }

  /**
   * One member of a JSON object text stored into the dict built so far: a key
   * already present keeps its position and takes the new value; a new key goes last.
   */
  function Store(fields: seq<Field>, f: Field): seq<Field>
    decreases |fields|
  {
    if |fields| == 0 then [f]
    else if fields[0].key == f.key then [f] + fields[1..]
    else [fields[0]] + Store(fields[1..], f)
  }

  /** The dict `json.load` builds from the members of an object text, stored in the order they were written. */
  function DictOf(members: seq<Field>): seq<Field>
    decreases |members|
  {
    if |members| == 0 then [] else Store(DictOf(members[..|members| - 1]), Last(members))
  }

  /** The value of the last member written with `key`, if any. */
  function LastValue(members: seq<Field>, key: string): Option<Value>
    decreases |members|
  {
    if |members| == 0 then None
    else if Last(members).key == key then Some(Last(members).val)
    else LastValue(members[..|members| - 1], key)
  }

  /** Storing a member changes what its key looks up to, and nothing else. */
  lemma {:induction false} LookupStore(fields: seq<Field>, f: Field, key: string)
    decreases |fields|
    ensures Lookup(Store(fields, f), key) == if key == f.key then Some(f.val) else Lookup(fields, key)
  {
    if |fields| > 0 {
      if fields[0].key == f.key {
        assert ([f] + fields[1..])[1..] == fields[1..];
      } else {
        LookupStore(fields[1..], f, key);
        assert ([fields[0]] + Store(fields[1..], f))[1..] == Store(fields[1..], f);
      }
    }
  }

  /** Storing a member into a dict gives a dict. */
  lemma {:induction false} StoreDistinct(fields: seq<Field>, f: Field)
    requires DistinctKeys(fields)
    decreases |fields|
    ensures DistinctKeys(Store(fields, f))
  {
    if |fields| > 0 {
      if fields[0].key == f.key {
        assert ([f] + fields[1..])[1..] == fields[1..];
      } else {
        StoreDistinct(fields[1..], f);
        LookupStore(fields[1..], f, fields[0].key);
        assert ([fields[0]] + Store(fields[1..], f))[1..] == Store(fields[1..], f);
      }
    }
  }

  /**
   * A decoded object holds each key once, and each key looks up to the value
   * written last for it, as Python's `json` decoder does with repeated keys.
   */
  lemma {:induction false} DictOfLastWins(members: seq<Field>, key: string)
    decreases |members|
    ensures DistinctKeys(DictOf(members))
    ensures Lookup(DictOf(members), key) == LastValue(members, key)
  {
    if |members| > 0 {
      var init := members[..|members| - 1];
      DictOfLastWins(init, key);
      StoreDistinct(DictOf(init), Last(members));
      LookupStore(DictOf(init), Last(members), key);
    }
  }

  /** Python's truth value of a JSON value. */
  predicate Truthy(v: Value) {
    match v
    case Str(s) => s != ""
    case Int(i) => i != 0
    case Bool(b) => b
    case List(items) => items != []
    case Dict(entries) => entries != []
    case Null => false
  }

  function DigitChar(d: nat): char
    requires d < 10
  {
    ('0' as int + d) as char
  }

  /** The decimal digits of `n`, most significant first. */
  function Digits(n: nat): (r: string)
    ensures |r| > 0
    ensures forall k | 0 <= k < |r| :: '0' <= r[k] <= '9'
  {
    if n < 10 then [DigitChar(n)] else Digits(n / 10) + [DigitChar(n % 10)]
  }

  /** The number a string of decimal digits denotes. */
  function DigitsValue(r: string): int
  {
    if |r| == 0 then 0 else 10 * DigitsValue(r[..|r| - 1]) + (r[|r| - 1] as int - '0' as int)
  }

  /** Reading the digits back gives the number. */
  lemma {:induction false} DigitsRoundTrip(n: nat)
    ensures DigitsValue(Digits(n)) == n
  {
    if n >= 10 {
      DigitsRoundTrip(n / 10);
      var r := Digits(n);
      assert r[..|r| - 1] == Digits(n / 10);
    }
  }

  /** Python's `str()` of an int. */
  function Decimal(i: int): string
  {
    if i < 0 then "-" + Digits(-i) else Digits(i)
  }

  /** Python's `str()` of a value, as an f-string renders it. */
  function Show(v: Value): string
    decreases v, 1
  {
    match v
    case Str(s) => s
    case Int(i) => Decimal(i)
    case Bool(b) => if b then "True" else "False"
    case Null => "None"
    case List(items) =>
      "[" + Join(seq(|items|, k requires 0 <= k < |items| => Repr(items[k])), ", ") + "]"
    case Dict(entries) =>
      "{" + Join(seq(|entries|, k requires 0 <= k < |entries| =>
                       "'" + entries[k].key + "': " + Repr(entries[k].val)), ", ") + "}"
  }

  /**
   * Python's `repr()` as used inside a rendered list or dict: a string in
   * single quotes. The escaping `repr` applies (backslashes, control
   * characters, the switch to double quotes) is not modelled.
   */
  function Repr(v: Value): string
    decreases v, 2
  {
    if v.Str? then "'" + v.s + "'" else Show(v)
  }

  /** The text a hook slices when it expects a string. */
  function AsText(v: Value): string
  {
    if v.Str? then v.s else Show(v)
  }

  /** Python's `len()` of a list, string or object. */
  function Len(v: Value): nat
  {
    match v
    case List(items) => |items|
    case Str(s) => |s|
    case Dict(entries) => |entries|
    case _ => 0
  }

  /** The key of each field of an object, in order (`d.keys()`). */
  function Keys(fields: seq<Field>): (ks: seq<string>)
    ensures |ks| == |fields|
    ensures forall k | 0 <= k < |fields| :: ks[k] == fields[k].key
  {
    seq(|fields|, k requires 0 <= k < |fields| => fields[k].key)
  }

  /** `s[:n] + "..."` when `len(s) > n`, else `s`. */
  function Truncate(s: string, n: nat): (r: string)
    ensures |s| <= n ==> r == s
    ensures |s| > n ==> |r| == n + 3 && StartsWith(r, s[..n]) && EndsWith(r, "...")
  {
    if |s| > n then s[..n] + "..." else s
  }

  /** A truncated string is never longer than the limit plus the marker. */
  lemma TruncateBound(s: string, n: nat)
    ensures |Truncate(s, n)| <= n + 3
    ensures StartsWith(s, Truncate(s, n)) || StartsWith(Truncate(s, n), s[..n])
  {
  }

  /** Truncating twice is truncating once. */
  lemma TruncateIdempotent(s: string, n: nat)
    ensures Truncate(Truncate(s, n), n) == Truncate(s, n)
  {
    if |s| > n {
      var t := Truncate(s, n);
      assert t[..n] == s[..n];
    }
  }

  /** The reference reading of newline escaping: each `\n` becomes a backslash and `n`. */
  function EscapeNewlines(s: string): (r: string)
    ensures '\n' !in r
    ensures |r| >= |s|
  {
    if |s| == 0 then ""
    else (if s[0] == '\n' then "\\n" else [s[0]]) + EscapeNewlines(s[1..])
  }

  /** Python's `s.replace(target, replacement)`: `replacement.join(s.split(target))`. */
  function Replace(s: string, target: string, replacement: string): string
    requires |target| > 0
  {
    Join(Split(s, target), replacement)
  }

  lemma {:induction false} EscapeAppend(a: string, b: string)
    ensures EscapeNewlines(a + b) == EscapeNewlines(a) + EscapeNewlines(b)
    decreases |a|
  {
    if |a| > 0 {
      assert (a + b)[1..] == a[1..] + b;
      EscapeAppend(a[1..], b);
    } else {
      assert a + b == b;
    }
  }

  /** A string without newlines is left as it is. */
  lemma {:induction false} EscapeIdentity(s: string)
    requires '\n' !in s
    ensures EscapeNewlines(s) == s
    decreases |s|
  {
    if |s| > 0 {
      assert s[0] in s;
      EscapeIdentity(s[1..]);
    }
  }

  /** A one-character string occurs in `s` exactly when that character does. */
  lemma ContainsChar(s: string, c: char)
    ensures Contains(s, [c]) <==> c in s
  {
    if c in s {
      var k :| 0 <= k < |s| && s[k] == c;
      assert s[k..k + 1] == [c];
      assert OccursAt(s, [c], k);
    }
    if Contains(s, [c]) {
      var k :| 0 <= k <= |s| - 1 && OccursAt(s, [c], k);
      assert s[k..k + 1][0] == s[k];
    }
  }

  /** `s.replace("\n", "\\n")` is the character-by-character escape. */
  lemma {:induction false} ReplaceNewlines(s: string)
    ensures Replace(s, "\n", "\\n") == EscapeNewlines(s)
    decreases |s|
  {
    ContainsChar(s, '\n');
    var f := Find(s, "\n");
    if f.None? {
      EscapeIdentity(s);
    } else {
      var i := f.value;
      var head, rest := s[..i], s[i + 1..];
      var tail := Split(rest, "\n");
      assert Split(s, "\n") == [head] + tail;
      assert Split(s, "\n")[0] == head;
      SplitPieces(s, "\n");
      ContainsChar(head, '\n');
      JoinCons(head, tail, "\\n");
      ReplaceNewlines(rest);
      assert s == head + "\n" + rest by {
        assert s[i..i + 1] == "\n";
        assert s == s[..i] + s[i..i + 1] + s[i + 1..];
      }
      EscapeSplit(head, rest);
    }
  }

  lemma EscapeSplit(head: string, rest: string)
    requires '\n' !in head
    ensures EscapeNewlines(head + "\n" + rest) == head + "\\n" + EscapeNewlines(rest)
  {
    assert head + "\n" + rest == head + ("\n" + rest);
    EscapeAppend(head, "\n" + rest);
    EscapeAppend("\n", rest);
    EscapeIdentity(head);
    assert EscapeNewlines("\n") == "\\n";
  }

  /** The warning sign (U+26A0) with its emoji presentation selector (U+FE0F). */
  const Warning: string := "\U{26A0}\U{FE0F}"

  /** First line of the reason for a destructive operation. */
  function Banner(name: string): string
  {
    Warning + " DESTRUCTIVE: " + name
  }

  /** The line that closes the body of a destructive operation's reason. */
  const Footer: string := Warning + " This action cannot be undone"

  /** The two lines every reason ends with. */
  const Closing: seq<string> := ["", "Approve?"]

  /** The lines a formatter appends after its body: the footer when destructive, then the prompt. */
  function Tail(destructive: bool): (lines: seq<string>)
    ensures |lines| >= 2 && lines[|lines| - 2..] == Closing
    ensures Footer in lines <==> destructive
  {
    (if destructive then ["", Footer] else []) + Closing
  }

  /** A line that starts with an ASCII character or is empty is never the footer or a banner. */
  predicate Plain(line: string)
  {
    |line| == 0 || line[0] as int < 128
  }

  lemma PlainIsNotWarning(line: string, name: string)
    requires Plain(line)
    ensures line != Footer && line != Banner(name)
  {
    if |line| > 0 {
      assert Footer[0] == '\U{26A0}' && Banner(name)[0] == '\U{26A0}';
    }
  }

  /** Some line starts with `prefix`. */
  predicate HasLine(lines: seq<string>, prefix: string) {
    exists line | line in lines :: StartsWith(line, prefix)
  }

  /** No line of `lines` starts with the character `c`. */
  predicate NoLineLeads(lines: seq<string>, c: char) {
    forall line | line in lines :: |line| == 0 || line[0] != c
  }

  lemma HasLineConcat(a: seq<string>, b: seq<string>, prefix: string)
    ensures HasLine(a + b, prefix) <==> HasLine(a, prefix) || HasLine(b, prefix)
  {
    if HasLine(a, prefix) {
      var line :| line in a && StartsWith(line, prefix);
      assert line in a + b;
    }
    if HasLine(b, prefix) {
      var line :| line in b && StartsWith(line, prefix);
      assert line in a + b;
    }
  }

  /** A line found in a header, body, rest and tail layout, when header and tail cannot hold it. */
  lemma HasLineLayout(head: seq<string>, body: seq<string>, rest: seq<string>, tail: seq<string>, prefix: string)
    requires !HasLine(head, prefix) && !HasLine(tail, prefix)
    ensures HasLine(head + body + rest + tail, prefix) <==> HasLine(body, prefix) || HasLine(rest, prefix)
  {
    HasLineConcat(head, body, prefix);
    HasLineConcat(head + body, rest, prefix);
    HasLineConcat(head + body + rest, tail, prefix);
  }

  /** A line equal to the prefix starts with it. */
  lemma LineHasLine(lines: seq<string>, line: string)
    requires line in lines
    ensures HasLine(lines, line)
  {
    assert line[..|line|] == line;
  }

  /** A reason laid out as header, body and tail ends with the prompt and carries the footer exactly when destructive. */
  lemma TailLayout(head: seq<string>, body: seq<string>, destructive: bool)
    requires Footer !in head && Footer !in body
    ensures var lines := head + body + Tail(destructive);
      && |lines| >= |head| + 2 && lines[..|head|] == head
      && lines[|lines| - 2..] == Closing
      && (Footer in lines <==> destructive)
  {
    var lines := head + body + Tail(destructive);
    assert lines[|lines| - 2..] == Tail(destructive)[|Tail(destructive)| - 2..];
    assert lines[..|head|] == head;
  }

  /** The tail holds only empty, warning and prompt lines. */
  lemma TailNoLine(destructive: bool, prefix: string)
    requires |prefix| > 0 && prefix[0] != '\U{26A0}' && prefix[0] != 'A'
    ensures !HasLine(Tail(destructive), prefix)
  {
    assert Footer[0] == '\U{26A0}';
    assert NoLineLeads(Tail(destructive), prefix[0]);
    NoLineLeadsNoPrefix(Tail(destructive), prefix);
  }

  /** Lines that do not start with a prefix's first character do not start with the prefix. */
  lemma NoLineLeadsNoPrefix(lines: seq<string>, prefix: string)
    requires |prefix| > 0 && NoLineLeads(lines, prefix[0])
    ensures !HasLine(lines, prefix)
  {
    forall line | line in lines ensures !StartsWith(line, prefix) {
      if |line| >= |prefix| {
        assert line[..|prefix|][0] == line[0];
      }
    }
  }

  lemma PrefixOf(prefix: string, rest: string)
    ensures StartsWith(prefix + rest, prefix)
  {
    assert (prefix + rest)[..|prefix|] == prefix;
  }

  /** A line that differs from `prefix` at index `k` does not start with it. */
  lemma DiffersAt(line: string, prefix: string, k: nat)
    requires k < |prefix| && (|line| <= k || line[k] != prefix[k])
    ensures !StartsWith(line, prefix)
  {
    if |line| >= |prefix| {
      assert line[..|prefix|][k] == line[k];
    }
  }

  /** A reason that ends with the closing lines ends with a blank line and "Approve?". */
  lemma {:induction false} ReasonEndsWithPrompt(lines: seq<string>)
    requires |lines| >= 3 && lines[|lines| - 2..] == Closing
    ensures EndsWith(Join(lines, "\n"), "\n\nApprove?")
  {
    var n := |lines|;
    assert lines == lines[..n - 2] + Closing;
    JoinAppend(lines[..n - 2], Closing, "\n");
    assert Join(Closing, "\n") == "\nApprove?" by {
      assert Closing[1..] == ["Approve?"];
    }
  }
}
