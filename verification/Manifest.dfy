/** The container environment of the rendered Deployment: a template that prints
    it, and the YAML it has to read back as. */
module Manifest {
  import opened Wrappers
  import AgentSettings
  import Ordering

  datatype SecretRef = SecretRef(name: string, key: string)

  type SecretRefs = map<string, SecretRef>

  datatype Parameters = Parameters(backend: string, database: string, dataset: string, location: string)

  /** One variable of the container. */
  datatype Entry =
    | Literal(name: string, value: string)
    | FromSecret(name: string, secret: string, key: string)

  // --- The template ---

  const COMMENT_MARK := "            #"

  /** The template's own comment, whatever its text. */
  function CommentLines(comment: seq<string>): seq<string> {
    seq(|comment|, i requires 0 <= i < |comment| => COMMENT_MARK + comment[i])
  }

  const NAME_PREFIX := "            - name: "
  const VALUE_PREFIX := "              value: "
  const VALUE_FROM := "              valueFrom:"
  const SECRET_KEY_REF := "                secretKeyRef:"
  const SECRET_NAME_PREFIX := "                  name: "
  const SECRET_KEY_PREFIX := "                  key: "

  function LiteralLines(name: string, value: string): seq<string> {
    [NAME_PREFIX + name, VALUE_PREFIX + "\"" + value + "\""]
  }

  function SecretLines(name: string, ref: SecretRef): seq<string> {
    [NAME_PREFIX + name, VALUE_FROM, SECRET_KEY_REF, SECRET_NAME_PREFIX + ref.name, SECRET_KEY_PREFIX + ref.key]
  }

  /** The two kinds of entry as they stand in the manifest. */
  lemma EntriesAsWritten(name: string, value: string, ref: SecretRef)
    ensures LiteralLines(name, value) == [
              "            - name: " + name,
              "              value: \"" + value + "\""]
    ensures SecretLines(name, ref) == [
              "            - name: " + name,
              "              valueFrom:",
              "                secretKeyRef:",
              "                  name: " + ref.name,
              "                  key: " + ref.key]
  {
    assert "              value: \"" == VALUE_PREFIX + "\"";
  }

  function IfSet(name: string, value: string): seq<string> {
    if value != "" then LiteralLines(name, value) else []
  }

  function RangeLines(keys: seq<string>, refs: SecretRefs): seq<string>
    requires forall key :: key in keys ==> key in refs
  {
    if |keys| == 0 then []
    else SecretLines(keys[0], refs[keys[0]]) + RangeLines(keys[1..], refs)
  }

  /** Go templates range over a map in the order of its keys. */
  ghost function KeysInOrder(refs: SecretRefs): (keys: seq<string>)
    ensures forall key :: key in keys <==> key in refs
  {
    var keys := Ordering.Enumerate(refs.Keys);
    assert forall key :: key in keys <==> key in Ordering.Elements(keys);
    keys
  }

  /** The lines the template prints under `env:`. */
  ghost function EnvLines(comment: seq<string>, service: string, p: Parameters, refs: SecretRefs): seq<string> {
    CommentLines(comment)
    + (LiteralLines("CODEFLY__SERVICE", service)
    + (LiteralLines("SWH_LISTEN", AgentSettings.LISTEN)
    + (IfSet("SWH_BACKEND", p.backend)
    + (IfSet("SWH_DATABASE", p.database)
    + (IfSet("SWH_DATASET", p.dataset)
    + (IfSet("SWH_LOCATION", p.location)
    + (LiteralLines("SWH_ALLOW_ANONYMOUS", "false")
    + RangeLines(KeysInOrder(refs), refs))))))))
  }

  function Print(lines: seq<string>): string {
    if |lines| == 0 then "" else lines[0] + "\n" + Print(lines[1..])
  }

  // --- Reading it back ---

  /** The lines of a text that ends each of them. */
  function Lines(text: string, line: string): seq<string>
    decreases |text|
  {
    if |text| == 0 then []
    else if text[0] == '\n' then [line] + Lines(text[1..], "")
    else Lines(text[1..], line + [text[0]])
  }

  function Stripped(line: string, prefix: string): Option<string> {
    if |prefix| <= |line| && line[..|prefix|] == prefix then Some(line[|prefix|..]) else None
  }

  /** A double-quoted scalar from past its opening quote: section 7.3.1 of YAML
      1.2, one-character escapes only. */
  function Unquote(s: string): Option<string> {
    if |s| == 0 then None
    else if s[0] == '"' then if |s| == 1 then Some("") else None
    else if s[0] == '\\' then
      if |s| == 1 || Escaped(s[1]).None? then None
      else Prepend(Escaped(s[1]).value, Unquote(s[2..]))
    else Prepend(s[0], Unquote(s[1..]))
  }

  function Prepend(c: char, rest: Option<string>): Option<string> {
    match rest
    case None => None
    case Some(s) => Some([c] + s)
  }

  function Escaped(c: char): Option<char> {
    if c == '"' || c == '\\' || c == '/' || c == ' ' then Some(c)
    else if c == 'n' then Some('\n')
    else if c == 't' then Some('\t')
    else if c == 'r' then Some('\r')
    else if c == '0' then Some('\0')
    else None
  }

  function Quoted(s: string): Option<string> {
    if |s| > 0 && s[0] == '"' then Unquote(s[1..]) else None
  }

  predicate IsPlainChar(c: char) {
    'a' <= c <= 'z' || 'A' <= c <= 'Z' || '0' <= c <= '9' || c == '_' || c == '.' || c == '-'
  }

  /** A plain scalar that needs no quoting and holds no indicator. */
  predicate IsPlain(s: string) {
    |s| > 0 && s[0] != '-' && s[0] != '.' && forall c :: c in s ==> IsPlainChar(c)
  }

  function Plain(raw: Option<string>): Option<string> {
    if raw.Some? && IsPlain(raw.value) then raw else None
  }

  function SecretEntry(name: string, lines: seq<string>): Option<Entry>
    requires |lines| == 4
  {
    var secret, key := Plain(Stripped(lines[2], SECRET_NAME_PREFIX)), Plain(Stripped(lines[3], SECRET_KEY_PREFIX));
    if lines[0] == VALUE_FROM && lines[1] == SECRET_KEY_REF && secret.Some? && key.Some?
    then Some(FromSecret(name, secret.value, key.value))
    else None
  }

  function Cons(e: Option<Entry>, rest: Option<seq<Entry>>): Option<seq<Entry>> {
    if e.Some? && rest.Some? then Some([e.value] + rest.value) else None
  }

  predicate IsComment(line: string) {
    Stripped(line, COMMENT_MARK).Some?
  }

  /** The block sequence of an env list: comments, then mappings of a name and
      either a quoted value or a secret key reference. */
  function Entries(lines: seq<string>): Option<seq<Entry>> {
    if |lines| == 0 then Some([])
    else if IsComment(lines[0]) then Entries(lines[1..])
    else
      var name := Plain(Stripped(lines[0], NAME_PREFIX));
      if name.None? || |lines| < 2 then None
      else
        var value := Stripped(lines[1], VALUE_PREFIX);
        if value.Some? then
          var text := Quoted(value.value);
          Cons(if text.Some? then Some(Literal(name.value, text.value)) else None, Entries(lines[2..]))
        else if |lines| < 5 then None
        else Cons(SecretEntry(name.value, lines[1..5]), Entries(lines[5..]))
  }

  function Parse(text: string): Option<seq<Entry>> {
    Entries(Lines(text, ""))
  }

  // --- What is meant ---

  function Set(name: string, value: string): seq<Entry> {
    if value != "" then [Literal(name, value)] else []
  }

  ghost function Secrets(keys: seq<string>, refs: SecretRefs): seq<Entry>
    requires forall key :: key in keys ==> key in refs
  {
    seq(|keys|, i requires 0 <= i < |keys| => FromSecret(keys[i], refs[keys[i]].name, refs[keys[i]].key))
  }

  function Literals(service: string, p: Parameters): seq<Entry> {
    [Literal("CODEFLY__SERVICE", service)]
    + ([Literal("SWH_LISTEN", AgentSettings.LISTEN)]
    + (Set("SWH_BACKEND", p.backend)
    + (Set("SWH_DATABASE", p.database)
    + (Set("SWH_DATASET", p.dataset)
    + (Set("SWH_LOCATION", p.location)
    + [Literal("SWH_ALLOW_ANONYMOUS", "false")])))))
  }

  ghost function Intended(service: string, p: Parameters, refs: SecretRefs): seq<Entry> {
    Literals(service, p) + Secrets(KeysInOrder(refs), refs)
  }

  // --- Quoting ---

  /** A value the template may place between its quotes. */
  predicate Clean(v: string) {
    forall c :: c in v ==> c != '"' && c != '\\'
  }

  lemma {:induction false} UnquoteShrinks(s: string)
    ensures Unquote(s).Some? ==> |Unquote(s).value| < |s|
  {
    if |s| == 0 || s[0] == '"' {
    } else if s[0] != '\\' {
      UnquoteShrinks(s[1..]);
    } else if |s| >= 2 && Escaped(s[1]).Some? {
      UnquoteShrinks(s[2..]);
    }
  }

  /** Written between quotes as it is, a value reads back as itself exactly when
      it holds neither a quote nor a backslash. */
  lemma {:induction false} QuotingIsFaithful(v: string)
    ensures Unquote(v + "\"") == Some(v) <==> Clean(v)
  {
    if |v| == 0 {
    } else {
      var rest := v[1..];
      assert (v + "\"")[1..] == rest + "\"";
      QuotingIsFaithful(rest);
      if v[0] == '"' {
        assert v[0] in v;
      } else if v[0] == '\\' {
        assert v[0] in v;
        UnquoteShrinks((v + "\"")[2..]);
      } else {
        assert v == [v[0]] + rest;
        assert forall c :: c in v <==> c == v[0] || c in rest;
        assert Clean(v) <==> Clean(rest);
        if Unquote(v + "\"") == Some(v) {
          assert Unquote(rest + "\"").value == v[1..];
        }
      }
    }
  }

  // --- Lines ---

  predicate OneLine(line: string) {
    '\n' !in line
  }

  lemma {:induction false} LinesOfOne(pending: string, line: string, text: string)
    requires OneLine(line)
    ensures Lines(line + "\n" + text, pending) == [pending + line] + Lines(text, "")
    decreases |line|
  {
    var whole := line + "\n" + text;
    if |line| == 0 {
      assert whole[0] == '\n' && whole[1..] == text;
      assert pending + line == pending;
    } else {
      assert whole[0] == line[0] && whole[1..] == line[1..] + "\n" + text;
      assert line[0] in line;
      LinesOfOne(pending + [line[0]], line[1..], text);
      assert pending + [line[0]] + line[1..] == pending + line;
    }
  }

  lemma {:induction false} PrintedLines(lines: seq<string>)
    requires forall i :: 0 <= i < |lines| ==> OneLine(lines[i])
    ensures Lines(Print(lines), "") == lines
  {
    if |lines| == 0 {
    } else {
      LinesOfOne("", lines[0], Print(lines[1..]));
      PrintedLines(lines[1..]);
      assert "" + lines[0] == lines[0];
    }
  }

  // --- Entries ---

  lemma StripPrefix(prefix: string, rest: string)
    ensures Stripped(prefix + rest, prefix) == Some(rest)
  {
    assert (prefix + rest)[..|prefix|] == prefix;
  }

  /** The prefixes are told apart by the character in column 12 or 14. */
  lemma NotComment(rest: string)
    ensures !IsComment(NAME_PREFIX + rest)
  {
    var line := NAME_PREFIX + rest;
    assert line[12] == '-' && COMMENT_MARK[12] == '#' && line[..13][12] == line[12];
  }

  lemma LiteralReads(name: string, value: string, rest: seq<string>)
    requires IsPlain(name) && Clean(value)
    ensures Entries(LiteralLines(name, value) + rest) == Cons(Some(Literal(name, value)), Entries(rest))
  {
    var lines := LiteralLines(name, value) + rest;
    NotComment(name);
    StripPrefix(NAME_PREFIX, name);
    assert VALUE_PREFIX + "\"" + value + "\"" == VALUE_PREFIX + ("\"" + value + "\"");
    StripPrefix(VALUE_PREFIX, "\"" + value + "\"");
    assert ("\"" + value + "\"")[1..] == value + "\"";
    QuotingIsFaithful(value);
    assert lines[2..] == rest;
    hide Stripped, Unquote, IsPlainChar, Clean;
  }

  lemma SecretReads(name: string, ref: SecretRef, rest: seq<string>)
    requires IsPlain(name) && IsPlain(ref.name) && IsPlain(ref.key)
    ensures Entries(SecretLines(name, ref) + rest) == Cons(Some(FromSecret(name, ref.name, ref.key)), Entries(rest))
  {
    var lines := SecretLines(name, ref) + rest;
    NotComment(name);
    StripPrefix(NAME_PREFIX, name);
    StripPrefix(SECRET_NAME_PREFIX, ref.name);
    StripPrefix(SECRET_KEY_PREFIX, ref.key);
    ValueFromIsNoValue();
    assert lines[5..] == rest;
    assert lines[1..5] == [VALUE_FROM, SECRET_KEY_REF, SECRET_NAME_PREFIX + ref.name, SECRET_KEY_PREFIX + ref.key];
  }

  lemma ValueFromIsNoValue()
    ensures Stripped(VALUE_FROM, VALUE_PREFIX) == None
  {
    assert VALUE_FROM[19] == 'F' && VALUE_PREFIX[19] == ':' && VALUE_FROM[..21][19] == VALUE_FROM[19];
  }

  lemma {:induction false} CommentsAreSkipped(comment: seq<string>, rest: seq<string>)
    ensures Entries(CommentLines(comment) + rest) == Entries(rest)
    decreases |comment|
  {
    var lines := CommentLines(comment) + rest;
    if |comment| > 0 {
      StripPrefix(COMMENT_MARK, comment[0]);
      assert lines[1..] == CommentLines(comment[1..]) + rest;
      CommentsAreSkipped(comment[1..], rest);
    } else {
      assert lines == rest;
    }
  }

  lemma SetReads(name: string, value: string, rest: seq<string>, entries: seq<Entry>)
    requires IsPlain(name) && Clean(value) && Entries(rest) == Some(entries)
    ensures Entries(IfSet(name, value) + rest) == Some(Set(name, value) + entries)
  {
    if value != "" {
      LiteralReads(name, value, rest);
    } else {
      assert IfSet(name, value) + rest == rest && Set(name, value) + entries == entries;
    }
  }

  lemma {:induction false} SecretsRead(keys: seq<string>, refs: SecretRefs)
    requires forall key :: key in keys ==>
               key in refs && IsPlain(key) && IsPlain(refs[key].name) && IsPlain(refs[key].key)
    ensures Entries(RangeLines(keys, refs)) == Some(Secrets(keys, refs))
  {
    if |keys| == 0 {
    } else {
      SecretsRead(keys[1..], refs);
      SecretReads(keys[0], refs[keys[0]], RangeLines(keys[1..], refs));
      assert Secrets(keys, refs) ==
             [FromSecret(keys[0], refs[keys[0]].name, refs[keys[0]].key)] + Secrets(keys[1..], refs);
    }
  }

  predicate PlainRefs(refs: SecretRefs) {
    forall key :: key in refs ==> IsPlain(key) && IsPlain(refs[key].name) && IsPlain(refs[key].key)
  }

  lemma NamesArePlain()
    ensures IsPlain("CODEFLY__SERVICE") && IsPlain("SWH_LISTEN") && IsPlain("SWH_BACKEND") && IsPlain("SWH_DATABASE")
    ensures IsPlain("SWH_DATASET") && IsPlain("SWH_LOCATION") && IsPlain("SWH_ALLOW_ANONYMOUS")
    ensures Clean(AgentSettings.LISTEN) && Clean("false")
  {
  }

  /** The lines the template prints read back as the entries that are meant. */
  lemma EnvLinesRead(comment: seq<string>, service: string, p: Parameters, refs: SecretRefs)
    requires Clean(service) && Clean(p.backend) && Clean(p.database) && Clean(p.dataset) && Clean(p.location)
    requires PlainRefs(refs)
    ensures Entries(EnvLines(comment, service, p, refs)) == Some(Intended(service, p, refs))
  {
    hide Entries, IsPlain, Clean, LiteralLines, IfSet, Set, RangeLines;
    NamesArePlain();
    var keys := KeysInOrder(refs);
    var secrets := Secrets(keys, refs);
    SecretsRead(keys, refs);
    var l7 := RangeLines(keys, refs);
    LiteralReads("SWH_ALLOW_ANONYMOUS", "false", l7);
    var l6, e6 := LiteralLines("SWH_ALLOW_ANONYMOUS", "false") + l7,
                 [Literal("SWH_ALLOW_ANONYMOUS", "false")] + secrets;
    SetReads("SWH_LOCATION", p.location, l6, e6);
    var l5, e5 := IfSet("SWH_LOCATION", p.location) + l6, Set("SWH_LOCATION", p.location) + e6;
    SetReads("SWH_DATASET", p.dataset, l5, e5);
    var l4, e4 := IfSet("SWH_DATASET", p.dataset) + l5, Set("SWH_DATASET", p.dataset) + e5;
    SetReads("SWH_DATABASE", p.database, l4, e4);
    var l3, e3 := IfSet("SWH_DATABASE", p.database) + l4, Set("SWH_DATABASE", p.database) + e4;
    SetReads("SWH_BACKEND", p.backend, l3, e3);
    var l2, e2 := IfSet("SWH_BACKEND", p.backend) + l3, Set("SWH_BACKEND", p.backend) + e3;
    LiteralReads("SWH_LISTEN", AgentSettings.LISTEN, l2);
    var l1, e1 := LiteralLines("SWH_LISTEN", AgentSettings.LISTEN) + l2,
                 [Literal("SWH_LISTEN", AgentSettings.LISTEN)] + e2;
    LiteralReads("CODEFLY__SERVICE", service, l1);
    var l0, e0 := LiteralLines("CODEFLY__SERVICE", service) + l1, [Literal("CODEFLY__SERVICE", service)] + e1;
    CommentsAreSkipped(comment, l0);
    assert EnvLines(comment, service, p, refs) == CommentLines(comment) + l0;
    assert Intended(service, p, refs) == e0;
  }

  // --- The text ---

  predicate AllOneLine(lines: seq<string>) {
    forall i :: 0 <= i < |lines| ==> OneLine(lines[i])
  }

  lemma LiteralIsOneLine(name: string, value: string)
    requires OneLine(name) && OneLine(value)
    ensures AllOneLine(LiteralLines(name, value)) && AllOneLine(IfSet(name, value))
  {
  }

  lemma PlainIsOneLine(s: string)
    requires IsPlain(s)
    ensures OneLine(s)
  {
    assert !IsPlainChar('\n');
  }

  lemma SecretIsOneLine(name: string, ref: SecretRef)
    requires OneLine(name) && OneLine(ref.name) && OneLine(ref.key)
    ensures AllOneLine(SecretLines(name, ref))
  {
  }

  lemma {:induction false} RangeIsOneLine(keys: seq<string>, refs: SecretRefs)
    requires forall key :: key in keys ==> key in refs
    requires PlainRefs(refs)
    ensures AllOneLine(RangeLines(keys, refs))
  {
    hide OneLine, IsPlain, SecretLines;
    if |keys| == 0 {
    } else {
      RangeIsOneLine(keys[1..], refs);
      PlainIsOneLine(keys[0]);
      PlainIsOneLine(refs[keys[0]].name);
      PlainIsOneLine(refs[keys[0]].key);
      SecretIsOneLine(keys[0], refs[keys[0]]);
    }
  }

  lemma CommentIsOneLine(comment: seq<string>)
    requires AllOneLine(comment)
    ensures AllOneLine(CommentLines(comment))
  {
    assert '\n' !in COMMENT_MARK;
  }

  lemma EnvIsOneLine(comment: seq<string>, service: string, p: Parameters, refs: SecretRefs)
    requires OneLine(service) && OneLine(p.backend) && OneLine(p.database) && OneLine(p.dataset) && OneLine(p.location)
    requires PlainRefs(refs) && AllOneLine(comment)
    ensures AllOneLine(EnvLines(comment, service, p, refs))
  {
    hide OneLine, LiteralLines, IfSet, RangeLines, IsPlain;
    RangeIsOneLine(KeysInOrder(refs), refs);
    NamesArePlain();
    FixedValuesAreOneLine();
    PlainIsOneLine("CODEFLY__SERVICE");
    PlainIsOneLine("SWH_LISTEN");
    PlainIsOneLine("SWH_BACKEND");
    PlainIsOneLine("SWH_DATABASE");
    PlainIsOneLine("SWH_DATASET");
    PlainIsOneLine("SWH_LOCATION");
    PlainIsOneLine("SWH_ALLOW_ANONYMOUS");
    LiteralIsOneLine("CODEFLY__SERVICE", service);
    LiteralIsOneLine("SWH_LISTEN", AgentSettings.LISTEN);
    LiteralIsOneLine("SWH_BACKEND", p.backend);
    LiteralIsOneLine("SWH_DATABASE", p.database);
    LiteralIsOneLine("SWH_DATASET", p.dataset);
    LiteralIsOneLine("SWH_LOCATION", p.location);
    LiteralIsOneLine("SWH_ALLOW_ANONYMOUS", "false");
    CommentIsOneLine(comment);
  }

  lemma FixedValuesAreOneLine()
    ensures OneLine(AgentSettings.LISTEN) && OneLine("false")
  {
  }

  /** The printed block reads back as exactly the variables that are meant. */
  lemma PrintedEnvParses(comment: seq<string>, service: string, p: Parameters, refs: SecretRefs)
    requires Clean(service) && Clean(p.backend) && Clean(p.database) && Clean(p.dataset) && Clean(p.location)
    requires OneLine(service) && OneLine(p.backend) && OneLine(p.database) && OneLine(p.dataset) && OneLine(p.location)
    requires PlainRefs(refs) && AllOneLine(comment)
    ensures Parse(Print(EnvLines(comment, service, p, refs))) == Some(Intended(service, p, refs))
  {
    hide EnvLines, Intended;
    EnvIsOneLine(comment, service, p, refs);
    PrintedLines(EnvLines(comment, service, p, refs));
    EnvLinesRead(comment, service, p, refs);
  }

  // --- Names ---

  function NamesIn(entries: seq<Entry>): seq<string> {
    seq(|entries|, i requires 0 <= i < |entries| => entries[i].name)
  }

  function LiteralNames(service: string, p: Parameters): set<string> {
    set e | e in Literals(service, p) :: e.name
  }

  /** The literals' names are told apart by length and fifth character. */
  function Rank(name: string): int {
    if |name| == 16 then 0
    else if |name| == 10 then 1
    else if |name| == 11 then if name[4] == 'B' then 2 else 4
    else if |name| == 12 then if name[4] == 'D' then 3 else 5
    else 6
  }

  ghost predicate Ranked(entries: seq<Entry>, from: int) {
    && (forall i :: 0 <= i < |entries| ==> entries[i].Literal? && Rank(entries[i].name) >= from)
    && (forall i, j :: 0 <= i < j < |entries| ==> Rank(entries[i].name) < Rank(entries[j].name))
  }

  lemma RankedBefore(entry: seq<Entry>, rest: seq<Entry>, rank: int)
    requires |entry| <= 1 && (|entry| == 1 ==> entry[0].Literal? && Rank(entry[0].name) == rank)
    requires Ranked(rest, rank + 1)
    ensures Ranked(entry + rest, rank)
  {
    hide Rank;
    var all := entry + rest;
    forall i | 0 <= i < |all| ensures all[i].Literal? && Rank(all[i].name) >= rank {
      assert all[i] == if i < |entry| then entry[i] else rest[i - |entry|];
    }
    forall i, j | 0 <= i < j < |all| ensures Rank(all[i].name) < Rank(all[j].name) {
      assert all[j] == rest[j - |entry|];
      assert all[i] == if i < |entry| then entry[i] else rest[i - |entry|];
    }
  }

  lemma NameRanks()
    ensures Rank("CODEFLY__SERVICE") == 0 && Rank("SWH_LISTEN") == 1 &&
            Rank("SWH_BACKEND") == 2 && Rank("SWH_DATABASE") == 3
    ensures Rank("SWH_DATASET") == 4 && Rank("SWH_LOCATION") == 5 && Rank("SWH_ALLOW_ANONYMOUS") == 6
  {
    assert "SWH_BACKEND"[4] == 'B' && "SWH_DATASET"[4] == 'D' && "SWH_DATABASE"[4] == 'D' && "SWH_LOCATION"[4] == 'L';
  }

  lemma LiteralsAreDistinct(service: string, p: Parameters)
    ensures Ranked(Literals(service, p), 0)
    ensures Ordering.Distinct(NamesIn(Literals(service, p)))
  {
    NameRanks();
    var e6 := [Literal("SWH_ALLOW_ANONYMOUS", "false")];
    assert Ranked(e6, 6);
    var e5 := Set("SWH_LOCATION", p.location) + e6;
    RankedBefore(Set("SWH_LOCATION", p.location), e6, 5);
    var e4 := Set("SWH_DATASET", p.dataset) + e5;
    RankedBefore(Set("SWH_DATASET", p.dataset), e5, 4);
    var e3 := Set("SWH_DATABASE", p.database) + e4;
    RankedBefore(Set("SWH_DATABASE", p.database), e4, 3);
    var e2 := Set("SWH_BACKEND", p.backend) + e3;
    RankedBefore(Set("SWH_BACKEND", p.backend), e3, 2);
    var e1 := [Literal("SWH_LISTEN", AgentSettings.LISTEN)] + e2;
    RankedBefore([Literal("SWH_LISTEN", AgentSettings.LISTEN)], e2, 1);
    RankedBefore([Literal("CODEFLY__SERVICE", service)], e1, 0);
    assert Literals(service, p) == [Literal("CODEFLY__SERVICE", service)] + e1;
  }

  /** No variable is named twice exactly when no secret reference takes the name
      of a literal that is rendered. */
  lemma NoNameRepeats(service: string, p: Parameters, refs: SecretRefs)
    ensures Ordering.Distinct(NamesIn(Intended(service, p, refs))) <==> refs.Keys !! LiteralNames(service, p)
  {
    var literals, keys := Literals(service, p), KeysInOrder(refs);
    var all := Intended(service, p, refs);
    var names := NamesIn(all);
    LiteralsAreDistinct(service, p);
    hide Literals, Rank;
    KeysAreDistinct(refs);
    forall name ensures name in NamesIn(literals) <==> name in LiteralNames(service, p) {
      if name in LiteralNames(service, p) {
        var e :| e in literals && e.name == name;
        var i :| 0 <= i < |literals| && literals[i] == e;
        assert NamesIn(literals)[i] == name;
      }
    }
    assert names == NamesIn(literals) + keys;
    DistinctParts(NamesIn(literals), keys);
    hide Intended, NamesIn, LiteralNames, KeysInOrder;
    if refs.Keys !! LiteralNames(service, p) {
      assert forall x :: x in NamesIn(literals) ==> x !in keys;
    }
  }

  lemma DistinctParts(a: seq<string>, b: seq<string>)
    requires Ordering.Distinct(a) && Ordering.Distinct(b)
    ensures Ordering.Distinct(a + b) <==> forall x :: x in a ==> x !in b
  {
    if exists x :: x in a && x in b {
      var x :| x in a && x in b;
      var i :| 0 <= i < |a| && a[i] == x;
      var j :| 0 <= j < |b| && b[j] == x;
      assert (a + b)[i] == (a + b)[|a| + j];
    } else {
      forall i, j | 0 <= i < j < |a + b| ensures (a + b)[i] != (a + b)[j] {
        if i < |a| <= j {
          assert a[i] in a && b[j - |a|] in b;
        }
      }
    }
  }

  lemma KeysAreDistinct(refs: SecretRefs)
    ensures Ordering.Distinct(KeysInOrder(refs))
  {
    var keys := KeysInOrder(refs);
    forall i, j | 0 <= i < j < |keys| ensures keys[i] != keys[j] {
      Ordering.LessIsStrictTotal(keys[i], keys[j]);
    }
  }
}
