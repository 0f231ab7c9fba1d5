/** The subset of TOML v1.0.0 the operator prints (sections "Table", "String",
    "Integer", "Boolean"), how it is printed, and a parser for it. */
module Toml {
  import opened Common
  import opened ImageRef

  datatype Value = Int(n: int) | Bool(b: bool) | Str(s: string)

  datatype Entry = Entry(key: string, value: Value)

  datatype Section = Section(name: string, entries: seq<Entry>)

  type Doc = seq<Section>

  // ---------- printing ----------

  function Digits(n: nat): string {
    if n < 10 then [DigitChar(n)] else Digits(n / 10) + [DigitChar(n % 10)]
  }

  function DigitChar(d: nat): char
    requires d < 10
  {
    '0' + d as char
  }

  function ValueText(v: Value): string {
    match v
    case Int(n) => if n < 0 then "-" + Digits(-n) else Digits(n)
    case Bool(b) => if b then "true" else "false"
    case Str(s) => "\"" + s + "\""
  }

  function EntryLine(e: Entry): string {
    e.key + " = " + ValueText(e.value)
  }

  function HeaderLine(name: string): string {
    "[" + name + "]"
  }

  /** A document's lines: tables separated by an empty line. */
  function DocLines(doc: Doc): seq<string>
    decreases doc
  {
    if doc == [] then []
    else
      var front := doc[..|doc| - 1];
      DocLines(front) + (if front == [] then [] else [""]) + SectionLines(doc[|doc| - 1])
  }

  function SectionLines(s: Section): seq<string>
    decreases |s.entries|
  {
    if s.entries == [] then [HeaderLine(s.name)]
    else
      var last := |s.entries| - 1;
      SectionLines(s.(entries := s.entries[..last])) + [EntryLine(s.entries[last])]
  }

  /** Lines as text, each ended by a newline. */
  function Join(lines: seq<string>): string {
    if lines == [] then "" else Join(lines[..|lines| - 1]) + lines[|lines| - 1] + "\n"
  }

  function Print(doc: Doc): string {
    Join(DocLines(doc))
  }

  // ---------- parsing ----------

  predicate IsBareChar(c: char) {
    'a' <= c <= 'z' || 'A' <= c <= 'Z' || '0' <= c <= '9' || c == '_' || c == '-'
  }

  predicate BareKey(s: string) {
    s != "" && forall c :: c in s ==> IsBareChar(c)
  }

  predicate TableName(s: string) {
    s != "" && forall c :: c in s ==> IsBareChar(c) || c == '.'
  }

  /** What may stand between the quotes as it is.  A quote ends the string, a
      backslash begins an escape, control characters are not allowed. */
  predicate Clean(s: string) {
    forall c :: c in s ==> c != '"' && c != '\\' && (c as int >= 0x20 || c == '\t') && c as int != 0x7F
  }

  /** Splits at newlines; the text must end with one. */
  function SplitLines(text: string): Option<seq<string>>
    decreases |text|
  {
    if text == "" then Some([])
    else if text[|text| - 1] != '\n' then None
    else
      var body := text[..|text| - 1];
      var start := LastIndex(body, '\n') + 1;
      match SplitLines(body[..start])
      case None => None
      case Some(lines) => Some(lines + [body[start..]])
  }

  function ParseDigits(t: string): Option<nat> {
    if t == "" then None
    else if !('0' <= t[|t| - 1] <= '9') then None
    else
      var d := t[|t| - 1] as int - '0' as int;
      if |t| == 1 then Some(d)
      else
        match ParseDigits(t[..|t| - 1])
        case None => None
        case Some(high) => Some(10 * high + d)
  }

  function ParseInt(t: string): Option<Value> {
    var negative := t != "" && t[0] == '-';
    var digits := if negative then t[1..] else t;
    if |digits| > 1 && digits[0] == '0' then None
    else
      match ParseDigits(digits)
      case None => None
      case Some(n) => Some(Int(if negative then 0 - n else n))
  }

  function ParseValue(t: string): Option<Value> {
    if t == "true" then Some(Bool(true))
    else if t == "false" then Some(Bool(false))
    else if t != "" && t[0] == '"' then
      if |t| >= 2 && t[|t| - 1] == '"' && Clean(t[1..|t| - 1]) then Some(Str(t[1..|t| - 1])) else None
    else ParseInt(t)
  }

  predicate HasTable(doc: Doc, name: string) {
    exists s :: s in doc && s.name == name
  }

  predicate HasKey(entries: seq<Entry>, key: string) {
    exists e :: e in entries && e.key == key
  }

  /** One more line.  Defining a table or a key twice is an error. */
  function AddLine(doc: Doc, line: string): Option<Doc> {
    if line == "" then Some(doc)
    else if line[0] == '[' then AddHeader(doc, line)
    else AddEntry(doc, line)
  }

  function AddHeader(doc: Doc, line: string): Option<Doc> {
    if |line| >= 2 && line[|line| - 1] == ']' && TableName(line[1..|line| - 1]) && !HasTable(doc, line[1..|line| - 1])
    then Some(doc + [Section(line[1..|line| - 1], [])])
    else None
  }

  function AddEntry(doc: Doc, line: string): Option<Doc> {
    var eq := Index(line, '=');
    if doc == [] || eq < 1 || eq + 2 > |line| || line[eq - 1] != ' ' || line[eq + 1] != ' ' then None
    else
      var key, value, last := line[..eq - 1], ParseValue(line[eq + 2..]), doc[|doc| - 1];
      if value.None? || !BareKey(key) || HasKey(last.entries, key) then None
      else Some(doc[..|doc| - 1] + [last.(entries := last.entries + [Entry(key, value.value)])])
  }

  function ParseLines(lines: seq<string>): Option<Doc> {
    if lines == [] then Some([])
    else
      match ParseLines(lines[..|lines| - 1])
      case None => None
      case Some(doc) => AddLine(doc, lines[|lines| - 1])
  }

  function Parse(text: string): Option<Doc> {
    match SplitLines(text)
    case None => None
    case Some(lines) => ParseLines(lines)
  }

  // ---------- what a document must be like ----------

  predicate CleanValue(v: Value) {
    v.Str? ==> Clean(v.s)
  }

  ghost predicate DistinctKeys(entries: seq<Entry>) {
    forall i, j :: 0 <= i < j < |entries| ==> entries[i].key != entries[j].key
  }

  ghost predicate WellFormedSection(s: Section) {
    && TableName(s.name)
    && DistinctKeys(s.entries)
    && (forall i :: 0 <= i < |s.entries| ==> BareKey(s.entries[i].key))
  }

  /** Bare names, and no table or key defined twice. */
  ghost predicate WellFormed(doc: Doc) {
    && (forall i :: 0 <= i < |doc| ==> WellFormedSection(doc[i]))
    && (forall i, j :: 0 <= i < j < |doc| ==> doc[i].name != doc[j].name)
  }

  predicate CleanSection(s: Section) {
    forall i :: 0 <= i < |s.entries| ==> CleanValue(s.entries[i].value)
  }

  predicate CleanDoc(doc: Doc) {
    forall i :: 0 <= i < |doc| ==> CleanSection(doc[i])
  }

  // ---------- numbers ----------

  lemma {:induction false} DigitsParse(n: nat)
    ensures ParseDigits(Digits(n)) == Some(n)
    ensures Digits(n) != "" && (n > 0 ==> Digits(n)[0] != '0') && (n < 10 ==> |Digits(n)| == 1)
    ensures forall i :: 0 <= i < |Digits(n)| ==> '0' <= Digits(n)[i] <= '9'
  {
    if n >= 10 {
      DigitsParse(n / 10);
      assert Digits(n)[..|Digits(n)| - 1] == Digits(n / 10);
    }
  }

  lemma ValueParses(v: Value)
    requires CleanValue(v)
    ensures ParseValue(ValueText(v)) == Some(v)
    ensures '\n' !in ValueText(v)
  {
    match v {
      case Bool(_) =>
      case Str(s) =>
        assert ValueText(v)[1..|ValueText(v)| - 1] == s;
      case Int(n) =>
        DigitsParse(if n < 0 then -n else n);
        assert n < 0 ==> ValueText(v)[1..] == Digits(-n);
        var t := ValueText(v);
        assert t[0] != 't' && t[0] != 'f' && t[0] != '"';
        assert t != "true" && t != "false" by {
          assert "true"[0] == 't' && "false"[0] == 'f';
        }
    }
  }

  // ---------- lines ----------

  lemma LastLineStarts(before: string, line: string)
    requires '\n' !in line && (before != "" ==> before[|before| - 1] == '\n')
    ensures LastIndex(before + line, '\n') + 1 == |before|
  {
    var body := before + line;
    assert forall k :: |before| <= k < |body| ==> body[k] == line[k - |before|];
    if before != "" {
      assert body[|before| - 1] == '\n';
    }
  }

  lemma SplitOneMore(before: string, line: string)
    requires '\n' !in line && (before != "" ==> before[|before| - 1] == '\n')
    requires SplitLines(before).Some?
    ensures SplitLines(before + line + "\n") == Some(SplitLines(before).value + [line])
  {
    var text := before + line + "\n";
    assert text[|text| - 1] == '\n' && text[..|text| - 1] == before + line;
    LastLineStarts(before, line);
    assert (before + line)[..|before|] == before && (before + line)[|before|..] == line;
  }

  lemma {:induction false} SplitUndoesJoin(lines: seq<string>)
    requires NoNewlines(lines)
    ensures SplitLines(Join(lines)) == Some(lines)
    ensures Join(lines) != "" ==> Join(lines)[|Join(lines)| - 1] == '\n'
  {
    if lines != [] {
      var front, last := lines[..|lines| - 1], lines[|lines| - 1];
      SplitUndoesJoin(front);
      hide SplitLines;
      assert Join(lines) == Join(front) + last + "\n";
      hide Join;
      SplitOneMore(Join(front), last);
      assert front + [last] == lines;
    }
  }

  lemma HeaderAdds(doc: Doc, name: string)
    requires TableName(name) && !HasTable(doc, name)
    ensures AddLine(doc, HeaderLine(name)) == Some(doc + [Section(name, [])])
    ensures '\n' !in HeaderLine(name)
  {
    var line := HeaderLine(name);
    assert line[1..|line| - 1] == name;
  }

  /** Where the parts of a line `key = text` stand. */
  lemma EntryLineParts(key: string, text: string)
    requires BareKey(key) && '\n' !in text
    ensures var line, k := key + " = " + text, |key|;
      && Index(line, '=') == k + 1 && line[k] == ' ' && line[k + 2] == ' ' && line[..k] == key && line[k + 3..] == text
      && IsBareChar(line[0]) && '\n' !in line
  {
    var line, k := key + " = " + text, |key|;
    assert line[..k] == key && line[k] == ' ' && line[k + 1] == '=' && line[k + 2] == ' ';
    assert line[..k + 1] == key + " ";
    FirstIndex(line, '=', k + 1);
    assert line[0] == key[0] && key[0] in key;
  }

  lemma EntryAdds(doc: Doc, name: string, entries: seq<Entry>, e: Entry)
    requires BareKey(e.key) && CleanValue(e.value) && !HasKey(entries, e.key)
    ensures AddLine(doc + [Section(name, entries)], EntryLine(e)) == Some(doc + [Section(name, entries + [e])])
    ensures '\n' !in EntryLine(e)
  {
    ValueParses(e.value);
    EntryLineParts(e.key, ValueText(e.value));
    assert (doc + [Section(name, entries)])[..|doc|] == doc;
    hide ParseValue, ValueText, BareKey, HasKey, CleanValue, Index;
  }

  // ---------- round trip ----------

  lemma ParseOneMore(lines: seq<string>, line: string)
    ensures ParseLines(lines + [line]) ==
      if ParseLines(lines).None? then None else AddLine(ParseLines(lines).value, line)
  {
    assert (lines + [line])[..|lines + [line]| - 1] == lines;
  }

  predicate NoNewlines(lines: seq<string>) {
    forall i :: 0 <= i < |lines| ==> '\n' !in lines[i]
  }

  lemma {:induction false} SectionParses(lines: seq<string>, doc: Doc, s: Section)
    requires ParseLines(lines) == Some(doc) && NoNewlines(lines)
    requires WellFormedSection(s) && CleanSection(s) && !HasTable(doc, s.name)
    ensures ParseLines(lines + SectionLines(s)) == Some(doc + [s]) && NoNewlines(lines + SectionLines(s))
    decreases |s.entries|
  {
    hide AddLine, ParseLines, TableName, BareKey, CleanValue, EntryLine, HeaderLine;
    if s.entries == [] {
      HeaderAdds(doc, s.name);
      ParseOneMore(lines, HeaderLine(s.name));
      assert s == Section(s.name, []);
    } else {
      var last := |s.entries| - 1;
      var front, e := s.entries[..last], s.entries[last];
      assert WellFormedSection(s.(entries := front));
      SectionParses(lines, doc, s.(entries := front));
      var sofar := lines + SectionLines(s.(entries := front));
      assert lines + SectionLines(s) == sofar + [EntryLine(e)];
      ParseOneMore(sofar, EntryLine(e));
      assert !HasKey(front, e.key);
      EntryAdds(doc, s.name, front, e);
      assert s == Section(s.name, front + [e]);
      assert NoNewlines(sofar + [EntryLine(e)]);
    }
  }

  lemma {:induction false} DocParses(doc: Doc)
    requires WellFormed(doc) && CleanDoc(doc)
    ensures ParseLines(DocLines(doc)) == Some(doc) && NoNewlines(DocLines(doc))
    decreases |doc|
  {
    hide AddHeader, AddEntry, TableName, BareKey, CleanValue, SectionLines;
    if doc != [] {
      var front, s := doc[..|doc| - 1], doc[|doc| - 1];
      DocParses(front);
      var lines := DocLines(front) + if front == [] then [] else [""];
      if front == [] {
        assert lines == [];
      } else {
        ParseOneMore(DocLines(front), "");
      }
      SectionParses(lines, front, s);
      assert front + [s] == doc;
    }
  }

  lemma PrintedParses(doc: Doc)
    requires WellFormed(doc) && CleanDoc(doc)
    ensures Parse(Print(doc)) == Some(doc)
  {
    DocParses(doc);
    SplitUndoesJoin(DocLines(doc));
  }

  /** Whatever the parser accepts has only clean strings in it. */
  lemma {:induction false} ParsedIsClean(lines: seq<string>)
    requires ParseLines(lines).Some?
    ensures CleanDoc(ParseLines(lines).value)
  {
    if lines != [] {
      ParsedIsClean(lines[..|lines| - 1]);
    }
  }

  /** A well-formed document is read back exactly when its strings are clean. */
  lemma RoundTripExactly(doc: Doc)
    requires WellFormed(doc)
    ensures Parse(Print(doc)) == Some(doc) <==> CleanDoc(doc)
  {
    if CleanDoc(doc) {
      PrintedParses(doc);
    } else if Parse(Print(doc)).Some? {
      ParsedIsClean(SplitLines(Print(doc)).value);
    }
  }

  /** Distinct documents print differently. */
  lemma PrintIsInjective(a: Doc, b: Doc)
    requires WellFormed(a) && CleanDoc(a) && WellFormed(b) && CleanDoc(b) && Print(a) == Print(b)
    ensures a == b
  {
    PrintedParses(a);
    PrintedParses(b);
  }
}
