/** What the missing escapes cost: specs that differ and hash alike. */
module ConfigCollisions {
  import opened Common
  import opened Toml
  import opened ConfigSettings
  import opened ConfigFile
  import opened ConfigHash
  import ConfigKeys
  import ConfigWriter

  // ---------- the text, piece by piece ----------

  function EntriesText(entries: seq<Entry>): string {
    if entries == [] then ""
    else EntriesText(entries[..|entries| - 1]) + (EntryLine(entries[|entries| - 1]) + "\n")
  }

  function TableText(t: Table): string {
    if t.slots.Some? then "\n" + HeaderLine(t.name) + "\n" + EntriesText(Present(t.slots.value)) else ""
  }

  function TablesText(tables: seq<Table>): string {
    if tables == [] then "" else TablesText(tables[..|tables| - 1]) + TableText(tables[|tables| - 1])
  }

  lemma PrintSection(doc: Doc, name: string, entries: seq<Entry>)
    requires doc != []
    ensures Print(doc + [Section(name, entries)]) == Print(doc) + ("\n" + HeaderLine(name) + "\n" + EntriesText(entries))
    decreases |entries|
  {
    hide Print, EntryLine, HeaderLine;
    if entries == [] {
      ConfigWriter.PrintHeader(doc, name);
    } else {
      var front, e := entries[..|entries| - 1], entries[|entries| - 1];
      assert entries == front + [e];
      PrintSection(doc, name, front);
      ConfigWriter.PrintEntry(doc, name, front, e);
    }
  }

  /** What further tables add to the text depends on them alone. */
  lemma {:induction false} PrintTables(a: seq<Table>, b: seq<Table>)
    requires Sections(a) != []
    ensures Sections(a + b) != [] && Print(Sections(a + b)) == Print(Sections(a)) + TablesText(b)
    decreases |b|
  {
    hide Print, Sections, EntriesText, HeaderLine, Present;
    if b == [] {
      assert a + b == a;
    } else {
      var front, t := b[..|b| - 1], b[|b| - 1];
      assert a + b == (a + front) + [t] && b == front + [t];
      PrintTables(a, front);
      ConfigWriter.OneMoreTable(a + front, t);
      if t.slots.Some? {
        PrintSection(Sections(a + front), t.name, Present(t.slots.value));
      } else {
        assert Sections(a + front) + [] == Sections(a + front);
      }
    }
  }

  lemma {:induction false} TablesTextJoins(a: seq<Table>, b: seq<Table>)
    ensures TablesText(a + b) == TablesText(a) + TablesText(b)
    decreases |b|
  {
    hide TableText;
    if b == [] {
      assert a + b == a;
    } else {
      assert (a + b)[..|a + b| - 1] == a + b[..|b| - 1];
      TablesTextJoins(a, b[..|b| - 1]);
    }
  }

  lemma OneTableText(t: Table)
    ensures TablesText([t]) == TableText(t)
  {
    assert [t][..0] == [];
  }

  lemma {:induction false} EntriesTextStarts(e: Entry, rest: seq<Entry>)
    ensures EntriesText([e] + rest) == EntryLine(e) + "\n" + EntriesText(rest)
    decreases |rest|
  {
    hide EntryLine;
    if rest == [] {
      assert [e] + rest == [e] && [e][..0] == [];
    } else {
      var front, last := rest[..|rest| - 1], rest[|rest| - 1];
      assert [e] + rest == ([e] + front) + [last] && rest == front + [last];
      EntriesTextStarts(e, front);
      EntriesTextEnds([e] + front, last);
      EntriesTextEnds(front, last);
      hide EntriesText;
    }
  }

  lemma {:induction false} PresentStarts(key: string, v: Value, rest: seq<Slot>)
    ensures Present([Slot(key, Some(v))] + rest) == [Entry(key, v)] + Present(rest)
    decreases |rest|
  {
    var first := [Slot(key, Some(v))];
    if rest == [] {
      assert first + rest == first && first[..0] == [];
    } else {
      assert (first + rest)[..|first + rest| - 1] == first + rest[..|rest| - 1];
      PresentStarts(key, v, rest[..|rest| - 1]);
    }
  }

  // ---------- where the two texts stand ----------

  /** The tables of a spec whose two texts are still to be filled in. */
  function Others(c: Cluster): seq<Table> {
    Tables(WithTexts(c, "", ""), false)
  }

  /** What the hash input says before, between and after the two texts. */
  function Before(c: Cluster): string {
    Print(Sections(Others(c)[..3])) + ("\n" + HeaderLine("chdb") + "\n" + "session_data_path = \"")
  }

  function Between(c: Cluster): string {
    "\"" + "\n" + EntriesText(Present(ChdbSlots(c)[1..])) + TablesText(Others(c)[4..10])
    + ("\n" + HeaderLine("retention") + "\n" + EntriesText(Present(RetentionSlots(c)[..1])) + "interval = \"")
  }

  function Behind(c: Cluster): string {
    "\"" + "\n" + TablesText(Others(c)[11..])
  }

  lemma ChdbText(c: Cluster, path: string, interval: string)
    requires path != ""
    ensures var d := WithTexts(c, path, interval);
      TableText(Table("chdb", Some(ChdbSlots(d)))) ==
        ("\n" + HeaderLine("chdb") + "\n" + "session_data_path = \"") + path + ("\"" + "\n" + EntriesText(Present(ChdbSlots(c)[1..])))
  {
    var d := WithTexts(c, path, interval);
    TextTablesAlike(c, d);
    assert ChdbSlots(d)[0] == Slot("session_data_path", Some(Str(path)));
    hide ChdbSlots, HeaderLine, Present, EntriesText, EntryLine, WithTexts;
    var rest := ChdbSlots(c)[1..];
    var e := Entry("session_data_path", Str(path));
    assert ChdbSlots(d) == [Slot(e.key, Some(e.value))] + rest;
    PresentStarts(e.key, e.value, rest);
    EntriesTextStarts(e, Present(rest));
    PathLine(path);
    Regroup("\n" + HeaderLine("chdb") + "\n", "session_data_path = \"", path, "\"", "\n", EntriesText(Present(rest)));
  }

  lemma Regroup(h: string, a: string, p: string, q: string, n: string, r: string)
    ensures h + (a + p + q + n + r) == (h + a) + p + (q + n + r)
  {
  }

  lemma PathLine(path: string)
    ensures EntryLine(Entry("session_data_path", Str(path))) == "session_data_path = \"" + path + "\""
  {
    assert "session_data_path" + " = " + "\"" == "session_data_path = \"";
    assert "session_data_path" + " = " + ("\"" + path + "\"") == ("session_data_path" + " = " + "\"") + path + "\"";
  }

  lemma EntriesTextEnds(entries: seq<Entry>, e: Entry)
    ensures EntriesText(entries + [e]) == EntriesText(entries) + (EntryLine(e) + "\n")
  {
    assert (entries + [e])[..|entries + [e]| - 1] == entries;
  }

  lemma RetentionText(c: Cluster, path: string, interval: string)
    requires interval != ""
    ensures var d := WithTexts(c, path, interval);
      TableText(Table("retention", Some(RetentionSlots(d)))) ==
        ("\n" + HeaderLine("retention") + "\n" + EntriesText(Present(RetentionSlots(c)[..1])) + "interval = \"") + interval + ("\"" + "\n")
  {
    var d := WithTexts(c, path, interval);
    TextTablesAlike(c, d);
    var first, e := RetentionSlots(c)[..1], Entry("interval", Str(interval));
    assert RetentionSlots(d) == first + [Slot(e.key, Some(e.value))];
    hide RetentionSlots, HeaderLine, Present, EntriesText, EntryLine, WithTexts;
    ConfigWriter.OneMoreSlot(first, Slot(e.key, Some(e.value)));
    EntriesTextEnds(Present(first), e);
    IntervalLine(interval);
    RegroupEnd("\n" + HeaderLine("retention") + "\n", EntriesText(Present(first)), "interval = \"", interval, "\"", "\n");
  }

  lemma RegroupEnd(h: string, e: string, a: string, p: string, q: string, n: string)
    ensures h + (e + (a + p + q + n)) == (h + e + a) + p + (q + n)
  {
  }

  lemma IntervalLine(interval: string)
    ensures EntryLine(Entry("interval", Str(interval))) == "interval = \"" + interval + "\""
  {
    assert "interval" + " = " + "\"" == "interval = \"";
    assert "interval" + " = " + ("\"" + interval + "\"") == ("interval" + " = " + "\"") + interval + "\"";
  }

  lemma FillIn(p: string, c1: string, s: string, c2: string, x: string, r1: string, t: string, r2: string, b: string)
    ensures p + ((c1 + s + c2) + x + (r1 + t + r2) + b) == (p + c1) + s + (c2 + x + r1) + t + (r2 + b)
  {
  }

  /** The rendered tables apart from the two that hold the texts. */
  lemma OthersStay(c: Cluster, path: string, interval: string)
    ensures var d := WithTexts(c, path, interval);
      var t, o := Tables(d, false), Others(c);
      && |t| == |o| == 15 && t[..3] == o[..3] && t[4..10] == o[4..10] && t[11..] == o[11..]
      && t[3] == Table("chdb", Some(ChdbSlots(d))) && t[10] == Table("retention", Some(RetentionSlots(d)))
  {
    hide Tables, ChdbSlots, RetentionSlots;
    TablesAlike(WithTexts(c, "", ""), WithTexts(c, path, interval), false);
  }

  lemma FirstTablesPrint(c: Cluster)
    ensures Sections(Others(c)[..3]) != []
  {
    hide Present;
    var o := Others(c);
    assert o[2].slots.Some?;
    assert o[..3] == o[..2] + [o[2]];
    ConfigWriter.OneMoreTable(o[..2], o[2]);
  }

  lemma SlotCounts(c: Cluster)
    ensures |ChdbSlots(c)| == 4 && |RetentionSlots(c)| == 2
  {
  }

  lemma TextInPieces(t: seq<Table>)
    requires |t| == 15 && Sections(t[..3]) != []
    ensures Print(Sections(t)) ==
      Print(Sections(t[..3])) + (TableText(t[3]) + TablesText(t[4..10]) + TableText(t[10]) + TablesText(t[11..]))
  {
    hide Print, Sections, TablesText, TableText;
    var rest := [t[3]] + t[4..10] + [t[10]] + t[11..];
    assert t == t[..3] + rest;
    PrintTables(t[..3], rest);
    TablesTextJoins([t[3]] + t[4..10] + [t[10]], t[11..]);
    TablesTextJoins([t[3]] + t[4..10], [t[10]]);
    TablesTextJoins([t[3]], t[4..10]);
    OneTableText(t[3]);
    OneTableText(t[10]);
  }

  /** The hash input of every spec whose two texts are set. */
  lemma HashInputIs(c: Cluster, path: string, interval: string)
    requires path != "" && interval != ""
    ensures HashInput(WithTexts(c, path, interval)) == Before(c) + path + Between(c) + interval + Behind(c)
  {
    hide Print, Sections, TablesText, TableText, Tables, Others, ChdbSlots, RetentionSlots, EntriesText, Present, HeaderLine;
    hide WithTexts;
    SlotCounts(c);
    var d := WithTexts(c, path, interval);
    var t, o := Tables(d, false), Others(c);
    OthersStay(c, path, interval);
    FirstTablesPrint(c);
    ChdbText(c, path, interval);
    RetentionText(c, path, interval);
    TextInPieces(t);
    FillIn(Print(Sections(o[..3])), "\n" + HeaderLine("chdb") + "\n" + "session_data_path = \"", path,
           "\"" + "\n" + EntriesText(Present(ChdbSlots(c)[1..])), TablesText(o[4..10]),
           "\n" + HeaderLine("retention") + "\n" + EntriesText(Present(RetentionSlots(c)[..1])) + "interval = \"", interval,
           "\"" + "\n", TablesText(o[11..]));
  }

  // ---------- when two specs share a hash input ----------

  lemma SameMiddle(a: string, x: string, y: string, b: string)
    ensures a + x + b == a + y + b <==> x == y
  {
    if a + x + b == a + y + b {
      assert |x| == |y|;
      assert x == (a + x + b)[|a|..|a| + |x|];
      assert y == (a + y + b)[|a|..|a| + |y|];
    }
  }

  lemma SameFrame(a: string, s: string, b: string, t: string, s': string, t': string, z: string)
    ensures a + s + b + t + z == a + s' + b + t' + z <==> s + b + t == s' + b + t'
  {
    assert a + s + b + t == a + (s + b + t) && a + s' + b + t' == a + (s' + b + t');
    SameMiddle(a, s + b + t, s' + b + t', z);
  }

  /** Two settings of the two texts give one hash input exactly when they read the
      same with what the file says between them. */
  lemma SharedHashesExactly(c: Cluster, path: string, interval: string, path': string, interval': string)
    requires path != "" && interval != "" && path' != "" && interval' != ""
    ensures HashInput(WithTexts(c, path, interval)) == HashInput(WithTexts(c, path', interval')) <==>
              path + Between(c) + interval == path' + Between(c) + interval'
  {
    hide *;
    HashInputIs(c, path, interval);
    HashInputIs(c, path', interval');
    SameFrame(Before(c), path, Between(c), interval, path', interval', Behind(c));
  }

  lemma SessionPathIs(c: Cluster)
    requires c.chdb.sessionDataPath != ""
    ensures Lookup(Settings(c, false), "chdb", "session_data_path") == Some(Str(c.chdb.sessionDataPath))
  {
    assert ChdbSlots(c)[0] == Slot("session_data_path", Some(Str(c.chdb.sessionDataPath)));
    hide Lookup, Sections, ValueOf, Present, BareKey, TableName, ChdbSlots;
    ConfigKeys.TablesAreGood(c, false);
    ConfigKeys.ChdbSlotsAreGood(c);
    assert Tables(c, false)[3] == Table("chdb", Some(ChdbSlots(c)));
    LookupTable(Tables(c, false), 3, "session_data_path");
    ValueOfSlot(ChdbSlots(c), 0);
  }

  /** Without escapes distinct settings can share a hash input: a path that goes on
      with what the file says between the texts says what an interval says that
      begins with it. */
  lemma UncleanSpecsCanShareAHash(c: Cluster, p: string, q: string, r: string)
    requires p != "" && r != ""
    ensures
      var d, e := WithTexts(c, p + Between(c) + q, r), WithTexts(c, p, q + Between(c) + r);
      HashInput(d) == HashInput(e) && Settings(d, false) != Settings(e, false)
  {
    hide Between, HashInput, Settings, Lookup;
    var b := Between(c);
    SessionPathIs(WithTexts(c, p + b + q, r));
    SessionPathIs(WithTexts(c, p, q + b + r));
    hide *;
    SharedHashesExactly(c, p + b + q, r, p, q + b + r);
    Reassociate(p, b, q, r);
    BetweenIsSomething(c);
  }

  lemma Reassociate(p: string, b: string, q: string, r: string)
    ensures (p + b + q) + b + r == p + b + (q + b + r)
    ensures |p + b + q| == |p| + |b| + |q|
  {
  }

  lemma BetweenIsSomething(c: Cluster)
    ensures |Between(c)| > 0
  {
    hide EntriesText, TablesText, HeaderLine, Present, Tables, ChdbSlots, RetentionSlots;
  }

  predicate OccursAt(whole: string, part: string, k: nat) {
    k + |part| <= |whole| && whole[k..k + |part|] == part
  }

  /** There is a second place where what stands between the texts could stand. */
  ghost predicate ReadsTwoWays(path: string, between: string, interval: string) {
    var whole := path + between + interval;
    exists k: nat :: OccursAt(whole, between, k) && 0 < k < |whole| - |between| && k != |path|
  }

  /** And exactly then is there another setting of the two texts with the same hash
      input: when what the file says between them occurs a second time. */
  lemma CollisionsExactly(c: Cluster, path: string, interval: string)
    requires path != "" && interval != ""
    ensures ReadsTwoWays(path, Between(c), interval) <==>
      exists path': string, interval': string :: path' != "" && interval' != "" && (path', interval') != (path, interval) &&
        HashInput(WithTexts(c, path', interval')) == HashInput(WithTexts(c, path, interval))
  {
    hide Between, HashInput, WithTexts;
    var b := Between(c);
    var whole := path + b + interval;
    if ReadsTwoWays(path, b, interval) {
      var k: nat :| OccursAt(whole, b, k) && 0 < k < |whole| - |b| && k != |path|;
      var path', interval' := whole[..k], whole[k + |b|..];
      assert path' + b + interval' == whole;
      SharedHashesExactly(c, path', interval', path, interval);
      assert |path'| != |path|;
    }
    forall path': string, interval': string | path' != "" && interval' != "" && (path', interval') != (path, interval) &&
        HashInput(WithTexts(c, path', interval')) == HashInput(WithTexts(c, path, interval))
      ensures ReadsTwoWays(path, b, interval)
    {
      SharedHashesExactly(c, path', interval', path, interval);
      SecondReading(path, b, interval, path', interval');
    }
  }

  lemma SecondReading(path: string, b: string, interval: string, path': string, interval': string)
    requires path != "" && interval != "" && path' != "" && interval' != "" && (path', interval') != (path, interval)
    requires path + b + interval == path' + b + interval'
    ensures ReadsTwoWays(path, b, interval)
  {
    var whole := path + b + interval;
    var other := path' + b + interval';
    assert whole[..|path|] == path && whole[|path| + |b|..] == interval;
    assert other[..|path'|] == path' && other[|path'| + |b|..] == interval';
    assert other[|path'|..|path'| + |b|] == b;
    assert OccursAt(whole, b, |path'|);
  }
}
