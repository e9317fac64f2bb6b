/**
 The Prometheus text printer and parser of pkg/framework/metrics.go as functions:
 what vectorToText prints for a sample vector and what the parser reads back.
 The printer does not escape label values, so the round trip has a precondition;
 WellFormed below is the exact one.
 */
module MetricText {
  import opened Wrappers
  import opened Seqs
  import opened Text

  const NAME_KEY := "__name__"

  /** One element of a Thanos instant vector; value is absent when the JSON value is not a string. */
  datatype Sample = Sample(metric: map<string, string>, value: Option<string>)

  function Name(s: Sample): string {
    if NAME_KEY in s.metric then s.metric[NAME_KEY] else ""
  }

  function Labels(s: Sample): map<string, string> {
    s.metric - {NAME_KEY}
  }

  function Value(s: Sample): string {
    s.value.GetOr("0")
  }

  // ---------------------------------------------------------------- printer

  function Pair(k: string, v: string): string {
    k + ['='] + (['"'] + v + ['"'])
  }

  /** order lists the label keys in the order in which the map happens to be walked. */
  ghost predicate IsOrder(order: seq<string>, labels: map<string, string>) {
    && (forall i :: 0 <= i < |order| ==> order[i] in labels)
    && (forall k :: k in labels ==> k in order)
    && Distinct(order)
  }

  function Pairs(order: seq<string>, labels: map<string, string>): (r: seq<string>)
    ensures |r| == |order|
    ensures forall i :: 0 <= i < |r| ==> r[i] == Pair(order[i], if order[i] in labels then labels[order[i]] else "")
  {
    seq(|order|, i requires 0 <= i < |order| => Pair(order[i], if order[i] in labels then labels[order[i]] else ""))
  }

  function Block(s: Sample, order: seq<string>): string {
    Join(Pairs(order, Labels(s)), ',')
  }

  function Line(s: Sample, order: seq<string>): string {
    if order == [] then Name(s) + " " + Value(s)
    else Name(s) + ['{'] + Block(s, order) + ['}'] + (" " + Value(s))
  }

  function Print(v: seq<Sample>, orders: seq<seq<string>>): string
    requires |v| == |orders|
  {
    if v == [] then "" else
      Print(v[..|v| - 1], orders[..|v| - 1]) + (Line(v[|v| - 1], orders[|v| - 1]) + ['\n'])
  }

  // ---------------------------------------------------------------- parser

  datatype Entry = Entry(name: string, labels: map<string, string>, value: string)

  function SplitMetricLine(line: string): Option<(string, string)> {
    var i := Index(line, '}');
    if i.Some? then
      var parts := Fields(TrimSpace(line[i.value + 1..]));
      if parts == [] then None else Some((line[..i.value + 1], parts[0]))
    else
      var parts := Fields(line);
      if |parts| < 2 then None else Some((parts[0], parts[1]))
  }

  function SplitNameAndLabels(name: string): (string, string) {
    var i := Index(name, '{');
    if i.Some? then (name[..i.value], TrimSuffix(name[i.value + 1..], '}')) else (name, "")
  }

  function AddPair(m: map<string, string>, pair: string): map<string, string> {
    var p := TrimSpace(pair);
    var e := Index(p, '=');
    if e.None? then m else m[p[..e.value] := TrimChar(p[e.value + 1..], '"')]
  }

  function ParsePairs(pairs: seq<string>): map<string, string> {
    if pairs == [] then map[] else AddPair(ParsePairs(pairs[..|pairs| - 1]), pairs[|pairs| - 1])
  }

  function ParseBlock(block: string): map<string, string> {
    if block == "" then map[] else ParsePairs(Split(block, ','))
  }

  function ParseLine(raw: string): Option<Entry> {
    var line := TrimSpace(raw);
    if line == "" || line[0] == '#' then None else
    var parts := SplitMetricLine(line);
    if parts.None? then None else
    var (bare, block) := SplitNameAndLabels(parts.value.0);
    Some(Entry(bare, ParseBlock(block), parts.value.1))
  }

  function EntriesOf(lines: seq<string>): seq<Entry> {
    if lines == [] then [] else
      EntriesOf(lines[..|lines| - 1])
      + (var e := ParseLine(lines[|lines| - 1]); if e.None? then [] else [e.value])
  }

  function Entries(text: string): seq<Entry> {
    EntriesOf(Split(text, '\n'))
  }

  function EntryOf(s: Sample): Entry {
    Entry(Name(s), Labels(s), Value(s))
  }

  function EntriesOfVector(v: seq<Sample>): (r: seq<Entry>)
    ensures |r| == |v| && forall i :: 0 <= i < |v| ==> r[i] == EntryOf(v[i])
  {
    seq(|v|, i requires 0 <= i < |v| => EntryOf(v[i]))
  }

  // ---------------------------------------------------------------- the exact condition

  predicate Token(s: string) {
    s != "" && NoSpace(s)
  }

  predicate KeyOk(k: string) {
    '=' !in k && ',' !in k && '}' !in k && '\n' !in k && (k != "" ==> !IsSpace(k[0]))
  }

  predicate LabelValueOk(v: string) {
    ',' !in v && '}' !in v && '\n' !in v && (v != "" ==> v[0] != '"' && v[|v| - 1] != '"')
  }

  predicate NameOk(n: string) {
    '{' !in n && '\n' !in n && (n != "" ==> !IsSpace(n[0]) && n[0] != '#')
  }

  /** Without a label block the name ends at white space, or at its own final brace. */
  predicate BareNameOk(n: string, value: string) {
    && n != ""
    && if n[|n| - 1] == '}' then '}' !in n[..|n| - 1] else NoSpace(n) && '}' !in n && '}' !in value
  }

  predicate WellFormed(s: Sample) {
    && NameOk(Name(s))
    && Token(Value(s))
    && (forall k :: k in Labels(s) ==> KeyOk(k) && LabelValueOk(Labels(s)[k]))
    && if Labels(s) == map[] then BareNameOk(Name(s), Value(s)) else '}' !in Name(s)
  }

  // ---------------------------------------------------------------- well formed implies the round trip

  lemma PairParses(m: map<string, string>, k: string, v: string)
    requires KeyOk(k) && LabelValueOk(v)
    ensures AddPair(m, Pair(k, v)) == m[k := v]
  {
    var p := Pair(k, v);
    assert p[|p| - 1] == '"' && !IsSpace('"') && !IsSpace('=');
    assert k != "" ==> p[0] == k[0];
    TrimSpaceId(p);
    IndexAfter(k, '=', ['"'] + v + ['"']);
    assert p[..|k|] == k && p[|k| + 1..] == ['"'] + v + ['"'];
    TrimQuoted(v, '"');
  }

  function Restrict(labels: map<string, string>, keys: seq<string>): map<string, string> {
    map k | k in labels && k in keys :: labels[k]
  }

  lemma PairsOneMore(order: seq<string>, k: string, labels: map<string, string>)
    requires k in labels
    ensures Pairs(order + [k], labels) == Pairs(order, labels) + [Pair(k, labels[k])]
  {
    hide Pair;
  }

  lemma ParseOneMore(pairs: seq<string>, pair: string)
    ensures ParsePairs(pairs + [pair]) == AddPair(ParsePairs(pairs), pair)
  {
    assert (pairs + [pair])[..|pairs|] == pairs;
    hide AddPair;
  }

  lemma {:induction false} PairsParse(order: seq<string>, labels: map<string, string>)
    requires forall i :: 0 <= i < |order| ==> order[i] in labels
    requires forall k :: k in labels ==> KeyOk(k) && LabelValueOk(labels[k])
    ensures ParsePairs(Pairs(order, labels)) == Restrict(labels, order)
  {
    hide KeyOk, LabelValueOk, AddPair, Pair;
    if order != [] {
      var n := |order| - 1;
      var init, k := order[..n], order[n];
      PairsParse(init, labels);
      PairParses(Restrict(labels, init), k, labels[k]);
      hide ParsePairs, Pairs, Restrict;
      assert order == init + [k];
      PairsOneMore(init, k, labels);
      ParseOneMore(Pairs(init, labels), Pair(k, labels[k]));
      RestrictSnoc(labels, init, k);
    }
  }

  lemma RestrictSnoc(labels: map<string, string>, keys: seq<string>, k: string)
    requires k in labels
    ensures Restrict(labels, keys + [k]) == Restrict(labels, keys)[k := labels[k]]
  {
  }

  lemma PairAvoids(k: string, v: string, c: char)
    requires c !in k && c !in v && c != '=' && c != '"'
    ensures c !in Pair(k, v)
  {
  }

  lemma PairsAreClean(order: seq<string>, labels: map<string, string>, i: nat)
    requires i < |order| && order[i] in labels
    requires KeyOk(order[i]) && LabelValueOk(labels[order[i]])
    ensures var p := Pairs(order, labels)[i];
      p != "" && ',' !in p && '}' !in p && '\n' !in p
  {
    PairIsClean(order[i], labels[order[i]]);
  }

  lemma BlockIsClean(s: Sample, order: seq<string>)
    requires IsOrder(order, Labels(s)) && order != []
    requires forall k :: k in Labels(s) ==> KeyOk(k) && LabelValueOk(Labels(s)[k])
    ensures '}' !in Block(s, order) && '\n' !in Block(s, order) && Block(s, order) != ""
    ensures Split(Block(s, order), ',') == Pairs(order, Labels(s))
  {
    var pairs := Pairs(order, Labels(s));
    forall i | 0 <= i < |pairs|
      ensures pairs[i] != "" && ',' !in pairs[i] && '}' !in pairs[i] && '\n' !in pairs[i]
    {
      assert order[i] in Labels(s);
      PairsAreClean(order, Labels(s), i);
    }
    hide Pair, KeyOk, LabelValueOk, Pairs;
    SplitJoin(pairs, ',');
    JoinAvoids(pairs, ',', '}');
    JoinAvoids(pairs, ',', '\n');
    assert Split("", ',') == [""];
  }

  lemma BlockParses(s: Sample, order: seq<string>)
    requires IsOrder(order, Labels(s)) && order != []
    requires forall k :: k in Labels(s) ==> KeyOk(k) && LabelValueOk(Labels(s)[k])
    ensures ParseBlock(Block(s, order)) == Labels(s)
  {
    BlockIsClean(s, order);
    PairsParse(order, Labels(s));
    assert Restrict(Labels(s), order) == Labels(s);
  }

  lemma PairIsClean(k: string, v: string)
    requires KeyOk(k) && LabelValueOk(v)
    ensures ',' !in Pair(k, v) && '}' !in Pair(k, v) && '\n' !in Pair(k, v)
  {
    PairAvoids(k, v, ',');
    PairAvoids(k, v, '}');
    PairAvoids(k, v, '\n');
  }

  lemma TrimSpaceOfToken(v: string)
    requires Token(v)
    ensures TrimSpace(" " + v) == v
  {
    assert (" " + v)[1..] == v;
    assert TrimLeft(" " + v) == TrimLeft(v);
    TrimSpaceId(v);
  }

  lemma LabelledLineSplits(name: string, block: string, value: string)
    requires '}' !in name && '}' !in block && Token(value)
    ensures SplitMetricLine(name + ['{'] + block + ['}'] + (" " + value)) == Some((name + ['{'] + block + ['}'], value))
  {
    var head := name + ['{'] + block;
    var line := head + ['}'] + (" " + value);
    IndexAfter(head, '}', " " + value);
    assert line[|head| + 1..] == " " + value;
    assert line[..|head| + 1] == head + ['}'];
    TrimSpaceOfToken(value);
    FieldsOfToken(value);
  }

  lemma LabelledNameSplits(name: string, block: string)
    requires '{' !in name
    ensures SplitNameAndLabels(name + ['{'] + block + ['}']) == (name, block)
  {
    var full := name + ['{'] + (block + ['}']);
    assert name + ['{'] + block + ['}'] == full;
    IndexAfter(name, '{', block + ['}']);
    assert full[..|name|] == name && full[|name| + 1..] == block + ['}'];
  }

  lemma LabelledLineIsTrimmed(name: string, block: string, value: string)
    requires NameOk(name) && Token(value)
    ensures var line := name + ['{'] + block + ['}'] + (" " + value);
      line != "" && line[0] != '#' && TrimSpace(line) == line
  {
    var line := name + ['{'] + block + ['}'] + (" " + value);
    assert line[0] == if name == "" then '{' else name[0];
    assert line[|line| - 1] == value[|value| - 1] && !IsSpace(value[|value| - 1]);
    TrimSpaceId(line);
  }

  lemma LabelledLineParses(s: Sample, order: seq<string>)
    requires WellFormed(s) && IsOrder(order, Labels(s)) && order != []
    ensures ParseLine(Line(s, order)) == Some(EntryOf(s))
  {
    BlockIsClean(s, order);
    BlockParses(s, order);
    assert order[0] in Labels(s);
    var name, block, value := Name(s), Block(s, order), Value(s);
    hide TrimSpace, Fields, SplitMetricLine, SplitNameAndLabels, ParseBlock, Block, Token, NameOk, KeyOk, LabelValueOk;
    LabelledLineSplits(name, block, value);
    LabelledNameSplits(name, block);
    LabelledLineIsTrimmed(name, block, value);
  }

  lemma BareLineSplits(name: string, value: string)
    requires '{' !in name && BareNameOk(name, value) && Token(value)
    ensures SplitMetricLine(name + " " + value) == Some((name, value))
  {
    var n, line := |name| - 1, name + " " + value;
    if name[n] == '}' {
      assert line == name[..n] + ['}'] + (" " + value);
      IndexAfter(name[..n], '}', " " + value);
      assert line[..n + 1] == name && line[n + 1..] == " " + value;
      TrimSpaceOfToken(value);
      FieldsOfToken(value);
    } else {
      assert '}' !in line;
      FieldsOfTwo(name, value);
    }
  }

  lemma BareLineParses(s: Sample)
    requires WellFormed(s) && Labels(s) == map[]
    ensures ParseLine(Line(s, [])) == Some(EntryOf(s))
  {
    var name, value := Name(s), Value(s);
    var line := Line(s, []);
    BareLineSplits(name, value);
    assert line[0] == name[0];
    assert line[|line| - 1] == value[|value| - 1] && !IsSpace(value[|value| - 1]);
    hide Fields, SplitMetricLine, BareNameOk;
    TrimSpaceId(line);
  }

  lemma LineParses(s: Sample, order: seq<string>)
    requires WellFormed(s) && IsOrder(order, Labels(s))
    ensures ParseLine(Line(s, order)) == Some(EntryOf(s))
  {
    if order == [] {
      BareLineParses(s);
    } else {
      LabelledLineParses(s, order);
    }
  }

  // ---------------------------------------------------------------- what the parser can return

  lemma TrimSpaceFacts(s: string)
    ensures forall c :: c in TrimSpace(s) ==> c in s
    ensures TrimSpace(s) != "" ==> !IsSpace(TrimSpace(s)[0]) && !IsSpace(TrimSpace(s)[|TrimSpace(s)| - 1])
  {
    TrimLeftFacts(s);
    TrimRightFacts(TrimLeft(s));
  }

  ghost predicate LabelsOk(m: map<string, string>) {
    forall k :: k in m ==> KeyOk(k) && LabelValueOk(m[k])
  }

  lemma AddedPairOk(m: map<string, string>, pair: string)
    requires LabelsOk(m) && ',' !in pair && '}' !in pair && '\n' !in pair
    ensures LabelsOk(AddPair(m, pair))
  {
    TrimSpaceFacts(pair);
    var p := TrimSpace(pair);
    var e := Index(p, '=');
    if e.Some? {
      var k, v := p[..e.value], TrimChar(p[e.value + 1..], '"');
      assert forall c :: c in k || c in v ==> c in p;
      assert KeyOk(k) && LabelValueOk(v);
    }
  }

  lemma {:induction false} ParsedPairsOk(pairs: seq<string>)
    requires forall i :: 0 <= i < |pairs| ==> ',' !in pairs[i] && '}' !in pairs[i] && '\n' !in pairs[i]
    ensures LabelsOk(ParsePairs(pairs))
  {
    if pairs != [] {
      ParsedPairsOk(pairs[..|pairs| - 1]);
      AddedPairOk(ParsePairs(pairs[..|pairs| - 1]), pairs[|pairs| - 1]);
    }
  }

  lemma ParsedBlockOk(block: string)
    requires '}' !in block && '\n' !in block
    ensures LabelsOk(ParseBlock(block))
  {
    if block != "" {
      ParsedPairsOk(Split(block, ','));
    }
  }

  /** A prefix of a line up to its first closing brace, or a token of a line without one. */
  predicate NamePart(part: string) {
    part != "" && '}' !in part[..|part| - 1]
  }

  lemma SplitLineFacts(line: string)
    requires line != "" && !IsSpace(line[0])
    ensures var r := SplitMetricLine(line);
      r.Some? ==>
        && NamePart(r.value.0) && r.value.0 <= line
        && Token(r.value.1) && |r.value.1| < |line|
        && ('}' !in line ==> NoSpace(r.value.0))
  {
    var i := Index(line, '}');
    if i.Some? {
      var rest := TrimSpace(line[i.value + 1..]);
      if Fields(rest) != [] {
        FieldsAreTokens(rest, 0);
        assert line[..i.value + 1][..i.value] == line[..i.value];
      }
    } else if |Fields(line)| >= 2 {
      FirstField(line);
      FieldsAreTokens(line, 0);
      SecondFieldIsShorter(line);
    }
  }

  lemma FirstField(line: string)
    requires line != "" && !IsSpace(line[0])
    ensures Fields(line) != [] && Fields(line)[0] <= line
  {
    assert TrimLeft(line) == line;
  }

  lemma SecondFieldIsShorter(line: string)
    requires line != "" && !IsSpace(line[0]) && |Fields(line)| >= 2
    ensures Token(Fields(line)[1]) && |Fields(line)[1]| < |line|
  {
    assert TrimLeft(line) == line;
    var rest := line[TokenLength(line)..];
    assert Fields(line)[1] == Fields(rest)[0];
    FieldsAreTokens(rest, 0);
  }

  lemma NameFacts(part: string)
    requires NamePart(part)
    ensures var (bare, block) := SplitNameAndLabels(part);
      && bare <= part && '{' !in bare
      && (bare != part ==> '}' !in bare)
      && '}' !in block
      && (forall c :: c in block ==> c in part)
      && (block != "" ==> bare != part)
  {
    var i := Index(part, '{');
    if i.Some? {
      var rest := part[i.value + 1..];
      assert forall j :: 0 <= j < |rest| ==> rest[j] == part[i.value + 1 + j];
      assert forall j :: 0 <= j < |part| - 1 ==> part[j] == part[..|part| - 1][j];
      if i.value == |part| - 1 {
        assert part[..i.value] == part[..|part| - 1];
      }
    }
  }

  /** Everything the parser returns for one line, whatever the line. */
  ghost predicate Returnable(e: Entry) {
    && NameOk(e.name) && Token(e.value) && LabelsOk(e.labels)
    && (e.labels != map[] ==> '}' !in e.name)
  }

  lemma ParsedLineIsReturnable(raw: string)
    requires '\n' !in raw && ParseLine(raw).Some?
    ensures Returnable(ParseLine(raw).value)
  {
    TrimSpaceFacts(raw);
    var line := TrimSpace(raw);
    SplitLineFacts(line);
    var part := SplitMetricLine(line).value.0;
    NameFacts(part);
    var (bare, block) := SplitNameAndLabels(part);
    assert '\n' !in part;
    ParsedBlockOk(block);
    assert bare != "" ==> bare[0] == line[0];
  }

  // ---------------------------------------------------------------- the round trip implies well formed

  lemma NamelessLineFails(value: string)
    requires Token(value)
    ensures ParseLine("" + " " + value).Some? ==> ParseLine("" + " " + value).value.value != value
  {
    assert "" + " " + value == " " + value;
    TrimSpaceOfToken(value);
    SplitLineFacts(value);
  }

  lemma SpaceInside(name: string, value: string, part: string)
    requires part <= name + " " + value
    ensures |part| <= |name| || !NoSpace(part)
  {
    if |part| > |name| {
      assert part[|name|] == ' ' && IsSpace(' ');
    }
  }

  lemma NameStopsAtBrace(name: string, part: string)
    requires name <= part && SplitNameAndLabels(part).0 == name
    ensures part == name || part[|name|] == '{'
  {
  }

  lemma BareLineNeedsGoodName(s: Sample)
    requires Labels(s) == map[] && NameOk(Name(s)) && Token(Value(s))
    requires ParseLine(Line(s, [])) == Some(EntryOf(s))
    ensures BareNameOk(Name(s), Value(s))
  {
    var name, value := Name(s), Value(s);
    NamelessLineFails(value);
    var line := name + " " + value;
    assert line[|line| - 1] == value[|value| - 1] && value[|value| - 1] in value;
    hide Fields, SplitMetricLine, SplitNameAndLabels, BareNameOk, ParseBlock;
    assert name != "" && line[0] == name[0];
    TrimSpaceId(line);
    SplitLineFacts(line);
    var part := SplitMetricLine(line).value.0;
    NameFacts(part);
    BareNameCases(name, value, part);
  }

  lemma BareNameCases(name: string, value: string, part: string)
    requires name != "" && '{' !in name
    requires SplitMetricLine(name + " " + value) == Some((part, value))
    requires NamePart(part) && part <= name + " " + value && ('}' !in name + " " + value ==> NoSpace(part))
    requires name <= part && SplitNameAndLabels(part).0 == name
    ensures BareNameOk(name, value)
  {
    var line := name + " " + value;
    var i := Index(line, '}');
    NameStopsAtBrace(name, part);
    SpaceInside(name, value, part);
    assert line[|name|] == ' ' && part == name;
    if i.None? {
      assert forall c :: c in name || c in value ==> c in line;
    } else {
      assert part == line[..i.value + 1];
      assert line[..i.value] == name[..|name| - 1];
    }
  }

  lemma NoLabelsNoOrder(order: seq<string>, labels: map<string, string>)
    requires IsOrder(order, labels)
    ensures labels == map[] ==> order == []
  {
    if order != [] {
      assert order[0] in labels;
    }
  }

  /** One line: it reads back as its own sample exactly when the sample is well formed. */
  lemma LineParsesIff(s: Sample, order: seq<string>)
    requires IsOrder(order, Labels(s)) && '\n' !in Line(s, order)
    ensures ParseLine(Line(s, order)) == Some(EntryOf(s)) <==> WellFormed(s)
  {
    if WellFormed(s) {
      LineParses(s, order);
    }
    if ParseLine(Line(s, order)) == Some(EntryOf(s)) {
      ParsedLineIsReturnable(Line(s, order));
      if Labels(s) == map[] {
        NoLabelsNoOrder(order, Labels(s));
        BareLineNeedsGoodName(s);
      }
    }
  }

  // ---------------------------------------------------------------- whole vectors

  ghost predicate AreOrders(v: seq<Sample>, orders: seq<seq<string>>) {
    |orders| == |v| && forall i :: 0 <= i < |v| ==> IsOrder(orders[i], Labels(v[i]))
  }

  function Lines(v: seq<Sample>, orders: seq<seq<string>>): (r: seq<string>)
    requires |v| == |orders|
    ensures |r| == |v| && forall i :: 0 <= i < |v| ==> r[i] == Line(v[i], orders[i])
  {
    seq(|v|, i requires 0 <= i < |v| => Line(v[i], orders[i]))
  }

  /** Splitting what follows a text that ends in the separator. */
  lemma {:induction false} SplitAppend(a: string, b: string, c: char)
    requires Split(a, c)[|Split(a, c)| - 1] == ""
    ensures Split(a + b, c) == Split(a, c)[..|Split(a, c)| - 1] + Split(b, c)
    decreases |a|
  {
    hide Split, Index;
    var i := Index(a, c);
    if i.None? {
      SplitNone(a, c);
      assert a + b == b;
    } else {
      var rest := a[i.value + 1..];
      assert a == a[..i.value] + [c] + rest;
      SplitAfter(a[..i.value], c, rest);
      SplitAppend(rest, b, c);
      assert a + b == a[..i.value] + [c] + (rest + b);
      SplitAfter(a[..i.value], c, rest + b);
    }
  }

  lemma {:induction false} PrintSplits(v: seq<Sample>, orders: seq<seq<string>>)
    requires |v| == |orders|
    requires forall i :: 0 <= i < |v| ==> '\n' !in Line(v[i], orders[i])
    ensures Split(Print(v, orders), '\n') == Lines(v, orders) + [""]
  {
    hide Split, Line;
    SplitNone("", '\n');
    if v != [] {
      var n := |v| - 1;
      var before, line := Print(v[..n], orders[..n]), Line(v[n], orders[n]);
      PrintSplits(v[..n], orders[..n]);
      SplitAppend(before, line + ['\n'], '\n');
      SplitAfter(line, '\n', "");
      assert line + ['\n'] + "" == line + ['\n'];
      assert Lines(v, orders) == Lines(v[..n], orders[..n]) + [line];
    }
  }

  /** Each line gives at most one entry; all lines count only if each gives exactly one. */
  lemma {:induction false} EntriesAlign(lines: seq<string>)
    ensures |EntriesOf(lines)| <= |lines|
    ensures |EntriesOf(lines)| == |lines| ==>
      forall i :: 0 <= i < |lines| ==> ParseLine(lines[i]) == Some(EntriesOf(lines)[i])
  {
    hide ParseLine;
    if lines != [] {
      var n := |lines| - 1;
      EntriesAlign(lines[..n]);
      assert forall i :: 0 <= i < n ==> lines[..n][i] == lines[i];
    }
  }

  lemma {:induction false} EntriesWhenAllParse(lines: seq<string>, es: seq<Entry>)
    requires |es| == |lines| && forall i :: 0 <= i < |lines| ==> ParseLine(lines[i]) == Some(es[i])
    ensures EntriesOf(lines) == es
  {
    hide ParseLine;
    if lines != [] {
      var n := |lines| - 1;
      EntriesWhenAllParse(lines[..n], es[..n]);
      assert ParseLine(lines[n]) == Some(es[n]);
    }
  }

  lemma EntriesIff(lines: seq<string>, es: seq<Entry>)
    requires |es| == |lines|
    ensures EntriesOf(lines) == es <==> forall i :: 0 <= i < |lines| ==> ParseLine(lines[i]) == Some(es[i])
  {
    hide ParseLine, EntriesOf;
    EntriesAlign(lines);
    if forall i :: 0 <= i < |lines| ==> ParseLine(lines[i]) == Some(es[i]) {
      EntriesWhenAllParse(lines, es);
    }
  }

  lemma {:induction false} EntriesAreReturnable(lines: seq<string>)
    requires forall i :: 0 <= i < |lines| ==> '\n' !in lines[i]
    ensures forall i :: 0 <= i < |EntriesOf(lines)| ==> Returnable(EntriesOf(lines)[i])
  {
    if lines != [] {
      EntriesAreReturnable(lines[..|lines| - 1]);
      if ParseLine(lines[|lines| - 1]).Some? {
        ParsedLineIsReturnable(lines[|lines| - 1]);
      }
    }
  }

  lemma EmptyLastLine(lines: seq<string>)
    ensures EntriesOf(lines + [""]) == EntriesOf(lines)
  {
    assert (lines + [""])[..|lines|] == lines;
  }

  /** Nothing the parser returns needs a second line. */
  lemma ReturnableHasOneLine(s: Sample, order: seq<string>)
    requires Returnable(EntryOf(s)) && IsOrder(order, Labels(s))
    ensures '\n' !in Line(s, order)
  {
    assert IsSpace('\n');
    if order != [] {
      BlockIsClean(s, order);
    }
  }

  /**
   The round trip, exactly: whatever order each label map is walked in, the
   printed vector reads back as itself if and only if every sample is well formed.
   */
  /** One entry for each sample: its name, its other labels, and its value or 0. */
  ghost predicate ReadBack(v: seq<Sample>, entries: seq<Entry>) {
    |entries| == |v| && forall i :: 0 <= i < |v| ==> IsEntryOf(entries[i], v[i])
  }

  ghost predicate IsEntryOf(e: Entry, s: Sample) {
    && e.name == (if "__name__" in s.metric then s.metric["__name__"] else "")
    && e.labels == s.metric - {"__name__"}
    && e.value == match s.value case None => "0" case Some(text) => text
  }

  lemma ReadBackIff(v: seq<Sample>, entries: seq<Entry>)
    ensures ReadBack(v, entries) <==> entries == EntriesOfVector(v)
  {
    assert forall i :: 0 <= i < |v| ==> IsEntryOf(EntryOf(v[i]), v[i]);
  }

  /** What is printed for a sample without labels. */
  lemma PrintedBare(name: string, value: string)
    ensures Print([Sample(map["__name__" := name], Some(value))], [[]]) == name + " " + value + "\n"
  {
    var bare := Sample(map["__name__" := name], Some(value));
    PrintOne(bare, []);
  }

  lemma PrintOne(s: Sample, order: seq<string>)
    ensures Print([s], [order]) == Line(s, order) + "\n"
  {
    hide Line;
    assert [s][..0] == [] && [order][..0] == [];
    assert Print([s], [order]) == Print([], []) + (Line(s, order) + ['\n']);
  }

  lemma JoinTwo(a: string, b: string, sep: char)
    ensures Join([a, b], sep) == a + [sep] + b
  {
    assert [a, b][1..] == [b];
  }

  /** What is printed for a sample with two labels, which come in some order. */
  lemma PrintedLabels(name: string, k1: string, v1: string, k2: string, v2: string, value: string)
    requires k1 != "__name__" && k2 != "__name__" && k1 != k2
    ensures var s := Sample(map["__name__" := name, k1 := v1, k2 := v2], Some(value));
      && IsOrder([k1, k2], Labels(s))
      && var first, second := k1 + "=" + ("\"" + v1 + "\""), k2 + "=" + ("\"" + v2 + "\"");
      Print([s], [[k1, k2]]) == name + "{" + (first + "," + second) + "}" + (" " + value) + "\n"
  {
    var s := Sample(map["__name__" := name, k1 := v1, k2 := v2], Some(value));
    assert Labels(s) == map[k1 := v1, k2 := v2];
    PrintOne(s, [k1, k2]);
    var pairs := Pairs([k1, k2], Labels(s));
    var p1, p2 := Pair(k1, v1), Pair(k2, v2);
    assert pairs == [p1, p2];
    JoinTwo(p1, p2, ',');
    assert Block(s, [k1, k2]) == p1 + [','] + p2;
  }

  /** A vector reads back exactly when every sample is well formed. */
  lemma {:induction false} RoundTripIff(v: seq<Sample>, orders: seq<seq<string>>)
    requires AreOrders(v, orders)
    ensures Entries(Print(v, orders)) == EntriesOfVector(v) <==> forall i :: 0 <= i < |v| ==> WellFormed(v[i])
    ensures ReadBack(v, Entries(Print(v, orders))) <==> forall i :: 0 <= i < |v| ==> WellFormed(v[i])
  {
    ReadBackIff(v, Entries(Print(v, orders)));
    if forall i :: 0 <= i < |v| ==> WellFormed(v[i]) {
      forall i | 0 <= i < |v|
        ensures Returnable(EntryOf(v[i]))
      {
        assert WellFormed(v[i]);
      }
      RoundTripByLines(v, orders);
    } else if Entries(Print(v, orders)) == EntriesOfVector(v) {
      EntriesAreReturnable(Split(Print(v, orders), '\n'));
      forall i | 0 <= i < |v|
        ensures Returnable(EntryOf(v[i]))
      {
        assert EntriesOfVector(v)[i] == EntryOf(v[i]);
      }
      RoundTripByLines(v, orders);
    }
  }

  lemma RoundTripByLines(v: seq<Sample>, orders: seq<seq<string>>)
    requires AreOrders(v, orders) && forall i :: 0 <= i < |v| ==> Returnable(EntryOf(v[i]))
    ensures Entries(Print(v, orders)) == EntriesOfVector(v) <==> forall i :: 0 <= i < |v| ==> WellFormed(v[i])
  {
    forall i | 0 <= i < |v|
      ensures '\n' !in Line(v[i], orders[i])
      ensures ParseLine(Line(v[i], orders[i])) == Some(EntryOf(v[i])) <==> WellFormed(v[i])
    {
      assert IsOrder(orders[i], Labels(v[i]));
      ReturnableHasOneLine(v[i], orders[i]);
      LineParsesIff(v[i], orders[i]);
    }
    hide WellFormed, ParseLine, Line, EntriesOf, Split, Print;
    PrintSplits(v, orders);
    EmptyLastLine(Lines(v, orders));
    EntriesIff(Lines(v, orders), EntriesOfVector(v));
    assert forall i :: 0 <= i < |v| ==> Lines(v, orders)[i] == Line(v[i], orders[i]);
  }

  // ---------------------------------------------------------------- looking up a value

  datatype LookupResult = Found(value: real) | BadValue | NotFound

  /** strconv.ParseFloat; None is its error. */
  type ParseFloat = string -> Option<real>

  /** A missing label reads as the empty string. */
  function Read(labels: map<string, string>, k: string): string {
    if k in labels then labels[k] else ""
  }

  predicate Selects(e: Entry, name: string, required: map<string, string>) {
    e.name == name && forall k :: k in required ==> Read(e.labels, k) == required[k]
  }

  function FirstMatch(es: seq<Entry>, name: string, required: map<string, string>, pf: ParseFloat): LookupResult {
    if es == [] then NotFound
    else if Selects(es[0], name, required) then
      if pf(es[0].value).Some? then Found(pf(es[0].value).value) else BadValue
    else FirstMatch(es[1..], name, required, pf)
  }

  /** The sample has that name, and the required labels; a missing label reads as empty. */
  ghost predicate Wanted(s: Sample, name: string, required: map<string, string>) {
    && (if "__name__" in s.metric then s.metric["__name__"] else "") == name
    && forall k :: k in required ==> required[k] == if k in s.metric && k != "__name__" then s.metric[k] else ""
  }

  lemma WantedIff(s: Sample, name: string, required: map<string, string>)
    ensures Wanted(s, name, required) <==> Selects(EntryOf(s), name, required)
  {
  }

  /** What a caller wants: the first sample of the vector with that name and those labels. */
  ghost predicate IsFirstSample(v: seq<Sample>, i: int, name: string, required: map<string, string>) {
    0 <= i < |v| && Wanted(v[i], name, required) && forall j :: 0 <= j < i ==> !Wanted(v[j], name, required)
  }

  lemma {:induction false} FirstMatchFacts(v: seq<Sample>, name: string, required: map<string, string>, pf: ParseFloat)
    ensures var r := FirstMatch(EntriesOfVector(v), name, required, pf);
      && (r.NotFound? <==> forall i :: 0 <= i < |v| ==> !Wanted(v[i], name, required))
      && (forall i :: IsFirstSample(v, i, name, required) ==>
            var text := match v[i].value case None => "0" case Some(given) => given;
            r == if pf(text).Some? then Found(pf(text).value) else BadValue)
  {
    if v != [] {
      FirstMatchFacts(v[1..], name, required, pf);
      assert EntriesOfVector(v)[1..] == EntriesOfVector(v[1..]);
      assert forall i :: 0 < i < |v| ==> v[i] == v[1..][i - 1];
      WantedIff(v[0], name, required);
      hide Wanted;
      if !Selects(EntryOf(v[0]), name, required) {
        forall i | IsFirstSample(v, i, name, required)
          ensures IsFirstSample(v[1..], i - 1, name, required)
        {
        }
      }
    }
  }

  /**
   Printing a well-formed vector and looking a metric up finds the first matching sample, or nothing
   when there is none.
   */
  lemma {:induction false} LookupRoundTrip(v: seq<Sample>, orders: seq<seq<string>>, name: string,
      required: map<string, string>, pf: ParseFloat)
    requires AreOrders(v, orders) && forall i :: 0 <= i < |v| ==> WellFormed(v[i])
    ensures var r := FirstMatch(Entries(Print(v, orders)), name, required, pf);
      && (r.NotFound? <==> forall i :: 0 <= i < |v| ==> !Wanted(v[i], name, required))
      && (forall i :: IsFirstSample(v, i, name, required) ==>
            var text := match v[i].value case None => "0" case Some(given) => given;
            r == if pf(text).Some? then Found(pf(text).value) else BadValue)
  {
    RoundTripIff(v, orders);
    FirstMatchFacts(v, name, required, pf);
  }
}
