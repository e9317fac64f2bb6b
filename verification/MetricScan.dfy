/** vectorToText and ParseMetricValue as loops, proved against the functions of MetricText. */
module MetricScan {
  import opened Wrappers
  import opened Text
  import opened MetricText

  /** orders[n] is the order in which ranging over the n-th label map yields its keys. */
  method VectorToText(v: seq<Sample>, orders: seq<seq<string>>) returns (text: string)
    requires AreOrders(v, orders)
    ensures text == Print(v, orders)
  {
    hide Line, IsOrder;
    text := "";
    for n := 0 to |v|
      invariant text == Print(v[..n], orders[..n])
    {
      assert IsOrder(orders[n], Labels(v[n]));
      var line := SampleToText(v[n], orders[n]);
      PrintSnoc(v, orders, n);
      text := text + (line + ['\n']);
    }
    assert v[..|v|] == v && orders[..|v|] == orders;
  }

  /** The body of the printing loop, for one sample. */
  method SampleToText(sample: Sample, order: seq<string>) returns (line: string)
    requires IsOrder(order, Labels(sample))
    ensures line == Line(sample, order)
  {
    var metric := sample.metric;
    var name := if NAME_KEY in metric then metric[NAME_KEY] else "";
    metric := metric - {NAME_KEY};
    var labels := [];
    for i := 0 to |order|
      invariant labels == Pairs(order[..i], metric)
    {
      var k := order[i];
      assert order[..i + 1] == order[..i] + [k];
      PairsOneMore(order[..i], k, metric);
      labels := labels + [k + ['='] + (['"'] + metric[k] + ['"'])];
    }
    assert order[..|order|] == order;
    var val := if sample.value.Some? then sample.value.value else "0";
    line := if |labels| > 0 then name + ['{'] + Join(labels, ',') + ['}'] + (" " + val) else name + " " + val;
  }

  lemma PrintSnoc(v: seq<Sample>, orders: seq<seq<string>>, n: nat)
    requires |v| == |orders| && n < |v|
    ensures Print(v[..n + 1], orders[..n + 1]) == Print(v[..n], orders[..n]) + (Line(v[n], orders[n]) + ['\n'])
  {
    assert v[..n + 1][..n] == v[..n] && orders[..n + 1][..n] == orders[..n];
  }

  method ParseLabelBlock(block: string) returns (result: map<string, string>)
    ensures result == ParseBlock(block)
  {
    result := map[];
    if block == "" {
      return;
    }
    var pairs := Split(block, ',');
    assert pairs[..0] == [] && pairs[..|pairs|] == pairs;
    for i := 0 to |pairs|
      invariant result == ParsePairs(pairs[..i])
    {
      assert pairs[..i + 1] == pairs[..i] + [pairs[i]];
      ParseOneMore(pairs[..i], pairs[i]);
      hide ParsePairs, Split, TrimSpace, TrimChar;
      var pair := TrimSpace(pairs[i]);
      var eq := Index(pair, '=');
      if eq.None? {
        continue;
      }
      result := result[pair[..eq.value] := TrimChar(pair[eq.value + 1..], '"')];
    }
  }

  method LabelsMatch(labelBlock: string, required: map<string, string>) returns (ok: bool)
    ensures ok <==> forall k :: k in required ==> Read(ParseBlock(labelBlock), k) == required[k]
  {
    var parsed := ParseLabelBlock(labelBlock);
    var keys := required.Keys;
    while keys != {}
      invariant keys <= required.Keys
      invariant forall k :: k in required && k !in keys ==> Read(parsed, k) == required[k]
    {
      var k :| k in keys;
      if (if k in parsed then parsed[k] else "") != required[k] {
        return false;
      }
      keys := keys - {k};
    }
    return true;
  }

  /** The value of the first matching line; labels == None is the nil map. */
  method ParseMetricValue(text: string, name: string, labels: Option<map<string, string>>, pf: ParseFloat)
    returns (r: LookupResult)
    ensures r == FirstMatch(Entries(text), name, labels.GetOr(map[]), pf)
  {
    var lines := Split(text, '\n');
    for i := 0 to |lines|
      invariant FirstMatch(EntriesOf(lines[..i]), name, labels.GetOr(map[]), pf).NotFound?
    {
      EntriesSnoc(lines, i);
      FirstMatchAppend(EntriesOf(lines[..i]), EntriesOf(lines[..i + 1])[|EntriesOf(lines[..i])|..], name,
        labels.GetOr(map[]), pf);
      var line := TrimSpace(lines[i]);
      if line == "" || line[0] == '#' {
        continue;
      }
      var parts := SplitMetricLine(line);
      if parts.None? {
        continue;
      }
      var (bare, block) := SplitNameAndLabels(parts.value.0);
      if bare != name {
        continue;
      }
      if labels.Some? {
        var ok := LabelsMatch(block, labels.value);
        if !ok {
          continue;
        }
      }
      var v := pf(parts.value.1);
      r := if v.None? then BadValue else Found(v.value);
      FirstMatchPrefix(lines, i + 1, name, labels.GetOr(map[]), pf);
      return;
    }
    assert lines[..|lines|] == lines;
    return NotFound;
  }

  lemma EntriesSnoc(lines: seq<string>, i: nat)
    requires i < |lines|
    ensures EntriesOf(lines[..i + 1]) ==
      EntriesOf(lines[..i]) + (var e := ParseLine(lines[i]); if e.None? then [] else [e.value])
  {
    assert lines[..i + 1][..i] == lines[..i];
  }

  lemma {:induction false} FirstMatchAppend(a: seq<Entry>, b: seq<Entry>, name: string, required: map<string, string>,
      pf: ParseFloat)
    ensures FirstMatch(a + b, name, required, pf) ==
      if FirstMatch(a, name, required, pf).NotFound? then FirstMatch(b, name, required, pf)
      else FirstMatch(a, name, required, pf)
  {
    if a == [] {
      assert a + b == b;
    } else {
      assert (a + b)[1..] == a[1..] + b;
      FirstMatchAppend(a[1..], b, name, required, pf);
    }
  }

  /** A match among the first i lines decides the lookup. */
  lemma {:induction false} FirstMatchPrefix(lines: seq<string>, i: nat, name: string, required: map<string, string>,
      pf: ParseFloat)
    requires i <= |lines| && !FirstMatch(EntriesOf(lines[..i]), name, required, pf).NotFound?
    ensures FirstMatch(EntriesOf(lines), name, required, pf) == FirstMatch(EntriesOf(lines[..i]), name, required, pf)
    decreases |lines| - i
  {
    if i == |lines| {
      assert lines[..i] == lines;
    } else {
      EntriesSnoc(lines, i);
      FirstMatchAppend(EntriesOf(lines[..i]), EntriesOf(lines[..i + 1])[|EntriesOf(lines[..i])|..], name, required, pf);
      FirstMatchPrefix(lines, i + 1, name, required, pf);
    }
  }
}
