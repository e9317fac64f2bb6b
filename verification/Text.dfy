/** The functions of Go's strings package that the repository uses, on sequences of characters. */
module Text {
  import opened Wrappers

  /** unicode.IsSpace. */
  predicate IsSpace(c: char) {
    || ('\t' <= c <= '\r') || c == ' ' || c == '\U{85}' || c == '\U{A0}' || c == '\U{1680}'
    || ('\U{2000}' <= c <= '\U{200A}') || c == '\U{2028}' || c == '\U{2029}' || c == '\U{202F}'
    || c == '\U{205F}' || c == '\U{3000}'
  }

  predicate NoSpace(s: string) {
    forall c :: c in s ==> !IsSpace(c)
  }

  /** strings.Index for a one-character needle. */
  function Index(s: string, c: char): (r: Option<nat>)
    ensures r.None? ==> c !in s
    ensures r.Some? ==> r.value < |s| && s[r.value] == c && c !in s[..r.value]
  {
    if s == "" then None
    else if s[0] == c then Some(0)
    else
      var r := Index(s[1..], c);
      if r.None? then None else
        assert s[..r.value + 1] == [s[0]] + s[1..][..r.value];
        Some(r.value + 1)
  }

  /** strings.TrimLeftFunc(s, unicode.IsSpace). */
  function TrimLeft(s: string): (r: string)
    ensures |r| <= |s|
  {
    if s != "" && IsSpace(s[0]) then TrimLeft(s[1..]) else s
  }

  function TrimRight(s: string): (r: string)
    ensures |r| <= |s|
  {
    if s != "" && IsSpace(s[|s| - 1]) then TrimRight(s[..|s| - 1]) else s
  }

  function TrimSpace(s: string): string {
    TrimRight(TrimLeft(s))
  }

  /** strings.Trim with a one-character cutset. */
  function TrimChar(s: string, c: char): (r: string)
    ensures r != "" ==> r[0] != c && r[|r| - 1] != c
    ensures |r| <= |s| && forall x :: x in r ==> x in s
    decreases |s|
  {
    if s != "" && s[0] == c then TrimChar(s[1..], c)
    else if s != "" && s[|s| - 1] == c then TrimChar(s[..|s| - 1], c)
    else s
  }

  function TrimSuffix(s: string, c: char): string {
    if s != "" && s[|s| - 1] == c then s[..|s| - 1] else s
  }

  /** strings.Split for a one-character separator. */
  function Split(s: string, c: char): (r: seq<string>)
    ensures |r| >= 1
    ensures forall i :: 0 <= i < |r| ==> c !in r[i] && forall x :: x in r[i] ==> x in s
    decreases |s|
  {
    var i := Index(s, c);
    if i.None? then [s] else [s[..i.value]] + Split(s[i.value + 1..], c)
  }

  function Join(parts: seq<string>, sep: char): string {
    if parts == [] then "" else if |parts| == 1 then parts[0] else parts[0] + [sep] + Join(parts[1..], sep)
  }

  /** Length of the longest prefix without white space. */
  function TokenLength(s: string): (n: nat)
    ensures n <= |s|
  {
    if s == "" || IsSpace(s[0]) then 0 else TokenLength(s[1..]) + 1
  }

  /** strings.Fields. */
  function Fields(s: string): seq<string>
    decreases |s|
  {
    TrimLeftFacts(s);
    var t := TrimLeft(s);
    if t == "" then [] else [t[..TokenLength(t)]] + Fields(t[TokenLength(t)..])
  }

  // ---------------------------------------------------------------- facts

  lemma {:induction false} TrimLeftFacts(s: string)
    ensures var r := TrimLeft(s);
      && r == s[|s| - |r|..]
      && (forall i :: 0 <= i < |s| - |r| ==> IsSpace(s[i]))
      && (r != "" ==> !IsSpace(r[0]))
  {
    if s != "" && IsSpace(s[0]) {
      TrimLeftFacts(s[1..]);
      assert forall i :: 0 < i < |s| ==> s[i] == s[1..][i - 1];
    }
  }

  lemma {:induction false} TrimRightFacts(s: string)
    ensures var r := TrimRight(s);
      && r == s[..|r|]
      && (forall i :: |r| <= i < |s| ==> IsSpace(s[i]))
      && (r != "" ==> !IsSpace(r[|r| - 1]))
  {
    if s != "" && IsSpace(s[|s| - 1]) {
      TrimRightFacts(s[..|s| - 1]);
      assert forall i :: 0 <= i < |s| - 1 ==> s[i] == s[..|s| - 1][i];
    }
  }

  lemma {:induction false} TokenFacts(s: string)
    ensures NoSpace(s[..TokenLength(s)])
    ensures TokenLength(s) < |s| ==> IsSpace(s[TokenLength(s)])
  {
    if s != "" && !IsSpace(s[0]) {
      TokenFacts(s[1..]);
      assert s[..TokenLength(s)] == [s[0]] + s[1..][..TokenLength(s[1..])];
    }
  }

  lemma {:induction false} IndexAfter(a: string, c: char, b: string)
    requires c !in a
    ensures Index(a + [c] + b, c) == Some(|a|)
  {
    if a != "" {
      assert (a + [c] + b)[1..] == a[1..] + [c] + b;
      IndexAfter(a[1..], c, b);
    }
  }

  lemma SplitAfter(a: string, c: char, b: string)
    requires c !in a
    ensures Split(a + [c] + b, c) == [a] + Split(b, c)
  {
    IndexAfter(a, c, b);
    var s := a + [c] + b;
    assert s[..|a|] == a && s[|a| + 1..] == b;
  }

  lemma SplitNone(a: string, c: char)
    requires c !in a
    ensures Split(a, c) == [a]
  {
  }

  lemma {:induction false} SplitJoin(parts: seq<string>, c: char)
    requires parts != [] && forall i :: 0 <= i < |parts| ==> c !in parts[i]
    ensures Split(Join(parts, c), c) == parts
  {
    if |parts| == 1 {
      SplitNone(parts[0], c);
    } else {
      SplitAfter(parts[0], c, Join(parts[1..], c));
      SplitJoin(parts[1..], c);
    }
  }

  lemma {:induction false} JoinAvoids(parts: seq<string>, sep: char, c: char)
    requires c != sep && forall i :: 0 <= i < |parts| ==> c !in parts[i]
    ensures c !in Join(parts, sep)
  {
    if |parts| > 1 {
      JoinAvoids(parts[1..], sep, c);
    }
  }

  /** Exactly the outer white space goes. */
  lemma {:induction false} TrimSpaceMeans(before: string, s: string, after: string)
    requires forall c :: c in before || c in after ==> IsSpace(c)
    requires s != "" ==> !IsSpace(s[0]) && !IsSpace(s[|s| - 1])
    ensures TrimSpace(before + s + after) == s
    decreases |before| + |after|
  {
    var all := before + s + after;
    if before != "" {
      assert all[1..] == before[1..] + s + after;
      TrimSpaceMeans(before[1..], s, after);
    } else if after != "" {
      var n := |after| - 1;
      assert all == s + after && all[..|all| - 1] == before + s + after[..n];
      TrimSpaceMeans(before, s, after[..n]);
      TrimLastSpace(s + after[..n], after[n]);
      assert s + after == (s + after[..n]) + [after[n]];
    } else {
      assert all == s;
      TrimSpaceId(s);
    }
  }

  lemma {:induction false} TrimLastSpace(s: string, c: char)
    requires IsSpace(c)
    ensures TrimSpace(s + [c]) == TrimSpace(s)
    decreases |s|
  {
    if s != "" && IsSpace(s[0]) {
      assert (s + [c])[1..] == s[1..] + [c];
      TrimLastSpace(s[1..], c);
    } else if s == "" {
      assert ([c])[1..] == "";
    } else {
      assert (s + [c])[..|s|] == s;
    }
  }

  lemma TrimSpaceId(s: string)
    requires s != "" ==> !IsSpace(s[0]) && !IsSpace(s[|s| - 1])
    ensures TrimSpace(s) == s
  {
  }

  lemma {:induction false} TokenLengthAt(a: string, b: string)
    requires NoSpace(a) && (b == "" || IsSpace(b[0]))
    ensures TokenLength(a + b) == |a|
  {
    if a == "" {
      assert a + b == b;
    } else {
      assert (a + b)[1..] == a[1..] + b;
      TokenLengthAt(a[1..], b);
    }
  }

  lemma FieldsOfToken(a: string)
    requires a != "" && NoSpace(a)
    ensures Fields(a) == [a]
  {
    TokenLengthAt(a, "");
    assert a + "" == a && TrimLeft(a) == a && a[..|a|] == a && a[|a|..] == "";
    assert Fields("") == [];
  }

  lemma FieldsAfterToken(a: string, b: string)
    requires a != "" && NoSpace(a) && (b == "" || IsSpace(b[0]))
    ensures Fields(a + b) == [a] + Fields(b)
  {
    TokenLengthAt(a, b);
    assert (a + b)[0] == a[0];
    assert TrimLeft(a + b) == a + b;
    assert (a + b)[..|a|] == a && (a + b)[|a|..] == b;
  }

  /** Every field is a non-empty run without white space. */
  lemma {:induction false} FieldsAreTokens(s: string, i: nat)
    requires i < |Fields(s)|
    ensures Fields(s)[i] != "" && NoSpace(Fields(s)[i]) && |Fields(s)[i]| <= |s|
    decreases |s|
  {
    var t := TrimLeft(s);
    TrimLeftFacts(s);
    if i == 0 {
      TokenFacts(t);
    } else {
      FieldsAreTokens(t[TokenLength(t)..], i - 1);
    }
  }

  lemma FieldsOfTwo(a: string, b: string)
    requires a != "" && NoSpace(a) && b != "" && NoSpace(b)
    ensures Fields(a + " " + b) == [a, b]
  {
    assert a + " " + b == a + (" " + b);
    FieldsAfterToken(a, " " + b);
    FieldsOfToken(b);
    FieldsSkipSpace(b);
  }

  lemma FieldsSkipSpace(b: string)
    ensures Fields(" " + b) == Fields(b)
  {
    assert (" " + b)[1..] == b;
  }

  lemma TrimQuoted(v: string, q: char)
    requires v != "" ==> v[0] != q && v[|v| - 1] != q
    ensures TrimChar([q] + v + [q], q) == v
  {
    var s := [q] + v + [q];
    assert s[1..] == v + [q];
    assert TrimChar(s, q) == TrimChar(v + [q], q);
    if v == "" {
      assert (v + [q])[1..] == "";
      assert TrimChar(v + [q], q) == TrimChar("", q);
    } else {
      assert (v + [q])[0] == v[0] && (v + [q])[..|v|] == v;
      assert TrimChar(v + [q], q) == TrimChar(v, q);
    }
  }
}
