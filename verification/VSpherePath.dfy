/** Splitting, joining and rewriting vSphere inventory paths (pkg/framework/machine.go). */
module VSpherePath {
  import opened Text

  function NonEmpty(parts: seq<string>): seq<string> {
    if parts == [] then [] else
      NonEmpty(parts[..|parts| - 1]) + if parts[|parts| - 1] == "" then [] else [parts[|parts| - 1]]
  }

  /** splitVSpherePath: the non-empty components. */
  function SplitPath(p: string): seq<string> {
    NonEmpty(Split(p, '/'))
  }

  /** rewriteFolderDatacenter and rewriteTemplateDatacenter: the first component becomes newDC. */
  function Rewrite(path: string, newDC: string): string {
    var parts := SplitPath(path);
    "/" + Join(if |parts| >= 1 then parts[0 := newDC] else parts, '/')
  }

  // ---------------------------------------------------------------- the loops

  method SplitOn(s: string, sep: char) returns (result: seq<string>)
    ensures result == Split(s, sep)
  {
    hide Split, Index;
    result := [];
    var start := 0;
    for i := 0 to |s|
      invariant 0 <= start <= i
      invariant sep !in s[start..i]
      invariant Split(s, sep) == result + Split(s[start..], sep)
    {
      if s[i] == sep {
        SplitAt(s, sep, start, i);
        result := result + [s[start..i]];
        start := i + 1;
      }
    }
    assert s[start..|s|] == s[start..];
    SplitNone(s[start..], sep);
    result := result + [s[start..]];
  }

  lemma SplitAt(s: string, sep: char, start: nat, i: nat)
    requires start <= i < |s| && s[i] == sep && sep !in s[start..i]
    ensures Split(s[start..], sep) == [s[start..i]] + Split(s[i + 1..], sep)
  {
    assert s[start..] == s[start..i] + [sep] + s[i + 1..];
    hide Split, Index;
    SplitAfter(s[start..i], sep, s[i + 1..]);
  }

  method SplitVSpherePath(p: string) returns (parts: seq<string>)
    ensures parts == SplitPath(p)
  {
    parts := [];
    var all := SplitOn(p, '/');
    for i := 0 to |all|
      invariant parts == NonEmpty(all[..i])
    {
      assert all[..i + 1][..i] == all[..i];
      if all[i] != "" {
        parts := parts + [all[i]];
      }
    }
    assert all[..|all|] == all;
  }

  method JoinVSpherePath(parts: seq<string>) returns (result: string)
    ensures result == Join(parts, '/')
  {
    if |parts| == 0 {
      return "";
    }
    result := parts[0];
    for i := 1 to |parts|
      invariant result == Join(parts[..i], '/')
    {
      JoinSnoc(parts[..i], parts[i]);
      assert parts[..i + 1] == parts[..i] + [parts[i]];
      result := result + ("/" + parts[i]);
    }
    assert parts[..|parts|] == parts;
  }

  method RewriteDatacenter(path: string, newDC: string) returns (result: string)
    ensures result == Rewrite(path, newDC)
  {
    var parts := SplitVSpherePath(path);
    if |parts| >= 1 {
      parts := parts[0 := newDC];
    }
    var joined := JoinVSpherePath(parts);
    return "/" + joined;
  }

  // ---------------------------------------------------------------- splitting and joining

  lemma {:induction false} JoinSnoc(parts: seq<string>, x: string)
    requires parts != []
    ensures Join(parts + [x], '/') == Join(parts, '/') + ("/" + x)
  {
    if |parts| > 1 {
      assert (parts + [x])[1..] == parts[1..] + [x];
      JoinSnoc(parts[1..], x);
    }
  }

  /** Joining what splitting produced gives every string back. */
  lemma {:induction false} JoinOfSplit(s: string, sep: char)
    ensures Join(Split(s, sep), sep) == s
    decreases |s|
  {
    var i := Index(s, sep);
    if i.Some? {
      var rest := Split(s[i.value + 1..], sep);
      JoinOfSplit(s[i.value + 1..], sep);
      assert ([s[..i.value]] + rest)[1..] == rest;
      assert s == s[..i.value] + [sep] + s[i.value + 1..];
    }
  }

  /** Components as splitVSpherePath returns them. */
  predicate Components(parts: seq<string>) {
    forall i :: 0 <= i < |parts| ==> parts[i] != "" && '/' !in parts[i]
  }

  lemma {:induction false} NonEmptyFacts(parts: seq<string>)
    ensures forall x :: x in NonEmpty(parts) ==> x in parts && x != ""
    ensures (forall i :: 0 <= i < |parts| ==> parts[i] != "") ==> NonEmpty(parts) == parts
  {
    if parts != [] {
      NonEmptyFacts(parts[..|parts| - 1]);
      assert parts == parts[..|parts| - 1] + [parts[|parts| - 1]];
    }
  }

  lemma SplitPathIsComponents(p: string)
    ensures Components(SplitPath(p))
  {
    NonEmptyFacts(Split(p, '/'));
    assert forall i :: 0 <= i < |SplitPath(p)| ==> SplitPath(p)[i] in SplitPath(p);
  }

  /** Splitting inverts joining on exactly the lists of non-empty, slash-free components. */
  lemma SplitInvertsJoinIff(parts: seq<string>)
    ensures SplitPath(Join(parts, '/')) == parts <==> Components(parts)
  {
    SplitPathIsComponents(Join(parts, '/'));
    if Components(parts) && parts != [] {
      SplitJoin(parts, '/');
      NonEmptyFacts(parts);
    } else if parts == [] {
      SplitNone("", '/');
      assert NonEmpty([""]) == NonEmpty([""][..0]) + [] == [];
    }
  }

  lemma {:induction false} NonEmptyConcat(a: seq<string>, b: seq<string>)
    ensures NonEmpty(a + b) == NonEmpty(a) + NonEmpty(b)
  {
    if b == [] {
      assert a + b == a;
    } else {
      assert (a + b)[..|a + b| - 1] == a + b[..|b| - 1];
      NonEmptyConcat(a, b[..|b| - 1]);
    }
  }

  lemma {:induction false} SplitConcat(a: string, b: string)
    ensures Split(a + "/" + b, '/') == Split(a, '/') + Split(b, '/')
    decreases |a|
  {
    var i := Index(a, '/');
    if i.None? {
      SplitAfter(a, '/', b);
    } else {
      var head, tail := a[..i.value], a[i.value + 1..];
      assert a == head + ['/'] + tail;
      assert a + "/" + b == head + ['/'] + (tail + "/" + b);
      SplitAfter(head, '/', tail + "/" + b);
      SplitConcat(tail, b);
    }
  }

  lemma SplitPathConcat(a: string, b: string)
    ensures SplitPath(a + "/" + b) == SplitPath(a) + SplitPath(b)
  {
    SplitConcat(a, b);
    NonEmptyConcat(Split(a, '/'), Split(b, '/'));
  }

  // ---------------------------------------------------------------- rewriting

  lemma JoinHead(dc: string, rest: seq<string>)
    ensures Join([dc] + rest, '/') == if rest == [] then dc else dc + "/" + Join(rest, '/')
  {
    assert ([dc] + rest)[1..] == rest;
  }

  /** A datacenter in front of components, split again. */
  lemma SplitOfHead(dc: string, rest: seq<string>)
    requires Components(rest)
    ensures SplitPath("/" + Join([dc] + rest, '/')) == SplitPath(dc) + rest
  {
    hide Join, SplitPath, Components;
    var joined := Join([dc] + rest, '/');
    JoinHead(dc, rest);
    EmptyPath();
    SplitPathConcat("", joined);
    assert "" + "/" + joined == "/" + joined;
    SplitInvertsJoinIff(rest);
    if rest == [] {
      assert SplitPath(dc) + rest == SplitPath(dc);
    } else {
      SplitPathConcat(dc, Join(rest, '/'));
    }
  }

  lemma EmptyPath()
    ensures SplitPath("") == []
  {
    SplitNone("", '/');
    assert NonEmpty([""]) == NonEmpty([""][..0]) + [] == [];
  }

  /** A rewritten path, split again. */
  lemma SplitRewritten(path: string, dc: string)
    requires SplitPath(path) != []
    ensures Rewrite(path, dc) == "/" + Join([dc] + SplitPath(path)[1..], '/')
    ensures SplitPath(Rewrite(path, dc)) == SplitPath(dc) + SplitPath(path)[1..]
  {
    hide SplitPath, Join;
    var parts := SplitPath(path);
    SplitPathIsComponents(path);
    assert parts[0 := dc] == [dc] + parts[1..];
    SplitOfHead(dc, parts[1..]);
  }

  /** A path's first component is replaced, and the rest of the path stays. */
  lemma FirstComponentReplaced(first: string, rest: seq<string>, dc: string)
    requires first != "" && '/' !in first && Components(rest)
    ensures rest == [] ==> Rewrite("/" + first, dc) == "/" + dc
    ensures rest != [] ==> Rewrite("/" + (first + "/" + Join(rest, '/')), dc) == "/" + (dc + "/" + Join(rest, '/'))
  {
    hide Join, SplitPath, Rewrite, Components;
    OneComponent(first);
    SplitOfHead(first, rest);
    JoinHead(first, rest);
    JoinHead(dc, rest);
    SplitRewritten("/" + Join([first] + rest, '/'), dc);
    assert ([first] + rest)[1..] == rest;
  }

  lemma OneComponent(first: string)
    requires first != "" && '/' !in first
    ensures SplitPath(first) == [first]
  {
    SplitNone(first, '/');
    assert NonEmpty([first]) == NonEmpty([first][..0]) + [first];
  }

  lemma SameTail(b: string, xs: seq<string>, ys: seq<string>)
    requires Components(xs) && Components(ys) && Join([b] + xs, '/') == Join([b] + ys, '/')
    ensures xs == ys
  {
    assert ([b] + xs)[1..] == xs && ([b] + ys)[1..] == ys;
    var x, y := Join(xs, '/'), Join(ys, '/');
    if xs != [] && ys != [] {
      assert (b + ['/'] + x)[|b| + 1..] == x && (b + ['/'] + y)[|b| + 1..] == y;
    }
    SplitInvertsJoinIff(xs);
    SplitInvertsJoinIff(ys);
  }

  /**
   Rewriting to a and then to b is rewriting to b exactly when a is one component (or the
   path has none; or a has none either, the path is that component alone and b is empty).
   */
  lemma RewriteTwiceIff(path: string, a: string, b: string)
    ensures Rewrite(Rewrite(path, a), b) == Rewrite(path, b) <==>
      || SplitPath(path) == []
      || |SplitPath(a)| == 1
      || (SplitPath(a) == [] && |SplitPath(path)| == 1 && b == "")
  {
    var parts := SplitPath(path);
    if parts == [] {
      assert Rewrite(path, a) == "/" == Rewrite(path, b);
      OnlySlash();
    } else if SplitPath(a) + parts[1..] == [] {
      SplitRewritten(path, a);
      SplitRewritten(path, b);
      assert Rewrite(Rewrite(path, a), b) == "/";
      assert Rewrite(path, b) == "/" + b;
      assert |parts| == 1;
    } else {
      RewriteTwiceWithRest(path, a, b);
      assert |SplitPath(a)| == 0 ==> |parts| != 1;
    }
  }

  lemma OnlySlash()
    ensures SplitPath("/") == []
  {
    SplitPathConcat("", "");
    SplitInvertsJoinIff([]);
    assert "" + "/" + "" == "/";
  }

  lemma RewriteTwiceWithRest(path: string, a: string, b: string)
    requires SplitPath(path) != [] && SplitPath(a) + SplitPath(path)[1..] != []
    ensures Rewrite(Rewrite(path, a), b) == Rewrite(path, b) <==> |SplitPath(a)| == 1
  {
    hide SplitPath, Rewrite, Join;
    var rest, comps := SplitPath(path)[1..], SplitPath(a);
    var tail := (comps + rest)[1..];
    SplitRewritten(path, a);
    SplitRewritten(path, b);
    SplitRewritten(Rewrite(path, a), b);
    SplitPathIsComponents(path);
    SplitPathIsComponents(a);
    SlashCancels(Join([b] + tail, '/'), Join([b] + rest, '/'));
    if Join([b] + tail, '/') == Join([b] + rest, '/') {
      SameTail(b, tail, rest);
    }
    assert |comps| == 1 ==> tail == rest;
  }

  lemma SlashCancels(x: string, y: string)
    ensures "/" + x == "/" + y <==> x == y
  {
    assert ("/" + x)[1..] == x && ("/" + y)[1..] == y;
  }

  /** A path is a slash and its components joined exactly when splitting shows one empty part, in front. */
  lemma CanonicalIff(path: string)
    requires SplitPath(path) != []
    ensures path == "/" + Join(SplitPath(path), '/') <==> Split(path, '/') == [""] + SplitPath(path)
  {
    SplitPathIsComponents(path);
    JoinOfSplit(path, '/');
    var parts := SplitPath(path);
    hide Split, SplitPath;
    SplitAfter("", '/', Join(parts, '/'));
    assert "" + ['/'] + Join(parts, '/') == "/" + Join(parts, '/');
    SplitJoin(parts, '/');
    assert ([""] + parts)[1..] == parts;
  }

  /** Rewriting to a one-component datacenter and back restores exactly the canonical paths. */
  lemma {:induction false} RewriteBackIff(path: string, a: string)
    requires SplitPath(path) != [] && |SplitPath(a)| == 1
    ensures Rewrite(Rewrite(path, a), SplitPath(path)[0]) == path <==> Split(path, '/') == [""] + SplitPath(path)
  {
    var parts := SplitPath(path);
    assert parts[0 := parts[0]] == parts;
    hide Split, SplitPath;
    RewriteTwiceIff(path, a, parts[0]);
    CanonicalIff(path);
  }
}
