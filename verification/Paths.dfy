/** File paths of a revision: which sets of them are accepted, by the two checks that
    must agree, one on path components and one on the text. */
module Paths {
  import opened Strings

  function Split(path: string): seq<string> {
    var i := FirstIndex(path, '/');
    if i == |path| then [path] else [path[..i]] + Split(path[i + 1..])
  }

  function JoinPath(components: seq<string>): string { Join(components, "/") }

  predicate SlashFree(component: string) {
    forall i :: 0 <= i < |component| ==> component[i] != '/'
  }

  lemma {:induction false} SplitGives(path: string)
    ensures |Split(path)| >= 1
    ensures forall k :: 0 <= k < |Split(path)| ==> SlashFree(Split(path)[k])
    ensures JoinPath(Split(path)) == path
  {
    var i := FirstIndex(path, '/');
    if i < |path| {
      SplitGives(path[i + 1..]);
      assert Split(path)[1..] == Split(path[i + 1..]);
      assert path == path[..i] + "/" + path[i + 1..];
    }
  }

  lemma {:induction false} SplitFirst(component: string, rest: string)
    requires SlashFree(component)
    ensures Split(component + "/" + rest) == [component] + Split(rest)
  {
    var s := component + "/" + rest;
    IndexIs(s, '/', |component|);
    assert s[..|component|] == component && s[|component| + 1..] == rest;
  }

  lemma {:induction false} SplitJoined(a: string, b: string)
    ensures Split(a + "/" + b) == Split(a) + Split(b)
    decreases |a|
  {
    var i := FirstIndex(a, '/');
    if i == |a| {
      SplitFirst(a, b);
    } else {
      var first, rest := a[..i], a[i + 1..];
      SplitJoined(rest, b);
      SplitFirst(first, rest + "/" + b);
      CutAndRejoin(a, b, i);
      assert [first] + (Split(rest) + Split(b)) == [first] + Split(rest) + Split(b);
    }
  }

  lemma {:induction false} CutAndRejoin(a: string, b: string, i: nat)
    requires i < |a| && a[i] == '/'
    ensures a + "/" + b == a[..i] + "/" + (a[i + 1..] + "/" + b)
  {
    assert a == a[..i] + "/" + a[i + 1..];
  }

  lemma {:induction false} SplitOfJoin(components: seq<string>)
    requires components != [] && forall k :: 0 <= k < |components| ==> SlashFree(components[k])
    ensures Split(JoinPath(components)) == components
  {
    SplitPlain(components[0]);
    if |components| > 1 {
      SplitOfJoin(components[1..]);
      SplitJoined(components[0], JoinPath(components[1..]));
    }
  }

  lemma {:induction false} SplitPlain(component: string)
    requires SlashFree(component)
    ensures Split(component) == [component]
  {
  }

  lemma {:induction false} JoinSplitsAt(components: seq<string>, i: nat)
    requires 1 <= i < |components|
    ensures JoinPath(components) == JoinPath(components[..i]) + "/" + JoinPath(components[i..])
  {
    if i == 1 {
      assert components[..1] == [components[0]];
    } else {
      JoinSplitsAt(components[1..], i - 1);
      assert components[1..][..i - 1] == components[..i][1..] && components[1..][i - 1..] == components[i..];
      assert JoinPath(components[..i]) == components[0] + "/" + JoinPath(components[..i][1..]);
      assert components[0] + "/" + (JoinPath(components[..i][1..]) + "/" + JoinPath(components[i..]))
          == components[0] + "/" + JoinPath(components[..i][1..]) + "/" + JoinPath(components[i..]);
    }
  }

  // ---- the two collision tests ----

  /** p is what some proper beginning of q's components spells. */
  predicate IsAncestor(p: string, q: string) {
    exists i :: 1 <= i < |Split(q)| && JoinPath(Split(q)[..i]) == p
  }

  /** q begins with p and a slash. */
  predicate StartsBelow(p: string, q: string) { p + "/" <= q }

  /** The test on components and the test on the text agree on all strings. */
  lemma {:induction false} TestsAgree(p: string, q: string)
    ensures IsAncestor(p, q) <==> StartsBelow(p, q)
  {
    SplitGives(p);
    SplitGives(q);
    if IsAncestor(p, q) {
      var i :| 1 <= i < |Split(q)| && JoinPath(Split(q)[..i]) == p;
      JoinSplitsAt(Split(q), i);
      assert q == (p + "/") + JoinPath(Split(q)[i..]);
    }
    if StartsBelow(p, q) {
      var rest := q[|p| + 1..];
      assert q == p + "/" + rest;
      SplitJoined(p, rest);
      SplitGives(rest);
      assert Split(q)[..|Split(p)|] == Split(p);
    }
  }

  // ---- the workspace check ----

  predicate IsPathChar(c: char) {
    'A' <= c <= 'Z' || 'a' <= c <= 'z' || '0' <= c <= '9' || c == '.' || c == '_' || c == '-'
  }

  /** ".git" in any case. */
  predicate IsGitName(c: string) {
    |c| == 4 && c[0] == '.' && c[1] in {'g', 'G'} && c[2] in {'i', 'I'} && c[3] in {'t', 'T'}
  }

  predicate ValidComponent(c: string) {
    c != "" && (forall i :: 0 <= i < |c| ==> IsPathChar(c[i])) && c != "." && c != ".." && !IsGitName(c)
  }

  predicate ValidPath(path: string) {
    |path| <= 240 && forall k :: 0 <= k < |Split(path)| ==> ValidComponent(Split(path)[k])
  }

  predicate Accepted(paths: set<string>) {
    && (forall p :: p in paths ==> ValidPath(p))
    && forall q, p :: q in paths && p in paths ==> !IsAncestor(p, q)
  }

  /** The nested loops with their early exits. */
  method ValidateFilePaths(paths: seq<string>) returns (ok: bool)
    ensures ok <==> Accepted(set p | p in paths)
  {
    var all := set p | p in paths;
    for n := 0 to |paths|
      invariant forall i :: 0 <= i < n ==> ValidPath(paths[i])
      invariant forall i, p :: 0 <= i < n && p in all ==> !IsAncestor(p, paths[i])
    {
      if !ValidPath(paths[n]) { assert paths[n] in all; return false; }
      var components := Split(paths[n]);
      for index := 1 to |components|
        invariant forall i :: 1 <= i < index ==> JoinPath(components[..i]) !in all
      {
        if JoinPath(components[..index]) in all {
          assert paths[n] in all && IsAncestor(JoinPath(components[..index]), paths[n]);
          return false;
        }
      }
    }
    return true;
  }

  // ---- the command contract ----

  /** What the contract finds wrong with one file, in the order of its messages. */
  datatype Finding = NotUnique(index: nat) | GitComponent(index: nat) | Collision(index: nat)

  predicate HasGitComponent(path: string) {
    exists k :: 0 <= k < |Split(path)| && IsGitName(Split(path)[k])
  }

  ghost predicate CollidesBefore(files: seq<string>, j: nat)
    requires j < |files|
  {
    exists i :: 0 <= i < j && (StartsBelow(files[i], files[j]) || StartsBelow(files[j], files[i]))
  }

  function FindingsOf(seen: set<string>, path: string, index: nat): seq<Finding> {
    (if path in seen then [NotUnique(index)] else [])
    + (if HasGitComponent(path) then [GitComponent(index)] else [])
    + (if exists p :: p in seen && (StartsBelow(path, p) || StartsBelow(p, path)) then [Collision(index)] else [])
  }

  /** The loop that grows the set of seen paths and the list of messages. */
  method RevisionCommandErrors(files: seq<string>) returns (findings: seq<Finding>)
    ensures findings == [] <==>
              && (forall i, j :: 0 <= i < j < |files| ==> files[i] != files[j])
              && (forall j :: 0 <= j < |files| ==> !HasGitComponent(files[j]))
              && (forall j :: 0 <= j < |files| ==> !CollidesBefore(files, j))
  {
    var seen: set<string> := {};
    findings := [];
    for j := 0 to |files|
      invariant forall p :: p in seen <==> exists i :: 0 <= i < j && files[i] == p
      invariant findings == [] <==>
                  && (forall i, k :: 0 <= i < k < j ==> files[i] != files[k])
                  && (forall k :: 0 <= k < j ==> !HasGitComponent(files[k]))
                  && (forall k :: 0 <= k < j ==> !CollidesBefore(files, k))
    {
      FindingsAre(files, j, seen);
      findings := findings + FindingsOf(seen, files[j], j);
      seen := seen + {files[j]};
    }
  }

  lemma {:induction false} FindingsAre(files: seq<string>, j: nat, seen: set<string>)
    requires j < |files| && forall p :: p in seen <==> exists i :: 0 <= i < j && files[i] == p
    ensures FindingsOf(seen, files[j], j) == [] <==>
              && (forall i :: 0 <= i < j ==> files[i] != files[j])
              && !HasGitComponent(files[j]) && !CollidesBefore(files, j)
  {
    forall i | 0 <= i < j ensures files[i] in seen { }
  }

  /** Files that are valid one by one: the workspace accepts their set and they are
      distinct exactly when the contract finds nothing. */
  lemma {:induction false} ChecksAgree(files: seq<string>)
    requires forall i :: 0 <= i < |files| ==> ValidPath(files[i])
    ensures (Accepted(set p | p in files) && forall i, j :: 0 <= i < j < |files| ==> files[i] != files[j])
            <==>
            (&& (forall i, j :: 0 <= i < j < |files| ==> files[i] != files[j])
             && (forall j :: 0 <= j < |files| ==> !HasGitComponent(files[j]))
             && (forall j :: 0 <= j < |files| ==> !CollidesBefore(files, j)))
  {
    var all := set p | p in files;
    forall i, j | 0 <= i < |files| && 0 <= j < |files|
      ensures IsAncestor(files[i], files[j]) <==> StartsBelow(files[i], files[j])
    {
      TestsAgree(files[i], files[j]);
    }
    if forall j :: 0 <= j < |files| ==> !CollidesBefore(files, j) {
      forall p, q | p in all && q in all ensures !IsAncestor(p, q) {
        var i :| 0 <= i < |files| && files[i] == p;
        var j :| 0 <= j < |files| && files[j] == q;
        assert !CollidesBefore(files, if i < j then j else i);
        if i == j { NotBelowItself(p); }
      }
    }
    if Accepted(all) {
      forall j | 0 <= j < |files| ensures !CollidesBefore(files, j) {
        forall i | 0 <= i < j ensures !StartsBelow(files[i], files[j]) && !StartsBelow(files[j], files[i]) {
          assert files[i] in all && files[j] in all;
        }
      }
    }
  }

  lemma {:induction false} NotBelowItself(p: string)
    ensures !IsAncestor(p, p)
  {
    TestsAgree(p, p);
    assert |p + "/"| > |p|;
  }
}
