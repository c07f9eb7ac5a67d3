/** POSIX path strings: `os.path.join` for two parts, and the list of
    components a path names (the path split at every separator). */
module Paths {

  const Sep: char := '/'

  /** `os.path.join(a, b)` on a POSIX host: an absolute `b` replaces `a`;
      otherwise `b` is appended, with a separator unless `a` is empty or
      already ends in one. */
  function Join(a: string, b: string): (r: string)
    ensures |b| > 0 && b[0] == Sep ==> r == b
    ensures !(|b| > 0 && b[0] == Sep) ==>
      && |a| + |b| <= |r| <= |a| + |b| + 1
      && r[..|a|] == a && r[|r| - |b|..] == b
      && (|r| == |a| + |b| + 1 <==> a != [] && a[|a| - 1] != Sep)
      && (|r| == |a| + |b| + 1 ==> r[|a|] == Sep)
  {
    if |b| > 0 && b[0] == Sep then b
    else if a == [] || a[|a| - 1] == Sep then a + b
    else a + [Sep] + b
  }

  /** The components of a path: the pieces between separators, in order.
      `"a/b"` gives `["a", "b"]`, `"/a"` gives `["", "a"]`, `""` gives `[""]`. */
  function Split(s: string): (parts: seq<string>)
    ensures |parts| >= 1
    ensures forall i :: 0 <= i < |parts| ==> Sep !in parts[i]
    decreases |s|
  {
    if s == [] then [""]
    else if s[0] == Sep then [""] + Split(s[1..])
    else
      var rest := Split(s[1..]);
      [[s[0]] + rest[0]] + rest[1..]
  }

  /** The components a path contributes in front of a relative part joined
      onto it: none for the empty path, and a trailing separator adds none. */
  function Prefix(a: string): seq<string>
  {
    if a == [] then []
    else if a[|a| - 1] == Sep then Split(a[..|a| - 1])
    else Split(a)
  }

  /** Splitting at a separator splits the components there. */
  lemma {:induction false} SplitAround(a: string, b: string)
    ensures Split(a + [Sep] + b) == Split(a) + Split(b)
    decreases |a|
  {
    if a == [] {
      assert a + [Sep] + b == [Sep] + b;
      assert ([Sep] + b)[1..] == b;
    } else {
      var tail := a[1..];
      assert (a + [Sep] + b)[1..] == tail + [Sep] + b;
      assert (a + [Sep] + b)[0] == a[0];
      SplitAround(tail, b);
    }
  }

  /** A name without separators is a single component. */
  lemma {:induction false} SplitPlain(s: string)
    requires Sep !in s
    ensures Split(s) == [s]
    decreases |s|
  {
    if s != [] {
      SplitPlain(s[1..]);
      assert [s[0]] + s[1..] == s;
    }
  }

  /** Joining a separator-free name onto a path appends exactly that name to
      the path's components; the joined path starts with the original one. */
  lemma JoinComponents(a: string, b: string)
    requires b != [] && Sep !in b
    ensures Split(Join(a, b)) == Prefix(a) + [b]
    ensures |Join(a, b)| > |a| && Join(a, b)[..|a|] == a
    ensures Join(a, b)[|Join(a, b)| - |b|..] == b
  {
    SplitPlain(b);
    if a == [] {
      assert Join(a, b) == b;
    } else if a[|a| - 1] == Sep {
      var head := a[..|a| - 1];
      assert a == head + [Sep];
      assert Join(a, b) == head + [Sep] + b;
      SplitAround(head, b);
    } else {
      SplitAround(a, b);
    }
  }

  /** Joining two separator-free names in turn appends both to the path's
      components; the result begins with the original path. */
  lemma JoinTwice(a: string, b: string, c: string)
    requires b != [] && Sep !in b
    requires c != [] && Sep !in c
    ensures Split(Join(Join(a, b), c)) == Prefix(a) + [b, c]
    ensures Join(Join(a, b), c)[..|a|] == a
  {
    var ab := Join(a, b);
    JoinComponents(a, b);
    JoinComponents(ab, c);
    assert ab[|ab| - 1] == b[|b| - 1];
    assert Prefix(ab) == Split(ab);
    var r := Join(ab, c);
    assert r[..|a|] == r[..|ab|][..|a|];
  }
}
