/** URL paths as the client writes them: segments joined with `/` and
    inserted verbatim, with no percent-encoding. */
module Paths {

  /** `"/" + s0 + "/" + s1 + ...`, what `'{0}/{1}/{2}'.format(base, s0, s1)`
      appends to `base`. */
  function Join(segments: seq<string>): (r: string)
    ensures |r| >= |segments|
    ensures segments != [] ==> r[0] == '/'
  {
    if segments == [] then "" else "/" + segments[0] + Join(segments[1..])
  }

  lemma JoinOne(a: string)
    ensures Join([a]) == "/" + a
  {
    assert [a][1..] == [];
  }

  lemma JoinTwo(a: string, b: string)
    ensures Join([a, b]) == "/" + a + "/" + b
  {
    assert [a, b][1..] == [b];
    JoinOne(b);
  }

  lemma JoinThree(a: string, b: string, c: string)
    ensures Join([a, b, c]) == "/" + a + "/" + b + "/" + c
  {
    assert [a, b, c][1..] == [b, c];
    JoinTwo(b, c);
  }

  /** The longest prefix of `s` without a slash. */
  function TakeSegment(s: string): (r: string)
    ensures |r| <= |s| && r == s[..|r|]
    ensures '/' !in r
    ensures |r| < |s| ==> s[|r|] == '/'
  {
    if s == "" || s[0] == '/' then "" else [s[0]] + TakeSegment(s[1..])
  }

  /** How a server splits a path into segments: the inverse of Join on
      segments that contain no slash. */
  function Split(path: string): (r: seq<string>)
    requires path == "" || path[0] == '/'
    ensures forall i :: 0 <= i < |r| ==> '/' !in r[i]
    decreases |path|
  {
    if path == "" then []
    else
      var segment := TakeSegment(path[1..]);
      [segment] + Split(path[1 + |segment|..])
  }

  predicate NoSlash(segments: seq<string>)
  {
    forall i :: 0 <= i < |segments| ==> '/' !in segments[i]
  }

  lemma {:induction false} TakeSegmentOf(s: string, rest: string)
    requires '/' !in s
    requires rest == "" || rest[0] == '/'
    ensures TakeSegment(s + rest) == s
    decreases |s|
  {
    if s != "" {
      assert (s + rest)[1..] == s[1..] + rest;
      TakeSegmentOf(s[1..], rest);
    } else {
      assert s + rest == rest;
    }
  }

  /** Segments without slashes can be read back from the joined path. */
  lemma {:induction false} SplitJoin(segments: seq<string>)
    requires NoSlash(segments)
    ensures Split(Join(segments)) == segments
    decreases |segments|
  {
    if segments != [] {
      var path := Join(segments);
      var tail := Join(segments[1..]);
      assert path[1..] == segments[0] + tail;
      TakeSegmentOf(segments[0], tail);
      assert path[1 + |segments[0]|..] == tail;
      SplitJoin(segments[1..]);
    }
  }

  /** Without slashes in the segments, different segment lists give
      different paths. */
  lemma JoinInjective(a: seq<string>, b: seq<string>)
    requires NoSlash(a) && NoSlash(b)
    requires Join(a) == Join(b)
    ensures a == b
  {
    SplitJoin(a);
    SplitJoin(b);
  }

  lemma {:induction false} JoinAppend(a: seq<string>, b: seq<string>)
    ensures Join(a + b) == Join(a) + Join(b)
    decreases |a|
  {
    if a != [] {
      assert (a + b)[1..] == a[1..] + b;
      JoinAppend(a[1..], b);
    } else {
      assert a + b == b;
    }
  }
}
