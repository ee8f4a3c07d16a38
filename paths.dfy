/**
 * Request paths: line 108 of ProfilingConnection resolves `"/" + String.join("/", path)`
 * against the service address, for the segment lists `["create"]`, `[id, key]` and
 * `[id, key, "timeline"]`.
 */
module Paths {
  import opened Sizes

  /** `String.join("/", segments)`: the segments with one "/" between neighbours. */
  function Join(segments: seq<string>): (r: string)
    ensures segments != [] ==> |r| == TotalSize(segments) + |segments| - 1
  {
    if segments == [] then ""
    else if |segments| == 1 then segments[0]
    else segments[0] + "/" + Join(segments[1..])
  }

  /** The absolute request path: a "/" and then the joined segments. */
  function RequestPath(segments: seq<string>): (r: string)
    ensures |r| >= 1 && r[0] == '/' && r[1..] == Join(segments)
    ensures segments != [] ==> |r| == TotalSize(segments) + |segments|
  {
    "/" + Join(segments)
  }

  /** The position of the first '/' in `s`, or `|s|` when there is none. */
  function IndexOfSlash(s: string): (i: nat)
    ensures i <= |s|
    ensures forall j :: 0 <= j < i ==> s[j] != '/'
    ensures i < |s| ==> s[i] == '/'
  {
    if s == [] || s[0] == '/' then 0 else 1 + IndexOfSlash(s[1..])
  }

  /** Cuts a string at every '/': the reading of a joined path back into its segments. */
  function Split(s: string): (r: seq<string>)
    ensures r != []
    decreases |s|
  {
    var i := IndexOfSlash(s);
    if i == |s| then [s] else [s[..i]] + Split(s[i + 1..])
  }

  /** A segment as the source builds them: it holds no '/'. */
  predicate IsSegment(s: string)
  {
    '/' !in s
  }

  /** Joining and splitting again gives back the segments, when none of them holds a '/'. */
  lemma {:induction false} SplitJoin(segments: seq<string>)
    requires segments != []
    requires forall k :: 0 <= k < |segments| ==> IsSegment(segments[k])
    ensures Split(Join(segments)) == segments
  {
    if |segments| > 1 {
      SplitAfterSegment(segments[0], Join(segments[1..]));
      SplitJoin(segments[1..]);
      assert [segments[0]] + segments[1..] == segments;
    }
  }

  /** A segment followed by '/' is split off whole, whatever comes after. */
  lemma SplitAfterSegment(s0: string, r: string)
    requires IsSegment(s0)
    ensures Split(s0 + "/" + r) == [s0] + Split(r)
  {
    var t := s0 + "/" + r;
    assert t[|s0|] == '/';
    assert forall j :: 0 <= j < |s0| ==> t[j] == s0[j];
    assert IndexOfSlash(t) == |s0|;
    assert t[..|s0|] == s0;
    assert t[|s0| + 1..] == r;
  }

  /** Splitting and joining again gives back any string. */
  lemma {:induction false} JoinSplit(s: string)
    ensures Join(Split(s)) == s
    decreases |s|
  {
    var i := IndexOfSlash(s);
    if i < |s| {
      JoinSplit(s[i + 1..]);
      assert s == s[..i] + "/" + s[i + 1..];
    }
  }

  /** The three paths the connection posts to. */
  lemma SessionPaths(id: string, key: string)
    ensures RequestPath(["create"]) == "/create"
    ensures RequestPath([id, key]) == "/" + id + "/" + key
    ensures RequestPath([id, key, "timeline"]) == "/" + id + "/" + key + "/timeline"
  {
    assert [id, key][1..] == [key];
    assert Join([id, key]) == id + "/" + key;
    assert "/" + (id + "/" + key) == "/" + id + "/" + key;
    assert [id, key, "timeline"][1..] == [key, "timeline"];
    assert [key, "timeline"][1..] == ["timeline"];
    assert Join([key, "timeline"]) == key + "/timeline";
  }

  /** Distinct sessions post to distinct paths, as long as id and key are proper segments. */
  lemma DataPathDeterminesSession(id: string, key: string, id': string, key': string)
    requires IsSegment(id) && IsSegment(key) && IsSegment(id') && IsSegment(key')
    requires RequestPath([id, key]) == RequestPath([id', key'])
    ensures id == id' && key == key'
  {
    var p, p' := RequestPath([id, key]), RequestPath([id', key']);
    assert p[1..] == Join([id, key]) && p'[1..] == Join([id', key']);
    SplitJoin([id, key]);
    SplitJoin([id', key']);
  }
}
