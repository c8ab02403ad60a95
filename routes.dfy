/**
 * Request URLs as the base URL followed by '/'-separated path segments, and the
 * inverse reading: splitting a URL's path back into its segments.
 */
module Routes {
  import opened Wrappers
  import Config

  /** "/s0/s1/.../sn" for the segments s0 ... sn. */
  function Path(segments: seq<string>): string {
    if segments == [] then "" else "/" + segments[0] + Path(segments[1..])
  }

  /** The URL of the resource with the given path segments. */
  function Route(segments: seq<string>): string {
    Config.BaseUrl + Path(segments)
  }

  lemma PathOfTwo(a: string, b: string)
    ensures Path([a, b]) == "/" + a + "/" + b
  {
    assert Path([b]) == "/" + b;
  }

  lemma PathOfThree(a: string, b: string, c: string)
    ensures Path([a, b, c]) == "/" + a + "/" + b + "/" + c
  {
    PathOfTwo(b, c);
  }

  lemma PathOfFour(a: string, b: string, c: string, d: string)
    ensures Path([a, b, c, d]) == "/" + a + "/" + b + "/" + c + "/" + d
  {
    PathOfThree(b, c, d);
  }

  lemma PathOfFive(a: string, b: string, c: string, d: string, e: string)
    ensures Path([a, b, c, d, e]) == "/" + a + "/" + b + "/" + c + "/" + d + "/" + e
  {
    PathOfFour(b, c, d, e);
  }

  /** Splits a string at every '/'; there is always at least one piece. */
  function Split(s: string): (pieces: seq<string>)
    ensures |pieces| >= 1
  {
    if s == [] then [""]
    else
      var rest := Split(s[1..]);
      if s[0] == '/' then [""] + rest else [[s[0]] + rest[0]] + rest[1..]
  }

  /** No segment contains the separator. */
  predicate SlashFree(segments: seq<string>) {
    forall i :: 0 <= i < |segments| ==> '/' !in segments[i]
  }

  /** The path segments of a URL under the base URL, or None for a URL elsewhere. */
  function PathOf(url: string): Option<seq<string>> {
    if |Config.BaseUrl| < |url| && url[..|Config.BaseUrl| + 1] == Config.BaseUrl + "/" then
      Some(Split(url[|Config.BaseUrl| + 1..]))
    else None
  }

  /** A leading piece without '/' joins the first piece of what follows it. */
  lemma {:induction false} SplitPrefix(a: string, t: string)
    requires '/' !in a
    ensures Split(a + t) == [a + Split(t)[0]] + Split(t)[1..]
    decreases |a|
  {
    if a != [] {
      assert (a + t)[1..] == a[1..] + t;
      SplitPrefix(a[1..], t);
      assert [a[0]] + (a[1..] + Split(t)[0]) == a + Split(t)[0];
    } else {
      assert a + t == t;
      assert a + Split(t)[0] == Split(t)[0];
      assert [Split(t)[0]] + Split(t)[1..] == Split(t);
    }
  }

  /** Splitting "/s0/s1/.../sn" after its leading '/' recovers s0 ... sn. */
  lemma {:induction false} SplitPath(segments: seq<string>)
    requires |segments| >= 1 && SlashFree(segments)
    ensures Path(segments)[1..] == segments[0] + Path(segments[1..])
    ensures Split(Path(segments)[1..]) == segments
    decreases |segments|
  {
    var tail := segments[1..];
    assert Path(segments) == "/" + (segments[0] + Path(tail));
    assert '/' !in segments[0];
    if tail == [] {
      SplitPrefix(segments[0], "");
      assert segments[0] + "" == segments[0];
      assert Split(Path(segments)[1..]) == [segments[0]];
    } else {
      assert SlashFree(tail) by {
        forall i | 0 <= i < |tail| ensures '/' !in tail[i] {
          assert tail[i] == segments[i + 1];
        }
      }
      SplitPath(tail);
      var p := Path(tail);
      assert p == "/" + p[1..];
      SplitPrefix(segments[0], p);
      assert Split(p) == [""] + Split(p[1..]);
      assert Split(p)[0] == "" && Split(p)[1..] == tail;
      assert segments[0] + "" == segments[0];
      assert [segments[0]] + tail == segments;
    }
  }

  /** A route's URL reads back as exactly its segments when none of them contains '/'. */
  lemma ParseRoute(segments: seq<string>)
    requires |segments| >= 1 && SlashFree(segments)
    ensures PathOf(Route(segments)) == Some(segments)
  {
    var url := Route(segments);
    SplitPath(segments);
    assert Path(segments)[0] == '/';
    assert url[..|Config.BaseUrl| + 1] == Config.BaseUrl + "/";
    assert url[|Config.BaseUrl| + 1..] == Path(segments)[1..];
  }

  /** Two routes of '/'-free segments with the same URL have the same segments. */
  lemma RouteInjective(s1: seq<string>, s2: seq<string>)
    requires |s1| >= 1 && SlashFree(s1)
    requires |s2| >= 1 && SlashFree(s2)
    requires Route(s1) == Route(s2)
    ensures s1 == s2
  {
    ParseRoute(s1);
    ParseRoute(s2);
  }
}
