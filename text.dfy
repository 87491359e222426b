/** The string and path operations of Python that the scraper relies on:
    `str.rfind`, `str.split(c)[0]`, `str.split(c)[-1]`, `str.join`, and
    `os.path.split`, `os.path.splitext`, `os.path.join` for POSIX paths.
    Paths are plain strings: no normalisation of "//", "." or "..". */
module Text {

  /** `s.rfind(c)`: the index of the last `c` in `s`, or -1 when there is none. */
  function RFind(s: string, c: char): (r: int)
    ensures -1 <= r < |s|
    ensures r >= 0 ==> s[r] == c
    ensures forall k :: r < k < |s| ==> s[k] != c
    decreases |s|
  {
    if s == [] then -1
    else if s[|s| - 1] == c then |s| - 1
    else RFind(s[..|s| - 1], c)
  }

  /** `s.split(c)[0]`: everything before the first `c`. */
  function BeforeFirst(s: string, c: char): (r: string)
    ensures r <= s
    ensures c !in r
    ensures |r| == |s| || s[|r|] == c
    decreases |s|
  {
    if s == [] || s[0] == c then [] else [s[0]] + BeforeFirst(s[1..], c)
  }

  /** `s.split(c)[-1]`: everything after the last `c`. */
  function AfterLast(s: string, c: char): (r: string)
    ensures |r| <= |s| && r == s[|s| - |r|..]
    ensures c !in r
    ensures |r| == |s| || s[|s| - |r| - 1] == c
  {
    s[RFind(s, c) + 1..]
  }

  predicate AllSlashes(s: string) {
    forall k :: 0 <= k < |s| ==> s[k] == '/'
  }

  /** A path made only of slashes names the root directory. */
  predicate IsRoot(p: string) {
    p != "" && AllSlashes(p)
  }

  /** `s.rstrip('/')`. */
  function StripTrailingSlashes(s: string): (r: string)
    ensures r <= s
    ensures r == "" || r[|r| - 1] != '/'
    ensures forall k :: |r| <= k < |s| ==> s[k] == '/'
    decreases |s|
  {
    if s == [] || s[|s| - 1] != '/' then s else StripTrailingSlashes(s[..|s| - 1])
  }

  /** `os.path.split(p)[0]`: the directory part of a path, trailing slashes
      removed unless it is the root. `HeadAfter` gives it for a prefix
      ending in '/' followed by a name without one. */
  function Head(p: string): (r: string)
    ensures r <= p
    ensures '/' !in p ==> r == ""
    ensures '/' in p ==> r != ""
    ensures AfterLast(p, '/') != "" ==> |r| < |p|
  {
    var head := p[..RFind(p, '/') + 1];
    if head != "" && !AllSlashes(head) then StripTrailingSlashes(head) else head
  }

  /** The directory `a` names, as `os.path.split` reports it for a file
      inside it: trailing slashes removed unless it is the root. */
  function DirOf(a: string): string {
    if a == "" || IsRoot(a) then a else StripTrailingSlashes(a)
  }

  /** `os.path.splitext(p)`: the extension starts at the last '.' of the final
      path component, unless only dots precede it in that component. */
  function SplitExt(p: string): (r: (string, string))
    ensures r.0 + r.1 == p
    ensures r.1 != "" ==> r.1[0] == '.' && '.' !in r.1[1..] && '/' !in r.1
    ensures r.1 != "" ==> exists k :: RFind(p, '/') < k < |r.0| && p[k] != '.'
    ensures r.1 == "" ==> forall k, d :: RFind(p, '/') < k < d < |p| && p[k] != '.' ==> p[d] != '.'
  {
    var sep := RFind(p, '/');
    var dot := RFind(p, '.');
    if sep < dot && exists k :: sep < k < dot && p[k] != '.' then (p[..dot], p[dot..]) else (p, "")
  }

  /** `sep.join(parts)`. */
  function JoinWith(parts: seq<string>, sep: string): string
    decreases |parts|
  {
    if parts == [] then ""
    else if |parts| == 1 then parts[0]
    else JoinWith(parts[..|parts| - 1], sep) + sep + parts[|parts| - 1]
  }

  /** `os.path.join(a, b)`: an absolute `b` replaces `a`; otherwise one '/'
      separates them unless `a` is empty or already ends with one.
      `HeadOfJoined` states that `Head` of `a` joined with a plain name
      is `DirOf(a)`. */
  function PathJoin(a: string, b: string): (r: string)
    ensures |b| <= |r| && r[|r| - |b|..] == b
    ensures b != "" && b[0] == '/' ==> r == b
    ensures b != "" && '/' !in b ==> AfterLast(r, '/') == b
    ensures b == "" || b[0] != '/' ==> a <= r
  {
    if b != "" && b[0] == '/' then b
    else if a == "" || a[|a| - 1] == '/' then
      AfterLastOfJoined(a, b); a + b
    else
      AfterLastOfJoined(a + "/", b); a + "/" + b
  }

  /** The directory part of a directory prefix followed by a bare name is
      that prefix, as `os.path.split` reports it. */
  lemma HeadOfJoined(a: string, b: string)
    requires b != "" && '/' !in b
    ensures Head(PathJoin(a, b)) == DirOf(a)
  {
    if a == "" || a[|a| - 1] == '/' {
      assert PathJoin(a, b) == a + b;
      HeadAfter(a, b);
    } else {
      assert PathJoin(a, b) == a + "/" + b;
      HeadAfter(a + "/", b);
      assert !AllSlashes(a + "/") by { assert (a + "/")[|a| - 1] == a[|a| - 1]; }
      assert !IsRoot(a) by { assert a[|a| - 1] != '/'; }
      StripSlashed(a);
    }
  }

  /** One more trailing slash is stripped like the others. */
  lemma StripSlashed(a: string)
    ensures StripTrailingSlashes(a + "/") == StripTrailingSlashes(a)
  {
    assert (a + "/")[..|a|] == a;
  }

  /** `Head` of `x + b` where `x` ends with '/' and `b` has none. */
  lemma HeadAfter(x: string, b: string)
    requires x == "" || x[|x| - 1] == '/'
    requires '/' !in b
    ensures Head(x + b) == if x == "" || AllSlashes(x) then x else StripTrailingSlashes(x)
  {
    AfterLastOfJoined(x, b);
    assert (x + b)[..|x|] == x;
  }

  /** Appending a component without '/' to a directory prefix makes that
      component the last one. */
  lemma AfterLastOfJoined(x: string, b: string)
    requires x == "" || x[|x| - 1] == '/'
    ensures '/' !in b ==> AfterLast(x + b, '/') == b
    ensures '/' !in b ==> RFind(x + b, '/') == |x| - 1
  {
    if '/' in b { return; }
    var s := x + b;
    var r := RFind(s, '/');
    forall k | |x| <= k < |s| ensures s[k] != '/' {
      assert s[k] == b[k - |x|];
    }
    if x != "" {
      assert s[|x| - 1] == '/';
    }
    assert r == |x| - 1;
    assert s[r + 1..] == b;
  }

  /** Python's `t in s` for strings. */
  predicate IsSubstring(t: string, s: string)
    decreases |s|
  {
    t <= s || (s != [] && IsSubstring(t, s[1..]))
  }
}
