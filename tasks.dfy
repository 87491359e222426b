/** The task functions of the command-line layer: fetching an author's or a
    tag's posts together with the comments of each post, and downloading the
    pictures listed in a saved data sheet. */
module Tasks {
  import opened Py
  import opened Text
  import opened Json
  import opened Parsers
  import opened Queries
  import opened Downloads

  // ------------------------------------------------------------ configuration

  /** The query hashes and proxy settings the tasks read from the common
      configuration. */
  datatype Config = Config(postsHash: string, commentsHash: string, tagPostsHash: string,
                           httpProxy: Option<string>, httpsProxy: Option<string>)

  /** Query variables: 50 records per page, for one author, one tag or one post. */
  function AuthorVariables(authorId: Json): Vars {
    map["id" := authorId, "first" := Int(50)]
  }

  function TagVariables(tagName: Json): Vars {
    map["tag_name" := tagName, "first" := Int(50)]
  }

  function CommentVariables(shortCode: Json): Vars {
    map["shortcode" := shortCode, "first" := Int(50)]
  }

  /** The comment cap of the tag task; the author task passes None (no cap). */
  const TagCommentCap := 100

  // --------------------------------------------------------- tagging comments

  /** The comments of one post, each with `post_short_code` set to the post's
      short code and every other field as it was. */
  function Tagged(comments: seq<Record>, code: Json): (r: seq<Record>)
    ensures |r| == |comments|
    ensures forall i :: 0 <= i < |r| ==> r[i].Keys == comments[i].Keys + {"post_short_code"}
    ensures forall i :: 0 <= i < |r| ==> r[i]["post_short_code"] == code
    ensures forall i, key :: 0 <= i < |r| && key in comments[i] && key != "post_short_code" ==>
              r[i][key] == comments[i][key]
  {
    seq(|comments|, i requires 0 <= i < |comments| => comments[i]["post_short_code" := code])
  }

  /** The loop that sets `comment['post_short_code']` on each comment. */
  method TagComments(comments: seq<Record>, code: Json) returns (tagged: seq<Record>)
    ensures tagged == Tagged(comments, code)
  {
    tagged := [];
    for i := 0 to |comments|
      invariant tagged == Tagged(comments[..i], code)
    {
      tagged := tagged + [comments[i]["post_short_code" := code]];
    }
    assert comments[..|comments|] == comments;
  }

  // ------------------------------------------------------- collecting comments

  /** Why a task ended early: a query raised, or a post had no short code. */
  datatype TaskError = QueryFailed(error: QueryError) | MissingShortCode

  /** The comment stage's result and the number of GETs its session served. */
  datatype Gathered = Gathered(result: Result<seq<Record>, TaskError>, served: nat)

  /** `acc` followed by the records of `rest`, or the failure of `rest`. */
  function Prepend(acc: seq<Record>, rest: Result<seq<Record>, TaskError>): Result<seq<Record>, TaskError> {
    if rest.Success? then Success(acc + rest.value) else rest
  }

  /** The comment stage run from GET `k` of the comment session: for each
      post in order, all its comments (up to the run's cap), tagged with the
      post's short code; the first failure ends the stage. */
  function CollectFrom(run: Run, k: nat, posts: seq<Record>): Gathered
    decreases |posts|
  {
    if posts == [] then Gathered(Success([]), k)
    else if "short_code" !in posts[0] then Gathered(Failure(MissingShortCode), k)
    else
      var code := posts[0]["short_code"];
      var o := QueryAllFrom(run, k, CommentVariables(code));
      if o.result.Failure? then Gathered(Failure(QueryFailed(o.result.error)), o.served)
      else
        var rest := CollectFrom(run, o.served, posts[1..]);
        Gathered(Prepend(Tagged(o.result.value, code), rest.result), rest.served)
  }

  /** The comment stage over one post: that post's comments, fetched by
      one `query_all` run and tagged with its short code, or the reason it
      failed. */
  lemma CollectOne(run: Run, k: nat, post: Record)
    ensures CollectFrom(run, k, [post]) ==
              if "short_code" !in post then Gathered(Failure(MissingShortCode), k)
              else
                var o := QueryAllFrom(run, k, CommentVariables(post["short_code"]));
                if o.result.Failure? then Gathered(Failure(QueryFailed(o.result.error)), o.served)
                else Gathered(Success(Tagged(o.result.value, post["short_code"])), o.served)
  {
    assert [post][1..] == [];
    if "short_code" in post {
      var code := post["short_code"];
      var o := QueryAllFrom(run, k, CommentVariables(code));
      if o.result.Success? {
        assert Tagged(o.result.value, code) + [] == Tagged(o.result.value, code);
      }
    }
  }

  /** The comment stage over two runs of posts is the stage over the first
      followed, from the GET where it stopped, by the stage over the second:
      the comments of the first run, then those of the second, or the first
      failure. */
  lemma {:induction false} CollectAppend(run: Run, k: nat, a: seq<Record>, b: seq<Record>)
    ensures CollectFrom(run, k, a + b) ==
              var ga := CollectFrom(run, k, a);
              if ga.result.Failure? then ga
              else
                var gb := CollectFrom(run, ga.served, b);
                Gathered(Prepend(ga.result.value, gb.result), gb.served)
    decreases |a|
  {
    if a == [] {
      assert a + b == b;
      var gb := CollectFrom(run, k, b);
      if gb.result.Success? { assert [] + gb.result.value == gb.result.value; }
    } else {
      assert (a + b)[0] == a[0];
      assert (a + b)[1..] == a[1..] + b;
      if "short_code" in a[0] {
        var code := a[0]["short_code"];
        var o := QueryAllFrom(run, k, CommentVariables(code));
        if o.result.Success? {
          CollectAppend(run, o.served, a[1..], b);
          var ga' := CollectFrom(run, o.served, a[1..]);
          if ga'.result.Success? {
            var gb := CollectFrom(run, ga'.served, b);
            var t := Tagged(o.result.value, code);
            if gb.result.Success? {
              assert t + (ga'.result.value + gb.result.value) == (t + ga'.result.value) + gb.result.value;
            }
          }
        }
      }
    }
  }

  /** Post `j`'s stretch of a successful comment stage is exactly the
      comments one `query_all` run fetched for it, from the GET where the
      earlier posts left off, each tagged with its short code. */
  lemma CollectStretch(run: Run, k: nat, posts: seq<Record>, j: nat)
    requires CollectFrom(run, k, posts).result.Success?
    requires j < |posts|
    ensures var pre := CollectFrom(run, k, posts[..j]);
            && pre.result.Success?
            && "short_code" in posts[j]
            && var o := QueryAllFrom(run, pre.served, CommentVariables(posts[j]["short_code"]));
               && o.result.Success?
               && var all := CollectFrom(run, k, posts).result.value;
                  var start := |pre.result.value|;
                  && start + |o.result.value| <= |all|
                  && all[..start] == pre.result.value
                  && all[start..start + |o.result.value|] == Tagged(o.result.value, posts[j]["short_code"])
  {
    var pre := CollectFrom(run, k, posts[..j]);
    var mid := CollectFrom(run, pre.served, posts[j..]);
    var all := CollectFrom(run, k, posts).result.value;
    assert pre.result.Success? && mid.result.Success? && all == pre.result.value + mid.result.value by {
      assert posts == posts[..j] + posts[j..];
      CollectAppend(run, k, posts[..j], posts[j..]);
    }
    var o := QueryAllFrom(run, pre.served, CommentVariables(posts[j]["short_code"]));
    var rest := CollectFrom(run, o.served, posts[j + 1..]);
    assert "short_code" in posts[j] && o.result.Success? &&
           mid.result.value == Tagged(o.result.value, posts[j]["short_code"]) + rest.result.value by {
      assert posts[j..] == [posts[j]] + posts[j + 1..];
      CollectAppend(run, pre.served, [posts[j]], posts[j + 1..]);
      CollectOne(run, pre.served, posts[j]);
    }
    Stretch(pre.result.value, Tagged(o.result.value, posts[j]["short_code"]), rest.result.value);
  }

  /** The middle part of a concatenation, sliced back out. */
  lemma Stretch<T>(p: seq<T>, t: seq<T>, r: seq<T>)
    ensures |p| + |t| <= |p + (t + r)|
    ensures (p + (t + r))[..|p|] == p
    ensures (p + (t + r))[|p|..|p| + |t|] == t
  {
  }

  /** Every collected comment carries the short code of one of the posts,
      and the stage succeeds only when every post has a short code. */
  lemma {:induction false} CollectedTagged(run: Run, k: nat, posts: seq<Record>)
    ensures var g := CollectFrom(run, k, posts);
            g.result.Success? ==>
              && (forall j :: 0 <= j < |posts| ==> "short_code" in posts[j])
              && (forall i :: 0 <= i < |g.result.value| ==>
                    && "post_short_code" in g.result.value[i]
                    && exists j :: 0 <= j < |posts| && g.result.value[i]["post_short_code"] == posts[j]["short_code"])
    decreases |posts|
  {
    var g := CollectFrom(run, k, posts);
    if posts != [] && "short_code" in posts[0] && g.result.Success? {
      var code := posts[0]["short_code"];
      var o := QueryAllFrom(run, k, CommentVariables(code));
      var rest := CollectFrom(run, o.served, posts[1..]);
      CollectedTagged(run, o.served, posts[1..]);
      var head := Tagged(o.result.value, code);
      assert g.result.value == head + rest.result.value;
      forall j | 0 <= j < |posts| ensures "short_code" in posts[j] {
        if j > 0 { assert posts[j] == posts[1..][j - 1]; }
      }
      forall i | 0 <= i < |g.result.value|
        ensures "post_short_code" in g.result.value[i]
        ensures exists j :: 0 <= j < |posts| && g.result.value[i]["post_short_code"] == posts[j]["short_code"]
      {
        if i < |head| {
          assert g.result.value[i] == head[i];
          assert g.result.value[i]["post_short_code"] == posts[0]["short_code"];
        } else {
          assert g.result.value[i] == rest.result.value[i - |head|];
          var j :| 0 <= j < |posts[1..]| && rest.result.value[i - |head|]["post_short_code"] == posts[1..][j]["short_code"];
          assert posts[1..][j] == posts[j + 1];
        }
      }
    }
  }

  /** The comment stage `g` failed at post `n`: the posts before it went
      through, and post `n` has no short code, or its comment query raised
      and that error ends the stage. */
  predicate FailsAt(run: Run, k: nat, posts: seq<Record>, n: nat, g: Gathered)
    requires n < |posts|
  {
    var pre := CollectFrom(run, k, posts[..n]);
    && pre.result.Success?
    && if "short_code" !in posts[n] then g == Gathered(Failure(MissingShortCode), pre.served)
       else
         var o := QueryAllFrom(run, pre.served, CommentVariables(posts[n]["short_code"]));
         o.result.Failure? && g == Gathered(Failure(QueryFailed(o.result.error)), o.served)
  }

  /** A comment stage that fails failed at one post: the first without a
      short code, or the first whose comment query raised. */
  lemma {:induction false} CollectFails(run: Run, k: nat, posts: seq<Record>)
    ensures var g := CollectFrom(run, k, posts);
            g.result.Failure? ==> exists n :: 0 <= n < |posts| && FailsAt(run, k, posts, n, g)
    decreases |posts|
  {
    var g := CollectFrom(run, k, posts);
    if posts != [] && g.result.Failure? {
      assert posts[..0] == [];
      if "short_code" !in posts[0] {
        assert FailsAt(run, k, posts, 0, g);
      } else {
        var o := QueryAllFrom(run, k, CommentVariables(posts[0]["short_code"]));
        if o.result.Failure? {
          assert FailsAt(run, k, posts, 0, g);
        } else {
          var rest := CollectFrom(run, o.served, posts[1..]);
          assert g == rest;
          CollectFails(run, o.served, posts[1..]);
          var n :| 0 <= n < |posts[1..]| && FailsAt(run, o.served, posts[1..], n, rest);
          FailsAtCons(run, k, posts, n, g);
        }
      }
    }
  }

  /** The step of `CollectFails`: a failure at post `n` of the later posts
      is a failure at post `n + 1` of all of them. */
  lemma FailsAtCons(run: Run, k: nat, posts: seq<Record>, n: nat, g: Gathered)
    requires posts != [] && "short_code" in posts[0]
    requires QueryAllFrom(run, k, CommentVariables(posts[0]["short_code"])).result.Success?
    requires n < |posts| - 1
    requires FailsAt(run, QueryAllFrom(run, k, CommentVariables(posts[0]["short_code"])).served, posts[1..], n, g)
    ensures FailsAt(run, k, posts, n + 1, g)
  {
    var o := QueryAllFrom(run, k, CommentVariables(posts[0]["short_code"]));
    var prefix := posts[..n + 1];
    assert prefix[0] == posts[0];
    assert prefix[1..] == posts[1..][..n];
    assert posts[n + 1] == posts[1..][n];
    var pre := CollectFrom(run, k, prefix);
    var pre' := CollectFrom(run, o.served, posts[1..][..n]);
    assert pre.served == pre'.served && pre.result.Success?;
  }

  /** With a positive cap, each post contributes at most `cap` comments. */
  lemma {:induction false} CollectCapped(run: Run, k: nat, posts: seq<Record>)
    requires run.cap > 0
    ensures var g := CollectFrom(run, k, posts);
            g.result.Success? ==> |g.result.value| <= run.cap * |posts|
    decreases |posts|
  {
    var g := CollectFrom(run, k, posts);
    if posts != [] && "short_code" in posts[0] && g.result.Success? {
      var code := posts[0]["short_code"];
      var o := QueryAllFrom(run, k, CommentVariables(code));
      assert |o.result.value| <= run.cap by {
        QueryAllCapped(run, k, CommentVariables(code));
      }
      var rest := CollectFrom(run, o.served, posts[1..]);
      CollectCapped(run, o.served, posts[1..]);
      assert g.result.value == Tagged(o.result.value, code) + rest.result.value;
      CapsAdd(run.cap, |o.result.value|, |rest.result.value|, |posts[1..]|);
    }
  }

  /** Lists of records laid end to end. */
  function Flatten(parts: seq<seq<Record>>): seq<Record> {
    if parts == [] then [] else parts[0] + Flatten(parts[1..])
  }

  /** `comments` is one consecutive stretch per post, in post order: the
      stretch of post j carries post j's short code, and with a positive
      cap it holds at most `cap` comments. */
  predicate PerPost(parts: seq<seq<Record>>, posts: seq<Record>, cap: int, comments: seq<Record>) {
    && |parts| == |posts|
    && Flatten(parts) == comments
    && forall j :: 0 <= j < |parts| ==>
         && "short_code" in posts[j]
         && (cap > 0 ==> |parts[j]| <= cap)
         && forall i :: 0 <= i < |parts[j]| ==>
              "post_short_code" in parts[j][i] && parts[j][i]["post_short_code"] == posts[j]["short_code"]
  }

  /** The comment stage splits into the tagged comments of each post, at
      most `cap` of them per post when the cap is positive. */
  lemma {:induction false} CollectPerPost(run: Run, k: nat, posts: seq<Record>)
    ensures var g := CollectFrom(run, k, posts);
            g.result.Success? ==> exists parts :: PerPost(parts, posts, run.cap, g.result.value)
    decreases |posts|
  {
    var g := CollectFrom(run, k, posts);
    if posts == [] {
      assert PerPost([], posts, run.cap, []);
    } else if "short_code" in posts[0] && g.result.Success? {
      var code := posts[0]["short_code"];
      var o := QueryAllFrom(run, k, CommentVariables(code));
      var rest := CollectFrom(run, o.served, posts[1..]);
      var head := Tagged(o.result.value, code);
      assert g.result.value == head + rest.result.value;
      assert run.cap > 0 ==> |head| <= run.cap by {
        if run.cap > 0 { QueryAllCapped(run, k, CommentVariables(code)); }
      }
      CollectPerPost(run, o.served, posts[1..]);
      var tail :| PerPost(tail, posts[1..], run.cap, rest.result.value);
      PerPostCons(head, posts, run.cap, tail, rest.result.value);
    }
  }

  /** The step of `CollectPerPost`: the first post's stretch in front of
      the stretches of the other posts. */
  lemma PerPostCons(head: seq<Record>, posts: seq<Record>, cap: int, tail: seq<seq<Record>>, rest: seq<Record>)
    requires posts != [] && "short_code" in posts[0]
    requires forall i :: 0 <= i < |head| ==>
               "post_short_code" in head[i] && head[i]["post_short_code"] == posts[0]["short_code"]
    requires cap > 0 ==> |head| <= cap
    requires PerPost(tail, posts[1..], cap, rest)
    ensures PerPost([head] + tail, posts, cap, head + rest)
  {
    var parts := [head] + tail;
    assert parts[1..] == tail;
    forall j | 0 < j < |parts| ensures parts[j] == tail[j - 1] && posts[j] == posts[1..][j - 1] { }
  }

  lemma CapsAdd(cap: int, head: nat, rest: nat, n: nat)
    requires head <= cap && rest <= cap * n
    ensures head + rest <= cap * (n + 1)
  {
  }

  /** The comment loop of both fetch tasks: one `query_all` per post on the
      comment query, in post order. */
  method CollectComments(query: Query, queryHash: string, posts: seq<Record>, cap: int)
      returns (r: Result<seq<Record>, TaskError>)
    modifies query.origin
    ensures var g := CollectFrom(Run(query.parse, query.origin.replies, queryHash, query.proxies, cap),
                                 old(query.origin.served), posts);
            r == g.result && query.origin.served == g.served
  {
    ghost var run := Run(query.parse, query.origin.replies, queryHash, query.proxies, cap);
    ghost var whole := CollectFrom(run, query.origin.served, posts);
    var comments: seq<Record> := [];
    assert posts[0..] == posts;
    assert whole.result.Success? ==> [] + whole.result.value == whole.result.value;
    for i := 0 to |posts|
      invariant var rest := CollectFrom(run, query.origin.served, posts[i..]);
                whole.result == Prepend(comments, rest.result) && whole.served == rest.served
    {
      ghost var before := query.origin.served;
      assert posts[i..][0] == posts[i] && posts[i..][1..] == posts[i + 1..];
      if "short_code" !in posts[i] {
        return Failure(MissingShortCode);
      }
      var code := posts[i]["short_code"];
      var page := query.QueryAll(queryHash, CommentVariables(code), cap);
      if page.Failure? {
        return Failure(QueryFailed(page.error));
      }
      var tagged := TagComments(page.value, code);
      ghost var rest := CollectFrom(run, query.origin.served, posts[i + 1..]);
      assert rest.result.Success? ==> comments + (tagged + rest.result.value) == comments + tagged + rest.result.value;
      comments := comments + tagged;
    }
    assert posts[|posts|..] == [];
    assert comments + [] == comments;
    r := Success(comments);
  }

  // ------------------------------------------------------------ the fetch tasks

  /** `task_fetch_posts_and_comments`: the author's posts (up to `count`),
      then the comments of each post (no cap). The posts table is saved
      before the comment stage starts, so it is returned even when that
      stage fails. */
  method FetchPostsAndComments(config: Config, formatTime: TimeFormatter, postOrigin: Origin, commentOrigin: Origin,
                               authorId: Json, count: int)
      returns (posts: Option<seq<Record>>, r: Result<seq<Record>, TaskError>)
    requires postOrigin != commentOrigin
    modifies postOrigin, commentOrigin
    ensures var proxies := ProxiesOf(config.httpProxy, config.httpsProxy);
            var p := QueryAllFrom(Run(ParserOf(PostParser, formatTime), postOrigin.replies, config.postsHash, proxies, count),
                                  old(postOrigin.served), AuthorVariables(authorId));
            && postOrigin.served == p.served
            && (p.result.Failure? ==>
                  posts == None && r == Failure(QueryFailed(p.result.error))
                  && commentOrigin.served == old(commentOrigin.served))
            && (p.result.Success? ==>
                  var g := CollectFrom(Run(ParserOf(CommentParser, formatTime), commentOrigin.replies, config.commentsHash, proxies, 0),
                                       old(commentOrigin.served), p.result.value);
                  posts == Some(p.result.value) && r == g.result && commentOrigin.served == g.served)
  {
    var postQuery := new Query(ParserOf(PostParser, formatTime), postOrigin, config.httpProxy, config.httpsProxy);
    var commentQuery := new Query(ParserOf(CommentParser, formatTime), commentOrigin, config.httpProxy, config.httpsProxy);
    var postData := postQuery.QueryAll(config.postsHash, AuthorVariables(authorId), count);
    if postData.Failure? {
      return None, Failure(QueryFailed(postData.error));
    }
    posts := Some(postData.value);
    r := CollectComments(commentQuery, config.commentsHash, postData.value, 0);
  }

  /** `task_fetch_tag_posts_and_comments`: the tag's posts (up to `count`),
      then at most 100 comments of each post. */
  method FetchTagPostsAndComments(config: Config, formatTime: TimeFormatter, postOrigin: Origin, commentOrigin: Origin,
                                  tagName: Json, count: int)
      returns (posts: Option<seq<Record>>, r: Result<seq<Record>, TaskError>)
    requires postOrigin != commentOrigin
    modifies postOrigin, commentOrigin
    ensures var proxies := ProxiesOf(config.httpProxy, config.httpsProxy);
            var p := QueryAllFrom(Run(ParserOf(TagPostParser, formatTime), postOrigin.replies, config.tagPostsHash, proxies, count),
                                  old(postOrigin.served), TagVariables(tagName));
            && postOrigin.served == p.served
            && (p.result.Failure? ==>
                  posts == None && r == Failure(QueryFailed(p.result.error))
                  && commentOrigin.served == old(commentOrigin.served))
            && (p.result.Success? ==>
                  var g := CollectFrom(Run(ParserOf(CommentParser, formatTime), commentOrigin.replies, config.commentsHash, proxies, TagCommentCap),
                                       old(commentOrigin.served), p.result.value);
                  posts == Some(p.result.value) && r == g.result && commentOrigin.served == g.served)
  {
    var postQuery := new Query(ParserOf(TagPostParser, formatTime), postOrigin, config.httpProxy, config.httpsProxy);
    var commentQuery := new Query(ParserOf(CommentParser, formatTime), commentOrigin, config.httpProxy, config.httpsProxy);
    var postData := postQuery.QueryAll(config.tagPostsHash, TagVariables(tagName), count);
    if postData.Failure? {
      return None, Failure(QueryFailed(postData.error));
    }
    posts := Some(postData.value);
    r := CollectComments(commentQuery, config.commentsHash, postData.value, TagCommentCap);
  }

  // ------------------------------------------------------- the download task

  /** `task_download_resources`' checks of the data file path, in order: a
      string, an existing path, and an Excel extension. */
  function CheckDataPath(disk: Disk, path: Value): Result<string, Exception> {
    if !path.PyStr? then Failure(ValueError)
    else if !Exists(disk, path.s) then Failure(FileNotFoundError)
    else if SplitExt(path.s).1 !in [".xls", ".xlsx"] then Failure(TypeError)
    else Success(path.s)
  }

  /** The data path is accepted exactly when it is an existing path with
      the extension .xls or .xlsx; otherwise the first failed check names
      the exception. */
  lemma DataPathChecks(disk: Disk, path: Value)
    ensures CheckDataPath(disk, path).Success? <==>
              path.PyStr? && Exists(disk, path.s) && SplitExt(path.s).1 in [".xls", ".xlsx"]
    ensures CheckDataPath(disk, path).Success? ==> CheckDataPath(disk, path).value == path.s
    ensures !path.PyStr? ==> CheckDataPath(disk, path) == Failure(ValueError)
    ensures path.PyStr? && !Exists(disk, path.s) ==> CheckDataPath(disk, path) == Failure(FileNotFoundError)
    ensures path.PyStr? && Exists(disk, path.s) && SplitExt(path.s).1 !in [".xls", ".xlsx"] ==>
              CheckDataPath(disk, path) == Failure(TypeError)
  {
  }

  /** The output-name fields used when none are given. */
  const DefaultOutFields: seq<string> := ["short_code"]

  /** One cell of the data sheet as pandas reads it: empty (NaN), text, or
      a number. */
  datatype Cell = Nan | Text(s: string) | Number(n: int)

  /** One sheet row: column name to cell. */
  type Row = map<string, Cell>

  /** `not url or pd.isna(url)`: rows whose URL cell is empty, zero or NaN
      are skipped. */
  predicate Skipped(cell: Cell) {
    cell == Nan || cell == Text("") || cell == Number(0)
  }

  /** The extension of a URL's path: `os.path.splitext(url.split("?")[0])`. */
  function UrlExt(url: string): (ext: string)
    ensures ext == "" || (ext[0] == '.' && '/' !in ext && '?' !in ext)
  {
    var path := BeforeFirst(url, '?');
    var ext := SplitExt(path).1;
    assert ext == path[|path| - |ext|..];
    ext
  }

  /** `[item[f] for f in out_fields]` followed by `'-'.join(...)`'s type
      test: the list is built first, so a missing column (KeyError) is
      reported before a cell that is not text (TypeError). */
  function OutValues(row: Row, fields: seq<string>): (r: Result<seq<string>, Exception>)
    ensures r.Success? <==> forall i :: 0 <= i < |fields| ==> fields[i] in row && row[fields[i]].Text?
    ensures r.Success? ==> |r.value| == |fields| && forall i :: 0 <= i < |fields| ==> row[fields[i]] == Text(r.value[i])
    ensures r == Failure(KeyError) <==> exists i :: 0 <= i < |fields| && fields[i] !in row
  {
    if exists i :: 0 <= i < |fields| && fields[i] !in row then Failure(KeyError)
    else if exists i :: 0 <= i < |fields| && !row[fields[i]].Text? then Failure(TypeError)
    else Success(seq(|fields|, i requires 0 <= i < |fields| => row[fields[i]].s))
  }

  /** The resource one row yields: None for a skipped row, otherwise its URL
      and the output path `out_dir/<fields joined by '-'><ext>`; a missing
      column raises KeyError and a non-text URL raises AttributeError. */
  function RowTarget(row: Row, urlField: string, outFields: seq<string>, outDir: string)
    : Result<Option<(string, string)>, Exception>
  {
    if urlField !in row then Failure(KeyError)
    else if Skipped(row[urlField]) then Success(None)
    else if !row[urlField].Text? then Failure(AttributeError)
    else
      var url := row[urlField].s;
      var values :- OutValues(row, outFields);
      Success(Some((url, PathJoin(outDir, JoinWith(values, "-") + UrlExt(url)))))
  }

  /** A row's resource fetches the row's URL and saves it under `out_dir`,
      to a name made of the row's out fields and the URL's extension
      (`RowTargetDir` places it directly in `out_dir`). */
  lemma RowTargetShape(row: Row, urlField: string, outFields: seq<string>, outDir: string, url: string, out: string)
    requires RowTarget(row, urlField, outFields, outDir) == Success(Some((url, out)))
    ensures urlField in row && row[urlField] == Text(url) && url != ""
    ensures OutValues(row, outFields).Success?
    ensures var name := JoinWith(OutValues(row, outFields).value, "-") + UrlExt(url);
            && |name| <= |out| && out[|out| - |name|..] == name
            && (name == "" || name[0] != '/' ==> outDir <= out)
  {
  }

  /** A row's file sits directly in `out_dir` when its name holds no '/'
      (a '/' in an out field would add directory levels). */
  lemma RowTargetDir(row: Row, urlField: string, outFields: seq<string>, outDir: string, url: string, out: string)
    requires RowTarget(row, urlField, outFields, outDir) == Success(Some((url, out)))
    ensures OutValues(row, outFields).Success?
    ensures var name := JoinWith(OutValues(row, outFields).value, "-") + UrlExt(url);
            name != "" && '/' !in name ==> AfterLast(out, '/') == name && Head(out) == DirOf(outDir)
  {
    var name := JoinWith(OutValues(row, outFields).value, "-") + UrlExt(url);
    assert out == PathJoin(outDir, name);
    if name != "" && '/' !in name {
      HeadOfJoined(outDir, name);
    }
  }

  /** What one row yields, as the row loop sees it. */
  type RowStep = Row -> Result<Option<(string, string)>, Exception>

  function RowTargetOf(urlField: string, outFields: seq<string>, outDir: string): RowStep {
    (row: Row) => RowTarget(row, urlField, outFields, outDir)
  }

  /** A row that does not raise has the URL column, and it yields no
      resource exactly when its URL cell is skipped. */
  lemma RowSkips(row: Row, urlField: string, outFields: seq<string>, outDir: string)
    requires RowTarget(row, urlField, outFields, outDir).Success?
    ensures urlField in row
    ensures RowTarget(row, urlField, outFields, outDir).value.None? <==> Skipped(row[urlField])
  {
  }

  /** The resources of the rows in row order, or the exception of the first
      row that raises. */
  function Targets(step: RowStep, rows: seq<Row>): (r: Result<seq<(string, string)>, Exception>)
    ensures r.Success? ==> |r.value| <= |rows|
    decreases |rows|
  {
    if rows == [] then Success([])
    else
      var prior :- Targets(step, rows[..|rows| - 1]);
      var t :- step(rows[|rows| - 1]);
      Success(prior + if t.Some? then [t.value] else [])
  }

  /** Rows are taken in order: the resources of two consecutive stretches
      of rows are those of the first followed by those of the second, and
      an exception in the first stretch wins. */
  lemma {:induction false} TargetsAppend(step: RowStep, a: seq<Row>, b: seq<Row>)
    ensures Targets(step, a + b) ==
            (var ta :- Targets(step, a);
             var tb :- Targets(step, b);
             Success(ta + tb))
    decreases |b|
  {
    if b == [] {
      assert a + b == a;
      var ta := Targets(step, a);
      assert ta.Success? ==> ta.value + [] == ta.value;
    } else {
      var b' := b[..|b| - 1];
      assert (a + b)[..|a + b| - 1] == a + b';
      assert (a + b)[|a + b| - 1] == b[|b| - 1];
      TargetsAppend(step, a, b');
      var ta := Targets(step, a);
      var tb' := Targets(step, b');
      if ta.Success? && tb'.Success? {
        var t := step(b[|b| - 1]);
        if t.Success? {
          var last := if t.value.Some? then [t.value.value] else [];
          assert ta.value + tb'.value + last == ta.value + (tb'.value + last);
        }
      }
    }
  }

  /** The rows succeed exactly when every row does. */
  lemma {:induction false} TargetsSucceed(step: RowStep, rows: seq<Row>)
    ensures Targets(step, rows).Success? <==> forall i :: 0 <= i < |rows| ==> step(rows[i]).Success?
    decreases |rows|
  {
    if rows != [] {
      var n := |rows| - 1;
      TargetsSucceed(step, rows[..n]);
      forall i | 0 <= i < n ensures rows[..n][i] == rows[i] { }
    }
  }

  /** On success, a resource comes from every row exactly when every row
      yields one. */
  lemma {:induction false} TargetsKeepAll(step: RowStep, rows: seq<Row>)
    requires Targets(step, rows).Success?
    ensures forall i :: 0 <= i < |rows| ==> step(rows[i]).Success?
    ensures |Targets(step, rows).value| == |rows| <==> forall i :: 0 <= i < |rows| ==> step(rows[i]).value.Some?
    decreases |rows|
  {
    if rows != [] {
      var n := |rows| - 1;
      var front := rows[..n];
      TargetsKeepAll(step, front);
      forall i | 0 <= i < n ensures front[i] == rows[i] { }
      assert |Targets(step, front).value| <= n;
    }
  }

  /** The sheet's resources: on success every row has the URL column, and
      there is one resource per row exactly when no row is skipped. */
  lemma SheetKeepsRows(rows: seq<Row>, urlField: string, outFields: seq<string>, outDir: string)
    requires Targets(RowTargetOf(urlField, outFields, outDir), rows).Success?
    ensures forall i :: 0 <= i < |rows| ==> urlField in rows[i]
    ensures |Targets(RowTargetOf(urlField, outFields, outDir), rows).value| == |rows| <==>
              forall i :: 0 <= i < |rows| ==> !Skipped(rows[i][urlField])
  {
    var step := RowTargetOf(urlField, outFields, outDir);
    TargetsKeepAll(step, rows);
    forall i | 0 <= i < |rows|
      ensures urlField in rows[i]
      ensures step(rows[i]).value.Some? <==> !Skipped(rows[i][urlField])
    {
      RowSkips(rows[i], urlField, outFields, outDir);
    }
  }

  /** The loop over the sheet's rows: one new `Resource` per row that
      yields one, in row order. */
  method DeriveResources(step: RowStep, rows: seq<Row>) returns (r: Result<seq<Resource>, Exception>)
    ensures var t := Targets(step, rows);
            && (r.Success? <==> t.Success?)
            && (r.Failure? ==> r.error == t.error)
            && (r.Success? ==> Made(r.value, t.value))
    ensures r.Success? ==> forall i :: 0 <= i < |r.value| ==> fresh(r.value[i])
  {
    var resources: seq<Resource> := [];
    ghost var targets: seq<(string, string)> := [];
    for i := 0 to |rows|
      invariant Targets(step, rows[..i]) == Success(targets)
      invariant Made(resources, targets)
      invariant forall m :: 0 <= m < |resources| ==> fresh(resources[m])
    {
      assert rows[..i + 1][..i] == rows[..i] && rows[..i + 1][i] == rows[i];
      var t := step(rows[i]);
      if t.Failure? {
        TargetsAppend(step, rows[..i + 1], rows[i + 1..]);
        assert rows[..i + 1] + rows[i + 1..] == rows;
        return Failure(t.error);
      }
      ghost var prior := targets;
      if t.value.Some? {
        var resource := new Resource(PyStr(t.value.value.0), PyStr(t.value.value.1));
        resources := resources + [resource];
        targets := targets + [t.value.value];
      }
      assert targets == prior + if t.value.Some? then [t.value.value] else [];
    }
    assert rows[..|rows|] == rows;
    return Success(resources);
  }

  /** Distinct new resources, the i-th carrying the i-th URL and path. */
  predicate Made(resources: seq<Resource>, targets: seq<(string, string)>) {
    && |resources| == |targets|
    && (forall i :: 0 <= i < |resources| ==>
          resources[i].url == PyStr(targets[i].0) && resources[i].out == PyStr(targets[i].1))
    && (forall i, j :: 0 <= i < j < |resources| ==> resources[i] != resources[j])
  }

  /** `task_download_resources`: checks the data path, derives one resource
      per sheet row that is not skipped, and downloads them all with a new
      downloader. The sheet's rows stand for `pd.read_excel(data_fpath)`.
      The `overwrite` argument is not passed on: existing files are kept. */
  method DownloadResources(fs: FileSystem, respond: string -> Response, dataPath: Value, rows: seq<Row>,
                           urlField: string, outFields: Option<seq<string>>, outDir: string, overwrite: bool)
      returns (resources: seq<Resource>, r: Result<map<Resource, bool>, Exception>)
    modifies fs
    ensures CheckDataPath(old(fs.State()), dataPath).Failure? ==>
              r == Failure(CheckDataPath(old(fs.State()), dataPath).error) && fs.State() == old(fs.State())
    ensures CheckDataPath(old(fs.State()), dataPath).Success? ==>
              var t := Targets(RowTargetOf(urlField, if outFields.Some? then outFields.value else DefaultOutFields, outDir), rows);
              && (t.Failure? ==> r == Failure(t.error) && fs.State() == old(fs.State()))
              && (t.Success? ==> Made(resources, t.value))
              && (t.Success? && t.value == [] ==> r == Failure(ValueError) && fs.State() == old(fs.State()))
              && (t.Success? && t.value != [] ==>
                    var pass := RunItems(ItemOf(respond, false), old(fs.State()), resources);
                    r == Success(ResultMap(resources, pass.results)) && fs.State() == pass.disk)
  {
    var checked := CheckDataPath(fs.State(), dataPath);
    if checked.Failure? {
      return [], Failure(checked.error);
    }
    var fields := if outFields.Some? then outFields.value else DefaultOutFields;
    var derived := DeriveResources(RowTargetOf(urlField, fields, outDir), rows);
    if derived.Failure? {
      return [], Failure(derived.error);
    }
    resources := derived.value;
    var downloader := new Downloader(fs, respond);
    r := downloader.Download(resources, false);
  }
}
