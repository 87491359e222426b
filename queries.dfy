/** The query engine: an HTTP session against the GraphQL endpoint, the
    "not ready" retry loop of `query_batch`, and the cursor-following loop
    of `query_all` with its optional cap on the number of records. */
module Queries {
  import opened Py
  import opened Text
  import opened Json
  import opened Parsers

  // ------------------------------------------------------------------ proxies

  /** The proxies dict holds "http" and "https" exactly for the settings that
      are set, each with its setting, and nothing else. */
  ghost predicate ProxiesFor(proxies: map<string, string>, httpProxy: Option<string>, httpsProxy: Option<string>) {
    && ("http" in proxies <==> IsSet(httpProxy))
    && ("https" in proxies <==> IsSet(httpsProxy))
    && ("http" in proxies ==> proxies["http"] == httpProxy.value)
    && ("https" in proxies ==> proxies["https"] == httpsProxy.value)
    && proxies.Keys <= {"http", "https"}
  }

  /** The proxies dict a session gets from the two proxy settings. */
  function ProxiesOf(httpProxy: Option<string>, httpsProxy: Option<string>): (proxies: map<string, string>)
    ensures ProxiesFor(proxies, httpProxy, httpsProxy)
  {
    (if IsSet(httpProxy) then map["http" := httpProxy.value] else map[])
    + (if IsSet(httpsProxy) then map["https" := httpsProxy.value] else map[])
  }

  /** `_init_proxies`, with the two proxy settings as parameters. */
  method InitProxies(httpProxy: Option<string>, httpsProxy: Option<string>) returns (proxies: map<string, string>)
    ensures proxies == ProxiesOf(httpProxy, httpsProxy)
  {
    proxies := map[];
    if IsSet(httpProxy) {
      proxies := proxies["http" := httpProxy.value];
    }
    if IsSet(httpsProxy) {
      proxies := proxies["https" := httpsProxy.value];
    }
  }

  // ------------------------------------------------------------ the endpoint

  /** What one GET of the endpoint yields: the decoded JSON body, or Raised
      when the request or the JSON decoding of its body raised. */
  datatype Reply = Raised | Body(data: Json)

  /** One GET of the endpoint: the query hash and variables formatted into
      the URL, and the session's proxies. */
  datatype Request = Request(queryHash: string, variables: Vars, proxies: map<string, string>)

  /** The replies the endpoint gives to successive GETs of one session; once
      they are used up, every further GET raises. */
  function ReplyAt(replies: seq<Reply>, k: nat): Reply {
    if k < |replies| then replies[k] else Raised
  }

  /** The endpoint as one session sees it: it answers the n-th GET with
      `replies[n]` and keeps the log of the requests sent. */
  class Origin {
    const replies: seq<Reply>
    var served: nat
    var sent: seq<Request>

    constructor (replies: seq<Reply>)
      ensures this.replies == replies && served == 0 && sent == []
    {
      this.replies := replies;
      served := 0;
      sent := [];
    }

    method Get(request: Request) returns (reply: Reply)
      modifies this
      ensures served == old(served) + 1
      ensures sent == old(sent) + [request]
      ensures reply == ReplyAt(replies, old(served))
    {
      reply := ReplyAt(replies, served);
      served := served + 1;
      sent := sent + [request];
    }
  }

  // ------------------------------------------------------------- query_batch

  datatype Readiness = Ready | NotReady | ProbeRaises

  /** The retry test `'status' in data and data['status'] != 'ok'`. On a
      list `in` tests membership and on a string it tests for a substring;
      where it holds there, the subscript `data['status']` raises; on other
      values `in` itself raises. */
  function ReadinessOf(data: Json): (r: Readiness)
    ensures r == NotReady <==> data.Obj? && "status" in data.fields && data.fields["status"] != Str("ok")
    ensures data.Obj? ==> r != ProbeRaises
  {
    match data
    case Obj(m) => if "status" in m && m["status"] != Str("ok") then NotReady else Ready
    case Arr(xs) => if Str("status") in xs then ProbeRaises else Ready
    case Str(s) => if IsSubstring("status", s) then ProbeRaises else Ready
    case _ => ProbeRaises
  }

  /** A reply on which `query_batch` sleeps and sends the request again. */
  predicate Retries(reply: Reply) {
    reply.Body? && ReadinessOf(reply.data) == NotReady
  }

  /** The index of the reply that ends the retry loop when it starts at
      reply `k`: the first one at or after `k` that is not "not ready". */
  function SettleIndex(replies: seq<Reply>, k: nat): (j: nat)
    ensures k <= j
    ensures forall m :: k <= m < j ==> Retries(ReplyAt(replies, m))
    ensures !Retries(ReplyAt(replies, j))
    decreases |replies| - k
  {
    if Retries(ReplyAt(replies, k)) then SettleIndex(replies, k + 1) else k
  }

  /** The retry loop ends at the first reply that is not "not ready". */
  lemma SettleIndexAt(replies: seq<Reply>, k: nat, j: nat)
    requires k <= j
    requires forall m :: k <= m < j ==> Retries(ReplyAt(replies, m))
    requires !Retries(ReplyAt(replies, j))
    ensures SettleIndex(replies, k) == j
  {
    var s := SettleIndex(replies, k);
    assert !Retries(ReplyAt(replies, s));
  }

  datatype QueryError = TransportFailed | StatusProbeFailed | ParseFailed

  /** The triple `query_batch` returns. */
  datatype Batch = Batch(records: seq<Record>, nextVariables: Vars, pageInfo: PageInfo)

  /** What `query_batch` takes from the parser class it was given, built on
      a reply body: the records, the next variables and the page info, or
      None when the parser raises on any of the three. The engine works with
      any parser class. */
  type Parser = (Json, Vars) -> Option<Batch>

  /** The parser class of each kind, with its time formatter. */
  function ParserOf(kind: ParserKind, formatTime: TimeFormatter): Parser {
    (data: Json, variables: Vars) =>
      match (ParsedData(kind, data, formatTime), NextVariables(kind, data, variables), ParsePageInfo(kind, data))
      case (Some(records), Some(next), Some(info)) => Some(Batch(records, next, info))
      case _ => None
  }

  /** A parser class succeeds on a body exactly when its three parses do; its
      records are `parse_data`'s, its next variables are the request's with
      `after` set to the end cursor, and its page info carries the raw
      `has_next_page`. */
  lemma ParserOfSpec(kind: ParserKind, formatTime: TimeFormatter, data: Json, variables: Vars)
    ensures ParserOf(kind, formatTime)(data, variables).Some? <==>
              && ParsedData(kind, data, formatTime).Some?
              && Lookup(data, CursorPath(kind)).Some?
              && Lookup(data, HasNextPath(kind)).Some?
    ensures ParserOf(kind, formatTime)(data, variables).Some? ==>
              var b := ParserOf(kind, formatTime)(data, variables).value;
              && Some(b.records) == ParsedData(kind, data, formatTime)
              && b.nextVariables.Keys == variables.Keys + {"after"}
              && Some(b.nextVariables["after"]) == Lookup(data, CursorPath(kind))
              && (forall k :: k in variables && k != "after" ==> b.nextVariables[k] == variables[k])
              && Some(b.pageInfo.hasNext) == Lookup(data, HasNextPath(kind))
              && b.pageInfo.tokenKey == TokenKey(kind)
              && Some(b.pageInfo) == ParsePageInfo(kind, data)
  {
  }

  /** The outcome of `query_batch` once the retry loop has settled on
      `reply`: the parser applied to the reply body and the request's
      variables. */
  function BatchFrom(parse: Parser, reply: Reply, variables: Vars): (r: Result<Batch, QueryError>)
    ensures r.Success? <==> reply.Body? && ReadinessOf(reply.data) != ProbeRaises && parse(reply.data, variables).Some?
    ensures r.Success? ==> Some(r.value) == parse(reply.data, variables)
  {
    match reply
    case Raised => Failure(TransportFailed)
    case Body(data) =>
      if ReadinessOf(data) == ProbeRaises then Failure(StatusProbeFailed)
      else
        match parse(data, variables)
        case Some(batch) => Success(batch)
        case None => Failure(ParseFailed)
  }

  // --------------------------------------------------------------- query_all

  /** What stays fixed while `query_all` follows the cursor: the parser, the
      endpoint's replies, the query, the session's proxies and the cap. */
  datatype Run = Run(parse: Parser, replies: seq<Reply>, queryHash: string,
                     proxies: map<string, string>, cap: int)

  /** One page of a run: the variables it was requested with, how many GETs
      it took, and the batch it produced. */
  datatype Fetch = Fetch(variables: Vars, tries: nat, batch: Batch)

  /** How a run ends: its result, the number of replies consumed by then,
      and the pages it fetched. */
  datatype Outcome = Outcome(result: Result<seq<Record>, QueryError>, served: nat, pages: seq<Fetch>)

  /** A falsy cap (None or 0) means no cap; a cap is reached once the count
      is at least the cap. */
  predicate CapReached(count: nat, cap: int) {
    cap != 0 && count >= cap
  }

  /** `all_data[:total_count]` when `total_count and total_count < len(all_data)`;
      a negative bound counts from the end, as Python slicing does. */
  function Truncated(all: seq<Record>, cap: int): (r: seq<Record>)
    ensures r <= all
    ensures cap == 0 ==> r == all
    ensures cap > 0 ==> |r| == if cap < |all| then cap else |all|
  {
    if cap != 0 && cap < |all| then
      if cap >= 0 then all[..cap] else all[..if |all| + cap > 0 then |all| + cap else 0]
    else all
  }

  /** The rest of a `query_all` run from reply `k` on, requesting the next page
      with `pageVariables` after gathering `allData`; `first` tells whether
      that page is the run's first, after which the cap is not checked. */
  function Follow(run: Run, k: nat, pageVariables: Vars, allData: seq<Record>, first: bool): Outcome
    decreases |run.replies| + 1 - k
  {
    var j := SettleIndex(run.replies, k);
    match BatchFrom(run.parse, ReplyAt(run.replies, j), pageVariables)
    case Failure(e) => Outcome(Failure(e), j + 1, [])
    case Success(b) =>
      var page := Fetch(pageVariables, j + 1 - k, b);
      var all := allData + b.records;
      if Truthy(b.pageInfo.hasNext) && !(!first && CapReached(|all|, run.cap)) then
        var rest := Follow(run, j + 1, b.nextVariables, all, false);
        Outcome(rest.result, rest.served, [page] + rest.pages)
      else
        Outcome(Success(Truncated(all, run.cap)), j + 1, [page])
  }

  /** One step of a run, once the retry loop of its next batch has settled
      on reply `served - 1` with `outcome`. */
  lemma FollowUnfold(run: Run, k: nat, pageVariables: Vars, allData: seq<Record>, first: bool,
                     served: nat, outcome: Result<Batch, QueryError>)
    requires SettleIndex(run.replies, k) + 1 == served
    requires outcome == BatchFrom(run.parse, ReplyAt(run.replies, served - 1), pageVariables)
    ensures var o := Follow(run, k, pageVariables, allData, first);
            if outcome.Failure? then o.result == Failure(outcome.error) && o.served == served
            else
              var all := allData + outcome.value.records;
              if Truthy(outcome.value.pageInfo.hasNext) && !(!first && CapReached(|all|, run.cap)) then
                var rest := Follow(run, served, outcome.value.nextVariables, all, false);
                o.result == rest.result && o.served == rest.served
              else
                o.result == Success(Truncated(all, run.cap)) && o.served == served
  {
  }

  /** A whole `query_all` run that starts at reply `k`. */
  function QueryAllFrom(run: Run, k: nat, variables: Vars): Outcome {
    Follow(run, k, variables, [], true)
  }

  /** The records of the pages, concatenated in page order. */
  function Records(pages: seq<Fetch>): seq<Record> {
    if pages == [] then [] else pages[0].batch.records + Records(pages[1..])
  }

  /** The first page is requested with the given variables and every later
      one with the next variables of the page before it. */
  predicate Chained(pages: seq<Fetch>, variables: Vars) {
    pages == [] || (pages[0].variables == variables && Chained(pages[1..], pages[0].batch.nextVariables))
  }

  /** Each page is what `query_batch` made of the endpoint's replies, from
      reply `k` on: its retry loop starts where the previous page's ended. */
  ghost predicate Served(parse: Parser, replies: seq<Reply>, k: nat, pages: seq<Fetch>)
    decreases |pages|
  {
    pages == [] ||
    var j := SettleIndex(replies, k);
    && pages[0].tries == j + 1 - k
    && BatchFrom(parse, ReplyAt(replies, j), pages[0].variables) == Success(pages[0].batch)
    && Served(parse, replies, j + 1, pages[1..])
  }

  /** The records of pages 0 to `i`. */
  function RecordsThrough(pages: seq<Fetch>, i: nat): seq<Record>
    requires i < |pages|
  {
    Records(pages[..i + 1])
  }

  function HasNext(f: Fetch): bool {
    Truthy(f.batch.pageInfo.hasNext)
  }

  /** The loop requests another page after page `i` of a run that had
      gathered `prior` before it: page `i` reports a next page, and unless it
      is the run's first page the count so far is below the cap. */
  predicate Continues(prior: seq<Record>, first: bool, pages: seq<Fetch>, i: nat, cap: int)
    requires i < |pages|
  {
    HasNext(pages[i]) && !((!first || 0 < i) && CapReached(|prior + RecordsThrough(pages, i)|, cap))
  }

  /** The loop went on after every page but the last and stopped after it. */
  predicate StopsAt(prior: seq<Record>, first: bool, pages: seq<Fetch>, cap: int) {
    && |pages| > 0
    && (forall i :: 0 <= i < |pages| - 1 ==> Continues(prior, first, pages, i, cap))
    && !Continues(prior, first, pages, |pages| - 1, cap)
  }

  /** The pages of a longer run, seen from its second page on. */
  lemma ContinuesTail(prior: seq<Record>, first: bool, page: Fetch, pages: seq<Fetch>, i: nat, cap: int)
    requires i < |pages|
    ensures Continues(prior, first, [page] + pages, i + 1, cap)
            == Continues(prior + page.batch.records, false, pages, i, cap)
  {
    var all := [page] + pages;
    assert all[..i + 2] == [page] + pages[..i + 1];
    assert Records(all[..i + 2]) == page.batch.records + Records(pages[..i + 1]);
    assert prior + Records(all[..i + 2]) == prior + page.batch.records + Records(pages[..i + 1]);
  }

  /** A run requests its first page with the given variables and each later
      one with the previous page's next variables, and each page is the
      batch `query_batch` settled on, reply after reply. */
  lemma {:induction false} FollowTrace(run: Run, k: nat, pageVariables: Vars, allData: seq<Record>, first: bool)
    ensures var o := Follow(run, k, pageVariables, allData, first);
            Chained(o.pages, pageVariables) && Served(run.parse, run.replies, k, o.pages)
    decreases |run.replies| + 1 - k
  {
    var j := SettleIndex(run.replies, k);
    var outcome := BatchFrom(run.parse, ReplyAt(run.replies, j), pageVariables);
    if outcome.Success? {
      var b := outcome.value;
      var all := allData + b.records;
      if Truthy(b.pageInfo.hasNext) && !(!first && CapReached(|all|, run.cap)) {
        assert j < |run.replies|;
        FollowTrace(run, j + 1, b.nextVariables, all, false);
        TraceStep(run, k, pageVariables, allData, first, b, Follow(run, j + 1, b.nextVariables, all, false));
      }
    }
  }

  /** The step of `FollowTrace` from the second page of a run to its first. */
  lemma TraceStep(run: Run, k: nat, pageVariables: Vars, allData: seq<Record>, first: bool, b: Batch, rest: Outcome)
    requires BatchFrom(run.parse, ReplyAt(run.replies, SettleIndex(run.replies, k)), pageVariables) == Success(b)
    requires Truthy(b.pageInfo.hasNext) && !(!first && CapReached(|allData + b.records|, run.cap))
    requires rest == Follow(run, SettleIndex(run.replies, k) + 1, b.nextVariables, allData + b.records, false)
    requires Chained(rest.pages, b.nextVariables)
    requires Served(run.parse, run.replies, SettleIndex(run.replies, k) + 1, rest.pages)
    ensures var o := Follow(run, k, pageVariables, allData, first);
            Chained(o.pages, pageVariables) && Served(run.parse, run.replies, k, o.pages)
  {
    var o := Follow(run, k, pageVariables, allData, first);
    var page := Fetch(pageVariables, SettleIndex(run.replies, k) + 1 - k, b);
    assert o.pages == [page] + rest.pages;
    assert o.pages[1..] == rest.pages;
  }

  /** A run that ends normally returns all the records gathered, truncated
      to the cap. */
  lemma {:induction false} FollowResult(run: Run, k: nat, pageVariables: Vars, allData: seq<Record>, first: bool)
    ensures var o := Follow(run, k, pageVariables, allData, first);
            o.result.Success? ==> o.result.value == Truncated(allData + Records(o.pages), run.cap)
    decreases |run.replies| + 1 - k
  {
    var j := SettleIndex(run.replies, k);
    var outcome := BatchFrom(run.parse, ReplyAt(run.replies, j), pageVariables);
    if outcome.Success? {
      var b := outcome.value;
      var all := allData + b.records;
      if Truthy(b.pageInfo.hasNext) && !(!first && CapReached(|all|, run.cap)) {
        assert j < |run.replies|;
        FollowResult(run, j + 1, b.nextVariables, all, false);
        ResultStep(run, k, pageVariables, allData, first, b, Follow(run, j + 1, b.nextVariables, all, false));
      } else {
        assert Records([Fetch(pageVariables, j + 1 - k, b)]) == b.records;
      }
    }
  }

  /** The step of `FollowResult` from the second page of a run to its first. */
  lemma ResultStep(run: Run, k: nat, pageVariables: Vars, allData: seq<Record>, first: bool, b: Batch, rest: Outcome)
    requires BatchFrom(run.parse, ReplyAt(run.replies, SettleIndex(run.replies, k)), pageVariables) == Success(b)
    requires Truthy(b.pageInfo.hasNext) && !(!first && CapReached(|allData + b.records|, run.cap))
    requires rest == Follow(run, SettleIndex(run.replies, k) + 1, b.nextVariables, allData + b.records, false)
    requires rest.result.Success? ==>
               rest.result.value == Truncated(allData + b.records + Records(rest.pages), run.cap)
    ensures var o := Follow(run, k, pageVariables, allData, first);
            o.result.Success? ==> o.result.value == Truncated(allData + Records(o.pages), run.cap)
  {
    var o := Follow(run, k, pageVariables, allData, first);
    var page := Fetch(pageVariables, SettleIndex(run.replies, k) + 1 - k, b);
    assert o == Outcome(rest.result, rest.served, [page] + rest.pages);
    assert Records(o.pages) == b.records + Records(rest.pages);
    assert allData + b.records + Records(rest.pages) == allData + Records(o.pages);
  }

  /** A run that went on after its first page and then stopped as
      `StopsAt` describes, stopped as `StopsAt` describes. */
  lemma StopsAtCons(prior: seq<Record>, first: bool, page: Fetch, pages: seq<Fetch>, cap: int)
    requires Continues(prior, first, [page] + pages, 0, cap)
    requires StopsAt(prior + page.batch.records, false, pages, cap)
    ensures StopsAt(prior, first, [page] + pages, cap)
  {
    ContinuesTail(prior, first, page, pages, |pages| - 1, cap);
    forall i | 0 < i < |pages| ensures Continues(prior, first, [page] + pages, i, cap) {
      ContinuesTail(prior, first, page, pages, i - 1, cap);
    }
  }

  /** Likewise for a run that went on after every page. */
  lemma ContinuesCons(prior: seq<Record>, first: bool, page: Fetch, pages: seq<Fetch>, cap: int)
    requires Continues(prior, first, [page] + pages, 0, cap)
    requires forall i :: 0 <= i < |pages| ==> Continues(prior + page.batch.records, false, pages, i, cap)
    ensures forall i :: 0 <= i < |pages| + 1 ==> Continues(prior, first, [page] + pages, i, cap)
  {
    forall i | 0 < i < |pages| + 1 ensures Continues(prior, first, [page] + pages, i, cap) {
      ContinuesTail(prior, first, page, pages, i - 1, cap);
    }
  }

  /** A run that ends normally went on after every page but the last and
      stopped after the last. */
  lemma {:induction false} FollowStops(run: Run, k: nat, pageVariables: Vars, allData: seq<Record>, first: bool)
    ensures var o := Follow(run, k, pageVariables, allData, first);
            o.result.Success? ==> StopsAt(allData, first, o.pages, run.cap)
    decreases |run.replies| + 1 - k
  {
    var j := SettleIndex(run.replies, k);
    var outcome := BatchFrom(run.parse, ReplyAt(run.replies, j), pageVariables);
    if outcome.Success? {
      var b := outcome.value;
      var all := allData + b.records;
      if Truthy(b.pageInfo.hasNext) && !(!first && CapReached(|all|, run.cap)) {
        assert j < |run.replies|;
        FollowStops(run, j + 1, b.nextVariables, all, false);
        StopsStep(run, k, pageVariables, allData, first, b, Follow(run, j + 1, b.nextVariables, all, false));
      } else {
        StopsLast(run, k, pageVariables, allData, first, b);
      }
    }
  }

  /** The base case of `FollowStops`: a run that stops after its first page. */
  lemma StopsLast(run: Run, k: nat, pageVariables: Vars, allData: seq<Record>, first: bool, b: Batch)
    requires BatchFrom(run.parse, ReplyAt(run.replies, SettleIndex(run.replies, k)), pageVariables) == Success(b)
    requires !(Truthy(b.pageInfo.hasNext) && !(!first && CapReached(|allData + b.records|, run.cap)))
    ensures StopsAt(allData, first, Follow(run, k, pageVariables, allData, first).pages, run.cap)
  {
    var page := Fetch(pageVariables, SettleIndex(run.replies, k) + 1 - k, b);
    assert Follow(run, k, pageVariables, allData, first).pages == [page];
    assert Records([page]) == b.records;
    assert [page][..1] == [page];
  }

  /** The step of `FollowStops` from the second page of a run to its first. */
  lemma StopsStep(run: Run, k: nat, pageVariables: Vars, allData: seq<Record>, first: bool, b: Batch, rest: Outcome)
    requires BatchFrom(run.parse, ReplyAt(run.replies, SettleIndex(run.replies, k)), pageVariables) == Success(b)
    requires Truthy(b.pageInfo.hasNext) && !(!first && CapReached(|allData + b.records|, run.cap))
    requires rest == Follow(run, SettleIndex(run.replies, k) + 1, b.nextVariables, allData + b.records, false)
    requires rest.result.Success? ==> StopsAt(allData + b.records, false, rest.pages, run.cap)
    ensures var o := Follow(run, k, pageVariables, allData, first);
            o.result.Success? ==> StopsAt(allData, first, o.pages, run.cap)
  {
    var o := Follow(run, k, pageVariables, allData, first);
    var page := Fetch(pageVariables, SettleIndex(run.replies, k) + 1 - k, b);
    assert o == Outcome(rest.result, rest.served, [page] + rest.pages);
    if o.result.Success? {
      assert Records([page]) == b.records;
      assert [page][..1] == [page];
      assert Continues(allData, first, [page] + rest.pages, 0, run.cap);
      StopsAtCons(allData, first, page, rest.pages, run.cap);
    }
  }

  /** The reply index after the pages of a run that started at reply `k`. */
  function After(k: nat, pages: seq<Fetch>): nat
    decreases |pages|
  {
    if pages == [] then k else After(k + pages[0].tries, pages[1..])
  }

  /** The variables of the request after the pages of a run whose first
      page was requested with `variables`. */
  function LastVars(variables: Vars, pages: seq<Fetch>): Vars
    decreases |pages|
  {
    if pages == [] then variables else LastVars(pages[0].batch.nextVariables, pages[1..])
  }

  /** A run that fails went on after every page it fetched, and failed on
      the batch requested after its last page: that batch's retry loop
      settled on the run's last reply and raised the run's error. */
  lemma FollowFailure(run: Run, k: nat, pageVariables: Vars, allData: seq<Record>, first: bool)
    ensures var o := Follow(run, k, pageVariables, allData, first);
            o.result.Failure? ==> forall i :: 0 <= i < |o.pages| ==> Continues(allData, first, o.pages, i, run.cap)
    ensures var o := Follow(run, k, pageVariables, allData, first);
            var j := SettleIndex(run.replies, After(k, o.pages));
            o.result.Failure? ==>
              && BatchFrom(run.parse, ReplyAt(run.replies, j), LastVars(pageVariables, o.pages)) == Failure(o.result.error)
              && o.served == j + 1
  {
    FailedGoesOn(run, k, pageVariables, allData, first);
    FollowFailsAtBatch(run, k, pageVariables, allData, first);
  }

  /** The first half of `FollowFailure`: a failed run went on after every
      page it fetched. */
  lemma {:induction false} FailedGoesOn(run: Run, k: nat, pageVariables: Vars, allData: seq<Record>, first: bool)
    ensures var o := Follow(run, k, pageVariables, allData, first);
            o.result.Failure? ==> forall i :: 0 <= i < |o.pages| ==> Continues(allData, first, o.pages, i, run.cap)
    decreases |run.replies| + 1 - k
  {
    var j := SettleIndex(run.replies, k);
    var outcome := BatchFrom(run.parse, ReplyAt(run.replies, j), pageVariables);
    if outcome.Success? {
      var b := outcome.value;
      var all := allData + b.records;
      if Truthy(b.pageInfo.hasNext) && !(!first && CapReached(|all|, run.cap)) {
        assert j < |run.replies|;
        FailedGoesOn(run, j + 1, b.nextVariables, all, false);
        FailureStep(run, k, pageVariables, allData, first, b, Follow(run, j + 1, b.nextVariables, all, false));
      }
    }
  }

  /** The step of `FailedGoesOn` from the second page of a run to its first. */
  lemma FailureStep(run: Run, k: nat, pageVariables: Vars, allData: seq<Record>, first: bool, b: Batch, rest: Outcome)
    requires BatchFrom(run.parse, ReplyAt(run.replies, SettleIndex(run.replies, k)), pageVariables) == Success(b)
    requires Truthy(b.pageInfo.hasNext) && !(!first && CapReached(|allData + b.records|, run.cap))
    requires rest == Follow(run, SettleIndex(run.replies, k) + 1, b.nextVariables, allData + b.records, false)
    requires rest.result.Failure? ==>
               forall i :: 0 <= i < |rest.pages| ==> Continues(allData + b.records, false, rest.pages, i, run.cap)
    ensures var o := Follow(run, k, pageVariables, allData, first);
            o.result.Failure? ==> forall i :: 0 <= i < |o.pages| ==> Continues(allData, first, o.pages, i, run.cap)
  {
    var o := Follow(run, k, pageVariables, allData, first);
    var page := Fetch(pageVariables, SettleIndex(run.replies, k) + 1 - k, b);
    assert o == Outcome(rest.result, rest.served, [page] + rest.pages);
    if o.result.Failure? {
      assert Records([page]) == b.records;
      assert [page][..1] == [page];
      assert Continues(allData, first, [page] + rest.pages, 0, run.cap);
      ContinuesCons(allData, first, page, rest.pages, run.cap);
    }
  }

  /** A failed run failed on the batch after its last page, with that
      batch's error. */
  lemma {:induction false} FollowFailsAtBatch(run: Run, k: nat, pageVariables: Vars, allData: seq<Record>, first: bool)
    ensures var o := Follow(run, k, pageVariables, allData, first);
            var j := SettleIndex(run.replies, After(k, o.pages));
            o.result.Failure? ==>
              && BatchFrom(run.parse, ReplyAt(run.replies, j), LastVars(pageVariables, o.pages)) == Failure(o.result.error)
              && o.served == j + 1
    decreases |run.replies| + 1 - k
  {
    var j := SettleIndex(run.replies, k);
    var outcome := BatchFrom(run.parse, ReplyAt(run.replies, j), pageVariables);
    if outcome.Success? {
      var b := outcome.value;
      var all := allData + b.records;
      if Truthy(b.pageInfo.hasNext) && !(!first && CapReached(|all|, run.cap)) {
        assert j < |run.replies|;
        FollowFailsAtBatch(run, j + 1, b.nextVariables, all, false);
        FailsAtStep(run, k, pageVariables, allData, first, b, Follow(run, j + 1, b.nextVariables, all, false));
      }
    }
  }

  /** The step of `FollowFailsAtBatch` from the second page of a run to its first. */
  lemma FailsAtStep(run: Run, k: nat, pageVariables: Vars, allData: seq<Record>, first: bool, b: Batch, rest: Outcome)
    requires BatchFrom(run.parse, ReplyAt(run.replies, SettleIndex(run.replies, k)), pageVariables) == Success(b)
    requires Truthy(b.pageInfo.hasNext) && !(!first && CapReached(|allData + b.records|, run.cap))
    requires rest == Follow(run, SettleIndex(run.replies, k) + 1, b.nextVariables, allData + b.records, false)
    requires var j := SettleIndex(run.replies, After(SettleIndex(run.replies, k) + 1, rest.pages));
             rest.result.Failure? ==>
               && BatchFrom(run.parse, ReplyAt(run.replies, j), LastVars(b.nextVariables, rest.pages)) == Failure(rest.result.error)
               && rest.served == j + 1
    ensures var o := Follow(run, k, pageVariables, allData, first);
            var j := SettleIndex(run.replies, After(k, o.pages));
            o.result.Failure? ==>
              && BatchFrom(run.parse, ReplyAt(run.replies, j), LastVars(pageVariables, o.pages)) == Failure(o.result.error)
              && o.served == j + 1
  {
    var o := Follow(run, k, pageVariables, allData, first);
    var page := Fetch(pageVariables, SettleIndex(run.replies, k) + 1 - k, b);
    assert o == Outcome(rest.result, rest.served, [page] + rest.pages);
    PagesCons(k, pageVariables, page, rest.pages);
  }

  /** `After` and `LastVars` of a run seen from its second page on. */
  lemma PagesCons(k: nat, variables: Vars, page: Fetch, pages: seq<Fetch>)
    ensures After(k, [page] + pages) == After(k + page.tries, pages)
    ensures LastVars(variables, [page] + pages) == LastVars(page.batch.nextVariables, pages)
  {
    assert ([page] + pages)[1..] == pages;
  }

  /** Without a cap, a run that ends normally fetched pages until the first
      one reporting no next page and returns every record of every page, in
      page order. */
  lemma QueryAllUncapped(run: Run, k: nat, variables: Vars)
    requires run.cap == 0
    ensures var o := QueryAllFrom(run, k, variables);
            o.result.Success? ==>
              && o.result.value == Records(o.pages)
              && |o.pages| > 0
              && (forall i :: 0 <= i < |o.pages| - 1 ==> HasNext(o.pages[i]))
              && !HasNext(o.pages[|o.pages| - 1])
  {
    var o := QueryAllFrom(run, k, variables);
    FollowResult(run, k, variables, [], true);
    FollowStops(run, k, variables, [], true);
    if o.result.Success? {
      assert [] + Records(o.pages) == Records(o.pages);
      forall i | 0 <= i < |o.pages| - 1 ensures HasNext(o.pages[i]) {
        assert Continues([], true, o.pages, i, 0);
      }
      assert !Continues([], true, o.pages, |o.pages| - 1, 0);
    }
  }

  /** With a positive cap, a run that ends normally returns a prefix of the
      records of its pages, of the cap's length unless there are fewer. */
  lemma QueryAllCapped(run: Run, k: nat, variables: Vars)
    requires run.cap > 0
    ensures var o := QueryAllFrom(run, k, variables);
            o.result.Success? ==>
              && o.result.value <= Records(o.pages)
              && |o.result.value| <= run.cap
              && |o.result.value| == if |Records(o.pages)| < run.cap then |Records(o.pages)| else run.cap
  {
    FollowResult(run, k, variables, [], true);
    assert [] + Records(QueryAllFrom(run, k, variables).pages) == Records(QueryAllFrom(run, k, variables).pages);
  }

  /** The cap is not tested after the first page: a run that ends normally
      and whose first page reports a next page fetched at least one more;
      if the first page alone reached a positive cap, it fetched exactly one
      more. */
  lemma QueryAllFirstPage(run: Run, k: nat, variables: Vars)
    ensures var o := QueryAllFrom(run, k, variables);
            o.result.Success? && HasNext(o.pages[0]) ==>
              && |o.pages| >= 2
              && (CapReached(|o.pages[0].batch.records|, run.cap) ==> |o.pages| == 2)
  {
    var o := QueryAllFrom(run, k, variables);
    FollowStops(run, k, variables, [], true);
    if o.result.Success? && HasNext(o.pages[0]) {
      assert o.pages[..1] == [o.pages[0]];
      assert Records([o.pages[0]]) == o.pages[0].batch.records;
      assert Continues([], true, o.pages, 0, run.cap);
      if CapReached(|o.pages[0].batch.records|, run.cap) && |o.pages| > 2 {
        assert Continues([], true, o.pages, 1, run.cap);
        RecordsPrefixGrows(o.pages, 1);
        assert false;
      }
    }
  }

  /** Records accumulate page by page: one more page appends its records. */
  lemma {:induction false} RecordsPrefixGrows(pages: seq<Fetch>, i: nat)
    requires i < |pages|
    ensures Records(pages[..i + 1]) == Records(pages[..i]) + pages[i].batch.records
    decreases i
  {
    if i == 0 {
      assert pages[..1] == [pages[0]];
      assert Records([pages[0]]) == pages[0].batch.records;
    } else {
      RecordsPrefixGrows(pages[1..], i - 1);
      assert pages[..i + 1][1..] == pages[1..][..i];
      assert pages[..i][1..] == pages[1..][..i - 1];
    }
  }

  /** With a positive cap, a run that ends normally stops after the first
      page, past the first, that brings the records to the cap, never in
      the middle of a page: every page it went on after (but the first)
      left the records below the cap, and it stopped because the last page
      reported no next page or reached the cap. */
  lemma QueryAllStopsAtCap(run: Run, k: nat, variables: Vars)
    requires run.cap > 0
    ensures var o := QueryAllFrom(run, k, variables);
            o.result.Success? ==>
              && (forall i :: 0 < i < |o.pages| - 1 ==> |RecordsThrough(o.pages, i)| < run.cap)
              && (!HasNext(o.pages[|o.pages| - 1]) || (|o.pages| > 1 && |Records(o.pages)| >= run.cap))
  {
    var o := QueryAllFrom(run, k, variables);
    FollowStops(run, k, variables, [], true);
    if o.result.Success? {
      forall i | 0 < i < |o.pages| - 1 ensures |RecordsThrough(o.pages, i)| < run.cap {
        assert Continues([], true, o.pages, i, run.cap);
        assert [] + RecordsThrough(o.pages, i) == RecordsThrough(o.pages, i);
      }
      var last := |o.pages| - 1;
      assert !Continues([], true, o.pages, last, run.cap);
      assert o.pages[..last + 1] == o.pages;
      assert [] + Records(o.pages) == Records(o.pages);
    }
  }

  // -------------------------------------------------------------- the class

  /** `Query`: a parser class and a session with its proxies. */
  class Query {
    const parse: Parser
    const proxies: map<string, string>
    const origin: Origin

    constructor (parse: Parser, origin: Origin, httpProxy: Option<string>, httpsProxy: Option<string>)
      ensures this.parse == parse && this.origin == origin
      ensures proxies == ProxiesOf(httpProxy, httpsProxy)
    {
      this.parse := parse;
      this.origin := origin;
      var p := InitProxies(httpProxy, httpsProxy);
      this.proxies := p;
    }

    /** `query_batch`: sends the request until a reply is not "not ready",
        then parses that reply with the original variables. */
    method QueryBatch(queryHash: string, variables: Vars) returns (r: Result<Batch, QueryError>)
      modifies origin
      ensures origin.served == SettleIndex(origin.replies, old(origin.served)) + 1
      ensures origin.sent == old(origin.sent) + Repeat(Request(queryHash, variables, proxies), origin.served - old(origin.served))
      ensures r == BatchFrom(parse, ReplyAt(origin.replies, origin.served - 1), variables)
      ensures r.Success? ==> origin.served <= |origin.replies|
    {
      var request := Request(queryHash, variables, proxies);
      var reply := origin.Get(request);
      while Retries(reply)
        invariant old(origin.served) < origin.served
        invariant reply == ReplyAt(origin.replies, origin.served - 1)
        invariant forall m :: old(origin.served) <= m < origin.served - 1 ==> Retries(ReplyAt(origin.replies, m))
        invariant origin.sent == old(origin.sent) + Repeat(request, origin.served - old(origin.served))
        decreases |origin.replies| - origin.served
      {
        reply := origin.Get(request);
      }
      SettleIndexAt(origin.replies, old(origin.served), origin.served - 1);
      if reply.Raised? {
        return Failure(TransportFailed);
      }
      if ReadinessOf(reply.data) == ProbeRaises {
        return Failure(StatusProbeFailed);
      }
      var parsed := parse(reply.data, variables);
      if parsed.None? {
        return Failure(ParseFailed);
      }
      return Success(parsed.value);
    }

    /** `query_all`: follows the cursor from page to page, from the first
        page on, until a page reports no next one or, after the first page,
        the records reach the cap; then truncates to the cap. */
    method QueryAll(queryHash: string, variables: Vars, totalCount: int) returns (r: Result<seq<Record>, QueryError>)
      modifies origin
      ensures var o := QueryAllFrom(Run(parse, origin.replies, queryHash, proxies, totalCount), old(origin.served), variables);
              && r == o.result
              && origin.served == o.served
    {
      ghost var run := Run(parse, origin.replies, queryHash, proxies, totalCount);
      ghost var whole := QueryAllFrom(run, origin.served, variables);
      var allData: seq<Record> := [];
      var pageVariables := variables;
      var more, firstPage := true, true;
      while more
        invariant more ==>
                    var rest := Follow(run, origin.served, pageVariables, allData, firstPage);
                    whole.result == rest.result && whole.served == rest.served
        invariant !more ==>
                    whole.result == Success(Truncated(allData, totalCount)) && whole.served == origin.served
        invariant !firstPage ==> origin.served <= |origin.replies|
        decreases |origin.replies| + 1 - origin.served
      {
        ghost var before := origin.served;
        var next := QueryBatch(queryHash, pageVariables);
        FollowUnfold(run, before, pageVariables, allData, firstPage, origin.served, next);
        if next.Failure? {
          return next.PropagateFailure();
        }
        allData := allData + next.value.records;
        more := Truthy(next.value.pageInfo.hasNext) && !(!firstPage && CapReached(|allData|, totalCount));
        firstPage := false;
        pageVariables := next.value.nextVariables;
      }
      r := Success(Truncated(allData, totalCount));
    }
  }
}
