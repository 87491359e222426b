/** The three page parsers. Each reads one edge connection of the response:
    its `edges` become flat records (one per edge, in edge order), its
    `page_info.end_cursor` becomes the next request's `after` variable, and
    its `page_info` becomes the page-info dict the pagination loop tests. */
module Parsers {
  import opened Py
  import opened Json

  datatype ParserKind = PostParser | CommentParser | TagPostParser

  /** Stands for `datetime.fromtimestamp(int(ts)).strftime(...)`: a string,
      or None where `int` or `fromtimestamp` raises. It depends on the local
      time zone, so the model takes it as a parameter. */
  type TimeFormatter = Json -> Option<string>

  /** The subscript chain from the response root to the parser's connection. */
  function ConnectionPath(kind: ParserKind): seq<Key> {
    match kind
    case PostParser => [Field("data"), Field("user"), Field("edge_owner_to_timeline_media")]
    case CommentParser => [Field("data"), Field("shortcode_media"), Field("edge_media_to_parent_comment")]
    case TagPostParser => [Field("data"), Field("hashtag"), Field("edge_hashtag_to_media")]
  }

  function EdgesPath(kind: ParserKind): seq<Key> {
    ConnectionPath(kind) + [Field("edges")]
  }

  function PageInfoPath(kind: ParserKind): seq<Key> {
    ConnectionPath(kind) + [Field("page_info")]
  }

  function CursorPath(kind: ParserKind): seq<Key> {
    PageInfoPath(kind) + [Field("end_cursor")]
  }

  function HasNextPath(kind: ParserKind): seq<Key> {
    PageInfoPath(kind) + [Field("has_next_page")]
  }

  // ---------------------------------------------------------------- get_info

  const CaptionTextPath: seq<Key> :=
    [Field("edge_media_to_caption"), Field("edges"), Index(0), Field("node"), Field("text")]

  /** `PostParser.get_info` and `TagPostParser.get_info`: one dict literal;
      any missing source field raises. */
  function PostInfo(node: Json, formatTime: TimeFormatter): Option<Record> {
    var id :- Lookup(node, [Field("id")]);
    var shortCode :- Lookup(node, [Field("shortcode")]);
    var text :- Lookup(node, CaptionTextPath);
    var displayUrl :- Lookup(node, [Field("display_url")]);
    var timestamp :- Lookup(node, [Field("taken_at_timestamp")]);
    var time :- formatTime(timestamp);
    var likes :- Lookup(node, [Field("edge_media_preview_like"), Field("count")]);
    var comments :- Lookup(node, [Field("edge_media_to_comment"), Field("count")]);
    Some(PostRecord(id, shortCode, text, displayUrl, timestamp, time, likes, comments))
  }

  /** The dict literal of a post record, field by field. */
  function PostRecord(id: Json, shortCode: Json, text: Json, displayUrl: Json, timestamp: Json,
                      time: string, likes: Json, comments: Json): (r: Record)
    ensures r.Keys == {"id", "short_code", "text", "display_image_url", "timestamp",
                       "formatted-time", "likes_count", "comments_count"}
    ensures r["id"] == id && r["short_code"] == shortCode && r["text"] == text
    ensures r["display_image_url"] == displayUrl && r["timestamp"] == timestamp
    ensures r["formatted-time"] == Str(time) && r["likes_count"] == likes && r["comments_count"] == comments
  {
    map["id" := id, "short_code" := shortCode, "text" := text, "display_image_url" := displayUrl,
        "timestamp" := timestamp, "formatted-time" := Str(time), "likes_count" := likes,
        "comments_count" := comments]
  }

  /** `CommentParser.get_info`. */
  function CommentInfo(node: Json, formatTime: TimeFormatter): Option<Record> {
    var id :- Lookup(node, [Field("id")]);
    var timestamp :- Lookup(node, [Field("created_at")]);
    var time :- formatTime(timestamp);
    var text :- Lookup(node, [Field("text")]);
    var username :- Lookup(node, [Field("owner"), Field("username")]);
    var likes :- Lookup(node, [Field("edge_liked_by"), Field("count")]);
    Some(map["id" := id, "timestamp" := timestamp, "formatted-time" := Str(time), "text" := text,
             "username" := username, "likes_count" := likes])
  }

  function GetInfo(kind: ParserKind, node: Json, formatTime: TimeFormatter): Option<Record> {
    if kind == CommentParser then CommentInfo(node, formatTime) else PostInfo(node, formatTime)
  }

  /** A post or tag-post record exists exactly when every source field does
      and the timestamp formats. */
  lemma PostInfoDefined(node: Json, formatTime: TimeFormatter)
    ensures PostInfo(node, formatTime).Some? <==>
              && Lookup(node, [Field("id")]).Some?
              && Lookup(node, [Field("shortcode")]).Some?
              && Lookup(node, CaptionTextPath).Some?
              && Lookup(node, [Field("display_url")]).Some?
              && Lookup(node, [Field("taken_at_timestamp")]).Some?
              && formatTime(Lookup(node, [Field("taken_at_timestamp")]).value).Some?
              && Lookup(node, [Field("edge_media_preview_like"), Field("count")]).Some?
              && Lookup(node, [Field("edge_media_to_comment"), Field("count")]).Some?
  {
  }

  /** A post or tag-post record has exactly the eight output fields, each
      copied from its source field; `formatted-time` is the formatting of
      `timestamp`. */
  lemma PostInfoFields(node: Json, formatTime: TimeFormatter)
    requires PostInfo(node, formatTime).Some?
    ensures var r := PostInfo(node, formatTime).value;
              && r.Keys == {"id", "short_code", "text", "display_image_url", "timestamp",
                            "formatted-time", "likes_count", "comments_count"}
              && Lookup(node, [Field("id")]) == Some(r["id"])
              && Lookup(node, [Field("shortcode")]) == Some(r["short_code"])
              && Lookup(node, CaptionTextPath) == Some(r["text"])
              && Lookup(node, [Field("display_url")]) == Some(r["display_image_url"])
              && Lookup(node, [Field("taken_at_timestamp")]) == Some(r["timestamp"])
              && r["formatted-time"].Str?
              && formatTime(r["timestamp"]) == Some(r["formatted-time"].s)
              && Lookup(node, [Field("edge_media_preview_like"), Field("count")]) == Some(r["likes_count"])
              && Lookup(node, [Field("edge_media_to_comment"), Field("count")]) == Some(r["comments_count"])
  {
    var timestamp := Lookup(node, [Field("taken_at_timestamp")]).value;
    var r := PostRecord(Lookup(node, [Field("id")]).value, Lookup(node, [Field("shortcode")]).value,
                        Lookup(node, CaptionTextPath).value, Lookup(node, [Field("display_url")]).value,
                        timestamp, formatTime(timestamp).value,
                        Lookup(node, [Field("edge_media_preview_like"), Field("count")]).value,
                        Lookup(node, [Field("edge_media_to_comment"), Field("count")]).value);
    assert PostInfo(node, formatTime) == Some(r);
  }

  /** A comment record exists exactly when every source field does and the
      timestamp formats; `username` comes from `owner.username` and
      `likes_count` from `edge_liked_by.count`. */
  lemma CommentInfoFields(node: Json, formatTime: TimeFormatter)
    ensures CommentInfo(node, formatTime).Some? <==>
              && Lookup(node, [Field("id")]).Some?
              && Lookup(node, [Field("created_at")]).Some?
              && formatTime(Lookup(node, [Field("created_at")]).value).Some?
              && Lookup(node, [Field("text")]).Some?
              && Lookup(node, [Field("owner"), Field("username")]).Some?
              && Lookup(node, [Field("edge_liked_by"), Field("count")]).Some?
    ensures CommentInfo(node, formatTime).Some? ==>
              var r := CommentInfo(node, formatTime).value;
              && r.Keys == {"id", "timestamp", "formatted-time", "text", "username", "likes_count"}
              && Lookup(node, [Field("id")]) == Some(r["id"])
              && Lookup(node, [Field("created_at")]) == Some(r["timestamp"])
              && r["formatted-time"].Str?
              && formatTime(r["timestamp"]) == Some(r["formatted-time"].s)
              && Lookup(node, [Field("text")]) == Some(r["text"])
              && Lookup(node, [Field("owner"), Field("username")]) == Some(r["username"])
              && Lookup(node, [Field("edge_liked_by"), Field("count")]) == Some(r["likes_count"])
  {
  }

  // -------------------------------------------------------------- parse_data

  /** The elements `for edge in edges` visits, where visiting them can lead
      anywhere but an exception: a list yields its elements; an empty dict or
      string yields nothing. A non-empty dict yields its keys and a non-empty
      string its characters, and `edge['node']` then raises on the first one,
      so those are failures here; other values are not iterable. */
  function Visited(edges: Json): Option<seq<Json>> {
    match edges
    case Arr(xs) => Some(xs)
    case Obj(m) => if m == map[] then Some([]) else None
    case Str(s) => if s == "" then Some([]) else None
    case _ => None
  }

  /** `get_info(edge['node'])` for one edge. */
  function EdgeInfo(kind: ParserKind, edge: Json, formatTime: TimeFormatter): Option<Record> {
    var node :- Sub(edge, Field("node"));
    GetInfo(kind, node, formatTime)
  }

  /** The records of a list of edges, in order; None if any edge fails. */
  function DecodeEdges(kind: ParserKind, edges: seq<Json>, formatTime: TimeFormatter): Option<seq<Record>> {
    MapAll((edge: Json) => EdgeInfo(kind, edge, formatTime), edges)
  }

  /** What `parse_data` returns or raises (None): the records of the edges.
      `CommentParser` catches every failure and returns no records instead. */
  function ParsedData(kind: ParserKind, data: Json, formatTime: TimeFormatter): Option<seq<Record>> {
    var decoded :=
      var listed :- Lookup(data, EdgesPath(kind));
      var edges :- Visited(listed);
      DecodeEdges(kind, edges, formatTime);
    if kind == CommentParser then Some(decoded.GetOr([])) else decoded
  }

  /** `CommentParser.parse_data` never raises; the post and tag-post
      parsers raise exactly when finding or decoding the edges fails, where
      the comment parser returns no records instead. */
  lemma ParsedDataFailures(kind: ParserKind, data: Json, formatTime: TimeFormatter)
    ensures ParsedData(CommentParser, data, formatTime).Some?
    ensures kind != CommentParser ==>
              (ParsedData(kind, data, formatTime).None? <==>
                 (Lookup(data, EdgesPath(kind)).None?
                  || Visited(Lookup(data, EdgesPath(kind)).value).None?
                  || DecodeEdges(kind, Visited(Lookup(data, EdgesPath(kind)).value).value, formatTime).None?))
    ensures (Lookup(data, EdgesPath(kind)).None?
             || Visited(Lookup(data, EdgesPath(kind)).value).None?
             || DecodeEdges(kind, Visited(Lookup(data, EdgesPath(kind)).value).value, formatTime).None?) ==>
              ParsedData(kind, data, formatTime) == if kind == CommentParser then Some([]) else None
  {
  }

  /** Whenever `parse_data` finds the edge list and decodes it, the records
      are one per edge, in edge order, each the `get_info` of its node. */
  lemma ParsedDataPerEdge(kind: ParserKind, data: Json, formatTime: TimeFormatter)
    requires Lookup(data, EdgesPath(kind)).Some?
    requires Visited(Lookup(data, EdgesPath(kind)).value).Some?
    ensures var edges := Visited(Lookup(data, EdgesPath(kind)).value).value;
            (forall i :: 0 <= i < |edges| ==> EdgeInfo(kind, edges[i], formatTime).Some?) ==>
              && ParsedData(kind, data, formatTime).Some?
              && |ParsedData(kind, data, formatTime).value| == |edges|
              && forall i :: 0 <= i < |edges| ==>
                   EdgeInfo(kind, edges[i], formatTime) == Some(ParsedData(kind, data, formatTime).value[i])
  {
    var edges := Visited(Lookup(data, EdgesPath(kind)).value).value;
    MapAllSpec((edge: Json) => EdgeInfo(kind, edge, formatTime), edges);
  }

  /** `parse_data`: the loop appends one record per edge. */
  method ParseData(kind: ParserKind, data: Json, formatTime: TimeFormatter) returns (parsed: Option<seq<Record>>)
    ensures parsed == ParsedData(kind, data, formatTime)
  {
    var listed := Lookup(data, EdgesPath(kind));
    var edges := if listed.Some? then Visited(listed.value) else None;
    if edges.None? {
      return if kind == CommentParser then Some([]) else None;
    }
    var decoded := DecodeEach((edge: Json) => EdgeInfo(kind, edge, formatTime), edges.value);
    if decoded.None? {
      return if kind == CommentParser then Some([]) else None;
    }
    return decoded;
  }

  /** The loop of `parse_data`: `get_info` of each edge in turn, appended to
      the result list; the first edge that raises ends the loop. */
  method DecodeEach(decode: Json -> Option<Record>, xs: seq<Json>) returns (decoded: Option<seq<Record>>)
    ensures decoded == MapAll(decode, xs)
  {
    var records: seq<Record> := [];
    for i := 0 to |xs|
      invariant MapAll(decode, xs[..i]) == Some(records)
    {
      var info := decode(xs[i]);
      if info.None? {
        MapAllSpec(decode, xs);
        return None;
      }
      assert xs[..i + 1][..i] == xs[..i];
      records := records + [info.value];
    }
    assert xs[..|xs|] == xs;
    return Some(records);
  }

  // ------------------------------------------------- next variables, page info

  /** `parse_next_variables`: a copy of the request variables whose `after`
      is the connection's `page_info.end_cursor`. */
  function NextVariables(kind: ParserKind, data: Json, variables: Vars): (next: Option<Vars>)
    ensures next.Some? <==> Lookup(data, CursorPath(kind)).Some?
    ensures next.Some? ==>
              && next.value.Keys == variables.Keys + {"after"}
              && Some(next.value["after"]) == Lookup(data, CursorPath(kind))
              && forall k :: k in variables && k != "after" ==> next.value[k] == variables[k]
  {
    LookupThen(data, PageInfoPath(kind), Field("end_cursor"));
    var info :- Lookup(data, PageInfoPath(kind));
    var cursor :- Sub(info, Field("end_cursor"));
    Some(variables["after" := cursor])
  }

  /** The page-info dict: the continuation token under a parser-specific key,
      and the raw `has_next_page` under "has_next". */
  datatype PageInfo = PageInfo(tokenKey: string, token: Json, hasNext: Json)

  function TokenKey(kind: ParserKind): string {
    if kind == CommentParser then "after_comment_token" else "after_post_token"
  }

  /** `parse_page_info`. */
  function ParsePageInfo(kind: ParserKind, data: Json): (info: Option<PageInfo>)
    ensures info.Some? <==> Lookup(data, CursorPath(kind)).Some? && Lookup(data, HasNextPath(kind)).Some?
    ensures info.Some? ==>
              && Some(info.value.token) == Lookup(data, CursorPath(kind))
              && Some(info.value.hasNext) == Lookup(data, HasNextPath(kind))
              && info.value.tokenKey == (if kind == CommentParser then "after_comment_token" else "after_post_token")
  {
    LookupThen(data, PageInfoPath(kind), Field("end_cursor"));
    LookupThen(data, PageInfoPath(kind), Field("has_next_page"));
    var raw :- Lookup(data, PageInfoPath(kind));
    var token :- Sub(raw, Field("end_cursor"));
    var hasNext :- Sub(raw, Field("has_next_page"));
    Some(PageInfo(TokenKey(kind), token, hasNext))
  }
}
