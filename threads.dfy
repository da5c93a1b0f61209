/** The thread and reply callers (`@/services/threads`). */
module Threads {
  import opened Common
  import opened Url

  datatype ThreadListParams = ThreadListParams(
    categoryId: Option<string>, page: Option<int>, pageSize: Option<int>, sort: Option<string>)

  datatype ReplyListParams = ReplyListParams(page: Option<int>, pageSize: Option<int>, sort: Option<string>)

  datatype ThreadOptions = ThreadOptions(password: Option<string>)

  /** `params?.x` reads `undefined` for every field when `params` is absent. */
  function GivenThreadParams(params: Option<ThreadListParams>): (r: ThreadListParams) {
    if params.Some? then params.value else ThreadListParams(None, None, None, None)
  }

  function GivenReplyParams(params: Option<ReplyListParams>): (r: ReplyListParams) {
    if params.Some? then params.value else ReplyListParams(None, None, None)
  }

  /** One pair when the text is truthy, none otherwise. */
  function TextPair(name: string, value: Option<string>): (r: Entries) {
    if TruthyString(value) then [(name, value.value)] else []
  }

  /** One pair when the number is truthy (so 0 is left out), none otherwise. */
  function NumberPair(name: string, value: Option<int>): (r: Entries) {
    if TruthyNumber(value) then [(name, NumberToString(value.value))] else []
  }

  lemma PairNames(name: string, text: Option<string>, number: Option<int>)
    ensures Names(TextPair(name, text)) == if TruthyString(text) then [name] else []
    ensures Names(NumberPair(name, number)) == if TruthyNumber(number) then [name] else []
  {
    assert [(name, "")][1..] == [];
  }

  /** The query `listThreads` sends, as a specification of the builder calls. */
  function ThreadQuery(p: ThreadListParams): (r: Entries) {
    TextPair("category_id", p.categoryId) + NumberPair("page", p.page)
      + NumberPair("page_size", p.pageSize) + TextPair("sort", p.sort)
  }

  /** The query `listReplies` sends. */
  function ReplyQuery(p: ReplyListParams): (r: Entries) {
    NumberPair("page", p.page) + NumberPair("page_size", p.pageSize) + TextPair("sort", p.sort)
  }

  /** `[name]` when the parameter is included, `[]` otherwise. */
  function NameIf(included: bool, name: string): (r: seq<string>) {
    if included then [name] else []
  }

  /** The thread-list query names exactly the truthy parameters, in the
      order category_id, page, page_size, sort (so a zero page or page size
      is left out). */
  lemma ThreadQueryNames(p: ThreadListParams)
    ensures Names(ThreadQuery(p)) ==
      NameIf(TruthyString(p.categoryId), "category_id") + NameIf(TruthyNumber(p.page), "page")
      + NameIf(TruthyNumber(p.pageSize), "page_size") + NameIf(TruthyString(p.sort), "sort")
    ensures HasName(ThreadQuery(p), "category_id") <==> TruthyString(p.categoryId)
    ensures HasName(ThreadQuery(p), "page") <==> TruthyNumber(p.page)
    ensures HasName(ThreadQuery(p), "page_size") <==> TruthyNumber(p.pageSize)
    ensures HasName(ThreadQuery(p), "sort") <==> TruthyString(p.sort)
  {
    var a, b, c, d := TextPair("category_id", p.categoryId), NumberPair("page", p.page),
                      NumberPair("page_size", p.pageSize), TextPair("sort", p.sort);
    PairNames("category_id", p.categoryId, None);
    PairNames("page", None, p.page);
    PairNames("page_size", None, p.pageSize);
    PairNames("sort", p.sort, None);
    NamesConcat(a, b);
    NamesConcat(a + b, c);
    NamesConcat(a + b + c, d);
  }

  /** Each parameter the thread-list query carries has the value it was given
      (numbers in decimal). */
  lemma ThreadQueryValues(p: ThreadListParams)
    ensures TruthyString(p.categoryId) ==> Lookup(ThreadQuery(p), "category_id") == Some(p.categoryId.value)
    ensures TruthyNumber(p.page) ==> Lookup(ThreadQuery(p), "page") == Some(NumberToString(p.page.value))
    ensures TruthyNumber(p.pageSize) ==> Lookup(ThreadQuery(p), "page_size") == Some(NumberToString(p.pageSize.value))
    ensures TruthyString(p.sort) ==> Lookup(ThreadQuery(p), "sort") == Some(p.sort.value)
  {
    var a, b, c, d := TextPair("category_id", p.categoryId), NumberPair("page", p.page),
                      NumberPair("page_size", p.pageSize), TextPair("sort", p.sort);
    assert ThreadQuery(p) == a + (b + (c + d));
    PairNames("category_id", p.categoryId, None);
    PairNames("page", None, p.page);
    PairNames("page_size", None, p.pageSize);
    PairNames("sort", p.sort, None);
    LookupConcat(a, b + (c + d), "category_id");
    LookupConcat(a, b + (c + d), "page");
    LookupConcat(b, c + d, "page");
    LookupConcat(a, b + (c + d), "page_size");
    LookupConcat(b, c + d, "page_size");
    LookupConcat(c, d, "page_size");
    LookupConcat(a, b + (c + d), "sort");
    LookupConcat(b, c + d, "sort");
    LookupConcat(c, d, "sort");
  }

  /** With no truthy parameter the URL is exactly `/threads`, with no `?`. */
  lemma ThreadsUrlBare(p: ThreadListParams)
    ensures WithQuery("/threads", ThreadQuery(p)) == "/threads" <==>
      !TruthyString(p.categoryId) && !TruthyNumber(p.page) && !TruthyNumber(p.pageSize) && !TruthyString(p.sort)
  {
    WithQueryBareIff("/threads", ThreadQuery(p));
  }

  /** A well-formed thread list: an object whose `threads` is an array. */
  predicate IsThreadList(d: Json) {
    d.Obj? && "threads" in d.fields && d.fields["threads"].Arr?
  }

  /** The empty page `listThreads` substitutes; `page_size` is `params?.page_size || 20`. */
  function EmptyThreadList(pageSize: Option<int>): (r: Json) {
    Obj(map[
      "threads" := Arr([]), "total" := Num(0), "page" := Num(1),
      "page_size" := Num(OrDefault(pageSize, 20)), "total_pages" := Num(0)])
  }

  /** The defensive fallback: a well-formed response is kept as it is; a
      malformed one or a rejection becomes the empty page, so the caller always
      gets a well-formed thread list and never a rejection. */
  function ThreadListOrFallback(reply: Outcome<Json>, pageSize: Option<int>): (r: Json)
    ensures IsThreadList(r)
    ensures reply.Resolved? && IsThreadList(reply.value) ==> r == reply.value
    ensures !(reply.Resolved? && IsThreadList(reply.value)) ==> r == EmptyThreadList(pageSize)
  {
    if reply.Resolved? && IsThreadList(reply.value) then reply.value else EmptyThreadList(pageSize)
  }

  /** Running the fallback on its own output changes nothing. */
  lemma FallbackIdempotent(reply: Outcome<Json>, pageSize: Option<int>)
    ensures var once := ThreadListOrFallback(reply, pageSize);
      ThreadListOrFallback(Resolved(once), pageSize) == once
  {
  }

  /** `listThreads`: the query is built by successive `set` calls, the URL
      gets `?query` only when the query is not empty, and the response goes
      through the fallback. */
  method ListThreads(params: Option<ThreadListParams>, server: Server) returns (request: Request, result: Json)
    ensures request == Request(Get, WithQuery("/threads", ThreadQuery(GivenThreadParams(params))), None, None)
    ensures result == ThreadListOrFallback(server(request), GivenThreadParams(params).pageSize)
  {
    var p := GivenThreadParams(params);
    var searchParams := new SearchParams();
    if TruthyString(p.categoryId) {
      searchParams.Set("category_id", p.categoryId.value);
    }
    assert searchParams.entries == TextPair("category_id", p.categoryId);
    PairNames("category_id", p.categoryId, None);
    PairNames("page", None, p.page);
    PairNames("page_size", None, p.pageSize);
    if TruthyNumber(p.page) {
      SetNewNameAppends(searchParams.entries, "page", NumberToString(p.page.value));
      searchParams.Set("page", NumberToString(p.page.value));
    }
    assert searchParams.entries == TextPair("category_id", p.categoryId) + NumberPair("page", p.page);
    NamesConcat(TextPair("category_id", p.categoryId), NumberPair("page", p.page));
    if TruthyNumber(p.pageSize) {
      SetNewNameAppends(searchParams.entries, "page_size", NumberToString(p.pageSize.value));
      searchParams.Set("page_size", NumberToString(p.pageSize.value));
    }
    assert searchParams.entries == TextPair("category_id", p.categoryId) + NumberPair("page", p.page)
      + NumberPair("page_size", p.pageSize);
    NamesConcat(TextPair("category_id", p.categoryId) + NumberPair("page", p.page), NumberPair("page_size", p.pageSize));
    if TruthyString(p.sort) {
      SetNewNameAppends(searchParams.entries, "sort", p.sort.value);
      searchParams.Set("sort", p.sort.value);
    }
    assert searchParams.entries == ThreadQuery(p);
    var qs := searchParams.ToString();
    var url := "/threads" + (if qs != "" then "?" + qs else "");
    request := Request(Get, url, None, None);
    result := ThreadListOrFallback(server(request), p.pageSize);
  }

  /** `listReplies`: the same truthy-only query rule, and no fallback: the
      server's answer, failures included, reaches the caller unchanged. */
  method ListReplies(threadId: string, params: Option<ReplyListParams>, server: Server)
    returns (request: Request, result: Outcome<Json>)
    ensures request == Request(Get, WithQuery("/threads/" + threadId + "/replies", ReplyQuery(GivenReplyParams(params))), None, None)
    ensures result == server(request)
  {
    var p := GivenReplyParams(params);
    var searchParams := new SearchParams();
    if TruthyNumber(p.page) {
      searchParams.Set("page", NumberToString(p.page.value));
    }
    assert searchParams.entries == NumberPair("page", p.page);
    PairNames("page", None, p.page);
    PairNames("page_size", None, p.pageSize);
    if TruthyNumber(p.pageSize) {
      SetNewNameAppends(searchParams.entries, "page_size", NumberToString(p.pageSize.value));
      searchParams.Set("page_size", NumberToString(p.pageSize.value));
    }
    assert searchParams.entries == NumberPair("page", p.page) + NumberPair("page_size", p.pageSize);
    NamesConcat(NumberPair("page", p.page), NumberPair("page_size", p.pageSize));
    if TruthyString(p.sort) {
      SetNewNameAppends(searchParams.entries, "sort", p.sort.value);
      searchParams.Set("sort", p.sort.value);
    }
    assert searchParams.entries == ReplyQuery(p);
    var qs := searchParams.ToString();
    var url := "/threads/" + threadId + "/replies" + (if qs != "" then "?" + qs else "");
    request := Request(Get, url, None, None);
    result := server(request);
  }

  /** The reply query holds exactly the truthy parameters. */
  lemma ReplyQueryShape(p: ReplyListParams)
    ensures var q := ReplyQuery(p);
      && (HasName(q, "page") <==> TruthyNumber(p.page))
      && (HasName(q, "page_size") <==> TruthyNumber(p.pageSize))
      && (HasName(q, "sort") <==> TruthyString(p.sort))
      && !HasName(q, "category_id")
  {
    var a, b, c := NumberPair("page", p.page), NumberPair("page_size", p.pageSize), TextPair("sort", p.sort);
    assert ReplyQuery(p) == a + (b + c);
    PairNames("page", None, p.page);
    PairNames("page_size", None, p.pageSize);
    PairNames("sort", p.sort, None);
    NamesConcat(b, c);
    NamesConcat(a, b + c);
  }

  function ThreadPath(id: string): (r: string) {
    "/threads/" + id
  }

  /** `getThread`'s params object: `password` only when a non-empty one is given. */
  function ThreadParams(opts: Option<ThreadOptions>): (r: Params) {
    if opts.Some? && TruthyString(opts.value.password) then [("password", Text(opts.value.password.value))] else []
  }

  function CreateThread(data: Json, server: Server): (r: Outcome<Json>) {
    server(Request(Post, "/threads", None, Some(data)))
  }

  function GetThread(id: string, opts: Option<ThreadOptions>, server: Server): (r: Outcome<Json>) {
    server(Request(Get, ThreadPath(id), Some(ThreadParams(opts)), None))
  }

  function UpdateThread(id: string, data: Json, server: Server): (r: Outcome<Json>) {
    server(Request(Put, ThreadPath(id), None, Some(data)))
  }

  function DeleteThread(id: string, server: Server): (r: Outcome<Json>) {
    server(Request(Delete, ThreadPath(id), None, None))
  }

  function CreateReply(threadId: string, data: Json, server: Server): (r: Outcome<Json>) {
    server(Request(Post, ThreadPath(threadId) + "/replies", None, Some(data)))
  }

  /** `getThread` sends a `password` parameter exactly when a non-empty
      password is given, and always sends a params object. */
  lemma GetThreadPassword(id: string, opts: Option<ThreadOptions>, server: Server)
    ensures |ThreadParams(opts)| <= 1
    ensures ThreadParams(opts) != [] <==> opts.Some? && TruthyString(opts.value.password)
    ensures ThreadParams(opts) != [] ==> ThreadParams(opts)[0] == ("password", Text(opts.value.password.value))
    ensures GetThread(id, opts, server) == server(Request(Get, ThreadPath(id), Some(ThreadParams(opts)), None))
  {
  }

  /** The thread writes hand back the server's answer unchanged and reject
      whenever the server does, unlike `listThreads`, which never rejects. */
  lemma WritesPropagate(id: string, data: Json, server: Server)
    ensures CreateThread(data, server) == server(Request(Post, "/threads", None, Some(data)))
    ensures UpdateThread(id, data, server) == server(Request(Put, ThreadPath(id), None, Some(data)))
    ensures DeleteThread(id, server) == server(Request(Delete, ThreadPath(id), None, None))
  {
  }

  /** `createReply` posts to the thread's replies path and hands back the
      server's answer, rejection included. */
  lemma ReplyWritePropagates(threadId: string, data: Json, server: Server)
    ensures CreateReply(threadId, data, server) ==
      server(Request(Post, ThreadPath(threadId) + "/replies", None, Some(data)))
  {
  }
}
