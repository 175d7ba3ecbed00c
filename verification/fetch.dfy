/**
 * `FetchChannels`: the cursor-paginated `users.conversations` listing.
 * The remote side is a function from the request's query parameters to
 * what comes back; a page bound stands in for the server eventually
 * sending an empty cursor.
 */
module Fetch {
  import opened Wrappers
  import opened Text
  import opened Channels
  import opened QueryInterpreter

  /** The plugin settings a fetch reads. */
  datatype Settings = Settings(showArchived: bool, toggles: TypeToggles, team: string)

  /** One query-string parameter. */
  datatype Param = Param(key: string, value: string)

  /** A request, as the parameters its query string carries, in the order they are set. */
  type Request = seq<Param>

  /** The value of `key` in a request, if it carries one. */
  function Lookup(request: Request, key: string): Option<string> {
    if |request| == 0 then None
    else if request[0].key == key then Some(request[0].value)
    else Lookup(request[1..], key)
  }

  /** `bool.ToString()` */
  function BoolText(b: bool): string {
    if b then "True" else "False"
  }

  const LimitParam := Param("limit", "1000")

  /**
   * The query string of one `users.conversations` request: the cursor when
   * there is one, `exclude_archived`, `limit`, `types`, and the team when one
   * is configured; no other parameter, and none twice.
   */
  function RequestParams(settings: Settings, types: string, cursor: string): (request: Request)
    ensures forall i :: 0 <= i < |request| ==>
              request[i].key in {"cursor", "exclude_archived", "limit", "types", "team_id"}
    ensures forall i, j :: 0 <= i < j < |request| ==> request[i].key != request[j].key
  {
    (if cursor == "" then [] else [Param("cursor", cursor)])
    + [Param("exclude_archived", BoolText(!settings.showArchived)), LimitParam, Param("types", types)]
    + (if settings.team == "" then [] else [Param("team_id", settings.team)])
  }

  /**
   * Every request carries `exclude_archived` (the negated archive setting),
   * `limit` 1000 and the `types` list; `cursor` only when the cursor is
   * non-empty; `team_id` only when a team is configured.
   */
  lemma RequestCarries(settings: Settings, types: string, cursor: string)
    ensures var request := RequestParams(settings, types, cursor);
      && Lookup(request, "cursor") == (if cursor == "" then None else Some(cursor))
      && Lookup(request, "exclude_archived") == Some(BoolText(!settings.showArchived))
      && Lookup(request, "limit") == Some("1000")
      && Lookup(request, "types") == Some(types)
      && Lookup(request, "team_id") == (if settings.team == "" then None else Some(settings.team))
  {
    var head := if cursor == "" then [] else [Param("cursor", cursor)];
    var tail := if settings.team == "" then [] else [Param("team_id", settings.team)];
    var fixed := [Param("exclude_archived", BoolText(!settings.showArchived)), LimitParam, Param("types", types)];
    var request := head + fixed + tail;
    assert request == RequestParams(settings, types, cursor);
    forall key | key in {"cursor", "exclude_archived", "limit", "types", "team_id"}
      ensures Lookup(request, key) ==
        if Lookup(head, key).Some? then Lookup(head, key)
        else if Lookup(fixed, key).Some? then Lookup(fixed, key)
        else Lookup(tail, key)
      ensures Lookup(head, key) == if key == "cursor" && cursor != "" then Some(cursor) else None
      ensures Lookup(fixed, key) ==
        if key == "exclude_archived" then Some(fixed[0].value)
        else if key == "limit" then Some("1000")
        else if key == "types" then Some(types)
        else None
      ensures Lookup(tail, key) == if key == "team_id" && settings.team != "" then Some(settings.team) else None
    {
      LookupParts(head, fixed, tail, key);
      LookupThree(fixed[0], fixed[1], fixed[2], key);
      assert fixed == [fixed[0], fixed[1], fixed[2]];
      if cursor != "" { LookupOne(head[0], key); }
      if settings.team != "" { LookupOne(tail[0], key); }
    }
    assert Lookup(request, "cursor") == (if cursor == "" then None else Some(cursor));
    assert Lookup(request, "limit") == Some("1000");
  }

  /** Looking a key up in three parts, the first two of which hold it at most at a known place. */
  lemma LookupParts(a: Request, b: Request, c: Request, key: string)
    ensures Lookup(a + b + c, key) ==
      if Lookup(a, key).Some? then Lookup(a, key)
      else if Lookup(b, key).Some? then Lookup(b, key)
      else Lookup(c, key)
  {
    LookupAppend(a, b + c, key);
    LookupAppend(b, c, key);
    assert a + b + c == a + (b + c);
  }

  lemma LookupOne(p: Param, key: string)
    ensures Lookup([p], key) == if p.key == key then Some(p.value) else None
  {
    assert [p][1..] == [];
  }

  lemma LookupThree(p: Param, q: Param, r: Param, key: string)
    ensures Lookup([p, q, r], key) ==
      if p.key == key then Some(p.value)
      else if q.key == key then Some(q.value)
      else if r.key == key then Some(r.value)
      else None
  {
    assert [p, q, r][1..] == [q, r];
    assert [q, r][1..] == [r];
    LookupOne(r, key);
  }

  lemma LookupAppend(a: Request, b: Request, key: string)
    ensures Lookup(a + b, key) == if Lookup(a, key).Some? then Lookup(a, key) else Lookup(b, key)
  {
    if |a| > 0 {
      assert (a + b)[1..] == a[1..] + b;
      LookupAppend(a[1..], b, key);
    } else {
      assert a + b == b;
    }
  }

  /** `response_metadata`: only its `next_cursor` is read. */
  datatype Metadata = Metadata(nextCursor: Option<string>)

  /** The JSON object of one page; None is an absent field or a JSON null. */
  datatype Document = Document(
    ok: Option<bool>,
    channels: Option<seq<Option<ChannelObject>>>,
    responseMetadata: Option<Metadata>)

  /** A response body: its media type (without parameters) and the JSON it holds (None: the literal null). */
  datatype Content = Content(mediaType: Option<string>, document: Option<Document>)

  /** What one request brings back: an exception from the transport, or a status and a body. */
  datatype HttpOutcome = TransportFailure | Response(status: int, content: Option<Content>)

  /** The remote side, as a function from request to outcome. */
  type Server = Request -> HttpOutcome

  predicate IsSuccessStatus(status: int) {
    200 <= status <= 299
  }

  /** `response_metadata?.next_cursor ?? ""` */
  function NextCursor(doc: Document): string {
    if doc.responseMetadata.Some? then OrEmpty(doc.responseMetadata.value.nextCursor) else ""
  }

  /** A successful response whose body passes every check of the loop: JSON, `ok` true, a `channels` array. */
  predicate HasChannelList(outcome: HttpOutcome) {
    && outcome.Response?
    && IsSuccessStatus(outcome.status)
    && outcome.content.Some?
    && outcome.content.value.mediaType == Some("application/json")
    && outcome.content.value.document.Some?
    && outcome.content.value.document.value.ok == Some(true)
    && outcome.content.value.document.value.channels.Some?
  }

  /** What one response does to the loop. */
  datatype PageOutcome =
    | Abort(error: FetchError)                 // an exception ends the fetch
    | Halt                                     // an invalid page: return what was gathered
    | Page(channels: seq<Channel>, next: string)  // a page's channels and its continuation cursor

  /** How the loop body reads one response. */
  function ReadPage(outcome: HttpOutcome): PageOutcome {
    match outcome
    case TransportFailure => Abort(TransportFailed)
    case Response(status, content) =>
      if !IsSuccessStatus(status) then Abort(HttpStatus(status))
      else if !HasChannelList(outcome) then Halt
      else
        var doc := content.value.document.value;
        match ConvertElements(doc.channels.value)
        case Failure(e) => Abort(e)
        case Success(cs) => Page(cs, NextCursor(doc))
  }

  /**
   * The checks on one response: a transport exception or a non-2xx status
   * ends the fetch with that error; a 2xx response that is not JSON, not
   * `ok`, or has no `channels` array halts the loop; a page holds at most as
   * many channels as its array has elements.
   */
  lemma ReadPageChecks(outcome: HttpOutcome)
    ensures outcome.TransportFailure? ==> ReadPage(outcome) == Abort(TransportFailed)
    ensures outcome.Response? && !IsSuccessStatus(outcome.status) ==>
              ReadPage(outcome) == Abort(HttpStatus(outcome.status))
    ensures ReadPage(outcome).Halt? <==>
              outcome.Response? && IsSuccessStatus(outcome.status) && !HasChannelList(outcome)
    ensures ReadPage(outcome).Page? ==>
              HasChannelList(outcome)
              && |ReadPage(outcome).channels| <= |outcome.content.value.document.value.channels.value|
  {
    if HasChannelList(outcome) {
      NonNullCountBound(outcome.content.value.document.value.channels.value);
    }
  }

  lemma {:induction false} NonNullCountBound(elems: seq<Option<ChannelObject>>)
    ensures NonNullCount(elems) <= |elems|
  {
    if |elems| > 0 {
      NonNullCountBound(elems[1..]);
    }
  }

  /**
   * The pagination loop from `cursor` on, with `gathered` the channels of the
   * pages already read and at most `fuel` more requests: the result and the
   * requests sent.
   */
  function Paginate(server: Server, settings: Settings, types: string, cursor: string,
                    gathered: seq<Channel>, fuel: nat): (Result<seq<Channel>, FetchError>, seq<Request>)
    decreases fuel
  {
    if fuel == 0 then (Failure(PageBudgetExhausted), [])
    else
      var request := RequestParams(settings, types, cursor);
      match ReadPage(server(request))
      case Abort(e) => (Failure(e), [request])
      case Halt => (Success(gathered), [request])
      case Page(cs, next) =>
        if next == "" then (Success(gathered + cs), [request])
        else
          var later := Paginate(server, settings, types, next, gathered + cs, fuel - 1);
          (later.0, [request] + later.1)
  }

  /** `FetchChannels` as a whole: the result and the requests sent. */
  function FetchOutcome(search: string, settings: Settings, server: Server, maxPages: nat): (Result<seq<Channel>, FetchError>, seq<Request>)
  {
    var trimmed := Trim(search);
    if StripLeadingSigils(trimmed) == "" then (Success([]), [])
    else Paginate(server, settings, TypeQuery(SigilToggles(trimmed, settings.toggles)), "", [], maxPages)
  }

  /** The channels of the pages among the responses to `requests`, in order. */
  function Gathered(server: Server, requests: seq<Request>): seq<Channel> {
    if |requests| == 0 then []
    else
      var p := ReadPage(server(requests[0]));
      (if p.Page? then p.channels else []) + Gathered(server, requests[1..])
  }

  /** `next` follows `request`: the page read was valid, named a non-empty cursor, and `next` carries it. */
  predicate Continues(server: Server, settings: Settings, types: string, request: Request, next: Request) {
    var p := ReadPage(server(request));
    p.Page? && p.next != "" && next == RequestParams(settings, types, p.next)
  }

  function Last(requests: seq<Request>): Request
    requires |requests| > 0
  {
    requests[|requests| - 1]
  }

  /**
   * The requests pagination sends: at most one per unit of the page bound and
   * at least one when the bound allows any; the first carries the starting
   * cursor, each later one the `next_cursor` of the valid page before it.
   */
  lemma {:induction false} PaginateRequests(server: Server, settings: Settings, types: string, cursor: string,
                                            gathered: seq<Channel>, fuel: nat)
    ensures var sent := Paginate(server, settings, types, cursor, gathered, fuel).1;
      && |sent| <= fuel && (|sent| == 0 <==> fuel == 0)
      && (|sent| > 0 ==> sent[0] == RequestParams(settings, types, cursor))
      && (forall i :: 0 <= i < |sent| - 1 ==> Continues(server, settings, types, sent[i], sent[i + 1]))
    decreases fuel
  {
    if fuel > 0 {
      var request := RequestParams(settings, types, cursor);
      var p := ReadPage(server(request));
      if p.Page? && p.next != "" {
        var later := Paginate(server, settings, types, p.next, gathered + p.channels, fuel - 1);
        var sent := [request] + later.1;
        assert sent == Paginate(server, settings, types, cursor, gathered, fuel).1;
        PaginateRequests(server, settings, types, p.next, gathered + p.channels, fuel - 1);
        forall i | 0 <= i < |sent| - 1
          ensures Continues(server, settings, types, sent[i], sent[i + 1])
        {
          if i > 0 {
            assert sent[i] == later.1[i - 1] && sent[i + 1] == later.1[i];
          }
        }
      }
    }
  }

  /**
   * How the last response decides the result of pagination: an exception
   * gives that error; an invalid page gives exactly the channels of the pages
   * before it; a page with no cursor gives the channels of every page; a page
   * with a cursor is last only when the page bound is spent.
   */
  lemma {:induction false} PaginateOutcome(server: Server, settings: Settings, types: string, cursor: string,
                                           gathered: seq<Channel>, fuel: nat,
                                           result: Result<seq<Channel>, FetchError>, sent: seq<Request>)
    requires (result, sent) == Paginate(server, settings, types, cursor, gathered, fuel)
    ensures fuel == 0 ==> result == Failure(PageBudgetExhausted)
    ensures |sent| > 0 && ReadPage(server(Last(sent))).Abort? ==>
              result == Failure(ReadPage(server(Last(sent))).error)
    ensures |sent| > 0 && ReadPage(server(Last(sent))).Halt? ==>
              result == Success(gathered + Gathered(server, sent[..|sent| - 1]))
    ensures |sent| > 0 && ReadPage(server(Last(sent))).Page? && ReadPage(server(Last(sent))).next == "" ==>
              result == Success(gathered + Gathered(server, sent))
    ensures |sent| > 0 && ReadPage(server(Last(sent))).Page? && ReadPage(server(Last(sent))).next != "" ==>
              |sent| == fuel && result == Failure(PageBudgetExhausted)
    decreases fuel
  {
    if fuel > 0 {
      var request := RequestParams(settings, types, cursor);
      var p := ReadPage(server(request));
      if p.Page? && p.next != "" {
        var later := Paginate(server, settings, types, p.next, gathered + p.channels, fuel - 1);
        assert sent == [request] + later.1 && result == later.0;
        PaginateRequests(server, settings, types, p.next, gathered + p.channels, fuel - 1);
        PaginateOutcome(server, settings, types, p.next, gathered + p.channels, fuel - 1, later.0, later.1);
        if |later.1| > 0 {
          GatheredAfter(server, request, later.1, gathered);
        }
      } else {
        assert sent == [request];
        assert sent[..0] == [];
        assert sent[1..] == [];
        assert Gathered(server, sent) == (if p.Page? then p.channels else []) + [];
        assert Last(sent) == request;
        assert p.Page? ==> Gathered(server, sent) == p.channels;
        assert gathered + Gathered(server, sent[..0]) == gathered;
      }
    }
  }

  /** The channels gathered over `[request] + rest`, with `request` answered by a valid page. */
  lemma GatheredAfter(server: Server, request: Request, rest: seq<Request>, gathered: seq<Channel>)
    requires ReadPage(server(request)).Page? && |rest| > 0
    ensures var sent, cs := [request] + rest, ReadPage(server(request)).channels;
      && Last(sent) == Last(rest)
      && gathered + Gathered(server, sent[..|sent| - 1]) == (gathered + cs) + Gathered(server, rest[..|rest| - 1])
      && gathered + Gathered(server, sent) == (gathered + cs) + Gathered(server, rest)
  {
    var sent, cs := [request] + rest, ReadPage(server(request)).channels;
    assert sent[1..] == rest;
    assert sent[..|sent| - 1][1..] == rest[..|rest| - 1];
  }

  /** `done` followed by the channels of `r`, or the error of `r`. */
  function Attach(done: seq<Channel>, r: Result<seq<Channel>, FetchError>): Result<seq<Channel>, FetchError> {
    if r.Success? then Success(done + r.value) else r
  }

  /** How converting the elements from `j` on, after `done`, depends on element `j`. */
  lemma ConvertStep(elements: seq<Option<ChannelObject>>, j: nat, done: seq<Channel>)
    requires j < |elements|
    ensures elements[j].None? ==>
      Attach(done, ConvertElements(elements[j..])) == Attach(done, ConvertElements(elements[j + 1..]))
    ensures elements[j].Some? && elements[j].value.isArchived.None? ==>
      Attach(done, ConvertElements(elements[j..])) == Failure(MalformedChannel)
    ensures elements[j].Some? && elements[j].value.isArchived.Some? ==>
      Attach(done, ConvertElements(elements[j..]))
        == Attach(done + [ToChannel(elements[j].value).value], ConvertElements(elements[j + 1..]))
  {
    assert elements[j..][1..] == elements[j + 1..];
    var later := ConvertElements(elements[j + 1..]);
    if elements[j].Some? && elements[j].value.isArchived.Some? && later.Success? {
      var c := ToChannel(elements[j].value).value;
      assert done + ([c] + later.value) == (done + [c]) + later.value;
    }
  }

  /**
   * The `foreach` over one page's `channels` array: skip null elements, map
   * every other one to a `Channel` and add it to the list; an element without
   * `is_archived` throws.
   */
  method AppendChannels(channels: seq<Channel>, elements: seq<Option<ChannelObject>>)
    returns (result: Result<seq<Channel>, FetchError>)
    ensures result == Attach(channels, ConvertElements(elements))
  {
    var list := channels;
    ghost var done: seq<Channel> := [];
    assert elements[0..] == elements;
    assert Attach([], ConvertElements(elements)) == ConvertElements(elements) by {
      var r := ConvertElements(elements);
      if r.Success? { assert [] + r.value == r.value; }
    }
    for j := 0 to |elements|
      invariant list == channels + done
      invariant ConvertElements(elements) == Attach(done, ConvertElements(elements[j..]))
    {
      ConvertStep(elements, j, done);
      if elements[j].None? {
        continue;
      }
      var element := elements[j].value;
      var kind := Classify(element);
      var description := Description(element);
      if element.isArchived.None? {
        return Failure(MalformedChannel);
      }
      var channel := Channel(
        OrEmpty(element.id),
        OrEmpty(element.name),
        kind,
        element.isArchived.value,
        description,
        OrEmpty(element.contextTeamId));
      assert ToChannel(element) == Success(channel);
      list := list + [channel];
      done := done + [channel];
    }
    assert elements[|elements|..] == [];
    assert done + [] == done;
    return Success(list);
  }

  /**
   * The checks the loop body makes on one response, in the order it makes
   * them; a valid page's channels are added to `channels`.
   */
  method ReadResponse(channels: seq<Channel>, response: HttpOutcome)
    returns (page: PageOutcome, list: seq<Channel>)
    ensures page == ReadPage(response)
    ensures page.Page? ==> list == channels + page.channels
  {
    list := channels;
    if response.TransportFailure? {
      return Abort(TransportFailed), list;
    }
    if !IsSuccessStatus(response.status) {
      return Abort(HttpStatus(response.status)), list;
    }
    if response.content.None? {
      return Halt, list;
    }
    var content := response.content.value;
    if content.mediaType != Some("application/json") {
      return Halt, list;
    }
    if content.document.None? {
      return Halt, list;
    }
    var json := content.document.value;
    if json.ok != Some(true) {
      return Halt, list;
    }
    if json.channels.None? {
      return Halt, list;
    }
    var appended := AppendChannels(channels, json.channels.value);
    if appended.Failure? {
      return Abort(appended.error), list;
    }
    assert appended.value[|channels|..] + [] == appended.value[|channels|..];
    return Page(appended.value[|channels|..], NextCursor(json)), appended.value;
  }

  /**
   * One step of `Paginate` from `cursor`, for each way its page can be read,
   * with `sent` the requests sent before it.
   */
  lemma PaginateStep(server: Server, settings: Settings, types: string, cursor: string,
                     gathered: seq<Channel>, fuel: nat, sent: seq<Request>)
    requires fuel > 0
    ensures var request := RequestParams(settings, types, cursor);
      var p := ReadPage(server(request));
      var rest := Paginate(server, settings, types, cursor, gathered, fuel);
      && (p.Abort? ==> rest.0 == Failure(p.error) && sent + rest.1 == sent + [request])
      && (p.Halt? ==> rest.0 == Success(gathered) && sent + rest.1 == sent + [request])
      && (p.Page? && p.next == "" ==>
            rest.0 == Success(gathered + p.channels) && sent + rest.1 == sent + [request])
      && (p.Page? && p.next != "" ==>
            var later := Paginate(server, settings, types, p.next, gathered + p.channels, fuel - 1);
            rest.0 == later.0 && sent + rest.1 == (sent + [request]) + later.1)
  {
    var request := RequestParams(settings, types, cursor);
    var p := ReadPage(server(request));
    if p.Page? && p.next != "" {
      var later := Paginate(server, settings, types, p.next, gathered + p.channels, fuel - 1);
      assert sent + ([request] + later.1) == (sent + [request]) + later.1;
    }
  }

  /**
   * The `do … while` loop of `FetchChannels`: request page after page, adding
   * each page's channels to the list, until a page names no cursor. An
   * invalid page returns the list as it stands.
   */
  method PaginateChannels(server: Server, settings: Settings, types: string, maxPages: nat)
    returns (result: Result<seq<Channel>, FetchError>, sent: seq<Request>)
    ensures (result, sent) == Paginate(server, settings, types, "", [], maxPages)
  {
    sent := [];
    var channels: seq<Channel> := [];
    var cursor := "";
    ghost var whole := Paginate(server, settings, types, cursor, channels, maxPages);
    assert sent + whole.1 == whole.1;
    while true
      invariant |sent| <= maxPages
      invariant Paginate(server, settings, types, cursor, channels, maxPages - |sent|).0 == whole.0
      invariant sent + Paginate(server, settings, types, cursor, channels, maxPages - |sent|).1 == whole.1
      decreases maxPages - |sent|
    {
      if |sent| == maxPages {
        assert sent + [] == sent;
        return Failure(PageBudgetExhausted), sent;
      }
      PaginateStep(server, settings, types, cursor, channels, maxPages - |sent|, sent);
      ghost var before := sent;
      var request := RequestParams(settings, types, cursor);
      sent := sent + [request];
      var response := server(request);
      var page, list := ReadResponse(channels, response);
      match page {
        case Abort(error) =>
          return Failure(error), sent;
        case Halt =>
          return Success(channels), sent;
        case Page(_, next) =>
          channels, cursor := list, next;
          if cursor == "" {
            return Success(channels), sent;
          }
          assert maxPages - |sent| == maxPages - |before| - 1;
      }
    }
  }

  /**
   * `FetchChannels`: interpret the search text; a query that is empty once
   * trimmed and stripped of its sigils fetches nothing; otherwise paginate
   * over the selected conversation types.
   */
  method FetchChannels(search: string, settings: Settings, server: Server, maxPages: nat)
    returns (result: Result<seq<Channel>, FetchError>, sent: seq<Request>)
    ensures (result, sent) == FetchOutcome(search, settings, server, maxPages)
  {
    var searchQuery, toggles := InterpretQuery(search, settings.toggles);
    if searchQuery == "" {
      return Success([]), [];
    }
    var types := ConstructTypeQuery(toggles.incPublic, toggles.incPrivate, toggles.incMpim, toggles.incIm);
    result, sent := PaginateChannels(server, settings, types, maxPages);
  }

  /**
   * A search that is empty once trimmed and stripped of its sigils is the
   * only one that fetches nothing and sends no request.
   */
  lemma EmptyQueryFetchesNothing(search: string, settings: Settings, server: Server, maxPages: nat)
    ensures FetchOutcome(search, settings, server, maxPages) == (Success([]), []) <==>
              StripLeadingSigils(Trim(search)) == ""
  {
    var trimmed := Trim(search);
    if StripLeadingSigils(trimmed) != "" {
      var types := TypeQuery(SigilToggles(trimmed, settings.toggles));
      var (result, sent) := Paginate(server, settings, types, "", [], maxPages);
      PaginateRequests(server, settings, types, "", [], maxPages);
      PaginateOutcome(server, settings, types, "", [], maxPages, result, sent);
    }
  }

  /**
   * Every request of a fetch asks for the conversation types the search and
   * the settings select, and carries the archive setting.
   */
  lemma FetchRequestsCarrySettings(search: string, settings: Settings, server: Server, maxPages: nat)
    ensures var trimmed := Trim(search);
      var sent := FetchOutcome(search, settings, server, maxPages).1;
      forall i :: 0 <= i < |sent| ==>
        && Lookup(sent[i], "types") == Some(TypeQuery(SigilToggles(trimmed, settings.toggles)))
        && Lookup(sent[i], "exclude_archived") == Some(BoolText(!settings.showArchived))
  {
    var trimmed := Trim(search);
    var types := TypeQuery(SigilToggles(trimmed, settings.toggles));
    var sent := FetchOutcome(search, settings, server, maxPages).1;
    if StripLeadingSigils(trimmed) != "" {
      assert sent == Paginate(server, settings, types, "", [], maxPages).1;
      PaginateRequests(server, settings, types, "", [], maxPages);
      forall i | 0 <= i < |sent|
        ensures Lookup(sent[i], "types") == Some(types)
        ensures Lookup(sent[i], "exclude_archived") == Some(BoolText(!settings.showArchived))
      {
        if i == 0 {
          RequestCarries(settings, types, "");
        } else {
          assert Continues(server, settings, types, sent[i - 1], sent[i]);
          RequestCarries(settings, types, ReadPage(server(sent[i - 1])).next);
        }
      }
    }
  }

  /** A valid JSON page holding `elements` and naming `next` as its continuation. */
  function JsonPage(elements: seq<Option<ChannelObject>>, next: string): HttpOutcome {
    Response(200, Some(Content(Some("application/json"), Some(Document(Some(true), Some(elements), Some(Metadata(Some(next))))))))
  }

  /**
   * A server whose first page names the cursor "abc" and whose second page
   * names none: exactly two requests are sent, the second carrying "abc", and
   * the result holds the channels of both pages in order.
   */
  lemma TwoPagesGiveBoth(settings: Settings, types: string, first: seq<Option<ChannelObject>>,
                         second: seq<Option<ChannelObject>>, maxPages: nat)
    requires maxPages >= 2 && AllConvertible(first) && AllConvertible(second)
    ensures var server := (r: Request) => if Lookup(r, "cursor") == Some("abc") then JsonPage(second, "") else JsonPage(first, "abc");
      var out := Paginate(server, settings, types, "", [], maxPages);
      && |out.1| == 2 && Lookup(out.1[1], "cursor") == Some("abc")
      && out.0 == Success(ConvertElements(first).value + ConvertElements(second).value)
  {
    var server := (r: Request) => if Lookup(r, "cursor") == Some("abc") then JsonPage(second, "") else JsonPage(first, "abc");
    var cs1, cs2 := ConvertElements(first).value, ConvertElements(second).value;
    RequestCarries(settings, types, "");
    RequestCarries(settings, types, "abc");
    var r1, r2 := RequestParams(settings, types, ""), RequestParams(settings, types, "abc");
    assert ReadPage(server(r1)) == Page(cs1, "abc");
    assert ReadPage(server(r2)) == Page(cs2, "");
    PaginateStep(server, settings, types, "abc", cs1, maxPages - 1, [r1]);
    var later := Paginate(server, settings, types, "abc", cs1, maxPages - 1);
    assert later.0 == Success(cs1 + cs2) && [r1] + later.1 == [r1, r2];
    PaginateStep(server, settings, types, "", [], maxPages, []);
    assert [] + cs1 == cs1;
  }
}
