/** The request helpers of the TimeTrackerAPI class: query string, URL, headers, response
    handling, and the request each network method sends. Sending it (Axios) is not part
    of this module; the runner sees the service through its answers only. */
module TimeTrackerApi {
  import opened Wrappers
  import opened Calendar
  import opened WorkLog
  import opened JsObject
  import opened Text
  import opened PercentEncoding

  const API_REST_URL := "https://cegid.timehub.7pace.com/api/rest"
  const API_VERSION := "3.2-beta"

  /** The static methods the class defines, by name. */
  const STATIC_METHODS: seq<string> :=
    ["buildQueryParams", "getUrl", "getHeaders", "handleResponse",
     "getMe", "createWorkLog", "getWorkLogs", "deleteWorkLog"]

  /** `key=encodeURIComponent(value)` for every entry, in order. */
  function QuerySegments(entries: Object): (r: seq<string>)
    ensures |r| == |entries|
    ensures forall i :: 0 <= i < |entries| ==> r[i] == entries[i].0 + "=" + Encode(entries[i].1)
  {
    if entries == [] then []
    else [entries[0].0 + "=" + Encode(entries[0].1)] + QuerySegments(entries[1..])
  }

  /** `buildQueryParams(params)`: the caller's parameters with `api-version` written over
      them, each as `key=value`, joined by `&`. */
  function BuildQueryParams(params: Object): string
  {
    Join(QuerySegments(Put(params, "api-version", API_VERSION)), '&')
  }

  /** `getUrl(endpoint, params)` */
  function GetUrl(endpoint: string, params: Object): string
  {
    API_REST_URL + "/" + endpoint + "?" + BuildQueryParams(params)
  }

  /** `getHeaders(headers)`: the caller's headers, with `Authorization` set to the bearer
      token (overriding a caller's own `Authorization`). */
  function GetHeaders(token: string, headers: Object): (r: Object)
    requires DistinctKeys(headers)
    ensures DistinctKeys(r)
    ensures Get(r, "Authorization") == Some("Bearer " + token)
    ensures |r| == |headers| + (if IndexOf(headers, "Authorization").Some? then 0 else 1)
  {
    PutGet(headers, "Authorization", "Bearer " + token);
    Put(headers, "Authorization", "Bearer " + token)
  }

  /** Every caller header other than `Authorization` is passed through unchanged. */
  lemma HeadersKeepCallerHeaders(token: string, headers: Object, k: string)
    requires DistinctKeys(headers)
    requires k != "Authorization"
    ensures Get(GetHeaders(token, headers), k) == Get(headers, k)
  {
    PutOther(headers, "Authorization", "Bearer " + token, k);
  }

  datatype Response<T> = Response(status: int, statusText: string, data: T)

  /** `handleResponse(response)`: the data of a 2xx response, `null` otherwise. */
  function HandleResponse<T>(response: Response<T>): (r: Option<T>)
    ensures r.Some? <==> 200 <= response.status < 300
    ensures r.Some? ==> r.value == response.data
  {
    if response.status >= 200 && response.status < 300 then Some(response.data) else None
  }

  datatype Verb = GET | POST | DELETE

  datatype Request = Request(verb: Verb, url: string, headers: Object, body: Option<PostBody>)

  /** `getMe()` */
  function MeRequest(token: string): Request
  {
    Request(GET, GetUrl("me", []), GetHeaders(token, []), None)
  }

  /** `createWorkLog(postData)` */
  function CreateWorkLogRequest(token: string, body: PostBody): Request
  {
    Request(POST, GetUrl("workLogs", []), GetHeaders(token, []), Some(body))
  }

  /** The lookup window of `getWorkLogs(date)`: from midnight to 23:59 of that date. */
  function WorkLogsParams(cal: Calendar, d: Day): Object
  {
    [("$fromTimestamp", cal.dateText(d) + "T00:00:00"),
     ("$toTimestamp", cal.dateText(d) + "T23:59:00")]
  }

  /** `getWorkLogs(date)` */
  function WorkLogsRequest(token: string, cal: Calendar, d: Day): Request
  {
    Request(GET, GetUrl("workLogs", WorkLogsParams(cal, d)), GetHeaders(token, []), None)
  }

  /** `deleteWorkLog(id)` */
  function DeleteWorkLogRequest(token: string, id: string): Request
  {
    Request(DELETE, GetUrl("workLogs/" + id, []), GetHeaders(token, []), None)
  }

  /** The calls the runner makes on the service, in the order it makes them. */
  datatype ApiCall = GetMe | GetWorkLogs(date: Day) | CreateWorkLog(body: PostBody)

  function RequestOf(token: string, cal: Calendar, c: ApiCall): Request
  {
    match c
    case GetMe => MeRequest(token)
    case GetWorkLogs(d) => WorkLogsRequest(token, cal, d)
    case CreateWorkLog(b) => CreateWorkLogRequest(token, b)
  }

  /** Every call carries the bearer token; only a creation is a POST and has a body, which
      is the work log posted; the lookup and the creation go to `workLogs`, the user
      fetch to `me`. */
  lemma RequestOfCall(token: string, cal: Calendar, c: ApiCall)
    ensures var r := RequestOf(token, cal, c);
      Get(r.headers, "Authorization") == Some("Bearer " + token) &&
      (r.verb == POST <==> c.CreateWorkLog?) &&
      r.verb != DELETE &&
      (c.CreateWorkLog? ==> r.body == Some(c.body)) &&
      (!c.CreateWorkLog? ==> r.body == None) &&
      Split(r.url, '?')[0] == API_REST_URL + "/" + (if c.GetMe? then "me" else "workLogs")
  {
    var params := if c.GetWorkLogs? then WorkLogsParams(cal, c.date) else [];
    assert '?' !in "me" && '?' !in "workLogs";
    assert '?' !in "$fromTimestamp" && '?' !in "$toTimestamp";
    UrlLayout(if c.GetMe? then "me" else "workLogs", params);
  }

  lemma ApiVersionEncodesToItself()
    ensures Encode(API_VERSION) == API_VERSION
  {
    var s := API_VERSION;
    assert forall i :: 0 <= i < |s| ==> IsUnescaped(s[i]);
    EncodeUnescaped(s);
  }

  lemma ApiVersionSegment()
    ensures "api-version" + "=" + Encode(API_VERSION) == "api-version=3.2-beta"
  {
    ApiVersionEncodesToItself();
  }

  /** Without a caller `api-version`, the query string splits back into the caller's
      `key=value` segments in their order, followed by `api-version=3.2-beta`. */
  lemma QueryAppendsApiVersion(params: Object)
    requires forall i :: 0 <= i < |params| ==> '&' !in params[i].0
    requires IndexOf(params, "api-version").None?
    ensures |Split(BuildQueryParams(params), '&')| == |params| + 1
    ensures Split(BuildQueryParams(params), '&')[|params|] == "api-version=3.2-beta"
    ensures forall i :: 0 <= i < |params| ==>
      Split(BuildQueryParams(params), '&')[i] == params[i].0 + "=" + Encode(params[i].1)
  {
    var entries := Put(params, "api-version", API_VERSION);
    assert entries == params + [("api-version", API_VERSION)];
    assert '&' !in "api-version";
    assert forall i :: 0 <= i < |entries| ==> '&' !in entries[i].0 by {
      forall i | 0 <= i < |entries| ensures '&' !in entries[i].0 {
        if i < |params| { assert entries[i] == params[i]; }
      }
    }
    QuerySplitsIntoSegments(entries);
    ApiVersionSegment();
    var segs := QuerySegments(entries);
    assert segs[|params|] == "api-version" + "=" + Encode(API_VERSION);
    forall i | 0 <= i < |params|
      ensures segs[i] == params[i].0 + "=" + Encode(params[i].1)
    {
      assert entries[i] == params[i];
    }
  }

  /** With a caller `api-version` at position `j`, the query string splits back into the
      caller's segments in their order, with `api-version=3.2-beta` at position `j`. */
  lemma QueryOverwritesApiVersion(params: Object, j: nat)
    requires forall i :: 0 <= i < |params| ==> '&' !in params[i].0
    requires IndexOf(params, "api-version") == Some(j)
    ensures |Split(BuildQueryParams(params), '&')| == |params|
    ensures Split(BuildQueryParams(params), '&')[j] == "api-version=3.2-beta"
    ensures forall i :: 0 <= i < |params| && i != j ==>
      Split(BuildQueryParams(params), '&')[i] == params[i].0 + "=" + Encode(params[i].1)
  {
    var entries := Put(params, "api-version", API_VERSION);
    assert entries == params[j := ("api-version", API_VERSION)];
    assert forall i :: 0 <= i < |entries| ==> '&' !in entries[i].0 by {
      forall i | 0 <= i < |entries| ensures '&' !in entries[i].0 {
        if i != j { assert entries[i] == params[i]; }
      }
    }
    QuerySplitsIntoSegments(entries);
    ApiVersionSegment();
    var segs := QuerySegments(entries);
    assert segs[j] == "api-version" + "=" + Encode(API_VERSION);
    forall i | 0 <= i < |params| && i != j
      ensures segs[i] == params[i].0 + "=" + Encode(params[i].1)
    {
      assert entries[i] == params[i];
    }
  }

  /** Encoded values hold no `&`, so the joined segments split back apart. */
  lemma QuerySplitsIntoSegments(entries: Object)
    requires |entries| >= 1
    requires forall i :: 0 <= i < |entries| ==> '&' !in entries[i].0
    ensures Split(Join(QuerySegments(entries), '&'), '&') == QuerySegments(entries)
  {
    var segs := QuerySegments(entries);
    forall i | 0 <= i < |segs|
      ensures '&' !in segs[i]
    {
      SegmentWithout('&', entries[i].0, entries[i].1);
    }
    SplitJoin(segs, '&');
  }

  /** A `key=value` segment holds a character that encoding always escapes only when its
      key does. */
  lemma SegmentWithout(c: char, k: string, v: string)
    requires c !in k && c != '=' && c != '%' && !IsUnescaped(c)
    ensures c !in k + "=" + Encode(v)
  {
    var e := Encode(v);
    var seg := k + "=" + e;
    forall m | 0 <= m < |seg|
      ensures seg[m] != c
    {
      if m < |k| { assert seg[m] == k[m]; }
      else if m > |k| { assert seg[m] == e[m - |k| - 1]; }
    }
  }

  /** With no parameters the query string is exactly the API version. */
  lemma EmptyQuery()
    ensures BuildQueryParams([]) == "api-version=3.2-beta"
  {
    var segs := QuerySegments(Put([], "api-version", API_VERSION));
    assert |segs| == 1 && segs[0] == "api-version" + "=" + Encode(API_VERSION);
    ApiVersionSegment();
  }

  /** The URL is the endpoint's address, a `?`, and the query string, and splits back into
      those two when neither the endpoint nor a parameter key holds `?`. */
  lemma UrlLayout(endpoint: string, params: Object)
    requires '?' !in endpoint
    requires forall i :: 0 <= i < |params| ==> '?' !in params[i].0
    ensures Split(GetUrl(endpoint, params), '?') == [API_REST_URL + "/" + endpoint, BuildQueryParams(params)]
  {
    var base := API_REST_URL + "/" + endpoint;
    var q := BuildQueryParams(params);
    BaseWithoutQuestionMark(endpoint);
    QueryWithoutQuestionMark(params);
    assert GetUrl(endpoint, params) == Join([base, q], '?');
    SplitJoin([base, q], '?');
  }

  lemma BaseWithoutQuestionMark(endpoint: string)
    requires '?' !in endpoint
    ensures '?' !in API_REST_URL + "/" + endpoint
  {
    var u := API_REST_URL + "/";
    assert forall m :: 0 <= m < |u| ==> u[m] != '?';
    var s := u + endpoint;
    forall m | 0 <= m < |s|
      ensures s[m] != '?'
    {
      if m < |u| { assert s[m] == u[m]; } else { assert s[m] == endpoint[m - |u|]; }
    }
  }

  lemma QueryWithoutQuestionMark(params: Object)
    requires forall i :: 0 <= i < |params| ==> '?' !in params[i].0
    ensures '?' !in BuildQueryParams(params)
  {
    var entries := Put(params, "api-version", API_VERSION);
    assert '?' !in "api-version";
    forall i | 0 <= i < |entries|
      ensures '?' !in entries[i].0
    {
      match IndexOf(params, "api-version")
      case None =>
        assert entries == params + [("api-version", API_VERSION)];
        if i < |params| { assert entries[i] == params[i]; }
      case Some(j) =>
        assert entries == params[j := ("api-version", API_VERSION)];
        if i != j { assert entries[i] == params[i]; }
    }
    var segs := QuerySegments(entries);
    forall i | 0 <= i < |segs|
      ensures '?' !in segs[i]
    {
      SegmentWithout('?', entries[i].0, entries[i].1);
    }
    JoinWithout(segs, '&', '?');
  }

  /** The work-log lookup asks for one date, from its midnight to 23:59, with the API
      version last. */
  lemma WorkLogsQueryWindow(cal: Calendar, d: Day)
    ensures var segs := Split(BuildQueryParams(WorkLogsParams(cal, d)), '&');
      |segs| == 3 &&
      segs[0] == "$fromTimestamp=" + Encode(cal.dateText(d) + "T00:00:00") &&
      segs[1] == "$toTimestamp=" + Encode(cal.dateText(d) + "T23:59:00") &&
      segs[2] == "api-version=3.2-beta"
  {
    var params := WorkLogsParams(cal, d);
    assert '&' !in "$fromTimestamp" && '&' !in "$toTimestamp";
    assert params[0].0 != "api-version" && params[1].0 != "api-version";
    IndexOfAbsent(params, "api-version");
    QueryAppendsApiVersion(params);
    assert "$fromTimestamp" + "=" == "$fromTimestamp=";
    assert "$toTimestamp" + "=" == "$toTimestamp=";
  }

  /** The delete URL is the address of `workLogs/` followed by the id, with only the API
      version as query. */
  lemma DeleteUrlLayout(token: string, id: string)
    requires '?' !in id
    ensures Split(DeleteWorkLogRequest(token, id).url, '?') ==
      [API_REST_URL + "/" + "workLogs/" + id, "api-version=3.2-beta"]
  {
    assert '?' !in "workLogs/";
    assert '?' !in "workLogs/" + id;
    UrlLayout("workLogs/" + id, []);
    EmptyQuery();
    assert API_REST_URL + "/" + ("workLogs/" + id) == API_REST_URL + "/" + "workLogs/" + id;
  }

  /** Different ids are deleted through different URLs. */
  lemma DeleteUrlIdentifiesLog(token: string, a: string, b: string)
    requires DeleteWorkLogRequest(token, a).url == DeleteWorkLogRequest(token, b).url
    ensures a == b
  {
    var p := API_REST_URL + "/" + "workLogs/";
    var q := "?" + BuildQueryParams([]);
    assert DeleteWorkLogRequest(token, a).url == p + a + q;
    assert DeleteWorkLogRequest(token, b).url == p + b + q;
    var u := p + a + q;
    assert a == u[|p|..|p| + |a|];
    assert b == u[|p|..|p| + |b|];
  }

  lemma {:induction false} JoinWithout(parts: seq<string>, sep: char, c: char)
    requires c != sep
    requires forall i :: 0 <= i < |parts| ==> c !in parts[i]
    ensures c !in Join(parts, sep)
  {
    if |parts| > 1 {
      JoinWithout(parts[1..], sep, c);
    }
  }
}
