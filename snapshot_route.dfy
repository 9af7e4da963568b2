/**
 * GET of the snapshot route (app/api/admin/snapshot/route.ts): the
 * admin-cookie gate, the window resolution, the upstream request, and the
 * JSON answer with the ranked leaderboard, the window and the prize table.
 * The upstream fetch is an input (what it returned, or that it threw);
 * the locale date and time strings are the parameters formatDate and
 * formatTime, applied to a time value (None for an invalid Date).
 */
module SnapshotRoute {
  import opened Wrappers
  import opened Numbers
  import opened Calendar
  import opened DateRange
  import opened Ranking
  import opened SnapshotText

  /** The admin-auth cookie value that opens the admin routes. */
  const Authenticated: string := "authenticated"

  /** The from and to values of the upstream request's query. */
  datatype UpstreamQuery = UpstreamQuery(from: string, to: string)

  /** What the upstream fetch resolved to: a status and a JSON body, or a body that is not JSON. */
  datatype Reply = Reply(status: int, body: Option<Body>)

  /** dateRange of the answer: the locale strings and the bounds (None is NaN, written as null). */
  datatype DateRangeJson = DateRangeJson(period: Period, fromUnix: Option<int>, toUnix: Option<int>)

  datatype Json =
    | ErrorJson(error: string)
    | SnapshotJson(leaderboard: seq<Standing>, dateRange: DateRangeJson, prizes: map<int, int>)

  datatype Response = Response(status: int, json: Json)

  /** The answer, and the upstream request made on the way (None when none was made). */
  datatype Outcome = Outcome(query: Option<UpstreamQuery>, response: Response)

  /** Number.prototype.toString of a bound: NaN is written "NaN". */
  function BoundText(b: Option<int>): (s: string)
    ensures b.Some? ==> ParseInt(s) == b
  {
    ParseIntText(if b.Some? then b.value else 0);
    match b
    case None => "NaN"
    case Some(n) => IntText(n)
  }

  /** new Date(bound * 1000): NaN stays NaN, and so does a time beyond the time range. */
  function BoundDate(b: Option<int>): Option<int> {
    match b
    case None => None
    case Some(s) => TimeClip(s * 1000)
  }

  /** The route's GET. */
  function Get(
    cookie: Option<string>, fromParam: Option<string>, toParam: Option<string>, env: Env, nowMs: int,
    upstream: Fetched<Reply>,
    formatDate: Option<int> -> string, formatTime: Option<int> -> string): (o: Outcome)
    ensures o.query.Some? <==> cookie == Some(Authenticated)
    ensures o.response.status == 200 <==>
              && cookie == Some(Authenticated) && upstream.Responded?
              && IsOk(upstream.value.status) && upstream.value.body.Some?
    ensures o.response.json.SnapshotJson? <==> o.response.status == 200
  {
    if cookie != Some(Authenticated) then
      Outcome(None, Response(401, ErrorJson("Unauthorized")))
    else
      var range := ResolveRange(fromParam, toParam, env, nowMs);
      var query := UpstreamQuery(BoundText(range.from), BoundText(range.to));
      var answer :=
        match upstream
        case Threw(_) => Response(500, ErrorJson("Failed to fetch snapshot"))
        case Responded(reply) =>
          if !IsOk(reply.status) then
            Response(reply.status, ErrorJson("Failed to fetch leaderboard: " + IntText(reply.status)))
          else
            match reply.body
            case None => Response(500, ErrorJson("Failed to fetch snapshot"))
            case Some(body) =>
              var start, end := BoundDate(range.from), BoundDate(range.to);
              var period := Period(formatDate(start), formatTime(start), formatDate(end), formatTime(end));
              Response(200, SnapshotJson(Leaderboard(body), DateRangeJson(period, range.from, range.to), ResponsePrizes));
      Outcome(Some(query), answer)
  }

  /** Without the admin cookie the answer is 401 and nothing is fetched. */
  lemma GetUnauthorized(
    cookie: Option<string>, fromParam: Option<string>, toParam: Option<string>, env: Env, nowMs: int,
    upstream: Fetched<Reply>, formatDate: Option<int> -> string, formatTime: Option<int> -> string)
    requires cookie != Some(Authenticated)
    ensures var o := Get(cookie, fromParam, toParam, env, nowMs, upstream, formatDate, formatTime);
            o.query.None? && o.response == Response(401, ErrorJson("Unauthorized"))
  {
  }

  /**
   * With the cookie, the upstream request carries the resolved window, and
   * the bounds written into the query read back as the same numbers.
   */
  lemma GetQueriesResolvedWindow(
    fromParam: Option<string>, toParam: Option<string>, env: Env, nowMs: int,
    upstream: Fetched<Reply>, formatDate: Option<int> -> string, formatTime: Option<int> -> string)
    ensures var o := Get(Some(Authenticated), fromParam, toParam, env, nowMs, upstream, formatDate, formatTime);
            var range := ResolveRange(fromParam, toParam, env, nowMs);
            && o.query.Some?
            && (range.from.Some? ==> ParseInt(o.query.value.from) == range.from)
            && (range.to.Some? ==> ParseInt(o.query.value.to) == range.to)
  {
  }

  /** An upstream status outside 200..299 is passed on, with the status in the message. */
  lemma GetUpstreamFailure(
    fromParam: Option<string>, toParam: Option<string>, env: Env, nowMs: int,
    reply: Reply, formatDate: Option<int> -> string, formatTime: Option<int> -> string)
    requires !IsOk(reply.status)
    ensures var o := Get(Some(Authenticated), fromParam, toParam, env, nowMs, Responded(reply), formatDate, formatTime);
            o.response.status == reply.status
            && o.response.json == ErrorJson("Failed to fetch leaderboard: " + IntText(reply.status))
  {
  }

  /** A fetch that throws, or a body that is not JSON, ends in the catch-all 500. */
  lemma GetThrows(
    fromParam: Option<string>, toParam: Option<string>, env: Env, nowMs: int,
    upstream: Fetched<Reply>, formatDate: Option<int> -> string, formatTime: Option<int> -> string)
    requires upstream.Threw? || (IsOk(upstream.value.status) && upstream.value.body.None?)
    ensures var o := Get(Some(Authenticated), fromParam, toParam, env, nowMs, upstream, formatDate, formatTime);
            o.response == Response(500, ErrorJson("Failed to fetch snapshot"))
  {
  }

  /**
   * A successful answer holds the ranked leaderboard of the upstream body
   * (empty when the body is not an array), the resolved bounds and the
   * prize table, which agrees with prizeForRank.
   */
  lemma GetSuccess(
    fromParam: Option<string>, toParam: Option<string>, env: Env, nowMs: int,
    status: int, body: Body, formatDate: Option<int> -> string, formatTime: Option<int> -> string)
    requires IsOk(status)
    ensures var o := Get(Some(Authenticated), fromParam, toParam, env, nowMs, Responded(Reply(status, Some(body))), formatDate, formatTime);
            var range := ResolveRange(fromParam, toParam, env, nowMs);
            && o.response.status == 200
            && o.response.json.SnapshotJson?
            && o.response.json.leaderboard == Leaderboard(body)
            && (body.JsonOther? ==> o.response.json.leaderboard == [])
            && o.response.json.dateRange.fromUnix == range.from
            && o.response.json.dateRange.toUnix == range.to
            && (forall k :: k in o.response.json.prizes <==> 1 <= k <= 10)
            && (forall k :: k in o.response.json.prizes ==> o.response.json.prizes[k] == PrizeForRank(k))
  {
    forall k
      ensures k in ResponsePrizes <==> 1 <= k <= 10
      ensures k in ResponsePrizes ==> ResponsePrizes[k] == PrizeForRank(k)
    {
      ResponsePrizesAgree(k);
    }
  }
}
