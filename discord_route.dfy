/**
 * POST of the Discord route (app/api/admin/discord/route.ts): the admin
 * cookie gate, the snapshot fetch (forwarding the cookie), the message
 * built line by line, the webhook configuration check and the webhook
 * send. Both fetches are inputs (what they returned, or the message of
 * what they threw); the webhook request itself is reported as the message
 * that would be posted.
 */
module DiscordRoute {
  import opened Wrappers
  import opened Numbers
  import opened Ranking
  import opened SnapshotText
  import DateRange
  import SnapshotRoute
  import opened Urls

  /**
   * The message assembled with `+=`: the header lines, one line per shown
   * player, then the footer. It is the Discord style of the shared renderer.
   */
  method BuildMessage(snap: Snapshot, money: int -> string, updated: string) returns (msg: string)
    ensures msg == Render(DiscordPost, snap, money, updated)
  {
    hide Header, Row, Brackets, RankText, PrizeSuffix;
    msg := MessageHeader(snap.dateRange, snap.prizes);
    ghost var head := msg;

    var top := Shown(snap.leaderboard);
    var i := 0;
    while i < |top|
      invariant 0 <= i <= |top|
      invariant msg == head + Rows(DiscordPost, top[..i], money)
    {
      var line := StandingLine(top[i], money);
      msg := msg + line;
      RowsSnoc(DiscordPost, top, i, money);
      i := i + 1;
    }
    assert top[..|top|] == top;
    msg := msg + "\n---\n*Updated: " + updated + "*";
  }

  /** The header lines, written one `+=` at a time. */
  method MessageHeader(d: Period, prizes: map<int, int>) returns (msg: string)
    ensures msg == Header(DiscordPost, d, prizes)
  {
    hide PeriodLine, PoolLine;
    msg := Title;
    msg := msg + PeriodLine(d);
    msg := msg + PoolHeading;
    msg := msg + PoolLine(prizes, 1);
    msg := msg + PoolLine(prizes, 2);
    msg := msg + PoolLine(prizes, 3);
    msg := msg + PoolLine(prizes, 4);
    msg := msg + PoolLine(prizes, 5);
    msg := msg + PoolLine(prizes, 6);
    msg := msg + PoolLine(prizes, 7);
    msg := msg + PoolLine(prizes, 8);
    msg := msg + PoolLine(prizes, 9);
    msg := msg + PoolLine(prizes, 10) + "\n";
    msg := msg + "**Current Standings:**\n\n";
  }

  /** The text one iteration of the forEach appends for a player. */
  method StandingLine(player: Standing, money: int -> string) returns (line: string)
    ensures line == Row(DiscordPost, player, money)
  {
    hide Brackets;
    var rankStr := RankText(player.rank);
    var prizeStr := PrizeSuffix(player.prize);
    var shown;
    if player.username == Placeholder || player.wagered == 0 {
      shown := " *Awaiting player*";
    } else {
      var masked := MaskUsername(player.username);
      shown := " `" + masked + "` - $" + money(player.wagered);
    }
    line := rankStr + shown + prizeStr + "\n";
  }

  /** What the snapshot fetch resolved to: whether the response was ok, and its JSON. */
  datatype SnapshotReply = SnapshotReply(ok: bool, data: Snapshot)

  datatype Json = ErrorJson(error: string) | SuccessJson

  datatype Response = Response(status: int, json: Json)

  /** The snapshot fetch the route makes: the URL and the admin-auth cookie value it forwards. */
  datatype SnapshotRequest = SnapshotRequest(url: Url, cookie: string)

  /** A missing or empty DISCORD_WEBHOOK_URL is falsy. */
  predicate Configured(webhookUrl: Option<string>) {
    webhookUrl.Some? && webhookUrl.value != ""
  }

  /**
   * The route's POST, for a request made to `origin` (the protocol and host
   * of its URL). It returns the answer, the snapshot request it made (None
   * when none was made) and the message posted to the webhook (None when
   * nothing was posted). The snapshot is asked for with the bare path: no
   * from or to parameter is passed on.
   */
  method Post(
    origin: string, cookie: Option<string>, snapshot: Fetched<SnapshotReply>, webhookUrl: Option<string>,
    webhookStatus: Fetched<int>, money: int -> string, updated: string)
    returns (response: Response, request: Option<SnapshotRequest>, posted: Option<string>)
    ensures cookie != Some(SnapshotRoute.Authenticated) ==>
              response == Response(401, ErrorJson("Unauthorized")) && request.None? && posted.None?
    ensures cookie == Some(SnapshotRoute.Authenticated) ==>
              request == Some(SnapshotRequest(Url(Some(origin), SnapshotPath, []), cookie.value))
    ensures posted.Some? ==>
              && Configured(webhookUrl)
              && snapshot.Responded? && snapshot.value.ok
              && posted.value == Render(DiscordPost, snapshot.value.data, money, updated)
    ensures (cookie == Some(SnapshotRoute.Authenticated) && snapshot.Responded? && snapshot.value.ok
             && Configured(webhookUrl)) ==> posted.Some?
    ensures cookie == Some(SnapshotRoute.Authenticated) && snapshot.Threw? ==>
              response == Response(500, ErrorJson(snapshot.message))
    ensures cookie == Some(SnapshotRoute.Authenticated) && snapshot.Responded? && !snapshot.value.ok ==>
              response == Response(500, ErrorJson("Failed to fetch leaderboard snapshot"))
    ensures (cookie == Some(SnapshotRoute.Authenticated) && snapshot.Responded? && snapshot.value.ok
             && !Configured(webhookUrl)) ==>
              response == Response(500, ErrorJson("Discord webhook URL not configured"))
    ensures posted.Some? ==>
              response == match webhookStatus
                          case Threw(m) => Response(500, ErrorJson(m))
                          case Responded(status) =>
                            if IsOk(status) then Response(200, SuccessJson)
                            else Response(500, ErrorJson("Discord API returned an error"))
  {
    hide Render;
    request, posted := None, None;
    if cookie != Some(SnapshotRoute.Authenticated) {
      response := Response(401, ErrorJson("Unauthorized"));
      return;
    }
    request := Some(SnapshotRequest(Url(Some(origin), SnapshotPath, []), cookie.value));
    match snapshot
    case Threw(m) =>
      response := Response(500, ErrorJson(m));
    case Responded(reply) =>
      if !reply.ok {
        response := Response(500, ErrorJson("Failed to fetch leaderboard snapshot"));
        return;
      }
      var message := BuildMessage(reply.data, money, updated);
      if !Configured(webhookUrl) {
        response := Response(500, ErrorJson("Discord webhook URL not configured"));
        return;
      }
      posted := Some(message);
      match webhookStatus
      case Threw(m) =>
        response := Response(500, ErrorJson(m));
      case Responded(status) =>
        if !IsOk(status) {
          response := Response(500, ErrorJson("Discord API returned an error"));
        } else {
          response := Response(200, SuccessJson);
        }
  }

  /**
   * The request the route makes opens the snapshot route's gate and reads
   * no window from its URL, so the posted snapshot covers the default
   * window: the environment's, or the rolling window when none is
   * configured. Whatever window the admin page was showing plays no part.
   */
  lemma PostUsesDefaultWindow(
    origin: string, env: DateRange.Env, nowMs: int, upstream: Fetched<SnapshotRoute.Reply>,
    formatDate: Option<int> -> string, formatTime: Option<int> -> string)
    ensures var req := SnapshotRequest(Url(Some(origin), SnapshotPath, []), SnapshotRoute.Authenticated);
            var o := SnapshotRoute.Get(Some(req.cookie), Param(req.url.query, "from"), Param(req.url.query, "to"),
                                       env, nowMs, upstream, formatDate, formatTime);
            var rolling := DateRange.Rolling12th(nowMs);
            && o.query.Some?
            && o == SnapshotRoute.Get(Some(SnapshotRoute.Authenticated), None, None, env, nowMs, upstream, formatDate, formatTime)
            && (!DateRange.Truthy(DateRange.FromEnv(env)) ==>
                  o.query.value == SnapshotRoute.UpstreamQuery(SnapshotRoute.BoundText(rolling.from), SnapshotRoute.BoundText(rolling.to)))
  {
    if !DateRange.Truthy(DateRange.FromEnv(env)) {
      DateRange.RollingFallback(None, None, env, nowMs);
    }
  }
}
