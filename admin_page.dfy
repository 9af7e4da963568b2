/**
 * The admin page (app/admin/page.tsx): formatSnapshot, which writes the
 * snapshot as text with `+=`, getSnapshotUrl, which carries the page's
 * from/to query parameters over to the snapshot route, and the three
 * snapshot and Discord handlers as a panel whose fields are the page's
 * React state. What the fetches return and what the clipboard write does
 * are inputs of the handlers.
 */
module AdminPage {
  import opened Wrappers
  import opened Numbers
  import opened Ranking
  import opened SnapshotText
  import opened DateRange
  import opened Urls

  /**
   * formatSnapshot: the header lines, one line per shown player, then the
   * footer. It is the admin style of the shared renderer.
   */
  method FormatSnapshot(data: Snapshot, money: int -> string, updated: string) returns (output: string)
    ensures output == Render(AdminCopy, data, money, updated)
  {
    hide Header, Row, Brackets, RankText, PrizeSuffix;
    output := OutputHeader(data.dateRange, data.prizes);
    ghost var head := output;

    var topPlayers := Shown(data.leaderboard);
    var i := 0;
    while i < |topPlayers|
      invariant 0 <= i <= |topPlayers|
      invariant output == head + Rows(AdminCopy, topPlayers[..i], money)
    {
      var line := PlayerLine(topPlayers[i], money);
      output := output + line;
      RowsSnoc(AdminCopy, topPlayers, i, money);
      i := i + 1;
    }
    assert topPlayers[..|topPlayers|] == topPlayers;
    output := output + "\n---\n";
    output := output + "*Updated: " + updated + "*\n";
  }

  /** The header lines, written one `+=` at a time. */
  method OutputHeader(d: Period, prizes: map<int, int>) returns (output: string)
    ensures output == Header(AdminCopy, d, prizes)
  {
    hide PeriodLine, PoolLine;
    output := Title;
    output := output + PeriodLine(d);
    output := output + PoolHeading;
    output := output + PoolLine(prizes, 1);
    output := output + PoolLine(prizes, 2);
    output := output + PoolLine(prizes, 3);
    output := output + PoolLine(prizes, 4);
    output := output + PoolLine(prizes, 5);
    output := output + PoolLine(prizes, 6);
    output := output + PoolLine(prizes, 7);
    output := output + PoolLine(prizes, 8);
    output := output + PoolLine(prizes, 9);
    output := output + PoolLine(prizes, 10) + "\n";
    output := output + "**Current Leaderboard:**\n\n";
  }

  /** The text one iteration of the forEach appends for a player. */
  method PlayerLine(player: Standing, money: int -> string) returns (line: string)
    ensures line == Row(AdminCopy, player, money)
  {
    hide Brackets;
    var rankStr := RankText(player.rank);
    var prizeStr := PrizeSuffix(player.prize);
    var wageredStr := AdminAmount(player.wagered, money);
    var shown;
    if player.username == Placeholder || player.wagered == 0 {
      shown := " *Awaiting player*";
    } else {
      shown := " " + player.username + " - " + wageredStr;
    }
    line := rankStr + shown + prizeStr + "\n";
  }

  /**
   * getSnapshotUrl: in the browser, a truthy from parameter of the page is
   * copied onto the snapshot route's URL, with the to parameter when that is
   * truthy too; otherwise (no from, or no window) the bare path.
   */
  function GetSnapshotUrl(window: Option<string>, from: Option<string>, to: Option<string>): (u: Url)
    ensures u.path == SnapshotPath
    ensures Param(u.query, "from") == (if window.Some? && Truthy(from) then from else None)
    ensures Param(u.query, "to") == (if window.Some? && Truthy(from) && Truthy(to) then to else None)
  {
    if window.Some? && Truthy(from) then
      var fromOnly := [("from", from.value)];
      Url(window, SnapshotPath, if Truthy(to) then fromOnly + [("to", to.value)] else fromOnly)
    else
      Url(None, SnapshotPath, [])
  }

  /**
   * In the browser, the snapshot route reads the same window from the URL
   * as it would from the page's own parameters: a to without a from is
   * dropped, and the route ignores it anyway.
   */
  lemma SnapshotUrlKeepsWindow(origin: string, from: Option<string>, to: Option<string>, env: Env, nowMs: int)
    ensures var u := GetSnapshotUrl(Some(origin), from, to);
            ResolveRange(Param(u.query, "from"), Param(u.query, "to"), env, nowMs)
            == ResolveRange(from, to, env, nowMs)
  {
    var u := GetSnapshotUrl(Some(origin), from, to);
    if Truthy(from) && !Truthy(to) {
      assert !Truthy(Param(u.query, "to"));
    }
  }

  /** `err.message || fallback`: the message, or the fallback when the message is empty. */
  function ErrorText(message: string, fallback: string): (e: string)
    ensures fallback != "" ==> e != ""
    ensures message != "" ==> e == message
    ensures message == "" ==> e == fallback
  {
    if message != "" then message else fallback
  }

  /** What fetching the snapshot route resolved to: response.ok and the parsed JSON. */
  datatype SnapshotReply = SnapshotReply(ok: bool, data: Snapshot)

  /** What the Discord route answered: response.ok and the error field of its JSON. */
  datatype DiscordReply = DiscordReply(ok: bool, error: Option<string>)

  /** The message thrown, for a snapshot fetch that threw or answered with a non-ok status. */
  function SnapshotFailure(reply: Fetched<SnapshotReply>): string
    requires reply.Threw? || !reply.value.ok
  {
    if reply.Threw? then reply.message else "Failed to fetch snapshot"
  }

  /**
   * The message thrown by the Discord push: what the fetch threw, or for a
   * non-ok answer the route's error, or "Failed to send" when the answer
   * carries no error text.
   */
  function DiscordFailure(reply: Fetched<DiscordReply>): (m: string)
    requires reply.Threw? || !reply.value.ok
    ensures reply.Threw? ==> m == reply.message
    ensures reply.Responded? && reply.value.error.Some? && reply.value.error.value != "" ==> m == reply.value.error.value
    ensures reply.Responded? && (reply.value.error.None? || reply.value.error.value == "") ==> m == "Failed to send"
    ensures reply.Responded? ==> m != ""
  {
    if reply.Threw? then reply.message
    else if reply.value.error.Some? && reply.value.error.value != "" then reply.value.error.value
    else "Failed to send"
  }

  /**
   * The admin panel's state: the error banner, the loading and success
   * flags, what was last written to the clipboard and the files downloaded.
   */
  class AdminPanel {
    var error: string
    var snapshotLoading: bool
    var snapshotSuccess: bool
    var discordLoading: bool
    var discordSuccess: bool
    var clipboard: Option<string>
    var downloads: seq<string>

    /** No handler is running. */
    predicate Idle()
      reads this
    {
      !snapshotLoading && !discordLoading
    }

    /** The state the page starts with. */
    constructor ()
      ensures Idle() && error == "" && !snapshotSuccess && !discordSuccess
      ensures clipboard.None? && downloads == []
    {
      error := "";
      snapshotLoading, snapshotSuccess := false, false;
      discordLoading, discordSuccess := false, false;
      clipboard, downloads := None, [];
    }

    /**
     * handleCopySnapshot: fetch the snapshot, format it and write it to the
     * clipboard; `clipboardError` is the message of a clipboard write that
     * throws. It returns the URL fetched.
     */
    method CopySnapshot(
      window: Option<string>, from: Option<string>, to: Option<string>, reply: Fetched<SnapshotReply>,
      clipboardError: Option<string>, money: int -> string, updated: string)
      returns (url: Url)
      modifies this
      ensures old(Idle()) ==> Idle()
      ensures url == GetSnapshotUrl(window, from, to)
      ensures !snapshotLoading
      ensures discordLoading == old(discordLoading) && discordSuccess == old(discordSuccess)
      ensures downloads == old(downloads)
      ensures reply.Threw? || !reply.value.ok ==>
                && error == ErrorText(SnapshotFailure(reply), "Failed to copy snapshot")
                && !snapshotSuccess && clipboard == old(clipboard)
      ensures reply.Responded? && reply.value.ok && clipboardError.None? ==>
                clipboard == Some(Render(AdminCopy, reply.value.data, money, updated))
      ensures reply.Responded? && reply.value.ok && clipboardError.Some? ==>
                && error == ErrorText(clipboardError.value, "Failed to copy snapshot") && !snapshotSuccess
                && clipboard == old(clipboard)
      ensures reply.Responded? && reply.value.ok && clipboardError.None? ==>
                error == "" && snapshotSuccess
    {
      hide Render, GetSnapshotUrl, Brackets;
      snapshotLoading := true;
      snapshotSuccess := false;
      error := "";
      url := GetSnapshotUrl(window, from, to);
      if reply.Threw? || !reply.value.ok {
        error := ErrorText(SnapshotFailure(reply), "Failed to copy snapshot");
      } else {
        var formatted := FormatSnapshot(reply.value.data, money, updated);
        if clipboardError.Some? {
          error := ErrorText(clipboardError.value, "Failed to copy snapshot");
        } else {
          clipboard := Some(formatted);
          snapshotSuccess := true;
        }
      }
      snapshotLoading := false;
    }

    /**
     * handleDownloadSnapshot: fetch the snapshot, format it and save it as
     * a file. It does not clear the success flag first, so a failure leaves
     * the flag of an earlier success as it was.
     */
    method DownloadSnapshot(
      window: Option<string>, from: Option<string>, to: Option<string>, reply: Fetched<SnapshotReply>,
      money: int -> string, updated: string)
      returns (url: Url)
      modifies this
      ensures old(Idle()) ==> Idle()
      ensures url == GetSnapshotUrl(window, from, to)
      ensures !snapshotLoading
      ensures discordLoading == old(discordLoading) && discordSuccess == old(discordSuccess)
      ensures clipboard == old(clipboard)
      ensures reply.Threw? || !reply.value.ok ==>
                && error == ErrorText(SnapshotFailure(reply), "Failed to download snapshot")
                && snapshotSuccess == old(snapshotSuccess) && downloads == old(downloads)
      ensures reply.Responded? && reply.value.ok ==>
                && downloads == old(downloads) + [Render(AdminCopy, reply.value.data, money, updated)]
                && error == "" && snapshotSuccess
    {
      hide Render, GetSnapshotUrl, Brackets;
      snapshotLoading := true;
      error := "";
      url := GetSnapshotUrl(window, from, to);
      if reply.Threw? || !reply.value.ok {
        error := ErrorText(SnapshotFailure(reply), "Failed to download snapshot");
      } else {
        var formatted := FormatSnapshot(reply.value.data, money, updated);
        downloads := downloads + [formatted];
        snapshotSuccess := true;
      }
      snapshotLoading := false;
    }

    /** handlePushToDiscord: ask the Discord route to post the snapshot. */
    method PushToDiscord(reply: Fetched<DiscordReply>)
      modifies this
      ensures old(Idle()) ==> Idle()
      ensures !discordLoading
      ensures snapshotLoading == old(snapshotLoading) && snapshotSuccess == old(snapshotSuccess)
      ensures clipboard == old(clipboard) && downloads == old(downloads)
      ensures reply.Threw? || !reply.value.ok ==>
                error == ErrorText(DiscordFailure(reply), "Error sending to Discord") && !discordSuccess
      ensures reply.Responded? && reply.value.ok ==> error == "" && discordSuccess
    {
      discordLoading := true;
      discordSuccess := false;
      error := "";
      if reply.Threw? || !reply.value.ok {
        error := ErrorText(DiscordFailure(reply), "Error sending to Discord");
      } else {
        discordSuccess := true;
      }
      discordLoading := false;
    }
  }
}
