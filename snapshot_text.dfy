/**
 * The text snapshot of the leaderboard, as the Discord route
 * (app/api/admin/discord/route.ts, POST) and the admin page
 * (app/admin/page.tsx, formatSnapshot) write it. The two renderers differ
 * only in a few places, so they are one function with a Style: the
 * standings heading, how a player with an amount is shown (masked in
 * backticks, or as is), how a non-positive amount is written, and the
 * footer's final newline. Locale formatting of amounts (toLocaleString with
 * two decimals) is the parameter `money`; the "Updated" clock reading is the
 * string `updated`.
 */
module SnapshotText {
  import opened Numbers
  import opened Ranking

  /** The username that stands for an empty place. */
  const Placeholder: string := "Awaiting player"

  /**
   * toUpperCase on one character, ASCII letters only: no lower-case
   * letter is left, a lower-case letter becomes its own capital, and every
   * other character is kept.
   */
  function UpperChar(c: char): (d: char)
    ensures !('a' <= d <= 'z')
    ensures 'a' <= c <= 'z' ==> 'A' <= d <= 'Z' && d as int == c as int - 32
    ensures !('a' <= c <= 'z') ==> d == c
  {
    if 'a' <= c <= 'z' then (c as int - 32) as char else c
  }

  function Upper(s: string): (r: string)
    ensures |r| == |s|
    ensures forall i :: 0 <= i < |s| ==> r[i] == UpperChar(s[i])
  {
    if s == [] then [] else [UpperChar(s[0])] + Upper(s[1..])
  }

  /** "*".repeat(n) */
  function Stars(n: nat): (r: string)
    ensures |r| == n
    ensures forall i :: 0 <= i < n ==> r[i] == '*'
  {
    if n == 0 then [] else Stars(n - 1) + ['*']
  }

  /**
   * maskUsername: the placeholder and names of at most 4 characters are
   * left alone; a longer name keeps its first two characters (upper-cased)
   * and its last two, and every character between becomes '*'.
   */
  function MaskUsername(u: string): (r: string)
    ensures |r| == |u|
    ensures u == Placeholder || |u| <= 4 ==> r == u
    ensures u != Placeholder && |u| > 4 ==>
              && r[..2] == Upper(u[..2])
              && r[|u| - 2..] == u[|u| - 2..]
              && (forall i :: 2 <= i < |u| - 2 ==> r[i] == '*')
  {
    if u == Placeholder || |u| <= 4 then u
    else Upper(u[..2]) + Stars(|u| - 4) + u[|u| - 2..]
  }

  lemma UpperIdempotent(s: string)
    ensures Upper(Upper(s)) == Upper(s)
  {
  }

  /** Masking a masked name changes nothing. */
  lemma MaskIdempotent(u: string)
    ensures MaskUsername(MaskUsername(u)) == MaskUsername(u)
  {
    var r := MaskUsername(u);
    if u != Placeholder && |u| > 4 {
      assert r[2] == '*' && Placeholder[2] == 'a';
      assert r[..2] == Upper(u[..2]);
      UpperIdempotent(u[..2]);
      assert r == Upper(r[..2]) + Stars(|r| - 4) + r[|r| - 2..];
    }
  }

  /**
   * The mask reveals only the length, the first two characters up to case
   * and the last two characters: names that agree on these mask alike.
   */
  lemma MaskHidesMiddle(u: string, v: string)
    requires u != Placeholder && v != Placeholder && |u| == |v| > 4
    requires Upper(u[..2]) == Upper(v[..2]) && u[|u| - 2..] == v[|v| - 2..]
    ensures MaskUsername(u) == MaskUsername(v)
  {
  }

  datatype Style = DiscordPost | AdminCopy

  /** The dateRange strings of the snapshot (locale-formatted by the snapshot route). */
  datatype Period = Period(start: string, startTime: string, end: string, endTime: string)

  /** The snapshot JSON the renderers read: leaderboard, dateRange and prizes. */
  datatype Snapshot = Snapshot(leaderboard: seq<Standing>, dateRange: Period, prizes: map<int, int>)

  /** `${prizes[k]}`: the prize, or "undefined" when the object lacks rank k. */
  function PrizeText(prizes: map<int, int>, k: int): string {
    if k in prizes then IntText(prizes[k]) else "undefined"
  }

  /** The label of rank k in the prize pool: medals and ordinals. */
  function PoolLabel(k: int): string
    requires 1 <= k <= 10
  {
    if k == 1 then "🥇 1st" else if k == 2 then "🥈 2nd" else if k == 3 then "🥉 3rd"
    else NatText(k) + "th"
  }

  /** The prize pool line of rank k. */
  function PoolLine(prizes: map<int, int>, k: int): string
    requires 1 <= k <= 10
  {
    PoolLabel(k) + ": $" + PrizeText(prizes, k) + "\n"
  }

  /** The heading of the standings. */
  function StandingsHeading(style: Style): string {
    match style
    case DiscordPost => "**Current Standings:**\n\n"
    case AdminCopy => "**Current Leaderboard:**\n\n"
  }

  const Title: string := "🏆 **4k Race** 🏆\n\n"
  const PoolHeading: string := "💰 **Prize Pool:**\n"

  function PeriodLine(d: Period): string {
    "📅 **Period:** " + d.start + " " + d.startTime + " → " + d.end + " " + d.endTime + "\n\n"
  }

  /** Everything before the standings: title, period, the prize pool of ranks 1 to 10 and the heading. */
  function Header(style: Style, d: Period, prizes: map<int, int>): string {
    Title + PeriodLine(d) + PoolHeading
    + PoolLine(prizes, 1) + PoolLine(prizes, 2) + PoolLine(prizes, 3) + PoolLine(prizes, 4)
    + PoolLine(prizes, 5) + PoolLine(prizes, 6) + PoolLine(prizes, 7) + PoolLine(prizes, 8)
    + PoolLine(prizes, 9) + PoolLine(prizes, 10) + "\n"
    + StandingsHeading(style)
  }

  function Footer(style: Style, updated: string): string {
    match style
    case DiscordPost => "\n---\n*Updated: " + updated + "*"
    case AdminCopy => "\n---\n" + "*Updated: " + updated + "*\n"
  }

  function Medal(rank: int): (m: string)
    ensures m != "" <==> 1 <= rank <= 3
  {
    if rank == 1 then "🥇" else if rank == 2 then "🥈" else if rank == 3 then "🥉" else ""
  }

  /** rankStr: `medal **r.**` for the first three ranks, `r.` for the rest. */
  function RankText(rank: int): string {
    var medal := Medal(rank);
    if medal != "" then medal + " **" + IntText(rank) + ".**" else IntText(rank) + "."
  }

  /** The ` | Prize: **$p**` suffix, present only for a positive prize. */
  function PrizeSuffix(prize: int): (s: string)
    ensures s != "" <==> prize > 0
  {
    if prize > 0 then " | Prize: **$" + IntText(prize) + "**" else ""
  }

  /** The row shows the placeholder text instead of a player. */
  predicate IsPlaceholder(p: Standing) {
    p.username == Placeholder || p.wagered == 0
  }

  /** The amount as the admin page writes it: $0.00 unless positive. */
  function AdminAmount(w: int, money: int -> string): (s: string)
    ensures w <= 0 ==> s == "$0.00"
  {
    if w > 0 then "$" + money(w) else "$0.00"
  }

  /** s opens with head and closes with tail. */
  predicate Brackets(s: string, head: string, tail: string) {
    && |head| <= |s| && s[..|head|] == head
    && |tail| <= |s| && s[|s| - |tail|..] == tail
  }

  /** A text made of four parts opens with the first and closes with the last two. */
  lemma BracketsOfParts(a: string, b: string, c: string, d: string)
    ensures Brackets(a + b + c + d, a, c + d)
  {
    var s := a + b + c + d;
    assert s == (a + b) + (c + d);
    assert s[..|a|] == a;
  }

  /** A text made of three parts opens with the first and closes with the last. */
  lemma BracketsOfThree(a: string, b: string, c: string)
    ensures Brackets(a + b + c, a, c)
  {
    var s := a + b + c;
    assert s == a + (b + c);
  }

  /** What a standing line shows between the rank and the prize suffix. */
  function PlayerText(style: Style, p: Standing, money: int -> string): string {
    if IsPlaceholder(p) then " *Awaiting player*"
    else
      match style
      case DiscordPost => " `" + MaskUsername(p.username) + "` - $" + money(p.wagered)
      case AdminCopy => " " + p.username + " - " + AdminAmount(p.wagered, money)
  }

  /**
   * The standing line of one player: it opens with the rank text and ends
   * with the prize suffix and a newline.
   */
  function Row(style: Style, p: Standing, money: int -> string): (r: string)
    ensures Brackets(r, RankText(p.rank), PrizeSuffix(p.prize) + "\n")
  {
    BracketsOfParts(RankText(p.rank), PlayerText(style, p, money), PrizeSuffix(p.prize), "\n");
    RankText(p.rank) + PlayerText(style, p, money) + PrizeSuffix(p.prize) + "\n"
  }

  /** The standing lines of ps, in order. */
  function Rows(style: Style, ps: seq<Standing>, money: int -> string): string {
    if ps == [] then "" else Rows(style, ps[..|ps| - 1], money) + Row(style, ps[|ps| - 1], money)
  }

  /** At most the first 20 entries are shown (leaderboard.slice(0, 20)). */
  function Shown(leaderboard: seq<Standing>): (r: seq<Standing>)
    ensures |r| == if |leaderboard| < 20 then |leaderboard| else 20
    ensures r <= leaderboard
  {
    if |leaderboard| <= 20 then leaderboard else leaderboard[..20]
  }

  /**
   * The whole text of the snapshot: the header, the lines of the shown
   * entries, then the footer with the update time.
   */
  function Render(style: Style, snap: Snapshot, money: int -> string, updated: string): (r: string)
    ensures Brackets(r, Header(style, snap.dateRange, snap.prizes), Footer(style, updated))
  {
    BracketsOfThree(Header(style, snap.dateRange, snap.prizes), Rows(style, Shown(snap.leaderboard), money), Footer(style, updated));
    Header(style, snap.dateRange, snap.prizes) + Rows(style, Shown(snap.leaderboard), money) + Footer(style, updated)
  }

  /** A placeholder line never shows the username: it reads the same whatever the name is. */
  lemma PlaceholderIgnoresName(style: Style, p: Standing, name: string, money: int -> string)
    requires p.wagered == 0
    ensures Row(style, p, money) == Row(style, p.(username := name), money)
  {
  }

  /** Placeholder lines are the same in the Discord message and in the admin copy. */
  lemma PlaceholderRowsAgree(p: Standing, m1: int -> string, m2: int -> string)
    requires IsPlaceholder(p)
    ensures Row(DiscordPost, p, m1) == Row(AdminCopy, p, m2)
  {
  }

  /** The Discord message shows a player's name only through its mask. */
  lemma DiscordShowsOnlyMask(p: Standing, name: string, money: int -> string)
    requires !IsPlaceholder(p) && name != Placeholder
    requires MaskUsername(name) == MaskUsername(p.username)
    ensures Row(DiscordPost, p, money) == Row(DiscordPost, p.(username := name), money)
  {
  }

  /**
   * The admin copy shows a player's name as is, right after the rank,
   * followed by the amount.
   */
  lemma AdminShowsName(p: Standing, money: int -> string)
    requires !IsPlaceholder(p)
    ensures var h := RankText(p.rank) + " " + p.username + " - " + AdminAmount(p.wagered, money);
            |h| <= |Row(AdminCopy, p, money)| && Row(AdminCopy, p, money)[..|h|] == h
  {
    hide Brackets, RankText, PrizeSuffix, AdminAmount;
    var rank, amount, suffix := RankText(p.rank), AdminAmount(p.wagered, money), PrizeSuffix(p.prize);
    var h := rank + " " + p.username + " - " + amount;
    assert PlayerText(AdminCopy, p, money) == " " + p.username + " - " + amount;
    var r := Row(AdminCopy, p, money);
    assert r == rank + (" " + p.username + " - " + amount) + suffix + "\n";
    assert r == h + (suffix + "\n");
  }

  /**
   * The Discord message shows a player's masked name in backticks right
   * after the rank, followed by the amount.
   */
  lemma DiscordShowsMask(p: Standing, money: int -> string)
    requires !IsPlaceholder(p)
    ensures var h := RankText(p.rank) + " `" + MaskUsername(p.username) + "` - $" + money(p.wagered);
            |h| <= |Row(DiscordPost, p, money)| && Row(DiscordPost, p, money)[..|h|] == h
  {
    hide Brackets, RankText, PrizeSuffix, MaskUsername;
    var rank, suffix := RankText(p.rank), PrizeSuffix(p.prize);
    var body := " `" + MaskUsername(p.username) + "` - $" + money(p.wagered);
    assert PlayerText(DiscordPost, p, money) == body;
    var r := Row(DiscordPost, p, money);
    assert r == rank + body + suffix + "\n";
    assert r == (rank + body) + (suffix + "\n");
  }

  /** A placeholder row, in either style, shows *Awaiting player* right after the rank. */
  lemma PlaceholderShown(style: Style, p: Standing, money: int -> string)
    requires IsPlaceholder(p)
    ensures var h := RankText(p.rank) + " *Awaiting player*";
            |h| <= |Row(style, p, money)| && Row(style, p, money)[..|h|] == h
  {
    hide Brackets, RankText, PrizeSuffix;
    var rank, suffix := RankText(p.rank), PrizeSuffix(p.prize);
    assert PlayerText(style, p, money) == " *Awaiting player*";
    var r := Row(style, p, money);
    assert r == (rank + " *Awaiting player*") + (suffix + "\n");
  }

  /** Entries after the 20th never reach the text. */
  lemma RenderShowsTop20(style: Style, snap: Snapshot, tail: seq<Standing>, money: int -> string, updated: string)
    requires |snap.leaderboard| >= 20
    ensures Render(style, snap, money, updated)
            == Render(style, snap.(leaderboard := snap.leaderboard[..20] + tail), money, updated)
  {
    hide Rows, Header, Footer;
    var l := snap.leaderboard[..20] + tail;
    assert l[..20] == snap.leaderboard[..20];
    assert Shown(snap.leaderboard) == snap.leaderboard[..20];
    assert Shown(l) == snap.leaderboard[..20];
  }

  /** The lines of ps and one more entry are the lines of ps followed by that entry's line. */
  lemma RowsSnoc(style: Style, ps: seq<Standing>, i: int, money: int -> string)
    requires 0 <= i < |ps|
    ensures Rows(style, ps[..i + 1], money) == Rows(style, ps[..i], money) + Row(style, ps[i], money)
  {
    assert ps[..i + 1][..i] == ps[..i];
  }
}
