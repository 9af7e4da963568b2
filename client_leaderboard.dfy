/**
 * The public leaderboard component (components/slot-streamer-leaderboard.tsx):
 * the countdown shown under the standings, which an interval moves one
 * second at a time, and the fetch that turns the affiliates API's answer
 * into at most three displayed entries, falling back to mock data when
 * anything goes wrong. The fetch result is an input; JavaScript values
 * read from the answer are JsValue, with `||` choosing the first truthy one.
 */
module ClientLeaderboard {
  import opened Wrappers
  import opened Numbers

  /** Days, hours, minutes and seconds left. */
  datatype TimeLeft = TimeLeft(days: int, hours: int, minutes: int, seconds: int)

  /** The countdown the component starts from. */
  const InitialTimeLeft: TimeLeft := TimeLeft(19, 3, 19, 42)

  /** The time left in seconds. */
  function Total(t: TimeLeft): int {
    t.days * 86400 + t.hours * 3600 + t.minutes * 60 + t.seconds
  }

  /** No field is negative, and hours, minutes and seconds are within a day, an hour and a minute. */
  predicate Bounded(t: TimeLeft) {
    t.days >= 0 && 0 <= t.hours <= 23 && 0 <= t.minutes <= 59 && 0 <= t.seconds <= 59
  }

  /**
   * The setTimeLeft updater of one interval tick: take a second off the
   * lowest field that is positive, refilling the fields below it; with
   * nothing positive the state is returned unchanged.
   */
  function Tick(prev: TimeLeft): (next: TimeLeft)
    ensures prev.seconds <= 0 && prev.minutes <= 0 && prev.hours <= 0 && prev.days <= 0 ==> next == prev
    ensures next.days == prev.days || next.days == prev.days - 1
  {
    if prev.seconds > 0 then prev.(seconds := prev.seconds - 1)
    else if prev.minutes > 0 then prev.(minutes := prev.minutes - 1, seconds := 59)
    else if prev.hours > 0 then prev.(hours := prev.hours - 1, minutes := 59, seconds := 59)
    else if prev.days > 0 then prev.(days := prev.days - 1, hours := 23, minutes := 59, seconds := 59)
    else prev
  }

  /** With no negative field and time left, a tick takes exactly one second off. */
  lemma TickTakesOneSecond(t: TimeLeft)
    requires t.days >= 0 && t.hours >= 0 && t.minutes >= 0 && t.seconds >= 0
    requires Total(t) > 0
    ensures Total(Tick(t)) == Total(t) - 1
  {
  }

  /** A tick keeps the countdown bounded. */
  lemma TickKeepsBounds(t: TimeLeft)
    requires Bounded(t)
    ensures Bounded(Tick(t))
    ensures Total(t) == 0 <==> Tick(t) == t
  {
  }

  /** n ticks of the interval. */
  function Ticks(t: TimeLeft, n: nat): TimeLeft
    decreases n
  {
    if n == 0 then t else Ticks(Tick(t), n - 1)
  }

  /**
   * A bounded countdown runs down one second per tick and then stays at
   * zero: after n ticks the time left is Total - n, or zero.
   */
  lemma {:induction false} CountdownRunsDown(t: TimeLeft, n: nat)
    requires Bounded(t)
    ensures Bounded(Ticks(t, n))
    ensures Total(Ticks(t, n)) == if n <= Total(t) then Total(t) - n else 0
    decreases n
  {
    if n > 0 {
      TickKeepsBounds(t);
      if Total(t) > 0 {
        TickTakesOneSecond(t);
      }
      CountdownRunsDown(Tick(t), n - 1);
    }
  }

  /** After exactly Total ticks a bounded countdown shows 0d 0h 0m 0s. */
  lemma CountdownReachesZero(t: TimeLeft)
    requires Bounded(t)
    ensures Total(t) >= 0 && Ticks(t, Total(t)) == TimeLeft(0, 0, 0, 0)
  {
    CountdownRunsDown(t, Total(t));
  }

  /** A JavaScript value read from the API's JSON. */
  datatype JsValue = Undefined | Null | Bool(b: bool) | Num(n: int) | Str(s: string) | Object

  /** The values `||` passes over: undefined, null, false, 0 and "". */
  predicate Truthy(v: JsValue) {
    match v
    case Undefined => false
    case Null => false
    case Bool(b) => b
    case Num(n) => n != 0
    case Str(s) => s != ""
    case Object => true
  }

  /** a || b */
  function Or(a: JsValue, b: JsValue): (r: JsValue)
    ensures r == a || r == b
    ensures Truthy(r) <==> Truthy(a) || Truthy(b)
    ensures Truthy(a) ==> r == a
  {
    if Truthy(a) then a else b
  }

  /** The fields of an entry of the API's leaderboard array that the transform reads. */
  datatype RawEntry = RawEntry(
    id: JsValue, username: JsValue, name: JsValue,
    wagered: JsValue, totalWagered: JsValue, prize: JsValue, reward: JsValue)

  /** An entry as the component displays it. */
  datatype Entry = Entry(id: JsValue, username: JsValue, wagered: JsValue, prize: JsValue, rank: int)

  /** The mock list shown when loading fails. */
  const MockEntries: seq<Entry> := [
    Entry(Str("1"), Str("DA***KE"), Num(10586), Num(200), 1),
    Entry(Str("2"), Str("Po***es"), Num(22205), Num(300), 2),
    Entry(Str("3"), Str("We***07"), Num(9178), Num(100), 3)
  ]

  /** The transform of the entry at position index, with the `||` fallbacks. */
  function ToEntry(e: RawEntry, index: nat): (r: Entry)
    ensures r.rank == index + 1
    ensures Truthy(r.id) && Truthy(r.username)
    ensures Truthy(e.id) ==> r.id == e.id
    ensures !Truthy(e.id) ==> r.id == Str(NatText(index + 1))
    ensures Truthy(e.username) ==> r.username == e.username
    ensures !Truthy(e.username) && Truthy(e.name) ==> r.username == e.name
    ensures !Truthy(e.username) && !Truthy(e.name) ==> r.username == Str("Player" + NatText(index + 1))
    ensures r.wagered in {e.wagered, e.totalWagered, Num(0)} && (Truthy(r.wagered) || r.wagered == Num(0))
    ensures Truthy(e.wagered) ==> r.wagered == e.wagered
    ensures !Truthy(e.wagered) && Truthy(e.totalWagered) ==> r.wagered == e.totalWagered
    ensures !Truthy(e.wagered) && !Truthy(e.totalWagered) ==> r.wagered == Num(0)
    ensures r.prize in {e.prize, e.reward, Num(0)} && (Truthy(r.prize) || r.prize == Num(0))
    ensures Truthy(e.prize) ==> r.prize == e.prize
    ensures !Truthy(e.prize) && Truthy(e.reward) ==> r.prize == e.reward
    ensures !Truthy(e.prize) && !Truthy(e.reward) ==> r.prize == Num(0)
  {
    Entry(
      Or(e.id, Str(NatText(index + 1))),
      Or(Or(e.username, e.name), Str("Player" + NatText(index + 1))),
      Or(Or(e.wagered, e.totalWagered), Num(0)),
      Or(Or(e.prize, e.reward), Num(0)),
      index + 1)
  }

  /**
   * The items of the leaderboard array: an object, or null/undefined, whose
   * fields cannot be read (the transform throws).
   */
  type Item = Option<RawEntry>

  /** data.leaderboard: absent (undefined or null), an array, or a value without a map method. */
  datatype Board = NoBoard | BoardArray(items: seq<Item>) | BoardNotArray

  /** transformedData: the mapped array, [] for an absent board, or the TypeError the map raises. */
  function Transform(board: Board): (r: Option<seq<Entry>>)
    ensures board.NoBoard? ==> r == Some([])
    ensures board.BoardNotArray? ==> r.None?
    ensures board.BoardArray? ==>
              (r.Some? <==> forall i :: 0 <= i < |board.items| ==> board.items[i].Some?)
    ensures board.BoardArray? && r.Some? ==>
              && |r.value| == |board.items|
              && forall i :: 0 <= i < |r.value| ==> r.value[i] == ToEntry(board.items[i].value, i)
  {
    match board
    case NoBoard => Some([])
    case BoardNotArray => None
    case BoardArray(items) =>
      if forall i :: 0 <= i < |items| ==> items[i].Some? then
        Some(seq(|items|, i requires 0 <= i < |items| => ToEntry(items[i].value, i)))
      else None
  }

  /** transformedData.slice(0, 3) */
  function Top3(entries: seq<Entry>): (r: seq<Entry>)
    ensures r <= entries
    ensures |r| == if |entries| < 3 then |entries| else 3
  {
    if |entries| <= 3 then entries else entries[..3]
  }

  /** The first three entries decide the slice: whatever follows them is dropped. */
  lemma Top3IgnoresRest(entries: seq<Entry>, more: seq<Entry>)
    requires |entries| >= 3
    ensures Top3(entries + more) == Top3(entries)
  {
    assert (entries + more)[..3] == entries[..3];
  }

  /** What the API fetch resolved to: the status and the JSON's leaderboard (None when the body is not JSON). */
  datatype ApiReply = ApiReply(status: int, board: Option<Board>)

  /** The entries a fetch yields, or None when it throws on the way. */
  function Loaded(reply: Fetched<ApiReply>): (r: Option<seq<Entry>>)
    ensures r.Some? ==> reply.Responded? && IsOk(reply.value.status) && reply.value.board.Some?
    ensures r.Some? ==> |r.value| <= 3
    ensures reply.Responded? && IsOk(reply.value.status) && reply.value.board == Some(NoBoard) ==> r == Some([])
    ensures reply.Responded? && reply.value.board == Some(BoardNotArray) ==> r.None?
    ensures reply.Responded? && IsOk(reply.value.status) && reply.value.board.Some? ==>
              (Transform(reply.value.board.value).Some? ==> r == Some(Top3(Transform(reply.value.board.value).value)))
              && (Transform(reply.value.board.value).None? ==> r.None?)
  {
    match reply
    case Threw(_) => None
    case Responded(r) =>
      if !IsOk(r.status) || r.board.None? then None
      else
        match Transform(r.board.value)
        case None => None
        case Some(entries) => Some(Top3(entries))
  }

  /** The error the component shows when loading fails. */
  const LoadError: string := "Failed to load leaderboard data"

  /**
   * A successful load shows at most three entries, ranked 1, 2, 3 in the
   * order of the API's array; entries past the third are never shown.
   */
  lemma LoadedRanks(reply: Fetched<ApiReply>)
    requires Loaded(reply).Some?
    ensures var shown := Loaded(reply).value;
            |shown| <= 3 && forall i :: 0 <= i < |shown| ==> shown[i].rank == i + 1
  {
  }

  /** The mock list has three entries, ranked 1 to 3. */
  lemma MockRanks()
    ensures |MockEntries| == 3 && forall i :: 0 <= i < 3 ==> MockEntries[i].rank == i + 1
  {
  }

  /** The component's state: the entries shown, the loading flag, the error and the countdown. */
  class LeaderboardView {
    var leaderboardData: seq<Entry>
    var loading: bool
    var error: Option<string>
    var timeLeft: TimeLeft

    /** The countdown is bounded and the list holds at most three entries. */
    predicate Valid()
      reads this
    {
      Bounded(timeLeft) && |leaderboardData| <= 3
    }

    /** The state on mount: nothing loaded, loading, no error, the initial countdown. */
    constructor ()
      ensures Valid()
      ensures leaderboardData == [] && loading && error.None? && timeLeft == InitialTimeLeft
    {
      leaderboardData := [];
      loading := true;
      error := None;
      timeLeft := InitialTimeLeft;
    }

    /** fetchLeaderboard: the top three of the transformed answer, or the mock list and the error. */
    method FetchLeaderboard(reply: Fetched<ApiReply>)
      requires Valid()
      modifies this
      ensures Valid()
      ensures !loading && timeLeft == old(timeLeft)
      ensures Loaded(reply).Some? ==> leaderboardData == Loaded(reply).value && error.None?
      ensures Loaded(reply).None? ==> leaderboardData == MockEntries && error == Some(LoadError)
    {
      loading := true;
      error := None;
      var loaded := Loaded(reply);
      if loaded.Some? {
        leaderboardData := loaded.value;
      } else {
        error := Some(LoadError);
        leaderboardData := MockEntries;
      }
      loading := false;
    }

    /** One second of the countdown interval. */
    method TickCountdown()
      requires Valid()
      modifies this
      ensures Valid()
      ensures timeLeft == Tick(old(timeLeft))
      ensures Total(old(timeLeft)) > 0 ==> Total(timeLeft) == Total(old(timeLeft)) - 1
      ensures leaderboardData == old(leaderboardData) && loading == old(loading) && error == old(error)
    {
      TickKeepsBounds(timeLeft);
      if Total(timeLeft) > 0 {
        TickTakesOneSecond(timeLeft);
      }
      timeLeft := Tick(timeLeft);
    }
  }
}
