/**
 * The history dashboard (src/pages/Dashboard.tsx): the history list, deletion by
 * id, the three statistics and the history table. Timestamps are milliseconds
 * since the epoch; the calendar month of a timestamp is an abstract function.
 */
module Dashboard {
  import opened Wrappers

  /** One processed video of the history. */
  datatype VideoResult = VideoResult(id: string, videoTitle: string, createdAt: int,
                                     summary: string, transcript: string)

  /** The signed-in user; only the e-mail address is shown. */
  datatype User = User(id: string, email: string)

  // ---------------------------------------------------------------------------
  // Array.prototype.filter on sequences
  // ---------------------------------------------------------------------------

  /** The elements of `s` that satisfy `p`, in their original order. */
  function Filter<T>(s: seq<T>, p: T -> bool): seq<T>
  {
    if s == [] then [] else (if p(s[0]) then [s[0]] else []) + Filter(s[1..], p)
  }

  /** An element is kept exactly when it occurs in `s` and satisfies `p`. */
  lemma {:induction false} FilterMembership<T>(s: seq<T>, p: T -> bool, x: T)
    ensures x in Filter(s, p) <==> x in s && p(x)
  {
    if s != [] {
      FilterMembership(s[1..], p, x);
      assert s == [s[0]] + s[1..];
    }
  }

  /** Filtering never lengthens, and keeps the length exactly when every element is kept. */
  lemma {:induction false} FilterLength<T>(s: seq<T>, p: T -> bool)
    ensures |Filter(s, p)| <= |s|
    ensures |Filter(s, p)| == |s| <==> forall i :: 0 <= i < |s| ==> p(s[i])
  {
    if s != [] {
      FilterLength(s[1..], p);
      assert forall i :: 1 <= i < |s| ==> s[i] == s[1..][i - 1];
    }
  }

  /** When every element satisfies `p`, filtering is the identity. */
  lemma {:induction false} FilterKeepsAll<T>(s: seq<T>, p: T -> bool)
    requires forall i :: 0 <= i < |s| ==> p(s[i])
    ensures Filter(s, p) == s
  {
    if s != [] {
      FilterKeepsAll(s[1..], p);
      assert s == [s[0]] + s[1..];
    }
  }

  /** Filtering distributes over concatenation, so the kept elements stay in order. */
  lemma {:induction false} FilterAppend<T>(a: seq<T>, b: seq<T>, p: T -> bool)
    ensures Filter(a + b, p) == Filter(a, p) + Filter(b, p)
  {
    if a != [] {
      FilterAppend(a[1..], b, p);
      assert (a + b)[1..] == a[1..] + b;
    } else {
      assert a + b == b;
    }
  }

  /** A one-element sequence keeps its element or loses it. */
  lemma FilterSingleton<T>(x: T, p: T -> bool)
    ensures Filter([x], p) == if p(x) then [x] else []
  {
    assert [x][1..] == [];
  }

  /** Filtering twice by two conditions does not depend on their order. */
  lemma {:induction false} FilterCommutes<T>(s: seq<T>, p: T -> bool, q: T -> bool)
    ensures Filter(Filter(s, p), q) == Filter(Filter(s, q), p)
  {
    if s != [] {
      FilterCommutes(s[1..], p, q);
      var h := if p(s[0]) then [s[0]] else [];
      var k := if q(s[0]) then [s[0]] else [];
      FilterAppend(h, Filter(s[1..], p), q);
      FilterAppend(k, Filter(s[1..], q), p);
    }
  }

  /** Filtering by the same condition twice is filtering once. */
  lemma FilterIdempotent<T>(s: seq<T>, p: T -> bool)
    ensures Filter(Filter(s, p), p) == Filter(s, p)
  {
    forall i | 0 <= i < |Filter(s, p)|
      ensures p(Filter(s, p)[i])
    {
      FilterMembership(s, p, Filter(s, p)[i]);
    }
    FilterKeepsAll(Filter(s, p), p);
  }

  // ---------------------------------------------------------------------------
  // Deletion
  // ---------------------------------------------------------------------------

  /** The history with every entry of the given id removed. */
  function Deleted(history: seq<VideoResult>, id: string): (r: seq<VideoResult>)
    ensures |r| <= |history|
    ensures |r| == |history| <==> forall i :: 0 <= i < |history| ==> history[i].id != id
  {
    FilterLength(history, (v: VideoResult) => v.id != id);
    Filter(history, (v: VideoResult) => v.id != id)
  }

  /** Deletion removes every entry with the id and keeps every other entry. */
  lemma DeleteRemovesExactly(history: seq<VideoResult>, id: string, v: VideoResult)
    ensures v in Deleted(history, id) <==> v in history && v.id != id
  {
    FilterMembership(history, (v: VideoResult) => v.id != id, v);
  }

  /** Deletion keeps the remaining entries in their original order: it acts on each
      part of the history separately, and on one entry by keeping or dropping it. */
  lemma DeleteKeepsOrder(a: seq<VideoResult>, b: seq<VideoResult>, id: string)
    ensures Deleted(a + b, id) == Deleted(a, id) + Deleted(b, id)
    ensures forall v :: Deleted([v], id) == (if v.id == id then [] else [v])
  {
    FilterAppend(a, b, (v: VideoResult) => v.id != id);
    forall v: VideoResult
      ensures Deleted([v], id) == (if v.id == id then [] else [v])
    {
      FilterSingleton(v, (v: VideoResult) => v.id != id);
    }
  }

  /** Deleting an id no entry has leaves the history unchanged. */
  lemma DeleteAbsent(history: seq<VideoResult>, id: string)
    requires forall i :: 0 <= i < |history| ==> history[i].id != id
    ensures Deleted(history, id) == history
  {
    FilterKeepsAll(history, (v: VideoResult) => v.id != id);
  }

  /** Deleting the same id twice is deleting it once. */
  lemma DeleteIdempotent(history: seq<VideoResult>, id: string)
    ensures Deleted(Deleted(history, id), id) == Deleted(history, id)
  {
    FilterIdempotent(history, (v: VideoResult) => v.id != id);
  }

  /** Two deletions give the same history in either order. */
  lemma DeleteCommutes(history: seq<VideoResult>, a: string, b: string)
    ensures Deleted(Deleted(history, a), b) == Deleted(Deleted(history, b), a)
  {
    FilterCommutes(history, (v: VideoResult) => v.id != a, (v: VideoResult) => v.id != b);
  }

  /** Deletion shortens the history exactly when some entry has the id. */
  lemma DeleteLength(history: seq<VideoResult>, id: string)
    ensures |Deleted(history, id)| <= |history|
    ensures |Deleted(history, id)| < |history| <==> exists i :: 0 <= i < |history| && history[i].id == id
  {
    FilterLength(history, (v: VideoResult) => v.id != id);
  }

  // ---------------------------------------------------------------------------
  // Statistics
  // ---------------------------------------------------------------------------

  /** Seven days in milliseconds (604800000). */
  const RecentWindow: int := 7 * 24 * 60 * 60 * 1000

  /** An entry counts as recent when it was created less than seven days before `now`
      (an entry dated in the future counts too). */
  predicate IsRecent(now: int, v: VideoResult)
    ensures IsRecent(now, v) ==> v.createdAt > now - 7 * 24 * 60 * 60 * 1000
    ensures v.createdAt >= now ==> IsRecent(now, v)
  {
    now - v.createdAt < RecentWindow
  }

  /** An entry counts for "This Month" when its month number equals the current one;
      the year is not compared. */
  predicate InCurrentMonth(monthOf: int -> int, now: int, v: VideoResult)
    ensures v.createdAt == now ==> InCurrentMonth(monthOf, now, v)
  {
    monthOf(v.createdAt) == monthOf(now)
  }

  /** The three figures of the statistics cards. */
  datatype Stats = Stats(total: nat, thisMonth: nat, recent: nat)

  function ComputeStats(history: seq<VideoResult>, now: int, monthOf: int -> int): (s: Stats)
    ensures s.total == |history|
    ensures s.thisMonth <= s.total && s.recent <= s.total
  {
    FilterLength(history, (v: VideoResult) => InCurrentMonth(monthOf, now, v));
    FilterLength(history, (v: VideoResult) => IsRecent(now, v));
    Stats(|history|,
          |Filter(history, (v: VideoResult) => InCurrentMonth(monthOf, now, v))|,
          |Filter(history, (v: VideoResult) => IsRecent(now, v))|)
  }

  /** Each count is the number of entries meeting its condition, shown by the
      statistics of one entry and of a concatenation. */
  lemma StatsAdd(a: seq<VideoResult>, b: seq<VideoResult>, now: int, monthOf: int -> int)
    ensures var sa, sb, s := ComputeStats(a, now, monthOf), ComputeStats(b, now, monthOf),
                             ComputeStats(a + b, now, monthOf);
            s.total == sa.total + sb.total && s.thisMonth == sa.thisMonth + sb.thisMonth &&
            s.recent == sa.recent + sb.recent
  {
    FilterAppend(a, b, (v: VideoResult) => InCurrentMonth(monthOf, now, v));
    FilterAppend(a, b, (v: VideoResult) => IsRecent(now, v));
  }

  /** The statistics of a one-entry history: 1, and 1 or 0 by the entry's own conditions. */
  lemma StatsOfOne(v: VideoResult, now: int, monthOf: int -> int)
    ensures ComputeStats([v], now, monthOf) ==
            Stats(1, if InCurrentMonth(monthOf, now, v) then 1 else 0, if IsRecent(now, v) then 1 else 0)
  {
    FilterSingleton(v, (v: VideoResult) => InCurrentMonth(monthOf, now, v));
    FilterSingleton(v, (v: VideoResult) => IsRecent(now, v));
  }

  /** Deleting never raises any of the three figures. */
  lemma DeleteLowersStats(history: seq<VideoResult>, id: string, now: int, monthOf: int -> int)
    ensures var before, after := ComputeStats(history, now, monthOf),
                                 ComputeStats(Deleted(history, id), now, monthOf);
            after.total <= before.total && after.thisMonth <= before.thisMonth &&
            after.recent <= before.recent
  {
    var keep := (v: VideoResult) => v.id != id;
    var month := (v: VideoResult) => InCurrentMonth(monthOf, now, v);
    var recent := (v: VideoResult) => IsRecent(now, v);
    FilterLength(history, keep);
    FilterCommutes(history, keep, month);
    FilterLength(Filter(history, month), keep);
    FilterCommutes(history, keep, recent);
    FilterLength(Filter(history, recent), keep);
  }

  // ---------------------------------------------------------------------------
  // History table and page
  // ---------------------------------------------------------------------------

  const CompletedBadge: string := "Completed"

  /** One table row: title, creation time and status badge. */
  datatype Row = Row(title: string, createdAt: int, badge: string)

  /** The history card: the empty-state message, or the table of rows. */
  datatype HistoryView = EmptyHistory | Table(rows: seq<Row>)

  /** One row per entry, in order, each badged "Completed". */
  function Rows(history: seq<VideoResult>): (rows: seq<Row>)
    ensures |rows| == |history|
    ensures forall i :: 0 <= i < |history| ==>
              rows[i] == Row(history[i].videoTitle, history[i].createdAt, CompletedBadge)
  {
    if history == [] then []
    else [Row(history[0].videoTitle, history[0].createdAt, CompletedBadge)] + Rows(history[1..])
  }

  /** The empty state shows exactly for an empty history; otherwise every entry has
      its row and every row says "Completed". */
  function HistoryCard(history: seq<VideoResult>): (v: HistoryView)
    ensures v.EmptyHistory? <==> |history| == 0
    ensures v.Table? ==> |v.rows| == |history| &&
                         forall i :: 0 <= i < |v.rows| ==>
                           v.rows[i].title == history[i].videoTitle && v.rows[i].badge == CompletedBadge
  {
    if |history| == 0 then EmptyHistory else Table(Rows(history))
  }

  /** What the page shows: a loading screen, or the statistics and the history card. */
  datatype PageView = LoadingScreen | Main(email: string, stats: Stats, card: HistoryView)

  /** The dashboard's state. */
  class Page {
    var user: Option<User>
    var history: seq<VideoResult>
    var isLoading: bool

    constructor ()
      ensures user.None? && history == [] && isLoading
    {
      user, history, isLoading := None, [], true;
    }

    /** The mount effect: with no session the page redirects and changes nothing;
        otherwise it records the user, loads the fetched history and stops loading. */
    method Initialize(session: Option<User>, fetched: seq<VideoResult>) returns (redirectToAuth: bool)
      modifies this
      ensures redirectToAuth <==> session.None?
      ensures session.None? ==> user == old(user) && history == old(history) && isLoading == old(isLoading)
      ensures session.Some? ==> user == session && history == fetched && !isLoading
    {
      if session.None? {
        redirectToAuth := true;
        return;
      }
      redirectToAuth := false;
      user := session;
      history := fetched;
      isLoading := false;
    }

    /** The delete button: the entries with that id leave the history. */
    method HandleDelete(id: string)
      modifies this`history
      ensures history == Deleted(old(history), id)
    {
      history := Deleted(history, id);
    }

    function View(now: int, monthOf: int -> int): (v: PageView)
      reads this
      ensures v.LoadingScreen? <==> isLoading
      ensures v.Main? ==> v.stats == ComputeStats(history, now, monthOf) && v.card == HistoryCard(history)
      ensures v.Main? && user.Some? ==> v.email == user.value.email
    {
      if isLoading then LoadingScreen
      else Main(if user.Some? then user.value.email else "", ComputeStats(history, now, monthOf),
                HistoryCard(history))
    }
  }
}
