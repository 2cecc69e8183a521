/**
 * The tabbed dashboard (src/components/MuiDashboard.jsx): the statistics
 * block, the in-progress list newest first, and the five most recent
 * records.  The recent list is taken by sorting the caller's array in
 * place, which is why `Render` takes an array it modifies.
 */
module MuiDashboard {
  import opened Technologies

  /** `new Date(t.createdAt || 0)`, with creation times abstracted to integers. */
  function CreatedKey(t: Tech): (r: int)
    ensures t.createdAt.None? ==> r == 0
    ensures t.createdAt.Some? ==> r == t.createdAt.value
  {
    match t.createdAt
    case Some(c) => c
    case None => 0
  }

  /** Ordered by creation time, newest first. */
  ghost predicate NewestFirst(s: seq<Tech>) {
    forall i, j | 0 <= i < j < |s| :: CreatedKey(s[i]) >= CreatedKey(s[j])
  }

  /** Exchanges the records at `j - 1` and `j`. */
  method Swap(a: array<Tech>, j: int)
    requires 0 < j < a.Length
    modifies a
    ensures a[..] == old(a[..])[j - 1 := old(a[j])][j := old(a[j - 1])]
    ensures multiset(a[..]) == multiset(old(a[..]))
  {
    a[j - 1], a[j] := a[j], a[j - 1];
  }

  /**
   * One pass of insertion: with `a[..i]` ordered, the record at `i` moves
   * left past every strictly older one, so `a[..i + 1]` is ordered and
   * records that tie keep their order.
   */
  method InsertAt(a: array<Tech>, i: int)
    requires 0 <= i < a.Length
    requires forall p, q | 0 <= p < q < i :: CreatedKey(a[p]) >= CreatedKey(a[q])
    modifies a
    ensures forall p, q | 0 <= p < q <= i :: CreatedKey(a[p]) >= CreatedKey(a[q])
    ensures multiset(a[..]) == multiset(old(a[..]))
  {
    var j := i;
    while j > 0 && CreatedKey(a[j - 1]) < CreatedKey(a[j])
      invariant 0 <= j <= i
      invariant forall p, q | 0 <= p < q <= i && p != j && q != j :: CreatedKey(a[p]) >= CreatedKey(a[q])
      invariant forall q | j < q <= i :: CreatedKey(a[j]) > CreatedKey(a[q])
      invariant multiset(a[..]) == multiset(old(a[..]))
    {
      Swap(a, j);
      j := j - 1;
    }
  }

  /**
   * `a.sort((x, y) => key(y) - key(x))`, in place: afterwards the array is
   * ordered newest first and holds the same records as before.
   */
  method SortNewestFirst(a: array<Tech>)
    modifies a
    ensures NewestFirst(a[..])
    ensures multiset(a[..]) == multiset(old(a[..]))
  {
    var i := 0;
    while i < a.Length
      invariant 0 <= i <= a.Length
      invariant forall p, q | 0 <= p < q < i :: CreatedKey(a[p]) >= CreatedKey(a[q])
      invariant multiset(a[..]) == multiset(old(a[..]))
    {
      InsertAt(a, i);
      i := i + 1;
    }
  }

  /**
   * `technologies.filter(t => t.status === 'in-progress').sort(...)`: the
   * filter makes a fresh array, so the caller's list is not touched.
   */
  method ActiveTechnologies(techs: seq<Tech>) returns (active: seq<Tech>)
    ensures multiset(active) == multiset(Filter(techs, HasStatus(InProgress)))
    ensures forall i | 0 <= i < |active| :: active[i].status == InProgress && active[i] in techs
    ensures NewestFirst(active)
  {
    var inProgress := Filter(techs, HasStatus(InProgress));
    var a := new Tech[|inProgress|](k requires 0 <= k < |inProgress| => inProgress[k]);
    assert a[..] == inProgress;
    SortNewestFirst(a);
    active := a[..];
    forall i | 0 <= i < |active|
      ensures active[i].status == InProgress && active[i] in techs
    {
      assert active[i] in multiset(inProgress);
    }
  }

  /** The first five records after sorting the caller's array newest first. */
  method RecentTechnologies(a: array<Tech>) returns (recent: seq<Tech>)
    modifies a
    ensures NewestFirst(a[..])
    ensures multiset(a[..]) == multiset(old(a[..]))
    ensures recent == a[..if a.Length < 5 then a.Length else 5]
  {
    SortNewestFirst(a);
    recent := a[..if a.Length < 5 then a.Length else 5];
  }

  /** A prefix of a newest-first list is newest first, and nothing after it is newer. */
  lemma RecentAreNewest(s: seq<Tech>, n: nat)
    requires NewestFirst(s) && n <= |s|
    ensures NewestFirst(s[..n])
    ensures forall i, j | 0 <= i < n <= j < |s| :: CreatedKey(s[i]) >= CreatedKey(s[j])
  {
  }

  /** What the overview and statistics tabs show. */
  datatype Overview = Overview(stats: Statistics, inProgressShare: nat, notStartedShare: nat, remaining: int)

  /**
   * The statistics object, the per-status shares (`Math.round(x / total * 100) || 0`,
   * so 0 for an empty list) and the remaining count `total - completed`.
   */
  function Summarise(techs: seq<Tech>): (o: Overview)
    ensures o.stats == Stats(techs)
    ensures |techs| == 0 ==> o.stats.progress == 0 && o.inProgressShare == 0 && o.notStartedShare == 0
    ensures o.inProgressShare <= 100 && o.notStartedShare <= 100
    ensures |techs| > 0 ==>
              2 * |techs| * o.inProgressShare <= 200 * CountStatus(techs, InProgress) + |techs|
                < 2 * |techs| * o.inProgressShare + 2 * |techs|
    ensures |techs| > 0 ==>
              2 * |techs| * o.notStartedShare <= 200 * CountStatus(techs, NotStarted) + |techs|
                < 2 * |techs| * o.notStartedShare + 2 * |techs|
    ensures o.remaining == |Filter(techs, HasOtherStatus(Completed))|
  {
    var stats := Stats(techs);
    FilterComplement(techs, HasStatus(Completed), HasOtherStatus(Completed));
    Overview(stats, Percent(stats.inProgress, stats.total), Percent(stats.notStarted, stats.total),
             stats.total - stats.completed)
  }

  /** Everything the dashboard computes on one render. */
  datatype View = View(overview: Overview, active: seq<Tech>, recent: seq<Tech>)

  /**
   * One render: statistics and the active list are taken from the list as
   * passed; then the recent list sorts the caller's array in place.
   */
  method Render(a: array<Tech>) returns (v: View)
    modifies a
    ensures v.overview == Summarise(old(a[..]))
    ensures multiset(v.active) == multiset(Filter(old(a[..]), HasStatus(InProgress))) && NewestFirst(v.active)
    ensures NewestFirst(a[..]) && multiset(a[..]) == multiset(old(a[..]))
    ensures v.recent == a[..if a.Length < 5 then a.Length else 5]
  {
    var overview := Summarise(a[..]);
    var active := ActiveTechnologies(a[..]);
    var recent := RecentTechnologies(a);
    v := View(overview, active, recent);
  }
}
