/**
 * The plain dashboard page (src/pages/Dashboard.js): totals over the
 * stored list and the last five records, newest first.
 */
module Dashboard {
  import opened Technologies

  /** `s.slice().reverse()`. */
  function Reverse<T>(s: seq<T>): (r: seq<T>)
    ensures |r| == |s|
    ensures forall i | 0 <= i < |s| :: r[i] == s[|s| - 1 - i]
    decreases |s|
  {
    if s == [] then [] else Reverse(s[1..]) + [s[0]]
  }

  /** Reversing twice gives the list back. */
  lemma ReverseReverse<T>(s: seq<T>)
    ensures Reverse(Reverse(s)) == s
  {
  }

  /** `s.slice(-5)`: the last five records, or all of them when there are fewer. */
  function LastFive<T>(s: seq<T>): (r: seq<T>)
    ensures |r| == if |s| < 5 then |s| else 5
    ensures forall i | 0 <= i < |r| :: r[i] == s[|s| - |r| + i]
  {
    if |s| < 5 then s else s[|s| - 5..]
  }

  /** The recent section: a message for an empty list, else the recent items. */
  datatype RecentSection = NoTechnologies | Recent(items: seq<Tech>)

  datatype Page = Page(total: nat, completedCount: nat, recent: RecentSection)

  /** What the page shows for the stored list. */
  function Render(techs: seq<Tech>): (p: Page)
    ensures p.total == |techs|
    ensures p.completedCount == CountStatus(techs, Completed)
    ensures p.recent.NoTechnologies? <==> techs == []
    ensures p.recent.Recent? ==>
              |p.recent.items| == (if |techs| < 5 then |techs| else 5)
              && (forall i | 0 <= i < |p.recent.items| :: p.recent.items[i] == techs[|techs| - 1 - i])
              && p.recent.items[0] == techs[|techs| - 1]
  {
    Page(|techs|, CountStatus(techs, Completed),
         if |techs| > 0 then Recent(Reverse(LastFive(techs))) else NoTechnologies)
  }
}
