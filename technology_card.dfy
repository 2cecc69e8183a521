/**
 * The clickable card that cycles a technology's status
 * (src/components/TechnologyCard.js).
 */
module TechnologyCard {
  import opened Technologies

  /** `handleClick`: the status the click asks for. */
  function NextOnClick(status: string): (r: string)
    ensures r == InProgress <==> status == NotStarted
    ensures r == Completed <==> status == InProgress
    ensures r == NotStarted <==> status != NotStarted && status != InProgress
  {
    if status == NotStarted then InProgress
    else if status == InProgress then Completed
    else NotStarted
  }

  /**
   * The click's if-chain and the index arithmetic of the managers' cycle are
   * the same map on every status, known or not.
   */
  lemma NextOnClickIsCycle(status: string)
    ensures NextOnClick(status) == CycleStatus(status)
  {
    CycleSteps(status);
  }

  /** Three clicks bring a known status back, and any click lands on a known status. */
  lemma ThreeClicks(status: string)
    ensures KnownStatus(NextOnClick(status))
    ensures KnownStatus(status) ==> NextOnClick(NextOnClick(NextOnClick(status))) == status
  {
  }

  /** The status indicator. */
  function Indicator(status: string): (r: string)
    ensures r == "✅ Completed" <==> status == Completed
    ensures r == "⏳ In Progress" <==> status == InProgress
    ensures r == "❌ Not Started" <==> status != Completed && status != InProgress
  {
    if status == Completed then "✅ Completed"
    else if status == InProgress then "⏳ In Progress"
    else "❌ Not Started"
  }

  /** `s.replace(/ /g, '-')`. */
  function ReplaceSpaces(s: string): (r: string)
    ensures |r| == |s|
    ensures forall i | 0 <= i < |s| :: r[i] == if s[i] == ' ' then '-' else s[i]
    decreases |s|
  {
    if s == [] then [] else [if s[0] == ' ' then '-' else s[0]] + ReplaceSpaces(s[1..])
  }

  /** The card's CSS class: `technology-card status-` followed by the status with spaces as dashes. */
  function CardClass(status: string): (r: string)
    ensures |r| == |"technology-card status-"| + |status|
    ensures StartsWith(r, "technology-card status-")
    ensures forall i | |"technology-card status-"| <= i < |r| :: r[i] != ' '
  {
    "technology-card status-" + ReplaceSpaces(status)
  }
}
