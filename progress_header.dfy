/**
 * The progress summary bar (src/components/ProgressHeader.jsx): status
 * counts, the rounded percentage and the colour class chosen from it.
 */
module ProgressHeader {
  import opened Technologies

  datatype Header = Header(counts: Statistics, progressClass: string)

  /** The threshold chain on the percentage. */
  function ProgressClass(percentage: nat): (r: string)
    ensures r == "progress-high" <==> percentage >= 70
    ensures r == "progress-medium" <==> 30 <= percentage < 70
    ensures r == "progress-low" <==> percentage < 30
  {
    if percentage >= 70 then "progress-high"
    else if percentage >= 30 then "progress-medium"
    else "progress-low"
  }

  /** What the header renders for a list. */
  function Summarise(techs: seq<Tech>): (h: Header)
    ensures h.counts.total == |techs|
    ensures h.counts.completed <= h.counts.total
    ensures h.counts.inProgress <= h.counts.total
    ensures h.counts.notStarted <= h.counts.total
    ensures h.counts.completed + h.counts.inProgress + h.counts.notStarted <= h.counts.total
    ensures techs == [] ==> h.counts.progress == 0 && h.progressClass == "progress-low"
    ensures h.counts.progress <= 100
    ensures techs != [] ==>
              2 * |techs| * h.counts.progress <= 200 * CountStatus(techs, Completed) + |techs|
                < 2 * |techs| * h.counts.progress + 2 * |techs|
    ensures h.progressClass == "progress-high" <==> h.counts.progress >= 70
  {
    var counts := Stats(techs);
    Header(counts, ProgressClass(counts.progress))
  }

  /** A fully completed non-empty list is drawn in the high class. */
  lemma AllCompletedIsHigh(techs: seq<Tech>)
    requires techs != []
    requires forall i | 0 <= i < |techs| :: techs[i].status == Completed
    ensures Summarise(techs).counts.progress == 100
    ensures Summarise(techs).progressClass == "progress-high"
  {
    FilterAllOrNothing(techs, HasStatus(Completed));
    PercentEnds(|techs|);
  }
}
