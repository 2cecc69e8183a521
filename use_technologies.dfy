/**
 * The list-state hook with bulk status changes and notes
 * (src/components/useTechnologies.js).  Every operation maps the previous
 * list to a new one; the persisted copy is left to the storage wrapper.
 */
module UseTechnologies {
  import opened Wrappers
  import opened Technologies

  /** The seed used when nothing is saved yet. */
  const InitialTechnologies: seq<Tech> := [
    Blank.(id := NumId(1), title := "React Components", description := "Изучение базовых компонентов",
           status := NotStarted, notes := "", category := Some("frontend")),
    Blank.(id := NumId(2), title := "Node.js Basics", description := "Основы серверного JavaScript",
           status := NotStarted, notes := "", category := Some("backend")),
    Blank.(id := NumId(3), title := "JSX Syntax", description := "Освоение синтаксиса JSX",
           status := NotStarted, notes := "", category := Some("frontend")),
    Blank.(id := NumId(4), title := "State Management", description := "Работа с состоянием компонентов",
           status := NotStarted, notes := "", category := Some("frontend")),
    Blank.(id := NumId(5), title := "Express.js", description := "Фреймворк для Node.js",
           status := NotStarted, notes := "", category := Some("backend"))
  ]

  /** Five records numbered 1 to 5, none started, all without notes. */
  lemma InitialShape()
    ensures |InitialTechnologies| == 5
    ensures forall i | 0 <= i < 5 ::
              InitialTechnologies[i].id == NumId(i + 1)
              && InitialTechnologies[i].status == NotStarted
              && InitialTechnologies[i].notes == ""
  {
  }

  /** `updateStatus(techId, newStatus)`: only the status of the strictly matching records changes. */
  function UpdateStatus(techs: seq<Tech>, techId: Id, newStatus: string): (r: seq<Tech>)
    ensures |r| == |techs|
    ensures forall k | 0 <= k < |techs| ::
              r[k] == if techs[k].id == techId then techs[k].(status := newStatus) else techs[k]
  {
    MapWhere(techs, IdIs(techId), SetStatus(newStatus))
  }

  /** `updateNotes(techId, newNotes)`: only the notes of the strictly matching records change. */
  function UpdateNotes(techs: seq<Tech>, techId: Id, newNotes: string): (r: seq<Tech>)
    ensures |r| == |techs|
    ensures forall k | 0 <= k < |techs| ::
              r[k] == if techs[k].id == techId then techs[k].(notes := newNotes) else techs[k]
  {
    MapWhere(techs, IdIs(techId), SetNotes(newNotes))
  }

  /** `markAllCompleted()`: every record completed, nothing else changed. */
  function MarkAllCompleted(techs: seq<Tech>): (r: seq<Tech>)
    ensures |r| == |techs|
    ensures forall k | 0 <= k < |techs| :: r[k] == techs[k].(status := Completed)
  {
    MapAll(techs, SetStatus(Completed))
  }

  /** `resetAll()`: every record not started, nothing else changed. */
  function ResetAll(techs: seq<Tech>): (r: seq<Tech>)
    ensures |r| == |techs|
    ensures forall k | 0 <= k < |techs| :: r[k] == techs[k].(status := NotStarted)
  {
    MapAll(techs, SetStatus(NotStarted))
  }

  /** `calculateProgress()`: 0 for no records, else the rounded share of completed records. */
  function CalculateProgress(techs: seq<Tech>): (r: nat)
    ensures techs == [] ==> r == 0
    ensures r <= 100
    ensures techs != [] ==> 2 * |techs| * r <= 200 * CountStatus(techs, Completed) + |techs| < 2 * |techs| * r + 2 * |techs|
  {
    if |techs| == 0 then 0
    else Percent(CountStatus(techs, Completed), |techs|)
  }

  /** After marking everything completed, a non-empty list is at 100 percent. */
  lemma MarkAllCompletedProgress(techs: seq<Tech>)
    requires techs != []
    ensures CalculateProgress(MarkAllCompleted(techs)) == 100
  {
    var done := MarkAllCompleted(techs);
    FilterAllOrNothing(done, HasStatus(Completed));
    PercentEnds(|techs|);
  }

  /** After a reset, progress is 0. */
  lemma ResetAllProgress(techs: seq<Tech>)
    ensures CalculateProgress(ResetAll(techs)) == 0
  {
    var reset := ResetAll(techs);
    FilterAllOrNothing(reset, HasStatus(Completed));
  }

  /** Both bulk operations are idempotent. */
  lemma BulkIdempotent(techs: seq<Tech>)
    ensures MarkAllCompleted(MarkAllCompleted(techs)) == MarkAllCompleted(techs)
    ensures ResetAll(ResetAll(techs)) == ResetAll(techs)
  {
  }
}
