/**
 * The add page (src/pages/AddTechnology.js): a form of title, description
 * and notes, submitted to the shared storage accessor.  The clock reading
 * the accessor takes is an explicit `Clock`; the alert and the navigation
 * are the returned `Outcome`.
 */
module AddTechnology {
  import opened Wrappers
  import opened Technologies
  import opened TechnologiesStorage
  import opened Clocks

  datatype Form = Form(title: string, description: string, notes: string)

  /** `alert(...)` asking for a title, or `navigate('/technologies')`. */
  datatype Outcome = TitleRequired | ToTechnologies

  /** The object the page hands to `addTechnology`: the fields as typed, status `not-started`. */
  function Submitted(form: Form): (r: Tech)
    ensures r.title == form.title && r.description == form.description && r.notes == form.notes
    ensures r.status == NotStarted && r.id == NoId
  {
    Blank.(title := form.title, description := form.description, notes := form.notes, status := NotStarted)
  }

  /**
   * The stored record carries the form's fields, untrimmed and unvalidated
   * (an empty description is kept), status `not-started`, and the id and
   * creation time the accessor assigns.
   */
  lemma StoredRecord(form: Form, now: int)
    ensures var r := Stamp(Submitted(form), now);
            r.title == form.title && r.description == form.description && r.notes == form.notes
            && r.status == NotStarted && r.id == NumId(now) && r.createdAt == Some(now)
  {
  }

  /**
   * `handleSubmit`: a title that is empty or whitespace only raises the
   * alert and stores nothing; any other title stores exactly one record,
   * appended at the end, and leaves for the list.
   */
  method HandleSubmit(form: Form, store: LocalStore, clock: Clock) returns (outcome: Outcome, added: Option<Tech>)
    modifies store, clock
    ensures (forall i | 0 <= i < |form.title| :: IsSpace(form.title[i])) ==>
              outcome == TitleRequired && added == None
              && store.slot == old(store.slot) && clock.ticks == old(clock.ticks)
    ensures (exists i | 0 <= i < |form.title| :: !IsSpace(form.title[i])) ==>
              outcome == ToTechnologies && added == Some(Stamp(Submitted(form), old(clock.ticks)))
              && store.GetAll() == old(store.GetAll()) + [added.value]
  {
    TrimEmpty(form.title);
    if Trim(form.title) == "" {
      return TitleRequired, None;
    }
    var now := clock.Now();
    var r := store.Add(Submitted(form), now);
    return ToTechnologies, Some(r);
  }
}
