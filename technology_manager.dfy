/**
 * The in-memory manager page (src/components/TechnologyManager.jsx): add
 * or edit through a form, delete after confirmation, and step a record's
 * status.  Its state is the list, whether the form is shown and the record
 * being edited; every handler maps the previous state to the next.
 *
 * The form component is not part of this model: what it submits is a
 * `Patch`.  The id of a new record (`Date.now() + Math.random()`) and the
 * clock reading are parameters.
 */
module TechnologyManager {
  import opened Wrappers
  import opened Technologies

  datatype Message = NoMessage | Updated | Added | Deleted

  datatype Manager = Manager(technologies: seq<Tech>, showForm: bool, editing: Option<Tech>, message: Message)

  /** The record an add builds: the fresh id, the form's fields, then the forced defaults. */
  function NewTechnology(techData: Patch, freshId: Id, now: int): (t: Tech)
    ensures t.status == NotStarted && t.notes == "" && t.progress == Some(0) && t.createdAt == Some(now)
    ensures t.id == Pick(techData.id, freshId)
    ensures t.title == Pick(techData.title, "") && t.description == Pick(techData.description, "")
  {
    Merge(Blank.(id := freshId), techData).(status := NotStarted, createdAt := Some(now), notes := "", progress := Some(0))
  }

  /** An edit: the form's fields merged into the record, and `updatedAt` stamped. */
  function EditWith(techData: Patch, now: int): Tech -> Tech {
    (t: Tech) => Merge(t, techData).(updatedAt := Some(now))
  }

  /** The edit branch: the records with the target's id take the edit; every other record is kept. */
  function EditTarget(techs: seq<Tech>, target: Id, techData: Patch, now: int): (r: seq<Tech>)
    ensures |r| == |techs|
    ensures forall k | 0 <= k < |techs| ::
              r[k] == if techs[k].id == target then Merge(techs[k], techData).(updatedAt := Some(now)) else techs[k]
  {
    MapWhere(techs, IdIs(target), EditWith(techData, now))
  }

  /**
   * `handleSaveTechnology(techData)`: editing merges into the records whose id
   * strictly equals the edited one and stamps `updatedAt`; adding appends one
   * new record.  The form closes and the editing target is cleared either way.
   */
  function SaveTechnology(m: Manager, techData: Patch, freshId: Id, now: int): (r: Manager)
    ensures !r.showForm && r.editing.None?
    ensures m.editing.Some? ==>
              r.technologies == EditTarget(m.technologies, m.editing.value.id, techData, now) && r.message == Updated
    ensures m.editing.None? ==>
              r.technologies == m.technologies + [NewTechnology(techData, freshId, now)] && r.message == Added
  {
    match m.editing
    case Some(target) =>
      Manager(EditTarget(m.technologies, target.id, techData, now), false, None, Updated)
    case None =>
      Manager(m.technologies + [NewTechnology(techData, freshId, now)], false, None, Added)
  }

  /** The page's first state: no records, the form hidden, nothing being edited. */
  const Initial: Manager := Manager([], false, None, NoMessage)

  /** The header's add button: it only shows the form. */
  function OpenForm(m: Manager): (r: Manager)
    ensures r.showForm && r.editing == m.editing
    ensures r.technologies == m.technologies && r.message == m.message
  {
    m.(showForm := true)
  }

  /** `handleEdit(technology)`: the form opens on that record. */
  function Edit(m: Manager, technology: Tech): (r: Manager)
    ensures r.showForm && r.editing == Some(technology)
    ensures r.technologies == m.technologies && r.message == m.message
  {
    m.(showForm := true, editing := Some(technology))
  }

  /** `handleCancel()`: the form closes and nothing else changes. */
  function Cancel(m: Manager): (r: Manager)
    ensures r.technologies == m.technologies && !r.showForm && r.editing.None?
  {
    m.(showForm := false, editing := None)
  }

  /** `handleDelete(id)` after the user's answer: a confirmed delete drops every record with that id. */
  function Delete(m: Manager, id: Id, confirmed: bool): (r: Manager)
    ensures !confirmed ==> r == m
    ensures confirmed ==>
              r.technologies == Filter(m.technologies, IdIsNot(id)) && r.message == Deleted
              && r.showForm == m.showForm && r.editing == m.editing
  {
    if confirmed then m.(technologies := Filter(m.technologies, IdIsNot(id)), message := Deleted) else m
  }

  function Cycled(): Tech -> Tech {
    (t: Tech) => t.(status := CycleStatus(t.status))
  }

  /** `handleStatusChange(id)`: the records with that id step to their next status. */
  function StatusChange(m: Manager, id: Id): (r: Manager)
    ensures |r.technologies| == |m.technologies|
    ensures forall k | 0 <= k < |m.technologies| ::
              r.technologies[k] == if m.technologies[k].id == id
                                   then m.technologies[k].(status := CycleStatus(m.technologies[k].status))
                                   else m.technologies[k]
    ensures r.showForm == m.showForm && r.editing == m.editing && r.message == m.message
  {
    m.(technologies := MapWhere(m.technologies, IdIs(id), Cycled()))
  }

  /** Three status changes on the same id give back a list whose statuses were all known. */
  lemma StatusChangeThrice(m: Manager, id: Id)
    requires forall k | 0 <= k < |m.technologies| :: KnownStatus(m.technologies[k].status)
    ensures StatusChange(StatusChange(StatusChange(m, id), id), id) == m
  {
    var once := StatusChange(m, id);
    var twice := StatusChange(once, id);
    var thrice := StatusChange(twice, id);
    assert |thrice.technologies| == |m.technologies|;
    forall k | 0 <= k < |m.technologies|
      ensures thrice.technologies[k] == m.technologies[k]
    {
      CycleThree(m.technologies[k].status);
    }
  }

  /** Deleting the fresh id right after adding gives the list back, when no record had that id. */
  lemma AddThenDelete(m: Manager, techData: Patch, freshId: Id, now: int)
    requires m.editing.None? && techData.id.None?
    requires forall k | 0 <= k < |m.technologies| :: m.technologies[k].id != freshId
    ensures Delete(SaveTechnology(m, techData, freshId, now), freshId, true).technologies == m.technologies
  {
    var added := NewTechnology(techData, freshId, now);
    FilterConcat(m.technologies, [added], IdIsNot(freshId));
    FilterAllOrNothing(m.technologies, IdIsNot(freshId));
    assert Filter([added], IdIsNot(freshId)) == [];
  }

  /** Whenever the form is hidden, no record is being edited. */
  predicate HiddenHasNoTarget(m: Manager) {
    !m.showForm ==> m.editing.None?
  }

  /**
   * The first state has the invariant and every handler keeps it; so the
   * header's button, which leaves the target alone, always opens the form
   * for adding.
   */
  lemma TargetInvariant(m: Manager, techData: Patch, freshId: Id, now: int, technology: Tech, id: Id, confirmed: bool)
    ensures HiddenHasNoTarget(Initial)
    ensures HiddenHasNoTarget(m) ==>
              HiddenHasNoTarget(SaveTechnology(m, techData, freshId, now)) && HiddenHasNoTarget(Edit(m, technology))
              && HiddenHasNoTarget(Cancel(m)) && HiddenHasNoTarget(Delete(m, id, confirmed))
              && HiddenHasNoTarget(StatusChange(m, id)) && HiddenHasNoTarget(OpenForm(m))
    ensures HiddenHasNoTarget(m) && !m.showForm ==> OpenForm(m).editing.None?
  {
  }

  /**
   * `getStatusLabel(status)`: a label for each known status, the status
   * itself otherwise.  Keys inherited from `Object.prototype` are not modelled.
   */
  function StatusLabel(status: string): (r: string)
    ensures status == NotStarted ==> r == "⏳ Не начато"
    ensures status == InProgress ==> r == "🔄 В процессе"
    ensures status == Completed ==> r == "✅ Завершено"
    ensures !KnownStatus(status) ==> r == status
    ensures r == status <==> !KnownStatus(status)
  {
    if status == NotStarted then "⏳ Не начато"
    else if status == InProgress then "🔄 В процессе"
    else if status == Completed then "✅ Завершено"
    else status
  }
}
