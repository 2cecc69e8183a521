/**
 * The material-design application shell (src/pages/MuiApp.jsx): the list
 * loaded from the store, the add/edit dialog's target, the notification
 * and the persisted light/dark choice.  Each handler maps the state to the
 * next one.
 *
 * The clock reading that becomes a new record's id and creation time is a
 * parameter, and the key `theme-mode` is a field of the state.
 */
module MuiApp {
  import opened Wrappers
  import opened Technologies
  import MuiTechnologyModal

  datatype Notification = Notification(open: bool, message: string, severity: string)

  datatype App = App(
    technologies: seq<Tech>,
    isModalOpen: bool,
    editing: Option<Tech>,
    notification: Notification,
    isDarkMode: bool,
    themeMode: Option<string>)

  /** What the theme effect writes for a mode. */
  function ThemeValue(dark: bool): (v: string)
    ensures v == "dark" <==> dark
    ensures v == "light" <==> !dark
  {
    if dark then "dark" else "light"
  }

  /**
   * Mounting: dark mode is on exactly when the key holds `dark`, the effect
   * writes the mode back, and the list is the stored one.
   */
  function Mount(themeMode: Option<string>, stored: seq<Tech>): (a: App)
    ensures a.isDarkMode <==> themeMode == Some("dark")
    ensures a.themeMode == Some(ThemeValue(a.isDarkMode))
    ensures a.technologies == stored && !a.isModalOpen && a.editing.None? && !a.notification.open
  {
    var dark := themeMode == Some("dark");
    App(stored, false, None, Notification(false, "", "info"), dark, Some(ThemeValue(dark)))
  }

  /** `handleToggleTheme()`: the mode flips, the effect persists it, and an info notice says which way. */
  function ToggleTheme(a: App): (r: App)
    ensures r.isDarkMode == !a.isDarkMode
    ensures r.themeMode == Some(if r.isDarkMode then "dark" else "light")
    ensures r.notification.open && r.notification.severity == "info"
    ensures r.technologies == a.technologies && r.editing == a.editing && r.isModalOpen == a.isModalOpen
  {
    a.(isDarkMode := !a.isDarkMode,
       themeMode := Some(ThemeValue(!a.isDarkMode)),
       notification := Notification(true, if a.isDarkMode then "☀️ Переключено на светлую тему"
                                          else "🌙 Переключено на тёмную тему", "info"))
  }

  /** The persisted mode survives a reload: toggling and mounting again keeps the toggled mode. */
  lemma ToggleThenReload(a: App, stored: seq<Tech>)
    ensures Mount(ToggleTheme(a).themeMode, stored).isDarkMode == !a.isDarkMode
  {
  }

  /** The record `handleAddTechnology` builds: `{ id: now, ...techData, status: 'not-started', createdAt: now }`. */
  function NewTechnology(techData: Patch, now: int): (t: Tech)
    ensures t.status == NotStarted && t.createdAt == Some(now)
    ensures t.id == Pick(techData.id, NumId(now))
    ensures t.title == Pick(techData.title, "")
  {
    Merge(Blank.(id := NumId(now)), techData).(status := NotStarted, createdAt := Some(now))
  }

  /**
   * `handleSaveTechnology(techData)`: with a target, the records whose id
   * strictly equals the target's are merged with the form data and the target
   * is cleared; without one, a new record is appended with its status forced
   * to `not-started`.  The dialog closes in both cases.
   */
  function SaveTechnology(a: App, techData: Patch, now: int): (r: App)
    ensures !r.isModalOpen && r.editing.None?
    ensures r.notification.open && r.notification.severity == "success"
    ensures a.editing.Some? ==>
              |r.technologies| == |a.technologies|
              && forall k | 0 <= k < |a.technologies| ::
                   r.technologies[k] == if a.technologies[k].id == a.editing.value.id
                                        then Merge(a.technologies[k], techData) else a.technologies[k]
    ensures a.editing.None? ==>
              r.technologies == a.technologies + [NewTechnology(techData, now)]
              && r.technologies[|a.technologies|].status == NotStarted
    ensures r.isDarkMode == a.isDarkMode && r.themeMode == a.themeMode
  {
    match a.editing
    case Some(target) =>
      a.(technologies := MapWhere(a.technologies, IdIs(target.id), MergeWith(techData)),
         editing := None, isModalOpen := false,
         notification := Notification(true, "✏️ Технология успешно обновлена", "success"))
    case None =>
      a.(technologies := a.technologies + [NewTechnology(techData, now)],
         isModalOpen := false,
         notification := Notification(true, "✅ Технология успешно добавлена", "success"))
  }

  /** Saving what the dialog submitted: an add keeps the form's fields but never its status. */
  lemma AddFromDialog(a: App, f: MuiTechnologyModal.Form, now: int)
    requires a.editing.None?
    ensures var added := SaveTechnology(a, MuiTechnologyModal.FormPatch(f), now).technologies[|a.technologies|];
            added.status == NotStarted && added.id == NumId(now)
            && added.title == f.title && added.description == f.description
            && added.category == Some(f.category) && added.difficulty == f.difficulty && added.deadline == f.deadline
  {
  }

  /** `handleEdit(technology)`: the dialog opens on that record. */
  function Edit(a: App, technology: Tech): (r: App)
    ensures r.isModalOpen && r.editing == Some(technology) && r.technologies == a.technologies
  {
    a.(editing := Some(technology), isModalOpen := true)
  }

  /** The header's add button: the dialog opens with no target. */
  function OpenAdd(a: App): (r: App)
    ensures r.isModalOpen && r.editing.None? && r.technologies == a.technologies
  {
    a.(editing := None, isModalOpen := true)
  }

  /** The dialog's `onClose`: it closes and the target is cleared. */
  function CloseModal(a: App): (r: App)
    ensures !r.isModalOpen && r.editing.None? && r.technologies == a.technologies
  {
    a.(isModalOpen := false, editing := None)
  }

  /**
   * `handleDelete(techId)`: every record with that id goes; the warning names
   * the first one's title (`undefined` when there is none).
   */
  function Delete(a: App, techId: Id): (r: App)
    ensures r.technologies == Filter(a.technologies, IdIsNot(techId))
    ensures r.notification.open && r.notification.severity == "warning"
    ensures var title := match Find(a.technologies, IdIs(techId))
                         case Some(t) => t.title
                         case None => "undefined";
            r.notification.message == "🗑️ Технология \"" + title + "\" удалена"
    ensures r.editing == a.editing && r.isModalOpen == a.isModalOpen
  {
    var title := match Find(a.technologies, IdIs(techId))
                 case Some(t) => t.title
                 case None => "undefined";
    a.(technologies := Filter(a.technologies, IdIsNot(techId)),
       notification := Notification(true, "🗑️ Технология \"" + title + "\" удалена", "warning"))
  }

  /** `statusTexts[newStatus]`, which reads `undefined` for an unknown status. */
  function StatusText(status: string): (r: string)
    ensures r == "✅ завершена" <==> status == Completed
    ensures r == "🔄 начата" <==> status == InProgress
    ensures r == "⏳ приостановлена" <==> status == NotStarted
    ensures r == "undefined" <==> !KnownStatus(status)
  {
    if status == Completed then "✅ завершена"
    else if status == InProgress then "🔄 начата"
    else if status == NotStarted then "⏳ приостановлена"
    else "undefined"
  }

  /**
   * `handleStatusChange(techId, newStatus)`: the records with that id take
   * exactly the new status; the notice is a success exactly for `completed`.
   */
  function StatusChange(a: App, techId: Id, newStatus: string): (r: App)
    ensures |r.technologies| == |a.technologies|
    ensures forall k | 0 <= k < |a.technologies| ::
              r.technologies[k] == if a.technologies[k].id == techId
                                   then a.technologies[k].(status := newStatus) else a.technologies[k]
    ensures r.notification.open
    ensures r.notification.severity == "success" <==> newStatus == Completed
    ensures r.notification.severity == "info" <==> newStatus != Completed
    ensures r.notification.message == "Технология " + StatusText(newStatus)
  {
    a.(technologies := MapWhere(a.technologies, IdIs(techId), SetStatus(newStatus)),
       notification := Notification(true, "Технология " + StatusText(newStatus),
                                    if newStatus == Completed then "success" else "info"))
  }

  /** `handleCloseNotification()`: the notification hides, keeping its text. */
  function CloseNotification(a: App): (r: App)
    ensures !r.notification.open
    ensures r.notification.message == a.notification.message && r.notification.severity == a.notification.severity
    ensures r.technologies == a.technologies
  {
    a.(notification := a.notification.(open := false))
  }

  /** The empty list's add buttons: they only open the dialog. */
  function OpenFromEmptyList(a: App): (r: App)
    ensures r.isModalOpen && r.editing == a.editing
    ensures r.technologies == a.technologies && r.notification == a.notification
  {
    a.(isModalOpen := true)
  }

  /** Whenever the dialog is closed, no record is its target. */
  predicate ClosedHasNoTarget(a: App) {
    !a.isModalOpen ==> a.editing.None?
  }

  /**
   * Mounting establishes the invariant and the dialog's handlers keep it, so
   * the empty list's buttons, which leave the target alone, open the dialog
   * for adding exactly as the header's button does.
   */
  lemma TargetInvariant(a: App, stored: seq<Tech>, techData: Patch, now: int, technology: Tech,
                        themeMode: Option<string>)
    ensures ClosedHasNoTarget(Mount(themeMode, stored))
    ensures ClosedHasNoTarget(a) ==>
              ClosedHasNoTarget(SaveTechnology(a, techData, now))
              && ClosedHasNoTarget(Edit(a, technology)) && ClosedHasNoTarget(OpenAdd(a))
              && ClosedHasNoTarget(CloseModal(a)) && ClosedHasNoTarget(OpenFromEmptyList(a))
    ensures ClosedHasNoTarget(a) && !a.isModalOpen ==> OpenFromEmptyList(a) == OpenAdd(a)
  {
  }

  /** The handlers outside the dialog leave the dialog and its target alone, so they keep the invariant too. */
  lemma OtherHandlersKeepTarget(a: App, id: Id, status: string)
    ensures ClosedHasNoTarget(a) ==>
              ClosedHasNoTarget(ToggleTheme(a)) && ClosedHasNoTarget(Delete(a, id))
              && ClosedHasNoTarget(StatusChange(a, id, status)) && ClosedHasNoTarget(CloseNotification(a))
  {
  }
}
