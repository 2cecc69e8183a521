/**
 * The material-design technology card (src/components/MuiTechnologyCard.jsx):
 * chip colours and texts, the category label table, the start/pause and
 * complete transitions, and the options menu with a confirmed delete.
 */
module MuiTechnologyCard {
  import opened Wrappers
  import opened Technologies

  /** `getStatusColor`. */
  function StatusColor(status: string): (r: string)
    ensures r == "success" <==> status == Completed
    ensures r == "warning" <==> status == InProgress
    ensures r == "default" <==> !(status == Completed || status == InProgress)
  {
    if status == Completed then "success"
    else if status == InProgress then "warning"
    else "default"
  }

  /** `getStatusText`: every other value reads as not started. */
  function StatusText(status: string): (r: string)
    ensures r == "✅ Завершено" <==> status == Completed
    ensures r == "🔄 В процессе" <==> status == InProgress
    ensures r == "⏳ Не начато" <==> !(status == Completed || status == InProgress)
  {
    if status == Completed then "✅ Завершено"
    else if status == InProgress then "🔄 В процессе"
    else "⏳ Не начато"
  }

  const CategoryLabels: map<string, string> := map[
    "frontend" := "🎨 Frontend",
    "backend" := "⚙️ Backend",
    "mobile" := "📱 Mobile",
    "devops" := "🚀 DevOps",
    "database" := "🗄️ Database",
    "tools" := "🛠️ Tools",
    "ui-library" := "🎭 UI Kit",
    "other" := "📚 Other"
  ]

  /**
   * `labels[category] || category`: the table entry, or the raw category.
   * Keys inherited from `Object.prototype` are not modelled.
   */
  function CategoryLabel(category: string): (r: string)
    ensures category in CategoryLabels ==> r == CategoryLabels[category]
    ensures category !in CategoryLabels ==> r == category
  {
    if category in CategoryLabels && CategoryLabels[category] != "" then CategoryLabels[category]
    else category
  }

  /** The start/pause button: pause an active technology, start anything else. */
  function StartPauseTarget(status: string): (r: string)
    ensures r == NotStarted <==> status == InProgress
    ensures r == InProgress <==> status != InProgress
  {
    if status == InProgress then NotStarted else InProgress
  }

  /** The start/pause button's label follows the same test. */
  function StartPauseLabel(status: string): (r: string)
    ensures r == "Приостановить" <==> status == InProgress
    ensures r == "Начать" <==> status != InProgress
  {
    if status == InProgress then "Приостановить" else "Начать"
  }

  /** The complete button is rendered, and when pressed asks for `completed`. */
  function CompleteAction(status: string): (r: Option<string>)
    ensures r.Some? <==> status != Completed
    ensures r.Some? ==> r.value == Completed
  {
    if status != Completed then Some(Completed) else None
  }

  /** Pressing start/pause twice on a known status other than completed returns to it. */
  lemma StartPauseToggles(status: string)
    requires status == NotStarted || status == InProgress
    ensures StartPauseTarget(StartPauseTarget(status)) == status
  {
  }

  /** The difficulty caption, shown only for a non-empty difficulty. */
  function DifficultyLabel(difficulty: string): (r: Option<string>)
    ensures r.None? <==> difficulty == ""
    ensures r == Some("Начинающий") <==> difficulty == "beginner"
    ensures r == Some("Средний") <==> difficulty == "intermediate"
    ensures r == Some("Продвинутый") <==> difficulty != "" && difficulty != "beginner" && difficulty != "intermediate"
  {
    if difficulty == "" then None
    else if difficulty == "beginner" then Some("Начинающий")
    else if difficulty == "intermediate" then Some("Средний")
    else Some("Продвинутый")
  }

  /** The card's only state: whether the options menu is open. */
  datatype CardState = CardState(menuOpen: bool)

  /** What a menu action hands to the parent, and the card's next state. */
  datatype MenuOutcome = MenuOutcome(edit: Option<Tech>, delete: Option<Id>, next: CardState)

  /** Choosing "edit" forwards the technology and closes the menu. */
  function HandleEdit(technology: Tech, s: CardState): (r: MenuOutcome)
    ensures r.edit == Some(technology) && r.delete.None?
    ensures !r.next.menuOpen
  {
    MenuOutcome(Some(technology), None, CardState(false))
  }

  /**
   * Choosing "delete": the user's answer to the confirmation is a parameter.
   * The parent is told only after a confirmation; the menu closes either way.
   */
  function HandleDelete(technology: Tech, confirmed: bool, s: CardState): (r: MenuOutcome)
    ensures r.delete.Some? <==> confirmed
    ensures r.delete.Some? ==> r.delete.value == technology.id
    ensures r.edit.None?
    ensures !r.next.menuOpen
  {
    MenuOutcome(None, if confirmed then Some(technology.id) else None, CardState(false))
  }
}
