/**
 * The compact technology card (src/components/SimpleTechCard.jsx).  Its
 * status colour and text, and its start/pause and complete buttons, are the
 * same as the material card's (module MuiTechnologyCard); what it adds is
 * a colour per category.
 */
module SimpleTechCard {
  import opened Technologies
  import MuiTechnologyCard

  const CategoryColors: map<string, string> := map[
    "frontend" := "primary",
    "backend" := "secondary",
    "mobile" := "info",
    "devops" := "warning",
    "database" := "error",
    "tools" := "success",
    "ui-library" := "primary",
    "other" := "default"
  ]

  /** `colors[category] || 'default'`; keys inherited from `Object.prototype` are not modelled. */
  function CategoryColor(category: string): (r: string)
    ensures category in CategoryColors ==> r == CategoryColors[category]
    ensures category !in CategoryColors ==> r == "default"
  {
    if category in CategoryColors && CategoryColors[category] != "" then CategoryColors[category]
    else "default"
  }

  /** Every category gets one of the palette's colours. */
  lemma CategoryColorInPalette(category: string)
    ensures CategoryColor(category) in {"primary", "secondary", "info", "warning", "error", "success", "default"}
  {
  }

  /**
   * The two buttons: the complete button is hidden exactly for completed
   * records; the other one pauses an active record and starts anything else.
   */
  lemma Buttons(status: string)
    ensures MuiTechnologyCard.CompleteAction(status).None? <==> status == Completed
    ensures MuiTechnologyCard.StartPauseTarget(status) == if status == InProgress then NotStarted else InProgress
  {
  }
}
