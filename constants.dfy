/** The fixed pipeline of the board and the colour of each column. */
module KanbanConstants {

  /** Background colour of each column, in pipeline order. */
  const COLUMN_COLORS: seq<string> := [
    "rgba(255, 235, 235, 0.8)",
    "rgba(255, 238, 221, 0.8)",
    "rgba(255, 248, 204, 0.8)",
    "rgba(229, 253, 209, 0.8)",
    "rgba(212, 244, 221, 0.8)",
    "rgba(247, 212, 212, 0.8)"
  ]

  /** The six pipeline statuses, in the order the board shows them. */
  const INVESTOR_STATUSES: seq<string> := [
    "Da contattare",
    "Contattati",
    "Interessati",
    "Negoziazione",
    "A bordo!",
    "Drop definitivo"
  ]

  /** The status of a newly imported or default-completed record. */
  const DEFAULT_STATUS: string := "Da contattare"

  /** The status "A bordo!" whose investments the analytics sum. */
  const ONBOARD_STATUS: string := "A bordo!"

  /** The terminal status that the delete zone assigns. */
  const DROPPED_STATUS: string := "Drop definitivo"

  /** Six statuses, from "Da contattare" to "Drop definitivo", all different. */
  lemma StatusTable()
    ensures |INVESTOR_STATUSES| == 6
    ensures INVESTOR_STATUSES[0] == DEFAULT_STATUS
    ensures INVESTOR_STATUSES[4] == ONBOARD_STATUS
    ensures INVESTOR_STATUSES[5] == DROPPED_STATUS
    ensures forall i, j :: 0 <= i < j < |INVESTOR_STATUSES| ==> INVESTOR_STATUSES[i] != INVESTOR_STATUSES[j]
  {
  }

  /** There is one colour per status, so indexing the colours by a status index is in bounds. */
  lemma ColorsMatchStatuses()
    ensures |COLUMN_COLORS| == |INVESTOR_STATUSES|
  {
  }
}
