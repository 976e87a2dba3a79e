/** A single-expansion accordion: at most one id is expanded, and pressing it again collapses it. */
module Accordion {
  import opened Wrappers

  /** The initial state: nothing expanded. */
  const Collapsed: Option<string> := None

  predicate IsExpanded(expanded: Option<string>, id: string) {
    expanded == Some(id)
  }

  /** `expanded === id ? null : id`. */
  function Toggle(expanded: Option<string>, id: string): (r: Option<string>)
    ensures forall x :: IsExpanded(r, x) <==> x == id && !IsExpanded(expanded, id)
  {
    if expanded == Some(id) then None else Some(id)
  }

  /** Pressing the same entry twice from a collapsed accordion, or from that entry expanded, returns to the start. */
  lemma ToggleTwice(expanded: Option<string>, id: string)
    requires expanded == None || expanded == Some(id)
    ensures Toggle(Toggle(expanded, id), id) == expanded
  {
  }

  /** Pressing another entry moves the expansion there, whatever was expanded before. */
  lemma ToggleOther(expanded: Option<string>, id: string)
    requires !IsExpanded(expanded, id)
    ensures Toggle(expanded, id) == Some(id)
  {
  }
}
