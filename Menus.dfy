/** The single-open-menu toggle that the users, services and email-list tables share:
    `prevId === id ? null : id`. */
module Menus {
  import opened Wrappers

  /** The open menu after toggling `id`: it closes if it was the open one; otherwise it
      opens and replaces whatever was open. */
  function Toggle(prev: Option<string>, id: string): (next: Option<string>)
    ensures next == None <==> prev == Some(id)
    ensures next != None ==> next == Some(id)
  {
    if prev == Some(id) then None else Some(id)
  }

  /** Toggling the same menu twice restores the state exactly when no other menu was open
      before; from another open menu it ends with every menu closed. */
  lemma ToggleTwice(prev: Option<string>, id: string)
    ensures Toggle(Toggle(prev, id), id) == prev <==> prev == None || prev == Some(id)
    ensures prev != None && prev != Some(id) ==> Toggle(Toggle(prev, id), id) == None
  {
  }
}
