/** The detail modal every management page keeps: a selected record (`selectedX`, null when none)
    and a `showModal` flag, stepped by `handleViewDetails` and `closeModal`. */
module Modal {
  import opened Records

  class DetailModal<R> {
    var selected: Option<R>
    var showModal: bool

    /** The modal state is either closed, or open on a selected record. */
    predicate Valid()
      reads this
    {
      showModal ==> selected.Some?
    }

    /** The modal is rendered only when it is open and a record is selected. */
    predicate Renders()
      reads this
    {
      showModal && selected.Some?
    }

    /** The initial state: nothing selected, modal closed. */
    constructor()
      ensures selected == None && !showModal
      ensures Valid() && !Renders()
    {
      selected := None;
      showModal := false;
    }

    /** `handleViewDetails(r)`: select `r` and open the modal. */
    method ViewDetails(r: R)
      modifies this
      ensures selected == Some(r) && showModal
      ensures Valid() && Renders()
    {
      selected := Some(r);
      showModal := true;
    }

    /** `closeModal`: close the modal and drop the selection, whatever the state was. */
    method Close()
      modifies this
      ensures selected == None && !showModal
      ensures Valid() && !Renders()
    {
      showModal := false;
      selected := None;
    }

    /** The record the modal displays, if it is rendered. */
    function Shown(): (r: Option<R>)
      reads this
      ensures r.Some? <==> Renders()
      ensures r.Some? ==> selected == Some(r.value)
    {
      if showModal then selected else None
    }
  }

  /** In a valid state the modal renders exactly when its flag is set: an open modal always has a record. */
  lemma ValidRendersWhenOpen<R>(m: DetailModal<R>)
    requires m.Valid()
    ensures m.Renders() <==> m.showModal
    ensures m.showModal ==> m.Shown() == m.selected
  {
  }
}
