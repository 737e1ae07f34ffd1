/** The back-to-top button (`componente/BackToTopButton.tsx`): when it is
    visible, and where it scrolls to. The body's `data-sheet-open` attribute
    and `window.scrollY` are inputs of each event. */
module BackToTop {
  import opened Text

  /** Scroll depth beyond which the button shows (`SHOW_AFTER`; the observer
      repeats the same number). */
  const SHOW_AFTER: real := 600.0

  /** Whether the attribute marks an open sheet: exactly the string "true". */
  predicate SheetOpen(sheetAttr: Option<string>) {
    sheetAttr == Some("true")
  }

  /** Visibility after a scroll event (`toggleVisibility`): unchanged while a
      sheet is open, else shown exactly past 600 px. */
  function AfterScroll(visible: bool, sheetAttr: Option<string>, scrollY: real): (v: bool)
    ensures SheetOpen(sheetAttr) ==> v == visible
    ensures !SheetOpen(sheetAttr) ==> (v <==> scrollY > SHOW_AFTER)
  {
    if SheetOpen(sheetAttr) then visible else scrollY > SHOW_AFTER
  }

  /** Visibility after a change of the attribute (the mutation observer):
      shown exactly when no sheet is open and the page is past 600 px. */
  function AfterMutation(sheetAttr: Option<string>, scrollY: real): (v: bool)
    ensures v ==> !SheetOpen(sheetAttr) && scrollY > SHOW_AFTER
    ensures !SheetOpen(sheetAttr) && scrollY > SHOW_AFTER ==> v
  {
    sheetAttr != Some("true") && scrollY > 600.0
  }

  /** An event the button reacts to, with the attribute and scroll position
      it sees. */
  datatype Event =
    | Scroll(sheetAttr: Option<string>, scrollY: real)
    | Mutation(sheetAttr: Option<string>, scrollY: real)

  /** Visibility after a sequence of events. */
  function Run(visible: bool, events: seq<Event>): (v: bool)
    ensures !visible && (forall i :: 0 <= i < |events| ==> events[i].scrollY <= SHOW_AFTER) ==> !v
    decreases |events|
  {
    if events == [] then visible
    else
      var e := events[0];
      var next := match e
        case Scroll(a, y) => AfterScroll(visible, a, y)
        case Mutation(a, y) => AfterMutation(a, y);
      Run(next, events[1..])
  }

  /** Once the observer has seen the sheet open, the button stays hidden
      through any scrolling for as long as the sheet stays open. */
  lemma {:induction false} HiddenWhileSheetOpen(visible: bool, events: seq<Event>)
    requires 0 < |events| && events[0].Mutation?
    requires forall i :: 0 <= i < |events| ==> SheetOpen(events[i].sheetAttr)
    ensures !Run(visible, events)
  {
    StaysHidden(AfterMutation(events[0].sheetAttr, events[0].scrollY), events[1..]);
  }

  /** A hidden button stays hidden while every event sees the sheet open. */
  lemma {:induction false} StaysHidden(visible: bool, events: seq<Event>)
    requires !visible
    requires forall i :: 0 <= i < |events| ==> SheetOpen(events[i].sheetAttr)
    ensures !Run(visible, events)
    decreases |events|
  {
    if events != [] {
      assert SheetOpen(events[0].sheetAttr);
      StaysHidden(false, events[1..]);
    }
  }

  /** With no sheet open, the last event alone decides visibility. */
  lemma LastEventDecides(visible: bool, events: seq<Event>)
    requires 0 < |events|
    requires forall i :: 0 <= i < |events| ==> !SheetOpen(events[i].sheetAttr)
    ensures Run(visible, events) <==> events[|events| - 1].scrollY > SHOW_AFTER
    decreases |events|
  {
    if |events| > 1 {
      LastEventDecides(Run(visible, [events[0]]), events[1..]);
    }
  }

  class Button {
    var isVisible: bool
    /** The target of the last `window.scrollTo` the button issued. */
    var scrollTarget: Option<real>

    /** Mounting: `useState(false)`, then one check right away. */
    constructor (sheetAttr: Option<string>, scrollY: real)
      ensures isVisible == AfterScroll(false, sheetAttr, scrollY)
      ensures !isVisible || scrollY > SHOW_AFTER
      ensures scrollTarget == None
    {
      isVisible := false;
      scrollTarget := None;
      new;
      ToggleVisibility(sheetAttr, scrollY);
    }

    /** `toggleVisibility`, the scroll listener. */
    method ToggleVisibility(sheetAttr: Option<string>, scrollY: real)
      modifies this`isVisible
      ensures isVisible == AfterScroll(old(isVisible), sheetAttr, scrollY)
    {
      if sheetAttr == Some("true") {
        return;
      }
      isVisible := scrollY > SHOW_AFTER;
    }

    /** The mutation observer's callback. */
    method OnSheetAttrMutation(sheetAttr: Option<string>, scrollY: real)
      modifies this`isVisible
      ensures isVisible == AfterMutation(sheetAttr, scrollY)
    {
      isVisible := sheetAttr != Some("true") && scrollY > 600.0;
    }

    /** `scrollToTop`: always to offset 0. */
    method ScrollToTop()
      modifies this`scrollTarget
      ensures scrollTarget == Some(0.0)
    {
      scrollTarget := Some(0.0);
    }
  }
}
