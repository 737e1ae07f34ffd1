/** The generic bottom sheet (`componente/ui/BottomSheet.tsx`): the
    mount/enter lifecycle driven by the `open` prop, and the drag-to-dismiss
    pointer handlers over the `startY`/`currentY` refs. The animation frame and
    the unmount timer are explicit event methods. */
module BottomSheet {
  import opened Text
  import opened Browser

  /** Delay of the unmount timer armed on close. */
  const UNMOUNT_DELAY_MS: nat := 280
  /** A drag further than this (strictly) dismisses the sheet. */
  const DISMISS_DISTANCE: real := 80.0

  /** The drag offset of a pointer move, `Math.max(0, clientY - startY)`: how
      far the pointer is below where it went down, never negative. */
  function DragOffset(clientY: real, startY: real): (dy: real)
    ensures dy >= 0.0 && dy >= clientY - startY
    ensures dy == 0.0 || dy == clientY - startY
  {
    if clientY - startY >= 0.0 then clientY - startY else 0.0
  }

  /** Whether releasing after a drag of `dy` closes the sheet. */
  predicate Dismisses(dy: real) {
    dy > DISMISS_DISTANCE
  }

  /** A drag that dismisses ends more than 80 px below where it started. */
  lemma DismissMeansDraggedDown(clientY: real, startY: real)
    requires Dismisses(DragOffset(clientY, startY))
    ensures clientY > startY + DISMISS_DISTANCE
  {
  }

  class Sheet {
    const doc: Document
    /** The `open` prop of the last render. */
    var open: bool
    var mounted: bool
    var entered: bool
    /** Queued animation-frame callbacks that set `entered`. */
    var pendingEnterFrames: nat
    /** The delay of the pending unmount timer; `None` when none is pending. */
    var unmountTimer: Option<nat>
    /** `startY.current`; `None` is null. */
    var startY: Option<real>
    /** `currentY.current`. */
    var currentY: real
    /** The panel's inline transform offset; `None` is the empty style. */
    var transform: Option<real>
    /** How often `onClose` was called. */
    var closeRequests: nat

    /** The drag refs are consistent (no offset without a drag in progress,
        never a negative offset), the 280 ms unmount timer is only armed while closed,
        and the document overflow follows `open`. */
    ghost predicate Valid()
      reads this, doc
    {
      && currentY >= 0.0
      && (startY.None? ==> currentY == 0.0)
      && (transform.Some? ==> transform.value >= 0.0)
      && (unmountTimer.Some? ==> !open && unmountTimer.value == UNMOUNT_DELAY_MS)
      && doc.rootOverflow == (if open then "hidden" else "")
    }

    /** What is rendered: nothing while not mounted. */
    predicate Rendered()
      reads this
    {
      mounted
    }

    /** The first render (`mounted` starts as `open`) followed by the effect,
        which writes only the page overflow. */
    constructor (doc: Document, open: bool)
      modifies doc
      ensures Valid() && this.doc == doc && this.open == open
      ensures mounted == open && !entered
      ensures pendingEnterFrames == (if open then 1 else 0) && unmountTimer == (if open then None else Some(UNMOUNT_DELAY_MS))
      ensures startY == None && transform == None && closeRequests == 0
      ensures doc.storage == old(doc.storage) && doc.dataTheme == old(doc.dataTheme) && doc.htmlLang == old(doc.htmlLang)
    {
      this.doc := doc;
      this.open := open;
      mounted := open;
      entered := false;
      pendingEnterFrames := 0;
      unmountTimer := None;
      startY := None;
      currentY := 0.0;
      transform := None;
      closeRequests := 0;
      new;
      OpenEffect();
    }

    /** The `[open]` effect; a re-run first clears the timer of the previous run. */
    method OpenEffect()
      modifies this`mounted, this`entered, this`pendingEnterFrames, this`unmountTimer, doc
      ensures open ==>
        mounted && entered == old(entered) && pendingEnterFrames == old(pendingEnterFrames) + 1 && unmountTimer == None
      ensures !open ==>
        mounted == old(mounted) && !entered && pendingEnterFrames == old(pendingEnterFrames) &&
        unmountTimer == Some(UNMOUNT_DELAY_MS)
      ensures doc.rootOverflow == (if open then "hidden" else "")
      ensures doc.storage == old(doc.storage) && doc.dataTheme == old(doc.dataTheme) && doc.htmlLang == old(doc.htmlLang)
    {
      unmountTimer := None;
      if open {
        mounted := true;
        pendingEnterFrames := pendingEnterFrames + 1;
        doc.rootOverflow := "hidden";
      } else {
        entered := false;
        unmountTimer := Some(UNMOUNT_DELAY_MS);
        doc.rootOverflow := "";
      }
    }

    /** The parent re-renders with `o`; the effect runs only when it changed.
        Opening mounts the sheet and hides the page overflow; closing leaves
        the sheet mounted until the timer fires, un-enters it at once and
        restores the overflow. */
    method SetOpen(o: bool)
      requires Valid()
      modifies this`open, this`mounted, this`entered, this`pendingEnterFrames, this`unmountTimer, doc
      ensures Valid() && open == o
      ensures o != old(open) && o ==>
        mounted && entered == old(entered) && pendingEnterFrames == old(pendingEnterFrames) + 1 && unmountTimer == None
      ensures o != old(open) && !o ==>
        mounted == old(mounted) && !entered && pendingEnterFrames == old(pendingEnterFrames) &&
        unmountTimer == Some(UNMOUNT_DELAY_MS)
      ensures o == old(open) ==>
        mounted == old(mounted) && entered == old(entered) && unmountTimer == old(unmountTimer) &&
        pendingEnterFrames == old(pendingEnterFrames)
      ensures doc.storage == old(doc.storage) && doc.dataTheme == old(doc.dataTheme) && doc.htmlLang == old(doc.htmlLang)
    {
      if o != open {
        open := o;
        OpenEffect();
      }
    }

    /** A queued animation frame runs: the sheet is entered (also when it was
        closed again in the meantime, since the frame is never cancelled). */
    method FireEnterFrame()
      requires Valid() && pendingEnterFrames > 0
      modifies this`entered, this`pendingEnterFrames
      ensures Valid() && entered && pendingEnterFrames == old(pendingEnterFrames) - 1
    {
      pendingEnterFrames := pendingEnterFrames - 1;
      entered := true;
    }

    /** The unmount timer fires: nothing is rendered any more, and the panel
        element goes with its inline drag transform, so a later mount starts
        from the empty style. */
    method FireUnmountTimer()
      requires Valid() && unmountTimer.Some?
      modifies this`mounted, this`unmountTimer, this`transform
      ensures Valid() && !mounted && unmountTimer == None && !Rendered()
      ensures transform == None
    {
      unmountTimer := None;
      mounted := false;
      transform := None;
    }

    /** `onPointerDown`: the drag starts at the pointer's position. */
    method OnPointerDown(clientY: real)
      requires Valid()
      modifies this`startY
      ensures Valid() && startY == Some(clientY)
    {
      startY := Some(clientY);
    }

    /** `onPointerMove`: without a drag in progress nothing happens; otherwise
        the offset is recorded and the panel follows it. */
    method OnPointerMove(clientY: real)
      requires Valid()
      modifies this`currentY, this`transform
      ensures Valid()
      ensures old(startY).None? ==> currentY == old(currentY) && transform == old(transform)
      ensures old(startY).Some? ==> currentY == DragOffset(clientY, old(startY).value)
      ensures old(startY).Some? ==> transform == if mounted then Some(currentY) else old(transform)
    {
      if startY.None? {
        return;
      }
      var dy := DragOffset(clientY, startY.value);
      currentY := dy;
      if mounted {
        transform := Some(dy);
      }
    }

    /** `onPointerUp` (also bound to pointer cancel): without a drag in
        progress nothing happens; otherwise the drag ends, and the sheet asks
        to close exactly when the recorded offset is over 80 px, else the panel
        snaps back. */
    method OnPointerUp()
      requires Valid()
      modifies this`startY, this`currentY, this`transform, this`closeRequests
      ensures Valid()
      ensures old(startY).None? ==>
        startY == None && currentY == old(currentY) && transform == old(transform) && closeRequests == old(closeRequests)
      ensures old(startY).Some? ==> startY == None && currentY == 0.0
      ensures old(startY).Some? && Dismisses(old(currentY)) ==>
        closeRequests == old(closeRequests) + 1 && transform == old(transform)
      ensures old(startY).Some? && !Dismisses(old(currentY)) ==>
        closeRequests == old(closeRequests) && transform == if mounted then None else old(transform)
    {
      if startY.None? {
        return;
      }
      var dy := currentY;
      startY := None;
      currentY := 0.0;
      if dy > DISMISS_DISTANCE {
        closeRequests := closeRequests + 1;
        return;
      }
      if mounted {
        transform := None;
      }
    }

    /** `onPointerCancel` is bound to the same handler as pointer up. */
    method OnPointerCancel()
      requires Valid()
      modifies this`startY, this`currentY, this`transform, this`closeRequests
      ensures Valid()
      ensures old(startY).None? ==>
        startY == None && currentY == old(currentY) && transform == old(transform) && closeRequests == old(closeRequests)
      ensures old(startY).Some? ==> startY == None && currentY == 0.0
      ensures old(startY).Some? && Dismisses(old(currentY)) ==>
        closeRequests == old(closeRequests) + 1 && transform == old(transform)
      ensures old(startY).Some? && !Dismisses(old(currentY)) ==>
        closeRequests == old(closeRequests) && transform == if mounted then None else old(transform)
    {
      OnPointerUp();
    }
  }
}
