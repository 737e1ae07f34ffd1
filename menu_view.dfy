/** The category-tab controller of the menu page (`componente/MenuView.tsx`):
    which category tab is active while the page scrolls, how the active tab is
    centred in the horizontal tab strip, how a tab click locks the highlight
    until the smooth scroll settles, and how the dish sheet suspends it.

    Layout is an input: the section rectangles (viewport coordinates, absent
    while a section is not mounted), the window metrics and the tab geometry
    are read from a `Layout` value instead of the DOM. Timers and the
    `scrollend` event are explicit event methods on `TabController`. */
module MenuView {
  import opened Text
  import opened I18n
  import Badges

  /** Height of the sticky tab bar (`STICKY_HEIGHT`). */
  const STICKY_HEIGHT: real := 56.0
  /** Extra gap below the tab bar used by every scroll computation. */
  const STICKY_GAP: real := 6.0
  /** The top of the usable viewport: 62 px below the window top. */
  const VIEWPORT_TOP: real := STICKY_HEIGHT + STICKY_GAP
  /** Tolerance of the bottom guard. */
  const BOTTOM_EPSILON: real := 1.0
  /** Divisor of the distance tie-breaker. */
  const TIE_DIVISOR: real := 1000.0
  /** Delay of the fallback unlock timer armed by a tab click. */
  const UNLOCK_FALLBACK_MS: nat := 650
  /** Delay between closing the dish sheet and re-enabling auto-highlight. */
  const SHEET_CLOSE_MS: nat := 320

  // ---- data ----

  /** A dish of the menu (`Dish`); extras, calories and the popular flag are
      display-only and not modelled. */
  datatype Dish = Dish(
    code: Option<string>,
    name: Localized,
    price: real,
    description: Option<Localized>,
    badges: Option<seq<string>>,
    allergene: Option<seq<string>>,
    info: Option<seq<string>>)

  /** `getCategoryIcon(iconKey)`: no icon for a missing or empty key; otherwise
      the badge table entry for the normalised key, or a fallback entry labelled
      with the key as given and pointing at the normalised key's icon. */
  function CategoryIcon(iconKey: Option<string>): (m: Option<Badges.Meta>)
    ensures m.None? <==> iconKey.None? || iconKey.value == ""
    ensures m.Some? && Normalize(iconKey.value) in Badges.BADGE_META ==>
      m.value == Badges.BADGE_META[Normalize(iconKey.value)]
    ensures m.Some? && Normalize(iconKey.value) !in Badges.BADGE_META ==>
      m.value.caption == Plain(iconKey.value)
  {
    if iconKey.None? || iconKey.value == "" then None
    else
      var key := Normalize(iconKey.value);
      if key in Badges.BADGE_META then Some(Badges.BADGE_META[key])
      else Some(Badges.Meta(Plain(iconKey.value), Badges.IconPath(key)))
  }

  /** Whichever branch `getCategoryIcon` takes, the icon path is the one named
      after the normalised key. */
  lemma CategoryIconPath(iconKey: string)
    requires iconKey != ""
    ensures CategoryIcon(Some(iconKey)).value.src == Badges.IconPath(Normalize(iconKey))
  {
    var key := Normalize(iconKey);
    if key in Badges.BADGE_META {
      Badges.BadgeIconsFollowKeys(key);
    }
  }

  /** A pending sheet-close timer: its delay and the `isSheetOpen` value its
      `updateActiveByScroll` closure captured. */
  datatype CloseTimer = CloseTimer(delayMs: nat, sawOpen: bool)

  // ---- geometry ----

  /** A section's bounding box in viewport coordinates. */
  datatype Rect = Rect(top: real, bottom: real)
  /** A tab button's `offsetLeft` and `offsetWidth`. */
  datatype TabBox = TabBox(offsetLeft: real, offsetWidth: real)
  /** The tab strip's `clientWidth` and `scrollWidth`. */
  datatype Strip = Strip(clientWidth: real, scrollWidth: real)

  /** Everything the controller reads from the page: `window.scrollY`,
      `window.innerHeight`, the document's `scrollHeight`, the mounted sections
      and tab buttons by category id, and the tab strip when it is mounted. */
  datatype Layout = Layout(
    scrollY: real,
    innerHeight: real,
    scrollHeight: real,
    sections: map<string, Rect>,
    strip: Option<Strip>,
    tabs: map<string, TabBox>)

  function Max(a: real, b: real): (m: real) { if a >= b then a else b }
  function Min(a: real, b: real): (m: real) { if a <= b then a else b }
  function Abs(a: real): (m: real) { if a >= 0.0 then a else -a }

  // ---- centerActiveTab ----

  /** The largest scroll offset of the strip, never negative. */
  function MaxScroll(strip: Strip): (max: real)
    ensures max >= 0.0
  {
    Max(0.0, strip.scrollWidth - strip.clientWidth)
  }

  /** The offset that puts the tab's centre at the strip's centre. */
  function CenterIdeal(tab: TabBox, strip: Strip): (x: real) {
    tab.offsetLeft + tab.offsetWidth / 2.0 - strip.clientWidth / 2.0
  }

  /** The scroll target of `centerActiveTab`: the centring offset clamped into
      `[0, max(0, scrollWidth - clientWidth)]`. */
  function CenterTarget(tab: TabBox, strip: Strip): (x: real)
    ensures 0.0 <= x <= MaxScroll(strip)
    ensures 0.0 <= CenterIdeal(tab, strip) <= MaxScroll(strip) ==> x == CenterIdeal(tab, strip)
    ensures CenterIdeal(tab, strip) < 0.0 ==> x == 0.0
    ensures CenterIdeal(tab, strip) > MaxScroll(strip) ==> x == MaxScroll(strip)
  {
    var target := CenterIdeal(tab, strip);
    var max := MaxScroll(strip);
    Max(0.0, Min(max, target))
  }

  /** The strip offset after `centerActiveTab(id)`: unchanged when the strip or
      the tab button is not mounted. */
  function CenterScroll(id: string, layout: Layout, current: real): (x: real)
    ensures layout.strip.None? || id !in layout.tabs ==> x == current
    ensures layout.strip.Some? && id in layout.tabs ==> 0.0 <= x <= MaxScroll(layout.strip.value)
  {
    if layout.strip.None? || id !in layout.tabs then current
    else CenterTarget(layout.tabs[id], layout.strip.value)
  }

  // ---- scoring ----

  /** How much of the section shows between the tab bar and the window bottom;
      its role in the choice is stated by `Score`, `ScanIsBest` and
      `NormalCaseIsBest`. */
  function VisibleHeight(r: Rect, winH: real): (h: real)
    ensures h >= 0.0
  {
    Max(0.0, Min(r.bottom, winH) - Max(r.top, VIEWPORT_TOP))
  }

  /** Minus a thousandth of the distance between the section top and the tab
      bar; never positive. `OutOfViewBeatsStart` states when it still lets an
      out-of-view section beat the starting score. */
  function TieBreaker(r: Rect): (t: real)
    ensures t <= 0.0
  {
    -Abs(r.top - VIEWPORT_TOP) / TIE_DIVISOR
  }

  /** The score of a mounted section: its visible height plus the tie-breaker,
      which never adds to the height. */
  function Score(r: Rect, winH: real): (score: real)
    ensures score <= VisibleHeight(r, winH)
  {
    VisibleHeight(r, winH) + TieBreaker(r)
  }

  /** A section out of view still beats the scan's starting score of -1
      exactly when its top is within 1000 px of the tab bar. */
  lemma OutOfViewBeatsStart(r: Rect, winH: real)
    requires VisibleHeight(r, winH) == 0.0
    ensures Score(r, winH) > -1.0 <==> Abs(r.top - VIEWPORT_TOP) < 1000.0
  {
  }

  /** The running best of the scan: an index into the ids and its score. */
  datatype Best = Best(index: nat, score: real)

  /** The scan of the normal case over the first `n` ids: start at `ids[0]`
      with score -1, skip unmounted ids, and move to an id only when its score
      is strictly greater. */
  function Scan(ids: seq<string>, sections: map<string, Rect>, winH: real, n: nat): (b: Best)
    requires 0 < |ids| && n <= |ids|
    ensures b.index < |ids| && b.score >= -1.0
    ensures b.score == -1.0 ==> b.index == 0
    ensures b.score > -1.0 ==> b.index < n && ids[b.index] in sections && Score(sections[ids[b.index]], winH) == b.score
    ensures forall j :: 0 <= j < n && ids[j] in sections ==> Score(sections[ids[j]], winH) <= b.score
    ensures forall j :: 0 <= j < b.index && ids[j] in sections ==> Score(sections[ids[j]], winH) < b.score
  {
    if n == 0 then Best(0, -1.0)
    else
      var prev := Scan(ids, sections, winH, n - 1);
      var id := ids[n - 1];
      if id in sections && Score(sections[id], winH) > prev.score then Best(n - 1, Score(sections[id], winH))
      else prev
  }

  /** The declarative choice of the normal case: when some mounted section
      scores above -1, the first index of the highest score among mounted
      sections; otherwise index 0. */
  ghost predicate IsBestIndex(ids: seq<string>, sections: map<string, Rect>, winH: real, k: nat) {
    && k < |ids|
    && if exists j :: 0 <= j < |ids| && ids[j] in sections && Score(sections[ids[j]], winH) > -1.0 then
         && ids[k] in sections
         && (forall j :: 0 <= j < |ids| && ids[j] in sections ==> Score(sections[ids[j]], winH) <= Score(sections[ids[k]], winH))
         && (forall j :: 0 <= j < k && ids[j] in sections ==> Score(sections[ids[j]], winH) < Score(sections[ids[k]], winH))
       else k == 0
  }

  /** The scan finds the declarative choice. */
  lemma ScanIsBest(ids: seq<string>, sections: map<string, Rect>, winH: real)
    requires 0 < |ids|
    ensures IsBestIndex(ids, sections, winH, Scan(ids, sections, winH, |ids|).index)
  {
    var b := Scan(ids, sections, winH, |ids|);
    if exists j :: 0 <= j < |ids| && ids[j] in sections && Score(sections[ids[j]], winH) > -1.0 {
      var j :| 0 <= j < |ids| && ids[j] in sections && Score(sections[ids[j]], winH) > -1.0;
      assert b.score > -1.0;
    }
  }

  /** The declarative choice is unique: ties go to the earliest id. */
  lemma BestIndexUnique(ids: seq<string>, sections: map<string, Rect>, winH: real, k1: nat, k2: nat)
    requires IsBestIndex(ids, sections, winH, k1) && IsBestIndex(ids, sections, winH, k2)
    ensures k1 == k2
  {
  }

  /** The normal-case loop of `updateActiveByScroll`. */
  method BestVisible(ids: seq<string>, sections: map<string, Rect>, winH: real) returns (bestId: string)
    requires 0 < |ids|
    ensures bestId in ids
    ensures bestId == ids[Scan(ids, sections, winH, |ids|).index]
  {
    bestId := ids[0];
    var bestScore := -1.0;
    for i := 0 to |ids|
      invariant bestScore == Scan(ids, sections, winH, i).score
      invariant bestId == ids[Scan(ids, sections, winH, i).index]
    {
      var id := ids[i];
      ghost var next := Scan(ids, sections, winH, i + 1);
      if id !in sections {
        assert next == Scan(ids, sections, winH, i);
        continue;
      }
      var r := sections[id];
      var visibleHeight := VisibleHeight(r, winH);
      var tieBreaker := TieBreaker(r);
      var score := visibleHeight + tieBreaker;
      assert score == Score(r, winH);
      if score > bestScore {
        bestScore := score;
        bestId := id;
        assert next == Best(i, score);
      } else {
        assert next == Scan(ids, sections, winH, i);
      }
    }
  }

  // ---- the decision of updateActiveByScroll ----

  /** The top guard as written: the window is scrolled no further than one
      pixel past the first section's top minus the 62 px bar. */
  predicate TopGuard(ids: seq<string>, layout: Layout)
    requires 0 < |ids|
    ensures TopGuard(ids, layout) ==> ids[0] in layout.sections && layout.sections[ids[0]].top >= 61.0
  {
    && ids[0] in layout.sections
    && var firstAbsTop := layout.sections[ids[0]].top + layout.scrollY;
       var topThreshold := firstAbsTop - (STICKY_HEIGHT + STICKY_GAP);
       layout.scrollY <= topThreshold + 1.0
  }

  /** The top guard only depends on where the first section sits in the
      viewport: its top is at least 61 px below the window top. */
  lemma TopGuardSimplifies(ids: seq<string>, layout: Layout)
    requires 0 < |ids|
    ensures TopGuard(ids, layout) <==> ids[0] in layout.sections && layout.sections[ids[0]].top >= 61.0
  {
  }

  /** The bottom guard: the window reaches the end of the document, within 1 px. */
  predicate BottomGuard(layout: Layout)
    ensures BottomGuard(layout) <==> layout.scrollHeight - (layout.scrollY + layout.innerHeight) <= 1.0
  {
    layout.scrollY + layout.innerHeight >= layout.scrollHeight - BOTTOM_EPSILON
  }

  /** The active id after one unsuspended `updateActiveByScroll`: the first id
      under the top guard, else the last id under the bottom guard, else the
      best-scoring id (kept only when it is a non-empty string). */
  function NextActive(ids: seq<string>, layout: Layout, current: string): (next: string)
    requires 0 < |ids|
    ensures current in ids ==> next in ids
  {
    if TopGuard(ids, layout) then ids[0]
    else if BottomGuard(layout) then ids[|ids| - 1]
    else
      var best := ids[Scan(ids, layout.sections, layout.innerHeight, |ids|).index];
      if best != "" then best else current
  }

  /** The new active id is one of the ids, or the old one. */
  lemma NextActiveIsMember(ids: seq<string>, layout: Layout, current: string)
    requires 0 < |ids|
    ensures NextActive(ids, layout, current) in ids || NextActive(ids, layout, current) == current
  {
  }

  /** A second call on unchanged geometry changes nothing. */
  lemma NextActiveIdempotent(ids: seq<string>, layout: Layout, current: string)
    requires 0 < |ids|
    ensures NextActive(ids, layout, NextActive(ids, layout, current)) == NextActive(ids, layout, current)
  {
  }

  /** The top guard wins over everything else. */
  lemma TopGuardWins(ids: seq<string>, layout: Layout, current: string)
    requires 0 < |ids| && ids[0] in layout.sections && layout.sections[ids[0]].top >= 61.0
    ensures NextActive(ids, layout, current) == ids[0]
  {
    TopGuardSimplifies(ids, layout);
  }

  /** Without the top guard, reaching the document end selects the last id. */
  lemma BottomGuardWins(ids: seq<string>, layout: Layout, current: string)
    requires 0 < |ids| && !(ids[0] in layout.sections && layout.sections[ids[0]].top >= 61.0)
    requires layout.scrollY + layout.innerHeight >= layout.scrollHeight - 1.0
    ensures NextActive(ids, layout, current) == ids[|ids| - 1]
  {
    TopGuardSimplifies(ids, layout);
  }

  /** Otherwise the choice is the declarative best index of the visible-height
      score, and it is independent of the old active id unless that index holds
      the empty string. */
  lemma NormalCaseIsBest(ids: seq<string>, layout: Layout, current: string)
    requires 0 < |ids| && !TopGuard(ids, layout) && !BottomGuard(layout)
    ensures exists k: nat ::
              IsBestIndex(ids, layout.sections, layout.innerHeight, k) &&
              NextActive(ids, layout, current) == (if ids[k] != "" then ids[k] else current)
  {
    ScanIsBest(ids, layout.sections, layout.innerHeight);
  }

  // ---- the controller ----

  /** The state of `MenuView` that the tab logic touches: `activeCatId`, the
      `allowAutoHighlight` ref, the armed unlock watchers (`unlockRef`, the
      `scrollend` listener on the window, `unlockTimerRef`), the sheet state,
      the pending sheet-close timers, and the last scroll targets sent to the
      tab strip and to the window. */
  class TabController {
    /** The category ids in page order; fixed for the page's lifetime. */
    const ids: seq<string>
    var activeCatId: string
    var allowAutoHighlight: bool
    /** `unlockRef.current !== null`. */
    var unlockRef: bool
    /** Unlock listeners attached to the window's `scrollend` event. */
    var scrollendListeners: nat
    /** `unlockTimerRef.current`: the delay of the pending fallback timer. */
    var unlockTimer: Option<nat>
    var isSheetOpen: bool
    var selectedDish: Option<Dish>
    /** Pending sheet-close timers, oldest first, each with its delay and the
        `isSheetOpen` value its closure captured. */
    var closeTimers: seq<CloseTimer>
    /** The tab strip's scroll offset as last set by `centerActiveTab`. */
    var stripScrollLeft: real
    /** The last `window.scrollTo` target issued by a tab click. */
    var pageScrollTarget: Option<real>

    /** The active id is always one of the ids (or "" when there are none),
        and at most one unlock path is armed: the remembered listener is the
        only one attached, and it is armed together with a 650 ms timer; every
        pending sheet-close timer has the 320 ms delay. */
    ghost predicate Valid()
      reads this
    {
      && (0 < |ids| ==> activeCatId in ids)
      && (|ids| == 0 ==> activeCatId == "")
      && scrollendListeners == (if unlockRef then 1 else 0)
      && (unlockRef <==> unlockTimer.Some?)
      && (unlockTimer.Some? ==> unlockTimer.value == UNLOCK_FALLBACK_MS)
      && (forall i :: 0 <= i < |closeTimers| ==> closeTimers[i].delayMs == SHEET_CLOSE_MS)
    }

    /** Mounting: the first id is active, auto-highlight is on, nothing is armed. */
    constructor (ids: seq<string>)
      ensures Valid() && this.ids == ids
      ensures activeCatId == (if 0 < |ids| then ids[0] else "")
      ensures allowAutoHighlight && !unlockRef && unlockTimer == None
      ensures !isSheetOpen && selectedDish == None && closeTimers == []
      ensures stripScrollLeft == 0.0 && pageScrollTarget == None
    {
      this.ids := ids;
      activeCatId := if 0 < |ids| then ids[0] else "";
      allowAutoHighlight := true;
      unlockRef := false;
      scrollendListeners := 0;
      unlockTimer := None;
      isSheetOpen := false;
      selectedDish := None;
      closeTimers := [];
      stripScrollLeft := 0.0;
      pageScrollTarget := None;
    }

    /** The early return of `updateActiveByScroll`, for the `isSheetOpen` value
        the calling closure captured. */
    predicate Halted(sheetOpenSeen: bool)
      reads this
    {
      !allowAutoHighlight || |ids| == 0 || sheetOpenSeen
    }

    /** Removes the remembered `scrollend` listener and clears the fallback timer. */
    method DisarmUnlock()
      requires Valid()
      modifies this`unlockRef, this`scrollendListeners, this`unlockTimer
      ensures Valid()
      ensures !unlockRef && scrollendListeners == 0 && unlockTimer == None
    {
      if unlockRef {
        scrollendListeners := scrollendListeners - 1;
        unlockRef := false;
      }
      if unlockTimer.Some? {
        unlockTimer := None;
      }
    }

    /** `centerActiveTab(id)`. */
    method CenterActiveTab(id: string, layout: Layout)
      modifies this`stripScrollLeft
      ensures stripScrollLeft == CenterScroll(id, layout, old(stripScrollLeft))
    {
      if layout.strip.None? || id !in layout.tabs {
        return;
      }
      var container := layout.strip.value;
      var btn := layout.tabs[id];
      var target := btn.offsetLeft + btn.offsetWidth / 2.0 - container.clientWidth / 2.0;
      var max := Max(0.0, container.scrollWidth - container.clientWidth);
      stripScrollLeft := Max(0.0, Min(max, target));
    }

    /** `updateActiveByScroll`, run by the scroll and resize listeners and by
        the sheet-close timer; `sheetOpenSeen` is the `isSheetOpen` of the
        render whose closure runs. Halted, it changes nothing; otherwise the
        active id becomes `NextActive`, and the strip is re-centred exactly when
        the active id changes. */
    method UpdateActiveByScroll(layout: Layout, sheetOpenSeen: bool)
      requires Valid()
      modifies this`activeCatId, this`stripScrollLeft
      ensures Valid()
      ensures old(Halted(sheetOpenSeen)) ==>
        activeCatId == old(activeCatId) && stripScrollLeft == old(stripScrollLeft)
      ensures !old(Halted(sheetOpenSeen)) ==> activeCatId == NextActive(ids, layout, old(activeCatId))
      ensures stripScrollLeft ==
        if activeCatId != old(activeCatId) then CenterScroll(activeCatId, layout, old(stripScrollLeft))
        else old(stripScrollLeft)
    {
      if !allowAutoHighlight || |ids| == 0 || sheetOpenSeen {
        return;
      }
      var docH := layout.scrollHeight;
      var winH := layout.innerHeight;
      var y := layout.scrollY;
      var firstId := ids[0];
      var lastId := ids[|ids| - 1];

      // top guard
      if firstId in layout.sections {
        var firstAbsTop := layout.sections[firstId].top + y;
        var topThreshold := firstAbsTop - (STICKY_HEIGHT + STICKY_GAP);
        if y <= topThreshold + 1.0 {
          if activeCatId != firstId {
            activeCatId := firstId;
            CenterActiveTab(firstId, layout);
          }
          return;
        }
      }

      // bottom guard
      if y + winH >= docH - BOTTOM_EPSILON {
        if activeCatId != lastId {
          activeCatId := lastId;
          CenterActiveTab(lastId, layout);
        }
        return;
      }

      // normal case
      var bestId := BestVisible(ids, layout.sections, winH);
      if bestId != "" && bestId != activeCatId {
        activeCatId := bestId;
        CenterActiveTab(bestId, layout);
      }
    }

    /** `goToCategory(catId)` for a clicked tab: the tab becomes active and
        auto-highlight is locked, the window is sent to the section (when it is
        mounted), the tab is centred, and after disarming any earlier watchers
        exactly one `scrollend` listener and one 650 ms timer are armed. */
    method GoToCategory(catId: string, layout: Layout)
      requires Valid() && catId in ids
      modifies this`activeCatId, this`allowAutoHighlight, this`pageScrollTarget, this`stripScrollLeft,
               this`unlockRef, this`scrollendListeners, this`unlockTimer
      ensures Valid()
      ensures activeCatId == catId && !allowAutoHighlight
      ensures unlockRef && scrollendListeners == 1 && unlockTimer == Some(UNLOCK_FALLBACK_MS)
      ensures pageScrollTarget ==
        if catId in layout.sections
        then Some(layout.sections[catId].top + layout.scrollY - STICKY_HEIGHT - STICKY_GAP)
        else old(pageScrollTarget)
      ensures stripScrollLeft == CenterScroll(catId, layout, old(stripScrollLeft))
    {
      activeCatId := catId;
      allowAutoHighlight := false;
      if catId in layout.sections {
        var y := layout.sections[catId].top + layout.scrollY - STICKY_HEIGHT - STICKY_GAP;
        pageScrollTarget := Some(y);
      }
      CenterActiveTab(catId, layout);
      DisarmUnlock();
      unlockRef := true;
      scrollendListeners := scrollendListeners + 1;
      unlockTimer := Some(UNLOCK_FALLBACK_MS);
    }

    /** `unlock`: auto-highlight resumes and both watchers are disarmed, so the
        other release path no longer acts. */
    method Unlock()
      requires Valid()
      modifies this`allowAutoHighlight, this`unlockRef, this`scrollendListeners, this`unlockTimer
      ensures Valid()
      ensures allowAutoHighlight && !unlockRef && scrollendListeners == 0 && unlockTimer == None
    {
      allowAutoHighlight := true;
      DisarmUnlock();
    }

    /** The window fires `scrollend`: the attached unlock listener, if any, runs. */
    method OnScrollEnd()
      requires Valid()
      modifies this`allowAutoHighlight, this`unlockRef, this`scrollendListeners, this`unlockTimer
      ensures Valid()
      ensures old(unlockRef) ==> allowAutoHighlight && !unlockRef && unlockTimer == None
      ensures !old(unlockRef) ==>
        allowAutoHighlight == old(allowAutoHighlight) && !unlockRef && unlockTimer == None
    {
      if scrollendListeners > 0 {
        Unlock();
      }
    }

    /** The pending 650 ms fallback timer fires and runs `unlock`. */
    method OnUnlockTimer()
      requires Valid() && unlockTimer.Some?
      modifies this`allowAutoHighlight, this`unlockRef, this`scrollendListeners, this`unlockTimer
      ensures Valid()
      ensures allowAutoHighlight && !unlockRef && scrollendListeners == 0 && unlockTimer == None
    {
      Unlock();
    }

    /** `openDishSheet(d)`: any pending unlock is cancelled and auto-highlight
        is held off while the sheet is open. */
    method OpenDishSheet(d: Dish)
      requires Valid()
      modifies this`allowAutoHighlight, this`unlockRef, this`scrollendListeners, this`unlockTimer,
               this`selectedDish, this`isSheetOpen
      ensures Valid()
      ensures !allowAutoHighlight && !unlockRef && scrollendListeners == 0 && unlockTimer == None
      ensures selectedDish == Some(d) && isSheetOpen
    {
      DisarmUnlock();
      allowAutoHighlight := false;
      selectedDish := Some(d);
      isSheetOpen := true;
    }

    /** `closeDishSheet()`: the sheet flag is cleared and a 320 ms timer is
        queued whose closure captured `renderedOpen`, the `isSheetOpen` of the
        render that created the `closeDishSheet` being called. Both sheets of
        the page get the same closure, so several closes within one render all
        capture the same flag. */
    method CloseDishSheet(renderedOpen: bool)
      requires Valid()
      modifies this`isSheetOpen, this`closeTimers
      ensures Valid()
      ensures !isSheetOpen && closeTimers == old(closeTimers) + [CloseTimer(SHEET_CLOSE_MS, renderedOpen)]
    {
      closeTimers := closeTimers + [CloseTimer(SHEET_CLOSE_MS, renderedOpen)];
      isSheetOpen := false;
    }

    /** The oldest sheet-close timer fires: auto-highlight is switched back on,
        then the captured `updateActiveByScroll` runs and, unless it returns
        early, the selected dish is cleared. A close issued while the sheet was
        open captured `true`, so then only auto-highlight changes. The unlock
        watchers are outside its frame: a tab click made while this timer was
        pending stays armed, but its lock is already lifted. */
    method FireCloseTimer(layout: Layout)
      requires Valid() && 0 < |closeTimers|
      modifies this`allowAutoHighlight, this`closeTimers, this`activeCatId, this`stripScrollLeft, this`selectedDish
      ensures Valid()
      ensures allowAutoHighlight && closeTimers == old(closeTimers)[1..]
      ensures old(closeTimers[0].sawOpen) || |ids| == 0 ==>
        activeCatId == old(activeCatId) && stripScrollLeft == old(stripScrollLeft) && selectedDish == old(selectedDish)
      ensures !old(closeTimers[0].sawOpen) && 0 < |ids| ==>
        activeCatId == NextActive(ids, layout, old(activeCatId)) && selectedDish == None
      ensures stripScrollLeft ==
        if activeCatId != old(activeCatId) then CenterScroll(activeCatId, layout, old(stripScrollLeft))
        else old(stripScrollLeft)
    {
      var captured := closeTimers[0].sawOpen;
      closeTimers := closeTimers[1..];
      allowAutoHighlight := true;
      UpdateActiveByScroll(layout, captured);
      if !allowAutoHighlight || |ids| == 0 || captured {
        return;
      }
      selectedDish := None;
    }
  }
}
