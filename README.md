# gastrobit-demo menu page, modelled in Dafny

This project models the client-side logic of the gastrobit-demo restaurant
menu page, a Next.js/React app. The centre of the model is the category-tab
controller of `MenuView`. It decides which category tab is active while the
page scrolls. It centres the active tab in the horizontal tab strip. It locks
the highlight after a tab click until the smooth scroll settles. It suspends
the highlight while the dish sheet is open.

Around it sit the smaller components:
- the badge row (normalise, then stable-sort by a fixed order);
- the content of the dish sheet (table lookups, and a dedupe of info lines by label);
- the language provider (`t`, `asText`, validation of the stored language, persistence);
- the settings popover (start theme and language, theme toggle);
- the drag-to-dismiss bottom sheet;
- the back-to-top button.

The tables of `badges/meta.ts`, `i18n/strings.ts` and the two `*_META` maps of
`DishSheet.tsx` are transcribed as constants.

Modules, one per source file, plus two that model what the page takes from
the platform and that no source file defines: `Text` (JS string built-ins)
and `Browser` (localStorage and the `<html>` element):

| file | module | source |
|---|---|---|
| `text.dfy` | `Text` | the `toLowerCase().trim()` key normalisation, Option/Result |
| `browser.dfy` | `Browser` | localStorage and the `<html>` attributes, as one object |
| `i18n.dfy` | `I18n` | `componente/i18n/I18nProvider.tsx`, `componente/i18n/strings.ts` |
| `badges.dfy` | `Badges` | `componente/badges/BadgesRow.tsx`, `componente/badges/meta.ts` |
| `menu_view.dfy` | `MenuView` | `componente/MenuView.tsx` |
| `dish_sheet.dfy` | `DishSheet` | `componente/DishSheet.tsx` |
| `settings_menu.dfy` | `SettingsMenu` | `componente/SettingsMenu.tsx`, `config/theme.ts` constants |
| `bottom_sheet.dfy` | `BottomSheet` | `componente/ui/BottomSheet.tsx` |
| `back_to_top.dfy` | `BackToTop` | `componente/BackToTopButton.tsx` |

How the model is built:
- **State.** Components with state are classes. React state and refs become
  fields. Event handlers, effects, timers and animation frames become methods.
  Each timer and frame callback is an explicit "fire" method, because the
  model has no clock.
- **Page geometry.** Everything `MenuView` reads from the page is an input
  `Layout` value. This covers section rectangles (an id is absent while its
  section is not mounted), `scrollY`, `innerHeight`, `scrollHeight`, and the
  tab and strip widths. The arithmetic uses exact `real` numbers for the
  `/2` and `/1000` of the source, which the browser computes in doubles.
- **Closures.** `updateActiveByScroll` tests `isSheetOpen`. It sees the value
  captured by whichever closure calls it. The model therefore takes that
  value as the parameter `sheetOpenSeen`.
- **The sheet-close timer.** This closure was created in a render where the
  sheet was open. It carries `true`, and so it only switches auto-highlight
  back on. `FireCloseTimer` states this.
- **The crustacean entry.** Its info key is spelled `Krebs`, with a capital
  K. Every lookup normalises to lower case first, so this entry can never
  produce a line. The model keeps the table exactly as written and proves
  that consequence (`DishSheet.CrustaceansNeverShown`).
- **Stable sort.** `Array.prototype.sort` must be stable by section 23.1.3.30
  of ECMA-262 (2023). The badge sort is therefore modelled as a stable
  insertion sort. A lemma shows that any stable sort by the same key gives
  the same list.

How the tab controller decides and unlocks:
- the normal case scores each mounted section by its visible height below
  the bar, plus a tie-breaker of minus a thousandth of its distance from it;
- the bottom guard has a 1 px tolerance;
- the active tab is always centred in the strip;
- after a tab click the highlight is unlocked by `scrollend`, by the 650 ms
  fallback timer, or by a sheet-close timer still pending from a close less
  than 320 ms before the click: that timer switches auto-highlight back on
  unconditionally and leaves the click's listener and timer armed;
- `unlock` does not recompute the active tab.

## Model

| member | source | states |
|---|---|---|
| Text.LowerChar | componente/badges/BadgesRow.tsx:24 | a lower-cased character is never upper-case, a character that is not upper-case is left alone, and KELVIN SIGN becomes "k" |
| Text.Lower | componente/badges/BadgesRow.tsx:24 | `toLowerCase` keeps the length and lower-cases each character (every capital whose lower case is in Latin-1) |
| Text.KelvinSignNormalizesToK | componente/DishSheet.tsx:150-152 | a key spelled with KELVIN SIGN normalises exactly like the key spelled with "k", so it finds the same entry |
| Text.LowerHasNoUpper | componente/badges/BadgesRow.tsx:24 | `toLowerCase` leaves no upper-case letter |
| Text.Leading | componente/badges/BadgesRow.tsx:24 | `trim` cuts from the front exactly the longest prefix of ECMAScript white space and line terminators |
| Text.Trailing | componente/badges/BadgesRow.tsx:24 | `trim` cuts from the back exactly the longest suffix of white space and line terminators |
| Text.Trim | componente/badges/BadgesRow.tsx:24 | `trim` returns the slice between those two cuts; it neither starts nor ends with white space, and it is empty exactly when the whole key is white space |
| Text.TrimKeepsNoUpper | componente/badges/BadgesRow.tsx:24 | `trim` cannot bring back an upper-case letter |
| Text.NormalizeHasNoUpper | componente/badges/BadgesRow.tsx:24 | a key after `toLowerCase().trim()` contains no upper-case letter |
| Text.NormalizeFixesCleanKey | componente/badges/BadgesRow.tsx:24 | a lower-case key with nothing to trim is unchanged by normalisation |
| Text.NormalizeIdempotent | componente/badges/BadgesRow.tsx:24 | normalising twice equals normalising once |
| Browser.Document.GetItem | componente/i18n/I18nProvider.tsx:24 | `localStorage.getItem` is the stored string when the key is present, and null otherwise |
| I18n.LangCode | componente/i18n/strings.ts:2 | a language is stored and written as "de" or "en" |
| I18n.ParseLang | componente/i18n/I18nProvider.tsx:24-25 | the initial language is English exactly when the stored value is "en"; otherwise German, absence included; a valid stored code is kept |
| I18n.ParseLangRoundTrip | componente/i18n/I18nProvider.tsx:24-33 | a language written to storage is read back as the same language |
| I18n.AsText | componente/i18n/I18nProvider.tsx:41-44 | null gives ""; a plain string is returned as is; a record gives the current language's field, or "" when it is missing |
| I18n.AsTextPlainIgnoresLanguage | componente/i18n/I18nProvider.tsx:43 | a plain string reads the same in both languages |
| I18n.T | componente/i18n/I18nProvider.tsx:36-39 | `t(key)` is the table entry for the current language, and the key itself when the entry is missing |
| I18n.StringTablesComplete | componente/i18n/strings.ts:5-26 | both tables define exactly the eight string keys, so `t` never falls back for a string key |
| I18n.UseI18n | componente/i18n/I18nProvider.tsx:60-64 | without a provider the hook fails with the provider error; otherwise it returns the provider's context |
| I18n.Provider.constructor | componente/i18n/I18nProvider.tsx:20-34 | after mounting, the language is the validated stored one; storage "lang" and `<html lang>` agree with it; no other attribute changes |
| I18n.Provider.SetLang | componente/i18n/I18nProvider.tsx:30-34 | after a language change, storage "lang" and `<html lang>` equal the new language and only "lang" is written |
| I18n.Provider.Context | componente/i18n/I18nProvider.tsx:52-55 | the context carries the current language |
| Badges.BadgeIconsFollowKeys | componente/badges/meta.ts:18-28 | every badge icon path is `/icons/<key>.svg` |
| Badges.IndexOf | componente/badges/BadgesRow.tsx:7 | `indexOf` is -1 exactly for an absent key; otherwise it is the first position of the key |
| Badges.OrderIndex | componente/badges/BadgesRow.tsx:6-9 | a known key maps to its position in `BADGE_ORDER`, and an unknown key maps to 999 |
| Badges.OrderIndexSeparates | componente/badges/BadgesRow.tsx:6-9 | unknown badges sort after every known one; distinct known keys have distinct indices |
| Badges.WithKey | componente/badges/BadgesRow.tsx:25 | the group of entries with one key is no longer than the list |
| Badges.WithKeyCons | componente/badges/BadgesRow.tsx:25 | the group of `[x] + s` is x (when x has the key) followed by the group of s |
| Badges.InsertBy | componente/badges/BadgesRow.tsx:25 | inserting adds one entry, and the result starts with `x` or with the old first entry |
| Badges.InsertByPermutes | componente/badges/BadgesRow.tsx:25 | inserting adds exactly `x` to the multiset of entries |
| Badges.InsertByGroups | componente/badges/BadgesRow.tsx:25 | inserting puts `x` at the front of its key's group and leaves every other group as it was |
| Badges.InsertBySorted | componente/badges/BadgesRow.tsx:25 | inserting into a sorted list keeps it sorted |
| Badges.SortBy | componente/badges/BadgesRow.tsx:25 | sorting is a permutation that keeps every equal-key group in input order |
| Badges.SortByIsStableSort | componente/badges/BadgesRow.tsx:25 | the sort's result is sorted by `orderIndex` and stable |
| Badges.WithKeyOfHead | componente/badges/BadgesRow.tsx:25 | the key of the first entry has a non-empty group |
| Badges.WithKeyEmpty | componente/badges/BadgesRow.tsx:25 | a key no entry has gives an empty group |
| Badges.SortedGroupsDetermine | componente/badges/BadgesRow.tsx:25 | two sorted lists with the same groups are equal |
| Badges.StableSortIsUnique | componente/badges/BadgesRow.tsx:25 | any stable sort by the key yields exactly the modelled order, as ECMA-262 requires |
| Badges.NormalizeAll | componente/badges/BadgesRow.tsx:24 | the mapped list has the input's length and holds the normalised key at each position |
| Badges.NormalizeAllAppend | componente/badges/BadgesRow.tsx:24 | normalising a concatenation is concatenating the normalised lists |
| Badges.BadgesRow | componente/badges/BadgesRow.tsx:22-25 | nothing is rendered for an undefined or empty list; otherwise the output is a stable sort of the normalised list by `orderIndex`, and a permutation of it |
| Badges.BadgesRowNormalized | componente/badges/BadgesRow.tsx:24-25 | every rendered badge is the normalised form of an input badge, without capitals |
| MenuView.CategoryIcon | componente/MenuView.tsx:43-47 | a missing or empty key gives no icon; a known normalised key gives its badge entry; otherwise a fallback labelled with the raw key |
| MenuView.CategoryIconPath | componente/MenuView.tsx:43-47 | in either branch, the icon path is the one named after the normalised key |
| MenuView.CenterTarget | componente/MenuView.tsx:120-126 | the strip target is the centring offset, clamped to `[0, max(0, scrollWidth - clientWidth)]` |
| MenuView.CenterScroll | componente/MenuView.tsx:115-118 | centring is a no-op when the strip or the tab button is missing; otherwise the offset is within the clamp range |
| MenuView.VisibleHeight | componente/MenuView.tsx:217-220 | the visible height below the 62 px bar is never negative |
| MenuView.TieBreaker | componente/MenuView.tsx:221 | the tie-breaker is never positive |
| MenuView.Score | componente/MenuView.tsx:217-222 | a section's score is its visible height plus the tie-breaker, so it never exceeds the visible height |
| MenuView.OutOfViewBeatsStart | componente/MenuView.tsx:210-226 | a section out of view beats the scan's start score of -1 exactly when its top is within 1000 px of the bar |
| MenuView.Scan | componente/MenuView.tsx:209-228 | the running best starts at index 0 with score -1; it holds the maximum score of the mounted sections scanned, strictly above every earlier mounted score |
| MenuView.ScanIsBest | componente/MenuView.tsx:206-228 | the scan's choice is the first mounted id of maximal score when any section scores above -1; otherwise it is `ids[0]` |
| MenuView.BestIndexUnique | componente/MenuView.tsx:224-227 | that choice is unique: with strict `>`, ties go to the earliest id |
| MenuView.BestVisible | componente/MenuView.tsx:206-228 | the loop returns a member of `ids`, the one the scan chooses |
| MenuView.TopGuard | componente/MenuView.tsx:183-187 | the top guard fires only when the first section is mounted and its viewport top is at least 61 px down |
| MenuView.BottomGuard | componente/MenuView.tsx:197 | the bottom guard fires exactly when at most 1 px of the document is left below the window |
| MenuView.NextActive | componente/MenuView.tsx:176-233 | the decision of one update (top guard, else bottom guard, else best score); an active id that is one of the ids stays one of the ids |
| MenuView.TopGuardSimplifies | componente/MenuView.tsx:183-187 | the top guard holds exactly when the first section is mounted and its viewport top is at least 61 |
| MenuView.NextActiveIsMember | componente/MenuView.tsx:176-233 | the chosen active id is a member of `ids`, or the current id |
| MenuView.NextActiveIdempotent | componente/MenuView.tsx:176-233 | a second update on unchanged geometry changes nothing |
| MenuView.TopGuardWins | componente/MenuView.tsx:183-193 | when the first section's top is at 61 or lower down the viewport, the first id wins regardless of everything else |
| MenuView.BottomGuardWins | componente/MenuView.tsx:197-203 | otherwise, within 1 px of the document end, the last id wins |
| MenuView.NormalCaseIsBest | componente/MenuView.tsx:205-233 | otherwise the choice is the best-scoring index; the current id is kept only when that index holds "" |
| MenuView.TabController.constructor | componente/MenuView.tsx:67-75 | on mount, the first id (or "") is active, auto-highlight is on, no unlock watcher is armed and the sheet is closed |
| MenuView.TabController.DisarmUnlock | componente/MenuView.tsx:144-152 | the remembered `scrollend` listener is removed and the fallback timer is cleared |
| MenuView.TabController.CenterActiveTab | componente/MenuView.tsx:115-129 | the strip offset becomes the clamped centring target, or is unchanged when the strip or button is missing |
| MenuView.TabController.UpdateActiveByScroll | componente/MenuView.tsx:175-234 | halted (auto-highlight off, no ids, or the sheet seen open) it changes nothing; otherwise the active id becomes `NextActive`; the strip is re-centred exactly when the active id changes |
| MenuView.TabController.GoToCategory | componente/MenuView.tsx:132-172 | the tab becomes active and auto-highlight is off; the window targets section top + scrollY - 62; old watchers are disarmed and exactly one listener and one 650 ms timer are armed |
| MenuView.TabController.Unlock | componente/MenuView.tsx:155-165 | auto-highlight is on and both watchers are disarmed, so the other release path does nothing |
| MenuView.TabController.OnScrollEnd | componente/MenuView.tsx:167-168 | `scrollend` unlocks only while a listener is armed |
| MenuView.TabController.OnUnlockTimer | componente/MenuView.tsx:170-171 | the fallback timer unlocks |
| MenuView.TabController.OpenDishSheet | componente/MenuView.tsx:76-90 | any pending unlock is cancelled, auto-highlight is forced off, and the dish is shown in an open sheet |
| MenuView.TabController.CloseDishSheet | componente/MenuView.tsx:95-103 | the open flag is cleared; a timer with the 320 ms delay is queued, capturing the open flag of the render whose `closeDishSheet` was called |
| MenuView.TabController.FireCloseTimer | componente/MenuView.tsx:97-102 | auto-highlight is on again; when the captured flag is true (the normal case), nothing else changes; otherwise the active id is recomputed, the strip is re-centred exactly when it changes, and the dish is cleared |
| DishSheet.CrustaceanIconOnlyUnderCapitalKey | componente/DishSheet.tsx:26-40 | only the capitalised "Krebs" entry carries the crustacean icon |
| DishSheet.Lookup | componente/DishSheet.tsx:140-145 | the lookup-and-filter yields at most one line per key |
| DishSheet.LinesFrom | componente/DishSheet.tsx:137-145 | normalise-lookup-filter yields at most one line per key |
| DishSheet.LookupSources | componente/DishSheet.tsx:140-145 | every line comes from a key of the list that is in the table |
| DishSheet.LinesFromSources | componente/DishSheet.tsx:137-156 | every line comes from an input key whose normalised form is one of the table's own keys; other keys are dropped |
| DishSheet.LookupAppend | componente/DishSheet.tsx:140-145 | looking up a concatenation is concatenating the lookups |
| DishSheet.LinesFromAppend | componente/DishSheet.tsx:168-177 | lines map the input in order, with nothing reordered or merged |
| DishSheet.LookupAllKnown | componente/DishSheet.tsx:168-177 | when all keys are known there is exactly one line per key, in order |
| DishSheet.LookupNoneKnown | componente/DishSheet.tsx:140-145 | when no key is known there are no lines |
| DishSheet.LookupNeverCrustacean | componente/DishSheet.tsx:26-40 | keys without capital letters never reach the crustacean entry |
| DishSheet.CrustaceansNeverShown | componente/DishSheet.tsx:148-156 | no info key, however spelled, yields the crustacean line |
| DishSheet.AllergenRepeats | componente/DishSheet.tsx:168-177 | a known allergen listed twice yields two identical lines, because allergens are not deduplicated |
| DishSheet.MergedInfo | componente/DishSheet.tsx:137-158 | the merged list (badge lines, then info lines) has at most one line per input key |
| DishSheet.KeepFirst | componente/DishSheet.tsx:159-165 | the first-occurrence filter never adds lines, and keeps the first line when its label is unseen |
| DishSheet.KeepFirstDistinct | componente/DishSheet.tsx:159-165 | after the dedupe, no two lines share a lower-cased label, and no seen label survives |
| DishSheet.KeepFirstSubseq | componente/DishSheet.tsx:159-165 | the dedupe keeps order: the result is a subsequence of the merged list |
| DishSheet.KeepFirstKeepsFirsts | componente/DishSheet.tsx:159-165 | the first line with each unseen label is kept |
| DishSheet.KeepFirstOnlyFirsts | componente/DishSheet.tsx:159-165 | every kept line is the first with its label |
| DishSheet.DedupeCoversLabels | componente/DishSheet.tsx:159-165 | every label of the merged list appears in the result |
| DishSheet.KeepFirstDropsSameLabel | componente/DishSheet.tsx:159-165 | of two lines whose labels differ only in case, only the first is kept |
| DishSheet.DedupeByLabel | componente/DishSheet.tsx:159-165 | the `seen`-set loop computes the first-occurrence filter: distinct labels, a subsequence of its input |
| DishSheet.Render | componente/DishSheet.tsx:122-177 | a null dish renders nothing; otherwise the sheet shows the name and price, the description when truthy, the deduplicated info lines and the allergen lines |
| SettingsMenu.StartDark | componente/SettingsMenu.tsx:24-28 | with user choice respected and a non-empty stored theme, dark iff it is "dark"; otherwise the default (light) |
| SettingsMenu.ThemeAttr | componente/SettingsMenu.tsx:29-31 | `data-theme` is "dark" iff the theme is dark, and removed otherwise |
| SettingsMenu.ThemeValue | componente/SettingsMenu.tsx:46-52 | the stored theme is "dark" iff dark, and never empty |
| SettingsMenu.ThemeRoundTrip | componente/SettingsMenu.tsx:24-52 | a stored theme choice starts the same theme at the next mount |
| SettingsMenu.Menu.constructor | componente/SettingsMenu.tsx:10-11 | the popover starts closed, in the default theme |
| SettingsMenu.Menu.Mount | componente/SettingsMenu.tsx:17-33 | the validated stored language is set and stored; the start theme is chosen and reflected in `data-theme`; the page overflow is untouched |
| SettingsMenu.Menu.ToggleTheme | componente/SettingsMenu.tsx:43-53 | the theme flips (twice restores it); the attribute and the stored theme follow it; nothing else changes |
| SettingsMenu.Menu.SetLanguage | componente/SettingsMenu.tsx:55-61 | the language is set and stored, and the popover closes; `data-theme` and the page overflow are untouched |
| SettingsMenu.Menu.ToggleOpen | componente/SettingsMenu.tsx:68 | the button toggles the popover |
| SettingsMenu.Menu.OnKeyDown | componente/SettingsMenu.tsx:36-41 | Escape closes an open popover; other keys and a closed popover change nothing |
| SettingsMenu.Menu.CloseByBackdrop | componente/SettingsMenu.tsx:95 | a backdrop click closes the popover |
| BottomSheet.DragOffset | componente/ui/BottomSheet.tsx:40 | the drag offset is never negative; it is the pointer's travel downwards, or 0 |
| BottomSheet.DismissMeansDraggedDown | componente/ui/BottomSheet.tsx:40-49 | a dismissing drag ended more than 80 px below its start |
| BottomSheet.Sheet.constructor | componente/ui/BottomSheet.tsx:13-30 | `mounted` starts as `open` and the effect runs once: open queues the enter frame; closed arms the 280 ms unmount timer; nothing on the document but the overflow changes |
| BottomSheet.Sheet.OpenEffect | componente/ui/BottomSheet.tsx:19-30 | opening mounts, queues an enter frame and hides the page overflow; closing un-enters at once, arms the 280 ms unmount and restores the overflow |
| BottomSheet.Sheet.SetOpen | componente/ui/BottomSheet.tsx:19-30 | the effect runs only when `open` changes: opening mounts, keeps `entered`, queues one enter frame and clears the timer; closing un-enters, queues no frame and arms the 280 ms timer; the invariant (overflow follows `open`, timer only while closed) is kept, and storage, `data-theme` and `lang` are untouched |
| BottomSheet.Sheet.FireEnterFrame | componente/ui/BottomSheet.tsx:22 | the enter frame sets `entered`, even if the sheet was closed in between |
| BottomSheet.Sheet.FireUnmountTimer | componente/ui/BottomSheet.tsx:26-32 | after the unmount timer nothing is rendered, and the destroyed panel's inline drag transform is gone |
| BottomSheet.Sheet.OnPointerDown | componente/ui/BottomSheet.tsx:34-37 | a drag starts at the pointer position |
| BottomSheet.Sheet.OnPointerMove | componente/ui/BottomSheet.tsx:38-43 | without a prior down a move is a no-op; otherwise the offset is recorded and the panel follows it |
| BottomSheet.Sheet.OnPointerUp | componente/ui/BottomSheet.tsx:44-51 | without a prior down it is a no-op; otherwise the refs reset to null and 0, and `onClose` fires iff the offset exceeds 80, else the transform resets |
| BottomSheet.Sheet.OnPointerCancel | componente/ui/BottomSheet.tsx:70 | pointer cancel behaves like pointer up |
| BackToTop.AfterScroll | componente/BackToTopButton.tsx:12-17 | while the sheet attribute is "true" a scroll leaves visibility unchanged; otherwise visible iff scrollY > 600 |
| BackToTop.AfterMutation | componente/BackToTopButton.tsx:27-29 | after an attribute change, visible iff no sheet is open and scrollY > 600 |
| BackToTop.Run | componente/BackToTopButton.tsx:12-29 | visibility after a run of scroll and attribute events; a hidden button never shows while no event is past 600 px |
| BackToTop.HiddenWhileSheetOpen | componente/BackToTopButton.tsx:12-29 | once the observer sees the sheet open, the button stays hidden through any scrolling while it stays open |
| BackToTop.StaysHidden | componente/BackToTopButton.tsx:14 | a hidden button stays hidden while every event sees the sheet open |
| BackToTop.LastEventDecides | componente/BackToTopButton.tsx:16-28 | with no sheet open, the last event's scroll position alone decides visibility |
| BackToTop.Button.constructor | componente/BackToTopButton.tsx:9-21 | visibility is evaluated once at mount, starting from hidden |
| BackToTop.Button.ToggleVisibility | componente/BackToTopButton.tsx:12-17 | the scroll listener applies the scroll rule |
| BackToTop.Button.OnSheetAttrMutation | componente/BackToTopButton.tsx:27-29 | the observer applies the attribute-change rule |
| BackToTop.Button.ScrollToTop | componente/BackToTopButton.tsx:25 | the button always scrolls to offset 0 |

## Left out

- Rendering is not modelled: JSX, CSS classes, `next/image`, fonts, `Badge.tsx`, `Filterchip.tsx` and `src/app/layout.tsx` are presentational.
- `formatPrice` is not modelled, because it wraps `Intl.NumberFormat`. Prices stay numbers.
- `src/app/page.tsx` (loading the menu JSON) is not part of this model. `setTheme` in `config/theme.ts` has no caller among the modelled files; only its two flags are used.
- Time is not modelled. Real timers, `requestAnimationFrame`, the `scrollend` event, `MutationObserver` and smooth `window.scrollTo` are explicit event methods or recorded targets.
- React effect scheduling is not modelled. The listener registration of `MenuView.tsx:237-255` is left out, including the effect that re-centres the strip whenever `activeCatId` changes. `UpdateActiveByScroll` itself stands for the scroll, resize and initial calls.
- Text.LowerChar: lower-cases only the capitals whose lower case is in Latin-1. Every other capital (Greek, Cyrillic, Latin Extended, U+0130) is left as it is. In the source its lower case lies outside Latin-1, so in both the source and the model a key holding one matches no table key, because every table key is ASCII. Only the normalised text differs.
- MenuView.Dish: omits `extras`, `Kalorien` and `popular`, which only feed rendering.
- MenuView.TabController.FireCloseTimer: the timer's closure also holds a stale `activeCatId`; the model compares against the current one. This matters only when the captured sheet flag is false. That happens when the close comes from a render in which the sheet was already closed. Two closes from the same render capture the same flag, so one Escape press seen by both rendered sheets queues two timers that both carry `true`.
- DishSheet.Lookup, DishSheet.LinesFrom, MenuView.CategoryIcon: a lookup sees only the tables' own keys. In the source the tables are plain objects, so a key that normalises to a name inherited from `Object.prototype` (`constructor`, `__proto__`, `toString`, ...) finds a truthy value. `DishSheet.tsx` then emits a line with an empty label and no icon, and `getCategoryIcon` returns that value instead of the fallback. Such inherited names are not modelled.
- MenuView.Score: scores are exact reals. The browser computes them in IEEE doubles, so two nearly equal scores compared with `>` at `MenuView.tsx:221-224` may be ordered differently.
- MenuView.TopGuard, MenuView.BottomGuard: the guard arithmetic is exact over reals. The browser computes `top + scrollY - 62` and `y + winH` in doubles, so at the 1 px boundaries rounding may decide the other way; `MenuView.TopGuardSimplifies` cancels `scrollY` exactly, which holds only over reals.
- DishSheet.Render: the Escape listener, the panel scroll reset, the body lock and `data-sheet-open` of `DishSheet.tsx:84-119` are left out. The back-to-top button takes the attribute as an input instead.
- BottomSheet.Sheet.OnPointerDown: pointer capture is a browser side effect and is left out.
- SettingsMenu.Menu.Mount: takes the provider as already mounted. React runs this child effect before the provider's effects; the outcome is the same, because a stored language is read back unchanged (`I18n.ParseLangRoundTrip`).
