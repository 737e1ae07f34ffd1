/** Dietary badges: the fixed display order and icon table of
    `componente/badges/meta.ts`, and the normalise-then-sort pipeline of
    `BadgesRow`. */
module Badges {
  import opened Text
  import opened I18n

  /** Display order of the known badge keys (`BADGE_ORDER`). */
  const BADGE_ORDER: seq<string> :=
    ["halal", "vegan", "vegetarisch", "alkoholfrei", "alkohol", "scharf", "gluten", "laktose", "wein"]

  /** The index `orderIndex` gives a key that is not in `BADGE_ORDER`. */
  const UNKNOWN_INDEX: nat := 999

  /** A table entry: its label (`label` in the source) and an icon path. */
  datatype Meta = Meta(caption: Localized, src: string)

  /** `BADGE_META`: label and icon per badge key. Every icon lives at
      `/icons/<key>.svg`, so the paths are written through `IconPath`. */
  const BADGE_META: map<string, Meta> := map[
    "halal" := Meta(PerLang(Some("Halal"), Some("Halal")), IconPath("halal")),
    "vegan" := Meta(PerLang(Some("Vegan"), Some("Vegan")), IconPath("vegan")),
    "vegetarisch" := Meta(PerLang(Some("Vegetarisch"), Some("Vegetarian")), IconPath("vegetarisch")),
    "alkoholfrei" := Meta(PerLang(Some("Alkoholfrei"), Some("alcohol-free")), IconPath("alkoholfrei")),
    "scharf" := Meta(PerLang(Some("Scharf"), Some("Spicy")), IconPath("scharf")),
    "glutenfrei" := Meta(PerLang(Some("Glutenfrei"), Some("Gluten-free")), IconPath("glutenfrei")),
    "laktosefrei" := Meta(PerLang(Some("Laktosefrei"), Some("Lactose-free")), IconPath("laktosefrei")),
    "alkohol" := Meta(PerLang(Some("Alkohol"), Some("Alcohol")), IconPath("alkohol")),
    "wein" := Meta(PerLang(Some("Wein"), Some("Wine")), IconPath("wein"))
  ]

  /** The icon path convention the badge table follows. */
  function IconPath(key: string): (path: string) {
    "/icons/" + key + ".svg"
  }

  /** Every badge icon is stored under its own key's path. */
  lemma BadgeIconsFollowKeys(key: string)
    requires key in BADGE_META
    ensures BADGE_META[key].src == IconPath(key)
  {
  }

  // ---- orderIndex ----

  /** `Array.prototype.indexOf`: the first position of `x`, or -1. */
  function IndexOf<T(==)>(s: seq<T>, x: T): (i: int)
    ensures -1 <= i < |s|
    ensures i == -1 <==> x !in s
    ensures 0 <= i ==> s[i] == x && forall j :: 0 <= j < i ==> s[j] != x
  {
    if s == [] then -1
    else if s[0] == x then 0
    else var i := IndexOf(s[1..], x); if i == -1 then -1 else i + 1
  }

  /** `orderIndex(key)`: the position in `BADGE_ORDER`, or 999 when unknown. */
  function OrderIndex(key: string): (n: nat)
    ensures key in BADGE_ORDER ==> n < |BADGE_ORDER| && BADGE_ORDER[n] == key
    ensures key !in BADGE_ORDER ==> n == UNKNOWN_INDEX
  {
    var i := IndexOf(BADGE_ORDER, key);
    if i == -1 then UNKNOWN_INDEX else i
  }

  /** Unknown badges come after every known one, and two known badges share an
      index only if they are the same key. */
  lemma OrderIndexSeparates(a: string, b: string)
    ensures a in BADGE_ORDER && b !in BADGE_ORDER ==> OrderIndex(a) < OrderIndex(b)
    ensures a in BADGE_ORDER && OrderIndex(a) == OrderIndex(b) ==> a == b
  {
  }

  // ---- stable sort by a numeric key ----

  /** `[...xs].sort((a, b) => key(a) - key(b))` for a key into the naturals,
      written generically so that the sort's proofs do not depend on which
      key is used. */

  ghost predicate SortedBy<T>(s: seq<T>, key: T -> nat) {
    forall i, j :: 0 <= i < j < |s| ==> key(s[i]) <= key(s[j])
  }

  /** The entries of `s` whose key is `k`, in their order in `s`. How the
      groups behave under insertion and sorting is stated by `WithKeyCons`,
      `InsertByGroups` and `SortBy`. */
  function WithKey<T>(s: seq<T>, key: T -> nat, k: nat): (r: seq<T>)
    ensures |r| <= |s|
  {
    if s == [] then []
    else (if key(s[0]) == k then [s[0]] else []) + WithKey(s[1..], key, k)
  }

  /** A stable sort by `key`: sorted, and every group of entries with equal key
      keeps its input order. */
  ghost predicate IsStableSortOf<T>(out: seq<T>, input: seq<T>, key: T -> nat) {
    SortedBy(out, key) && forall k: nat :: WithKey(out, key, k) == WithKey(input, key, k)
  }

  lemma WithKeyCons<T>(x: T, s: seq<T>, key: T -> nat, k: nat)
    ensures WithKey([x] + s, key, k) == (if key(x) == k then [x] else []) + WithKey(s, key, k)
  {
    assert ([x] + s)[1..] == s;
  }

  /** Places `x` in front of the first entry whose key is not smaller. That
      this adds exactly `x`, keeps sortedness and puts `x` first in its group
      is proved by `InsertByPermutes`, `InsertBySorted` and `InsertByGroups`. */
  function InsertBy<T>(x: T, s: seq<T>, key: T -> nat): (r: seq<T>)
    ensures |r| == |s| + 1
    ensures r[0] == x || (s != [] && r[0] == s[0])
  {
    if s == [] || key(x) <= key(s[0]) then [x] + s
    else [s[0]] + InsertBy(x, s[1..], key)
  }

  /** Inserting adds exactly `x`: the result is a permutation of `[x] + s`. */
  lemma {:induction false} InsertByPermutes<T>(x: T, s: seq<T>, key: T -> nat)
    ensures multiset(InsertBy(x, s, key)) == multiset{x} + multiset(s)
  {
    if s != [] && key(x) > key(s[0]) {
      InsertByPermutes(x, s[1..], key);
      assert s == [s[0]] + s[1..];
    }
  }

  /** Inserting adds `x` to its own key's group, in front of it, and leaves
      every other group as it was. */
  lemma {:induction false} InsertByGroups<T>(x: T, s: seq<T>, key: T -> nat, k: nat)
    ensures WithKey(InsertBy(x, s, key), key, k) == (if key(x) == k then [x] else []) + WithKey(s, key, k)
  {
    if s == [] || key(x) <= key(s[0]) {
      WithKeyCons(x, s, key, k);
    } else {
      var rest := InsertBy(x, s[1..], key);
      assert InsertBy(x, s, key) == [s[0]] + rest;
      assert s == [s[0]] + s[1..];
      InsertByGroups(x, s[1..], key, k);
      WithKeyCons(s[0], rest, key, k);
      WithKeyCons(s[0], s[1..], key, k);
      if key(x) == k {
        // `s[0]` has a smaller key, so it is in neither group.
        calc {
          WithKey(InsertBy(x, s, key), key, k);
          WithKey(rest, key, k);
          [x] + WithKey(s[1..], key, k);
          [x] + WithKey(s, key, k);
        }
      } else {
        var h := if key(s[0]) == k then [s[0]] else [];
        calc {
          WithKey(InsertBy(x, s, key), key, k);
          h + WithKey(rest, key, k);
          h + WithKey(s[1..], key, k);
          WithKey(s, key, k);
        }
      }
    }
  }

  lemma {:induction false} InsertBySorted<T>(x: T, s: seq<T>, key: T -> nat)
    requires SortedBy(s, key)
    ensures SortedBy(InsertBy(x, s, key), key)
  {
    var r := InsertBy(x, s, key);
    if s == [] || key(x) <= key(s[0]) {
      forall i, j | 0 <= i < j < |r| ensures key(r[i]) <= key(r[j]) {
        if i == 0 && j > 1 {
          assert key(s[0]) <= key(s[j - 1]);
        }
      }
    } else {
      var rest := InsertBy(x, s[1..], key);
      InsertBySorted(x, s[1..], key);
      assert key(s[0]) <= key(rest[0]);
      forall i, j | 0 <= i < j < |r| ensures key(r[i]) <= key(r[j]) {
        if i == 0 && j > 1 {
          assert key(rest[0]) <= key(rest[j - 1]);
        }
      }
    }
  }

  /** A stable insertion sort by `key`, on a value: the list it is given is
      left as it was. */
  function SortBy<T>(s: seq<T>, key: T -> nat): (r: seq<T>)
    ensures multiset(r) == multiset(s)
    ensures forall k: nat :: WithKey(r, key, k) == WithKey(s, key, k)
  {
    if s == [] then []
    else
      var rest := SortBy(s[1..], key);
      var r := InsertBy(s[0], rest, key);
      assert s == [s[0]] + s[1..];
      InsertByPermutes(s[0], rest, key);
      forall k: nat ensures WithKey(r, key, k) == WithKey(s, key, k) {
        InsertByGroups(s[0], rest, key, k);
        WithKeyCons(s[0], s[1..], key, k);
      }
      r
  }

  /** `SortBy` is a stable sort: its result is sorted by `key` and keeps the
      input order within each group of equal keys. */
  lemma {:induction false} SortByIsStableSort<T>(s: seq<T>, key: T -> nat)
    ensures IsStableSortOf(SortBy(s, key), s, key)
  {
    if s != [] {
      SortByIsStableSort(s[1..], key);
      InsertBySorted(s[0], SortBy(s[1..], key), key);
    }
  }

  lemma WithKeyOfHead<T>(s: seq<T>, key: T -> nat)
    requires s != []
    ensures WithKey(s, key, key(s[0])) != []
  {
  }

  lemma {:induction false} WithKeyEmpty<T>(s: seq<T>, key: T -> nat, k: nat)
    requires forall i :: 0 <= i < |s| ==> key(s[i]) != k
    ensures WithKey(s, key, k) == []
  {
    if s != [] {
      WithKeyEmpty(s[1..], key, k);
    }
  }

  /** Two sorted lists with the same groups are the same list. */
  lemma {:induction false} SortedGroupsDetermine<T>(t: seq<T>, u: seq<T>, key: T -> nat)
    requires SortedBy(t, key) && SortedBy(u, key)
    requires forall k: nat :: WithKey(t, key, k) == WithKey(u, key, k)
    ensures t == u
  {
    if t == [] && u != [] {
      WithKeyOfHead(u, key);
      assert false;
    } else if t != [] && u == [] {
      WithKeyOfHead(t, key);
      assert false;
    } else if t != [] {
      assert t == [t[0]] + t[1..] && u == [u[0]] + u[1..];
      var kt, ku := key(t[0]), key(u[0]);
      WithKeyCons(t[0], t[1..], key, kt);
      WithKeyCons(u[0], u[1..], key, ku);
      if kt < ku {
        WithKeyEmpty(u, key, kt);
        assert false;
      } else if ku < kt {
        WithKeyEmpty(t, key, ku);
        assert false;
      }
      WithKeyCons(u[0], u[1..], key, kt);
      assert t[0] == WithKey(t, key, kt)[0] == WithKey(u, key, kt)[0] == u[0];
      forall k: nat ensures WithKey(t[1..], key, k) == WithKey(u[1..], key, k) {
        WithKeyCons(t[0], t[1..], key, k);
        WithKeyCons(u[0], u[1..], key, k);
        var head := if key(t[0]) == k then [t[0]] else [];
        assert WithKey(t[1..], key, k) == WithKey(t, key, k)[|head|..];
        assert WithKey(u[1..], key, k) == WithKey(u, key, k)[|head|..];
      }
      SortedGroupsDetermine(t[1..], u[1..], key);
    }
  }

  /** Any stable sort by `key` gives exactly `SortBy`; `Array.prototype.sort`
      is required to be stable by section 23.1.3.30 of ECMA-262 (2023), so the
      model's order is the browser's order. */
  lemma StableSortIsUnique<T>(out: seq<T>, input: seq<T>, key: T -> nat)
    requires IsStableSortOf(out, input, key)
    ensures out == SortBy(input, key)
  {
    SortByIsStableSort(input, key);
    SortedGroupsDetermine(out, SortBy(input, key), key);
  }

  // ---- BadgesRow ----

  /** `badges.map((b) => b.toLowerCase().trim())`. */
  function NormalizeAll(badges: seq<string>): (r: seq<string>)
    ensures |r| == |badges|
    ensures forall i :: 0 <= i < |badges| ==> r[i] == Normalize(badges[i])
  {
    if badges == [] then [] else [Normalize(badges[0])] + NormalizeAll(badges[1..])
  }

  /** Normalising a concatenation is concatenating the normalised lists. */
  lemma {:induction false} NormalizeAllAppend(a: seq<string>, b: seq<string>)
    ensures NormalizeAll(a + b) == NormalizeAll(a) + NormalizeAll(b)
  {
    if a == [] {
      assert a + b == b;
    } else {
      assert (a + b)[0] == a[0];
      assert (a + b)[1..] == a[1..] + b;
      NormalizeAllAppend(a[1..], b);
    }
  }

  /** The badge kinds `BadgesRow` renders, in order; `None` when it renders
      nothing (badges undefined or empty). */
  function BadgesRow(badges: Option<seq<string>>): (r: Option<seq<string>>)
    ensures r.None? <==> badges.None? || badges.value == []
    ensures r.Some? ==> multiset(r.value) == multiset(NormalizeAll(badges.value))
    ensures r.Some? ==> IsStableSortOf(r.value, NormalizeAll(badges.value), OrderIndex)
  {
    if badges.None? || badges.value == [] then None
    else
      SortByIsStableSort(NormalizeAll(badges.value), OrderIndex);
      Some(SortBy(NormalizeAll(badges.value), OrderIndex))
  }

  /** Every rendered badge kind is the normalised form of an input badge, so it
      holds no upper-case letter. */
  lemma BadgesRowNormalized(badges: seq<string>, x: string)
    requires BadgesRow(Some(badges)).Some? && x in BadgesRow(Some(badges)).value
    ensures exists j :: 0 <= j < |badges| && x == Normalize(badges[j])
    ensures NoUpper(x)
  {
    var n := NormalizeAll(badges);
    var out := SortBy(n, OrderIndex);
    assert x in multiset(out);
    assert x in multiset(n);
    var j := IndexOf(n, x);
    NormalizeHasNoUpper(badges[j]);
  }
}
