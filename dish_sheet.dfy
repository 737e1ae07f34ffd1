/** The content of the dish detail sheet (`componente/DishSheet.tsx`): the
    information lines taken from a dish's badges and info keys, deduplicated by
    label, and the allergen lines, all in the current language. */
module DishSheet {
  import opened Text
  import opened I18n
  import Badges
  import MenuView

  /** `ALLERGEN_META`: label and icon per allergen key. */
  const ALLERGEN_META: map<string, Badges.Meta> := map[
    "laktose" := Badges.Meta(PerLang(Some("Laktose"), Some("Lactose")), "/icons/laktose.svg"),
    "gluten" := Badges.Meta(PerLang(Some("Gluten"), Some("Gluten")), "/icons/gluten.svg"),
    "eier" := Badges.Meta(PerLang(Some("Eier"), Some("Eggs")), "/icons/eier.svg"),
    "nuesse" := Badges.Meta(PerLang(Some("Nüsse"), Some("Nuts")), "/icons/nuesse.svg"),
    "soja" := Badges.Meta(PerLang(Some("Soja"), Some("Soy")), "/icons/soja.svg")
  ]

  /** `INFO_META`: label and icon per info key. The crustacean entry is keyed
      with a capital letter. */
  const INFO_META: map<string, Badges.Meta> := map[
    "schwein" := Badges.Meta(PerLang(Some("Schweinefleisch"), Some("Pork")), "/icons/schwein.svg"),
    "rind" := Badges.Meta(PerLang(Some("Rindfleisch"), Some("Beef")), "/icons/rind.svg"),
    "huhn" := Badges.Meta(PerLang(Some("Huhn"), Some("Chicken")), "/icons/huhn.svg"),
    "fisch" := Badges.Meta(PerLang(Some("Fisch"), Some("Fish")), "/icons/fisch.svg"),
    "Krebs" := Badges.Meta(PerLang(Some("Krebstiere"), Some("Crustaceans")), "/icons/krebs.svg"),
    "alkoholfrei" := Badges.Meta(PerLang(Some("Alkoholfrei"), Some("Alcohol-free")), "/icons/alkoholfrei.svg"),
    "alkohol" := Badges.Meta(PerLang(Some("Alkohol"), Some("Alcohol")), "/icons/alkohol.svg"),
    "scharf" := Badges.Meta(PerLang(Some("Scharf"), Some("Spicy")), "/icons/scharf.svg"),
    "vegan" := Badges.Meta(PerLang(Some("Vegan möglich"), Some("Vegan possible")), "/icons/vegan.svg"),
    "vegetarisch" := Badges.Meta(PerLang(Some("Vegetarisch möglich"), Some("Vegetarian possible")), "/icons/vegetarisch.svg"),
    "halal" := Badges.Meta(PerLang(Some("Halal"), Some("Halal")), "/icons/halal.svg"),
    "laktose" := Badges.Meta(PerLang(Some("Laktose"), Some("Lactose")), "/icons/laktose.svg"),
    "laktosefrei" := Badges.Meta(PerLang(Some("Laktosefrei"), Some("Lactose-free")), "/icons/laktosefrei.svg")
  ]

  /** The only info key whose icon is the crustacean icon is the capitalised one. */
  lemma CrustaceanIconOnlyUnderCapitalKey(key: string)
    requires key in INFO_META && INFO_META[key].src == "/icons/krebs.svg"
    ensures key == "Krebs"
  {
  }

  /** A rendered line: its label in the current language and its icon. */
  datatype Line = Line(caption: string, src: string)

  /** A missing list reads as the empty list (`?? []`). */
  function OrEmpty(keys: Option<seq<string>>): (r: seq<string>) {
    if keys.Some? then keys.value else []
  }

  /** The line a table entry renders as. */
  function LineFor(meta: Badges.Meta, lang: Lang): (l: Line) {
    Line(AsText(Some(meta.caption), lang), meta.src)
  }

  /** `.map(lookup).filter(Boolean)` over normalised keys: one line per key in
      the table, in input order; other keys are dropped (`LookupSources`,
      `LookupAppend`, `LookupAllKnown`, `LookupNoneKnown`). */
  function Lookup(keys: seq<string>, table: map<string, Badges.Meta>, lang: Lang): (r: seq<Line>)
    ensures |r| <= |keys|
  {
    if keys == [] then []
    else
      var rest := Lookup(keys[1..], table, lang);
      if keys[0] in table then [LineFor(table[keys[0]], lang)] + rest else rest
  }

  /** `keys.map(normalise).map(lookup).filter(Boolean)`; what it keeps is
      stated by `LinesFromSources` and `LinesFromAppend`. */
  function LinesFrom(keys: seq<string>, table: map<string, Badges.Meta>, lang: Lang): (r: seq<Line>)
    ensures |r| <= |keys|
  {
    Lookup(Badges.NormalizeAll(keys), table, lang)
  }

  /** Every line comes from a key of the input that is in the table. */
  lemma {:induction false} LookupSources(keys: seq<string>, table: map<string, Badges.Meta>, lang: Lang, l: Line)
    requires l in Lookup(keys, table, lang)
    ensures exists k :: k in keys && k in table && l == LineFor(table[k], lang)
  {
    if !(keys[0] in table && l == LineFor(table[keys[0]], lang)) {
      LookupSources(keys[1..], table, lang, l);
      var k :| k in keys[1..] && k in table && l == LineFor(table[k], lang);
      assert k in keys;
    }
  }

  /** Every line comes from an input key whose normalised form is in the table. */
  lemma LinesFromSources(keys: seq<string>, table: map<string, Badges.Meta>, lang: Lang, l: Line)
    requires l in LinesFrom(keys, table, lang)
    ensures exists j :: 0 <= j < |keys| && Normalize(keys[j]) in table && l == LineFor(table[Normalize(keys[j])], lang)
  {
    var n := Badges.NormalizeAll(keys);
    LookupSources(n, table, lang, l);
    var k :| k in n && k in table && l == LineFor(table[k], lang);
    var j := Badges.IndexOf(n, k);
    assert n[j] == Normalize(keys[j]);
  }

  /** The lines of a concatenation are the concatenation of the lines, so the
      lookup neither reorders nor merges anything. */
  lemma {:induction false} LookupAppend(a: seq<string>, b: seq<string>, table: map<string, Badges.Meta>, lang: Lang)
    ensures Lookup(a + b, table, lang) == Lookup(a, table, lang) + Lookup(b, table, lang)
  {
    if a == [] {
      assert a + b == b;
    } else {
      assert (a + b)[0] == a[0];
      assert (a + b)[1..] == a[1..] + b;
      LookupAppend(a[1..], b, table, lang);
    }
  }

  lemma LinesFromAppend(a: seq<string>, b: seq<string>, table: map<string, Badges.Meta>, lang: Lang)
    ensures LinesFrom(a + b, table, lang) == LinesFrom(a, table, lang) + LinesFrom(b, table, lang)
  {
    Badges.NormalizeAllAppend(a, b);
    LookupAppend(Badges.NormalizeAll(a), Badges.NormalizeAll(b), table, lang);
  }

  /** When every key is in the table, there is exactly one line per key, in order. */
  lemma {:induction false} LookupAllKnown(keys: seq<string>, table: map<string, Badges.Meta>, lang: Lang)
    requires forall k :: k in keys ==> k in table
    ensures |Lookup(keys, table, lang)| == |keys|
    ensures forall i :: 0 <= i < |keys| ==> Lookup(keys, table, lang)[i] == LineFor(table[keys[i]], lang)
  {
    if keys != [] {
      assert forall k :: k in keys[1..] ==> k in keys;
      LookupAllKnown(keys[1..], table, lang);
      var r := Lookup(keys, table, lang);
      var t := Lookup(keys[1..], table, lang);
      assert keys[0] in keys;
      assert r == [LineFor(table[keys[0]], lang)] + t;
      forall i | 0 < i < |keys|
        ensures r[i] == LineFor(table[keys[i]], lang)
      {
        assert r[i] == t[i - 1] && keys[1..][i - 1] == keys[i];
      }
    }
  }

  /** When no key is in the table, there are no lines. */
  lemma {:induction false} LookupNoneKnown(keys: seq<string>, table: map<string, Badges.Meta>, lang: Lang)
    requires forall k :: k in keys ==> k !in table
    ensures Lookup(keys, table, lang) == []
  {
    if keys != [] {
      assert forall k :: k in keys[1..] ==> k in keys;
      LookupNoneKnown(keys[1..], table, lang);
    }
  }

  /** Looking up keys without capital letters never reaches the crustacean
      entry. */
  lemma {:induction false} LookupNeverCrustacean(keys: seq<string>, lang: Lang)
    requires forall i :: 0 <= i < |keys| ==> NoUpper(keys[i])
    ensures forall l :: l in Lookup(keys, INFO_META, lang) ==> l.src != "/icons/krebs.svg"
  {
    if keys != [] {
      var key := keys[0];
      assert NoUpper(key);
      assert key != "Krebs" by {
        assert key == [] || !IsUpper(key[0]);
      }
      if key in INFO_META && INFO_META[key].src == "/icons/krebs.svg" {
        CrustaceanIconOnlyUnderCapitalKey(key);
        assert false;
      }
      LookupNeverCrustacean(keys[1..], lang);
    }
  }

  /** Whatever the info keys, the crustacean entry never yields a line: a
      normalised key has no capital letter, so it never equals "Krebs". */
  lemma CrustaceansNeverShown(keys: seq<string>, lang: Lang)
    ensures forall l :: l in LinesFrom(keys, INFO_META, lang) ==> l.src != "/icons/krebs.svg"
  {
    var n := Badges.NormalizeAll(keys);
    forall i | 0 <= i < |n| ensures NoUpper(n[i]) {
      NormalizeHasNoUpper(keys[i]);
    }
    LookupNeverCrustacean(n, lang);
  }

  /** Allergens are not deduplicated: a known allergen listed twice gives two
      identical lines. */
  lemma AllergenRepeats(key: string, lang: Lang)
    requires Normalize(key) in ALLERGEN_META
    ensures LinesFrom([key, key], ALLERGEN_META, lang) ==
      [LineFor(ALLERGEN_META[Normalize(key)], lang), LineFor(ALLERGEN_META[Normalize(key)], lang)]
  {
    var n := Badges.NormalizeAll([key, key]);
    assert n == [Normalize(key), Normalize(key)];
    LookupAllKnown(n, ALLERGEN_META, lang);
  }

  // ---- dedupe by label ----

  /** The dedupe key of a line: its label lower-cased (not trimmed). */
  function Label(l: Line): (key: string) {
    Lower(l.caption)
  }

  /** The lines the `seen`-set filter keeps when it starts with `seen`: a line
      stays when its label has not been seen, and its label is then seen. */
  function KeepFirst(s: seq<Line>, seen: set<string>): (r: seq<Line>)
    ensures |r| <= |s|
    ensures s != [] && Label(s[0]) !in seen ==> r != [] && r[0] == s[0]
  {
    if s == [] then []
    else if Label(s[0]) in seen then KeepFirst(s[1..], seen)
    else [s[0]] + KeepFirst(s[1..], seen + {Label(s[0])})
  }

  /** No two lines share a label. */
  ghost predicate DistinctLabels(r: seq<Line>) {
    forall i, j :: 0 <= i < j < |r| ==> Label(r[i]) != Label(r[j])
  }

  /** `a` is `b` with some lines removed, order kept. */
  ghost predicate IsSubseq(a: seq<Line>, b: seq<Line>)
    decreases |b|
  {
    if a == [] then true
    else if b == [] then false
    else (a[0] == b[0] && IsSubseq(a[1..], b[1..])) || IsSubseq(a, b[1..])
  }

  /** Line `i` is the first line of `s` with its label. */
  ghost predicate FirstOfLabel(s: seq<Line>, i: int)
    requires 0 <= i < |s|
  {
    forall j :: 0 <= j < i ==> Label(s[j]) != Label(s[i])
  }

  /** The kept lines have distinct labels, none of them already seen. */
  lemma {:induction false} KeepFirstDistinct(s: seq<Line>, seen: set<string>)
    ensures DistinctLabels(KeepFirst(s, seen))
    ensures forall i :: 0 <= i < |KeepFirst(s, seen)| ==> Label(KeepFirst(s, seen)[i]) !in seen
  {
    if s != [] {
      if Label(s[0]) in seen {
        KeepFirstDistinct(s[1..], seen);
      } else {
        var seen' := seen + {Label(s[0])};
        KeepFirstDistinct(s[1..], seen');
        var t := KeepFirst(s[1..], seen');
        var r := KeepFirst(s, seen);
        assert r == [s[0]] + t;
        forall i, j | 0 <= i < j < |r|
          ensures Label(r[i]) != Label(r[j])
        {
          assert r[j] == t[j - 1];
          if i > 0 {
            assert r[i] == t[i - 1];
          }
        }
      }
    }
  }

  /** The kept lines are a subsequence of the input. */
  lemma {:induction false} KeepFirstSubseq(s: seq<Line>, seen: set<string>)
    ensures IsSubseq(KeepFirst(s, seen), s)
  {
    if s != [] {
      var r := KeepFirst(s, seen);
      if Label(s[0]) in seen {
        KeepFirstSubseq(s[1..], seen);
      } else {
        KeepFirstSubseq(s[1..], seen + {Label(s[0])});
        assert r[0] == s[0] && r[1..] == KeepFirst(s[1..], seen + {Label(s[0])});
      }
    }
  }

  /** The first line of each unseen label is kept. */
  lemma {:induction false} KeepFirstKeepsFirsts(s: seq<Line>, seen: set<string>, i: nat)
    requires i < |s| && FirstOfLabel(s, i) && Label(s[i]) !in seen
    ensures s[i] in KeepFirst(s, seen)
  {
    if i > 0 {
      var seen' := if Label(s[0]) in seen then seen else seen + {Label(s[0])};
      assert Label(s[0]) != Label(s[i]);
      assert s[1..][i - 1] == s[i];
      assert FirstOfLabel(s[1..], i - 1) by {
        forall j | 0 <= j < i - 1
          ensures Label(s[1..][j]) != Label(s[1..][i - 1])
        {
          assert s[1..][j] == s[j + 1];
        }
      }
      KeepFirstKeepsFirsts(s[1..], seen', i - 1);
    }
  }

  /** Every kept line is the first line of its label, and that label was unseen. */
  lemma {:induction false} KeepFirstOnlyFirsts(s: seq<Line>, seen: set<string>, l: Line)
    requires l in KeepFirst(s, seen)
    ensures exists i :: 0 <= i < |s| && s[i] == l && FirstOfLabel(s, i) && Label(l) !in seen
  {
    var t := s[1..];
    if Label(s[0]) in seen {
      KeepFirstOnlyFirsts(t, seen, l);
      var i :| 0 <= i < |t| && t[i] == l && FirstOfLabel(t, i) && Label(l) !in seen;
      assert s[i + 1] == l;
      assert Label(s[0]) != Label(l);
      assert FirstOfLabel(s, i + 1) by {
        forall j | 0 <= j < i + 1
          ensures Label(s[j]) != Label(s[i + 1])
        {
          if j > 0 {
            assert s[j] == t[j - 1];
          }
        }
      }
    } else if l == s[0] {
      assert FirstOfLabel(s, 0);
    } else {
      var seen' := seen + {Label(s[0])};
      assert l in KeepFirst(t, seen');
      KeepFirstOnlyFirsts(t, seen', l);
      var i :| 0 <= i < |t| && t[i] == l && FirstOfLabel(t, i) && Label(l) !in seen';
      assert s[i + 1] == l;
      assert FirstOfLabel(s, i + 1) by {
        forall j | 0 <= j < i + 1
          ensures Label(s[j]) != Label(s[i + 1])
        {
          if j > 0 {
            assert s[j] == t[j - 1];
          }
        }
      }
    }
  }

  /** The first line of `s` with the label of line `i`. */
  lemma FirstWithLabel(s: seq<Line>, i: nat) returns (k: nat)
    requires i < |s|
    ensures k <= i && Label(s[k]) == Label(s[i]) && FirstOfLabel(s, k)
  {
    k := 0;
    while k < i && Label(s[k]) != Label(s[i])
      invariant k <= i
      invariant forall j :: 0 <= j < k ==> Label(s[j]) != Label(s[i])
    {
      k := k + 1;
    }
  }

  /** Every label of the input appears in the result: dedupe removes only
      repeats. */
  lemma DedupeCoversLabels(s: seq<Line>, i: nat)
    requires i < |s|
    ensures exists l :: l in KeepFirst(s, {}) && Label(l) == Label(s[i])
  {
    var k := FirstWithLabel(s, i);
    KeepFirstKeepsFirsts(s, {}, k);
  }

  /** The `seen`-set filter of lines 159-165. */
  method DedupeByLabel(merged: seq<Line>) returns (infoLines: seq<Line>)
    ensures infoLines == KeepFirst(merged, {})
    ensures DistinctLabels(infoLines) && IsSubseq(infoLines, merged)
  {
    var seen: set<string> := {};
    infoLines := [];
    for i := 0 to |merged|
      invariant infoLines + KeepFirst(merged[i..], seen) == KeepFirst(merged, {})
    {
      assert merged[i..][0] == merged[i] && merged[i..][1..] == merged[i + 1..];
      var key := Lower(merged[i].caption);
      if key in seen {
        assert KeepFirst(merged[i..], seen) == KeepFirst(merged[i + 1..], seen);
        continue;
      }
      assert KeepFirst(merged[i..], seen) == [merged[i]] + KeepFirst(merged[i + 1..], seen + {key});
      seen := seen + {key};
      infoLines := infoLines + [merged[i]];
    }
    assert merged[|merged|..] == [];
    KeepFirstDistinct(merged, {});
    KeepFirstSubseq(merged, {});
  }

  // ---- the sheet ----

  /** What the sheet shows for a dish: name, price, the description when it is
      truthy, the information lines and the allergen lines. */
  datatype Content = Content(
    title: string,
    price: real,
    description: Option<string>,
    infoLines: seq<Line>,
    allergenLines: seq<Line>)

  /** The information lines before dedupe: badge-derived lines first, then
      info-derived lines. */
  function MergedInfo(dish: MenuView.Dish, lang: Lang): (m: seq<Line>)
    ensures |m| <= |OrEmpty(dish.badges)| + |OrEmpty(dish.info)|
  {
    var infoLinesFromBadges := LinesFrom(OrEmpty(dish.badges), Badges.BADGE_META, lang);
    var infoLinesCustom := LinesFrom(OrEmpty(dish.info), INFO_META, lang);
    infoLinesFromBadges + infoLinesCustom
  }

  /** The sheet for `dish` (null renders nothing). Information lines are the
      first line per label of the merged list, allergen lines are one line per
      known allergen in order. */
  method Render(dish: Option<MenuView.Dish>, lang: Lang) returns (c: Option<Content>)
    ensures c.None? <==> dish.None?
    ensures c.Some? ==> c.value.title == AsText(Some(dish.value.name), lang)
    ensures c.Some? ==> c.value.price == dish.value.price
    ensures c.Some? ==>
      c.value.description ==
        if dish.value.description.Some? && dish.value.description.value != Plain("")
        then Some(AsText(dish.value.description, lang)) else None
    ensures c.Some? ==> c.value.infoLines == KeepFirst(MergedInfo(dish.value, lang), {})
    ensures c.Some? ==> DistinctLabels(c.value.infoLines) && IsSubseq(c.value.infoLines, MergedInfo(dish.value, lang))
    ensures c.Some? ==> c.value.allergenLines == LinesFrom(OrEmpty(dish.value.allergene), ALLERGEN_META, lang)
  {
    if dish.None? {
      return None;
    }
    var d := dish.value;
    var merged := MergedInfo(d, lang);
    var infoLines := DedupeByLabel(merged);
    var allergenLines := LinesFrom(OrEmpty(d.allergene), ALLERGEN_META, lang);
    var description := if d.description.Some? && d.description.value != Plain("")
                       then Some(AsText(d.description, lang)) else None;
    c := Some(Content(AsText(Some(d.name), lang), d.price, description, infoLines, allergenLines));
  }

  /** Of two lines with the same label only the first is kept. */
  lemma KeepFirstDropsSameLabel(a: Line, b: Line)
    requires Label(a) == Label(b)
    ensures KeepFirst([a] + [b], {}) == [a]
  {
    var ab := [a] + [b];
    assert ab[0] == a && ab[1..] == [b];
    var none: set<string> := {};
    assert Label(ab[0]) !in none && none + {Label(a)} == {Label(a)};
    assert KeepFirst(ab, none) == [a] + KeepFirst([b], {Label(a)});
    assert [b][0] == b && [b][1..] == [];
    assert Label(b) in {Label(a)};
    assert KeepFirst([b], {Label(a)}) == [];
  }
}
