/** The design system: ten colour themes, five font pairings, five layouts, and
    the gallery of every layout/theme/font combination. */
module Templates {
  import opened Wrappers

  datatype Theme = Theme(primary: string, secondary: string, accent: string)

  datatype FontPairing = FontPairing(header: string, body: string)

  /** `type` is the layout's structural kind (`sidebar-left`, `full-width`, ...). */
  datatype Layout = Layout(id: string, name: string, kind: string)

  /** The colour themes, in the key order `Object.keys` reports. */
  const ColorThemes: seq<(string, Theme)> := [
    ("slate", Theme("#475569", "#94a3b8", "#e2e8f0")),
    ("blue", Theme("#2563eb", "#60a5fa", "#dbeafe")),
    ("emerald", Theme("#059669", "#34d399", "#d1fae5")),
    ("violet", Theme("#7c3aed", "#a78bfa", "#ede9fe")),
    ("rose", Theme("#e11d48", "#fb7185", "#ffe4e6")),
    ("amber", Theme("#d97706", "#fbbf24", "#fef3c7")),
    ("cyan", Theme("#0891b2", "#22d3ee", "#cffafe")),
    ("fuchsia", Theme("#c026d3", "#e879f9", "#fae8ff")),
    ("lime", Theme("#65a30d", "#a3e635", "#ecfccb")),
    ("neutral", Theme("#262626", "#525252", "#e5e5e5"))
  ]

  /** The font pairings, in key order. */
  const FontPairings: seq<(string, FontPairing)> := [
    ("inter", FontPairing("\"Inter\", sans-serif", "\"Inter\", sans-serif")),
    ("merriweather", FontPairing("\"Merriweather\", serif", "\"Open Sans\", sans-serif")),
    ("roboto", FontPairing("\"Roboto\", sans-serif", "\"Roboto Slab\", serif")),
    ("playfair", FontPairing("\"Playfair Display\", serif", "\"Lato\", sans-serif")),
    ("oswald", FontPairing("\"Oswald\", sans-serif", "\"Raleway\", sans-serif"))
  ]

  const Layouts: seq<Layout> := [
    Layout("modern", "Modern Sidebar", "sidebar-left"),
    Layout("classic", "Classic Professional", "full-width"),
    Layout("minimal", "Minimalist", "centered"),
    Layout("executive", "Executive Split", "two-column"),
    Layout("creative", "Creative Header", "header-heavy")
  ]

  /** `Object.keys` of a registry. */
  function Keys<V>(entries: seq<(string, V)>): (r: seq<string>)
    ensures |r| == |entries|
    ensures forall i :: 0 <= i < |r| ==> r[i] == entries[i].0
  {
    if entries == [] then [] else [entries[0].0] + Keys(entries[1..])
  }

  function LayoutIds(ls: seq<Layout>): (r: seq<string>)
    ensures |r| == |ls|
    ensures forall i :: 0 <= i < |r| ==> r[i] == ls[i].id
  {
    if ls == [] then [] else [ls[0].id] + LayoutIds(ls[1..])
  }

  /** `registry[key]`: the value stored under the key, if any. */
  function Lookup<V(==)>(entries: seq<(string, V)>, key: string): (r: Option<V>)
    ensures r.Some? <==> key in Keys(entries)
    ensures r.Some? ==> (key, r.value) in entries
  {
    if entries == [] then None
    else if entries[0].0 == key then Some(entries[0].1)
    else
      assert Keys(entries) == [entries[0].0] + Keys(entries[1..]);
      Lookup(entries[1..], key)
  }

  /** `colorThemes[key]` */
  function LookupTheme(key: string): Option<Theme> {
    Lookup(ColorThemes, key)
  }

  /** `fontPairings[key]` */
  function LookupFont(key: string): Option<FontPairing> {
    Lookup(FontPairings, key)
  }

  // ---------------------------------------------------------------------
  // The gallery of all combinations
  // ---------------------------------------------------------------------

  datatype Variation = Variation(layout: string, theme: string, font: string, id: string)

  /** The gallery entry for one combination; its id is `layout-theme-font`. */
  function VariationOf(layout: string, theme: string, font: string): Variation {
    Variation(layout, theme, font, layout + "-" + theme + "-" + font)
  }

  /** The entries for one layout and theme, one per font, in font order. */
  function ForFonts(layout: string, theme: string, fonts: seq<string>): seq<Variation> {
    if fonts == [] then []
    else ForFonts(layout, theme, fonts[..|fonts| - 1]) + [VariationOf(layout, theme, fonts[|fonts| - 1])]
  }

  /** The entries for one layout, theme by theme. */
  function ForThemes(layout: string, themes: seq<string>, fonts: seq<string>): seq<Variation> {
    if themes == [] then []
    else ForThemes(layout, themes[..|themes| - 1], fonts) + ForFonts(layout, themes[|themes| - 1], fonts)
  }

  /** The entries for several layouts, layout by layout. */
  function ForLayouts(layouts: seq<string>, themes: seq<string>, fonts: seq<string>): seq<Variation> {
    if layouts == [] then []
    else ForLayouts(layouts[..|layouts| - 1], themes, fonts) + ForThemes(layouts[|layouts| - 1], themes, fonts)
  }

  lemma AppendAssoc<T>(a: seq<T>, b: seq<T>, c: seq<T>)
    ensures (a + b) + c == a + (b + c)
  {
  }

  lemma ForFontsStep(layout: string, theme: string, fonts: seq<string>, k: nat)
    requires k < |fonts|
    ensures ForFonts(layout, theme, fonts[..k + 1]) == ForFonts(layout, theme, fonts[..k]) + [VariationOf(layout, theme, fonts[k])]
  {
    assert fonts[..k + 1][..k] == fonts[..k];
  }

  lemma ForThemesStep(layout: string, themes: seq<string>, fonts: seq<string>, j: nat)
    requires j < |themes|
    ensures ForThemes(layout, themes[..j + 1], fonts) == ForThemes(layout, themes[..j], fonts) + ForFonts(layout, themes[j], fonts)
  {
    assert themes[..j + 1][..j] == themes[..j];
  }

  lemma ForLayoutsStep(layouts: seq<string>, themes: seq<string>, fonts: seq<string>, i: nat)
    requires i < |layouts|
    ensures ForLayouts(layouts[..i + 1], themes, fonts) == ForLayouts(layouts[..i], themes, fonts) + ForThemes(layouts[i], themes, fonts)
  {
    assert layouts[..i + 1][..i] == layouts[..i];
  }

  /** What `generateAllVariations` returns. */
  function AllVariations(): seq<Variation> {
    ForLayouts(LayoutOrder, ThemeOrder, FontOrder)
  }

  /** `generateAllVariations`: the gallery over the three registries. */
  method GenerateAllVariations() returns (variations: seq<Variation>)
    ensures variations == AllVariations()
  {
    variations := Combine(Layouts, Keys(ColorThemes), Keys(FontPairings));
    LayoutOrderSpec();
    ThemeOrderSpec();
    FontOrderSpec();
  }

  /** The body of `generateAllVariations`: three nested loops pushing one entry
      per layout, theme and font. The two inner loops are `PushThemes` and
      `PushFonts`. */
  method Combine(layouts: seq<Layout>, themeKeys: seq<string>, fontKeys: seq<string>) returns (variations: seq<Variation>)
    ensures variations == ForLayouts(LayoutIds(layouts), themeKeys, fontKeys)
  {
    var layoutIds := LayoutIds(layouts);
    variations := [];
    var i := 0;
    while i < |layouts|
      invariant 0 <= i <= |layouts|
      invariant variations == ForLayouts(layoutIds[..i], themeKeys, fontKeys)
    {
      variations := PushThemes(variations, layouts[i].id, themeKeys, fontKeys);
      ForLayoutsStep(layoutIds, themeKeys, fontKeys, i);
      i := i + 1;
    }
    assert layoutIds[..i] == layoutIds;
  }

  /** The loop over the themes for one layout. */
  method PushThemes(start: seq<Variation>, layout: string, themeKeys: seq<string>, fontKeys: seq<string>)
    returns (variations: seq<Variation>)
    ensures variations == start + ForThemes(layout, themeKeys, fontKeys)
  {
    variations := start;
    var j := 0;
    assert themeKeys[..0] == [];
    while j < |themeKeys|
      invariant 0 <= j <= |themeKeys|
      invariant variations == start + ForThemes(layout, themeKeys[..j], fontKeys)
    {
      variations := PushFonts(variations, layout, themeKeys[j], fontKeys);
      ForThemesStep(layout, themeKeys, fontKeys, j);
      AppendAssoc(start, ForThemes(layout, themeKeys[..j], fontKeys), ForFonts(layout, themeKeys[j], fontKeys));
      j := j + 1;
    }
    assert themeKeys[..j] == themeKeys;
  }

  /** The loop over the fonts for one layout and theme. */
  method PushFonts(start: seq<Variation>, layout: string, themeKey: string, fontKeys: seq<string>)
    returns (variations: seq<Variation>)
    ensures variations == start + ForFonts(layout, themeKey, fontKeys)
  {
    variations := start;
    var k := 0;
    assert fontKeys[..0] == [];
    while k < |fontKeys|
      invariant 0 <= k <= |fontKeys|
      invariant variations == start + ForFonts(layout, themeKey, fontKeys[..k])
    {
      var fontKey := fontKeys[k];
      variations := variations + [Variation(layout, themeKey, fontKey, layout + "-" + themeKey + "-" + fontKey)];
      ForFontsStep(layout, themeKey, fontKeys, k);
      AppendAssoc(start, ForFonts(layout, themeKey, fontKeys[..k]), [VariationOf(layout, themeKey, fontKey)]);
      k := k + 1;
    }
    assert fontKeys[..k] == fontKeys;
  }

  // ---------------------------------------------------------------------
  // Properties of the gallery
  // ---------------------------------------------------------------------

  predicate NoDup<T(==)>(s: seq<T>) {
    forall i, j :: 0 <= i < j < |s| ==> s[i] != s[j]
  }

  /** No key contains the `-` that separates the parts of an id. */
  predicate DashFree(keys: seq<string>) {
    forall k :: k in keys ==> '-' !in k
  }

  predicate DistinctIds(vs: seq<Variation>) {
    forall i, j :: 0 <= i < j < |vs| ==> vs[i].id != vs[j].id
  }

  /** In `a-b` with a dash-free `a`, the first `-` is the one after `a`. */
  lemma DashFirst(a: string, b: string)
    requires '-' !in a
    ensures (a + "-" + b)[|a|] == '-'
    ensures forall i :: 0 <= i < |a| ==> (a + "-" + b)[i] != '-'
  {
    forall i | 0 <= i < |a| ensures (a + "-" + b)[i] != '-' {
      assert (a + "-" + b)[i] == a[i];
    }
  }

  /** A `-` that occurs in neither left part splits a dashed pair uniquely. */
  lemma SplitAtDash(a: string, b: string, c: string, d: string)
    requires '-' !in a && '-' !in c
    requires a + "-" + b == c + "-" + d
    ensures a == c && b == d
  {
    var s := a + "-" + b;
    DashFirst(a, b);
    DashFirst(c, d);
    assert |a| == |c|;
    assert a == s[..|a|] == c;
    assert b == s[|a| + 1..] == d;
  }

  /** Ids built from dash-free layout and theme keys determine all three keys. */
  lemma IdInjective(l1: string, t1: string, f1: string, l2: string, t2: string, f2: string)
    requires '-' !in l1 && '-' !in t1 && '-' !in l2 && '-' !in t2
    requires VariationOf(l1, t1, f1).id == VariationOf(l2, t2, f2).id
    ensures l1 == l2 && t1 == t2 && f1 == f2
  {
    assert l1 + "-" + t1 + "-" + f1 == l1 + "-" + (t1 + "-" + f1);
    assert l2 + "-" + t2 + "-" + f2 == l2 + "-" + (t2 + "-" + f2);
    SplitAtDash(l1, t1 + "-" + f1, l2, t2 + "-" + f2);
    SplitAtDash(t1, f1, t2, f2);
  }

  /** Joining two id-distinct lists whose ids never meet keeps ids distinct. */
  lemma DistinctIdsAppend(a: seq<Variation>, b: seq<Variation>)
    requires DistinctIds(a) && DistinctIds(b)
    requires forall x, y :: x in a && y in b ==> x.id != y.id
    ensures DistinctIds(a + b)
  {
    forall i, j | 0 <= i < j < |a + b| ensures (a + b)[i].id != (a + b)[j].id {
      if j < |a| {
      } else if i >= |a| {
        assert (a + b)[i] == b[i - |a|] && (a + b)[j] == b[j - |a|];
      } else {
        assert (a + b)[i] in a && (a + b)[j] in b;
      }
    }
  }

  /** Gallery membership: exactly the entries built from a listed layout,
      theme and font. */
  lemma {:induction false} ForFontsMembers(layout: string, theme: string, fonts: seq<string>, v: Variation)
    ensures v in ForFonts(layout, theme, fonts) <==>
      v.layout == layout && v.theme == theme && v.font in fonts && v == VariationOf(layout, theme, v.font)
  {
    if fonts != [] {
      var init := fonts[..|fonts| - 1];
      ForFontsMembers(layout, theme, init, v);
      assert fonts == init + [fonts[|fonts| - 1]];
    }
  }

  lemma {:induction false} ForThemesMembers(layout: string, themes: seq<string>, fonts: seq<string>, v: Variation)
    ensures v in ForThemes(layout, themes, fonts) <==>
      v.layout == layout && v.theme in themes && v.font in fonts && v == VariationOf(layout, v.theme, v.font)
  {
    if themes != [] {
      var init := themes[..|themes| - 1];
      ForThemesMembers(layout, init, fonts, v);
      ForFontsMembers(layout, themes[|themes| - 1], fonts, v);
      assert themes == init + [themes[|themes| - 1]];
    }
  }

  lemma {:induction false} ForLayoutsMembers(layouts: seq<string>, themes: seq<string>, fonts: seq<string>, v: Variation)
    ensures v in ForLayouts(layouts, themes, fonts) <==>
      v.layout in layouts && v.theme in themes && v.font in fonts && v == VariationOf(v.layout, v.theme, v.font)
  {
    if layouts != [] {
      var init := layouts[..|layouts| - 1];
      ForLayoutsMembers(init, themes, fonts, v);
      ForThemesMembers(layouts[|layouts| - 1], themes, fonts, v);
      assert layouts == init + [layouts[|layouts| - 1]];
    }
  }

  /** With distinct, dash-free keys, no two gallery entries share an id. */
  lemma {:induction false} ForFontsDistinct(layout: string, theme: string, fonts: seq<string>)
    requires '-' !in layout && '-' !in theme && NoDup(fonts)
    ensures DistinctIds(ForFonts(layout, theme, fonts))
  {
    if fonts != [] {
      var init := fonts[..|fonts| - 1];
      var last := fonts[|fonts| - 1];
      ForFontsDistinct(layout, theme, init);
      assert last !in init by {
        forall k | 0 <= k < |init| ensures init[k] != last { assert init[k] == fonts[k]; }
      }
      forall x, y | x in ForFonts(layout, theme, init) && y in [VariationOf(layout, theme, last)]
        ensures x.id != y.id
      {
        ForFontsMembers(layout, theme, init, x);
        if x.id == y.id {
          IdInjective(layout, theme, x.font, layout, theme, last);
          assert false;
        }
      }
      DistinctIdsAppend(ForFonts(layout, theme, init), [VariationOf(layout, theme, last)]);
    }
  }

  lemma {:induction false} ForThemesDistinct(layout: string, themes: seq<string>, fonts: seq<string>)
    requires '-' !in layout && DashFree(themes) && NoDup(themes) && NoDup(fonts)
    ensures DistinctIds(ForThemes(layout, themes, fonts))
  {
    if themes != [] {
      var init := themes[..|themes| - 1];
      var last := themes[|themes| - 1];
      ForThemesDistinct(layout, init, fonts);
      ForFontsDistinct(layout, last, fonts);
      assert last !in init by {
        forall k | 0 <= k < |init| ensures init[k] != last { assert init[k] == themes[k]; }
      }
      forall x, y | x in ForThemes(layout, init, fonts) && y in ForFonts(layout, last, fonts)
        ensures x.id != y.id
      {
        ForThemesMembers(layout, init, fonts, x);
        ForFontsMembers(layout, last, fonts, y);
        if x.id == y.id {
          IdInjective(layout, x.theme, x.font, layout, last, y.font);
          assert false;
        }
      }
      DistinctIdsAppend(ForThemes(layout, init, fonts), ForFonts(layout, last, fonts));
    }
  }

  lemma {:induction false} ForLayoutsDistinct(layouts: seq<string>, themes: seq<string>, fonts: seq<string>)
    requires DashFree(layouts) && DashFree(themes) && NoDup(layouts) && NoDup(themes) && NoDup(fonts)
    ensures DistinctIds(ForLayouts(layouts, themes, fonts))
  {
    if layouts != [] {
      var init := layouts[..|layouts| - 1];
      var last := layouts[|layouts| - 1];
      ForLayoutsDistinct(init, themes, fonts);
      ForThemesDistinct(last, themes, fonts);
      assert last !in init by {
        forall k | 0 <= k < |init| ensures init[k] != last { assert init[k] == layouts[k]; }
      }
      forall x, y | x in ForLayouts(init, themes, fonts) && y in ForThemes(last, themes, fonts)
        ensures x.id != y.id
      {
        ForLayoutsMembers(init, themes, fonts, x);
        ForThemesMembers(last, themes, fonts, y);
        if x.id == y.id {
          IdInjective(x.layout, x.theme, x.font, last, y.theme, y.font);
          assert false;
        }
      }
      DistinctIdsAppend(ForLayouts(init, themes, fonts), ForThemes(last, themes, fonts));
    }
  }

  /** Gallery entries are laid out layout-major, then theme, then font. */
  lemma {:induction false} ForFontsIndex(layout: string, theme: string, fonts: seq<string>)
    ensures |ForFonts(layout, theme, fonts)| == |fonts|
    ensures forall k :: 0 <= k < |fonts| ==> ForFonts(layout, theme, fonts)[k] == VariationOf(layout, theme, fonts[k])
  {
    if fonts != [] {
      ForFontsIndex(layout, theme, fonts[..|fonts| - 1]);
    }
  }

  lemma MulSucc(n: nat, b: nat)
    ensures (n + 1) * b == n * b + b
  {
  }

  lemma {:induction false} ForThemesLength(layout: string, themes: seq<string>, fonts: seq<string>)
    ensures |ForThemes(layout, themes, fonts)| == |themes| * |fonts|
  {
    if themes != [] {
      var n := |themes| - 1;
      ForThemesLength(layout, themes[..n], fonts);
      ForFontsIndex(layout, themes[n], fonts);
      MulSucc(n, |fonts|);
    }
  }

  lemma {:induction false} ForLayoutsLength(layouts: seq<string>, themes: seq<string>, fonts: seq<string>)
    ensures |ForLayouts(layouts, themes, fonts)| == |layouts| * (|themes| * |fonts|)
  {
    if layouts != [] {
      var n := |layouts| - 1;
      ForLayoutsLength(layouts[..n], themes, fonts);
      ForThemesLength(layouts[n], themes, fonts);
      MulSucc(n, |themes| * |fonts|);
    }
  }

  /** Each level of the gallery distributes over concatenation of its keys. */
  lemma {:induction false} ForFontsAppend(layout: string, theme: string, a: seq<string>, b: seq<string>)
    ensures ForFonts(layout, theme, a + b) == ForFonts(layout, theme, a) + ForFonts(layout, theme, b)
    decreases |b|
  {
    if b == [] {
      assert a + b == a;
    } else {
      var init, last := b[..|b| - 1], b[|b| - 1];
      assert (a + b)[..|a + b| - 1] == a + init;
      assert (a + b)[|a + b| - 1] == last;
      ForFontsAppend(layout, theme, a, init);
      AppendAssoc(ForFonts(layout, theme, a), ForFonts(layout, theme, init), [VariationOf(layout, theme, last)]);
    }
  }

  lemma {:induction false} ForThemesAppend(layout: string, a: seq<string>, b: seq<string>, fonts: seq<string>)
    ensures ForThemes(layout, a + b, fonts) == ForThemes(layout, a, fonts) + ForThemes(layout, b, fonts)
    decreases |b|
  {
    if b == [] {
      assert a + b == a;
    } else {
      var init, last := b[..|b| - 1], b[|b| - 1];
      assert (a + b)[..|a + b| - 1] == a + init;
      assert (a + b)[|a + b| - 1] == last;
      ForThemesAppend(layout, a, init, fonts);
      AppendAssoc(ForThemes(layout, a, fonts), ForThemes(layout, init, fonts), ForFonts(layout, last, fonts));
    }
  }

  lemma {:induction false} ForLayoutsAppend(a: seq<string>, b: seq<string>, themes: seq<string>, fonts: seq<string>)
    ensures ForLayouts(a + b, themes, fonts) == ForLayouts(a, themes, fonts) + ForLayouts(b, themes, fonts)
    decreases |b|
  {
    if b == [] {
      assert a + b == a;
    } else {
      var init, last := b[..|b| - 1], b[|b| - 1];
      assert (a + b)[..|a + b| - 1] == a + init;
      assert (a + b)[|a + b| - 1] == last;
      ForLayoutsAppend(a, init, themes, fonts);
      AppendAssoc(ForLayouts(a, themes, fonts), ForLayouts(init, themes, fonts), ForThemes(last, themes, fonts));
    }
  }

  /** The registry keys in order. */
  const LayoutOrder := ["modern", "classic", "minimal", "executive", "creative"]
  const ThemeOrder := ["slate", "blue", "emerald", "violet", "rose", "amber", "cyan", "fuchsia", "lime", "neutral"]
  const FontOrder := ["inter", "merriweather", "roboto", "playfair", "oswald"]

  lemma LayoutOrderSpec()
    ensures LayoutIds(Layouts) == LayoutOrder
  {
  }

  lemma ThemeOrderSpec()
    ensures Keys(ColorThemes) == ThemeOrder
  {
    TakeDrop(ColorThemes, 5);
    TakeDrop(ThemeOrder, 5);
    KeysAppend(ColorThemes[..5], ColorThemes[5..]);
    ThemeOrderHalves();
  }

  lemma TakeDrop<T>(s: seq<T>, n: nat)
    requires n <= |s|
    ensures s[..n] + s[n..] == s
  {
  }

  lemma ThemeOrderHalves()
    ensures Keys(ColorThemes[..5]) == ThemeOrder[..5]
    ensures Keys(ColorThemes[5..]) == ThemeOrder[5..]
  {
  }

  lemma {:induction false} KeysAppend<V>(a: seq<(string, V)>, b: seq<(string, V)>)
    ensures Keys(a + b) == Keys(a) + Keys(b)
  {
    if a != [] {
      assert (a + b)[1..] == a[1..] + b;
      KeysAppend(a[1..], b);
    }
  }

  lemma FontOrderSpec()
    ensures Keys(FontPairings) == FontOrder
  {
  }

  /** The registry keys are distinct, and layout and theme keys are dash-free. */
  lemma RegistryKeysDistinct()
    ensures NoDup(LayoutOrder) && DashFree(LayoutOrder)
    ensures NoDup(ThemeOrder) && DashFree(ThemeOrder)
    ensures NoDup(FontOrder)
  {
    LayoutKeysDistinct();
    ThemeKeysDistinct();
  }

  lemma LayoutKeysDistinct()
    ensures NoDup(LayoutOrder) && DashFree(LayoutOrder)
  {
  }

  lemma ThemeKeysDistinct()
    ensures NoDup(ThemeOrder) && DashFree(ThemeOrder)
  {
  }

  /** The gallery holds 5 x 10 x 5 = 250 designs. */
  lemma AllVariationsCount()
    ensures |AllVariations()| == 250
  {
    ForLayoutsLength(LayoutOrder, ThemeOrder, FontOrder);
  }

  /** No two designs in the gallery share an id. */
  lemma AllVariationsDistinct()
    ensures DistinctIds(AllVariations())
  {
    RegistryKeysDistinct();
    ForLayoutsDistinct(LayoutOrder, ThemeOrder, FontOrder);
  }

  /** An offset inside block `i` of blocks of size `b` lies before block `n > i`. */
  lemma BlockBelow(i: nat, n: nat, b: nat, q: nat)
    requires i < n && q < b
    ensures 0 <= i * b
    ensures i * b + q < n * b
  {
    MulSucc(i, b);
    assert (i + 1) * b <= n * b;
  }

  /** Entry `j * |fonts| + r` of one layout's entries is entry `r` of its
      `j`-th theme. */
  lemma {:induction false} ThemeBlockAt(layout: string, themes: seq<string>, fonts: seq<string>, j: nat, r: nat)
    requires j < |themes| && r < |fonts|
    ensures |ForFonts(layout, themes[j], fonts)| == |fonts|
    ensures j * |fonts| + r < |ForThemes(layout, themes, fonts)|
    ensures ForThemes(layout, themes, fonts)[j * |fonts| + r] == ForFonts(layout, themes[j], fonts)[r]
    decreases |themes|
  {
    var n := |themes| - 1;
    ForFontsIndex(layout, themes[j], fonts);
    ForThemesLength(layout, themes[..n], fonts);
    if j < n {
      ThemeBlockAt(layout, themes[..n], fonts, j, r);
      assert themes[..n][j] == themes[j];
      BlockBelow(j, n, |fonts|, r);
    }
  }

  /** Entry `i * (|themes| * |fonts|) + q` of the gallery is entry `q` of its
      `i`-th layout. */
  lemma {:induction false} LayoutBlockAt(layouts: seq<string>, themes: seq<string>, fonts: seq<string>, i: nat, q: nat)
    requires i < |layouts| && q < |themes| * |fonts|
    ensures |ForThemes(layouts[i], themes, fonts)| == |themes| * |fonts|
    ensures i * (|themes| * |fonts|) + q < |ForLayouts(layouts, themes, fonts)|
    ensures ForLayouts(layouts, themes, fonts)[i * (|themes| * |fonts|) + q] == ForThemes(layouts[i], themes, fonts)[q]
    decreases |layouts|
  {
    var n := |layouts| - 1;
    ForThemesLength(layouts[i], themes, fonts);
    ForLayoutsLength(layouts[..n], themes, fonts);
    if i < n {
      LayoutBlockAt(layouts[..n], themes, fonts, i, q);
      assert layouts[..n][i] == layouts[i];
      BlockBelow(i, n, |themes| * |fonts|, q);
    }
  }

  /** The gallery of any registries is ordered layout-major, then by theme,
      then by font. */
  lemma GalleryOrder(layouts: seq<string>, themes: seq<string>, fonts: seq<string>, i: nat, j: nat, k: nat)
    requires i < |layouts| && j < |themes| && k < |fonts|
    ensures i * (|themes| * |fonts|) + (j * |fonts| + k) < |ForLayouts(layouts, themes, fonts)|
    ensures ForLayouts(layouts, themes, fonts)[i * (|themes| * |fonts|) + (j * |fonts| + k)]
         == VariationOf(layouts[i], themes[j], fonts[k])
  {
    BlockBelow(j, |themes|, |fonts|, k);
    var q: nat := j * |fonts| + k;
    ThemeBlockAt(layouts[i], themes, fonts, j, k);
    LayoutBlockAt(layouts, themes, fonts, i, q);
    ForFontsIndex(layouts[i], themes[j], fonts);
  }

  /** The gallery is ordered layout-major, then by theme, then by font. */
  lemma AllVariationsOrder(i: nat, j: nat, k: nat)
    requires i < 5 && j < 10 && k < 5
    ensures i * 50 + (j * 5 + k) < |AllVariations()|
    ensures AllVariations()[i * 50 + (j * 5 + k)] == VariationOf(LayoutOrder[i], ThemeOrder[j], FontOrder[k])
  {
    GalleryOrder(LayoutOrder, ThemeOrder, FontOrder, i, j, k);
  }

  /** Every design names a registered layout, theme and font, and every
      combination of them is in the gallery. */
  lemma AllVariationsMembers(v: Variation)
    ensures v in AllVariations() <==>
      v.layout in LayoutOrder && v.theme in ThemeOrder && v.font in FontOrder &&
      v == VariationOf(v.layout, v.theme, v.font)
    ensures v in AllVariations() ==> LookupTheme(v.theme).Some? && LookupFont(v.font).Some?
  {
    ForLayoutsMembers(LayoutOrder, ThemeOrder, FontOrder, v);
    ThemeOrderSpec();
    FontOrderSpec();
  }
}
