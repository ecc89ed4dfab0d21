/**
 Light and dark colour palettes derived from a colour table (tailwind.config.ts).

 The colour table maps a colour name to its shades ("50" .. "950") and each shade
 to a colour value. A palette has the same two-level shape; each slot either copies
 the table's value at the same shade (light) or reads the shade that the shade
 mapping pairs it with (dark). The two named themes then spread a palette and add
 the fixed `white` / `black` tokens on top.
 */
module Theme {

  /** What a lookup into the colour table yields: the stored value, or
      JavaScript's `undefined` when the table has no such shade. */
  datatype Token = Undefined | Color(value: string)

  /** A shade key such as "50" or "950", by its numeric value. */
  type Shade = nat

  type ColorTable = map<string, map<Shade, string>>

  /** colour name -> shade key -> token */
  type Palette = map<string, map<Shade, Token>>

  /** One property of a theme object: a colour's row of shades (from the
      spread palette) or a single override token (`white`, `black`). */
  datatype Entry = Shades(shades: map<Shade, Token>) | Single(token: Token)

  /** The `themes` object handed to the theming plugin. */
  datatype Themes = Themes(light: map<string, Entry>, dark: map<string, Entry>)

  const BaseColors: seq<string> :=
    ["gray", "red", "yellow", "green", "blue", "indigo", "purple", "pink"]

  const ShadeMapping: map<Shade, Shade> :=
    map[
      50 := 900, 100 := 800, 200 := 700, 300 := 600, 400 := 500,
      500 := 400, 600 := 300, 700 := 200, 800 := 100, 900 := 50
    ]

  /** The ten shade keys, in the order `Object.entries` lists them. */
  const ShadeKeys: seq<Shade> :=
    [50, 100, 200, 300, 400, 500, 600, 700, 800, 900]

  ghost const BaseColorSet: set<string> := set c | c in BaseColors

  /** The table has a row for every base colour; without one, reading
      `colors[color][shadeKey]` would throw. */
  ghost predicate HasBaseColors(colors: ColorTable) {
    forall c :: c in BaseColors ==> c in colors
  }

  /** `row[shade]` in JavaScript: a missing shade reads as `undefined`. */
  function Read(row: map<Shade, string>, shade: Shade): Token {
    if shade in row then Color(row[shade]) else Undefined
  }

  /** The shade of the table that palette slot `key` reads. */
  function SourceShade(mapping: map<Shade, Shade>, key: Shade, invert: bool): Shade
    requires key in mapping
  {
    if invert then mapping[key] else key
  }

  /** The part of one colour's palette row that covers the shade keys in `keys`. */
  function Row(row: map<Shade, string>, mapping: map<Shade, Shade>, keys: set<Shade>, invert: bool): map<Shade, Token>
    requires keys <= mapping.Keys
  {
    map k | k in keys :: Read(row, SourceShade(mapping, k, invert))
  }

  /** The palette `generateThemeObject(colors, mapping, invert)` returns. */
  function Derived(colors: ColorTable, mapping: map<Shade, Shade>, invert: bool): (p: Palette)
    requires HasBaseColors(colors)
    ensures p.Keys == BaseColorSet
    ensures forall c :: c in p ==> p[c].Keys == mapping.Keys
  {
    map c | c in BaseColors :: Row(colors[c], mapping, mapping.Keys, invert)
  }

  /** generateThemeObject: for every base colour, for every entry of the
      mapping, fill `theme[color][key]` in place. */
  method GenerateThemeObject(colors: ColorTable, mapping: map<Shade, Shade>, invert: bool) returns (theme: Palette)
    requires HasBaseColors(colors)
    ensures theme == Derived(colors, mapping, invert)
  {
    theme := map[];
    var i := 0;
    while i < |BaseColors|
      invariant 0 <= i <= |BaseColors|
      invariant forall c :: c in theme <==> c in BaseColors[..i]
      invariant forall c :: c in theme ==> theme[c] == Row(colors[c], mapping, mapping.Keys, invert)
    {
      var color := BaseColors[i];
      theme := theme[color := map[]];
      var pending := mapping.Keys;
      while pending != {}
        invariant pending <= mapping.Keys
        invariant forall c :: c in theme <==> c in BaseColors[..i] || c == color
        invariant theme[color] == Row(colors[color], mapping, mapping.Keys - pending, invert)
        invariant forall c :: c in theme && c != color ==> theme[c] == Row(colors[c], mapping, mapping.Keys, invert)
        decreases pending
      {
        var key :| key in pending;
        var value := mapping[key];
        var shadeKey := if invert then value else key;
        RowExtend(colors[color], mapping, mapping.Keys - pending, key, invert);
        assert (mapping.Keys - pending) + {key} == mapping.Keys - (pending - {key});
        theme := theme[color := theme[color][key := Read(colors[color], shadeKey)]];
        pending := pending - {key};
      }
      assert mapping.Keys - pending == mapping.Keys;
      assert BaseColors[..i + 1] == BaseColors[..i] + [color];
      i := i + 1;
    }
    assert BaseColors[..i] == BaseColors;
  }

  /** Adding one key to a partial row extends it by exactly that slot. */
  lemma RowExtend(row: map<Shade, string>, mapping: map<Shade, Shade>, done: set<Shade>, key: Shade, invert: bool)
    requires done <= mapping.Keys && key in mapping
    ensures Row(row, mapping, done + {key}, invert)
         == Row(row, mapping, done, invert)[key := Read(row, SourceShade(mapping, key, invert))]
  {
  }

  /** The `themes` literal: the light palette plus a white token, the dark
      palette plus white and black tokens taken from the gray row. */
  function BuildThemes(colors: ColorTable): (t: Themes)
    requires HasBaseColors(colors)
    ensures t.light.Keys == BaseColorSet + {"white"}
    ensures t.dark.Keys == BaseColorSet + {"white", "black"}
  {
    Themes(
      Spread(Derived(colors, ShadeMapping, false))["white" := Single(Color("#ffffff"))],
      Spread(Derived(colors, ShadeMapping, true))
        ["white" := Single(Read(colors["gray"], 950))]
        ["black" := Single(Read(colors["gray"], 50))])
  }

  /** `{ ...palette }`: every colour of the palette becomes a row entry. */
  function Spread(p: Palette): map<string, Entry> {
    map c | c in p :: Shades(p[c])
  }

  /** Module initialisation: both palettes are generated, then the literal is built. */
  method ConfigureThemes(colors: ColorTable) returns (themes: Themes)
    requires HasBaseColors(colors)
    ensures themes == BuildThemes(colors)
  {
    var lightTheme := GenerateThemeObject(colors, ShadeMapping, false);
    var darkTheme := GenerateThemeObject(colors, ShadeMapping, true);
    themes := Themes(
      Spread(lightTheme)["white" := Single(Color("#ffffff"))],
      Spread(darkTheme)["white" := Single(Read(colors["gray"], 950))]["black" := Single(Read(colors["gray"], 50))]);
  }

  // ---------------------------------------------------------------------------
  // The shade mapping

  ghost predicate Involution(m: map<Shade, Shade>) {
    forall k :: k in m ==> m[k] in m && m[m[k]] == k
  }

  /** The shade keys listed in order are exactly the mapping's keys, with no repeats. */
  lemma ShadeKeysAreMappingKeys()
    ensures |ShadeKeys| == 10
    ensures forall i, j :: 0 <= i < j < |ShadeKeys| ==> ShadeKeys[i] != ShadeKeys[j]
    ensures ShadeMapping.Keys == set k | k in ShadeKeys
  {
  }

  /** The table pairs 50/900, 100/800, 200/700, 300/600 and 400/500: applying
      it twice gives back the key. */
  lemma ShadeMappingIsInvolution()
    ensures Involution(ShadeMapping)
  {
    forall k | k in ShadeMapping
      ensures ShadeMapping[k] in ShadeMapping && ShadeMapping[ShadeMapping[k]] == k
    {
      assert k in ShadeKeys;
    }
  }

  /** An involution is a bijection of its key set onto itself. */
  lemma {:induction false} InvolutionIsBijection(m: map<Shade, Shade>)
    requires Involution(m)
    ensures m.Values == m.Keys
    ensures forall a, b :: a in m && b in m && m[a] == m[b] ==> a == b
  {
    forall v | v in m.Values ensures v in m.Keys {
      var k :| k in m && m[k] == v;
    }
    forall k | k in m.Keys ensures k in m.Values {
      assert m[m[k]] == k;
    }
  }

  lemma ShadeMappingIsBijection()
    ensures ShadeMapping.Values == ShadeMapping.Keys
    ensures forall a, b :: a in ShadeMapping && b in ShadeMapping && ShadeMapping[a] == ShadeMapping[b] ==> a == b
  {
    ShadeMappingIsInvolution();
    InvolutionIsBijection(ShadeMapping);
  }

  // ---------------------------------------------------------------------------
  // Properties of the palettes

  /** Every base colour has every mapped shade, whatever the table holds. */
  lemma PaletteIsTotal(colors: ColorTable, invert: bool)
    requires HasBaseColors(colors)
    ensures Derived(colors, ShadeMapping, invert).Keys == BaseColorSet
    ensures forall c :: c in BaseColors ==>
      Derived(colors, ShadeMapping, invert)[c].Keys == set k | k in ShadeKeys
  {
    ShadeKeysAreMappingKeys();
  }

  /** Without inversion the palette copies the table slot for slot. */
  lemma LightPaletteCopiesTable(colors: ColorTable, mapping: map<Shade, Shade>)
    requires HasBaseColors(colors)
    ensures forall c, k :: c in BaseColors && k in mapping ==>
      Derived(colors, mapping, false)[c][k] == Read(colors[c], k)
  {
  }

  /** With inversion each slot reads the shade the mapping pairs it with. */
  lemma DarkPaletteReadsMappedShade(colors: ColorTable, mapping: map<Shade, Shade>)
    requires HasBaseColors(colors)
    ensures forall c, k :: c in BaseColors && k in mapping ==>
      Derived(colors, mapping, true)[c][k] == Read(colors[c], mapping[k])
  {
  }

  /** Dark slot `mapping[k]` holds what light slot `k` holds. */
  lemma {:induction false} DarkMirrorsLight(colors: ColorTable, mapping: map<Shade, Shade>)
    requires HasBaseColors(colors)
    requires Involution(mapping)
    ensures forall c, k :: c in BaseColors && k in mapping ==>
      mapping[k] in mapping && Derived(colors, mapping, true)[c][mapping[k]] == Derived(colors, mapping, false)[c][k]
  {
    forall c, k | c in BaseColors && k in mapping
      ensures mapping[k] in mapping && Derived(colors, mapping, true)[c][mapping[k]] == Derived(colors, mapping, false)[c][k]
    {
      assert mapping[mapping[k]] == k;
    }
  }

  /** The same statement for the shade mapping of the configuration. */
  lemma DarkMirrorsLightForShadeMapping(colors: ColorTable)
    requires HasBaseColors(colors)
    ensures forall c, k :: c in BaseColors && k in ShadeMapping ==>
      ShadeMapping[k] in ShadeMapping &&
      Derived(colors, ShadeMapping, true)[c][ShadeMapping[k]] == Derived(colors, ShadeMapping, false)[c][k]
  {
    ShadeMappingIsInvolution();
    DarkMirrorsLight(colors, ShadeMapping);
  }

  /** A worked instance: the light `blue.50` slot is the table's `blue.50`,
      the dark one is the table's `blue.900`. */
  lemma BlueFiftyExample(colors: ColorTable)
    requires HasBaseColors(colors)
    requires 50 in colors["blue"] && colors["blue"][50] == "A"
    requires 900 in colors["blue"] && colors["blue"][900] == "I"
    ensures Derived(colors, ShadeMapping, false)["blue"][50] == Color("A")
    ensures Derived(colors, ShadeMapping, true)["blue"][50] == Color("I")
    ensures Derived(colors, ShadeMapping, true)["blue"][900] == Color("A")
  {
    assert "blue" in BaseColors by { assert BaseColors[4] == "blue"; }
    assert ShadeMapping[50] == 900 && ShadeMapping[900] == 50;
    LightPaletteCopiesTable(colors, ShadeMapping);
    DarkPaletteReadsMappedShade(colors, ShadeMapping);
  }

  // ---------------------------------------------------------------------------
  // Properties of the themes literal

  /** The overrides add keys but never replace a palette row, because
      `white` and `black` are not base colours. */
  lemma ThemesLayerOverrides(colors: ColorTable)
    requires HasBaseColors(colors)
    ensures BuildThemes(colors).light.Keys == BaseColorSet + {"white"}
    ensures "black" !in BuildThemes(colors).light
    ensures BuildThemes(colors).light["white"] == Single(Color("#ffffff"))
    ensures BuildThemes(colors).dark.Keys == BaseColorSet + {"white", "black"}
    ensures BuildThemes(colors).dark["white"] == Single(Read(colors["gray"], 950))
    ensures BuildThemes(colors).dark["black"] == Single(Read(colors["gray"], 50))
    ensures forall c :: c in BaseColors ==>
      BuildThemes(colors).light[c] == Shades(Derived(colors, ShadeMapping, false)[c]) &&
      BuildThemes(colors).dark[c] == Shades(Derived(colors, ShadeMapping, true)[c])
  {
    assert "white" !in BaseColorSet && "black" !in BaseColorSet;
  }
}
