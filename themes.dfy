/** The theme registry of NoteVerse (src/services/themeService.js).

    Five preset themes are fixed at start-up; custom themes live in a mutable
    map that overlays them and is persisted under the `custom_themes` setting,
    and the id of the current theme is persisted under `current_theme`. The
    pure functions below (`AllThemes`, `ThemeSet`, `ThemeCreated`, ...) state what
    each operation leaves behind; the methods of class `ThemeService` are
    proved equal to them. The section values of the presets are opaque
    constant data: the model takes the preset table as a parameter and only
    pins down its ids, names and kinds (`PresetsShaped`). */
module Themes {
  import opened Util
  import opened Records
  import opened LocalStore

  const DefaultId := "app-default"
  const CustomThemesKey := "custom_themes"
  const CurrentThemeKey := "current_theme"
  const AutoThemeKey := "auto_theme"

  datatype ThemeError = NotCustom(id: string) | UnknownTheme(id: string) | InvalidExport

  /** `presets[id]` is a built-in theme with this name and kind. */
  predicate IsPreset(presets: map<string, Theme>, id: string, name: string, kind: string)
  {
    id in presets && presets[id].name == name && presets[id].kind == kind && !presets[id].custom
  }

  /** The preset table of `getDefaultThemes` (themeService.js:35-368). */
  predicate PresetsShaped(presets: map<string, Theme>)
  {
    presets.Keys == {"app-default", "dark-professional", "cyberpunk", "forest", "sunset"}
    && IsPreset(presets, "app-default", "App Default", "light")
    && IsPreset(presets, "dark-professional", "Dark Professional", "dark")
    && IsPreset(presets, "cyberpunk", "Cyberpunk", "dark")
    && IsPreset(presets, "forest", "Forest", "dark")
    && IsPreset(presets, "sunset", "Sunset", "light")
  }

  /** What the theme service keeps: its custom themes, the current theme id, and the store. */
  datatype Registry = Registry(custom: map<string, Theme>, current: string, store: Store)

  // ------------------------------------------------------------------ lookup

  /** `getAllThemes`: the presets, each custom theme added over them. */
  function AllThemes(presets: map<string, Theme>, custom: map<string, Theme>): (r: map<string, Theme>)
    ensures r.Keys == presets.Keys + custom.Keys
    ensures forall id :: id in custom ==> r[id] == custom[id]
    ensures forall id :: id in presets && id !in custom ==> r[id] == presets[id]
  {
    presets + custom
  }

  /** The id `setTheme(id)` settles on: `id` if some theme has it, else the default. */
  function Resolved(presets: map<string, Theme>, custom: map<string, Theme>, id: string): (r: string)
    requires DefaultId in presets
    ensures r in AllThemes(presets, custom)
    ensures id in AllThemes(presets, custom) <==> r == id
  {
    if id in AllThemes(presets, custom) then id else DefaultId
  }

  /** `getCurrentTheme`: the current theme, or the default theme when the current id names none. */
  function CurrentTheme(presets: map<string, Theme>, custom: map<string, Theme>, current: string): (t: Theme)
    requires DefaultId in presets
    ensures current in AllThemes(presets, custom) ==> t == AllThemes(presets, custom)[current]
    ensures current !in AllThemes(presets, custom) ==> t == AllThemes(presets, custom)[DefaultId]
  {
    var all := AllThemes(presets, custom);
    if current in all then all[current] else all[DefaultId]
  }

  /** The state after `setTheme(id)`. */
  function ThemeSet(presets: map<string, Theme>, s: Registry, id: string): (r: Registry)
    requires DefaultId in presets
    ensures r.current in AllThemes(presets, s.custom)
    ensures id in AllThemes(presets, s.custom) ==> r.current == id
    ensures id !in AllThemes(presets, s.custom) ==> r.current == DefaultId
    ensures SettingOf(r.store, CurrentThemeKey) == Some(Text(r.current))
    ensures r.custom == s.custom
    ensures forall k :: k != CurrentThemeKey ==> SettingOf(r.store, k) == SettingOf(s.store, k)
  {
    var current := Resolved(presets, s.custom, id);
    Registry(s.custom, current, WithSetting(s.store, CurrentThemeKey, Text(current)))
  }

  /** After `setTheme(id)` the current theme is the one named `id`, or the default theme. */
  lemma SetThemeSelects(presets: map<string, Theme>, s: Registry, id: string)
    requires DefaultId in presets
    ensures var all := AllThemes(presets, s.custom);
      CurrentTheme(presets, s.custom, ThemeSet(presets, s, id).current)
        == if id in all then all[id] else all[DefaultId]
  {
  }

  /** `loadThemes` (themeService.js:370-380): the persisted custom table and current id. */
  function Loaded(store: Store): (r: Registry)
    ensures SettingOf(store, CustomThemesKey).Some? && SettingOf(store, CustomThemesKey).value.Themes? ==>
      r.custom == SettingOf(store, CustomThemesKey).value.table
    ensures SettingOf(store, CustomThemesKey).None? ==> r.custom == map[]
    ensures r.current != ""
    ensures SettingOf(store, CurrentThemeKey).None? ==> r.current == DefaultId
    ensures var v := SettingOf(store, CurrentThemeKey);
            v.Some? && v.value.Text? && v.value.text != "" ==> r.current == v.value.text
    ensures r.store == store
  {
    var custom := match SettingOf(store, CustomThemesKey)
      case Some(Themes(table)) => table
      case _ => map[];
    var current := match SettingOf(store, CurrentThemeKey)
      case Some(Text(id)) => if id != "" then id else DefaultId
      case _ => DefaultId;
    Registry(custom, current, store)
  }

  // --------------------------------------------------------------- sections

  /** `section` is `{ ...base, ...update }`: every key of either, the update's value winning. */
  predicate Spreads(section: Section, base: Section, update: Section)
  {
    section.Keys == base.Keys + update.Keys
    && (forall k :: k in update ==> section[k] == update[k])
    && (forall k :: k in base && k !in update ==> section[k] == base[k])
  }

  /** Each of the seven sections is `{ ...base.<section>, ...update.<section> }`. */
  function Overlay(base: Sections, update: Sections): (r: Sections)
    ensures Spreads(r.colors, base.colors, update.colors) && Spreads(r.fonts, base.fonts, update.fonts)
    ensures Spreads(r.spacing, base.spacing, update.spacing)
    ensures Spreads(r.borderRadius, base.borderRadius, update.borderRadius)
    ensures Spreads(r.shadows, base.shadows, update.shadows)
    ensures Spreads(r.animations, base.animations, update.animations)
    ensures Spreads(r.effects, base.effects, update.effects)
  {
    Sections(base.colors + update.colors, base.fonts + update.fonts, base.spacing + update.spacing,
             base.borderRadius + update.borderRadius, base.shadows + update.shadows,
             base.animations + update.animations, base.effects + update.effects)
  }

  /** A section absent from the input: `...undefined` and `...{}` add nothing. */
  const NoSections := Sections(map[], map[], map[], map[], map[], map[], map[])

  /** Overlaying nothing keeps every section; overlaying twice is overlaying once. */
  lemma OverlayLaws(base: Sections, update: Sections)
    ensures Overlay(base, NoSections) == base
    ensures Overlay(Overlay(base, update), update) == Overlay(base, update)
  {
    var once := Overlay(base, update);
    SpreadTwice(base.colors, update.colors);
    SpreadTwice(base.fonts, update.fonts);
    SpreadTwice(base.spacing, update.spacing);
    SpreadTwice(base.borderRadius, update.borderRadius);
    SpreadTwice(base.shadows, update.shadows);
    SpreadTwice(base.animations, update.animations);
    SpreadTwice(base.effects, update.effects);
  }

  lemma SpreadTwice(base: Section, update: Section)
    ensures base + map[] == base
    ensures (base + update) + update == base + update
  {
    assert (base + update) + update == base + update by {
      var l, r := (base + update) + update, base + update;
      assert l.Keys == r.Keys;
      forall k | k in l ensures l[k] == r[k] {
      }
    }
  }

  // ---------------------------------------------------------- custom themes

  /** The `themeData` of `createCustomTheme`: absent keys are `None`, absent sections empty. */
  datatype ThemeData = ThemeData(id: Option<string>, name: Option<string>, kind: Option<string>, sections: Sections)

  /** `given || prefix + Date.now()`: the given id when it is a non-empty string,
      else one made from a reading of the clock. */
  function FreshId(s: Store, given: Option<string>, prefix: string): (r: (Store, string))
    ensures r.1 != ""
    ensures given.Some? && given.value != "" ==> r == (s, given.value)
    ensures given.None? || given.value == "" ==> r == (Tick(s).0, prefix + NatToString(s.clock))
  {
    if given.Some? && given.value != "" then (s, given.value)
    else
      var (s1, t) := Tick(s);
      (s1, prefix + NatToString(t))
  }

  /** A theme built by `createCustomTheme` (themeService.js:487-499) at time `now`. */
  predicate BuiltFrom(theme: Theme, presets: map<string, Theme>, data: ThemeData, now: int)
    requires DefaultId in presets
  {
    theme.name == OrElse(data.name, "Custom Theme") && theme.kind == OrElse(data.kind, "light")
    && theme.sections == Overlay(presets[DefaultId].sections, data.sections)
    && theme.custom && theme.createdAt == Some(now) && theme.updatedAt.None?
  }

  /** The state after `createCustomTheme(data)` and the id it returns. */
  function ThemeCreated(presets: map<string, Theme>, s: Registry, data: ThemeData): (r: (Registry, string))
    requires DefaultId in presets
    ensures data.id.Some? && data.id.value != "" ==> r.1 == data.id.value
    ensures data.id.None? || data.id.value == "" ==> r.1 == "custom-" + NatToString(s.store.clock)
    ensures r.1 in r.0.custom && BuiltFrom(r.0.custom[r.1], presets, data, r.0.store.clock - 1)
    ensures r.0.custom == s.custom[r.1 := r.0.custom[r.1]]
    ensures AllThemes(presets, r.0.custom)[r.1] == r.0.custom[r.1]
    ensures SettingOf(r.0.store, CustomThemesKey) == Some(Themes(r.0.custom))
    ensures r.0.current == s.current && r.0.store.notes == s.store.notes
  {
    var (s1, id) := FreshId(s.store, data.id, "custom-");
    var (s2, now) := Tick(s1);
    var theme := Theme(OrElse(data.name, "Custom Theme"), OrElse(data.kind, "light"),
                       Overlay(presets[DefaultId].sections, data.sections), true, Some(now), None);
    var custom := s.custom[id := theme];
    (Registry(custom, s.current, WithSetting(s2, CustomThemesKey, Themes(custom))), id)
  }

  /** The `updates` of `updateCustomTheme`: top-level keys that may be present, and the sections. */
  datatype ThemeUpdate = ThemeUpdate(name: Option<string>, kind: Option<string>, custom: Option<bool>,
                                     createdAt: Option<int>, sections: Sections)

  /** The state after `updateCustomTheme(id, u)` and the theme it returns. */
  function ThemeUpdated(s: Registry, id: string, u: ThemeUpdate): (r: Result<(Registry, Theme), ThemeError>)
    ensures r.Err? <==> id !in s.custom
    ensures r.Err? ==> r.error == NotCustom(id)
    ensures r.Ok? ==> var (s', theme) := r.value;
      s'.custom == s.custom[id := theme] && s'.current == s.current
      && theme.name == Override(u.name, s.custom[id].name) && theme.kind == Override(u.kind, s.custom[id].kind)
      && theme.custom == Override(u.custom, s.custom[id].custom)
      && theme.createdAt == (if u.createdAt.Some? then u.createdAt else s.custom[id].createdAt)
      && theme.sections == Overlay(s.custom[id].sections, u.sections)
      && theme.updatedAt == Some(s.store.clock)
      && SettingOf(s'.store, CustomThemesKey) == Some(Themes(s'.custom))
  {
    if id !in s.custom then Err(NotCustom(id))
    else
      var existing := s.custom[id];
      var (s1, now) := Tick(s.store);
      var theme := Theme(Override(u.name, existing.name), Override(u.kind, existing.kind),
                         Overlay(existing.sections, u.sections), Override(u.custom, existing.custom),
                         if u.createdAt.Some? then u.createdAt else existing.createdAt, Some(now));
      var custom := s.custom[id := theme];
      Ok((Registry(custom, s.current, WithSetting(s1, CustomThemesKey, Themes(custom))), theme))
  }

  /** An update that names no section key leaves every section as it was. */
  lemma UpdateKeepsUnsuppliedSections(s: Registry, id: string, u: ThemeUpdate)
    requires id in s.custom && u.sections == NoSections
    ensures ThemeUpdated(s, id, u).value.1.sections == s.custom[id].sections
  {
    OverlayLaws(s.custom[id].sections, u.sections);
  }

  /** The state after `deleteCustomTheme(id)`. */
  function ThemeDeleted(presets: map<string, Theme>, s: Registry, id: string): (r: Result<Registry, ThemeError>)
    requires DefaultId in presets
    ensures r.Err? <==> id !in s.custom
    ensures r.Err? ==> r.error == NotCustom(id)
    ensures r.Ok? ==> r.value.custom == s.custom - {id}
    ensures r.Ok? ==> presets.Keys <= AllThemes(presets, r.value.custom).Keys
    ensures r.Ok? && s.current == id ==> r.value.current == DefaultId
    ensures r.Ok? && s.current != id ==> r.value.current == s.current
    ensures r.Ok? ==> SettingOf(r.value.store, CustomThemesKey) == Some(Themes(r.value.custom))
  {
    if id !in s.custom then Err(NotCustom(id))
    else
      var custom := s.custom - {id};
      var s1 := Registry(custom, s.current, WithSetting(s.store, CustomThemesKey, Themes(custom)));
      if s.current == id then Ok(ThemeSet(presets, s1, DefaultId)) else Ok(s1)
  }

  /** Deleting a custom theme that shadows a preset brings the preset back. */
  lemma DeleteRestoresPreset(presets: map<string, Theme>, s: Registry, id: string)
    requires DefaultId in presets && id in presets && id in s.custom
    ensures AllThemes(presets, ThemeDeleted(presets, s, id).value.custom)[id] == presets[id]
  {
  }

  /** The state after `duplicateTheme(source, newName)` and the new theme's id. */
  function Duplicated(presets: map<string, Theme>, s: Registry, source: string, newName: Option<string>)
    : (r: Result<(Registry, string), ThemeError>)
    requires DefaultId in presets
    ensures r.Err? <==> source !in AllThemes(presets, s.custom)
    ensures r.Err? ==> r.error == UnknownTheme(source)
    ensures r.Ok? ==> var (s', id) := r.value; var original := AllThemes(presets, s.custom)[source];
      id == "custom-" + NatToString(s.store.clock + 1) && id in s'.custom
      && s'.custom[id].name == OrElse(newName, original.name + " Copy")
      && s'.custom[id].sections == Overlay(presets[DefaultId].sections, original.sections)
      && s'.custom[id].custom && s'.custom == s.custom[id := s'.custom[id]]
  {
    var all := AllThemes(presets, s.custom);
    if source !in all then Err(UnknownTheme(source))
    else
      var original := all[source];
      var (s1, _) := Tick(s.store);
      var data := ThemeData(None, Some(OrElse(newName, original.name + " Copy")), Some(original.kind), original.sections);
      var name := OrElse(newName, original.name + " Copy");
      assert OrElse(Some(name), "Custom Theme") == name;
      Ok(ThemeCreated(presets, s.(store := s1), data))
  }

  // -------------------------------------------------------- export / import

  /** A theme as `exportTheme` writes it: the theme's keys plus its `id`. */
  datatype ExportedTheme = ExportedTheme(theme: Theme, id: Option<string>)

  /** The document `exportTheme` returns and `importTheme` accepts; an absent key is `None`. */
  datatype ExportData = ExportData(version: Option<string>, exportedAt: Option<int>, theme: Option<ExportedTheme>)

  /** `exportTheme(id)`: the state (one clock reading) and the export document. */
  function Exported(presets: map<string, Theme>, s: Registry, id: string): (r: Result<(Registry, ExportData), ThemeError>)
    ensures r.Err? <==> id !in AllThemes(presets, s.custom)
    ensures r.Err? ==> r.error == UnknownTheme(id)
    ensures r.Ok? ==> r.value.1.version == Some("1.0") && r.value.1.exportedAt == Some(s.store.clock)
    ensures r.Ok? ==> r.value.1.theme == Some(ExportedTheme(AllThemes(presets, s.custom)[id], Some(id)))
    ensures r.Ok? ==> r.value.0 == s.(store := Tick(s.store).0)
  {
    var all := AllThemes(presets, s.custom);
    if id !in all then Err(UnknownTheme(id))
    else
      var (s1, now) := Tick(s.store);
      Ok((s.(store := s1), ExportData(Some("1.0"), Some(now), Some(ExportedTheme(all[id], Some(id))))))
  }

  /** `importTheme(data)`: a custom theme made from the exported one, named "<name> (Imported)". */
  function Imported(presets: map<string, Theme>, s: Registry, data: ExportData): (r: Result<(Registry, string), ThemeError>)
    requires DefaultId in presets
    ensures r.Err? <==> data.theme.None? || data.version.None? || data.version.value == ""
    ensures r.Err? ==> r.error == InvalidExport
    ensures r.Ok? ==> var (s', id) := r.value; var source := data.theme.value;
      id in s'.custom && s'.custom == s.custom[id := s'.custom[id]]
      && (source.id.Some? && source.id.value != "" ==> id == source.id.value)
      && s'.custom[id].name == source.theme.name + " (Imported)"
      && s'.custom[id].kind == OrElse(Some(source.theme.kind), "light")
      && s'.custom[id].sections == Overlay(presets[DefaultId].sections, source.theme.sections)
      && s'.custom[id].custom && s'.current == s.current
  {
    if data.theme.None? || data.version.None? || data.version.value == "" then Err(InvalidExport)
    else
      var source := data.theme.value;
      var (s1, id) := FreshId(s.store, source.id, "imported-");
      var name := source.theme.name + " (Imported)";
      assert OrElse(Some(name), "Custom Theme") == name;
      Ok(ThemeCreated(presets, s.(store := s1), ThemeData(Some(id), Some(name), Some(source.theme.kind), source.theme.sections)))
  }

  /** Importing what `exportTheme(id)` wrote recreates theme `id` as a custom theme: same id,
      same kind, name "<name> (Imported)", and its sections laid over the default theme's. */
  lemma ImportOfExport(presets: map<string, Theme>, s: Registry, id: string)
    requires DefaultId in presets && id in AllThemes(presets, s.custom) && id != ""
    ensures var (s1, doc) := Exported(presets, s, id).value;
      var original := AllThemes(presets, s.custom)[id];
      Imported(presets, s1, doc).Ok? && Imported(presets, s1, doc).value.1 == id
      && var imported := Imported(presets, s1, doc).value.0.custom[id];
      imported.name == original.name + " (Imported)"
      && imported.kind == OrElse(Some(original.kind), "light")
      && imported.sections == Overlay(presets[DefaultId].sections, original.sections)
      && imported.custom
      && AllThemes(presets, Imported(presets, s1, doc).value.0.custom)[id] == imported
  {
  }

  /** A theme whose sections already hold every key of the default theme comes back from a
      round trip through export and import with the very same sections. */
  lemma ImportOfExportKeepsFullSections(presets: map<string, Theme>, s: Registry, id: string)
    requires DefaultId in presets && id in AllThemes(presets, s.custom) && id != ""
    requires var t := AllThemes(presets, s.custom)[id].sections; var d := presets[DefaultId].sections;
      d.colors.Keys <= t.colors.Keys && d.fonts.Keys <= t.fonts.Keys && d.spacing.Keys <= t.spacing.Keys
      && d.borderRadius.Keys <= t.borderRadius.Keys && d.shadows.Keys <= t.shadows.Keys
      && d.animations.Keys <= t.animations.Keys && d.effects.Keys <= t.effects.Keys
    ensures var (s1, doc) := Exported(presets, s, id).value;
      Imported(presets, s1, doc).value.0.custom[id].sections == AllThemes(presets, s.custom)[id].sections
  {
    var t := AllThemes(presets, s.custom)[id].sections;
    var d := presets[DefaultId].sections;
    ImportOfExport(presets, s, id);
    SpreadCovered(d.colors, t.colors);
    SpreadCovered(d.fonts, t.fonts);
    SpreadCovered(d.spacing, t.spacing);
    SpreadCovered(d.borderRadius, t.borderRadius);
    SpreadCovered(d.shadows, t.shadows);
    SpreadCovered(d.animations, t.animations);
    SpreadCovered(d.effects, t.effects);
  }

  lemma SpreadCovered(base: Section, update: Section)
    requires base.Keys <= update.Keys
    ensures base + update == update
  {
    var m := base + update;
    assert m.Keys == update.Keys;
    forall k | k in m ensures m[k] == update[k] {
    }
  }

  // ------------------------------------------------------------- auto theme

  /** The theme for an hour of the day (themeService.js:713-722). */
  function AutoThemeFor(hour: int): (id: string)
    ensures 6 <= hour < 18 <==> id == "app-default"
    ensures 18 <= hour < 22 <==> id == "sunset"
    ensures (hour < 6 || 22 <= hour) <==> id == "dark-professional"
  {
    if 6 <= hour < 18 then DefaultId
    else if 18 <= hour < 22 then "sunset"
    else "dark-professional"
  }

  /** `setAutoTheme(enabled)` at `hour`: the flag is stored and, when on, the hour's theme set. */
  function AutoSet(presets: map<string, Theme>, s: Registry, enabled: bool, hour: int): (r: Registry)
    requires DefaultId in presets
    ensures SettingOf(r.store, AutoThemeKey) == Some(Flag(enabled))
    ensures !enabled ==> r.current == s.current && r.custom == s.custom
    ensures enabled ==> r == ThemeSet(presets, s.(store := WithSetting(s.store, AutoThemeKey, Flag(true))), AutoThemeFor(hour))
  {
    var s1 := s.(store := WithSetting(s.store, AutoThemeKey, Flag(enabled)));
    if enabled then ThemeSet(presets, s1, AutoThemeFor(hour)) else s1
  }

  /** JavaScript truthiness of a stored setting. */
  predicate Truthy(v: Option<Value>)
  {
    match v
    case None => false
    case Some(Flag(b)) => b
    case Some(Text(t)) => t != ""
    case Some(_) => true
  }

  /** The hourly check of `setAutoTheme` (themeService.js:733-747). */
  function AutoChecked(presets: map<string, Theme>, s: Registry, hour: int): (r: Registry)
    requires DefaultId in presets
    ensures !Truthy(SettingOf(s.store, AutoThemeKey)) || AutoThemeFor(hour) == s.current ==> r == s
    ensures Truthy(SettingOf(s.store, AutoThemeKey)) && AutoThemeFor(hour) != s.current ==>
      r == ThemeSet(presets, s, AutoThemeFor(hour))
  {
    if Truthy(SettingOf(s.store, AutoThemeKey)) && AutoThemeFor(hour) != s.current
    then ThemeSet(presets, s, AutoThemeFor(hour))
    else s
  }

  /** With the preset table in place and no custom theme shadowing the night theme, turning the
      automatic theme on at night leaves a dark current theme, and by day a light one. */
  lemma AutoThemeMatchesDaylight(presets: map<string, Theme>, s: Registry, hour: int)
    requires PresetsShaped(presets)
    requires AutoThemeFor(hour) !in s.custom
    ensures var r := AutoSet(presets, s, true, hour);
      (CurrentTheme(presets, r.custom, r.current).kind == "dark" <==> hour < 6 || 22 <= hour)
  {
    var id := AutoThemeFor(hour);
    var r := AutoSet(presets, s, true, hour);
    assert id in presets;
    assert r.current == id;
    assert CurrentTheme(presets, r.custom, r.current) == presets[id];
  }

  // --------------------------------------------------------------- contrast

  /** The position of the first `c` in `s`. */
  function FirstIndexOf(s: string, c: char): (i: nat)
    requires c in s
    ensures i < |s| && s[i] == c && c !in s[..i]
  {
    if s[0] == c then 0
    else
      var i := FirstIndexOf(s[1..], c) + 1;
      assert s[..i] == [s[0]] + s[1..][..i - 1];
      i
  }

  /** `s.replace(c, '')` with a one-character pattern: the first `c` removed. */
  function RemoveFirst(s: string, c: char): (r: string)
    ensures c !in s ==> r == s
    ensures c in s ==> |r| == |s| - 1
    ensures s != [] && s[0] == c ==> r == s[1..]
    ensures c in s ==> r == s[..FirstIndexOf(s, c)] + s[FirstIndexOf(s, c) + 1..]
  {
    if s == [] then []
    else if s[0] == c then s[1..]
    else
      var rest := RemoveFirst(s[1..], c);
      assert c in s ==> c in s[1..];
      assert c in s[1..] ==>
        var i := FirstIndexOf(s[1..], c);
        && FirstIndexOf(s, c) == i + 1
        && [s[0]] + s[1..][..i] == s[..i + 1]
        && s[1..][i + 1..] == s[i + 2..];
      [s[0]] + rest
  }

  /** `s.substr(start, length)` for non-negative arguments. */
  function Substr(s: string, start: nat, length: nat): (r: string)
    ensures |r| <= length
    ensures start + length <= |s| ==> r == s[start..start + length]
  {
    if start >= |s| then [] else if start + length <= |s| then s[start..start + length] else s[start..]
  }

  /** The value of a hexadecimal digit, if `c` is one. */
  function HexDigit(c: char): (r: Option<nat>)
    ensures r.Some? ==> r.value < 16
    ensures r.Some? <==> ('0' <= c <= '9' || 'a' <= c <= 'f' || 'A' <= c <= 'F')
  {
    if '0' <= c <= '9' then Some(c as int - '0' as int)
    else if 'a' <= c <= 'f' then Some(c as int - 'a' as int + 10)
    else if 'A' <= c <= 'F' then Some(c as int - 'A' as int + 10)
    else None
  }

  /** The number of hexadecimal digits `s` starts with. */
  function HexRun(s: string): (n: nat)
    ensures n <= |s|
    ensures forall k :: 0 <= k < n ==> HexDigit(s[k]).Some?
    ensures n < |s| ==> HexDigit(s[n]).None?
  {
    if s != [] && HexDigit(s[0]).Some? then 1 + HexRun(s[1..]) else 0
  }

  /** The number the hexadecimal digits `d` spell, most significant first. */
  function HexValue(d: string): (v: nat)
    requires forall k :: 0 <= k < |d| ==> HexDigit(d[k]).Some?
  {
    if d == [] then 0 else 16 * HexValue(d[..|d| - 1]) + HexDigit(d[|d| - 1]).value
  }

  /** `parseInt(s, 16)` (section 19.2.5 of ECMA-262): leading white space skipped, an optional
      sign, an optional `0x`/`0X`, then the longest run of hexadecimal digits; `None` is `NaN`. */
  function ParseHex(s: string): Option<int>
  {
    var t := TrimStart(s);
    var negative := t != [] && t[0] == '-';
    var u := if t != [] && (t[0] == '-' || t[0] == '+') then t[1..] else t;
    var v := if |u| >= 2 && u[0] == '0' && (u[1] == 'x' || u[1] == 'X') then u[2..] else u;
    var n := HexRun(v);
    if n == 0 then None
    else
      var magnitude: int := HexValue(v[..n]);
      Some(if negative then -magnitude else magnitude)
  }

  /** `getContrastColor(background)` (themeService.js:781-789): black text when the weighted
      brightness `(299 r + 587 g + 114 b) / 1000` exceeds 128, white otherwise; a `NaN`
      channel makes the comparison false. */
  function ContrastColor(background: string): (r: string)
    ensures r == "#000000" || r == "#ffffff"
  {
    var hex := RemoveFirst(background, '#');
    var red, green, blue := ParseHex(Substr(hex, 0, 2)), ParseHex(Substr(hex, 2, 2)), ParseHex(Substr(hex, 4, 2));
    if red.Some? && green.Some? && blue.Some? && 299 * red.value + 587 * green.value + 114 * blue.value > 128000
    then "#000000" else "#ffffff"
  }

  /** `s` is six hexadecimal digits. */
  predicate IsHex6(s: string)
  {
    |s| == 6 && forall k :: 0 <= k < 6 ==> HexDigit(s[k]).Some?
  }

  /** A pair of hexadecimal digits parses to its value, between 0 and 255. */
  lemma ParseHexPair(p: string)
    requires |p| == 2 && HexDigit(p[0]).Some? && HexDigit(p[1]).Some?
    ensures ParseHex(p) == Some(HexValue(p)) && HexValue(p) < 256
  {
    assert !IsSpace(p[0]);
    assert TrimStart(p) == p;
    assert HexRun(p[1..]) == 1 by {
      assert p[1..][1..] == [];
    }
    assert p[..2] == p;
    assert p[..1] == [p[0]];
    assert HexValue([p[0]]) == HexDigit(p[0]).value by {
      assert [p[0]][..0] == [];
    }
  }

  /** For a colour written `#rrggbb`, the text is black exactly when the weighted brightness of
      the three channels exceeds 128, and each channel is a byte. */
  lemma ContrastOfHexColor(hex: string)
    requires IsHex6(hex)
    ensures var r, g, b := HexValue(hex[0..2]), HexValue(hex[2..4]), HexValue(hex[4..6]);
      r < 256 && g < 256 && b < 256
      && (ContrastColor("#" + hex) == "#000000" <==> 299 * r + 587 * g + 114 * b > 128000)
  {
    assert RemoveFirst("#" + hex, '#') == hex by {
      assert ("#" + hex)[1..] == hex;
    }
    assert Substr(hex, 0, 2) == hex[0..2] && Substr(hex, 2, 2) == hex[2..4] && Substr(hex, 4, 2) == hex[4..6];
    ParseHexPair(hex[0..2]);
    ParseHexPair(hex[2..4]);
    ParseHexPair(hex[4..6]);
  }

  /** A background with no hexadecimal digit after the `#` always gets white text. */
  lemma NoDigitsMeansWhite(background: string)
    requires forall k :: 0 <= k < |background| ==> HexDigit(background[k]).None?
    ensures ContrastColor(background) == "#ffffff"
  {
    var hex := RemoveFirst(background, '#');
    NoDigitsAfterRemoval(background);
    NoDigitsParse(Substr(hex, 0, 2));
  }

  lemma {:induction false} NoDigitsAfterRemoval(s: string)
    requires forall k :: 0 <= k < |s| ==> HexDigit(s[k]).None?
    ensures forall k :: 0 <= k < |RemoveFirst(s, '#')| ==> HexDigit(RemoveFirst(s, '#')[k]).None?
  {
    if s != [] && s[0] != '#' {
      NoDigitsAfterRemoval(s[1..]);
      var rest := RemoveFirst(s[1..], '#');
      assert RemoveFirst(s, '#') == [s[0]] + rest;
    }
  }

  lemma NoDigitsParse(p: string)
    requires forall k :: 0 <= k < |p| ==> HexDigit(p[k]).None?
    ensures ParseHex(p).None?
  {
    var t := TrimStart(p);
    forall k | 0 <= k < |t|
      ensures HexDigit(t[k]).None?
    {
      assert t[k] == p[|p| - |t| + k];
    }
  }

  // ------------------------------------------------------------------ object

  /** The `ThemeService` singleton. */
  class ThemeService {
    const presets: map<string, Theme>
    const db: Database
    var customThemes: map<string, Theme>
    var currentTheme: string

    function State(): Registry
      reads this, db
    {
      Registry(customThemes, currentTheme, db.State())
    }

    /** The constructor and `initialize` (themeService.js:5-33) on a working store:
        the persisted themes are loaded. */
    constructor (db: Database, presets: map<string, Theme>)
      requires PresetsShaped(presets)
      ensures this.db == db && this.presets == presets
      ensures State() == Loaded(db.State())
    {
      this.db := db;
      this.presets := presets;
      var r := Loaded(db.State());
      customThemes := r.custom;
      currentTheme := r.current;
    }

    function GetAllThemes(): (r: map<string, Theme>)
      reads this
      ensures r.Keys == presets.Keys + customThemes.Keys
      ensures forall id :: id in customThemes ==> r[id] == customThemes[id]
    {
      AllThemes(presets, customThemes)
    }

    function GetCurrentTheme(): (t: Theme)
      reads this
      requires DefaultId in presets
      ensures t == CurrentTheme(presets, customThemes, currentTheme)
    {
      var all := GetAllThemes();
      if currentTheme in all then all[currentTheme] else all[DefaultId]
    }

    function IsCurrentThemeDark(): (r: bool)
      reads this
      requires DefaultId in presets
      ensures r <==> CurrentTheme(presets, customThemes, currentTheme).kind == "dark"
    {
      GetCurrentTheme().kind == "dark"
    }

    method SetTheme(id: string)
      requires DefaultId in presets
      modifies this`currentTheme, db
      ensures State() == ThemeSet(presets, old(State()), id)
    {
      var themeId := id;
      if themeId !in GetAllThemes() {
        themeId := DefaultId;
      }
      currentTheme := themeId;
      db.SetSetting(CurrentThemeKey, Text(themeId));
    }

    /** `saveCustomThemes` (themeService.js:578-584). */
    method SaveCustomThemes()
      modifies db
      ensures db.State() == WithSetting(old(db.State()), CustomThemesKey, Themes(customThemes))
    {
      db.SetSetting(CustomThemesKey, Themes(customThemes));
    }

    method CreateCustomTheme(data: ThemeData) returns (id: string)
      requires DefaultId in presets
      modifies this`customThemes, db
      ensures (State(), id) == ThemeCreated(presets, old(State()), data)
    {
      if data.id.Some? && data.id.value != "" {
        id := data.id.value;
      } else {
        var t := db.Now();
        id := "custom-" + NatToString(t);
      }
      var now := db.Now();
      var theme := Theme(OrElse(data.name, "Custom Theme"), OrElse(data.kind, "light"),
                         Overlay(presets[DefaultId].sections, data.sections), true, Some(now), None);
      customThemes := customThemes[id := theme];
      SaveCustomThemes();
    }

    method UpdateCustomTheme(id: string, updates: ThemeUpdate) returns (r: Result<Theme, ThemeError>)
      modifies this`customThemes, db
      ensures ThemeUpdated(old(State()), id, updates).Err? ==>
        r == Err(NotCustom(id)) && State() == old(State())
      ensures ThemeUpdated(old(State()), id, updates).Ok? ==>
        r == Ok(ThemeUpdated(old(State()), id, updates).value.1)
        && State() == ThemeUpdated(old(State()), id, updates).value.0
    {
      if id !in customThemes {
        return Err(NotCustom(id));
      }
      var existing := customThemes[id];
      var now := db.Now();
      var theme := Theme(Override(updates.name, existing.name), Override(updates.kind, existing.kind),
                         Overlay(existing.sections, updates.sections), Override(updates.custom, existing.custom),
                         if updates.createdAt.Some? then updates.createdAt else existing.createdAt, Some(now));
      customThemes := customThemes[id := theme];
      SaveCustomThemes();
      r := Ok(theme);
    }

    method DeleteCustomTheme(id: string) returns (r: Result<bool, ThemeError>)
      requires DefaultId in presets
      modifies this`customThemes, this`currentTheme, db
      ensures ThemeDeleted(presets, old(State()), id).Err? ==>
        r == Err(NotCustom(id)) && State() == old(State())
      ensures ThemeDeleted(presets, old(State()), id).Ok? ==>
        r == Ok(true) && State() == ThemeDeleted(presets, old(State()), id).value
    {
      if id !in customThemes {
        return Err(NotCustom(id));
      }
      customThemes := customThemes - {id};
      SaveCustomThemes();
      if currentTheme == id {
        SetTheme(DefaultId);
      }
      r := Ok(true);
    }

    method DuplicateTheme(source: string, newName: Option<string>) returns (r: Result<string, ThemeError>)
      requires DefaultId in presets
      modifies this`customThemes, db
      ensures Duplicated(presets, old(State()), source, newName).Err? ==>
        r == Err(UnknownTheme(source)) && State() == old(State())
      ensures Duplicated(presets, old(State()), source, newName).Ok? ==>
        r == Ok(Duplicated(presets, old(State()), source, newName).value.1)
        && State() == Duplicated(presets, old(State()), source, newName).value.0
    {
      var all := GetAllThemes();
      if source !in all {
        return Err(UnknownTheme(source));
      }
      var original := all[source];
      var _ := db.Now();
      var id := CreateCustomTheme(ThemeData(None, Some(OrElse(newName, original.name + " Copy")),
                                            Some(original.kind), original.sections));
      r := Ok(id);
    }

    method ExportTheme(id: string) returns (r: Result<ExportData, ThemeError>)
      modifies db
      ensures Exported(presets, old(State()), id).Err? ==>
        r == Err(UnknownTheme(id)) && State() == old(State())
      ensures Exported(presets, old(State()), id).Ok? ==>
        r == Ok(Exported(presets, old(State()), id).value.1)
        && State() == Exported(presets, old(State()), id).value.0
    {
      var all := GetAllThemes();
      if id !in all {
        return Err(UnknownTheme(id));
      }
      var now := db.Now();
      r := Ok(ExportData(Some("1.0"), Some(now), Some(ExportedTheme(all[id], Some(id)))));
    }

    method ImportTheme(data: ExportData) returns (r: Result<string, ThemeError>)
      requires DefaultId in presets
      modifies this`customThemes, db
      ensures Imported(presets, old(State()), data).Err? ==>
        r == Err(InvalidExport) && State() == old(State())
      ensures Imported(presets, old(State()), data).Ok? ==>
        r == Ok(Imported(presets, old(State()), data).value.1)
        && State() == Imported(presets, old(State()), data).value.0
    {
      if data.theme.None? || data.version.None? || data.version.value == "" {
        return Err(InvalidExport);
      }
      var source := data.theme.value;
      var id: string;
      if source.id.Some? && source.id.value != "" {
        id := source.id.value;
      } else {
        var t := db.Now();
        id := "imported-" + NatToString(t);
      }
      var created := CreateCustomTheme(ThemeData(Some(id), Some(source.theme.name + " (Imported)"),
                                                 Some(source.theme.kind), source.theme.sections));
      r := Ok(created);
    }

    /** `setAutoTheme(enabled)`; `hour` is `new Date().getHours()`. */
    method SetAutoTheme(enabled: bool, hour: int)
      requires DefaultId in presets
      modifies this`currentTheme, db
      ensures State() == AutoSet(presets, old(State()), enabled, hour)
    {
      db.SetSetting(AutoThemeKey, Flag(enabled));
      if enabled {
        SetTheme(AutoThemeFor(hour));
      }
    }

    /** One run of the hourly timer that `setAutoTheme(true)` installs. */
    method AutoThemeCheck(hour: int)
      requires DefaultId in presets
      modifies this`currentTheme, db
      ensures State() == AutoChecked(presets, old(State()), hour)
    {
      if Truthy(db.GetSetting(AutoThemeKey)) {
        var id := AutoThemeFor(hour);
        if id != currentTheme {
          SetTheme(id);
        }
      }
    }
  }
}
