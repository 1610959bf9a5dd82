/** SettingsView.swift: the app theme and how its stored raw value is read back; and the
    colour-scheme selection of DevNotesApp.swift, which reads the same stored value. */
module Appearance {
  import opened Wrappers

  /** SwiftUI's `ColorScheme`. */
  datatype ColorScheme = LightScheme | DarkScheme

  datatype AppTheme = System | Light | Dark {
    /** The raw values are the Turkish names shown in the picker. */
    function RawValue(): string {
      match this
      case System => "Sistem"
      case Light => "A\U{00E7}\U{0131}k"
      case Dark => "Koyu"
    }

    /** `Identifiable`: the raw value is the id. */
    function Id(): string {
      RawValue()
    }

    /** The SF Symbol shown for the theme. */
    function Icon(): string {
      match this
      case System => "gearshape"
      case Light => "sun.max.fill"
      case Dark => "moon.fill"
    }

    /** `colorScheme`: the system theme forces no scheme. */
    function Scheme(): (r: Option<ColorScheme>)
      ensures r.None? <==> this == System
      ensures this == Light ==> r == Some(LightScheme)
      ensures this == Dark ==> r == Some(DarkScheme)
    {
      match this
      case System => None
      case Light => Some(LightScheme)
      case Dark => Some(DarkScheme)
    }
  }

  /** `CaseIterable.allCases`. */
  const AllThemes: seq<AppTheme> := [System, Light, Dark]

  /** `AppTheme(rawValue:)`: the theme whose raw value is `raw`, if any. */
  function FromRawValue(raw: string): (r: Option<AppTheme>)
    ensures r.Some? ==> r.value.RawValue() == raw
    ensures r.None? <==> forall t: AppTheme :: t.RawValue() != raw
  {
    if raw == System.RawValue() then Some(System)
    else if raw == Light.RawValue() then Some(Light)
    else if raw == Dark.RawValue() then Some(Dark)
    else None
  }

  /** Parsing a theme's raw value gives back that theme. */
  lemma RawValueRoundTrip(t: AppTheme)
    ensures FromRawValue(t.RawValue()) == Some(t)
  {
  }

  /** `allCases` lists every theme once. */
  lemma AllThemesComplete(t: AppTheme)
    ensures t in AllThemes
    ensures forall i, j :: 0 <= i < j < |AllThemes| ==> AllThemes[i] != AllThemes[j]
  {
  }

  /** Distinct themes have distinct ids, as `Identifiable` requires. */
  lemma IdsUnique(a: AppTheme, b: AppTheme)
    ensures a.Id() == b.Id() ==> a == b
  {
    RawValueRoundTrip(a);
    RawValueRoundTrip(b);
  }

  /** Distinct themes have distinct icons. */
  lemma IconsDistinct(a: AppTheme, b: AppTheme)
    ensures a != b ==> a.Icon() != b.Icon()
  {
  }

  /** `selectedTheme`: the stored raw value parsed, `.system` when it names no
      theme. */
  function SelectedTheme(raw: string): (t: AppTheme)
    ensures FromRawValue(raw).Some? ==> t == FromRawValue(raw).value
    ensures (forall u: AppTheme :: u.RawValue() != raw) ==> t == System
  {
    FromRawValue(raw).GetOr(System)
  }

  /** Choosing a theme in the picker stores its raw value; reading it back gives the
      chosen theme. */
  lemma SelectThenRead(t: AppTheme)
    ensures SelectedTheme(t.RawValue()) == t
  {
    RawValueRoundTrip(t);
  }

  /** DevNotesApp's `selectedTheme`: light and dark force their scheme, anything else
      (the system theme or an unrecognised value) forces none. */
  function AppColorScheme(raw: string): (r: Option<ColorScheme>)
    ensures r == Some(LightScheme) <==> FromRawValue(raw) == Some(Light)
    ensures r == Some(DarkScheme) <==> FromRawValue(raw) == Some(Dark)
  {
    match FromRawValue(raw)
    case Some(Light) => Some(LightScheme)
    case Some(Dark) => Some(DarkScheme)
    case _ => None
  }

  /** The app applies exactly the scheme of the theme the settings screen shows. */
  lemma AppAgreesWithSettings(raw: string)
    ensures AppColorScheme(raw) == SelectedTheme(raw).Scheme()
  {
  }
}
