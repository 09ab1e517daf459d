/** `getThemeColors`: the appearance profile the charts are styled with,
    chosen from the theme reported by the host UI. */
module Theme {
  import opened Wrappers

  /** Background fill, series stroke, label text and grid stroke colours. */
  datatype Profile = Profile(background: string, line: string, text: string, grid: string)

  const DarkProfile: Profile :=
    Profile("rgba(2, 8, 23)", "rgba(0, 255, 0, 0.8)", "#ffffff", "#333333")

  const LightProfile: Profile :=
    Profile("rgba(255, 255, 255)", "rgba(0, 100, 0, 0.8)", "#000000", "#cccccc")

  /** The theme is `undefined` (`None`) until the host UI has resolved it.
      Only the exact string "dark" selects the dark profile; every other
      value, `undefined` included, selects the light one. */
  function ThemeColors(theme: Option<string>): (r: Profile)
    ensures r == DarkProfile <==> theme == Some("dark")
    ensures r == LightProfile <==> theme != Some("dark")
  {
    if theme == Some("dark") then DarkProfile else LightProfile
  }

  /** Switching the theme away and back restores the same profile, and two
      themes give the same profile exactly when both or neither are "dark". */
  lemma ThemeRoundTrip(t: Option<string>, u: Option<string>)
    ensures ThemeColors(t) == ThemeColors(u) <==> (t == Some("dark") <==> u == Some("dark"))
  {
  }
}
