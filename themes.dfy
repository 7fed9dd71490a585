/** The theme table and the three functions that resolve a theme name and a
    dark-mode flag to one of its entries and return its palette, its six ball
    colours or its fireworks colours. The App component does not call these;
    it builds its own palette and hard-codes its own colour lists. */
module Themes {

  import opened Wrappers

  datatype Background = Background(default: string, paper: string)

  datatype TextColors = TextColors(primary: string, secondary: string)

  /** One entry of the theme table. */
  datatype ThemeDefinition = ThemeDefinition(
    name: string,
    displayName: string,
    primary: string,
    secondary: string,
    background: Background,
    text: TextColors,
    ballColors: seq<string>,
    fireworksColors: seq<string>,
    gradientColors: Option<seq<string>>)

  datatype PaletteMode = Light | Dark

  /** The palette part of the options handed to the UI library's theme
      constructor. */
  datatype Palette = Palette(
    mode: PaletteMode,
    primaryMain: string,
    secondaryMain: string,
    background: Background,
    text: TextColors)

  const NormalTheme := ThemeDefinition(
    "normal", "Normal", "#3f51b5", "#f50057",
    Background("#f5f5f5", "#ffffff"),
    TextColors("#121212", "#6c757d"),
    ["#ff5252", "#ff4081", "#9c27b0", "#673ab7", "#3f51b5", "#2196f3"],
    ["#ff5252", "#ff4081", "#9c27b0", "#673ab7", "#3f51b5", "#2196f3",
     "#ffeb3b", "#ff9800", "#76ff03", "#f44336", "#e91e63", "#2196f3",
     "#00bcd4", "#009688", "#4caf50", "#cddc39", "#ffc107", "#ff5722"],
    None)

  const NormalDarkTheme := ThemeDefinition(
    "normalDark", "Normal Dark", "#5c6bc0", "#ff4081",
    Background("#121212", "#1e1e1e"),
    TextColors("#ffffff", "#b0b0b0"),
    ["#ff5252", "#ff4081", "#9c27b0", "#673ab7", "#3f51b5", "#2196f3"],
    ["#ff5252", "#ff4081", "#9c27b0", "#673ab7", "#3f51b5", "#2196f3",
     "#ffeb3b", "#ff9800", "#76ff03", "#f44336", "#e91e63", "#2196f3",
     "#00bcd4", "#009688", "#4caf50", "#cddc39", "#ffc107", "#ff5722"],
    None)

  const SynthwaveTheme := ThemeDefinition(
    "synthwave", "Synthwave", "#ff0099", "#00ffff",
    Background("#1a1a2e", "#16213e"),
    TextColors("#ffffff", "#e4007c"),
    ["#ff0099", "#00ffff", "#fc8bff", "#bf00ff", "#0500ff", "#14ffec"],
    ["#ff0099", "#00ffff", "#fc8bff", "#bf00ff", "#14ffec", "#0500ff",
     "#0affdb", "#0affe6", "#ff71ce", "#01cdfe", "#05ffa1", "#b967ff"],
    Some(["#ff0099", "#00ffff", "#b967ff", "#05ffa1"]))

  const CyberpunkTheme := ThemeDefinition(
    "cyberpunk", "Cyberpunk", "#fcee09", "#00ff9f",
    Background("#141010", "#240c48"),
    TextColors("#ffffff", "#fcee09"),
    ["#00ff9f", "#fcee09", "#ff003c", "#700353", "#32004a", "#f7137a"],
    ["#00ff9f", "#fcee09", "#ff003c", "#fb7dff", "#0affc1", "#f7137a",
     "#00ff9f", "#ff00a0", "#00ffff", "#ffff00", "#da00ff", "#00ffcc"],
    Some(["#00ff9f", "#fcee09", "#ff003c", "#fb7dff"]))

  const RainbowTheme := ThemeDefinition(
    "rainbow", "Rainbow", "#ff0000", "#00ff00",
    Background("#ffffff", "#ffffff"),
    TextColors("#000000", "#444444"),
    ["#ff0000", "#ff7f00", "#ffff00", "#00ff00", "#0000ff", "#8b00ff"],
    ["#ff0000", "#ff7f00", "#ffff00", "#00ff00", "#0000ff", "#4b0082", "#8b00ff",
     "#ff0000", "#ff7f00", "#ffff00", "#00ff00", "#0000ff", "#4b0082", "#8b00ff"],
    Some(["#ff0000", "#ff7f00", "#ffff00", "#00ff00", "#0000ff", "#8b00ff"]))

  /** The theme table, keyed by theme name. */
  const Table: map<string, ThemeDefinition> := map[
    "normal" := NormalTheme,
    "normalDark" := NormalDarkTheme,
    "synthwave" := SynthwaveTheme,
    "cyberpunk" := CyberpunkTheme,
    "rainbow" := RainbowTheme]

  /** Every entry is stored under its own name, has six ball colours and at
      least one fireworks colour. */
  predicate WellFormedEntry(key: string, t: ThemeDefinition) {
    t.name == key && |t.ballColors| == 6 && |t.fireworksColors| > 0
  }

  /** The table holds exactly the five themes, each well formed. */
  lemma TableWellFormed()
    ensures forall key :: key in Table ==> WellFormedEntry(key, Table[key])
    ensures Table.Keys == {"normal", "normalDark", "synthwave", "cyberpunk", "rainbow"}
  {
  }

  /** The key looked up: `normal` in dark mode becomes `normalDark`; any other
      name is looked up as given. */
  function LookupKey(themeName: string, isDarkMode: bool): string {
    if isDarkMode && themeName == "normal" then "normalDark" else themeName
  }

  /** The table entry a (name, dark-mode) pair resolves to, falling back to the
      light `normal` entry when the looked-up key is not in the table. */
  function Resolve(themeName: string, isDarkMode: bool): (t: ThemeDefinition)
    ensures t.name in Table && Table[t.name] == t
    ensures t.name == (if isDarkMode && themeName == "normal" then "normalDark"
                       else if themeName in Table then themeName
                       else "normal")
  {
    var key := LookupKey(themeName, isDarkMode);
    if key in Table then Table[key] else NormalTheme
  }

  /** The palette of the theme options for (name, dark mode): dark exactly
      when dark mode is on or the theme is one of the two dark-only themes,
      with the colours of the resolved entry. */
  function GetThemeOptions(themeName: string, isDarkMode: bool): (p: Palette)
    ensures p.mode == Dark <==> (isDarkMode || themeName == "synthwave" || themeName == "cyberpunk")
    ensures p.primaryMain == Resolve(themeName, isDarkMode).primary
    ensures p.secondaryMain == Resolve(themeName, isDarkMode).secondary
    ensures p.background == Resolve(themeName, isDarkMode).background
    ensures p.text == Resolve(themeName, isDarkMode).text
  {
    var t := Resolve(themeName, isDarkMode);
    var mode := if isDarkMode || themeName in ["synthwave", "cyberpunk"] then Dark else Light;
    Palette(mode, t.primary, t.secondary, t.background, t.text)
  }

  /** The six ball colours of the resolved theme. */
  function GetBallColors(themeName: string, isDarkMode: bool): (colors: seq<string>)
    ensures |colors| == 6
    ensures colors == Resolve(themeName, isDarkMode).ballColors
  {
    Resolve(themeName, isDarkMode).ballColors
  }

  /** The fireworks colours of the resolved theme. */
  function GetFireworksColors(themeName: string, isDarkMode: bool): (colors: seq<string>)
    ensures |colors| > 0
    ensures colors == Resolve(themeName, isDarkMode).fireworksColors
  {
    Resolve(themeName, isDarkMode).fireworksColors
  }

  /** In dark mode `normal` resolves to the `normalDark` entry, in all three
      functions. */
  lemma DarkNormalIsNormalDark()
    ensures Resolve("normal", true) == NormalDarkTheme
    ensures GetThemeOptions("normal", true) ==
              Palette(Dark, "#5c6bc0", "#ff4081", Background("#121212", "#1e1e1e"), TextColors("#ffffff", "#b0b0b0"))
    ensures GetBallColors("normal", true) == NormalDarkTheme.ballColors
    ensures GetFireworksColors("normal", true) == NormalDarkTheme.fireworksColors
  {
  }

  /** For every name other than `normal`, the dark-mode flag does not change
      which entry is chosen. */
  lemma DarkModeOnlyAffectsNormal(themeName: string)
    requires themeName != "normal"
    ensures Resolve(themeName, true) == Resolve(themeName, false)
    ensures GetBallColors(themeName, true) == GetBallColors(themeName, false)
    ensures GetFireworksColors(themeName, true) == GetFireworksColors(themeName, false)
    ensures GetThemeOptions(themeName, true).primaryMain == GetThemeOptions(themeName, false).primaryMain
    ensures GetThemeOptions(themeName, true).secondaryMain == GetThemeOptions(themeName, false).secondaryMain
    ensures GetThemeOptions(themeName, true).background == GetThemeOptions(themeName, false).background
    ensures GetThemeOptions(themeName, true).text == GetThemeOptions(themeName, false).text
  {
  }

  /** A name not in the table resolves to the light `normal` entry, even in
      dark mode. */
  lemma UnknownNameFallsBackToNormal(themeName: string, isDarkMode: bool)
    requires themeName !in Table
    ensures Resolve(themeName, isDarkMode) == NormalTheme
    ensures GetBallColors(themeName, isDarkMode) == NormalTheme.ballColors
    ensures GetFireworksColors(themeName, isDarkMode) == NormalTheme.fireworksColors
    ensures GetThemeOptions(themeName, isDarkMode).primaryMain == NormalTheme.primary
  {
  }

  /** The three functions agree on the entry: palette colours, ball colours
      and fireworks colours all come from the same table entry. */
  lemma SameEntryForAllThree(themeName: string, isDarkMode: bool)
    ensures var key := Resolve(themeName, isDarkMode).name;
      key in Table &&
      GetThemeOptions(themeName, isDarkMode).primaryMain == Table[key].primary &&
      GetThemeOptions(themeName, isDarkMode).secondaryMain == Table[key].secondary &&
      GetThemeOptions(themeName, isDarkMode).background == Table[key].background &&
      GetThemeOptions(themeName, isDarkMode).text == Table[key].text &&
      GetBallColors(themeName, isDarkMode) == Table[key].ballColors &&
      GetFireworksColors(themeName, isDarkMode) == Table[key].fireworksColors
  {
  }
}
