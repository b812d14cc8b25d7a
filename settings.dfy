/** The run-time settings of the generator: what `getSettings` derives from
    the parsed command line (src/settings.js) and what index.js assigns to
    its module-level `settings` object. */
module Settings {
  import opened Common

  /** The command-line values the settings read, after argument parsing.
      A value given on the command line is `Some`; an absent one `None`. */
  datatype Argv = Argv(
    config: Option<string>,
    splash: Option<string>,
    ios: bool,
    android: bool,
    patch9: bool,
    patch9Width: Option<real>,
    patch9Height: Option<real>,
    updateConfig: bool,
    xcodeOld: bool)

  datatype Settings = Settings(
    configFile: string,
    splashFile: string,
    ios: bool,
    android: bool,
    allPlatforms: bool,
    patch9: bool,
    patch9Width: real,
    patch9Height: real,
    updateConfigResources: bool,
    oldXcodePath: bool)

  const DefaultConfigFile := "config.xml"
  const DefaultSplashFile := "splash.png"
  const DefaultPatchFraction := 0.25

  /** A command line with no options at all. */
  const NoArguments := Argv(None, None, false, false, false, None, None, false, false)

  /** JavaScript's `value || fallback` for a string option: the empty
      string is falsy. */
  function StringOr(value: Option<string>, fallback: string): (r: string)
    ensures value.Some? && value.value != "" ==> r == value.value
    ensures value.None? || value.value == "" ==> r == fallback
  {
    if value.Some? && value.value != "" then value.value else fallback
  }

  /** `parseFloat(value || fallback)` for a numeric option: zero is falsy, so
      an explicit 0 falls back as well. */
  function FractionOr(value: Option<real>, fallback: real): (r: real)
    ensures value.Some? && value.value != 0.0 ==> r == value.value
    ensures value.None? || value.value == 0.0 ==> r == fallback
  {
    if value.Some? && value.value != 0.0 then value.value else fallback
  }

  /** The settings object built from the command line. */
  function GetSettings(argv: Argv): (s: Settings)
    ensures s.allPlatforms <==> !s.ios && !s.android
    ensures s.ios == argv.ios && s.android == argv.android
    ensures s.configFile != "" && s.splashFile != ""
    ensures s.patch9Width != 0.0 && s.patch9Height != 0.0
    ensures s.patch9 == argv.patch9 && s.updateConfigResources == argv.updateConfig && s.oldXcodePath == argv.xcodeOld
    ensures argv.config.Some? && argv.config.value != "" ==> s.configFile == argv.config.value
    ensures argv.config.None? || argv.config.value == "" ==> s.configFile == DefaultConfigFile
    ensures argv.splash.Some? && argv.splash.value != "" ==> s.splashFile == argv.splash.value
    ensures argv.splash.None? || argv.splash.value == "" ==> s.splashFile == DefaultSplashFile
    ensures argv.patch9Width.Some? && argv.patch9Width.value != 0.0 ==> s.patch9Width == argv.patch9Width.value
    ensures argv.patch9Width.None? || argv.patch9Width.value == 0.0 ==> s.patch9Width == DefaultPatchFraction
    ensures argv.patch9Height.Some? && argv.patch9Height.value != 0.0 ==> s.patch9Height == argv.patch9Height.value
    ensures argv.patch9Height.None? || argv.patch9Height.value == 0.0 ==> s.patch9Height == DefaultPatchFraction
  {
    var ios := argv.ios;
    var android := argv.android;
    Settings(
      configFile := StringOr(argv.config, DefaultConfigFile),
      splashFile := StringOr(argv.splash, DefaultSplashFile),
      ios := ios,
      android := android,
      allPlatforms := !ios && !android,
      patch9 := argv.patch9,
      patch9Width := FractionOr(argv.patch9Width, DefaultPatchFraction),
      patch9Height := FractionOr(argv.patch9Height, DefaultPatchFraction),
      updateConfigResources := argv.updateConfig,
      oldXcodePath := argv.xcodeOld)
  }

  /** With no arguments every option takes its documented default. */
  lemma DefaultSettings()
    ensures var s := GetSettings(NoArguments);
      && s.configFile == "config.xml" && s.splashFile == "splash.png"
      && s.allPlatforms && !s.ios && !s.android && !s.patch9
      && s.patch9Width == 0.25 && s.patch9Height == 0.25
      && !s.updateConfigResources && !s.oldXcodePath
  {
  }

  /** A stretch fraction of zero cannot be requested: it is falsy and the
      default replaces it. */
  lemma ZeroFractionFallsBack(argv: Argv)
    requires argv.patch9Width == Some(0.0) || argv.patch9Height == Some(0.0)
    ensures argv.patch9Width == Some(0.0) ==> GetSettings(argv).patch9Width == 0.25
    ensures argv.patch9Height == Some(0.0) ==> GetSettings(argv).patch9Height == 0.25
  {
  }
}
