/** `getPlatforms` and the `isAdded` filter of `generateSplashes`: the
    ordered list of platforms to generate splash screens for. */
module PlatformSelector {
  import opened Common
  import opened Settings
  import opened Catalog

  /** One platform target. `splash` is `None` where the original holds
      `undefined`: the config has no entry for the platform. */
  datatype Platform = Platform(name: string, isAdded: bool, splashPath: string, splash: Option<seq<SplashSpec>>)

  /** Whether `platforms/ios`, `platforms/android` and `platforms/windows`
      exist in the project directory. */
  datatype Installed = Installed(ios: bool, android: bool, windows: bool)

  const XcassetsFolder := "/Images.xcassets/LaunchImage.launchimage/"
  const OldXcodeFolder := "/Resources/splash/"
  const AndroidPath := "platforms/android/res/"
  const WindowsPath := "platforms/windows/images/"

  function XcodeFolder(oldXcodePath: bool): string {
    if oldXcodePath then OldXcodeFolder else XcassetsFolder
  }

  predicate IncludesIos(s: Settings) { s.allPlatforms || s.ios }

  predicate IncludesAndroid(s: Settings) { s.allPlatforms || s.android }

  function IosTarget(s: Settings, projectName: string, config: map<string, seq<SplashSpec>>, installed: Installed): Platform {
    if s.updateConfigResources then Platform("ios", installed.ios, "", Get(config, "ios"))
    else Platform("ios", installed.ios, "platforms/ios/" + projectName + XcodeFolder(s.oldXcodePath), Some(IosCatalog()))
  }

  function AndroidTarget(s: Settings, config: map<string, seq<SplashSpec>>, installed: Installed): Platform {
    if s.updateConfigResources then Platform("android", installed.android, "", Get(config, "android"))
    else Platform("android", installed.android, AndroidPath, Some(AndroidCatalog()))
  }

  function WindowsTarget(installed: Installed): Platform {
    Platform("windows", installed.windows, WindowsPath, Some(WindowsCatalog()))
  }

  /** The target list: iOS and Android when enabled, Windows always, in that
      order. */
  function SelectTargets(s: Settings, projectName: string, config: map<string, seq<SplashSpec>>, installed: Installed): seq<Platform> {
    (if IncludesIos(s) then [IosTarget(s, projectName, config, installed)] else [])
    + (if IncludesAndroid(s) then [AndroidTarget(s, config, installed)] else [])
    + [WindowsTarget(installed)]
  }

  method GetPlatforms(settings: Settings, projectName: string, configPlatforms: map<string, seq<SplashSpec>>, installed: Installed)
    returns (platforms: seq<Platform>)
    ensures platforms == SelectTargets(settings, projectName, configPlatforms, installed)
  {
    platforms := [];
    var xcodeFolder := XcassetsFolder;
    if settings.oldXcodePath {
      xcodeFolder := OldXcodeFolder;
    }
    var platform: Platform;
    if settings.allPlatforms || settings.ios {
      platform := Platform("ios", installed.ios, "platforms/ios/" + projectName + xcodeFolder, Some(IosCatalog()));
      if settings.updateConfigResources {
        platform := platform.(splashPath := "", splash := Get(configPlatforms, "ios"));
      }
      platforms := platforms + [platform];
    }
    if settings.allPlatforms || settings.android {
      platform := Platform("android", installed.android, AndroidPath, Some(AndroidCatalog()));
      if settings.updateConfigResources {
        platform := platform.(splashPath := "", splash := Get(configPlatforms, "android"));
      }
      platforms := platforms + [platform];
    }
    platforms := platforms + [Platform("windows", installed.windows, WindowsPath, Some(WindowsCatalog()))];
  }

  function Names(ps: seq<Platform>): (r: seq<string>)
    ensures |r| == |ps| && forall i :: 0 <= i < |ps| ==> r[i] == ps[i].name
  {
    seq(|ps|, i requires 0 <= i < |ps| => ps[i].name)
  }

  /** The target names are, in order, "ios" when enabled, "android" when
      enabled, and "windows" last in every case. */
  lemma TargetOrder(s: Settings, projectName: string, config: map<string, seq<SplashSpec>>, installed: Installed)
    ensures var ts := SelectTargets(s, projectName, config, installed);
      && Names(ts) == (if IncludesIos(s) then ["ios"] else []) + (if IncludesAndroid(s) then ["android"] else []) + ["windows"]
      && ts[|ts| - 1] == WindowsTarget(installed)
  {
    var ts := SelectTargets(s, projectName, config, installed);
    assert Names(ts) == (if IncludesIos(s) then ["ios"] else []) + (if IncludesAndroid(s) then ["android"] else []) + ["windows"];
  }

  /** Each target's presence flag is the existence of its platform
      directory, and its spec list comes from the catalog unless the
      update-config flag is set, in which case iOS and Android take exactly
      the config's entry (absent when the config has none) and an empty
      output path; Windows never changes. */
  lemma TargetSources(s: Settings, projectName: string, config: map<string, seq<SplashSpec>>, installed: Installed, t: Platform)
    requires t in SelectTargets(s, projectName, config, installed)
    ensures t.name == "ios" ==> t.isAdded == installed.ios
    ensures t.name == "android" ==> t.isAdded == installed.android
    ensures t.name == "windows" ==> t == Platform("windows", installed.windows, "platforms/windows/images/", Some(WindowsCatalog()))
    ensures t.name != "windows" && s.updateConfigResources ==>
      t.splashPath == "" && (t.splash.Some? <==> t.name in config) && (t.splash.Some? ==> t.splash.value == config[t.name])
    ensures t.name == "ios" && !s.updateConfigResources ==>
      t.splash == Some(IosCatalog()) &&
      t.splashPath == "platforms/ios/" + projectName + (if s.oldXcodePath then "/Resources/splash/" else "/Images.xcassets/LaunchImage.launchimage/")
    ensures t.name == "android" && !s.updateConfigResources ==>
      t.splash == Some(AndroidCatalog()) && t.splashPath == "platforms/android/res/"
  {
  }

  /** With neither platform switch on the command line all three targets are
      selected; with only `--ios`, Android is dropped but Windows remains. */
  lemma PlatformSwitches(argv: Argv, projectName: string, config: map<string, seq<SplashSpec>>, installed: Installed)
    ensures !argv.ios && !argv.android ==>
      Names(SelectTargets(GetSettings(argv), projectName, config, installed)) == ["ios", "android", "windows"]
    ensures argv.ios && !argv.android ==>
      Names(SelectTargets(GetSettings(argv), projectName, config, installed)) == ["ios", "windows"]
    ensures !argv.ios && argv.android ==>
      Names(SelectTargets(GetSettings(argv), projectName, config, installed)) == ["android", "windows"]
  {
    TargetOrder(GetSettings(argv), projectName, config, installed);
  }

  /** `_(platforms).where({isAdded: true})`: the installed targets, in their
      original order. */
  function AddedPlatforms(ps: seq<Platform>): (r: seq<Platform>)
    ensures |r| <= |ps|
    ensures forall p :: p in r <==> p in ps && p.isAdded
  {
    if ps == [] then []
    else if ps[0].isAdded then [ps[0]] + AddedPlatforms(ps[1..])
    else AddedPlatforms(ps[1..])
  }

  /** The filter commutes with concatenation, so it keeps the relative order
      of the targets it retains. */
  lemma {:induction false} AddedPlatformsConcat(a: seq<Platform>, b: seq<Platform>)
    ensures AddedPlatforms(a + b) == AddedPlatforms(a) + AddedPlatforms(b)
  {
    if a != [] {
      assert (a + b)[1..] == a[1..] + b;
      AddedPlatformsConcat(a[1..], b);
    } else {
      assert a + b == b;
    }
  }
}
