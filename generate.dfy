/** What `generateSplash` does for one splash spec, without the image
    operations: which source it reads, where it crops to, and whether and how
    it draws a 9-patch border; and which platforms `generateSplashes` works
    through. */
module SplashGeneration {
  import opened Common
  import opened Settings
  import opened Catalog
  import opened PlatformSelector
  import opened NinePatch

  predicate EndsWith(s: string, suffix: string) {
    |suffix| <= |s| && s[|s| - |suffix|..] == suffix
  }

  /** `s.replace(/<suffix>$/, repl)`: replaces the suffix when the string
      ends with it, and otherwise leaves the string alone. */
  function ReplaceSuffix(s: string, suffix: string, repl: string): (r: string)
    ensures EndsWith(s, suffix) ==> EndsWith(r, repl) && r[..|r| - |repl|] == s[..|s| - |suffix|]
    ensures !EndsWith(s, suffix) ==> r == s
  {
    if EndsWith(s, suffix) then
      var r := s[..|s| - |suffix|] + repl;
      assert r[|r| - |repl|..] == repl;
      r
    else s
  }

  /** The per-platform source candidate: `splash.png` becomes
      `splash-<platform>.png`; a name without the `.png` suffix is kept. */
  function PlatformSourcePath(splashFile: string, platformName: string): string {
    ReplaceSuffix(splashFile, ".png", "-" + platformName + ".png")
  }

  /** The candidate is used only when that file exists. */
  function SourcePath(splashFile: string, platformName: string, platformSourceExists: bool): string {
    if platformSourceExists then PlatformSourcePath(splashFile, platformName) else splashFile
  }

  /** The crop target: a trailing `.9.png` becomes `.png`. */
  function CropTarget(dstPath: string): string {
    ReplaceSuffix(dstPath, ".9.png", ".png")
  }

  /** The 9-patch output next to the crop target: a trailing `.png` becomes
      `.9.png`. */
  function NinePatchOutput(cropTarget: string): string {
    ReplaceSuffix(cropTarget, ".png", ".9.png")
  }

  /** The 9-patch branch runs for Android only, when the destination names a
      `.9.png` file or the force flag is set. */
  predicate DrawsNinePatch(platformName: string, dstPath: string, patch9: bool) {
    platformName == "android" && (EndsWith(dstPath, ".9.png") || patch9)
  }

  datatype NinePatchJob = NinePatchJob(border: Border, lines: seq<Segment>, output: string)

  /** The image operations for one spec: crop `source` to `width` x `height`
      into `cropTarget`, then optionally draw the 9-patch border. */
  datatype SplashJob = SplashJob(source: string, cropTarget: string, width: int, height: int, ninePatch: Option<NinePatchJob>)

  /** The source image's natural size, as the identify step reports it. */
  datatype SourceSize = SourceSize(width: int, height: int)

  /** The 9-patch arithmetic needs a non-zero target height and source size. */
  predicate CanDraw(settings: Settings, platform: Platform, splash: SplashSpec, src: SourceSize) {
    DrawsNinePatch(platform.name, platform.splashPath + splash.name, settings.patch9) ==>
      src.width > 0 && src.height > 0 && splash.height > 0
  }

  function GenerateSplash(settings: Settings, platform: Platform, splash: SplashSpec, platformSourceExists: bool, src: SourceSize): (job: SplashJob)
    requires CanDraw(settings, platform, splash, src)
    ensures job.source == SourcePath(settings.splashFile, platform.name, platformSourceExists)
    ensures job.width == splash.width && job.height == splash.height
    ensures job.cropTarget == CropTarget(platform.splashPath + splash.name)
    ensures job.ninePatch.Some? <==> DrawsNinePatch(platform.name, platform.splashPath + splash.name, settings.patch9)
    ensures job.ninePatch.Some? ==>
      var b := ComputeBorder(src.width, src.height, splash.width, splash.height, settings.patch9Width, settings.patch9Height);
      job.ninePatch.value == NinePatchJob(b, BorderLines(splash.width, splash.height, b), NinePatchOutput(job.cropTarget))
  {
    var srcPath := SourcePath(settings.splashFile, platform.name, platformSourceExists);
    var dstPath := platform.splashPath + splash.name;
    var has9Patch := platform.name == "android" && EndsWith(dstPath, ".9.png");
    var cropTarget := CropTarget(dstPath);
    var ninePatch :=
      if platform.name == "android" && (has9Patch || settings.patch9) then
        var b := ComputeBorder(src.width, src.height, splash.width, splash.height, settings.patch9Width, settings.patch9Height);
        Some(NinePatchJob(b, BorderLines(splash.width, splash.height, b), NinePatchOutput(cropTarget)))
      else None;
    SplashJob(srcPath, cropTarget, splash.width, splash.height, ninePatch)
  }

  /** The per-platform source candidate keeps the stem and appends
      `-<platform>.png`; any other name is unchanged. */
  lemma PlatformSourceShape(splashFile: string, platformName: string)
    ensures var p := PlatformSourcePath(splashFile, platformName);
      if EndsWith(splashFile, ".png") then
        EndsWith(p, "-" + platformName + ".png") && |p| == |splashFile| + |platformName| + 1
        && p[..|splashFile| - 4] == splashFile[..|splashFile| - 4]
      else p == splashFile
  {
  }

  /** A `.9.png` destination is cropped to the plain `.png` name and the
      9-patch lands exactly on the name the spec asked for. */
  lemma {:induction false} NinePatchRoundTrip(dstPath: string)
    requires EndsWith(dstPath, ".9.png")
    ensures CropTarget(dstPath) == dstPath[..|dstPath| - 6] + ".png"
    ensures NinePatchOutput(CropTarget(dstPath)) == dstPath
  {
    var stem := dstPath[..|dstPath| - 6];
    var crop := stem + ".png";
    assert crop[|crop| - 4..] == ".png";
    assert NinePatchOutput(crop) == stem + ".9.png";
    assert dstPath == stem + dstPath[|dstPath| - 6..];
  }

  /** When only the force flag calls for a 9-patch, a `.png` destination is
      cropped in place and the 9-patch is written beside it. */
  lemma ForcedNinePatchBeside(dstPath: string)
    requires EndsWith(dstPath, ".png") && !EndsWith(dstPath, ".9.png")
    ensures CropTarget(dstPath) == dstPath
    ensures NinePatchOutput(dstPath) == dstPath[..|dstPath| - 4] + ".9.png"
    ensures NinePatchOutput(dstPath) != dstPath
  {
    assert EndsWith(NinePatchOutput(dstPath), ".9.png");
  }

  /** When only the force flag calls for a 9-patch and the destination is not
      a `.png` name, the 9-patch output is the crop target itself, so the
      bordered image replaces the cropped one. */
  lemma ForcedNinePatchOverwrites(dstPath: string)
    requires !EndsWith(dstPath, ".png")
    ensures !EndsWith(dstPath, ".9.png")
    ensures NinePatchOutput(CropTarget(dstPath)) == CropTarget(dstPath) == dstPath
  {
    NinePatchNameIsPng(dstPath);
  }

  lemma NinePatchNameIsPng(s: string)
    ensures EndsWith(s, ".9.png") ==> EndsWith(s, ".png")
  {
    if EndsWith(s, ".9.png") {
      assert s[|s| - 4..] == s[|s| - 6..][2..];
    }
  }

  /** iOS and Windows targets never get a 9-patch, but a `.9.png` name is
      still cropped to the plain `.png` name. */
  lemma NoNinePatchOffAndroid(settings: Settings, platform: Platform, splash: SplashSpec, platformSourceExists: bool, src: SourceSize)
    requires platform.name != "android"
    ensures GenerateSplash(settings, platform, splash, platformSourceExists, src).ninePatch.None?
    ensures EndsWith(platform.splashPath + splash.name, ".9.png") ==>
      GenerateSplash(settings, platform, splash, platformSourceExists, src).cropTarget
        == (platform.splashPath + splash.name)[..|platform.splashPath + splash.name| - 6] + ".png"
  {
    if EndsWith(platform.splashPath + splash.name, ".9.png") {
      NinePatchRoundTrip(platform.splashPath + splash.name);
    }
  }

  /** `generateSplashForPlatform`: one job per spec, in list order. A target
      whose list is undefined throws before any job starts. */
  method GenerateSplashForPlatform(settings: Settings, platform: Platform, platformSourceExists: bool, src: SourceSize)
    returns (r: Option<seq<SplashJob>>)
    requires platform.splash.Some? ==>
      forall k :: 0 <= k < |platform.splash.value| ==> CanDraw(settings, platform, platform.splash.value[k], src)
    ensures r.Some? <==> platform.splash.Some?
    ensures r.Some? ==> |r.value| == |platform.splash.value|
    ensures r.Some? ==> forall k :: 0 <= k < |r.value| ==>
      r.value[k] == GenerateSplash(settings, platform, platform.splash.value[k], platformSourceExists, src)
  {
    if platform.splash.None? {
      return None;
    }
    var splashes := platform.splash.value;
    var all: seq<SplashJob> := [];
    var i := 0;
    while i < |splashes|
      invariant 0 <= i <= |splashes|
      invariant |all| == i
      invariant forall k :: 0 <= k < i ==> all[k] == GenerateSplash(settings, platform, splashes[k], platformSourceExists, src)
    {
      all := all + [GenerateSplash(settings, platform, splashes[i], platformSourceExists, src)];
      i := i + 1;
    }
    r := Some(all);
  }

  /** The platforms `generateSplashes` works through, one after another: the
      installed ones, in order, up to but not including the first whose list
      is undefined; that one throws and the rest of the chain is skipped. */
  function GeneratedPlatforms(ps: seq<Platform>): (r: seq<Platform>)
    ensures forall p :: p in r ==> p in ps && p.isAdded && p.splash.Some?
    ensures var a := AddedPlatforms(ps);
      |r| <= |a| && r == a[..|r|] && (|r| < |a| ==> a[|r|].splash.None?)
  {
    var added := AddedPlatforms(ps);
    added[..FirstUndefined(added)]
  }

  function FirstUndefined(ps: seq<Platform>): (n: nat)
    ensures n <= |ps|
    ensures forall k :: 0 <= k < n ==> ps[k].splash.Some?
    ensures n < |ps| ==> ps[n].splash.None?
  {
    if ps == [] || ps[0].splash.None? then 0 else 1 + FirstUndefined(ps[1..])
  }

  /** When every installed target has a list, every installed target is
      generated, in order. */
  lemma AllGeneratedWhenDefined(ps: seq<Platform>)
    requires forall p :: p in ps && p.isAdded ==> p.splash.Some?
    ensures GeneratedPlatforms(ps) == AddedPlatforms(ps)
  {
    var added := AddedPlatforms(ps);
    assert forall k :: 0 <= k < |added| ==> added[k] in added;
    assert FirstUndefined(added) == |added|;
  }

  /** With update-config on, an installed iOS target and a config without an
      `ios` entry, nothing is generated for any platform: iOS comes first and
      throws. */
  lemma MissingIosEntryStopsAll(s: Settings, projectName: string, config: map<string, seq<SplashSpec>>, installed: Installed)
    requires s.updateConfigResources && IncludesIos(s) && installed.ios && "ios" !in config
    ensures GeneratedPlatforms(SelectTargets(s, projectName, config, installed)) == []
  {
    var ts := SelectTargets(s, projectName, config, installed);
    assert ts[0] == IosTarget(s, projectName, config, installed);
    assert ts == [ts[0]] + ts[1..];
    AddedPlatformsConcat([ts[0]], ts[1..]);
  }
}
