/** `collectPlatformsFromConfig`: from the parsed `widget` element of the
    project's config.xml to a dictionary from platform name to the splash
    specs declared for it. */
module ConfigResolver {
  import opened Common
  import opened Catalog

  /** The attributes of one `<splash>` element. */
  datatype SplashAttrs = SplashAttrs(src: string, width: int, height: int, density: Option<string>)

  /** One `<platform name="...">` element; `splash` is absent when the
      element has no `<splash>` children. */
  datatype PlatformElem = PlatformElem(name: string, splash: Option<seq<SplashAttrs>>)

  /** The `widget` root; `platform` is absent when it has no `<platform>`
      children. */
  datatype Widget = Widget(platform: Option<seq<PlatformElem>>)

  /** Where the original code throws a TypeError on a missing child list. */
  datatype ConfigError = NoPlatformElements | NoSplashElements(platformName: string)

  type PlatformSplashes = map<string, seq<SplashSpec>>

  /** One resolved `<splash>`: its declared source path and size, except that
      a density tag found in the Android catalog imposes the catalog's size. */
  function ResolveSplash(a: SplashAttrs): (r: SplashSpec)
    ensures r.name == a.src && r.density.None?
    ensures forall i :: 0 <= i < 12 && a.density == AndroidCatalog()[i].density ==>
      r.width == AndroidCatalog()[i].width && r.height == AndroidCatalog()[i].height
    ensures (forall i :: 0 <= i < 12 ==> a.density != AndroidCatalog()[i].density) ==>
      r.width == a.width && r.height == a.height
  {
    var opts := SplashSpec(a.src, a.width, a.height, None);
    match LookupDensity(a.density)
    case Some(info) =>
      AndroidCatalogUnique();
      opts.(width := info.width, height := info.height)
    case None => opts
  }

  /** The resolved list of one platform element, in document order. */
  function ResolveList(splashes: seq<SplashAttrs>): (r: seq<SplashSpec>)
    ensures |r| == |splashes|
    ensures forall k :: 0 <= k < |r| ==> r[k] == ResolveSplash(splashes[k])
  {
    seq(|splashes|, k requires 0 <= k < |splashes| => ResolveSplash(splashes[k]))
  }

  /** The dictionary after the given platform elements have been processed in
      order, or the error raised at the first element without splashes. */
  function ResolvePlatforms(ps: seq<PlatformElem>): Result<PlatformSplashes, ConfigError>
  {
    if ps == [] then Success(map[])
    else
      var last := ps[|ps| - 1];
      match ResolvePlatforms(ps[..|ps| - 1])
      case Failure(e) => Failure(e)
      case Success(m) =>
        if last.splash.None? then Failure(NoSplashElements(last.name))
        else Success(m[last.name := ResolveList(last.splash.value)])
  }

  function ResolveConfig(w: Widget): Result<PlatformSplashes, ConfigError> {
    if w.platform.None? then Failure(NoPlatformElements) else ResolvePlatforms(w.platform.value)
  }

  method CollectPlatformsFromConfig(widget: Widget) returns (r: Result<PlatformSplashes, ConfigError>)
    ensures r == ResolveConfig(widget)
  {
    if widget.platform.None? {
      return Failure(NoPlatformElements);
    }
    var elements := widget.platform.value;
    var platforms: PlatformSplashes := map[];
    var i := 0;
    while i < |elements|
      invariant 0 <= i <= |elements|
      invariant ResolvePlatforms(elements[..i]) == Success(platforms)
    {
      var platform := elements[i];
      assert elements[..i + 1][..i] == elements[..i];
      if platform.splash.None? {
        ResolvePlatformsFailureSticks(elements, i + 1);
        return Failure(NoSplashElements(platform.name));
      }
      var splashes := platform.splash.value;
      var splashList: seq<SplashSpec> := [];
      var s := 0;
      while s < |splashes|
        invariant 0 <= s <= |splashes|
        invariant |splashList| == s
        invariant forall k :: 0 <= k < s ==> splashList[k] == ResolveSplash(splashes[k])
      {
        var splash := splashes[s];
        var opts := SplashSpec(splash.src, splash.width, splash.height, None);
        var densityInfo := LookupDensity(splash.density);
        if densityInfo.Some? {
          opts := opts.(width := densityInfo.value.width, height := densityInfo.value.height);
        }
        splashList := splashList + [opts];
        s := s + 1;
      }
      assert splashList == ResolveList(splashes);
      platforms := platforms[platform.name := splashList];
      i := i + 1;
    }
    assert elements[..i] == elements;
    r := Success(platforms);
  }

  /** Once a prefix of the elements fails, the whole list fails the same
      way: the original code stops at the first throw. */
  lemma {:induction false} ResolvePlatformsFailureSticks(ps: seq<PlatformElem>, n: int)
    requires 0 <= n <= |ps|
    requires ResolvePlatforms(ps[..n]).Failure?
    ensures ResolvePlatforms(ps) == ResolvePlatforms(ps[..n])
  {
    if n < |ps| {
      var init := ps[..|ps| - 1];
      assert init[..n] == ps[..n];
      ResolvePlatformsFailureSticks(init, n);
    } else {
      assert ps[..n] == ps;
    }
  }

  /** The resolution fails exactly when the `platform` list is missing or
      some platform element has no `<splash>` children. */
  lemma {:induction false} ResolvePlatformsFails(ps: seq<PlatformElem>)
    ensures ResolvePlatforms(ps).Failure? <==> exists i :: 0 <= i < |ps| && ps[i].splash.None?
  {
    if ps != [] {
      var init := ps[..|ps| - 1];
      ResolvePlatformsFails(init);
      if exists i :: 0 <= i < |init| && init[i].splash.None? {
        var i :| 0 <= i < |init| && init[i].splash.None?;
        assert ps[i] == init[i];
      }
      if exists i :: 0 <= i < |ps| && ps[i].splash.None? {
        var i :| 0 <= i < |ps| && ps[i].splash.None?;
        if i < |init| { assert init[i] == ps[i]; }
      }
    }
  }

  /** The keys of the dictionary are exactly the platform names. */
  lemma {:induction false} ResolvePlatformsKeys(ps: seq<PlatformElem>)
    requires ResolvePlatforms(ps).Success?
    ensures ResolvePlatforms(ps).value.Keys == set i | 0 <= i < |ps| :: ps[i].name
  {
    if ps != [] {
      var init := ps[..|ps| - 1];
      ResolvePlatformsKeys(init);
      var names := set i | 0 <= i < |ps| :: ps[i].name;
      var initNames := set i | 0 <= i < |init| :: init[i].name;
      assert names == initNames + {ps[|ps| - 1].name} by {
        forall n | n in names ensures n in initNames + {ps[|ps| - 1].name} {
          var i :| 0 <= i < |ps| && ps[i].name == n;
          if i < |init| { assert init[i] == ps[i]; }
        }
        forall n | n in initNames ensures n in names {
          var i :| 0 <= i < |init| && init[i].name == n;
          assert ps[i] == init[i];
        }
      }
    }
  }

  /** A platform name maps to the resolved list of the LAST element carrying
      that name: a later element replaces an earlier one. */
  lemma {:induction false} ResolvePlatformsLastWins(ps: seq<PlatformElem>, i: int)
    requires ResolvePlatforms(ps).Success?
    requires 0 <= i < |ps|
    requires forall j :: i < j < |ps| ==> ps[j].name != ps[i].name
    ensures ps[i].splash.Some?
    ensures ps[i].name in ResolvePlatforms(ps).value
    ensures ResolvePlatforms(ps).value[ps[i].name] == ResolveList(ps[i].splash.value)
  {
    var init := ps[..|ps| - 1];
    if i < |ps| - 1 {
      assert init[i] == ps[i];
      forall j | i < j < |init| ensures init[j].name != init[i].name {
        assert init[j] == ps[j];
      }
      ResolvePlatformsLastWins(init, i);
    }
  }
}
