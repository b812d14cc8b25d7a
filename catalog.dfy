/** The built-in splash tables (`PLATFORMS` in src/settings.js, the Windows
    list inside `getPlatforms`) and the reverse density map built from the
    Android table. */
module Catalog {
  import opened Common

  /** One required output image: its path relative to the platform's
      directory, its size in pixels, and for Android its density tag. */
  datatype SplashSpec = SplashSpec(name: string, width: int, height: int, density: Option<string>)

  function Spec(name: string, width: int, height: int): SplashSpec {
    SplashSpec(name, width, height, None)
  }

  function DensitySpec(tag: string, width: int, height: int): (r: SplashSpec)
    ensures r.density == Some(tag) && r.name == "drawable-" + tag + "/screen.png"
  {
    SplashSpec("drawable-" + tag + "/screen.png", width, height, Some(tag))
  }

  /** The six Android density classes, smallest first. */
  const DpiClasses: seq<string> := ["ldpi", "mdpi", "hdpi", "xhdpi", "xxhdpi", "xxxhdpi"]

  ghost predicate UniqueNames(specs: seq<SplashSpec>) {
    forall i, j :: 0 <= i < j < |specs| ==> specs[i].name != specs[j].name
  }

  ghost predicate PositiveSizes(specs: seq<SplashSpec>) {
    forall i :: 0 <= i < |specs| ==> specs[i].width > 0 && specs[i].height > 0
  }

  /** Every entry carries a density tag and no two carry the same one. */
  ghost predicate UniqueDensities(specs: seq<SplashSpec>) {
    && (forall i :: 0 <= i < |specs| ==> specs[i].density.Some?)
    && (forall i, j :: 0 <= i < j < |specs| ==> specs[i].density != specs[j].density)
  }

  function IosCatalog(): (c: seq<SplashSpec>)
    ensures |c| == 10
    ensures UniqueNames(c) && PositiveSizes(c)
    ensures forall i :: 0 <= i < |c| ==> c[i].density.None?
  {
    [ // iPhone
      Spec("Default~iphone.png", 320, 480),
      Spec("Default@2x~iphone.png", 640, 960),
      Spec("Default-568h@2x~iphone.png", 640, 1136),
      Spec("Default-667h.png", 750, 1334),
      Spec("Default-736h.png", 1242, 2208),
      Spec("Default-Landscape-736h.png", 2208, 1242),
      // iPad
      Spec("Default-Portrait~ipad.png", 768, 1024),
      Spec("Default-Portrait@2x~ipad.png", 1536, 2048),
      Spec("Default-Landscape~ipad.png", 1024, 768),
      Spec("Default-Landscape@2x~ipad.png", 2048, 1536)
    ]
  }

  /** The first six entries are landscape and the last six portrait, each
      with a density tag. */
  function AndroidCatalog(): (c: seq<SplashSpec>)
    ensures |c| == 12
    ensures forall i :: 0 <= i < |c| ==> c[i].density.Some?
  {
    [ // Landscape
      DensitySpec("land-ldpi", 320, 200),
      DensitySpec("land-mdpi", 480, 320),
      DensitySpec("land-hdpi", 800, 480),
      DensitySpec("land-xhdpi", 1280, 720),
      DensitySpec("land-xxhdpi", 1600, 960),
      DensitySpec("land-xxxhdpi", 1920, 1280),
      // Portrait
      DensitySpec("port-ldpi", 200, 320),
      DensitySpec("port-mdpi", 320, 480),
      DensitySpec("port-hdpi", 480, 800),
      DensitySpec("port-xhdpi", 720, 1280),
      DensitySpec("port-xxhdpi", 960, 1600),
      DensitySpec("port-xxxhdpi", 1280, 1920)
    ]
  }

  /** Every Android size is positive; the first six entries are landscape
      and entry `i + 6` is entry `i` turned on its side. */
  lemma AndroidShape()
    ensures PositiveSizes(AndroidCatalog())
    ensures forall i :: 0 <= i < 6 ==>
      && AndroidCatalog()[i].width > AndroidCatalog()[i].height
      && AndroidCatalog()[i + 6].width == AndroidCatalog()[i].height
      && AndroidCatalog()[i + 6].height == AndroidCatalog()[i].width
  {
    var c := AndroidCatalog();
    assert c[0].width == 320 && c[0].height == 200 && c[6].width == 200 && c[6].height == 320;
    assert c[1].width == 480 && c[1].height == 320 && c[7].width == 320 && c[7].height == 480;
    assert c[2].width == 800 && c[2].height == 480 && c[8].width == 480 && c[8].height == 800;
    assert c[3].width == 1280 && c[3].height == 720 && c[9].width == 720 && c[9].height == 1280;
    assert c[4].width == 1600 && c[4].height == 960 && c[10].width == 960 && c[10].height == 1600;
    assert c[5].width == 1920 && c[5].height == 1280 && c[11].width == 1280 && c[11].height == 1920;
  }

  /** Each Android entry's resource path is its tag's `drawable-` directory. */
  lemma AndroidNames()
    ensures forall i :: 0 <= i < 12 ==>
      AndroidCatalog()[i].name == "drawable-" + AndroidCatalog()[i].density.value + "/screen.png"
  {
    var c := AndroidCatalog();
    forall i | 0 <= i < 12
      ensures c[i].name == "drawable-" + c[i].density.value + "/screen.png"
    {
      assert c[i] == DensitySpec(c[i].density.value, c[i].width, c[i].height);
    }
  }

  /** Entry `i` is `land-<class>` and entry `i + 6` is `port-<class>` for the
      same density class, so each portrait entry is the transpose of the
      landscape entry of its class. */
  lemma AndroidTagsPaired()
    ensures forall i :: 0 <= i < 6 ==>
      && AndroidCatalog()[i].density == Some("land-" + DpiClasses[i])
      && AndroidCatalog()[i + 6].density == Some("port-" + DpiClasses[i])
  {
    var c := AndroidCatalog();
    assert c[0].density == Some("land-ldpi") && "land-" + DpiClasses[0] == "land-ldpi";
    assert c[6].density == Some("port-ldpi") && "port-" + DpiClasses[0] == "port-ldpi";
    assert c[1].density == Some("land-mdpi") && "land-" + DpiClasses[1] == "land-mdpi";
    assert c[7].density == Some("port-mdpi") && "port-" + DpiClasses[1] == "port-mdpi";
    assert c[2].density == Some("land-hdpi") && "land-" + DpiClasses[2] == "land-hdpi";
    assert c[8].density == Some("port-hdpi") && "port-" + DpiClasses[2] == "port-hdpi";
    assert c[3].density == Some("land-xhdpi") && "land-" + DpiClasses[3] == "land-xhdpi";
    assert c[9].density == Some("port-xhdpi") && "port-" + DpiClasses[3] == "port-xhdpi";
    assert c[4].density == Some("land-xxhdpi") && "land-" + DpiClasses[4] == "land-xxhdpi";
    assert c[10].density == Some("port-xxhdpi") && "port-" + DpiClasses[4] == "port-xxhdpi";
    assert c[5].density == Some("land-xxxhdpi") && "land-" + DpiClasses[5] == "land-xxxhdpi";
    assert c[11].density == Some("port-xxxhdpi") && "port-" + DpiClasses[5] == "port-xxxhdpi";
  }

  /** The Android tags, and so the resource paths, are pairwise distinct. */
  lemma AndroidCatalogUnique()
    ensures UniqueDensities(AndroidCatalog()) && UniqueNames(AndroidCatalog())
  {
    AndroidDensitiesUnique();
    AndroidNames();
    DensityNamesUnique(AndroidCatalog());
  }

  lemma AndroidDensitiesUnique()
    ensures UniqueDensities(AndroidCatalog())
  {
    AndroidTagList();
    AndroidTagsDistinct();
  }

  /** The Android tags in catalog order. */
  const AndroidTags: seq<string> :=
    ["land-ldpi", "land-mdpi", "land-hdpi", "land-xhdpi", "land-xxhdpi", "land-xxxhdpi",
     "port-ldpi", "port-mdpi", "port-hdpi", "port-xhdpi", "port-xxhdpi", "port-xxxhdpi"]

  lemma AndroidTagList()
    ensures forall i :: 0 <= i < 12 ==> AndroidCatalog()[i].density == Some(AndroidTags[i])
  {
    var c := AndroidCatalog();
    assert c[0].density == Some(AndroidTags[0]);
    assert c[1].density == Some(AndroidTags[1]);
    assert c[2].density == Some(AndroidTags[2]);
    assert c[3].density == Some(AndroidTags[3]);
    assert c[4].density == Some(AndroidTags[4]);
    assert c[5].density == Some(AndroidTags[5]);
    assert c[6].density == Some(AndroidTags[6]);
    assert c[7].density == Some(AndroidTags[7]);
    assert c[8].density == Some(AndroidTags[8]);
    assert c[9].density == Some(AndroidTags[9]);
    assert c[10].density == Some(AndroidTags[10]);
    assert c[11].density == Some(AndroidTags[11]);
  }

  lemma AndroidTagPrefixes()
    ensures forall i :: 0 <= i < 12 ==> AndroidTags[i][..5] == "land-" || AndroidTags[i][..5] == "port-"
  {
  }

  lemma AndroidTagsDistinct()
    ensures forall i, j :: 0 <= i < j < 12 ==> AndroidTags[i] != AndroidTags[j]
  {
  }

  /** The resource path of a density entry determines its tag. */
  lemma DensityNamesUnique(c: seq<SplashSpec>)
    requires UniqueDensities(c)
    requires forall i :: 0 <= i < |c| ==> c[i].name == "drawable-" + c[i].density.value + "/screen.png"
    ensures UniqueNames(c)
  {
    forall i, j | 0 <= i < j < |c| ensures c[i].name != c[j].name {
      var a, b := c[i].density.value, c[j].density.value;
      if |a| == |b| {
        assert c[i].name[9..9 + |a|] == a;
        assert c[j].name[9..9 + |b|] == b;
      } else {
        assert |c[i].name| != |c[j].name|;
      }
    }
  }

  /** The fixed Windows list that `getPlatforms` always uses. */
  function WindowsCatalog(): (c: seq<SplashSpec>)
    ensures |c| == 8
    ensures UniqueNames(c) && PositiveSizes(c)
    ensures forall i :: 0 <= i < 5 ==> c[i].width > c[i].height
    ensures forall i :: 5 <= i < 8 ==> c[i].width < c[i].height
  {
    [ // Landscape
      Spec("SplashScreen.scale-100.png", 620, 300),
      Spec("SplashScreen.scale-125.png", 775, 375),
      Spec("SplashScreen.scale-150.png", 930, 450),
      Spec("SplashScreen.scale-200.png", 1240, 600),
      Spec("SplashScreen.scale-400.png", 2480, 1200),
      // Portrait
      Spec("SplashScreenPhone.scale-240.png", 1152, 1920),
      Spec("SplashScreenPhone.scale-140.png", 672, 1120),
      Spec("SplashScreenPhone.scale-100.png", 480, 800)
    ]
  }

  /** `fromPairs(entries.map(e => [e.density, e]))`: pairs are stored left to
      right, so a later entry with the same tag replaces an earlier one. */
  function FromPairs(entries: seq<SplashSpec>): map<string, SplashSpec>
    requires forall i :: 0 <= i < |entries| ==> entries[i].density.Some?
  {
    if entries == [] then map[]
    else
      var last := entries[|entries| - 1];
      FromPairs(entries[..|entries| - 1])[last.density.value := last]
  }

  /** With unique tags the pairs map each tag back to the entry carrying it,
      and to nothing else. */
  lemma {:induction false} FromPairsUnique(entries: seq<SplashSpec>)
    requires UniqueDensities(entries)
    ensures |FromPairs(entries)| == |entries|
    ensures forall i :: 0 <= i < |entries| ==>
      entries[i].density.value in FromPairs(entries) && FromPairs(entries)[entries[i].density.value] == entries[i]
    ensures forall tag :: tag in FromPairs(entries) ==>
      exists i :: 0 <= i < |entries| && entries[i].density == Some(tag)
  {
    if entries != [] {
      var n := |entries| - 1;
      var init := entries[..n];
      FromPairsUnique(init);
      var m := FromPairs(init);
      var last := entries[n];
      var r := m[last.density.value := last];
      assert FromPairs(entries) == r;
      assert |r| == |m| + 1 by {
        forall i | 0 <= i < |init| ensures init[i].density != last.density {
          assert init[i] == entries[i];
        }
        assert r.Keys == m.Keys + {last.density.value};
      }
      forall i | 0 <= i < |entries|
        ensures entries[i].density.value in r && r[entries[i].density.value] == entries[i]
      {
        if i < n {
          assert entries[i] == init[i];
        }
      }
      forall tag | tag in FromPairs(entries)
        ensures exists i :: 0 <= i < |entries| && entries[i].density == Some(tag)
      {
        if tag != last.density.value {
          var i :| 0 <= i < |init| && init[i].density == Some(tag);
          assert entries[i] == init[i];
        }
      }
    }
  }

  /** `ANDROID_REVERSE_DENSITY_MAP`. */
  function ReverseDensityMap(): (m: map<string, SplashSpec>)
    ensures |m| == 12
    ensures forall i :: 0 <= i < 12 ==>
      AndroidCatalog()[i].density.value in m && m[AndroidCatalog()[i].density.value] == AndroidCatalog()[i]
    ensures forall tag :: tag in m ==>
      exists i :: 0 <= i < 12 && AndroidCatalog()[i].density == Some(tag)
  {
    AndroidCatalogUnique();
    FromPairsUnique(AndroidCatalog());
    FromPairs(AndroidCatalog())
  }

  /** `ANDROID_REVERSE_DENSITY_MAP[density]`: the Android entry carrying the
      tag, or nothing for a missing or unknown tag. */
  function LookupDensity(density: Option<string>): (r: Option<SplashSpec>)
    ensures r.Some? <==> exists i :: 0 <= i < 12 && density.Some? && AndroidCatalog()[i].density == density
    ensures r.Some? ==> exists i :: 0 <= i < 12 && r.value == AndroidCatalog()[i] && r.value.density == density
  {
    if density.Some? then Get(ReverseDensityMap(), density.value) else None
  }

  /** Every Android tag starts with `land-` or `port-`, so a missing tag,
      a tag of an iOS entry, or any tag with another prefix finds nothing. */
  lemma ForeignTagFindsNothing(density: Option<string>)
    requires density.Some? ==> |density.value| < 5 || (density.value[..5] != "land-" && density.value[..5] != "port-")
    ensures LookupDensity(density).None?
  {
    AndroidTagList();
    AndroidTagPrefixes();
    var c := AndroidCatalog();
    forall i | 0 <= i < 12 ensures c[i].density != density {
      assert c[i].density.value == AndroidTags[i];
    }
  }
}
