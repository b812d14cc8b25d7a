# cordova-splash splash derivation engine, in Dafny

This project models the deterministic core of `cordova-splash`. The tool
generates the splash-screen PNGs of a Cordova project from one source image.
The core has five parts:

- **Settings**: the settings record derived from the command line
  (`getSettings`, and the module-level `settings` of `index.js`).
- **Catalog**: the built-in splash tables for iOS, Android and Windows, and
  the reverse density map from Android density tags to Android entries.
- **ConfigResolver**: `collectPlatformsFromConfig`. It turns the parsed
  `widget` element of `config.xml` into a dictionary from platform name to
  splash specs. A known density tag imposes the catalog size.
- **PlatformSelector**: `getPlatforms` builds the ordered target list
  (iOS?, Android?, Windows). The `isAdded` filter of `generateSplashes` picks
  the installed targets.
- **NinePatch** and **SplashGeneration**: what `generateSplash` computes for
  one spec. That covers the source image choice, the crop target, the
  `.9.png` rules, the 9-patch border arithmetic and the four marker lines.
  It also covers which platforms `generateSplashes` actually reaches.

The repository holds three copies of the same logic: `index.js` (the
original single file), `src/index.js` with `src/settings.js` (an ES-module
refactor), and `lib/index.js` (the transpiled `src/index.js`). The logic is
modelled once. The table below gives the matching lines of each copy. The
`## Model` table cites one copy per member.

| part | src | index.js | lib/index.js |
|---|---|---|---|
| settings | src/settings.js:5-20 | 16-26 | (imports src/settings.js) |
| catalog and density map | src/settings.js:22-116 | 28-63 | (imports src/settings.js) |
| config resolution | src/index.js:15-53 | 65-104 | 45-83 |
| platform selection | src/index.js:62-120 | 113-172 | 92-143 |
| generateSplash | src/index.js:170-246 | 222-296 | 193-252 |
| generateSplashForPlatform | src/index.js:254-268 | 304-318 | 260-274 |
| generateSplashes | src/index.js:276-288 | 326-340 | 282-294 |

Files: `common.dfy` (Option, Result, dictionary lookup), `settings.dfy`,
`catalog.dfy`, `config.dfy`, `platforms.dfy`, `ninepatch.dfy`,
`generate.dfy`.

## Behaviour of the original worth knowing

- `getSettings` in src/settings.js:5-20 builds the settings object but never
  returns it. So src/index.js:13 and lib/index.js:43 get `undefined`, and
  the first settings access throws. `Settings.GetSettings` models the
  intended derivation, which index.js:16-26 carries out.
- With the update-config flag, a platform missing from the config gets
  `undefined` as its splash list, not an empty list
  (src/index.js:84, 97). `PlatformSelector.Platform.splash` is therefore an
  `Option`. `generateSplashForPlatform` then throws on `splashes.forEach`.
  That rejects the promise chain of `generateSplashes`, so no later platform
  is generated either (`SplashGeneration.GeneratedPlatforms`,
  `SplashGeneration.MissingIosEntryStopsAll`).
- A missing `platform` list under `widget`, or a `platform` element with no
  `splash` children, makes `collectPlatformsFromConfig` throw a TypeError on
  `.length`. The model returns `Failure` in both cases
  (`ConfigResolver.ConfigError`).
- There is no zero-size guard in the border arithmetic. `ComputeBorder`
  requires a positive target height and source size, and
  `SplashGeneration.CanDraw` states exactly when that is needed.
- `value || default` treats `0` and `""` as absent. A stretch fraction of 0
  therefore falls back to 0.25, and an empty config or splash path falls
  back to its default.

## Model

| member | source | states |
|---|---|---|
| Settings.GetSettings | index.js:16-26 | ALL_PLATFORMS holds exactly when neither the iOS nor the Android switch is set; the iOS, Android, 9-patch, update-config and old-Xcode switches are copied. A given non-empty path is used, and an absent or empty one becomes its default. A given non-zero stretch fraction is used, and an absent or zero one becomes 0.25, so a fraction is never 0. |
| Settings.DefaultSettings | src/settings.js:10-19 | With no arguments: `config.xml`, `splash.png`, all platforms, no 9-patch forcing, both fractions 0.25, no config update, new Xcode layout. |
| Settings.ZeroFractionFallsBack | src/settings.js:16-17 | An explicit stretch fraction of 0 is falsy and becomes 0.25. |
| Catalog.IosCatalog | src/settings.js:23-36 | The iOS table has 10 entries with unique names, positive sizes and no density tag. |
| Catalog.AndroidCatalog | src/settings.js:37-112 | The Android table has 12 entries, each carrying a density tag. |
| Catalog.AndroidShape | src/settings.js:37-112 | Every Android size is positive. The first six entries are landscape (width > height), and entry i+6 has the width and height of entry i swapped. |
| Catalog.AndroidNames | src/settings.js:37-112 | Each Android entry's path is `drawable-<tag>/screen.png` for its own density tag. |
| Catalog.AndroidTagsPaired | src/settings.js:39-111 | Entry i is tagged `land-<class>` and entry i+6 `port-<class>` for the same density class, ldpi to xxxhdpi. |
| Catalog.AndroidCatalogUnique | src/settings.js:37-112 | The Android density tags are pairwise distinct, and so are the Android names. |
| Catalog.WindowsCatalog | src/index.js:105-116 | The fixed Windows list has 8 entries with unique names and positive sizes: five landscape, then three portrait. |
| Catalog.FromPairsUnique | src/settings.js:115-116 | `fromPairs` over entries with distinct tags has one key per entry. It maps each tag to the entry carrying it and has no other keys. |
| Catalog.ReverseDensityMap | index.js:61-63 | The reverse density map has 12 keys. It maps each Android tag back to its catalog entry, and every key is some entry's tag. |
| Catalog.LookupDensity | src/index.js:39-40 | A lookup finds an entry exactly when some Android entry carries the tag. What it finds is that entry. A missing or unknown tag finds nothing. |
| Catalog.ForeignTagFindsNothing | src/settings.js:115-116 | A missing tag (as on every iOS entry) or a tag that starts with neither `land-` nor `port-` finds nothing in the density map. |
| ConfigResolver.ResolveSplash | src/index.js:33-45 | A resolved splash keeps the declared `src`. If its density tag is an Android catalog tag, the catalog's width and height replace the declared ones. Otherwise the declared width and height pass through unchanged. |
| ConfigResolver.CollectPlatformsFromConfig | lib/index.js:56-79 | The nested loops build exactly the dictionary that `ResolveConfig` specifies, including the error for a missing element list. |
| ConfigResolver.ResolvePlatformsFailureSticks | src/index.js:27-32 | Once an element throws, the whole resolution ends in that error. |
| ConfigResolver.ResolvePlatformsFails | src/index.js:27-32 | Resolution fails exactly when some platform element has no `splash` children. |
| ConfigResolver.ResolvePlatformsKeys | index.js:77-99 | The dictionary's keys are exactly the names of the platform elements. |
| ConfigResolver.ResolvePlatformsLastWins | src/index.js:27-48 | A name maps to the resolved list of the last element carrying it, so a later element replaces an earlier one. That list keeps the length and order of the element's `splash` children (`ResolveList`). |
| PlatformSelector.GetPlatforms | src/index.js:62-120 | The push-and-overwrite construction yields exactly `SelectTargets`. |
| PlatformSelector.TargetOrder | index.js:118-169 | The target names are "ios" when ALL_PLATFORMS or IOS, then "android" when ALL_PLATFORMS or ANDROID, then "windows" last in every case. |
| PlatformSelector.TargetSources | lib/index.js:96-140 | Each target's `isAdded` is its directory's existence. Without update-config, iOS uses the catalog and `platforms/ios/<project>` plus the Xcode folder that the old-Xcode flag selects, and Android uses the catalog and `platforms/android/res/`. With update-config, iOS and Android get path `""` and exactly the config entry, absent if the config has none. Windows never changes. |
| PlatformSelector.PlatformSwitches | src/settings.js:12-14 | With no platform switch the targets are ios, android, windows. With only `--ios` they are ios, windows. With only `--android` they are android, windows. |
| PlatformSelector.AddedPlatforms | src/index.js:280 | The filter keeps exactly the targets with `isAdded` set. |
| PlatformSelector.AddedPlatformsConcat | src/index.js:280-283 | The filter distributes over concatenation, so the kept targets stay in their original order. |
| NinePatch.Round | src/index.js:220-221 | `Math.round` gives the integer within half a unit of x, and halves round up. |
| NinePatch.MaxSize | src/index.js:203 | `new_size` is the larger of the target's width and height. |
| NinePatch.RatioBelowOne | src/index.js:204-214 | `ratio < 1` holds exactly when the target is narrower than it is tall. |
| NinePatch.ComputeBorder | src/index.js:203-221 | The source dimensions cancel. A portrait target gets y = round(fy * max) and x = round((0.25 - fy) * max * w/h). Square and landscape targets get x = round(fx * max) and y = round((0.25 - fx) * max * w/h). |
| NinePatch.BorderLines | src/index.js:231-235 | Two segments lie on the top edge and two on the left edge. The top ones run from 1 to x and from w - x to w, and the left ones from 1 to y and from h - y to h. The inner endpoints are exactly x, w - x, y and h - y of the given border, so each pair is symmetric about the middle of its edge. |
| NinePatch.DefaultFractions | index.js:255-270 | With both fractions at 0.25 the corrected border is 0. Landscape and square targets get (round(w/4), 0), and portrait targets get (0, round(h/4)). |
| NinePatch.DefaultBordersFit | lib/index.js:226-243 | With the default fractions, both borders are non-negative and at most half the target's side, so the markers on an edge do not cross. |
| NinePatch.WorkedExamples | src/index.js:203-235 | A 200x100 target gives border (50, 0) and segments 1..50, 150..200, 1..0 and 100..100. A 100x200 target gives (0, 50). |
| NinePatch.LargeFractionUnclamped | src/index.js:214-221 | A horizontal fraction of 0.75 on a square target gives y = -50. The border is not clamped. |
| SplashGeneration.ReplaceSuffix | src/index.js:180 | An anchored regex replacement swaps the suffix for the replacement when the string ends with it, and otherwise leaves the string unchanged. |
| SplashGeneration.GenerateSplash | src/index.js:170-239 | The source is the per-platform candidate when that file exists. The crop target is the destination with `.9.png` turned into `.png`, at the spec's size. A 9-patch is drawn exactly for Android when the name ends in `.9.png` or PATCH_9 is set. It uses `ComputeBorder` with the settings' fractions, `BorderLines`, and the crop target with `.png` turned into `.9.png`. |
| SplashGeneration.PlatformSourceShape | src/index.js:172-176 | `x.png` becomes `x-<platform>.png` with the same stem. A name not ending in `.png` is unchanged. |
| SplashGeneration.NinePatchRoundTrip | src/index.js:179-180 | A `.9.png` destination is cropped to the `.png` name, and the 9-patch is written back to exactly the requested `.9.png` name. |
| SplashGeneration.ForcedNinePatchBeside | src/index.js:201-236 | When the destination ends in `.png` but not `.9.png`, the crop happens in place and the forced 9-patch goes to a different `.9.png` file beside it. |
| SplashGeneration.ForcedNinePatchOverwrites | lib/index.js:200-243 | When the destination does not end in `.png`, the forced 9-patch output equals the crop target, so the bordered image replaces the cropped one. |
| SplashGeneration.NoNinePatchOffAndroid | index.js:231-253 | A non-Android target never gets a 9-patch, yet a `.9.png` name is still cropped to the `.png` name. |
| SplashGeneration.GenerateSplashForPlatform | src/index.js:254-267 | With a list defined: one job per spec, in list order, each equal to `GenerateSplash`. With an undefined list: no job at all. |
| SplashGeneration.GeneratedPlatforms | src/index.js:276-288 | The platforms worked through are the longest prefix of the installed targets, in order, that stops just before the first target whose list is undefined; each is installed, has a list and comes from the target list. |
| SplashGeneration.FirstUndefined | src/index.js:258-261 | The chain stops at the first target whose list is undefined, and every target before it has a list. |
| SplashGeneration.AllGeneratedWhenDefined | src/index.js:280-283 | When every installed target has a list, exactly the installed targets are generated, in order. |
| SplashGeneration.MissingIosEntryStopsAll | src/index.js:82-85 | With update-config, an installed iOS and no `ios` entry in the config, no platform at all is generated. |

## Left out

- The Q promise plumbing and the scheduling of `generateSplashForPlatform` and `generateSplashes` are not modelled: specs run concurrently and platforms run in sequence. Only which jobs exist and which platforms are reached is modelled. Also not modelled: a spec whose image operation fails leaves its platform's promise pending forever, which stalls the later platforms.
- ImageMagick `identify`, `crop` and `convert` are external programs. The source size is an input (`SourceSize`). The crop and the 9-patch drawing are output data (`SplashJob`). The literal `convert` argument strings (colours, `-border 1`, number formatting) are not produced.
- Filesystem access (`fs.existsSync`, `fs.exists`, `fs.readFile`, `mkdirsSync`, `path.dirname`) is I/O. Directory existence is the `Installed` input, the per-platform source's existence is a boolean input, and directory creation is left out.
- XML parsing by xml2js is external. The model starts from the parsed `widget` element. Attribute values are strings in the code and integers here. A `platform` element without a `name` attribute is not modelled. Nor is a density tag that names an `Object.prototype` property such as `constructor`, which the JavaScript lookup would treat as found.
- Command-line parsing by minimist and `parseFloat` are external. Options arrive as an `Argv` record. A non-numeric fraction (NaN) and a valueless `--config` (boolean `true`) are not modelled.
- Console output (`display.*`), `getProjectName` (the project name is an input), `main`, `validSplashExists` and `configFileExists` are I/O and sequencing.
- `atLeastOnePlatformFound` is dead code: its call in `main` is commented out, and it calls `getPlatforms` without arguments.
- NinePatch.ComputeBorder: uses exact `real` arithmetic. It does not reproduce IEEE-754 double rounding of the divisions before `Math.round`, so results can differ when a value lies within a rounding error of a half.
- The readFile and parseString callbacks keep running after `deferred.reject` on an error. That path is not modelled.
- test/test.js depends on a fixed absolute path and only checks that `result['ios']` exists. It has no logic to model.
