/**
 * The advanced fingerprint tester's generator: weighted attribute choices,
 * bounded random subsets of plugins and fonts, the `vendor|renderer` file
 * format, the hardware attributes and the list of distinct combinations.
 */
module AdvancedTester {
  import opened Wrappers
  import opened Seqs
  import opened Text
  import opened Rand
  import opened Picks

  /** One entry of the `flash_plugins` JSON array. */
  datatype Plugin = Plugin(name: string, description: string, filename: string, version: string, mimeTypes: seq<string>)

  /**
   * The loaded data files, in the order of `data_files`. `flashPlugins` is
   * `None` when the JSON file did not hold a list.
   */
  datatype Data = Data(
    userAgents: seq<string>,
    screenResolutions: seq<string>,
    timezones: seq<string>,
    flashPlugins: Option<seq<Plugin>>,
    languages: seq<string>,
    platforms: seq<string>,
    flashLanguages: seq<string>,
    flashPlatforms: seq<string>,
    fonts: seq<string>,
    webglVendorRenderer: seq<string>)

  function Min(a: int, b: int): int {
    if a < b then a else b
  }

  /** The plugin list, empty when the JSON value is not a list. */
  function PluginList(plugins: Option<seq<Plugin>>): seq<Plugin> {
    match plugins
    case None => []
    case Some(ps) => ps
  }

  /**
   * `get_random_flash_plugins(flash_plugins, min_plugins, max_plugins)`:
   * nothing for a missing or empty list; otherwise a count drawn from
   * `[min_plugins, min(max_plugins, len)]` and that many plugins from
   * distinct positions, or a copy of the whole list when the count reaches
   * its length.
   */
  function FlashPlugins(src: Source, pos: nat, plugins: Option<seq<Plugin>>, minPlugins: int, maxPlugins: int)
    : (r: Result<Drawn<seq<Plugin>>, RandError>)
    ensures plugins == None || plugins == Some([]) ==> r == Ok(Drawn([], pos))
    ensures r.Ok? ==> multiset(r.value.value) <= multiset(PluginList(plugins))
    ensures r.Ok? && plugins.Some? && Distinct(plugins.value) ==> Distinct(r.value.value)
    ensures plugins.Some? && plugins.value != [] ==>
      var hi := Min(maxPlugins, |plugins.value|);
      (hi < minPlugins ==> r == Err(EmptyRange))
      && (0 <= minPlugins <= hi ==> r.Ok?)
      && (r.Ok? ==> |r.value.value| == RandInt(src, pos, minPlugins, hi).value.value && |r.value.value| <= hi)
      && (r.Ok? && |r.value.value| == |plugins.value| ==> r.value.value == plugins.value)
  {
    match plugins
    case None => Ok(Drawn([], pos))
    case Some(ps) =>
      if ps == [] then Ok(Drawn([], pos))
      else
        var num :- RandInt(src, pos, minPlugins, Min(maxPlugins, |ps|));
        if num.value == 0 then Ok(Drawn([], num.next))
        else if num.value >= |ps| then Ok(Drawn(ps, num.next))
        else Sample(src, num.next, ps, num.value)
  }

  const CommonResolutions: seq<string> := ["1920x1080", "1366x768", "1280x720", "1536x864"]
  const CommonTimezones: seq<string> := ["America/New_York", "Europe/London", "America/Los_Angeles", "UTC"]
  const CommonLanguages: seq<string> := ["en-US,en;q=0.9", "en-GB,en;q=0.9", "en,en-US;q=0.9"]

  /** `get_weighted_resolution`: a common resolution with a 20% chance. */
  function WeightedResolution(src: Source, pos: nat, resolutions: seq<string>): (r: Result<Drawn<string>, RandError>)
    ensures r.Ok? ==> r.value.value in resolutions && r.value.next == pos + 2
    ensures src(pos) % 100 < 20 ==> (r.Ok? <==> exists c :: c in CommonResolutions && c in resolutions)
    ensures src(pos) % 100 < 20 && r.Ok? ==> r.value.value in CommonResolutions
    ensures 20 <= src(pos) % 100 ==> (r.Ok? <==> resolutions != [])
    ensures 20 <= src(pos) % 100 && r.Ok? && (exists x :: x in resolutions && x !in CommonResolutions) ==>
      r.value.value !in CommonResolutions
  {
    WeightedChoice(src, pos, resolutions, CommonResolutions, 20)
  }

  /** `get_weighted_timezone`: a common timezone with a 15% chance. */
  function WeightedTimezone(src: Source, pos: nat, timezones: seq<string>): (r: Result<Drawn<string>, RandError>)
    ensures r.Ok? ==> r.value.value in timezones && r.value.next == pos + 2
    ensures src(pos) % 100 < 15 ==> (r.Ok? <==> exists c :: c in CommonTimezones && c in timezones)
    ensures src(pos) % 100 < 15 && r.Ok? ==> r.value.value in CommonTimezones
    ensures 15 <= src(pos) % 100 ==> (r.Ok? <==> timezones != [])
    ensures 15 <= src(pos) % 100 && r.Ok? && (exists x :: x in timezones && x !in CommonTimezones) ==>
      r.value.value !in CommonTimezones
  {
    WeightedChoice(src, pos, timezones, CommonTimezones, 15)
  }

  /** `get_weighted_language`: a common language with a 10% chance. */
  function WeightedLanguage(src: Source, pos: nat, languages: seq<string>): (r: Result<Drawn<string>, RandError>)
    ensures r.Ok? ==> r.value.value in languages && r.value.next == pos + 2
    ensures src(pos) % 100 < 10 ==> (r.Ok? <==> exists c :: c in CommonLanguages && c in languages)
    ensures src(pos) % 100 < 10 && r.Ok? ==> r.value.value in CommonLanguages
    ensures 10 <= src(pos) % 100 ==> (r.Ok? <==> languages != [])
    ensures 10 <= src(pos) % 100 && r.Ok? && (exists x :: x in languages && x !in CommonLanguages) ==>
      r.value.value !in CommonLanguages
  {
    WeightedChoice(src, pos, languages, CommonLanguages, 10)
  }

  const CommonFonts: seq<string> := ["Arial", "Times New Roman", "Helvetica", "Georgia", "Verdana"]

  /** `any(common in f for common in common_fonts)`: a common font name occurs inside `f`. */
  predicate IsCommonFont(f: string) {
    exists i :: 0 <= i < |CommonFonts| && Contains(f, CommonFonts[i])
  }

  /** `available_common`: the fonts of the list that contain a common font name. */
  function AvailableCommon(fonts: seq<string>): (r: seq<string>)
    ensures forall f :: f in r <==> f in fonts && IsCommonFont(f)
  {
    FilterContents(fonts, f => IsCommonFont(f));
    Filter(fonts, f => IsCommonFont(f))
  }

  /** Every member of a sub-multiset is a member of the whole. */
  lemma SubMembers<T>(a: seq<T>, b: seq<T>)
    requires multiset(a) <= multiset(b)
    ensures forall x :: x in a ==> x in b
  {
    forall x | x in a ensures x in b {
      assert x in multiset(a);
    }
  }

  /**
   * `get_random_font_subset(fonts, min_fonts, max_fonts)`: a count drawn
   * from `[min_fonts, min(max_fonts, len)]`, that many fonts from distinct
   * positions, up to three fonts with a common name added, and duplicates
   * removed. The set's iteration order is modelled as first occurrence.
   */
  function FontSubset(src: Source, pos: nat, fonts: seq<string>, minFonts: int, maxFonts: int)
    : (r: Result<Drawn<seq<string>>, RandError>)
    ensures Min(maxFonts, |fonts|) < minFonts ==> r == Err(EmptyRange)
    ensures 0 <= minFonts ==> (r.Ok? <==> minFonts <= Min(maxFonts, |fonts|))
    ensures r.Ok? ==> Distinct(r.value.value) && forall f :: f in r.value.value ==> f in fonts
    ensures r.Ok? ==> |r.value.value| <= Min(maxFonts, |fonts|) + 3
    ensures r.Ok? && (exists f :: f in fonts && IsCommonFont(f)) ==> exists f :: f in r.value.value && IsCommonFont(f)
    ensures r.Ok? && Distinct(fonts) ==> minFonts <= |r.value.value|
  {
    var num :- RandInt(src, pos, minFonts, Min(maxFonts, |fonts|));
    var selected :- Sample(src, num.next, fonts, Min(num.value, |fonts|));
    SubMembers(selected.value, fonts);
    var common := AvailableCommon(fonts);
    if common != [] then
      var extra := Sample(src, selected.next, common, Min(3, |common|)).value;
      var all := selected.value + extra.value;
      SubMembers(extra.value, common);
      assert extra.value[0] in all;
      assert Distinct(fonts) ==> num.value <= |Dedup(all)| by {
        if Distinct(fonts) {
          DedupOfDistinct(selected.value);
          DedupAppendLonger(selected.value, extra.value);
        }
      }
      Ok(Drawn(Dedup(all), extra.next))
    else
      assert Distinct(fonts) ==> Dedup(selected.value) == selected.value by {
        if Distinct(fonts) {
          DedupOfDistinct(selected.value);
        }
      }
      Ok(Drawn(Dedup(selected.value), selected.next))
  }

  /**
   * One line of the WebGL file as `parse_webgl_data` reads it: split at the
   * first `|` with both halves stripped, or the whole stripped line as both
   * vendor and renderer when there is no `|`.
   */
  function WebglEntry(line: string): (r: (string, string))
    ensures '|' !in line ==> r == (Strip(line), Strip(line))
    ensures '|' in line ==>
      exists i :: 0 <= i < |line| && line[i] == '|' && '|' !in line[..i]
                  && r == (Strip(line[..i]), Strip(line[i + 1..]))
  {
    match SplitOnce(line, '|')
    case None => (Strip(line), Strip(line))
    case Some((vendor, renderer)) =>
      var i := |vendor|;
      assert line[..i] == vendor && line[i] == '|' && line[i + 1..] == renderer;
      (Strip(vendor), Strip(renderer))
  }

  /** Writing `vendor|renderer` with a `|`-free vendor and reading it back gives both halves, stripped. */
  lemma WebglEntryRoundTrip(vendor: string, renderer: string)
    requires '|' !in vendor
    ensures WebglEntry(vendor + "|" + renderer) == (Strip(vendor), Strip(renderer))
  {
    assert vendor + "|" + renderer == vendor + ['|'] + renderer;
    SplitOnceOf(vendor, '|', renderer);
  }

  /** The vendor column of the WebGL file. */
  function Vendors(lines: seq<string>): seq<string> {
    seq(|lines|, k requires 0 <= k < |lines| => WebglEntry(lines[k]).0)
  }

  /** The renderer column of the WebGL file. */
  function Renderers(lines: seq<string>): seq<string> {
    seq(|lines|, k requires 0 <= k < |lines| => WebglEntry(lines[k]).1)
  }

  /** `firsts` and `seconds` hold the two halves of `entry` of each line, in line order. */
  ghost predicate Columns<T, U>(firsts: seq<U>, seconds: seq<U>, lines: seq<T>, entry: T -> (U, U)) {
    |firsts| == |lines| && |seconds| == |lines|
    && forall k :: 0 <= k < |lines| ==> (firsts[k], seconds[k]) == entry(lines[k])
  }

  /** Appending the next line's entry keeps the columns. */
  lemma ColumnsStep<T, U>(firsts: seq<U>, seconds: seq<U>, lines: seq<T>, i: nat, entry: T -> (U, U), e: (U, U))
    requires i < |lines| && Columns(firsts, seconds, lines[..i], entry) && e == entry(lines[i])
    ensures Columns(firsts + [e.0], seconds + [e.1], lines[..i + 1], entry)
  {
  }

  /**
   * `parse_webgl_data(lines)`: one vendor and one renderer per line, in
   * line order, appended as the loop reads each line.
   */
  method ParseWebglData(lines: seq<string>) returns (vendors: seq<string>, renderers: seq<string>)
    ensures |vendors| == |lines| && |renderers| == |lines|
    ensures forall k :: 0 <= k < |lines| ==> (vendors[k], renderers[k]) == WebglEntry(lines[k])
    ensures vendors == Vendors(lines) && renderers == Renderers(lines)
  {
    vendors, renderers := [], [];
    var i := 0;
    while i < |lines|
      invariant 0 <= i <= |lines| && Columns(vendors, renderers, lines[..i], WebglEntry)
    {
      var line := lines[i];
      if '|' in line {
        var parts := SplitOnce(line, '|').value;
        ColumnsStep(vendors, renderers, lines, i, WebglEntry, (Strip(parts.0), Strip(parts.1)));
        vendors := vendors + [Strip(parts.0)];
        renderers := renderers + [Strip(parts.1)];
      } else {
        ColumnsStep(vendors, renderers, lines, i, WebglEntry, (Strip(line), Strip(line)));
        vendors := vendors + [Strip(line)];
        renderers := renderers + [Strip(line)];
      }
      i := i + 1;
    }
    assert lines[..i] == lines;
  }

  /** The attributes drawn from the text files, in dictionary order. */
  datatype Profile = Profile(
    userAgent: string,
    screenResolution: string,
    timezone: string,
    language: string,
    platform: string,
    flashLanguage: string,
    flashPlatform: string)

  /** Every attribute of the profile comes from its data list. */
  predicate ProfileFromData(p: Profile, data: Data) {
    p.userAgent in data.userAgents && p.screenResolution in data.screenResolutions
    && p.timezone in data.timezones && p.language in data.languages && p.platform in data.platforms
    && p.flashLanguage in data.flashLanguages && p.flashPlatform in data.flashPlatforms
  }

  /** The seven profile draws of one combination dictionary. */
  function DrawProfile(src: Source, pos: nat, data: Data): (r: Result<Drawn<Profile>, RandError>)
    ensures r.Ok? ==> ProfileFromData(r.value.value, data) && r.value.next == pos + 10
    ensures (data.userAgents == [] || data.screenResolutions == [] || data.timezones == []
             || data.languages == [] || data.platforms == [] || data.flashLanguages == []
             || data.flashPlatforms == []) ==> r.Err?
  {
    var ua :- Choice(src, pos, data.userAgents);
    var resolution :- WeightedResolution(src, ua.next, data.screenResolutions);
    var timezone :- WeightedTimezone(src, resolution.next, data.timezones);
    var language :- WeightedLanguage(src, timezone.next, data.languages);
    var platform :- Choice(src, language.next, data.platforms);
    var flashLanguage :- Choice(src, platform.next, data.flashLanguages);
    var flashPlatform :- Choice(src, flashLanguage.next, data.flashPlatforms);
    Ok(Drawn(Profile(ua.value, resolution.value, timezone.value, language.value, platform.value,
                     flashLanguage.value, flashPlatform.value), flashPlatform.next))
  }

  /** `random.choice(vendors)` then `random.choice(renderers)`, two independent draws. */
  function DrawWebgl(src: Source, pos: nat, vendors: seq<string>, renderers: seq<string>)
    : (r: Result<Drawn<(string, string)>, RandError>)
    ensures r.Ok? <==> vendors != [] && renderers != []
    ensures r.Ok? ==> r.value.value.0 in vendors && r.value.value.1 in renderers && r.value.next == pos + 2
  {
    var vendor :- Choice(src, pos, vendors);
    var renderer :- Choice(src, vendor.next, renderers);
    Ok(Drawn((vendor.value, renderer.value), renderer.next))
  }

  /**
   * The draws do not keep the pairs of the file: any vendor can come out
   * together with any renderer.
   */
  lemma DrawWebglPairsAny(pos: nat, vendors: seq<string>, renderers: seq<string>, i: nat, j: nat)
    requires i < |vendors| && j < |renderers|
    ensures exists src: Source :: DrawWebgl(src, pos, vendors, renderers) == Ok(Drawn((vendors[i], renderers[j]), pos + 2))
  {
    var src: Source := (n: nat) => if n == pos then i else j;
    assert Choice(src, pos, vendors) == Ok(Drawn(vendors[i], pos + 1));
    assert Choice(src, pos + 1, renderers) == Ok(Drawn(renderers[j], pos + 2));
    assert DrawWebgl(src, pos, vendors, renderers) == Ok(Drawn((vendors[i], renderers[j]), pos + 2));
  }

  /**
   * The numeric attributes. Device memory (0.25 to 32 GB) and pixel ratio
   * (1 to 3) are kept in quarters, so that every listed value is an integer.
   */
  datatype Hardware = Hardware(
    hardwareConcurrency: int,
    deviceMemoryQuarters: int,
    colorDepth: int,
    pixelRatioQuarters: int,
    maxTouchPoints: int,
    canvasNoise: int,
    webglNoise: int)

  const DeviceMemoryQuarters: seq<int> := [1, 2, 4, 8, 16, 32, 64, 128]
  const ColorDepths: seq<int> := [16, 24, 30, 32, 48]
  const PixelRatioQuarters: seq<int> := [4, 5, 6, 8, 10, 12]
  const TouchPoints: seq<int> := [0, 1, 2, 5, 10]

  /** The ranges and lists the numeric attributes are drawn from. */
  predicate HardwareInRange(h: Hardware) {
    2 <= h.hardwareConcurrency <= 32 && h.deviceMemoryQuarters in DeviceMemoryQuarters
    && h.colorDepth in ColorDepths && h.pixelRatioQuarters in PixelRatioQuarters
    && h.maxTouchPoints in TouchPoints && 1 <= h.canvasNoise <= 10 && 1 <= h.webglNoise <= 5
  }

  /** The seven numeric draws; none of them can raise. */
  function DrawHardware(src: Source, pos: nat): (r: Drawn<Hardware>)
    ensures HardwareInRange(r.value) && r.next == pos + 7
  {
    var concurrency := RandInt(src, pos, 2, 32).value;
    var memory := Choice(src, concurrency.next, DeviceMemoryQuarters).value;
    var depth := Choice(src, memory.next, ColorDepths).value;
    var ratio := Choice(src, depth.next, PixelRatioQuarters).value;
    var touch := Choice(src, ratio.next, TouchPoints).value;
    var canvas := RandInt(src, touch.next, 1, 10).value;
    var webgl := RandInt(src, canvas.next, 1, 5).value;
    Drawn(Hardware(concurrency.value, memory.value, depth.value, ratio.value, touch.value, canvas.value, webgl.value),
          webgl.next)
  }

  /** Every value in those ranges and lists can be drawn. */
  lemma DrawHardwareReaches(pos: nat, h: Hardware)
    requires HardwareInRange(h)
    ensures exists src: Source :: DrawHardware(src, pos) == Drawn(h, pos + 7)
  {
    var m :| 0 <= m < |DeviceMemoryQuarters| && DeviceMemoryQuarters[m] == h.deviceMemoryQuarters;
    var d :| 0 <= d < |ColorDepths| && ColorDepths[d] == h.colorDepth;
    var p :| 0 <= p < |PixelRatioQuarters| && PixelRatioQuarters[p] == h.pixelRatioQuarters;
    var t :| 0 <= t < |TouchPoints| && TouchPoints[t] == h.maxTouchPoints;
    var draws: seq<nat> := [h.hardwareConcurrency - 2, m, d, p, t, h.canvasNoise - 1, h.webglNoise - 1];
    var src: Source := (n: nat) => if pos <= n < pos + 7 then draws[n - pos] else 0;
    DrawHardwareFrom(src, pos, draws);
    assert Hardware(draws[0] + 2, DeviceMemoryQuarters[draws[1]], ColorDepths[draws[2]], PixelRatioQuarters[draws[3]],
                    TouchPoints[draws[4]], draws[5] + 1, draws[6] + 1) == h;
    assert DrawHardware(src, pos) == Drawn(h, pos + 7);
  }

  /** The draws spelled out: each value selects its range offset or list index. */
  lemma DrawHardwareFrom(src: Source, pos: nat, draws: seq<nat>)
    requires |draws| == 7 && forall k :: 0 <= k < 7 ==> src(pos + k) == draws[k]
    requires draws[0] <= 30 && draws[1] < 8 && draws[2] < 5 && draws[3] < 6 && draws[4] < 5
    requires draws[5] < 10 && draws[6] < 5
    ensures DrawHardware(src, pos) == Drawn(Hardware(draws[0] + 2, DeviceMemoryQuarters[draws[1]], ColorDepths[draws[2]],
      PixelRatioQuarters[draws[3]], TouchPoints[draws[4]], draws[5] + 1, draws[6] + 1), pos + 7)
  {
    assert src(pos) == draws[0] && src(pos + 1) == draws[1] && src(pos + 2) == draws[2];
    assert src(pos + 3) == draws[3] && src(pos + 4) == draws[4];
    assert src(pos + 5) == draws[5] && src(pos + 6) == draws[6];
    assert RandInt(src, pos, 2, 32) == Ok(Drawn(draws[0] + 2, pos + 1));
    assert Choice(src, pos + 1, DeviceMemoryQuarters) == Ok(Drawn(DeviceMemoryQuarters[draws[1]], pos + 2));
    assert Choice(src, pos + 2, ColorDepths) == Ok(Drawn(ColorDepths[draws[2]], pos + 3));
    assert Choice(src, pos + 3, PixelRatioQuarters) == Ok(Drawn(PixelRatioQuarters[draws[3]], pos + 4));
    assert Choice(src, pos + 4, TouchPoints) == Ok(Drawn(TouchPoints[draws[4]], pos + 5));
    assert RandInt(src, pos + 5, 1, 10) == Ok(Drawn(draws[5] + 1, pos + 6));
    assert RandInt(src, pos + 6, 1, 5) == Ok(Drawn(draws[6] + 1, pos + 7));
  }

  /** One advanced combination dictionary. */
  datatype Combination = Combination(
    profile: Profile,
    fonts: seq<string>,
    webglVendor: string,
    webglRenderer: string,
    hardware: Hardware,
    flashPlugins: seq<Plugin>)

  /** What each field of a drawn combination is taken from. */
  predicate Drawable(c: Combination, data: Data, vendors: seq<string>, renderers: seq<string>) {
    ProfileFromData(c.profile, data)
    && Distinct(c.fonts) && (forall f :: f in c.fonts ==> f in data.fonts)
    && c.webglVendor in vendors && c.webglRenderer in renderers
    && HardwareInRange(c.hardware)
    && multiset(c.flashPlugins) <= multiset(PluginList(data.flashPlugins)) && |c.flashPlugins| <= 3
  }

  /**
   * One iteration of `generate_advanced_combinations`: the font subset
   * first, then the dictionary's draws in order, the plugins last.
   */
  function DrawAdvanced(src: Source, pos: nat, data: Data, vendors: seq<string>, renderers: seq<string>)
    : (r: Result<Drawn<Combination>, RandError>)
    ensures r.Ok? ==> Drawable(r.value.value, data, vendors, renderers)
    ensures |data.fonts| < 20 || vendors == [] || renderers == [] ==> r.Err?
  {
    var fonts :- FontSubset(src, pos, data.fonts, 20, 50);
    var profile :- DrawProfile(src, fonts.next, data);
    var webgl :- DrawWebgl(src, profile.next, vendors, renderers);
    var hardware := DrawHardware(src, webgl.next);
    var plugins :- FlashPlugins(src, hardware.next, data.flashPlugins, 0, 3);
    Ok(Drawn(Combination(profile.value, fonts.value, webgl.value.0, webgl.value.1, hardware.value, plugins.value),
             plugins.next))
  }

  /**
   * `generate_advanced_combinations(data, max_combinations)`: the WebGL
   * file parsed once, then the drawn combinations in order with repeats
   * dropped, so at most `max_combinations` of them and no two equal; a
   * draw that raises ends it.
   */
  method GenerateAdvancedCombinations(src: Source, pos: nat, data: Data, maxCombinations: int)
    returns (r: Result<Drawn<seq<Combination>>, RandError>)
    ensures var n := if maxCombinations < 0 then 0 else maxCombinations;
      var vendors, renderers := Vendors(data.webglVendorRenderer), Renderers(data.webglVendorRenderer);
      var drawn := Repeat((q: nat) => DrawAdvanced(src, q, data, vendors, renderers), pos, n);
      (drawn.Err? ==> r == Err(drawn.error))
      && (drawn.Ok? ==> r == Ok(Drawn(Dedup(drawn.value.value), drawn.value.next)))
    ensures r.Ok? ==> |r.value.value| <= (if maxCombinations < 0 then 0 else maxCombinations)
    ensures r.Ok? ==> Distinct(r.value.value)
    ensures r.Ok? ==> forall c :: c in r.value.value ==>
      Drawable(c, data, Vendors(data.webglVendorRenderer), Renderers(data.webglVendorRenderer))
  {
    var vendors, renderers := ParseWebglData(data.webglVendorRenderer);
    var n := if maxCombinations < 0 then 0 else maxCombinations;
    var step := (q: nat) => DrawAdvanced(src, q, data, vendors, renderers);
    r := CollectDistinct(step, pos, n);
    RepeatAll(step, pos, n, c => Drawable(c, data, vendors, renderers));
  }
}
