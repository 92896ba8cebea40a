/**
 * The basic fingerprint tester: weighted attribute choices, the generator
 * of distinct combinations, the browser settings a combination turns into,
 * the per-site test loop and the uniqueness verdict. The browser and the
 * fingerprinting sites are an oracle.
 */
module FingerprintTester {
  import opened Wrappers
  import opened Seqs
  import opened Text
  import opened Rand
  import opened Picks

  /** The attribute lists read from the data files. */
  datatype Data = Data(
    userAgents: seq<string>,
    screenResolutions: seq<string>,
    timezones: seq<string>,
    languages: seq<string>,
    platforms: seq<string>)

  /** One combination dictionary. */
  datatype Combination = Combination(
    userAgent: string,
    screenResolution: string,
    timezone: string,
    language: string,
    platform: string)

  const CommonResolutions: seq<string> := ["1920x1080", "1366x768", "1280x720"]
  const CommonTimezones: seq<string> := ["America/New_York", "Europe/London", "America/Los_Angeles"]
  const CommonLanguages: seq<string> := ["en-US,en;q=0.9", "en-GB,en;q=0.9"]

  /** `get_weighted_resolution`: a common resolution with a 30% chance. */
  function WeightedResolution(src: Source, pos: nat, resolutions: seq<string>): (r: Result<Drawn<string>, RandError>)
    ensures r.Ok? ==> r.value.value in resolutions && r.value.next == pos + 2
    ensures src(pos) % 100 < 30 ==> (r.Ok? <==> exists c :: c in CommonResolutions && c in resolutions)
    ensures src(pos) % 100 < 30 && r.Ok? ==> r.value.value in CommonResolutions
    ensures 30 <= src(pos) % 100 ==> (r.Ok? <==> resolutions != [])
    ensures 30 <= src(pos) % 100 && r.Ok? && (exists x :: x in resolutions && x !in CommonResolutions) ==>
      r.value.value !in CommonResolutions
  {
    WeightedChoice(src, pos, resolutions, CommonResolutions, 30)
  }

  /** `get_weighted_timezone`: a common timezone with a 25% chance. */
  function WeightedTimezone(src: Source, pos: nat, timezones: seq<string>): (r: Result<Drawn<string>, RandError>)
    ensures r.Ok? ==> r.value.value in timezones && r.value.next == pos + 2
    ensures src(pos) % 100 < 25 ==> (r.Ok? <==> exists c :: c in CommonTimezones && c in timezones)
    ensures src(pos) % 100 < 25 && r.Ok? ==> r.value.value in CommonTimezones
    ensures 25 <= src(pos) % 100 ==> (r.Ok? <==> timezones != [])
    ensures 25 <= src(pos) % 100 && r.Ok? && (exists x :: x in timezones && x !in CommonTimezones) ==>
      r.value.value !in CommonTimezones
  {
    WeightedChoice(src, pos, timezones, CommonTimezones, 25)
  }

  /** `get_weighted_language`: a common language with a 20% chance. */
  function WeightedLanguage(src: Source, pos: nat, languages: seq<string>): (r: Result<Drawn<string>, RandError>)
    ensures r.Ok? ==> r.value.value in languages && r.value.next == pos + 2
    ensures src(pos) % 100 < 20 ==> (r.Ok? <==> exists c :: c in CommonLanguages && c in languages)
    ensures src(pos) % 100 < 20 && r.Ok? ==> r.value.value in CommonLanguages
    ensures 20 <= src(pos) % 100 ==> (r.Ok? <==> languages != [])
    ensures 20 <= src(pos) % 100 && r.Ok? && (exists x :: x in languages && x !in CommonLanguages) ==>
      r.value.value !in CommonLanguages
  {
    WeightedChoice(src, pos, languages, CommonLanguages, 20)
  }

  /** Every field of the combination comes from its data list. */
  predicate FromData(c: Combination, data: Data) {
    c.userAgent in data.userAgents && c.screenResolution in data.screenResolutions
    && c.timezone in data.timezones && c.language in data.languages && c.platform in data.platforms
  }

  /** One iteration of `generate_combinations`: the five draws in dictionary order. */
  function DrawCombination(src: Source, pos: nat, data: Data): (r: Result<Drawn<Combination>, RandError>)
    ensures r.Ok? ==> FromData(r.value.value, data) && r.value.next == pos + 8
    ensures (data.userAgents == [] || data.screenResolutions == [] || data.timezones == []
             || data.languages == [] || data.platforms == []) ==> r.Err?
  {
    var ua :- Choice(src, pos, data.userAgents);
    var resolution :- WeightedResolution(src, ua.next, data.screenResolutions);
    var timezone :- WeightedTimezone(src, resolution.next, data.timezones);
    var language :- WeightedLanguage(src, timezone.next, data.languages);
    var platform :- Choice(src, language.next, data.platforms);
    Ok(Drawn(Combination(ua.value, resolution.value, timezone.value, language.value, platform.value), platform.next))
  }

  /**
   * `generate_combinations(data, max_combinations)`: the drawn combinations
   * in order with repeats dropped, so at most `max_combinations` of them and
   * no two equal, each field from its list; a draw that raises ends it.
   */
  method GenerateCombinations(src: Source, pos: nat, data: Data, maxCombinations: int)
    returns (r: Result<Drawn<seq<Combination>>, RandError>)
    ensures var n := if maxCombinations < 0 then 0 else maxCombinations;
      var drawn := Repeat((q: nat) => DrawCombination(src, q, data), pos, n);
      (drawn.Err? ==> r == Err(drawn.error))
      && (drawn.Ok? ==> r == Ok(Drawn(Dedup(drawn.value.value), drawn.value.next)))
    ensures r.Ok? ==> |r.value.value| <= (if maxCombinations < 0 then 0 else maxCombinations)
    ensures r.Ok? ==> Distinct(r.value.value)
    ensures r.Ok? ==> forall c :: c in r.value.value ==> FromData(c, data)
  {
    var n := if maxCombinations < 0 then 0 else maxCombinations;
    var step := (q: nat) => DrawCombination(src, q, data);
    r := CollectDistinct(step, pos, n);
    RepeatAll(step, pos, n, c => FromData(c, data));
  }

  /**
   * `width, height = map(int, s.split('x'))`: exactly two fields around
   * `x`, each an integer as `int()` reads it; anything else raises.
   */
  function ParseResolution(s: string): (r: Option<(int, int)>)
    ensures r.Some? <==> (|Split(s, 'x')| == 2
                          && ParseInt(Split(s, 'x')[0]).Some? && ParseInt(Split(s, 'x')[1]).Some?)
    ensures r.Some? ==> r.value == (ParseInt(Split(s, 'x')[0]).value, ParseInt(Split(s, 'x')[1]).value)
  {
    var parts := Split(s, 'x');
    if |parts| != 2 then None
    else
      match (ParseInt(parts[0]), ParseInt(parts[1]))
      case (Some(w), Some(h)) => Some((w, h))
      case _ => None
  }

  /** `f"{w}x{h}"` parses back into `(w, h)`. */
  lemma ParseResolutionRoundTrip(w: int, h: int)
    ensures ParseResolution(IntToString(w) + "x" + IntToString(h)) == Some((w, h))
  {
    var a, b := IntToString(w), IntToString(h);
    IntToStringChars(w);
    IntToStringChars(h);
    SplitPair(a, 'x', b);
    assert a + "x" + b == a + ['x'] + b;
    ParseIntToString(w);
    ParseIntToString(h);
  }

  /** `languages.split(',')[0]`: the locale passed to the browser context. */
  function Locale(language: string): (r: string)
    ensures |r| <= |language| && r == language[..|r|] && ',' !in r
    ensures |r| < |language| ==> language[|r|] == ','
  {
    SplitHead(language, ',');
    Split(language, ',')[0]
  }

  /** The locale of `locale + "," + rest` is `locale` when it has no comma. */
  lemma LocaleOf(locale: string, rest: string)
    requires ',' !in locale
    ensures Locale(locale + "," + rest) == locale
  {
    SplitAfterHead(locale, ',', rest);
    assert locale + "," + rest == locale + [','] + rest;
  }

  /** The browser context of a combination. */
  datatype ContextSettings = ContextSettings(
    userAgent: string,
    width: int,
    height: int,
    locale: string,
    timezone: string,
    acceptLanguage: string)

  /** The context `test_combination` asks for; `None` when the resolution does not parse. */
  function SettingsOf(c: Combination): (r: Option<ContextSettings>)
    ensures r.Some? <==> ParseResolution(c.screenResolution).Some?
    ensures r.Some? ==> ((r.value.width, r.value.height) == ParseResolution(c.screenResolution).value
                         && r.value.userAgent == c.userAgent && r.value.timezone == c.timezone
                         && r.value.locale == Locale(c.language) && r.value.acceptLanguage == c.language)
  {
    match ParseResolution(c.screenResolution)
    case None => None
    case Some((w, h)) => Some(ContextSettings(c.userAgent, w, h, Locale(c.language), c.timezone, c.language))
  }

  /** What one site records: the extractor's answer, or the error it or the visit produced. */
  datatype SiteResult = SiteError(message: string) | SiteData(isUnique: bool)

  /**
   * Visiting a site with a context: the extractor's result, or `Err` with
   * the text of an exception raised while loading the page.
   */
  type Visit = (ContextSettings, string) -> Result<SiteResult, string>

  /**
   * The browser a combination is tested in. `opens(s)` says whether
   * `new_context`, `new_page` and both `add_init_script` calls return for
   * the settings `s`; `closes(s)` whether `context.close()` returns
   * after the sites were visited; `visit` answers the sites.
   */
  datatype Driver = Driver(opens: ContextSettings -> bool, visit: Visit, closes: ContextSettings -> bool)

  /** The outer `try` of `test_combination` runs through: the resolution parses and the context opens and closes. */
  predicate ContextWorks(c: Combination, driver: Driver) {
    SettingsOf(c).Some? && driver.opens(SettingsOf(c).value) && driver.closes(SettingsOf(c).value)
  }

  /** The `except` of the per-site loop turns a raised exception into `{'error': str(e)}`. */
  function Recorded(v: Result<SiteResult, string>): SiteResult {
    match v
    case Ok(res) => res
    case Err(message) => SiteError(message)
  }

  /** The dictionary `test_combination` returns. */
  datatype CombinationOutcome =
    | CombinationFailed             // `{'error': str(e)}` for the whole combination
    | Tested(settings: ContextSettings, results: seq<(string, SiteResult)>)

  /**
   * `test_combination`: a resolution that does not parse, or a context that
   * does not open or does not close, fails the whole combination; otherwise
   * every site is visited in turn, and a failure is recorded as an error for
   * that site only.
   */
  method TestCombination(c: Combination, sites: seq<string>, driver: Driver) returns (outcome: CombinationOutcome)
    ensures outcome == CombinationFailed <==> !ContextWorks(c, driver)
    ensures outcome.Tested? ==> outcome.settings == SettingsOf(c).value && |outcome.results| == |sites|
    ensures outcome.Tested? ==> forall k :: 0 <= k < |sites| ==>
      outcome.results[k] == (sites[k], Recorded(driver.visit(outcome.settings, sites[k])))
  {
    var settings := SettingsOf(c);
    if settings == None || !driver.opens(settings.value) {
      return CombinationFailed;
    }
    var results: seq<(string, SiteResult)> := [];
    var i := 0;
    while i < |sites|
      invariant 0 <= i <= |sites| && |results| == i
      invariant forall k :: 0 <= k < i ==> results[k] == (sites[k], Recorded(driver.visit(settings.value, sites[k])))
    {
      var result := driver.visit(settings.value, sites[i]);
      if result.Ok? {
        results := results + [(sites[i], result.value)];
      } else {
        results := results + [(sites[i], SiteError(result.error))];
      }
      i := i + 1;
    }
    if !driver.closes(settings.value) {
      return CombinationFailed;
    }
    return Tested(settings.value, results);
  }

  /** Some site answered without an error and found the fingerprint unique. */
  predicate SomeSiteUnique(outcome: CombinationOutcome) {
    outcome.Tested?
    && exists k :: 0 <= k < |outcome.results| && outcome.results[k].1.SiteData? && outcome.results[k].1.isUnique
  }

  /**
   * The verdict of `run_tests`: unique iff some non-error site result has a
   * true `is_unique`. A failed combination is never unique.
   */
  method UniquenessVerdict(outcome: CombinationOutcome) returns (isUnique: bool)
    ensures isUnique <==> SomeSiteUnique(outcome)
  {
    isUnique := false;
    if outcome.CombinationFailed? {
      return;
    }
    var results := outcome.results;
    var i := 0;
    while i < |results|
      invariant 0 <= i <= |results|
      invariant isUnique <==> exists k :: 0 <= k < i && results[k].1.SiteData? && results[k].1.isUnique
    {
      if !results[i].1.SiteError? && results[i].1.isUnique {
        isUnique := true;
      }
      i := i + 1;
    }
  }

  /** The verdict a combination gets from the sites. */
  ghost predicate UniqueCombination(c: Combination, sites: seq<string>, driver: Driver) {
    ContextWorks(c, driver)
    && exists k :: 0 <= k < |sites| && Recorded(driver.visit(SettingsOf(c).value, sites[k])) == SiteData(true)
  }

  /** One entry of `unique_combinations`. */
  datatype UniqueRecord = UniqueRecord(combinationId: nat, combination: Combination, results: seq<(string, SiteResult)>)

  /**
   * `test_combination` followed by the verdict: the site results, and
   * whether the combination counts as unique.
   */
  method Judge(c: Combination, sites: seq<string>, driver: Driver) returns (isUnique: bool, results: seq<(string, SiteResult)>)
    ensures isUnique <==> UniqueCombination(c, sites, driver)
  {
    var outcome := TestCombination(c, sites, driver);
    isUnique := UniquenessVerdict(outcome);
    results := if outcome.Tested? then outcome.results else [];
    if isUnique {
      var k :| 0 <= k < |outcome.results| && outcome.results[k].1.SiteData? && outcome.results[k].1.isUnique;
      assert outcome.results[k].1 == Recorded(driver.visit(SettingsOf(c).value, sites[k]));
    }
    if UniqueCombination(c, sites, driver) {
      var k :| 0 <= k < |sites| && Recorded(driver.visit(SettingsOf(c).value, sites[k])) == SiteData(true);
      assert outcome.results[k].1 == Recorded(driver.visit(SettingsOf(c).value, sites[k]));
    }
  }

  /** The verdict, as a predicate on combinations. */
  ghost function Verdict(sites: seq<string>, driver: Driver): Combination -> bool {
    c => UniqueCombination(c, sites, driver)
  }

  /** `unique` holds one record per combination the verdict accepts, in order, with its 1-based position. */
  ghost predicate Tally(unique: seq<UniqueRecord>, combinations: seq<Combination>, verdict: Combination -> bool) {
    var ids := Indices(combinations, verdict);
    |unique| == |ids|
    && forall k :: 0 <= k < |unique| ==>
      unique[k].combinationId == ids[k] + 1 && ids[k] < |combinations| && unique[k].combination == combinations[ids[k]]
  }

  /** Judging the next combination extends the tally by its record exactly when the verdict accepts it. */
  lemma TallyStep(unique: seq<UniqueRecord>, combinations: seq<Combination>, i: nat, verdict: Combination -> bool,
                  isUnique: bool, results: seq<(string, SiteResult)>)
    requires i < |combinations| && Tally(unique, combinations[..i], verdict)
    requires isUnique == verdict(combinations[i])
    ensures Tally(if isUnique then unique + [UniqueRecord(i + 1, combinations[i], results)] else unique,
                  combinations[..i + 1], verdict)
  {
    var c := combinations[..i + 1];
    assert c[..i] == combinations[..i];
    assert Indices(c, verdict) == Indices(combinations[..i], verdict) + (if isUnique then [i] else []);
  }

  /**
   * The test loop of `run_tests`, run one combination after another: one
   * record per unique combination, in order, carrying its 1-based position.
   */
  method RunTests(combinations: seq<Combination>, sites: seq<string>, driver: Driver) returns (unique: seq<UniqueRecord>)
    ensures Tally(unique, combinations, Verdict(sites, driver))
  {
    ghost var verdict := Verdict(sites, driver);
    unique := [];
    var i := 0;
    while i < |combinations|
      invariant 0 <= i <= |combinations|
      invariant Tally(unique, combinations[..i], verdict)
    {
      var isUnique, results := Judge(combinations[i], sites, driver);
      assert isUnique == verdict(combinations[i]);
      TallyStep(unique, combinations, i, verdict, isUnique, results);
      unique := if isUnique then unique + [UniqueRecord(i + 1, combinations[i], results)] else unique;
      i := i + 1;
    }
    assert combinations[..i] == combinations;
  }

  /**
   * The records are exactly the unique combinations: each names one, their
   * ids increase, and every unique combination has a record.
   */
  lemma RunTestsRecordsUnique(combinations: seq<Combination>, sites: seq<string>, driver: Driver, unique: seq<UniqueRecord>)
    requires Tally(unique, combinations, Verdict(sites, driver))
    ensures forall k :: 0 <= k < |unique| ==>
      1 <= unique[k].combinationId <= |combinations|
      && UniqueCombination(combinations[unique[k].combinationId - 1], sites, driver)
    ensures forall k, l :: 0 <= k < l < |unique| ==> unique[k].combinationId < unique[l].combinationId
    ensures forall j :: 0 <= j < |combinations| && UniqueCombination(combinations[j], sites, driver) ==>
      exists k :: 0 <= k < |unique| && unique[k].combinationId == j + 1
  {
    var ids := Indices(combinations, Verdict(sites, driver));
    IndicesSpec(combinations, Verdict(sites, driver));
    forall k | 0 <= k < |unique|
      ensures 1 <= unique[k].combinationId <= |combinations|
        && UniqueCombination(combinations[unique[k].combinationId - 1], sites, driver)
    {
      assert Verdict(sites, driver)(combinations[ids[k]]);
    }
    forall j | 0 <= j < |combinations| && UniqueCombination(combinations[j], sites, driver)
      ensures exists k :: 0 <= k < |unique| && unique[k].combinationId == j + 1
    {
      assert Verdict(sites, driver)(combinations[j]);
      var k :| 0 <= k < |ids| && ids[k] == j;
      assert unique[k].combinationId == j + 1;
    }
  }
}
