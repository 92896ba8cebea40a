/**
 * The browser manager: fingerprint generation, launch commands built from
 * stored rows, browser creation, the daily interaction plan, batch
 * selection and the command queue.
 */
module Fleet {
  import opened Wrappers
  import opened Text
  import opened Seqs
  import opened Rand
  import opened Clock
  import opened Store

  const UserAgents: seq<string> := [
    "Mozilla/5.0 (Windows NT 10.0; Win64; x64) AppleWebKit/537.36 (KHTML, like Gecko) Chrome/120.0.0.0 Safari/537.36",
    "Mozilla/5.0 (Windows NT 10.0; Win64; x64) AppleWebKit/537.36 (KHTML, like Gecko) Chrome/119.0.0.0 Safari/537.36",
    "Mozilla/5.0 (Macintosh; Intel Mac OS X 10_15_7) AppleWebKit/537.36 (KHTML, like Gecko) Chrome/120.0.0.0 Safari/537.36",
    "Mozilla/5.0 (X11; Linux x86_64) AppleWebKit/537.36 (KHTML, like Gecko) Chrome/120.0.0.0 Safari/537.36"]
  const Viewports: seq<Viewport> := [
    Viewport(1920, 1080), Viewport(1366, 768), Viewport(1440, 900), Viewport(1536, 864), Viewport(1280, 720)]
  const Timezones: seq<string> := [
    "America/New_York", "America/Los_Angeles", "Europe/London", "Europe/Paris", "Asia/Tokyo", "Australia/Sydney"]
  const Locales: seq<string> := ["en-US", "en-GB", "fr-FR", "de-DE", "es-ES", "ja-JP"]
  const Platforms: seq<string> := ["Win32", "MacIntel", "Linux x86_64"]
  const ColorDepths: seq<int> := [24, 32]
  const WebglVendors: seq<string> := ["Google Inc.", "NVIDIA Corporation", "AMD"]
  const FontCatalogue: seq<string> := [
    "Arial", "Times New Roman", "Helvetica", "Georgia", "Verdana",
    "Courier New", "Comic Sans MS", "Trebuchet MS", "Impact"]
  /** `string.ascii_letters + string.digits`. */
  const CanvasAlphabet: string := "abcdefghijklmnopqrstuvwxyzABCDEFGHIJKLMNOPQRSTUVWXYZ0123456789"

  function RendererText(n: int): string {
    "ANGLE (Direct3D11 vs_5_0 ps_5_0, D3D11-" + IntToString(n) + ")"
  }

  /** What every generated fingerprint satisfies. */
  predicate WellFormedFingerprint(fp: Fingerprint) {
    fp.userAgent in UserAgents && fp.viewport in Viewports && fp.timezone in Timezones &&
    fp.locale in Locales && fp.platform in Platforms &&
    fp.screen.width == fp.viewport.width && fp.screen.height == fp.viewport.height &&
    fp.screen.colorDepth in ColorDepths && fp.screen.pixelDepth in ColorDepths &&
    fp.webglVendor in WebglVendors &&
    (exists n :: 10000 <= n <= 99999 && fp.webglRenderer == RendererText(n)) &&
    |fp.canvasFingerprint| == 32 && (forall c :: c in fp.canvasFingerprint ==> c in CanvasAlphabet) &&
    5 <= |fp.fonts| <= 9 && Distinct(fp.fonts) && (forall f :: f in fp.fonts ==> f in FontCatalogue)
  }

  lemma FontCatalogueDistinct()
    ensures Distinct(FontCatalogue)
  {
  }

  /**
   * `generate_fingerprint`, drawing in the order of the dict literal: the
   * viewport first, then each field, one draw for the float
   * `audio_fingerprint`, then the font count and the font sample.
   */
  function GenerateFingerprint(src: Source, pos: nat): (r: Drawn<Fingerprint>)
    ensures WellFormedFingerprint(r.value)
    ensures r.next > pos
  {
    var viewport := Choice(src, pos, Viewports).value;
    var ua := Choice(src, viewport.next, UserAgents).value;
    var tz := Choice(src, ua.next, Timezones).value;
    var locale := Choice(src, tz.next, Locales).value;
    var platform := Choice(src, locale.next, Platforms).value;
    var colorDepth := Choice(src, platform.next, ColorDepths).value;
    var pixelDepth := Choice(src, colorDepth.next, ColorDepths).value;
    var vendor := Choice(src, pixelDepth.next, WebglVendors).value;
    var n := RandInt(src, vendor.next, 10000, 99999).value;
    var canvas := Choices(src, n.next, CanvasAlphabet, 32).value;
    var afterAudio := canvas.next + 1;
    var k := RandInt(src, afterAudio, 5, 9).value;
    FontCatalogueDistinct();
    var fonts := Sample(src, k.next, FontCatalogue, k.value).value;
    assert forall f :: f in fonts.value ==> f in multiset(FontCatalogue);
    var fp := Fingerprint(ua.value, viewport.value, tz.value, locale.value, platform.value,
      Screen(viewport.value.width, viewport.value.height, colorDepth.value, pixelDepth.value),
      vendor.value, RendererText(n.value), canvas.value, fonts.value);
    assert 10000 <= n.value <= 99999 && fp.webglRenderer == RendererText(n.value);
    Drawn(fp, fonts.next)
  }

  /** A Playwright `proxy` option. */
  datatype ProxySettings = ProxySettings(server: string, username: Option<string>, password: Option<string>)

  datatype LaunchOptions = LaunchOptions(headless: bool, args: seq<string>)

  datatype ContextOptions = ContextOptions(
    userAgent: string,
    viewport: Viewport,
    timezoneId: string,
    locale: string,
    screen: Screen,
    acceptLanguage: string,
    proxy: Option<ProxySettings>)

  datatype FingerprintOverrides = FingerprintOverrides(
    webglVendor: string, webglRenderer: string, canvasFingerprint: string, fonts: seq<string>)

  datatype LaunchCommand = LaunchCommand(
    browserId: string, launchOptions: LaunchOptions, contextOptions: ContextOptions, overrides: FingerprintOverrides)

  datatype FleetError = BrowserNotFound(browserId: string)

  /** `SELECT * FROM browsers WHERE browser_id = ?` with `fetchone()`. */
  function FindBrowser(rows: seq<BrowserRow>, browserId: string): (r: Option<BrowserRow>)
    ensures r.Some? <==> HasBrowser(rows, browserId)
    ensures r.Some? ==> r.value in rows && r.value.browserId == browserId
  {
    if rows == [] then None
    else if rows[0].browserId == browserId then Some(rows[0])
    else
      var r := FindBrowser(rows[1..], browserId);
      assert HasBrowser(rows, browserId) ==> HasBrowser(rows[1..], browserId) by {
        if HasBrowser(rows, browserId) {
          var i :| 0 <= i < |rows| && rows[i].browserId == browserId;
          assert rows[1..][i - 1] == rows[i];
        }
      }
      assert HasBrowser(rows[1..], browserId) ==> HasBrowser(rows, browserId) by {
        if HasBrowser(rows[1..], browserId) {
          var i :| 0 <= i < |rows[1..]| && rows[1..][i].browserId == browserId;
          assert rows[i + 1] == rows[1..][i];
        }
      }
      r
  }

  /** `SELECT host, port, username, password FROM proxies WHERE id = ?` with `fetchone()`. */
  function FindProxy(rows: seq<ProxyRow>, id: int): (r: Option<ProxyRow>)
    ensures r.Some? <==> exists i :: 0 <= i < |rows| && rows[i].id == id
    ensures r.Some? ==> r.value in rows && r.value.id == id
  {
    if rows == [] then None
    else if rows[0].id == id then Some(rows[0])
    else
      var r := FindProxy(rows[1..], id);
      assert forall i :: 0 < i < |rows| ==> rows[i] == rows[1..][i - 1];
      r
  }

  /** Python truthiness of a nullable text column: NULL and `''` are both false. */
  function NonEmpty(v: Option<string>): Option<string> {
    if v.Some? && v.value != "" then v else None
  }

  function ProxyFor(p: ProxyRow): ProxySettings {
    ProxySettings("http://" + p.host + ":" + IntToString(p.port), NonEmpty(p.username), NonEmpty(p.password))
  }

  /**
   * `generate_launch_command`: an unknown id raises; otherwise the command
   * carries the stored fingerprint, and a proxy when `use_proxy` is set, the
   * row's `proxy_id` is truthy (non-NULL and non-zero) and that proxy row exists.
   */
  function GenerateLaunchCommand(browsers: seq<BrowserRow>, proxies: seq<ProxyRow>, browserId: string,
                                 headless: bool, useProxy: bool): (r: Result<LaunchCommand, FleetError>)
    ensures r.Err? <==> !HasBrowser(browsers, browserId)
    ensures r.Err? ==> r.error == BrowserNotFound(browserId)
  {
    match FindBrowser(browsers, browserId)
    case None => Err(BrowserNotFound(browserId))
    case Some(row) =>
      var fp := row.fingerprint;
      var args := [
        "--user-agent=" + fp.userAgent,
        "--window-size=" + IntToString(fp.viewport.width) + "," + IntToString(fp.viewport.height),
        "--no-default-browser-check",
        "--disable-blink-features=AutomationControlled",
        "--disable-web-security",
        "--disable-features=VizDisplayCompositor"];
      var proxy :=
        if useProxy && row.proxyId.Some? && row.proxyId.value != 0 then
          match FindProxy(proxies, row.proxyId.value)
          case None => None
          case Some(p) => Some(ProxyFor(p))
        else None;
      Ok(LaunchCommand(browserId, LaunchOptions(headless, args),
        ContextOptions(fp.userAgent, fp.viewport, fp.timezone, fp.locale, fp.screen, fp.locale + ",en;q=0.9", proxy),
        FingerprintOverrides(fp.webglVendor, fp.webglRenderer, fp.canvasFingerprint, fp.fonts)))
  }

  /**
   * A found row's command carries its fingerprint: user agent, viewport,
   * screen, timezone and locale in the context, Accept-Language
   * `locale + ",en;q=0.9"`, and the WebGL, canvas and font overrides. The
   * proxy is present exactly when `use_proxy` is set, the row's `proxy_id`
   * is non-NULL and non-zero, and that proxy row exists.
   */
  lemma GenerateLaunchCommandSpec(browsers: seq<BrowserRow>, proxies: seq<ProxyRow>, browserId: string,
                                  headless: bool, useProxy: bool)
    requires HasBrowser(browsers, browserId)
    ensures var r := GenerateLaunchCommand(browsers, proxies, browserId, headless, useProxy);
      var row := FindBrowser(browsers, browserId).value;
      var fp := row.fingerprint;
      var ctx := r.value.contextOptions;
      r.Ok? && r.value.browserId == browserId && r.value.launchOptions.headless == headless &&
      ctx.userAgent == fp.userAgent && ctx.viewport == fp.viewport && ctx.screen == fp.screen &&
      ctx.timezoneId == fp.timezone && ctx.locale == fp.locale &&
      ctx.acceptLanguage == fp.locale + ",en;q=0.9" &&
      r.value.overrides == FingerprintOverrides(fp.webglVendor, fp.webglRenderer, fp.canvasFingerprint, fp.fonts) &&
      (ctx.proxy.Some? <==> useProxy && row.proxyId.Some? && row.proxyId.value != 0 &&
                            FindProxy(proxies, row.proxyId.value).Some?) &&
      (ctx.proxy.Some? ==> ctx.proxy.value == ProxyFor(FindProxy(proxies, row.proxyId.value).value))
  {
  }

  /**
   * The proxy's server is `http://host:port`, and its credentials are the
   * stored ones with empty or NULL values turned into None.
   */
  lemma ProxyForShape(p: ProxyRow)
    ensures ProxyFor(p).server == "http://" + p.host + ":" + IntToString(p.port)
    ensures ProxyFor(p).username.Some? <==> p.username.Some? && p.username.value != ""
    ensures ProxyFor(p).username.Some? ==> ProxyFor(p).username == p.username
    ensures ProxyFor(p).password.Some? <==> p.password.Some? && p.password.value != ""
    ensures ProxyFor(p).password.Some? ==> ProxyFor(p).password == p.password
  {
  }

  /**
   * `create_browser`: a fresh `uuid4` id and a generated fingerprint, then
   * one inserted row with the default status `inactive`. The uuid and the
   * fingerprint are drawn even when the insert then fails.
   */
  method CreateBrowser(db: Database, rng: Entropy, name: Option<string>, proxyId: Option<int>,
                       emailAccountId: Option<int>, toInteract: bool, now: Timestamp) returns (r: Result<string, DbError>)
    requires db.Valid()
    modifies db, rng
    ensures db.Valid()
    ensures rng.issued == old(rng.issued) + 1
    ensures rng.pos == GenerateFingerprint(rng.src, old(rng.pos)).next
    ensures var uuid := rng.uuids(old(rng.issued));
      var fp := GenerateFingerprint(rng.src, old(rng.pos)).value;
      (r.Ok? <==> name.Some? && !HasBrowser(old(db.browsers), uuid)) &&
      (r.Ok? ==> (r.value == uuid && db.browserSeq == old(db.browserSeq) + 1 &&
        db.browsers == old(db.browsers) + [BrowserRow(db.browserSeq, uuid, name.value, proxyId, emailAccountId, fp,
          "inactive", toInteract, None, now, fp.userAgent, fp.viewport.width, fp.viewport.height,
          fp.timezone, fp.locale, fp.platform)])) &&
      (r.Err? ==> db.browsers == old(db.browsers) && db.browserSeq == old(db.browserSeq))
    ensures db.commands == old(db.commands) && db.proxies == old(db.proxies) && db.accounts == old(db.accounts)
    ensures db.commandSeq == old(db.commandSeq) && db.proxySeq == old(db.proxySeq) && db.accountSeq == old(db.accountSeq)
  {
    var uuid := rng.NextUuid();
    var fp := GenerateFingerprint(rng.src, rng.pos);
    rng.Advance(fp.next);
    var inserted := db.InsertBrowser(uuid, name, proxyId, emailAccountId, fp.value, toInteract, now);
    if inserted.Ok? {
      r := Ok(uuid);
    } else {
      r := Err(inserted.error);
    }
  }

  /** One step of an interaction plan, as its dict's `type` says. */
  datatype Command =
    | Navigate(url: string, waitFor: Option<string>)
    | Click(selector: string, index: Option<int>)
    | Fill(selector: string, value: string)
    | Scroll(direction: string, amount: int)
    | Wait(duration: int)
    | WaitForNavigation
    | CustomAction(action: string, description: string)
    | Other(kind: string)

  /** The fixed mailbox steps; the fill values are literal placeholders. */
  const EmailSteps: seq<Command> := [
    Navigate("https://gmail.com", Some("input[type='email']")),
    Fill("input[type='email']", "{{email_address}}"),
    Click("#identifierNext", None),
    Wait(2000),
    Fill("input[type='password']", "{{email_password}}"),
    Click("#passwordNext", None),
    WaitForNavigation,
    Scroll("down", 300),
    Click("[data-tooltip='Inbox']", None),
    CustomAction("process_emails", "Check spam, move important emails, reply with AI")]

  const BrowsingSites: seq<string> := ["https://news.google.com", "https://www.reddit.com", "https://stackoverflow.com"]

  /** The shape every plan has: the mailbox steps, then four browsing steps within their ranges. */
  predicate PlanShape(plan: seq<Command>) {
    |plan| == 14 && plan[..10] == EmailSteps &&
    plan[10].Navigate? && plan[10].url in BrowsingSites && plan[10].waitFor == None &&
    plan[11].Scroll? && plan[11].direction == "down" && 200 <= plan[11].amount <= 500 &&
    plan[12].Wait? && 1000 <= plan[12].duration <= 3000 &&
    plan[13].Click? && plan[13].selector == "a" && plan[13].index.Some? && 0 <= plan[13].index.value <= 5
  }

  /** `generate_interaction_commands`; its `browser_id` argument is not used by the source. */
  function GenerateInteractionCommands(src: Source, pos: nat): (r: Drawn<seq<Command>>)
    ensures PlanShape(r.value)
    ensures r.next == pos + 4
  {
    var site := Choice(src, pos, BrowsingSites).value;
    var amount := RandInt(src, site.next, 200, 500).value;
    var duration := RandInt(src, amount.next, 1000, 3000).value;
    var index := RandInt(src, duration.next, 0, 5).value;
    var plan := EmailSteps + [Navigate(site.value, None), Scroll("down", amount.value),
      Wait(duration.value), Click("a", Some(index.value))];
    assert plan[..10] == EmailSteps;
    Drawn(plan, index.next)
  }

  /** Conversely, every plan of that shape is the plan of some random source. */
  lemma GenerateInteractionCommandsReaches(pos: nat, plan: seq<Command>)
    requires PlanShape(plan)
    ensures exists src: Source :: GenerateInteractionCommands(src, pos).value == plan
  {
    var s :| 0 <= s < 3 && BrowsingSites[s] == plan[10].url;
    var src: Source := (n: nat) =>
      if n == pos then s
      else if n == pos + 1 then (plan[11].amount - 200) as nat
      else if n == pos + 2 then (plan[12].duration - 1000) as nat
      else (plan[13].index.value) as nat;
    var r := GenerateInteractionCommands(src, pos).value;
    assert plan == plan[..10] + plan[10..];
    assert r == r[..10] + r[10..];
    assert r[10..] == plan[10..];
  }

  /** The placeholders stay unsubstituted in every plan. */
  lemma PlaceholdersNotSubstituted(src: Source, pos: nat)
    ensures GenerateInteractionCommands(src, pos).value[1] == Fill("input[type='email']", "{{email_address}}")
    ensures GenerateInteractionCommands(src, pos).value[4] == Fill("input[type='password']", "{{email_password}}")
  {
    var plan := GenerateInteractionCommands(src, pos).value;
    assert plan[1] == plan[..10][1] && plan[4] == plan[..10][4];
  }

  /** `WHERE to_interact = 1 AND status != 'running'`. */
  predicate Eligible(row: BrowserRow) {
    row.toInteract && row.status != "running"
  }

  /** `ORDER BY last_interaction ASC NULLS FIRST`: NULL sorts below every instant. */
  function LastInteractionKey(row: BrowserRow): int {
    if row.lastInteraction.None? then -1 else row.lastInteraction.value
  }

  function SelectBatch(rows: seq<BrowserRow>, batchSize: int): seq<BrowserRow> {
    Take(SortBy(Filter(rows, Eligible), LastInteractionKey), batchSize)
  }

  function BrowserIds(rows: seq<BrowserRow>): (ids: seq<string>)
    ensures |ids| == |rows| && forall i :: 0 <= i < |rows| ==> ids[i] == rows[i].browserId
  {
    seq(|rows|, i requires 0 <= i < |rows| => rows[i].browserId)
  }

  datatype BatchCommand = BatchCommand(
    browserIds: seq<string>, batchSize: int, intervalMinutes: int, scheduledTime: Timestamp, nextBatchTime: int)

  /** `schedule_browser_batch`; both `datetime.now()` readings are the instant `now`. */
  function ScheduleBrowserBatch(rows: seq<BrowserRow>, batchSize: int, intervalMinutes: int, now: Timestamp): (r: BatchCommand)
    ensures r.browserIds == BrowserIds(SelectBatch(rows, batchSize))
    ensures r.batchSize == batchSize && r.intervalMinutes == intervalMinutes
    ensures r.scheduledTime == now && r.nextBatchTime == now + intervalMinutes * 60
  {
    BatchCommand(BrowserIds(SelectBatch(rows, batchSize)), batchSize, intervalMinutes, now, now + intervalMinutes * 60)
  }

  /**
   * The batch holds only eligible rows of the table, `batch_size` of them or
   * every eligible row when there are fewer (all of them under a negative
   * `LIMIT`), ordered never-run first and then by oldest `last_interaction`:
   * the first rows of the stably sorted eligible rows.
   */
  lemma SelectBatchSound(rows: seq<BrowserRow>, batchSize: int)
    ensures forall row :: row in SelectBatch(rows, batchSize) ==> row in rows && Eligible(row)
    ensures 0 <= batchSize ==>
      |SelectBatch(rows, batchSize)| == (if batchSize < |Filter(rows, Eligible)| then batchSize else |Filter(rows, Eligible)|)
    ensures batchSize < 0 ==> |SelectBatch(rows, batchSize)| == |Filter(rows, Eligible)|
    ensures SelectBatch(rows, batchSize) ==
      SortBy(Filter(rows, Eligible), LastInteractionKey)[..|SelectBatch(rows, batchSize)|]
    ensures SortedBy(SelectBatch(rows, batchSize), LastInteractionKey)
  {
    var sorted := SortBy(Filter(rows, Eligible), LastInteractionKey);
    FilterContents(rows, Eligible);
    SortByMembers(Filter(rows, Eligible), LastInteractionKey);
    assert SelectBatch(rows, batchSize) == sorted[..|SelectBatch(rows, batchSize)|];
  }

  /**
   * An eligible row is left out only when every selected row is at least as
   * overdue; in particular a never-run row is left out only when the batch
   * is all never-run rows.
   */
  lemma SelectBatchLeavesOnlyLater(rows: seq<BrowserRow>, batchSize: int, row: BrowserRow)
    requires row in rows && Eligible(row) && row !in SelectBatch(rows, batchSize)
    ensures forall i :: 0 <= i < |SelectBatch(rows, batchSize)| ==>
      LastInteractionKey(SelectBatch(rows, batchSize)[i]) <= LastInteractionKey(row)
    ensures row.lastInteraction.None? ==>
      forall i :: 0 <= i < |SelectBatch(rows, batchSize)| ==> SelectBatch(rows, batchSize)[i].lastInteraction.None?
  {
    var sorted := SortBy(Filter(rows, Eligible), LastInteractionKey);
    assert row in Filter(rows, Eligible) by {
      FilterContents(rows, Eligible);
    }
    SortByMembers(Filter(rows, Eligible), LastInteractionKey);
    TakeSortedLeavesLarger(sorted, LastInteractionKey, batchSize, row);
  }

  /** Under a negative limit, or one the eligible rows fit in, every eligible row is selected. */
  lemma SelectBatchComplete(rows: seq<BrowserRow>, batchSize: int, row: BrowserRow)
    requires batchSize < 0 || |Filter(rows, Eligible)| <= batchSize
    requires row in rows && Eligible(row)
    ensures row in SelectBatch(rows, batchSize)
  {
    FilterContents(rows, Eligible);
    SortByMembers(Filter(rows, Eligible), LastInteractionKey);
  }

  /** `save_command`: one `pending` row under the next id; nothing is returned. */
  method SaveCommand(db: Database, browserId: string, commandType: string, commandData: string,
                     scheduledTime: Option<Timestamp>, now: Timestamp)
    requires db.Valid()
    modifies db
    ensures db.Valid()
    ensures db.commandSeq == old(db.commandSeq) + 1
    ensures db.commands == old(db.commands) +
      [CommandRow(db.commandSeq, browserId, commandType, commandData, "pending", scheduledTime, None, now)]
    ensures db.browsers == old(db.browsers) && db.proxies == old(db.proxies) && db.accounts == old(db.accounts)
  {
    var _ := db.InsertCommand(browserId, commandType, commandData, scheduledTime, now);
  }

  /** `ORDER BY scheduled_time ASC`: NULL sorts first. */
  function ScheduledKey(c: CommandRow): int {
    if c.scheduledTime.None? then -1 else c.scheduledTime.value
  }

  /** `if browser_id:` -- None and `''` both take the global branch. */
  predicate ForOneBrowser(browserId: Option<string>) {
    browserId.Some? && browserId.value != ""
  }

  /** The intended `scheduled_time <= now`, comparing instants. */
  predicate Due(c: CommandRow, now: Timestamp) {
    c.scheduledTime.None? || c.scheduledTime.value <= now
  }

  /** `WHERE browser_id = ? AND status = 'pending'`. */
  function PendingOf(commands: seq<CommandRow>, browserId: string): (r: seq<CommandRow>)
    ensures forall c :: c in r <==> c in commands && c.browserId == browserId && c.status == "pending"
  {
    FilterContents(commands, (c: CommandRow) => c.browserId == browserId && c.status == "pending");
    Filter(commands, (c: CommandRow) => c.browserId == browserId && c.status == "pending")
  }

  /** `WHERE status = 'pending' AND (scheduled_time IS NULL OR scheduled_time <= now)`, comparing instants. */
  function PendingDue(commands: seq<CommandRow>, now: Timestamp): (r: seq<CommandRow>)
    ensures forall c :: c in r <==> c in commands && c.status == "pending" && Due(c, now)
  {
    FilterContents(commands, (c: CommandRow) => c.status == "pending" && Due(c, now));
    Filter(commands, (c: CommandRow) => c.status == "pending" && Due(c, now))
  }

  /**
   * `get_pending_commands` with the due test comparing instants; the rest
   * of the model uses this definition.
   */
  function GetPendingCommands(commands: seq<CommandRow>, browserId: Option<string>, now: Timestamp): seq<CommandRow> {
    if ForOneBrowser(browserId) then SortBy(PendingOf(commands, browserId.value), ScheduledKey)
    else SortBy(PendingDue(commands, now), ScheduledKey)
  }

  /**
   * With an id: exactly that browser's pending commands, due or not. Without
   * one: exactly the pending commands that are unscheduled or due. Both are
   * ordered by `scheduled_time`, unscheduled first.
   */
  lemma GetPendingCommandsSpec(commands: seq<CommandRow>, browserId: Option<string>, now: Timestamp)
    ensures var r := GetPendingCommands(commands, browserId, now);
      SortedBy(r, ScheduledKey) &&
      (ForOneBrowser(browserId) ==>
        forall c :: c in r <==> c in commands && c.browserId == browserId.value && c.status == "pending") &&
      (!ForOneBrowser(browserId) ==>
        forall c :: c in r <==> c in commands && c.status == "pending" && Due(c, now)) &&
      (ForOneBrowser(browserId) ==> forall c ::
        multiset(r)[c] == if c.browserId == browserId.value && c.status == "pending" then multiset(commands)[c] else 0) &&
      (!ForOneBrowser(browserId) ==> forall c ::
        multiset(r)[c] == if c.status == "pending" && Due(c, now) then multiset(commands)[c] else 0)
  {
    if ForOneBrowser(browserId) {
      SortByMembers(PendingOf(commands, browserId.value), ScheduledKey);
      FilterContents(commands, (c: CommandRow) => c.browserId == browserId.value && c.status == "pending");
    } else {
      SortByMembers(PendingDue(commands, now), ScheduledKey);
      FilterContents(commands, (c: CommandRow) => c.status == "pending" && Due(c, now));
    }
  }

  /** The global filter as written: the stored `isoformat()` text against `datetime('now')`. */
  function PendingDueAsWritten(commands: seq<CommandRow>, now: Timestamp): (r: seq<CommandRow>)
    ensures forall c :: c in r <==> (c in commands && c.status == "pending" &&
      (c.scheduledTime.None? || TextLe(IsoFormat(c.scheduledTime.value), SqliteDatetime(now))))
  {
    FilterContents(commands, (c: CommandRow) => c.status == "pending" &&
      (c.scheduledTime.None? || TextLe(IsoFormat(c.scheduledTime.value), SqliteDatetime(now))));
    Filter(commands, (c: CommandRow) => c.status == "pending" &&
      (c.scheduledTime.None? || TextLe(IsoFormat(c.scheduledTime.value), SqliteDatetime(now))))
  }

  /** `get_pending_commands` as written. */
  function GetPendingCommandsAsWritten(commands: seq<CommandRow>, browserId: Option<string>, now: Timestamp): seq<CommandRow> {
    if ForOneBrowser(browserId) then SortBy(PendingOf(commands, browserId.value), ScheduledKey)
    else SortBy(PendingDueAsWritten(commands, now), ScheduledKey)
  }

  /**
   * As written, a pending command scheduled earlier on the current day is
   * never returned by the global query, although it is due.
   */
  lemma AsWrittenMissesSameDayCommands(commands: seq<CommandRow>, now: Timestamp, c: CommandRow)
    requires c in commands && c.status == "pending" && c.scheduledTime.Some?
    requires c.scheduledTime.value <= now && c.scheduledTime.value / 86400 == now / 86400
    ensures c in GetPendingCommands(commands, None, now)
    ensures c !in GetPendingCommandsAsWritten(commands, None, now)
  {
    GetPendingCommandsSpec(commands, None, now);
    SameDayIsoAboveSqlite(c.scheduledTime.value, now);
    SortByMembers(PendingDueAsWritten(commands, now), ScheduledKey);
  }

  /**
   * A concrete instance: a command scheduled for 09:00 UTC on 2024-05-01
   * and a query at 12:00 the same day.
   */
  lemma AsWrittenMissesMorningCommand()
    ensures var c := CommandRow(1, "b", "navigate", "{}", "pending", Some(1714554000), None, 1714550000);
      GetPendingCommands([c], None, 1714564800) == [c] &&
      GetPendingCommandsAsWritten([c], None, 1714564800) == []
  {
    var c := CommandRow(1, "b", "navigate", "{}", "pending", Some(1714554000), None, 1714550000);
    AsWrittenMissesSameDayCommands([c], 1714564800, c);
    GetPendingCommandsSpec([c], None, 1714564800);
    assert |PendingDue([c], 1714564800)| <= 1;
  }

  /** The columns `get_browser_list` returns (the fingerprint and its copies are dropped). */
  datatype BrowserSummary = BrowserSummary(
    id: nat, browserId: string, name: string, proxyId: Option<int>, emailAccountId: Option<int>,
    status: string, toInteract: bool, lastInteraction: Option<Timestamp>, createdAt: Timestamp, userAgent: string)

  function Summary(row: BrowserRow): BrowserSummary {
    BrowserSummary(row.id, row.browserId, row.name, row.proxyId, row.emailAccountId,
      row.status, row.toInteract, row.lastInteraction, row.createdAt, row.userAgent)
  }

  function NewestFirstKey(row: BrowserRow): int {
    -(row.createdAt as int)
  }

  /** `get_browser_list`: `ORDER BY created_at DESC`, rows with the same second kept in table order. */
  function GetBrowserList(rows: seq<BrowserRow>): (r: seq<BrowserSummary>)
    ensures |r| == |rows|
  {
    var sorted := SortBy(rows, NewestFirstKey);
    seq(|sorted|, i requires 0 <= i < |sorted| => Summary(sorted[i]))
  }

  /** Every row appears once, newest first. */
  lemma GetBrowserListSpec(rows: seq<BrowserRow>)
    ensures var r := GetBrowserList(rows);
      (forall i, j :: 0 <= i < j < |r| ==> r[i].createdAt >= r[j].createdAt) &&
      (forall row :: row in rows ==> Summary(row) in r) &&
      (forall i :: 0 <= i < |r| ==> exists row :: row in rows && r[i] == Summary(row)) &&
      multiset(r) == multiset(MapSeq(rows, Summary))
  {
    var sorted := SortBy(rows, NewestFirstKey);
    var r := GetBrowserList(rows);
    assert r == MapSeq(sorted, Summary);
    MapSeqPermutation(sorted, rows, Summary);
    forall i, j | 0 <= i < j < |r| ensures r[i].createdAt >= r[j].createdAt {
      assert NewestFirstKey(sorted[i]) <= NewestFirstKey(sorted[j]);
    }
    forall row | row in rows ensures Summary(row) in r {
      assert row in multiset(sorted);
      var k :| 0 <= k < |sorted| && sorted[k] == row;
      assert r[k] == Summary(row);
    }
    forall i | 0 <= i < |r| ensures exists row :: row in rows && r[i] == Summary(row) {
      assert sorted[i] in multiset(rows);
      assert sorted[i] in rows;
    }
  }
}
