/**
 * The Playwright executor: browser sessions tracked in `active_browsers`
 * with status writes to the store, best-effort command execution, batches
 * run in consecutive groups of ten, and the continuous scheduler.
 *
 * The browser driver, the clock and `asyncio.sleep` are the `Environment`:
 * an oracle says whether the n-th driver call returns normally, and every
 * call and every pause is logged. Groups run one session after another.
 */
module Executor {
  import opened Wrappers
  import opened Seqs
  import opened Rand
  import opened Clock
  import opened Store
  import opened Fleet

  datatype InitScript = WebglOverride(vendor: string, renderer: string) | CanvasNoise | FontsOverride(fonts: seq<string>) | HideAutomation

  /** A request made of Playwright. */
  datatype DriverCall =
    | StartPlaywright
    | LaunchChromium(launchOptions: LaunchOptions)
    | NewContext(contextOptions: ContextOptions)
    | NewPage
    | AddInitScript(script: InitScript)
    | Goto(url: string)
    | WaitForSelector(selector: string)
    | QuerySelectorAll(selector: string)
    | ClickElement(selector: string, index: int)
    | ClickSelector(selector: string)
    | FillField(selector: string, value: string)
    | ScrollBy(dy: int)
    | WaitForLoadState(state: string)
    | ProcessEmails
    | CloseContext(handle: nat)
    | CloseChromium(handle: nat)
    | StopPlaywright(handle: nat)

  /** An `asyncio.sleep`; `UniformSeconds` is a `random.uniform(lo, hi)` delay. */
  datatype Pause = Millis(ms: int) | UniformSeconds(lo: int, hi: int)

  /** The calls of a sequence that are made when each is awaited in turn and the first failure propagates. */
  function Attempt(calls: seq<DriverCall>, ok: nat -> bool, start: nat): (made: seq<DriverCall>)
    ensures |made| <= |calls|
    decreases |calls|
  {
    if calls == [] then []
    else if ok(start) then [calls[0]] + Attempt(calls[1..], ok, start + 1)
    else [calls[0]]
  }

  /** Every call of the sequence, awaited in turn from call number `start`, returns normally. */
  predicate AllSucceed(calls: seq<DriverCall>, ok: nat -> bool, start: nat)
    decreases |calls|
  {
    calls == [] || (ok(start) && AllSucceed(calls[1..], ok, start + 1))
  }

  /** When every call succeeds, all of them are made. */
  lemma {:induction false} AttemptAll(calls: seq<DriverCall>, ok: nat -> bool, start: nat)
    requires AllSucceed(calls, ok, start)
    ensures Attempt(calls, ok, start) == calls
  {
    if calls != [] {
      AttemptAll(calls[1..], ok, start + 1);
    }
  }

  /** The browser driver, the clock and the event loop's sleeps. */
  class Environment {
    /** Whether the n-th driver call returns normally. */
    const succeeds: nat -> bool
    /** How many elements the n-th driver call finds, when it is a `query_selector_all`. */
    const found: nat -> nat
    /** The n-th reading of `datetime.now()`. */
    const clock: nat -> Timestamp
    /** Whether the n-th batch selection query reaches the database. */
    const storeUp: nat -> bool
    /** Whether `stop_automation` is called during the scheduler's n-th pause. */
    const stopDuring: nat -> bool
    var calls: seq<DriverCall>
    var pauses: seq<Pause>
    var readings: nat
    var queries: nat

    constructor (succeeds: nat -> bool, found: nat -> nat, clock: nat -> Timestamp, storeUp: nat -> bool, stopDuring: nat -> bool)
      ensures this.succeeds == succeeds && this.found == found && this.clock == clock
      ensures this.storeUp == storeUp && this.stopDuring == stopDuring
      ensures calls == [] && pauses == [] && readings == 0 && queries == 0
    {
      this.succeeds := succeeds;
      this.found := found;
      this.clock := clock;
      this.storeUp := storeUp;
      this.stopDuring := stopDuring;
      calls, pauses, readings, queries := [], [], 0, 0;
    }

    method Call(c: DriverCall) returns (ok: bool)
      modifies this`calls
      ensures calls == old(calls) + [c] && ok == succeeds(|old(calls)|)
    {
      ok := succeeds(|calls|);
      calls := calls + [c];
    }

    /** `query_selector_all`: whether it returned, and how many elements it found. */
    method Query(selector: string) returns (ok: bool, count: nat)
      modifies this`calls
      ensures calls == old(calls) + [QuerySelectorAll(selector)]
      ensures ok == succeeds(|old(calls)|) && count == found(|old(calls)|)
    {
      ok, count := succeeds(|calls|), found(|calls|);
      calls := calls + [QuerySelectorAll(selector)];
    }

    /** Awaits the calls in turn; the first that fails ends the sequence. */
    method CallAll(cs: seq<DriverCall>) returns (ok: bool)
      modifies this`calls
      decreases |cs|
      ensures calls == old(calls) + Attempt(cs, succeeds, |old(calls)|)
      ensures ok <==> AllSucceed(cs, succeeds, |old(calls)|)
    {
      if cs == [] {
        ok := true;
      } else {
        var first := Call(cs[0]);
        if first {
          ok := CallAll(cs[1..]);
          assert calls == old(calls) + ([cs[0]] + Attempt(cs[1..], succeeds, |old(calls)| + 1));
        } else {
          ok := false;
        }
      }
    }

    /** `execute_command`'s dispatch on the command type, inside its `try`. */
    method Perform(cmd: Command)
      modifies this`calls, this`pauses
      ensures calls == old(calls) + Dispatch(cmd, succeeds, found, |old(calls)|)
      ensures pauses == old(pauses) + DispatchPauses(cmd)
    {
      match cmd {
        case Navigate(url, waitFor) =>
          var ok := Call(Goto(url));
          if ok && waitFor.Some? {
            ok := Call(WaitForSelector(waitFor.value));
          }
        case Click(selector, index) =>
          if index.None? {
            var _ := Call(ClickSelector(selector));
          } else {
            var ok, n := Query(selector);
            if ok && n > 0 && n > index.value && -n <= index.value {
              ok := Call(ClickElement(selector, index.value));
            }
          }
        case Fill(selector, value) =>
          var _ := Call(FillField(selector, value));
        case Scroll(direction, amount) =>
          if direction == "down" {
            var _ := Call(ScrollBy(amount));
          } else if direction == "up" {
            var _ := Call(ScrollBy(-amount));
          }
        case Wait(duration) =>
          Sleep(Millis(duration));
        case WaitForNavigation =>
          var _ := Call(WaitForLoadState("networkidle"));
        case CustomAction(action, _) =>
          if action == "process_emails" {
            var _ := Call(ProcessEmails);
          }
        case Other(_) =>
      }
    }

    method Sleep(p: Pause)
      modifies this`pauses
      ensures pauses == old(pauses) + [p]
    {
      pauses := pauses + [p];
    }

    /** `datetime.now()`. */
    method Now() returns (t: Timestamp)
      modifies this`readings
      ensures t == clock(old(readings)) && readings == old(readings) + 1
    {
      t := clock(readings);
      readings := readings + 1;
    }

    /** Whether the next batch selection query reaches the database. */
    method Select() returns (up: bool)
      modifies this`queries
      ensures up == storeUp(old(queries)) && queries == old(queries) + 1
    {
      up := storeUp(queries);
      queries := queries + 1;
    }
  }

  /** One step of `Attempt`: the calls from position `i` on. */
  lemma AttemptStep(cs: seq<DriverCall>, ok: nat -> bool, start: nat, i: nat)
    requires i < |cs|
    ensures Attempt(cs[i..], ok, start + i) ==
      (if ok(start + i) then [cs[i]] + Attempt(cs[i + 1..], ok, start + i + 1) else [cs[i]])
    ensures AllSucceed(cs[i..], ok, start + i) == (ok(start + i) && AllSucceed(cs[i + 1..], ok, start + i + 1))
  {
    assert cs[i..][1..] == cs[i + 1..];
  }

  /** The driver calls of a launch: start, launch, context, page and the four init scripts. */
  function LaunchCalls(c: LaunchCommand): (calls: seq<DriverCall>)
    ensures |calls| == 8
  {
    [StartPlaywright, LaunchChromium(c.launchOptions), NewContext(c.contextOptions), NewPage,
     AddInitScript(WebglOverride(c.overrides.webglVendor, c.overrides.webglRenderer)),
     AddInitScript(CanvasNoise),
     AddInitScript(FontsOverride(c.overrides.fonts)),
     AddInitScript(HideAutomation)]
  }

  /** `context.close()`, `browser.close()`, `playwright.stop()` on one session's handles. */
  function CloseCalls(s: Session): seq<DriverCall> {
    [CloseContext(s.handle), CloseChromium(s.handle), StopPlaywright(s.handle)]
  }

  /**
   * The driver calls one command makes from call number `start` on, given
   * which calls succeed and what element queries find. A failing call ends
   * the command; its exception is swallowed.
   */
  function Dispatch(cmd: Command, ok: nat -> bool, found: nat -> nat, start: nat): seq<DriverCall> {
    match cmd
    case Navigate(url, waitFor) =>
      [Goto(url)] + (if ok(start) && waitFor.Some? then [WaitForSelector(waitFor.value)] else [])
    case Click(selector, index) =>
      if index.None? then [ClickSelector(selector)]
      else
        var n := found(start) as int;
        [QuerySelectorAll(selector)] +
        (if ok(start) && n > 0 && n > index.value && -n <= index.value then [ClickElement(selector, index.value)] else [])
    case Fill(selector, value) => [FillField(selector, value)]
    case Scroll(direction, amount) =>
      if direction == "down" then [ScrollBy(amount)]
      else if direction == "up" then [ScrollBy(-amount)]
      else []
    case Wait(_) => []
    case WaitForNavigation => [WaitForLoadState("networkidle")]
    case CustomAction(action, _) => if action == "process_emails" then [ProcessEmails] else []
    case Other(_) => []
  }

  /** The pauses one command makes: only `wait`, for `duration / 1000` seconds. */
  function DispatchPauses(cmd: Command): seq<Pause> {
    if cmd.Wait? then [Millis(cmd.duration)] else []
  }

  /** What no command does: an unknown type makes no call, and a scroll up moves by the negated amount. */
  lemma DispatchFacts(cmd: Command, ok: nat -> bool, found: nat -> nat, start: nat)
    ensures cmd.Other? ==> Dispatch(cmd, ok, found, start) == [] && DispatchPauses(cmd) == []
    ensures cmd.Scroll? && cmd.direction == "up" ==> Dispatch(cmd, ok, found, start) == [ScrollBy(-cmd.amount)]
    ensures cmd.Wait? ==> Dispatch(cmd, ok, found, start) == [] && DispatchPauses(cmd) == [Millis(cmd.duration)]
    ensures !cmd.Wait? ==> DispatchPauses(cmd) == []
    ensures |Dispatch(cmd, ok, found, start)| <= 2
  {
  }

  /** Every id of `act` has a row whose status is `running`. */
  predicate AllRunning(rows: seq<BrowserRow>, act: set<string>) {
    forall id {:trigger StatusOf(rows, id)} :: id in act ==> StatusOf(rows, id) == Some("running")
  }

  /** A status write for an id outside `act` keeps every id of `act` running. */
  lemma StatusWriteKeepsRunning(rows: seq<BrowserRow>, browserId: string, status: string, act: set<string>)
    requires forall id :: id in act && id != browserId ==> StatusOf(rows, id) == Some("running")
    requires browserId in act ==> status == "running" && HasBrowser(rows, browserId)
    ensures AllRunning(WithStatus(rows, browserId, status), act)
  {
    forall id | id in act ensures StatusOf(WithStatus(rows, browserId, status), id) == Some("running") {
      StatusAfterWrite(rows, browserId, status, id);
    }
  }

  /** A `last_interaction` write keeps every status. */
  lemma TouchKeepsRunning(rows: seq<BrowserRow>, browserId: string, t: Timestamp, act: set<string>)
    requires AllRunning(rows, act)
    ensures AllRunning(WithLastInteraction(rows, browserId, t), act)
  {
    forall id | id in act ensures StatusOf(WithLastInteraction(rows, browserId, t), id) == Some("running") {
      StatusAfterTouch(rows, browserId, t, id);
    }
  }

  /** The calls of commands run in turn from call number `start`, where `step(c, n)` runs `c` from call `n` on. */
  function Sequenced(plan: seq<Command>, step: (Command, nat) -> seq<DriverCall>, start: nat): seq<DriverCall>
    decreases |plan|
  {
    if plan == [] then []
    else
      var d := step(plan[0], start);
      d + Sequenced(plan[1..], step, start + |d|)
  }

  /** Running one more command extends the calls by that command's own, from where the others end. */
  lemma {:induction false} SequencedAppend(plan: seq<Command>, cmd: Command, step: (Command, nat) -> seq<DriverCall>, start: nat)
    ensures Sequenced(plan + [cmd], step, start) ==
      Sequenced(plan, step, start) + step(cmd, start + |Sequenced(plan, step, start)|)
    decreases |plan|
  {
    if plan == [] {
      assert [cmd][1..] == [];
    } else {
      var d := step(plan[0], start);
      assert (plan + [cmd])[0] == plan[0] && (plan + [cmd])[1..] == plan[1..] + [cmd];
      SequencedAppend(plan[1..], cmd, step, start + |d|);
    }
  }

  /** The driver calls of a plan's commands run in turn from call number `start`. */
  function PlanCalls(plan: seq<Command>, ok: nat -> bool, found: nat -> nat, start: nat): seq<DriverCall> {
    Sequenced(plan, (c: Command, n: nat) => Dispatch(c, ok, found, n), start)
  }

  /** Running one more command of a plan extends its calls by that command's dispatch. */
  lemma PlanCallsAppend(plan: seq<Command>, cmd: Command, ok: nat -> bool, found: nat -> nat, start: nat)
    ensures PlanCalls(plan + [cmd], ok, found, start) ==
      PlanCalls(plan, ok, found, start) + Dispatch(cmd, ok, found, start + |PlanCalls(plan, ok, found, start)|)
  {
    SequencedAppend(plan, cmd, (c: Command, n: nat) => Dispatch(c, ok, found, n), start);
  }

  /** The pauses of a plan run in turn: each command's own, then the `uniform(1, 3)` delay. */
  function PlanPauses(plan: seq<Command>): seq<Pause>
    decreases |plan|
  {
    if plan == [] then [] else DispatchPauses(plan[0]) + [UniformSeconds(1, 3)] + PlanPauses(plan[1..])
  }

  /** Running one more command extends the plan's pauses by that command's pauses and one delay. */
  lemma {:induction false} PlanPausesAppend(plan: seq<Command>, cmd: Command)
    ensures PlanPauses(plan + [cmd]) == PlanPauses(plan) + DispatchPauses(cmd) + [UniformSeconds(1, 3)]
    decreases |plan|
  {
    if plan == [] {
      assert [cmd][1..] == [];
    } else {
      assert (plan + [cmd])[1..] == plan[1..] + [cmd];
      PlanPausesAppend(plan[1..], cmd);
    }
  }

  /** The calls and pauses of a plan's first `i + 1` commands, from those of its first `i`. */
  lemma PlanStep(plan: seq<Command>, i: nat, ok: nat -> bool, found: nat -> nat, start: nat)
    requires i < |plan|
    ensures PlanCalls(plan[..i + 1], ok, found, start) ==
      PlanCalls(plan[..i], ok, found, start) + Dispatch(plan[i], ok, found, start + |PlanCalls(plan[..i], ok, found, start)|)
    ensures PlanPauses(plan[..i + 1]) == PlanPauses(plan[..i]) + DispatchPauses(plan[i]) + [UniformSeconds(1, 3)]
  {
    assert plan[..i + 1] == plan[..i] + [plan[i]];
    PlanCallsAppend(plan[..i], plan[i], ok, found, start);
    PlanPausesAppend(plan[..i], plan[i]);
  }

  /** The rows after a completed session: `running`, then the `last_interaction` write, then `inactive`. */
  function SessionRows(rows: seq<BrowserRow>, browserId: string, t: Timestamp): seq<BrowserRow> {
    WithStatus(WithLastInteraction(WithStatus(rows, browserId, "running"), browserId, t), browserId, "inactive")
  }

  /**
   * The net effect of a completed session on the table: only the session's
   * own row changes, and only in its status (now `inactive`) and its
   * `last_interaction` (now the session's end).
   */
  lemma SessionRowsAt(rows: seq<BrowserRow>, browserId: string, t: Timestamp, i: nat)
    requires i < |rows|
    ensures |SessionRows(rows, browserId, t)| == |rows|
    ensures SessionRows(rows, browserId, t)[i] ==
      (if rows[i].browserId == browserId then rows[i].(status := "inactive", lastInteraction := Some(t)) else rows[i])
  {
    var r1 := WithStatus(rows, browserId, "running");
    var r2 := WithLastInteraction(r1, browserId, t);
    WithStatusAt(rows, browserId, "running", i);
    WithLastInteractionAt(r1, browserId, t, i);
    WithStatusAt(r2, browserId, "inactive", i);
  }

  /** The driver calls `launch_browser` makes from call number `start`: none for an unknown id. */
  function LaunchAttempt(rows: seq<BrowserRow>, proxies: seq<ProxyRow>, browserId: string, useProxy: bool,
                         ok: nat -> bool, start: nat): seq<DriverCall> {
    var cmd := GenerateLaunchCommand(rows, proxies, browserId, false, useProxy);
    if cmd.Err? then [] else Attempt(LaunchCalls(cmd.value), ok, start)
  }

  /** Whether `launch_browser` returns: the row exists and every driver call returns. */
  predicate Launches(rows: seq<BrowserRow>, proxies: seq<ProxyRow>, browserId: string, useProxy: bool,
                     ok: nat -> bool, start: nat) {
    var cmd := GenerateLaunchCommand(rows, proxies, browserId, false, useProxy);
    cmd.Ok? && AllSucceed(LaunchCalls(cmd.value), ok, start)
  }

  /** A launch that returns makes all eight driver calls of its command. */
  lemma LaunchesMakesAll(rows: seq<BrowserRow>, proxies: seq<ProxyRow>, browserId: string, useProxy: bool,
                         ok: nat -> bool, start: nat)
    requires Launches(rows, proxies, browserId, useProxy, ok, start)
    ensures LaunchAttempt(rows, proxies, browserId, useProxy, ok, start) ==
      LaunchCalls(GenerateLaunchCommand(rows, proxies, browserId, false, useProxy).value)
    ensures |LaunchAttempt(rows, proxies, browserId, useProxy, ok, start)| == 8
  {
    AttemptAll(LaunchCalls(GenerateLaunchCommand(rows, proxies, browserId, false, useProxy).value), ok, start);
  }

  /** Adding a key and then removing it leaves the map without that key. */
  lemma UpdateThenRemove<K, V>(m: map<K, V>, k: K, v: V)
    ensures m[k := v] - {k} == m - {k}
  {
    assert (m[k := v] - {k}).Keys == (m - {k}).Keys;
  }

  /** The ids listed in `ids`. */
  function Members(ids: seq<string>): set<string> {
    set id | id in ids
  }

  /** Removing the ids of a prefix, then the next id, removes the ids of the longer prefix. */
  lemma RemoveNext<V>(m: map<string, V>, ids: seq<string>, j: nat)
    requires j < |ids|
    ensures m - Members(ids[..j]) - {ids[j]} == m - Members(ids[..j + 1])
    ensures Members(ids[..j + 1]) == Members(ids[..j]) + {ids[j]}
  {
    assert ids[..j + 1] == ids[..j] + [ids[j]];
    assert Members(ids[..j + 1]) == Members(ids[..j]) + {ids[j]};
  }

  /** Removing the ids of a prefix, then those of the next group, removes the ids of the longer prefix. */
  lemma RemoveGroup<V>(m: map<string, V>, ids: seq<string>, i: nat, k: nat)
    requires i <= k <= |ids|
    ensures m - Members(ids[..i]) - Members(ids[i..k]) == m - Members(ids[..k])
  {
    assert ids[..k] == ids[..i] + ids[i..k];
    assert Members(ids[..k]) == Members(ids[..i]) + Members(ids[i..k]);
  }

  /** The groups and the active set after the group at offset `i`, against those before the batch. */
  lemma NextGroupBookkeeping<V>(ids: seq<string>, i: nat, k: nat, groups0: seq<seq<string>>, groups: seq<seq<string>>,
                                active0: map<string, V>, active: map<string, V>)
    requires i < |ids| && k == if |ids| - i < 10 then |ids| else i + 10
    requires groups0 + Chunks(ids, 10) == groups + Chunks(ids[i..], 10)
    requires active == active0 - Members(ids[..i])
    ensures groups0 + Chunks(ids, 10) == (groups + [ids[i..k]]) + Chunks(ids[k..], 10)
    ensures active - Members(ids[i..k]) == active0 - Members(ids[..k])
  {
    ChunksStep(ids, 10, i);
    AppendAssoc(groups, [ids[i..k]], Chunks(ids[k..], 10));
    RemoveGroup(active0, ids, i, k);
  }

  /** The ids before offset `k` are those before `i` and those from `i` to `k`. */
  lemma MembersSplit(ids: seq<string>, i: nat, k: nat)
    requires i <= k <= |ids|
    ensures Members(ids[..k]) == Members(ids[..i]) + Members(ids[i..k])
  {
    assert ids[..k] == ids[..i] + ids[i..k];
  }

  /**
   * What a browser session can change, observed at one moment: the browser
   * rows, the driver calls, the pauses, the clock readings taken and the
   * random draws consumed.
   */
  datatype Observed = Observed(rows: seq<BrowserRow>, calls: seq<DriverCall>, pauses: seq<Pause>, readings: nat, pos: nat)

  /**
   * A session whose launch made the calls `made` and returned, from `before`
   * to `after`: the plan drawn at `before.pos` runs with a `uniform(1, 3)`
   * delay after each command, the close follows on the launch's handles, and
   * the row ends `inactive` with `last_interaction` at the second clock
   * reading (the first is the launch's).
   */
  predicate Completed(browserId: string, before: Observed, made: seq<DriverCall>, after: Observed,
                      src: Source, ok: nat -> bool, found: nat -> nat, clock: nat -> Timestamp) {
    var plan := GenerateInteractionCommands(src, before.pos).value;
    var start := |before.calls| + |made|;
    var ran := PlanCalls(plan, ok, found, start);
    after.pos == before.pos + 4 + |plan| &&
    after.pauses == before.pauses + PlanPauses(plan) &&
    after.readings == before.readings + 2 &&
    after.calls == before.calls + made + ran + Attempt(CloseCalls(Session(|before.calls|, 0)), ok, start + |ran|) &&
    after.rows == SessionRows(before.rows, browserId, clock(before.readings + 1))
  }

  /**
   * The rest of a session on the driver handles of `s`, from `before` to
   * `after`: the plan drawn at `before.pos` with a `uniform(1, 3)` delay
   * after each command, the `last_interaction` write at the next clock
   * reading, then the close and the `inactive` write.
   */
  predicate Finished(browserId: string, before: Observed, s: Session, after: Observed,
                     src: Source, ok: nat -> bool, found: nat -> nat, clock: nat -> Timestamp) {
    var plan := GenerateInteractionCommands(src, before.pos).value;
    var ran := PlanCalls(plan, ok, found, |before.calls|);
    after.pos == before.pos + 4 + |plan| &&
    after.pauses == before.pauses + PlanPauses(plan) &&
    after.readings == before.readings + 1 &&
    after.calls == before.calls + ran + Attempt(CloseCalls(s), ok, |before.calls| + |ran|) &&
    after.rows == WithStatus(WithLastInteraction(before.rows, browserId, clock(before.readings)), browserId, "inactive")
  }

  /** The plan part of a session, from `before` to `after`: the plan drawn at `before.pos`, each command followed by a delay. */
  predicate Played(before: Observed, after: Observed, src: Source, ok: nat -> bool, found: nat -> nat) {
    var plan := GenerateInteractionCommands(src, before.pos).value;
    after == Observed(before.rows, before.calls + PlanCalls(plan, ok, found, |before.calls|),
                      before.pauses + PlanPauses(plan), before.readings, before.pos + 4 + |plan|)
  }

  /** The end of a session on the handles of `s`, from `before` to `after`: the `last_interaction` write, then the close. */
  predicate WrappedUp(browserId: string, before: Observed, s: Session, after: Observed, ok: nat -> bool, clock: nat -> Timestamp) {
    after == Observed(WithStatus(WithLastInteraction(before.rows, browserId, clock(before.readings)), browserId, "inactive"),
                      before.calls + Attempt(CloseCalls(s), ok, |before.calls|), before.pauses, before.readings + 1, before.pos)
  }

  /** The plan part followed by the end is the rest of a session. */
  lemma PlayedThenWrappedUp(browserId: string, before: Observed, mid: Observed, s: Session, after: Observed,
                            src: Source, ok: nat -> bool, found: nat -> nat, clock: nat -> Timestamp)
    requires Played(before, mid, src, ok, found) && WrappedUp(browserId, mid, s, after, ok, clock)
    ensures Finished(browserId, before, s, after, src, ok, found, clock)
  {
    var plan := GenerateInteractionCommands(src, before.pos).value;
    var ran := PlanCalls(plan, ok, found, |before.calls|);
    assert |mid.calls| == |before.calls| + |ran|;
    assert after.calls == before.calls + ran + Attempt(CloseCalls(s), ok, |before.calls| + |ran|);
  }

  /** A launch that made `made` and marked the row `running`, followed by the rest of the session, is a completed session. */
  lemma FinishedCompletes(browserId: string, before: Observed, made: seq<DriverCall>, s: Session, after: Observed,
                          src: Source, ok: nat -> bool, found: nat -> nat, clock: nat -> Timestamp)
    requires s.handle == |before.calls|
    requires Finished(browserId, Observed(WithStatus(before.rows, browserId, "running"), before.calls + made, before.pauses,
                                          before.readings + 1, before.pos), s, after, src, ok, found, clock)
    ensures Completed(browserId, before, made, after, src, ok, found, clock)
  {
    var start := |before.calls| + |made|;
    assert |before.calls + made| == start;
    assert CloseCalls(s) == CloseCalls(Session(|before.calls|, 0));
    var ran := PlanCalls(GenerateInteractionCommands(src, before.pos).value, ok, found, start);
    assert after.calls == before.calls + made + ran + Attempt(CloseCalls(Session(|before.calls|, 0)), ok, start + |ran|);
    assert after.rows == SessionRows(before.rows, browserId, clock(before.readings + 1));
  }

  /**
   * A session whose launch made the calls `made` and raised: no plan, no
   * draw, no pause, no clock reading; the close runs only when the id was
   * already active (`wasActive`), on that earlier session's handles.
   */
  predicate Abandoned(browserId: string, before: Observed, made: seq<DriverCall>, wasActive: Option<Session>,
                      after: Observed, ok: nat -> bool) {
    after.pos == before.pos && after.pauses == before.pauses && after.readings == before.readings &&
    match wasActive
    case Some(s) =>
      after.calls == before.calls + made + Attempt(CloseCalls(s), ok, |before.calls| + |made|) &&
      after.rows == WithStatus(before.rows, browserId, "inactive")
    case None =>
      after.calls == before.calls + made && after.rows == before.rows
  }

  datatype LaunchError = NotFound(browserId: string) | DriverFailed

  /**
   * An `active_browsers` entry. Its driver handles are named by `handle`, the
   * number of the `StartPlaywright` call that created them.
   */
  datatype Session = Session(handle: nat, launchedAt: Timestamp)

  /** `active_browsers.get(browser_id)`. */
  function Entry(act: map<string, Session>, browserId: string): Option<Session> {
    if browserId in act then Some(act[browserId]) else None
  }

  /** The proxy table and the oracles a session runs against; no session changes them. */
  datatype World = World(proxies: seq<ProxyRow>, src: Source, ok: nat -> bool, found: nat -> nat, clock: nat -> Timestamp)

  /** One session of a batch: its id, its `active_browsers` entry when it began, and the observed state before and after it. */
  datatype SessionRun = SessionRun(browserId: string, wasActive: Option<Session>, before: Observed, after: Observed)

  /** `r` is what `run_single_browser_session` does: a completed session when the launch returns, an abandoned one when it raises. */
  predicate Ran(r: SessionRun, w: World) {
    var made := LaunchAttempt(r.before.rows, w.proxies, r.browserId, false, w.ok, |r.before.calls|);
    if Launches(r.before.rows, w.proxies, r.browserId, false, w.ok, |r.before.calls|)
    then Completed(r.browserId, r.before, made, r.after, w.src, w.ok, w.found, w.clock)
    else Abandoned(r.browserId, r.before, made, r.wasActive, r.after, w.ok)
  }

  /**
   * `runs` are the sessions of `ids` in list order, begun with the active
   * map `act`: the session of `ids[j]` finds the entry the earlier sessions
   * left, and runs as `run_single_browser_session` does.
   */
  predicate SessionsOf(runs: seq<SessionRun>, ids: seq<string>, act: map<string, Session>, w: World) {
    |runs| == |ids| &&
    forall j :: 0 <= j < |ids| ==>
      runs[j].browserId == ids[j] && runs[j].wasActive == Entry(act - Members(ids[..j]), ids[j]) && Ran(runs[j], w)
  }

  /** The state after the sessions of `runs`, begun at `from`. */
  function Ending(runs: seq<SessionRun>, from: Observed): Observed {
    if runs == [] then from else runs[|runs| - 1].after
  }

  /** The sessions of `runs` follow one another from `from`: each begins where the one before it ended. */
  predicate Consecutive(runs: seq<SessionRun>, from: Observed) {
    (runs != [] ==> runs[0].before == from) &&
    forall j :: 0 < j < |runs| ==> runs[j].before == runs[j - 1].after
  }

  /** The state `o` followed by the pause `p`. */
  function Waited(o: Observed, p: Pause): Observed {
    o.(pauses := o.pauses + [p])
  }

  /**
   * The sessions of a batch from `from`: in groups of ten, one after
   * another, with the five-second delay after each group.
   */
  predicate Batched(runs: seq<SessionRun>, from: Observed) {
    (runs != [] ==> runs[0].before == from) &&
    forall j :: 0 < j < |runs| ==>
      runs[j].before == if j % 10 == 0 then Waited(runs[j - 1].after, Millis(5000)) else runs[j - 1].after
  }

  /** The state after a batch's sessions begun at `from`: the last group's delay follows the last session. */
  function BatchEnd(runs: seq<SessionRun>, from: Observed): Observed {
    if runs == [] then from else Waited(runs[|runs| - 1].after, Millis(5000))
  }

  /** Where a batch's sessions begin: one `datetime.now()` reading after `before`. */
  function BatchStart(before: Observed): Observed {
    before.(readings := before.readings + 1)
  }

  /**
   * The sessions of the group `ids[i..k]`, run after those of `ids[..i]`,
   * and the delay after them, extend the batch's sessions to `ids[..k]`.
   */
  lemma GroupDone(ids: seq<string>, i: nat, k: nat, act: map<string, Session>, from: Observed, runs: seq<SessionRun>,
                  more: seq<SessionRun>, w: World, rows1: seq<BrowserRow>, rows2: seq<BrowserRow>)
    requires i < k <= |ids| && k - i <= 10 && |runs| == i && i % 10 == 0
    requires SessionsOf(runs, ids[..i], act, w) && Batched(runs, from)
    requires SessionsOf(more, ids[i..k], act - Members(ids[..i]), w) && Consecutive(more, BatchEnd(runs, from))
    requires Settled(from.rows, rows1, Members(ids[..i])) && Settled(rows1, rows2, Members(ids[i..k]))
    ensures SessionsOf(runs + more, ids[..k], act, w) && Batched(runs + more, from)
    ensures BatchEnd(runs + more, from) == Waited(Ending(more, BatchEnd(runs, from)), Millis(5000))
    ensures Settled(from.rows, rows2, Members(ids[..k]))
  {
    BatchedAppend(runs, more, from);
    SessionsAppend(runs, more, ids, i, k, act, w);
    SettledTrans(from.rows, rows1, rows2, Members(ids[..i]), Members(ids[i..k]));
    MembersSplit(ids, i, k);
  }

  /**
   * `run_browser_batch` from `before` with the active map `act`: the
   * sessions of the selected ids in order, in groups of ten.
   */
  predicate BatchRan(batchSize: int, before: Observed, act: map<string, Session>, runs: seq<SessionRun>, w: World) {
    SessionsOf(runs, BrowserIds(SelectBatch(before.rows, batchSize)), act, w) && Batched(runs, BatchStart(before))
  }

  /** From `rows0` to `rows`, only ids of `done` changed status, and each of those now reads `inactive`. */
  ghost predicate Settled(rows0: seq<BrowserRow>, rows: seq<BrowserRow>, done: set<string>) {
    forall id :: StatusOf(rows, id) == StatusOf(rows0, id) || (id in done && StatusOf(rows, id) == Some("inactive"))
  }

  /** A completed session's rows differ in status from the old ones at most at its own id, which reads `inactive`. */
  lemma SessionRowsSettle(rows: seq<BrowserRow>, browserId: string, t: Timestamp)
    ensures Settled(rows, SessionRows(rows, browserId, t), {browserId})
  {
    var r1 := WithStatus(rows, browserId, "running");
    var r2 := WithLastInteraction(r1, browserId, t);
    forall x ensures StatusOf(SessionRows(rows, browserId, t), x) == StatusOf(rows, x) ||
                     (x == browserId && StatusOf(SessionRows(rows, browserId, t), x) == Some("inactive")) {
      StatusAfterWrite(rows, browserId, "running", x);
      StatusAfterTouch(r1, browserId, t, x);
      StatusAfterWrite(r2, browserId, "inactive", x);
    }
  }

  /** Marking one id `inactive` settles that id. */
  lemma InactiveSettles(rows: seq<BrowserRow>, browserId: string)
    ensures Settled(rows, WithStatus(rows, browserId, "inactive"), {browserId})
  {
    forall x ensures StatusOf(WithStatus(rows, browserId, "inactive"), x) == StatusOf(rows, x) ||
                     (x == browserId && StatusOf(WithStatus(rows, browserId, "inactive"), x) == Some("inactive")) {
      StatusAfterWrite(rows, browserId, "inactive", x);
    }
  }

  /** Settling `d1` and then `d2` settles both. */
  lemma SettledTrans(rows0: seq<BrowserRow>, rows1: seq<BrowserRow>, rows2: seq<BrowserRow>, d1: set<string>, d2: set<string>)
    requires Settled(rows0, rows1, d1) && Settled(rows1, rows2, d2)
    ensures Settled(rows0, rows2, d1 + d2)
  {
    forall x ensures StatusOf(rows2, x) == StatusOf(rows0, x) || (x in d1 + d2 && StatusOf(rows2, x) == Some("inactive")) {
      assert StatusOf(rows1, x) == StatusOf(rows0, x) || (x in d1 && StatusOf(rows1, x) == Some("inactive"));
      assert StatusOf(rows2, x) == StatusOf(rows1, x) || (x in d2 && StatusOf(rows2, x) == Some("inactive"));
    }
  }

  /** One more session, for the next id, extends the sessions of a prefix of `ids`. */
  lemma SessionsSnoc(runs: seq<SessionRun>, ids: seq<string>, j: nat, act: map<string, Session>, r: SessionRun, w: World)
    requires j < |ids| && SessionsOf(runs, ids[..j], act, w)
    requires r.browserId == ids[j] && r.wasActive == Entry(act - Members(ids[..j]), ids[j]) && Ran(r, w)
    ensures SessionsOf(runs + [r], ids[..j + 1], act, w)
  {
    var all, pre := runs + [r], ids[..j + 1];
    forall m | 0 <= m < |pre|
      ensures all[m].browserId == pre[m] && all[m].wasActive == Entry(act - Members(pre[..m]), pre[m]) && Ran(all[m], w)
    {
      assert pre[..m] == ids[..m];
      if m < j {
        assert all[m] == runs[m] && ids[..j][..m] == ids[..m];
      }
    }
  }

  /** The sessions of the ids before offset `i`, then those of `ids[i..k]`, are the sessions of the ids before `k`. */
  lemma SessionsAppend(runs: seq<SessionRun>, more: seq<SessionRun>, ids: seq<string>, i: nat, k: nat,
                       act: map<string, Session>, w: World)
    requires i <= k <= |ids|
    requires SessionsOf(runs, ids[..i], act, w) && SessionsOf(more, ids[i..k], act - Members(ids[..i]), w)
    ensures SessionsOf(runs + more, ids[..k], act, w)
  {
    var all, pre := runs + more, ids[..k];
    forall m | 0 <= m < |pre|
      ensures all[m].browserId == pre[m] && all[m].wasActive == Entry(act - Members(pre[..m]), pre[m]) && Ran(all[m], w)
    {
      assert pre[..m] == ids[..m];
      if m < i {
        assert all[m] == runs[m] && ids[..i][..m] == ids[..m];
      } else {
        assert all[m] == more[m - i] && ids[i..k][..m - i] == ids[i..m];
        RemoveGroup(act, ids, i, m);
      }
    }
  }

  /** One more session, begun where the others ended, keeps them consecutive. */
  lemma ConsecutiveSnoc(runs: seq<SessionRun>, from: Observed, r: SessionRun)
    requires Consecutive(runs, from) && r.before == Ending(runs, from)
    ensures Consecutive(runs + [r], from) && Ending(runs + [r], from) == r.after
  {
  }

  /** Past a multiple of ten, the next nine offsets are not multiples of ten. */
  lemma InsideGroup(base: nat, d: nat)
    requires base % 10 == 0 && 0 < d < 10
    ensures (base + d) % 10 != 0
  {
    assert base == base / 10 * 10;
    assert (base + d) / 10 == base / 10;
  }

  /** The offset ten past a multiple of ten is one too. */
  lemma NextGroupStart(base: nat)
    requires base % 10 == 0
    ensures (base + 10) % 10 == 0
  {
    assert base == base / 10 * 10;
    assert base + 10 == (base / 10 + 1) * 10;
  }

  /** A group of at most ten consecutive sessions, begun after a batch's earlier groups, extends the batch. */
  lemma BatchedAppend(runs: seq<SessionRun>, more: seq<SessionRun>, from: Observed)
    requires |runs| % 10 == 0 && 0 < |more| <= 10
    requires Batched(runs, from) && Consecutive(more, BatchEnd(runs, from))
    ensures Batched(runs + more, from)
    ensures BatchEnd(runs + more, from) == Waited(Ending(more, BatchEnd(runs, from)), Millis(5000))
  {
    var all := runs + more;
    forall j | 0 < j < |all|
      ensures all[j].before == if j % 10 == 0 then Waited(all[j - 1].after, Millis(5000)) else all[j - 1].after
    {
      if j > |runs| {
        InsideGroup(|runs|, j - |runs|);
        assert all[j] == more[j - |runs|] && all[j - 1] == more[j - 1 - |runs|];
      } else if j == |runs| {
        assert all[j] == more[0] && all[j - 1] == runs[j - 1];
      } else {
        assert all[j] == runs[j] && all[j - 1] == runs[j - 1];
      }
    }
  }

  class PlaywrightExecutor {
    const db: Database
    const env: Environment
    const rng: Entropy
    var active: map<string, Session>
    /** The groups batches have been split into, in order. */
    ghost var groups: seq<seq<string>>

    /** Every active browser's row reads `running`. */
    ghost predicate Valid()
      reads this, db
    {
      AllRunning(db.browsers, active.Keys)
    }

    /** The executor's observable state. */
    ghost function Observe(): Observed
      reads db, env, rng
    {
      Observed(db.browsers, env.calls, env.pauses, env.readings, rng.pos)
    }

    /** The proxy table and the oracles, which no session changes. */
    ghost function Setting(): World
      reads db`proxies
    {
      World(db.proxies, rng.src, env.succeeds, env.found, env.clock)
    }

    constructor (db: Database, env: Environment, rng: Entropy)
      ensures Valid() && this.db == db && this.env == env && this.rng == rng
      ensures active == map[] && groups == []
    {
      this.db := db;
      this.env := env;
      this.rng := rng;
      active := map[];
      groups := [];
    }

    /**
     * `launch_browser`: an unknown id raises before any driver call; a
     * failing driver call propagates with nothing recorded; otherwise the id
     * enters `active_browsers` and then its status becomes `running`.
     */
    method LaunchBrowser(browserId: string, useProxy: bool) returns (r: Result<(), LaunchError>)
      requires Valid()
      modifies this`active, db`browsers, env`calls, env`readings
      ensures Valid()
      ensures env.calls == old(env.calls) + LaunchAttempt(old(db.browsers), db.proxies, browserId, useProxy, env.succeeds, |old(env.calls)|)
      ensures r.Ok? <==> Launches(old(db.browsers), db.proxies, browserId, useProxy, env.succeeds, |old(env.calls)|)
      ensures r == Err(NotFound(browserId)) <==> !HasBrowser(old(db.browsers), browserId)
      ensures r.Err? ==> r == Err(DriverFailed) || r == Err(NotFound(browserId))
      ensures r.Ok? ==> (env.readings == old(env.readings) + 1 &&
        active == old(active)[browserId := Session(|old(env.calls)|, env.clock(old(env.readings)))] &&
        db.browsers == WithStatus(old(db.browsers), browserId, "running"))
      ensures r.Err? ==> active == old(active) && db.browsers == old(db.browsers) && env.readings == old(env.readings)
    {
      var cmd := GenerateLaunchCommand(db.browsers, db.proxies, browserId, false, useProxy);
      if cmd.Err? {
        return Err(NotFound(browserId));
      }
      var handle := |env.calls|;
      var ok := env.CallAll(LaunchCalls(cmd.value));
      if !ok {
        return Err(DriverFailed);
      }
      var t := env.Now();
      Register(browserId, Session(handle, t));
      r := Ok(());
    }

    /** The end of a successful launch: the id enters `active_browsers`, then its row reads `running`. */
    method Register(browserId: string, s: Session)
      requires Valid() && HasBrowser(db.browsers, browserId)
      modifies this`active, db`browsers
      ensures Valid()
      ensures active == old(active)[browserId := s]
      ensures db.browsers == WithStatus(old(db.browsers), browserId, "running")
    {
      StatusWriteKeepsRunning(db.browsers, browserId, "running", active.Keys + {browserId});
      active := active[browserId := s];
      db.SetStatus(browserId, "running");
    }

    /**
     * `execute_command`: a command for an inactive id launches it first (and
     * that launch's failure propagates); then the command is dispatched and
     * any failure inside it is swallowed.
     */
    method ExecuteCommand(browserId: string, cmd: Command) returns (r: Result<(), LaunchError>)
      requires Valid()
      modifies this`active, db`browsers, env`calls, env`pauses, env`readings
      ensures Valid()
      ensures browserId in old(active) ==> (r.Ok? && active == old(active) && db.browsers == old(db.browsers) &&
        env.calls == old(env.calls) + Dispatch(cmd, env.succeeds, env.found, |old(env.calls)|) &&
        env.pauses == old(env.pauses) + DispatchPauses(cmd) && env.readings == old(env.readings))
      ensures browserId !in old(active) ==>
        var made := LaunchAttempt(old(db.browsers), db.proxies, browserId, false, env.succeeds, |old(env.calls)|);
        (r.Ok? <==> Launches(old(db.browsers), db.proxies, browserId, false, env.succeeds, |old(env.calls)|)) &&
        (r.Ok? ==>
          env.calls == old(env.calls) + made + Dispatch(cmd, env.succeeds, env.found, |old(env.calls)| + |made|) &&
          env.pauses == old(env.pauses) + DispatchPauses(cmd) && env.readings == old(env.readings) + 1 &&
          active == old(active)[browserId := Session(|old(env.calls)|, env.clock(old(env.readings)))] &&
          db.browsers == WithStatus(old(db.browsers), browserId, "running")) &&
        (r.Err? ==>
          env.calls == old(env.calls) + made && env.readings == old(env.readings) &&
          (r == Err(NotFound(browserId)) <==> !HasBrowser(old(db.browsers), browserId)))
      ensures r.Ok? ==> browserId in active && StatusOf(db.browsers, browserId) == Some("running")
      ensures r.Err? ==> active == old(active) && db.browsers == old(db.browsers) && env.pauses == old(env.pauses)
      ensures active.Keys == old(active.Keys) + {browserId} || active == old(active)
    {
      if browserId !in active {
        var launched := LaunchBrowser(browserId, false);
        if launched.Err? {
          return Err(launched.error);
        }
      }
      env.Perform(cmd);
      r := Ok(());
    }

    /**
     * `close_browser`: nothing for an inactive id; otherwise the three close
     * calls until one fails (its exception is swallowed), then the id leaves
     * `active_browsers` and its status becomes `inactive`.
     */
    method CloseBrowser(browserId: string)
      requires Valid()
      modifies this`active, db`browsers, env`calls
      ensures Valid()
      ensures browserId !in old(active) ==>
        active == old(active) && db.browsers == old(db.browsers) && env.calls == old(env.calls)
      ensures browserId in old(active) ==> (active == old(active) - {browserId} &&
        db.browsers == WithStatus(old(db.browsers), browserId, "inactive") &&
        env.calls == old(env.calls) + Attempt(CloseCalls(old(active)[browserId]), env.succeeds, |old(env.calls)|))
    {
      if browserId in active {
        var _ := env.CallAll(CloseCalls(active[browserId]));
        Unregister(browserId);
      }
    }

    /** The end of a close: the id leaves `active_browsers`, then its row reads `inactive`. */
    method Unregister(browserId: string)
      requires Valid()
      modifies this`active, db`browsers
      ensures Valid()
      ensures active == old(active) - {browserId}
      ensures db.browsers == WithStatus(old(db.browsers), browserId, "inactive")
    {
      active := active - {browserId};
      StatusWriteKeepsRunning(db.browsers, browserId, "inactive", active.Keys);
      db.SetStatus(browserId, "inactive");
    }

    /**
     * `run_single_browser_session`: launch, the generated plan with a
     * `uniform(1, 3)` delay after each command, the `last_interaction`
     * write, and in every case the close. A launch that raises ends the
     * session early (the exception is swallowed); `completed` says whether
     * the plan ran.
     */
    method RunSingleBrowserSession(browserId: string) returns (completed: bool)
      requires Valid()
      modifies this`active, db`browsers, env`calls, env`pauses, env`readings, rng
      ensures Valid()
      ensures active == old(active) - {browserId}
      ensures completed <==> Launches(old(db.browsers), db.proxies, browserId, false, env.succeeds, |old(env.calls)|)
      ensures completed ==> Completed(browserId, old(Observe()),
        LaunchAttempt(old(db.browsers), db.proxies, browserId, false, env.succeeds, |old(env.calls)|),
        Observe(), rng.src, env.succeeds, env.found, env.clock)
      ensures !completed ==> Abandoned(browserId, old(Observe()),
        LaunchAttempt(old(db.browsers), db.proxies, browserId, false, env.succeeds, |old(env.calls)|),
        if browserId in old(active) then Some(old(active)[browserId]) else None, Observe(), env.succeeds)
      ensures Settled(old(db.browsers), db.browsers, {browserId})
    {
      ghost var before := Observe();
      ghost var made := LaunchAttempt(db.browsers, db.proxies, browserId, false, env.succeeds, |env.calls|);
      var launched := LaunchBrowser(browserId, false);
      if launched.Err? {
        AbandonSession(browserId, old(active), before, made);
        if browserId in old(active) {
          InactiveSettles(before.rows, browserId);
        }
        completed := false;
      } else {
        CompleteSession(browserId, old(active), before, made);
        SessionRowsSettle(before.rows, browserId, env.clock(before.readings + 1));
        completed := true;
      }
    }

    /**
     * A session after its launch succeeded, stated against the state
     * `before` the launch, with `made` the launch's driver calls and
     * `active0` the active set it extended.
     */
    method CompleteSession(browserId: string, ghost active0: map<string, Session>, ghost before: Observed,
                           ghost made: seq<DriverCall>)
      requires Valid() && browserId in active
      requires active == active0[browserId := active[browserId]] && active[browserId].handle == |before.calls|
      requires Observe() == Observed(WithStatus(before.rows, browserId, "running"), before.calls + made, before.pauses,
                                     before.readings + 1, before.pos)
      modifies this`active, db`browsers, env`calls, env`pauses, env`readings, rng
      ensures Valid()
      ensures active == active0 - {browserId}
      ensures Completed(browserId, before, made, Observe(), rng.src, env.succeeds, env.found, env.clock)
    {
      ghost var s := active[browserId];
      FinishSession(browserId);
      FinishedCompletes(browserId, before, made, s, Observe(), rng.src, env.succeeds, env.found, env.clock);
      UpdateThenRemove(active0, browserId, s);
    }

    /** A session after its launch raised: only the close, stated against the state `before` the launch. */
    method AbandonSession(browserId: string, ghost active0: map<string, Session>, ghost before: Observed,
                          ghost made: seq<DriverCall>)
      requires Valid() && active == active0 && db.browsers == before.rows
      requires env.calls == before.calls + made && env.readings == before.readings
      requires env.pauses == before.pauses && rng.pos == before.pos
      modifies this`active, db`browsers, env`calls
      ensures Valid()
      ensures active == active0 - {browserId}
      ensures Abandoned(browserId, before, made, if browserId in active0 then Some(active0[browserId]) else None,
                        Observe(), env.succeeds)
    {
      CloseBrowser(browserId);
    }

    /** The rest of a session whose launch succeeded: the plan, the `last_interaction` write and the close. */
    method FinishSession(browserId: string)
      requires Valid() && browserId in active
      modifies this`active, db`browsers, env`calls, env`pauses, env`readings, rng
      ensures Valid()
      ensures active == old(active) - {browserId}
      ensures Finished(browserId, old(Observe()), old(active)[browserId], Observe(), rng.src, env.succeeds, env.found, env.clock)
    {
      ghost var before, s := Observe(), active[browserId];
      PlaySession(browserId);
      ghost var mid := Observe();
      WrapUpSession(browserId);
      PlayedThenWrappedUp(browserId, before, mid, s, Observe(), rng.src, env.succeeds, env.found, env.clock);
    }

    /** The plan part of a session: the plan is drawn, then run. */
    method PlaySession(browserId: string)
      requires browserId in active
      modifies env`calls, env`pauses, rng
      ensures Played(old(Observe()), Observe(), rng.src, env.succeeds, env.found)
    {
      var plan := GenerateInteractionCommands(rng.src, rng.pos);
      rng.Advance(plan.next);
      RunPlan(browserId, plan.value);
    }

    /** The end of a session: `update_browser_last_interaction`, then `close_browser`. */
    method WrapUpSession(browserId: string)
      requires Valid() && browserId in active
      modifies this`active, db`browsers, env`calls, env`readings
      ensures Valid()
      ensures active == old(active) - {browserId}
      ensures WrappedUp(browserId, old(Observe()), old(active)[browserId], Observe(), env.succeeds, env.clock)
    {
      TouchLastInteraction(browserId);
      CloseBrowser(browserId);
    }

    /**
     * One pass of the plan loop, command `i`: `execute_command` for the
     * session's id, which is active throughout the plan, so its launch
     * branch is not taken and only the dispatch runs; then the
     * `uniform(1, 3)` delay, which consumes one draw. Stated against the
     * calls `calls0` and pauses `pauses0` from before the plan.
     */
    method RunStep(browserId: string, cmds: seq<Command>, i: nat, ghost calls0: seq<DriverCall>, ghost pauses0: seq<Pause>)
      requires browserId in active && i < |cmds|
      requires env.calls == calls0 + PlanCalls(cmds[..i], env.succeeds, env.found, |calls0|)
      requires env.pauses == pauses0 + PlanPauses(cmds[..i])
      modifies env`calls, env`pauses, rng
      ensures rng.pos == old(rng.pos) + 1
      ensures env.calls == calls0 + PlanCalls(cmds[..i + 1], env.succeeds, env.found, |calls0|)
      ensures env.pauses == pauses0 + PlanPauses(cmds[..i + 1])
    {
      PlanStep(cmds, i, env.succeeds, env.found, |calls0|);
      env.Perform(cmds[i]);
      env.Sleep(UniformSeconds(1, 3));
      rng.Advance(rng.pos + 1);
    }

    /** The plan loop of a session: each command in turn, then a `uniform(1, 3)` delay and its draw. */
    method RunPlan(browserId: string, cmds: seq<Command>)
      requires browserId in active
      modifies env`calls, env`pauses, rng
      ensures rng.pos == old(rng.pos) + |cmds|
      ensures env.calls == old(env.calls) + PlanCalls(cmds, env.succeeds, env.found, |old(env.calls)|)
      ensures env.pauses == old(env.pauses) + PlanPauses(cmds)
    {
      var i := 0;
      while i < |cmds|
        invariant 0 <= i <= |cmds|
        invariant rng.pos == old(rng.pos) + i
        invariant env.calls == old(env.calls) + PlanCalls(cmds[..i], env.succeeds, env.found, |old(env.calls)|)
        invariant env.pauses == old(env.pauses) + PlanPauses(cmds[..i])
      {
        RunStep(browserId, cmds, i, old(env.calls), old(env.pauses));
        i := i + 1;
      }
      assert cmds[..i] == cmds;
    }

    /** `update_browser_last_interaction` with the current time. */
    method TouchLastInteraction(browserId: string)
      requires Valid()
      modifies db`browsers, env`readings
      ensures Valid()
      ensures env.readings == old(env.readings) + 1
      ensures db.browsers == WithLastInteraction(old(db.browsers), browserId, env.clock(old(env.readings)))
    {
      var now := env.Now();
      TouchKeepsRunning(db.browsers, browserId, now, active.Keys);
      db.SetLastInteraction(browserId, now);
    }
    /**
     * `run_browser_batch` with the default five-minute interval: the batch
     * selection (whose failure propagates to the caller before anything
     * else happens), then the selected ids in consecutive groups of ten,
     * each group's sessions followed by a five-second delay. `runs` are the
     * sessions, in order.
     */
    method RunBrowserBatch(batchSize: int) returns (ok: bool, ghost runs: seq<SessionRun>)
      requires Valid()
      modifies this`active, this`groups, db`browsers, env`calls, env`pauses, env`readings, env`queries, rng
      ensures Valid()
      ensures ok == env.storeUp(old(env.queries)) && env.queries == old(env.queries) + 1
      ensures !ok ==> runs == [] && active == old(active) && groups == old(groups) && Observe() == old(Observe())
      ensures ok ==>
        BatchRan(batchSize, old(Observe()), old(active), runs, Setting()) &&
        Observe() == BatchEnd(runs, BatchStart(old(Observe())))
      ensures ok ==> var ids := BrowserIds(SelectBatch(old(db.browsers), batchSize));
        groups == old(groups) + Chunks(ids, 10) && active == old(active) - Members(ids) &&
        Settled(old(db.browsers), db.browsers, Members(ids))
    {
      runs := [];
      ok := env.Select();
      if !ok {
        return;
      }
      var now := env.Now();
      var batch := ScheduleBrowserBatch(db.browsers, batchSize, 5, now);
      runs := RunGroups(batch.browserIds);
    }

    /** The group loop of `run_browser_batch`: `ids` in consecutive groups of ten, each followed by the delay. */
    method RunGroups(ids: seq<string>) returns (ghost runs: seq<SessionRun>)
      requires Valid()
      modifies this`active, this`groups, db`browsers, env`calls, env`pauses, env`readings, rng
      ensures Valid()
      ensures groups == old(groups) + Chunks(ids, 10) && active == old(active) - Members(ids)
      ensures SessionsOf(runs, ids, old(active), Setting())
      ensures Batched(runs, old(Observe())) && Observe() == BatchEnd(runs, old(Observe()))
      ensures Settled(old(db.browsers), db.browsers, Members(ids))
    {
      var i := 0;
      runs := [];
      while i < |ids|
        invariant 0 <= i <= |ids| && (i % 10 == 0 || i == |ids|)
        invariant Valid()
        invariant old(groups) + Chunks(ids, 10) == groups + Chunks(ids[i..], 10)
        invariant active == old(active) - Members(ids[..i])
        invariant SessionsOf(runs, ids[..i], old(active), Setting())
        invariant Batched(runs, old(Observe())) && Observe() == BatchEnd(runs, old(Observe()))
        invariant Settled(old(db.browsers), db.browsers, Members(ids[..i]))
        decreases |ids| - i
      {
        i, runs := RunNextGroup(ids, i, old(groups), old(active), old(Observe()), runs);
      }
      assert ids[..i] == ids;
    }

    /**
     * One pass of the batch loop, from offset `i` of `ids`: the next group
     * of ten (or fewer at the end), its sessions and the five-second delay.
     * Stated against the groups, active set and state from before the
     * batch, and the sessions `runs0` of the ids before `i`.
     */
    method RunNextGroup(ids: seq<string>, i: nat, ghost groups0: seq<seq<string>>, ghost active0: map<string, Session>,
                        ghost from: Observed, ghost runs0: seq<SessionRun>) returns (k: nat, ghost runs: seq<SessionRun>)
      requires Valid() && i < |ids| && i % 10 == 0
      requires groups0 + Chunks(ids, 10) == groups + Chunks(ids[i..], 10)
      requires active == active0 - Members(ids[..i])
      requires SessionsOf(runs0, ids[..i], active0, Setting())
      requires Batched(runs0, from) && Observe() == BatchEnd(runs0, from)
      requires Settled(from.rows, db.browsers, Members(ids[..i]))
      modifies this`active, this`groups, db`browsers, env`calls, env`pauses, env`readings, rng
      ensures Valid()
      ensures k == if |ids| - i < 10 then |ids| else i + 10
      ensures k % 10 == 0 || k == |ids|
      ensures groups0 + Chunks(ids, 10) == groups + Chunks(ids[k..], 10)
      ensures active == active0 - Members(ids[..k])
      ensures SessionsOf(runs, ids[..k], active0, Setting())
      ensures Batched(runs, from) && Observe() == BatchEnd(runs, from)
      ensures Settled(from.rows, db.browsers, Members(ids[..k]))
    {
      k := if |ids| - i < 10 then |ids| else i + 10;
      NextGroupStart(i);
      var group := ids[i..k];
      NextGroupBookkeeping(ids, i, k, groups0, groups, active0, active);
      groups := groups + [group];
      ghost var rows := db.browsers;
      ghost var more := RunGroupAndWait(group);
      GroupDone(ids, i, k, active0, from, runs0, more, Setting(), rows, db.browsers);
      runs := runs0 + more;
    }

    /** A group's sessions and the five-second delay after them. */
    method RunGroupAndWait(group: seq<string>) returns (ghost runs: seq<SessionRun>)
      requires Valid()
      modifies this`active, db`browsers, env`calls, env`pauses, env`readings, rng
      ensures Valid()
      ensures active == old(active) - Members(group)
      ensures SessionsOf(runs, group, old(active), Setting())
      ensures Consecutive(runs, old(Observe())) && Observe() == Waited(Ending(runs, old(Observe())), Millis(5000))
      ensures Settled(old(db.browsers), db.browsers, Members(group))
    {
      runs := RunGroup(group);
      env.Sleep(Millis(5000));
    }

    /**
     * One group of a batch: its sessions in list order (the source runs them
     * concurrently), each begun where the one before ended.
     */
    method RunGroup(group: seq<string>) returns (ghost runs: seq<SessionRun>)
      requires Valid()
      modifies this`active, db`browsers, env`calls, env`pauses, env`readings, rng
      ensures Valid()
      ensures active == old(active) - Members(group)
      ensures SessionsOf(runs, group, old(active), Setting())
      ensures Consecutive(runs, old(Observe())) && Observe() == Ending(runs, old(Observe()))
      ensures Settled(old(db.browsers), db.browsers, Members(group))
    {
      var j := 0;
      runs := [];
      while j < |group|
        invariant 0 <= j <= |group|
        invariant Valid()
        invariant active == old(active) - Members(group[..j])
        invariant SessionsOf(runs, group[..j], old(active), Setting())
        invariant Consecutive(runs, old(Observe())) && Observe() == Ending(runs, old(Observe()))
        invariant Settled(old(db.browsers), db.browsers, Members(group[..j]))
      {
        runs := RunMember(group, j, old(active), old(Observe()), runs);
        j := j + 1;
      }
      assert group[..j] == group;
    }

    /**
     * One pass of the group loop: the session of `group[j]`, stated against
     * the group's starting active set and state, and the sessions `runs0`
     * of the members before `j`.
     */
    method RunMember(group: seq<string>, j: nat, ghost active0: map<string, Session>, ghost from: Observed,
                     ghost runs0: seq<SessionRun>) returns (ghost runs: seq<SessionRun>)
      requires Valid() && j < |group|
      requires active == active0 - Members(group[..j])
      requires SessionsOf(runs0, group[..j], active0, Setting())
      requires Consecutive(runs0, from) && Observe() == Ending(runs0, from)
      requires Settled(from.rows, db.browsers, Members(group[..j]))
      modifies this`active, db`browsers, env`calls, env`pauses, env`readings, rng
      ensures Valid()
      ensures active == active0 - Members(group[..j + 1])
      ensures SessionsOf(runs, group[..j + 1], active0, Setting())
      ensures Consecutive(runs, from) && Observe() == Ending(runs, from)
      ensures Settled(from.rows, db.browsers, Members(group[..j + 1]))
    {
      ghost var before, was := Observe(), Entry(active, group[j]);
      var _ := RunSingleBrowserSession(group[j]);
      ghost var r := SessionRun(group[j], was, before, Observe());
      assert Ran(r, Setting());
      SessionsSnoc(runs0, group, j, active0, r, Setting());
      ConsecutiveSnoc(runs0, from, r);
      SettledTrans(from.rows, before.rows, db.browsers, Members(group[..j]), {group[j]});
      RemoveNext(active0, group, j);
      runs := runs0 + [r];
    }
  }

  /**
   * One round of the continuous scheduler: whether its batch ran, the state
   * and active map it began with, the batch's sessions, the wait that
   * followed, and the state and active map it ended with.
   */
  datatype Round = Round(batchOk: bool, before: Observed, active: map<string, Session>, runs: seq<SessionRun>,
                         wait: Pause, after: Observed, activeAfter: map<string, Session>)

  /** The wait after a round: `interval_minutes` after a batch that ran, one minute after one that raised. */
  function RoundWait(ok: bool, intervalMinutes: int): Pause {
    Millis(if ok then intervalMinutes * 60000 else 60000)
  }

  /**
   * `r` is a round of batches of `batchSize` every `intervalMinutes`: a
   * batch that ran is followed by the interval, and a selection that raised
   * changes nothing before the one-minute wait.
   */
  predicate RoundRan(r: Round, batchSize: int, intervalMinutes: int, w: World) {
    r.wait == RoundWait(r.batchOk, intervalMinutes) &&
    if r.batchOk then
      BatchRan(batchSize, r.before, r.active, r.runs, w) &&
      r.after == Waited(BatchEnd(r.runs, BatchStart(r.before)), r.wait) &&
      r.activeAfter == r.active - Members(BrowserIds(SelectBatch(r.before.rows, batchSize)))
    else
      r.runs == [] && r.after == Waited(r.before, r.wait) && r.activeAfter == r.active
  }

  /** The rounds `rs` follow one another from `before` and `act` to `after` and `actAfter`. */
  predicate Successive(rs: seq<Round>, before: Observed, act: map<string, Session>, after: Observed, actAfter: map<string, Session>) {
    (rs == [] ==> after == before && actAfter == act) &&
    (rs != [] ==> rs[0].before == before && rs[0].active == act &&
                  rs[|rs| - 1].after == after && rs[|rs| - 1].activeAfter == actAfter) &&
    forall i :: 0 < i < |rs| ==> rs[i].before == rs[i - 1].after && rs[i].active == rs[i - 1].activeAfter
  }

  /** One more round, begun where the others ended, keeps them successive. */
  lemma SuccessiveSnoc(rs: seq<Round>, before: Observed, act: map<string, Session>, mid: Observed,
                       actMid: map<string, Session>, r: Round)
    requires Successive(rs, before, act, mid, actMid) && r.before == mid && r.active == actMid
    ensures Successive(rs + [r], before, act, r.after, r.activeAfter)
  {
  }

  /**
   * The rounds `rs`, the first on selection query `q0`, run one after
   * another from `before` and `act` to `after` and `actAfter`; the round on
   * query `q` runs its batch exactly when the store is up for `q`.
   */
  predicate Schedule(rs: seq<Round>, q0: nat, storeUp: nat -> bool, batchSize: int, intervalMinutes: int, w: World,
                     before: Observed, act: map<string, Session>, after: Observed, actAfter: map<string, Session>) {
    (forall i :: 0 <= i < |rs| ==> rs[i].batchOk == storeUp(q0 + i) && RoundRan(rs[i], batchSize, intervalMinutes, w)) &&
    Successive(rs, before, act, after, actAfter)
  }

  /** A round on the next query, begun where the schedule ended, extends it. */
  lemma ScheduleSnoc(rs: seq<Round>, q0: nat, storeUp: nat -> bool, batchSize: int, intervalMinutes: int, w: World,
                     before: Observed, act: map<string, Session>, mid: Observed, actMid: map<string, Session>, r: Round)
    requires Schedule(rs, q0, storeUp, batchSize, intervalMinutes, w, before, act, mid, actMid)
    requires r.before == mid && r.active == actMid
    requires r.batchOk == storeUp(q0 + |rs|) && RoundRan(r, batchSize, intervalMinutes, w)
    ensures Schedule(rs + [r], q0, storeUp, batchSize, intervalMinutes, w, before, act, r.after, r.activeAfter)
  {
    SuccessiveSnoc(rs, before, act, mid, actMid, r);
  }

  /**
   * After `n` rounds from query `q0`, with `stop` telling whether a stop
   * arrives during the pause of each: no stop arrived before the last
   * round, and the flag is still set exactly when none arrived in it.
   */
  predicate Stopping(stop: nat -> bool, q0: nat, n: nat, running: bool) {
    (forall p :: q0 <= p < q0 + n - 1 ==> !stop(p)) &&
    (running <==> !(0 < n && stop(q0 + n - 1)))
  }

  /** A further round, run because the flag was still set, clears the flag exactly when a stop arrives during it. */
  lemma StoppingNext(stop: nat -> bool, q0: nat, n: nat)
    requires Stopping(stop, q0, n, true)
    ensures Stopping(stop, q0, n + 1, !stop(q0 + n))
  {
  }

  /** What `Stopping` says about the queries from `q0` to `q`, spelled out. */
  lemma StoppingSpelled(stop: nat -> bool, q0: nat, q: nat, running: bool)
    requires q0 <= q && Stopping(stop, q0, q - q0, running)
    ensures forall p :: q0 <= p < q - 1 ==> !stop(p)
    ensures running <==> !(q0 < q && stop(q - 1))
  {
  }

  /**
   * `BrowserScheduler`: repeated batches until `stop_automation`. The loop
   * of `start_continuous_automation` is bounded by `maxRounds`.
   */
  class BrowserScheduler {
    const executor: PlaywrightExecutor
    var running: bool
    /** The rounds run so far, in order. */
    ghost var rounds: seq<Round>

    constructor (executor: PlaywrightExecutor)
      ensures this.executor == executor && !running && rounds == []
    {
      this.executor := executor;
      running := false;
      rounds := [];
    }

    /** `stop_automation`. */
    method StopAutomation()
      modifies this`running
      ensures !running
    {
      running := false;
    }

    /**
     * `start_continuous_automation`: sets the flag, then runs rounds while
     * it stays set; a stop arriving during a round takes effect when the
     * loop condition is next checked. Each round issues one selection query,
     * so the queries from `old(queries)` on number the rounds: the round on
     * query `q` runs its batch exactly when the store is up for `q`, then
     * waits, and begins where the round before it ended; the loop ends after
     * the first round with a stop, or after `maxRounds` rounds with none.
     */
    method StartContinuousAutomation(batchSize: int, intervalMinutes: int, maxRounds: nat)
      requires executor.Valid()
      modifies this`running, this`rounds, executor`active, executor`groups, executor.db`browsers,
        executor.env`calls, executor.env`pauses, executor.env`readings, executor.env`queries, executor.rng
      ensures executor.Valid()
      ensures var q0, q := old(executor.env.queries), executor.env.queries;
        q0 <= q <= q0 + maxRounds && |rounds| == |old(rounds)| + (q - q0) && rounds[..|old(rounds)|] == old(rounds) &&
        Schedule(rounds[|old(rounds)|..], q0, executor.env.storeUp, batchSize, intervalMinutes, executor.Setting(),
                 old(executor.Observe()), old(executor.active), executor.Observe(), executor.active) &&
        (forall p :: q0 <= p < q - 1 ==> !executor.env.stopDuring(p)) &&
        (running <==> !(q0 < q && executor.env.stopDuring(q - 1))) &&
        (running ==> q == q0 + maxRounds)
    {
      running := true;
      var n := 0;
      ghost var log: seq<Round> := [];
      ghost var w := executor.Setting();
      while running && n < maxRounds
        invariant 0 <= n <= maxRounds
        invariant executor.Valid()
        invariant executor.env.queries == old(executor.env.queries) + n
        invariant rounds == old(rounds) + log && |log| == n
        invariant executor.Setting() == w
        invariant Schedule(log, old(executor.env.queries), executor.env.storeUp, batchSize, intervalMinutes, w,
                           old(executor.Observe()), old(executor.active), executor.Observe(), executor.active)
        invariant Stopping(executor.env.stopDuring, old(executor.env.queries), n, running)
        decreases maxRounds - n
      {
        var q := executor.env.queries;
        log := RunNextRound(batchSize, intervalMinutes, old(executor.env.queries), w, old(executor.Observe()),
                            old(executor.active), log, old(rounds));
        CheckStop(q, old(executor.env.queries), n);
        n := n + 1;
      }
      assert rounds[|old(rounds)|..] == log;
      StoppingSpelled(executor.env.stopDuring, old(executor.env.queries), executor.env.queries, running);
    }

    /** The end of a pass of the scheduler loop: a stop during the pause of the round on query `q` clears the flag. */
    method CheckStop(q: nat, ghost q0: nat, ghost n: nat)
      requires q == q0 + n && running && Stopping(executor.env.stopDuring, q0, n, running)
      modifies this`running
      ensures Stopping(executor.env.stopDuring, q0, n + 1, running)
    {
      StoppingNext(executor.env.stopDuring, q0, n);
      if executor.env.stopDuring(q) {
        StopAutomation();
      }
    }

    /**
     * One pass of the scheduler loop: a round, added to the rounds `log`
     * run since `base` and stated against the schedule that began on query
     * `q0` in the state `before` with the active map `act`.
     */
    method RunNextRound(batchSize: int, intervalMinutes: int, ghost q0: nat, ghost w: World, ghost before: Observed,
                        ghost act: map<string, Session>, ghost log: seq<Round>, ghost base: seq<Round>)
      returns (ghost log': seq<Round>)
      requires executor.Valid() && executor.Setting() == w
      requires rounds == base + log && executor.env.queries == q0 + |log|
      requires Schedule(log, q0, executor.env.storeUp, batchSize, intervalMinutes, w, before, act, executor.Observe(), executor.active)
      modifies this`rounds, executor`active, executor`groups, executor.db`browsers,
        executor.env`calls, executor.env`pauses, executor.env`readings, executor.env`queries, executor.rng
      ensures executor.Valid() && executor.Setting() == w
      ensures rounds == base + log' && |log'| == |log| + 1 && executor.env.queries == q0 + |log'|
      ensures Schedule(log', q0, executor.env.storeUp, batchSize, intervalMinutes, w, before, act, executor.Observe(), executor.active)
    {
      ghost var mid, actMid := executor.Observe(), executor.active;
      ghost var r;
      var ok;
      ok, r := RunRound(batchSize, intervalMinutes);
      ScheduleSnoc(log, q0, executor.env.storeUp, batchSize, intervalMinutes, w, before, act, mid, actMid, r);
      log' := log + [r];
    }

    /** One round of the scheduler loop: the batch (its failure caught) and the wait after it. */
    method RunRound(batchSize: int, intervalMinutes: int) returns (ok: bool, ghost r: Round)
      requires executor.Valid()
      modifies this`rounds, executor`active, executor`groups, executor.db`browsers,
        executor.env`calls, executor.env`pauses, executor.env`readings, executor.env`queries, executor.rng
      ensures executor.Valid()
      ensures ok == executor.env.storeUp(old(executor.env.queries)) && executor.env.queries == old(executor.env.queries) + 1
      ensures rounds == old(rounds) + [r]
      ensures r.batchOk == ok && r.before == old(executor.Observe()) && r.active == old(executor.active) &&
        r.after == executor.Observe() && r.activeAfter == executor.active &&
        RoundRan(r, batchSize, intervalMinutes, executor.Setting())
    {
      ghost var before, act := executor.Observe(), executor.active;
      ghost var runs;
      ok, runs := executor.RunBrowserBatch(batchSize);
      var wait := RoundWait(ok, intervalMinutes);
      executor.env.Sleep(wait);
      r := Round(ok, before, act, runs, wait, executor.Observe(), executor.active);
      rounds := rounds + [r];
    }
  }
}
