/**
 * The SQLite file shared by the browser manager, the executor and the CSV
 * importer: the `browsers`, `commands`, `proxies` and `email_accounts`
 * tables as sequences of typed rows in rowid order, with the AUTOINCREMENT
 * counters and the NOT NULL / UNIQUE constraints the schema declares.
 */
module Store {
  import opened Wrappers
  import opened Clock

  datatype Viewport = Viewport(width: int, height: int)
  datatype Screen = Screen(width: int, height: int, colorDepth: int, pixelDepth: int)

  /**
   * The fingerprint stored as JSON in `browsers.fingerprint`. The float
   * `audio_fingerprint` is not part of this model.
   */
  datatype Fingerprint = Fingerprint(
    userAgent: string,
    viewport: Viewport,
    timezone: string,
    locale: string,
    platform: string,
    screen: Screen,
    webglVendor: string,
    webglRenderer: string,
    canvasFingerprint: string,
    fonts: seq<string>)

  /** A `browsers` row; the last six columns are copies of fingerprint fields. */
  datatype BrowserRow = BrowserRow(
    id: nat,
    browserId: string,
    name: string,
    proxyId: Option<int>,
    emailAccountId: Option<int>,
    fingerprint: Fingerprint,
    status: string,
    toInteract: bool,
    lastInteraction: Option<Timestamp>,
    createdAt: Timestamp,
    userAgent: string,
    viewportWidth: int,
    viewportHeight: int,
    timezone: string,
    locale: string,
    platform: string)

  /** A `commands` row; `command_data` is kept as its JSON text. */
  datatype CommandRow = CommandRow(
    id: nat,
    browserId: string,
    commandType: string,
    commandData: string,
    status: string,
    scheduledTime: Option<Timestamp>,
    executedTime: Option<Timestamp>,
    createdAt: Timestamp)

  datatype ProxyRow = ProxyRow(
    id: nat,
    name: Option<string>,
    host: string,
    port: int,
    username: Option<string>,
    password: Option<string>,
    protocol: Option<string>,
    status: string,
    createdAt: Timestamp)

  datatype AccountRow = AccountRow(
    id: nat,
    email: string,
    password: string,
    provider: string,
    recoveryEmail: Option<string>,
    phone: Option<string>,
    status: string,
    createdAt: Timestamp)

  /** The copied columns of a row agree with its fingerprint JSON. */
  predicate ColumnsMatchFingerprint(row: BrowserRow) {
    row.userAgent == row.fingerprint.userAgent &&
    row.viewportWidth == row.fingerprint.viewport.width &&
    row.viewportHeight == row.fingerprint.viewport.height &&
    row.timezone == row.fingerprint.timezone &&
    row.locale == row.fingerprint.locale &&
    row.platform == row.fingerprint.platform
  }

  /**
   * The `sqlite3.IntegrityError` cases of the schema, and the
   * `OverflowError` of binding a Python `int` that does not fit in a
   * 64-bit SQLite INTEGER.
   */
  datatype DbError = NotNullViolation(column: string) | UniqueViolation(column: string) | IntegerOverflow

  /** The range of a bound integer parameter: a signed 64-bit SQLite INTEGER. */
  predicate FitsInteger(x: int) {
    -0x8000_0000_0000_0000 <= x <= 0x7FFF_FFFF_FFFF_FFFF
  }

  predicate HasBrowser(rows: seq<BrowserRow>, browserId: string) {
    exists i :: 0 <= i < |rows| && rows[i].browserId == browserId
  }

  predicate HasEmail(rows: seq<AccountRow>, email: string) {
    exists i :: 0 <= i < |rows| && rows[i].email == email
  }

  /** `UPDATE browsers SET status = ? WHERE browser_id = ?`. */
  function WithStatus(rows: seq<BrowserRow>, browserId: string, status: string): (r: seq<BrowserRow>)
    ensures |r| == |rows|
  {
    seq(|rows|, i requires 0 <= i < |rows| =>
      if rows[i].browserId == browserId then rows[i].(status := status) else rows[i])
  }

  /** `UPDATE browsers SET last_interaction = ? WHERE browser_id = ?`. */
  function WithLastInteraction(rows: seq<BrowserRow>, browserId: string, t: Timestamp): (r: seq<BrowserRow>)
    ensures |r| == |rows|
  {
    seq(|rows|, i requires 0 <= i < |rows| =>
      if rows[i].browserId == browserId then rows[i].(lastInteraction := Some(t)) else rows[i])
  }

  /** A status write touches only the rows with that id, and only their status. */
  lemma WithStatusAt(rows: seq<BrowserRow>, browserId: string, status: string, i: nat)
    requires i < |rows|
    ensures WithStatus(rows, browserId, status)[i] ==
      (if rows[i].browserId == browserId then rows[i].(status := status) else rows[i])
  {
  }

  /** A `last_interaction` write touches only the rows with that id, and only that column. */
  lemma WithLastInteractionAt(rows: seq<BrowserRow>, browserId: string, t: Timestamp, i: nat)
    requires i < |rows|
    ensures WithLastInteraction(rows, browserId, t)[i] ==
      (if rows[i].browserId == browserId then rows[i].(lastInteraction := Some(t)) else rows[i])
  {
  }

  /** The status column of the row with this `browser_id`, if there is one. */
  function StatusOf(rows: seq<BrowserRow>, browserId: string): (r: Option<string>)
    ensures r.Some? <==> HasBrowser(rows, browserId)
    ensures r.Some? ==> exists i :: 0 <= i < |rows| && rows[i].browserId == browserId && rows[i].status == r.value
  {
    if rows == [] then None
    else if rows[0].browserId == browserId then Some(rows[0].status)
    else
      var r := StatusOf(rows[1..], browserId);
      assert forall i :: 0 < i < |rows| ==> rows[i] == rows[1..][i - 1];
      assert HasBrowser(rows[1..], browserId) ==> HasBrowser(rows, browserId);
      r
  }

  /** A status write sets the status of that id and leaves every other id's status alone. */
  lemma {:induction false} StatusAfterWrite(rows: seq<BrowserRow>, browserId: string, status: string, other: string)
    ensures StatusOf(WithStatus(rows, browserId, status), browserId) ==
      (if HasBrowser(rows, browserId) then Some(status) else None)
    ensures other != browserId ==> StatusOf(WithStatus(rows, browserId, status), other) == StatusOf(rows, other)
  {
    if rows != [] {
      StatusAfterWrite(rows[1..], browserId, status, other);
      assert WithStatus(rows, browserId, status)[1..] == WithStatus(rows[1..], browserId, status);
      assert HasBrowser(rows, browserId) <==> rows[0].browserId == browserId || HasBrowser(rows[1..], browserId) by {
        if HasBrowser(rows, browserId) && rows[0].browserId != browserId {
          var i :| 0 <= i < |rows| && rows[i].browserId == browserId;
          assert rows[1..][i - 1].browserId == browserId;
        }
      }
    }
  }

  /** A `last_interaction` write does not change any status. */
  lemma {:induction false} StatusAfterTouch(rows: seq<BrowserRow>, browserId: string, t: Timestamp, other: string)
    ensures StatusOf(WithLastInteraction(rows, browserId, t), other) == StatusOf(rows, other)
  {
    if rows != [] {
      StatusAfterTouch(rows[1..], browserId, t, other);
      assert WithLastInteraction(rows, browserId, t)[1..] == WithLastInteraction(rows[1..], browserId, t);
    }
  }

  /** The database file with its tables and the `sqlite_sequence` counters. */
  class Database {
    var browsers: seq<BrowserRow>
    var commands: seq<CommandRow>
    var proxies: seq<ProxyRow>
    var accounts: seq<AccountRow>
    var browserSeq: nat
    var commandSeq: nat
    var proxySeq: nat
    var accountSeq: nat

    /**
     * The UNIQUE columns hold distinct values, every browser row's copied
     * columns agree with its fingerprint, and every rowid is at most its
     * table's counter, so the next AUTOINCREMENT id is fresh.
     */
    ghost predicate Valid()
      reads this
    {
      (forall i :: 0 <= i < |browsers| ==> ColumnsMatchFingerprint(browsers[i])) &&
      (forall i, j :: 0 <= i < j < |browsers| ==> browsers[i].browserId != browsers[j].browserId) &&
      (forall i, j :: 0 <= i < j < |accounts| ==> accounts[i].email != accounts[j].email) &&
      (forall i :: 0 <= i < |browsers| ==> browsers[i].id <= browserSeq) &&
      (forall i :: 0 <= i < |commands| ==> commands[i].id <= commandSeq) &&
      (forall i :: 0 <= i < |proxies| ==> proxies[i].id <= proxySeq) &&
      (forall i :: 0 <= i < |accounts| ==> accounts[i].id <= accountSeq)
    }

    /** A new, empty database file. */
    constructor ()
      ensures Valid()
      ensures browsers == [] && commands == [] && proxies == [] && accounts == []
      ensures browserSeq == 0 && commandSeq == 0 && proxySeq == 0 && accountSeq == 0
    {
      browsers, commands, proxies, accounts := [], [], [], [];
      browserSeq, commandSeq, proxySeq, accountSeq := 0, 0, 0, 0;
    }

    /**
     * `INSERT INTO browsers (...)` with the defaults `status = 'inactive'`,
     * `last_interaction = NULL` and `created_at = now`. A NULL name or a
     * `browser_id` already present raises an IntegrityError and inserts nothing.
     */
    method InsertBrowser(browserId: string, name: Option<string>, proxyId: Option<int>, emailAccountId: Option<int>,
                         fp: Fingerprint, toInteract: bool, now: Timestamp) returns (r: Result<nat, DbError>)
      requires Valid()
      modifies this
      ensures Valid()
      ensures r.Ok? <==> name.Some? && !HasBrowser(old(browsers), browserId)
      ensures name.None? ==> r == Err(NotNullViolation("name"))
      ensures r.Ok? ==> (r.value == old(browserSeq) + 1 && browserSeq == r.value &&
        browsers == old(browsers) + [BrowserRow(r.value, browserId, name.value, proxyId, emailAccountId, fp,
          "inactive", toInteract, None, now, fp.userAgent, fp.viewport.width, fp.viewport.height,
          fp.timezone, fp.locale, fp.platform)])
      ensures r.Err? ==> browsers == old(browsers) && browserSeq == old(browserSeq)
      ensures commands == old(commands) && proxies == old(proxies) && accounts == old(accounts)
      ensures commandSeq == old(commandSeq) && proxySeq == old(proxySeq) && accountSeq == old(accountSeq)
    {
      if name.None? {
        return Err(NotNullViolation("name"));
      }
      var i := 0;
      while i < |browsers|
        invariant 0 <= i <= |browsers|
        invariant forall k :: 0 <= k < i ==> browsers[k].browserId != browserId
      {
        if browsers[i].browserId == browserId {
          return Err(UniqueViolation("browser_id"));
        }
        i := i + 1;
      }
      browserSeq := browserSeq + 1;
      browsers := browsers + [BrowserRow(browserSeq, browserId, name.value, proxyId, emailAccountId, fp,
        "inactive", toInteract, None, now, fp.userAgent, fp.viewport.width, fp.viewport.height,
        fp.timezone, fp.locale, fp.platform)];
      r := Ok(browserSeq);
    }

    /** `INSERT INTO commands (...)` with the defaults `status = 'pending'` and `created_at = now`. */
    method InsertCommand(browserId: string, commandType: string, commandData: string,
                         scheduledTime: Option<Timestamp>, now: Timestamp) returns (id: nat)
      requires Valid()
      modifies this
      ensures Valid()
      ensures id == old(commandSeq) + 1 && commandSeq == id
      ensures commands == old(commands) + [CommandRow(id, browserId, commandType, commandData, "pending", scheduledTime, None, now)]
      ensures browsers == old(browsers) && proxies == old(proxies) && accounts == old(accounts)
      ensures browserSeq == old(browserSeq) && proxySeq == old(proxySeq) && accountSeq == old(accountSeq)
    {
      commandSeq := commandSeq + 1;
      id := commandSeq;
      commands := commands + [CommandRow(id, browserId, commandType, commandData, "pending", scheduledTime, None, now)];
    }

    /**
     * `INSERT INTO proxies (...)` with the defaults `status = 'active'` and
     * `created_at = now`. A port beyond 64 bits raises while the parameters
     * are bound, and a NULL host when the row is inserted; either inserts
     * nothing.
     */
    method InsertProxy(name: Option<string>, host: Option<string>, port: int, username: Option<string>,
                       password: Option<string>, protocol: Option<string>, now: Timestamp) returns (r: Result<nat, DbError>)
      requires Valid()
      modifies this
      ensures Valid()
      ensures r.Ok? <==> FitsInteger(port) && host.Some?
      ensures !FitsInteger(port) ==> r == Err(IntegerOverflow)
      ensures FitsInteger(port) && host.None? ==> r == Err(NotNullViolation("host"))
      ensures r.Ok? ==> (r.value == old(proxySeq) + 1 && proxySeq == r.value &&
        proxies == old(proxies) + [ProxyRow(r.value, name, host.value, port, username, password, protocol, "active", now)])
      ensures r.Err? ==> proxies == old(proxies) && proxySeq == old(proxySeq)
      ensures browsers == old(browsers) && commands == old(commands) && accounts == old(accounts)
      ensures browserSeq == old(browserSeq) && commandSeq == old(commandSeq) && accountSeq == old(accountSeq)
    {
      if !FitsInteger(port) {
        return Err(IntegerOverflow);
      }
      if host.None? {
        return Err(NotNullViolation("host"));
      }
      proxySeq := proxySeq + 1;
      proxies := proxies + [ProxyRow(proxySeq, name, host.value, port, username, password, protocol, "active", now)];
      r := Ok(proxySeq);
    }

    /**
     * `INSERT INTO email_accounts (...)` with the defaults `status = 'active'`
     * and `created_at = now`. The NOT NULL columns are checked in declaration
     * order (email, password, provider), then the UNIQUE email.
     */
    method InsertAccount(email: Option<string>, password: Option<string>, provider: Option<string>,
                         recoveryEmail: Option<string>, phone: Option<string>, now: Timestamp) returns (r: Result<nat, DbError>)
      requires Valid()
      modifies this
      ensures Valid()
      ensures r.Ok? <==> email.Some? && password.Some? && provider.Some? && !HasEmail(old(accounts), email.value)
      ensures r.Ok? ==> (r.value == old(accountSeq) + 1 && accountSeq == r.value &&
        accounts == old(accounts) + [AccountRow(r.value, email.value, password.value, provider.value, recoveryEmail, phone, "active", now)])
      ensures r.Err? ==> accounts == old(accounts) && accountSeq == old(accountSeq)
      ensures browsers == old(browsers) && commands == old(commands) && proxies == old(proxies)
      ensures browserSeq == old(browserSeq) && commandSeq == old(commandSeq) && proxySeq == old(proxySeq)
    {
      if email.None? {
        return Err(NotNullViolation("email"));
      } else if password.None? {
        return Err(NotNullViolation("password"));
      } else if provider.None? {
        return Err(NotNullViolation("provider"));
      }
      var i := 0;
      while i < |accounts|
        invariant 0 <= i <= |accounts|
        invariant forall k :: 0 <= k < i ==> accounts[k].email != email.value
      {
        if accounts[i].email == email.value {
          return Err(UniqueViolation("email"));
        }
        i := i + 1;
      }
      accountSeq := accountSeq + 1;
      accounts := accounts + [AccountRow(accountSeq, email.value, password.value, provider.value, recoveryEmail, phone, "active", now)];
      r := Ok(accountSeq);
    }

    /** `UPDATE browsers SET status = ? WHERE browser_id = ?`. */
    method SetStatus(browserId: string, status: string)
      modifies this`browsers
      ensures old(Valid()) ==> Valid()
      ensures browsers == WithStatus(old(browsers), browserId, status)
    {
      browsers := WithStatus(browsers, browserId, status);
    }

    /** `UPDATE browsers SET last_interaction = ? WHERE browser_id = ?`. */
    method SetLastInteraction(browserId: string, t: Timestamp)
      modifies this`browsers
      ensures old(Valid()) ==> Valid()
      ensures browsers == WithLastInteraction(old(browsers), browserId, t)
    {
      browsers := WithLastInteraction(browsers, browserId, t);
    }
  }
}
