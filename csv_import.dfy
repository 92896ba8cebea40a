/**
 * The CSV importer of the browser manager: find-or-create lookups on the
 * `proxies` and `email_accounts` tables and the three row-by-row import
 * loops, each of which skips a row that raises and keeps going.
 */
module CsvImport {
  import opened Wrappers
  import opened Text
  import opened Seqs
  import opened Rand
  import opened Clock
  import opened Store
  import opened Fleet

  /**
   * A `csv.DictReader` row: header name to field. A line shorter than the
   * header leaves its trailing fields `None`.
   */
  type CsvRow = map<string, Option<string>>

  /** What a row can raise before or while it is written. */
  datatype RowError = MissingColumn(key: string) | NotAnInteger | NoneValue

  /** `row.get(key, default)`. */
  function Get(row: CsvRow, key: string, default: string): Option<string> {
    if key in row then row[key] else Some(default)
  }

  /** Python truthiness of a field: present and non-empty. */
  predicate Truthy(v: Option<string>) {
    v.Some? && v.value != ""
  }

  /** `int(v)`: `None` raises TypeError and malformed text ValueError. */
  function ToInt(v: Option<string>): Option<int> {
    if v.None? then None else ParseInt(v.value)
  }

  // ---------------------------------------------------------------- proxies

  /** The values `import_proxies_from_csv` binds for one `INSERT INTO proxies`. */
  datatype ProxyFields = ProxyFields(name: Option<string>, host: Option<string>, port: int,
    username: Option<string>, password: Option<string>, protocol: Option<string>)

  /**
   * Reading one proxies row: `host` and `port` must be columns and `port`
   * must parse as an integer; the other columns default to `''` and the
   * protocol to `'http'`.
   */
  function ParseProxyRow(row: CsvRow): (r: Result<ProxyFields, RowError>)
    ensures r.Ok? <==> "host" in row && "port" in row && ToInt(row["port"]).Some?
    ensures r.Ok? ==> r.value.host == row["host"] && Some(r.value.port) == ToInt(row["port"])
    ensures r.Ok? ==> r.value.name == (if "name" in row then row["name"] else Some(""))
    ensures r.Ok? ==> r.value.username == (if "username" in row then row["username"] else Some(""))
    ensures r.Ok? ==> r.value.password == (if "password" in row then row["password"] else Some(""))
    ensures r.Ok? ==> r.value.protocol == (if "protocol" in row then row["protocol"] else Some("http"))
  {
    var name := Get(row, "name", "");
    if "host" !in row then Err(MissingColumn("host"))
    else if "port" !in row then Err(MissingColumn("port"))
    else match ToInt(row["port"])
      case None => Err(NotAnInteger)
      case Some(port) =>
        Ok(ProxyFields(name, row["host"], port, Get(row, "username", ""), Get(row, "password", ""),
          Get(row, "protocol", "http")))
  }

  /** A read proxies line that is written: it parsed, its port fits an SQLite INTEGER and its host is not NULL. */
  predicate Writable(p: Result<ProxyFields, RowError>) {
    p.Ok? && FitsInteger(p.value.port) && p.value.host.Some?
  }

  /** The table row a written proxies line becomes. */
  function NewProxy(f: ProxyFields, id: nat, now: Timestamp): ProxyRow
    requires f.host.Some?
  {
    ProxyRow(id, f.name, f.host.value, f.port, f.username, f.password, f.protocol, "active", now)
  }

  /** The rows a read proxies line adds: one under `id` if it is written. */
  function Written(p: Result<ProxyFields, RowError>, id: nat, now: Timestamp): seq<ProxyRow> {
    if Writable(p) then [NewProxy(p.value, id, now)] else []
  }

  /** Every line of a proxies file, read. */
  function ParseProxyRows(rows: seq<CsvRow>): (r: seq<Result<ProxyFields, RowError>>)
    ensures |r| == |rows|
  {
    seq(|rows|, i requires 0 <= i < |rows| => ParseProxyRow(rows[i]))
  }

  /** The rows `import_proxies_from_csv` appends for the first `n` read lines, numbered on from `lastId`. */
  function ImportedProxies(parsed: seq<Result<ProxyFields, RowError>>, n: nat, lastId: nat, now: Timestamp): seq<ProxyRow>
    requires n <= |parsed|
  {
    if n == 0 then []
    else
      var pre := ImportedProxies(parsed, n - 1, lastId, now);
      pre + Written(parsed[n - 1], lastId + |pre| + 1, now)
  }

  /** One more read line: the rows of the first `n + 1` lines extend those of the first `n`. */
  lemma ImportedProxiesNext(parsed: seq<Result<ProxyFields, RowError>>, n: nat, lastId: nat, now: Timestamp)
    requires n < |parsed|
    ensures ImportedProxies(parsed, n + 1, lastId, now) ==
      ImportedProxies(parsed, n, lastId, now) + Written(parsed[n], lastId + |ImportedProxies(parsed, n, lastId, now)| + 1, now)
  {
  }

  function ProxyIds(rows: seq<ProxyRow>): (ids: seq<nat>)
    ensures |ids| == |rows| && forall k :: 0 <= k < |rows| ==> ids[k] == rows[k].id
  {
    seq(|rows|, k requires 0 <= k < |rows| => rows[k].id)
  }

  lemma ProxyIdsAppend(a: seq<ProxyRow>, b: seq<ProxyRow>)
    ensures ProxyIds(a + b) == ProxyIds(a) + ProxyIds(b)
  {
    assert forall k :: 0 <= k < |b| ==> (a + b)[|a| + k] == b[k];
  }

  /** One more read line keeps the written rows in step with the writable lines. */
  lemma WrittenStep(pre: seq<ProxyRow>, acc: seq<Result<ProxyFields, RowError>>, p: Result<ProxyFields, RowError>,
      lastId: nat, now: Timestamp)
    requires |pre| == |acc| && forall k :: 0 <= k < |acc| ==> acc[k].Ok? && acc[k].value.host.Some?
    requires forall k :: 0 <= k < |pre| ==> pre[k] == NewProxy(acc[k].value, lastId + k + 1, now)
    ensures var r := pre + Written(p, lastId + |pre| + 1, now);
      var acc' := acc + (if Writable(p) then [p] else []);
      |r| == |acc'| && forall k :: 0 <= k < |r| ==> r[k] == NewProxy(acc'[k].value, lastId + k + 1, now)
  {
  }

  /**
   * The proxies import writes exactly the lines that parse with a host, in
   * file order, under consecutive fresh ids.
   */
  lemma {:induction false} ImportedProxiesSpec(parsed: seq<Result<ProxyFields, RowError>>, n: nat, lastId: nat, now: Timestamp)
    requires n <= |parsed|
    ensures var r := ImportedProxies(parsed, n, lastId, now);
      var acc := Filter(parsed[..n], Writable);
      |r| == |acc| && forall k :: 0 <= k < |r| ==> r[k] == NewProxy(acc[k].value, lastId + k + 1, now)
  {
    if n > 0 {
      ImportedProxiesSpec(parsed, n - 1, lastId, now);
      assert parsed[..n] == parsed[..n - 1] + [parsed[n - 1]];
      FilterSnoc(parsed[..n - 1], parsed[n - 1], Writable);
      WrittenStep(ImportedProxies(parsed, n - 1, lastId, now), Filter(parsed[..n - 1], Writable), parsed[n - 1], lastId, now);
    }
  }

  /** A proxies line with the port `2^63`, one past the 64-bit range, parses but writes nothing. */
  lemma OverflowingPortNotWritten(now: Timestamp)
    ensures var p := ParseProxyRow(map["host" := Some("h"), "port" := Some(IntToString(0x8000_0000_0000_0000))]);
      p.Ok? && p.value.port == 0x8000_0000_0000_0000 && !Writable(p) && Written(p, 1, now) == []
  {
    ParseIntToString(0x8000_0000_0000_0000);
  }

  /** The insert of one read proxies line; one that did not parse writes nothing. */
  method WriteProxy(db: Database, p: Result<ProxyFields, RowError>, now: Timestamp) returns (id: Option<nat>)
    requires db.Valid()
    modifies db
    ensures db.Valid()
    ensures id.Some? <==> Writable(p)
    ensures id.Some? ==> id.value == old(db.proxySeq) + 1
    ensures db.proxies == old(db.proxies) + Written(p, old(db.proxySeq) + 1, now)
    ensures db.proxySeq == old(db.proxySeq) + (if Writable(p) then 1 else 0)
    ensures db.browsers == old(db.browsers) && db.commands == old(db.commands) && db.accounts == old(db.accounts)
    ensures db.browserSeq == old(db.browserSeq) && db.commandSeq == old(db.commandSeq) && db.accountSeq == old(db.accountSeq)
  {
    if p.Err? {
      return None;
    }
    var f := p.value;
    var inserted := db.InsertProxy(f.name, f.host, f.port, f.username, f.password, f.protocol, now);
    if inserted.Err? {
      return None;
    }
    id := Some(inserted.value);
  }

  /**
   * `WriteProxy` on a line after the lines before it: the written rows and
   * the returned ids grow by what the line writes.
   */
  method WriteNextProxy(db: Database, p: Result<ProxyFields, RowError>, ghost written: seq<ProxyRow>,
                        proxyIds: seq<nat>, ghost proxies0: seq<ProxyRow>, ghost seq0: nat, now: Timestamp)
    returns (proxyIds': seq<nat>, ghost written': seq<ProxyRow>)
    requires db.Valid()
    requires db.proxies == proxies0 + written && proxyIds == ProxyIds(written) && db.proxySeq == seq0 + |written|
    modifies db
    ensures db.Valid()
    ensures written' == written + Written(p, seq0 + |written| + 1, now)
    ensures db.proxies == proxies0 + written' && proxyIds' == ProxyIds(written') && db.proxySeq == seq0 + |written'|
    ensures db.browsers == old(db.browsers) && db.commands == old(db.commands) && db.accounts == old(db.accounts)
    ensures db.browserSeq == old(db.browserSeq) && db.commandSeq == old(db.commandSeq) && db.accountSeq == old(db.accountSeq)
  {
    ghost var w := Written(p, db.proxySeq + 1, now);
    var id := WriteProxy(db, p, now);
    written' := written + w;
    assert db.proxies == proxies0 + written';
    ProxyIdsAppend(written, w);
    if id.Some? {
      proxyIds' := proxyIds + [id.value];
    } else {
      proxyIds' := proxyIds;
    }
  }

  /** The insert loop of `import_proxies_from_csv`, over lines already read. */
  method WriteProxies(db: Database, parsed: seq<Result<ProxyFields, RowError>>, now: Timestamp)
    returns (proxyIds: seq<nat>)
    requires db.Valid()
    modifies db
    ensures db.Valid()
    ensures db.proxies == old(db.proxies) + ImportedProxies(parsed, |parsed|, old(db.proxySeq), now)
    ensures proxyIds == ProxyIds(ImportedProxies(parsed, |parsed|, old(db.proxySeq), now))
    ensures db.proxySeq == old(db.proxySeq) + |proxyIds|
    ensures db.browsers == old(db.browsers) && db.commands == old(db.commands) && db.accounts == old(db.accounts)
    ensures db.browserSeq == old(db.browserSeq) && db.commandSeq == old(db.commandSeq) && db.accountSeq == old(db.accountSeq)
  {
    proxyIds := [];
    ghost var written: seq<ProxyRow> := [];
    var i := 0;
    while i < |parsed|
      invariant 0 <= i <= |parsed|
      invariant db.Valid()
      invariant written == ImportedProxies(parsed, i, old(db.proxySeq), now)
      invariant db.proxies == old(db.proxies) + written
      invariant proxyIds == ProxyIds(written)
      invariant db.proxySeq == old(db.proxySeq) + |written|
      invariant db.browsers == old(db.browsers) && db.commands == old(db.commands) && db.accounts == old(db.accounts)
      invariant db.browserSeq == old(db.browserSeq) && db.commandSeq == old(db.commandSeq) && db.accountSeq == old(db.accountSeq)
    {
      ImportedProxiesNext(parsed, i, old(db.proxySeq), now);
      proxyIds, written := WriteNextProxy(db, parsed[i], written, proxyIds, old(db.proxies), old(db.proxySeq), now);
      i := i + 1;
    }
  }

  /**
   * `import_proxies_from_csv`: one insert per row; a row that raises is
   * skipped, and the returned ids are those of the written rows in file order.
   */
  method ImportProxies(db: Database, rows: seq<CsvRow>, now: Timestamp) returns (proxyIds: seq<nat>)
    requires db.Valid()
    modifies db
    ensures db.Valid()
    ensures db.proxies == old(db.proxies) + ImportedProxies(ParseProxyRows(rows), |rows|, old(db.proxySeq), now)
    ensures proxyIds == ProxyIds(ImportedProxies(ParseProxyRows(rows), |rows|, old(db.proxySeq), now))
    ensures db.proxySeq == old(db.proxySeq) + |proxyIds|
    ensures db.browsers == old(db.browsers) && db.commands == old(db.commands) && db.accounts == old(db.accounts)
    ensures db.browserSeq == old(db.browserSeq) && db.commandSeq == old(db.commandSeq) && db.accountSeq == old(db.accountSeq)
  {
    proxyIds := WriteProxies(db, ParseProxyRows(rows), now);
  }

  // --------------------------------------------------------- email accounts

  /** The values `import_email_accounts_from_csv` binds for one `INSERT INTO email_accounts`. */
  datatype AccountFields = AccountFields(email: Option<string>, password: Option<string>, provider: Option<string>,
    recoveryEmail: Option<string>, phone: Option<string>)

  /**
   * Reading one email-accounts row: `email` and `password` must be columns;
   * the provider defaults to `'gmail'`, recovery email and phone to `''`.
   */
  function ParseAccountRow(row: CsvRow): (r: Result<AccountFields, RowError>)
    ensures r.Ok? <==> "email" in row && "password" in row
    ensures r.Ok? ==> r.value.email == row["email"] && r.value.password == row["password"]
    ensures r.Ok? ==> r.value.provider == (if "provider" in row then row["provider"] else Some("gmail"))
  {
    if "email" !in row then Err(MissingColumn("email"))
    else if "password" !in row then Err(MissingColumn("password"))
    else Ok(AccountFields(row["email"], row["password"], Get(row, "provider", "gmail"),
      Get(row, "recovery_email", ""), Get(row, "phone", "")))
  }

  /** The insert succeeds: no NULL in a NOT NULL column and the email is new. */
  predicate AccountInsertable(accounts: seq<AccountRow>, f: AccountFields) {
    f.email.Some? && f.password.Some? && f.provider.Some? && !HasEmail(accounts, f.email.value)
  }

  /**
   * The rows `import_email_accounts_from_csv` appends to `accounts`: whether
   * a line is written depends on the emails of the lines written before it.
   */
  function ImportedAccounts(accounts: seq<AccountRow>, rows: seq<CsvRow>, lastId: nat, now: Timestamp): seq<AccountRow> {
    if rows == [] then []
    else
      var pre := ImportedAccounts(accounts, rows[..|rows| - 1], lastId, now);
      var p := ParseAccountRow(rows[|rows| - 1]);
      if p.Ok? && AccountInsertable(accounts + pre, p.value) then
        var f := p.value;
        pre + [AccountRow(lastId + |pre| + 1, f.email.value, f.password.value, f.provider.value,
          f.recoveryEmail, f.phone, "active", now)]
      else pre
  }

  /**
   * The accounts import writes at most one row per line, under consecutive
   * fresh ids, and never an email already in the table or written earlier
   * in the same file.
   */
  lemma {:induction false} ImportedAccountsSpec(accounts: seq<AccountRow>, rows: seq<CsvRow>, lastId: nat, now: Timestamp)
    ensures var r := ImportedAccounts(accounts, rows, lastId, now);
      |r| <= |rows| &&
      (forall k :: 0 <= k < |r| ==> r[k].id == lastId + k + 1) &&
      (forall k :: 0 <= k < |r| ==> !HasEmail(accounts, r[k].email)) &&
      (forall k, l :: 0 <= k < l < |r| ==> r[k].email != r[l].email)
  {
    if rows != [] {
      var init := rows[..|rows| - 1];
      ImportedAccountsSpec(accounts, init, lastId, now);
      var pre := ImportedAccounts(accounts, init, lastId, now);
      var p := ParseAccountRow(rows[|rows| - 1]);
      if p.Ok? && AccountInsertable(accounts + pre, p.value) {
        var e := p.value.email.value;
        forall i | 0 <= i < |accounts| ensures accounts[i].email != e {
          assert (accounts + pre)[i] == accounts[i];
        }
        forall k | 0 <= k < |pre| ensures pre[k].email != e {
          assert (accounts + pre)[|accounts| + k] == pre[k];
        }
      }
    }
  }

  /**
   * `import_email_accounts_from_csv`: one insert per row; a row that raises
   * (a missing column, a NULL, an email already present) is skipped.
   */
  method ImportEmailAccounts(db: Database, rows: seq<CsvRow>, now: Timestamp) returns (accountIds: seq<nat>)
    requires db.Valid()
    modifies db
    ensures db.Valid()
    ensures db.accounts == old(db.accounts) + ImportedAccounts(old(db.accounts), rows, old(db.accountSeq), now)
    ensures |accountIds| == |ImportedAccounts(old(db.accounts), rows, old(db.accountSeq), now)|
    ensures forall k :: 0 <= k < |accountIds| ==>
      accountIds[k] == ImportedAccounts(old(db.accounts), rows, old(db.accountSeq), now)[k].id
    ensures db.accountSeq == old(db.accountSeq) + |accountIds|
    ensures db.browsers == old(db.browsers) && db.commands == old(db.commands) && db.proxies == old(db.proxies)
    ensures db.browserSeq == old(db.browserSeq) && db.commandSeq == old(db.commandSeq) && db.proxySeq == old(db.proxySeq)
  {
    accountIds := [];
    var i := 0;
    while i < |rows|
      invariant 0 <= i <= |rows|
      invariant db.Valid()
      invariant db.accounts == old(db.accounts) + ImportedAccounts(old(db.accounts), rows[..i], old(db.accountSeq), now)
      invariant |accountIds| == |ImportedAccounts(old(db.accounts), rows[..i], old(db.accountSeq), now)|
      invariant forall k :: 0 <= k < |accountIds| ==>
        accountIds[k] == ImportedAccounts(old(db.accounts), rows[..i], old(db.accountSeq), now)[k].id
      invariant db.accountSeq == old(db.accountSeq) + |accountIds|
      invariant db.browsers == old(db.browsers) && db.commands == old(db.commands) && db.proxies == old(db.proxies)
      invariant db.browserSeq == old(db.browserSeq) && db.commandSeq == old(db.commandSeq) && db.proxySeq == old(db.proxySeq)
    {
      assert rows[..i + 1][..i] == rows[..i];
      var p := ParseAccountRow(rows[i]);
      if p.Ok? {
        var f := p.value;
        var inserted := db.InsertAccount(f.email, f.password, f.provider, f.recoveryEmail, f.phone, now);
        if inserted.Ok? {
          accountIds := accountIds + [inserted.value];
        }
      }
      i := i + 1;
    }
    assert rows[..i] == rows;
  }

  // ---------------------------------------------------------- find or create

  /**
   * `WHERE host = ? AND port = ? AND username = ?`: in SQL a NULL username
   * equals nothing, so a `None` key never matches.
   */
  predicate ProxyKeyMatches(p: ProxyRow, host: string, port: int, username: Option<string>) {
    p.host == host && p.port == port && username.Some? && p.username == username
  }

  /** `fetchone()` of that query: the id of the first matching row in rowid order. */
  function FindProxy(proxies: seq<ProxyRow>, host: string, port: int, username: Option<string>): (r: Option<nat>)
    ensures r.Some? <==> exists i :: 0 <= i < |proxies| && ProxyKeyMatches(proxies[i], host, port, username)
    ensures r.Some? ==> exists i :: (0 <= i < |proxies| && ProxyKeyMatches(proxies[i], host, port, username) &&
      proxies[i].id == r.value)
  {
    if proxies == [] then None
    else if ProxyKeyMatches(proxies[0], host, port, username) then Some(proxies[0].id)
    else
      var r := FindProxy(proxies[1..], host, port, username);
      assert forall i :: 0 < i < |proxies| ==> proxies[i] == proxies[1..][i - 1];
      r
  }

  /** A lookup after one more row: an earlier match wins, else the new row if it matches. */
  lemma {:induction false} FindProxySnoc(proxies: seq<ProxyRow>, p: ProxyRow, host: string, port: int, username: Option<string>)
    ensures FindProxy(proxies + [p], host, port, username) ==
      (if FindProxy(proxies, host, port, username).Some? then FindProxy(proxies, host, port, username)
       else if ProxyKeyMatches(p, host, port, username) then Some(p.id) else None)
  {
    if proxies != [] {
      assert (proxies + [p])[1..] == proxies[1..] + [p];
      FindProxySnoc(proxies[1..], p, host, port, username);
    }
  }

  /**
   * `create_or_find_proxy`: the id of an existing row with the same host,
   * port and username (the password is not compared), otherwise the id of a
   * new row with protocol `'http'`. Afterwards the same key finds that id,
   * so a repeated call inserts nothing; a `None` username is never found.
   * A port beyond 64 bits makes the `SELECT` raise before anything is read
   * or written.
   */
  method CreateOrFindProxy(db: Database, host: string, port: int, username: Option<string>,
                           password: Option<string>, now: Timestamp) returns (r: Result<nat, DbError>)
    requires db.Valid()
    modifies db
    ensures db.Valid()
    ensures r.Ok? <==> FitsInteger(port)
    ensures r.Err? ==> r.error == IntegerOverflow && db.proxies == old(db.proxies) && db.proxySeq == old(db.proxySeq)
    ensures r.Ok? && FindProxy(old(db.proxies), host, port, username).Some? ==>
      r.value == FindProxy(old(db.proxies), host, port, username).value &&
      db.proxies == old(db.proxies) && db.proxySeq == old(db.proxySeq)
    ensures r.Ok? && FindProxy(old(db.proxies), host, port, username).None? ==>
      r.value == old(db.proxySeq) + 1 && db.proxySeq == r.value &&
      db.proxies == old(db.proxies) + [ProxyRow(r.value, None, host, port, username, password, Some("http"), "active", now)]
    ensures r.Ok? ==> FindProxy(db.proxies, host, port, username) == (if username.Some? then Some(r.value) else None)
    ensures r.Ok? ==> exists i :: (0 <= i < |db.proxies| && db.proxies[i].id == r.value &&
      db.proxies[i].host == host && db.proxies[i].port == port && db.proxies[i].username == username)
    ensures db.browsers == old(db.browsers) && db.commands == old(db.commands) && db.accounts == old(db.accounts)
    ensures db.browserSeq == old(db.browserSeq) && db.commandSeq == old(db.commandSeq) && db.accountSeq == old(db.accountSeq)
  {
    if !FitsInteger(port) {
      return Err(IntegerOverflow);
    }
    var existing := FindProxy(db.proxies, host, port, username);
    if existing.Some? {
      return Ok(existing.value);
    }
    var inserted := db.InsertProxy(None, Some(host), port, username, password, Some("http"), now);
    r := Ok(inserted.value);
    FindProxySnoc(old(db.proxies), db.proxies[|db.proxies| - 1], host, port, username);
    assert db.proxies[|db.proxies| - 1].id == r.value;
  }

  /** `fetchone()` of `SELECT id FROM email_accounts WHERE email = ?`. */
  function FindAccount(accounts: seq<AccountRow>, email: string): (r: Option<nat>)
    ensures r.Some? <==> HasEmail(accounts, email)
    ensures r.Some? ==> exists i :: 0 <= i < |accounts| && accounts[i].email == email && accounts[i].id == r.value
  {
    if accounts == [] then None
    else if accounts[0].email == email then Some(accounts[0].id)
    else
      var r := FindAccount(accounts[1..], email);
      assert forall i :: 0 < i < |accounts| ==> accounts[i] == accounts[1..][i - 1];
      assert HasEmail(accounts[1..], email) ==> HasEmail(accounts, email);
      r
  }

  /** A lookup after one more row with a new email finds that row. */
  lemma {:induction false} FindAccountSnoc(accounts: seq<AccountRow>, a: AccountRow, email: string)
    requires !HasEmail(accounts, email) && a.email == email
    ensures FindAccount(accounts + [a], email) == Some(a.id)
  {
    if accounts != [] {
      assert (accounts + [a])[1..] == accounts[1..] + [a];
      assert forall i :: 0 <= i < |accounts[1..]| ==> accounts[1..][i] == accounts[i + 1];
      FindAccountSnoc(accounts[1..], a, email);
    }
  }

  /**
   * `create_or_find_email_account`: keyed on the email alone. An existing
   * email returns its id whatever password and provider are given; otherwise
   * a new row is inserted, which raises when the password or provider is NULL.
   */
  method CreateOrFindEmailAccount(db: Database, email: string, password: Option<string>, provider: Option<string>,
                                  now: Timestamp) returns (r: Result<nat, DbError>)
    requires db.Valid()
    modifies db
    ensures db.Valid()
    ensures FindAccount(old(db.accounts), email).Some? ==>
      r == Ok(FindAccount(old(db.accounts), email).value) &&
      db.accounts == old(db.accounts) && db.accountSeq == old(db.accountSeq)
    ensures FindAccount(old(db.accounts), email).None? ==>
      (r.Ok? <==> password.Some? && provider.Some?) &&
      (r.Ok? ==> (r.value == old(db.accountSeq) + 1 && db.accountSeq == r.value &&
        db.accounts == old(db.accounts) + [AccountRow(r.value, email, password.value, provider.value, None, None, "active", now)])) &&
      (r.Err? ==> db.accounts == old(db.accounts) && db.accountSeq == old(db.accountSeq))
    ensures r.Ok? ==> FindAccount(db.accounts, email) == Some(r.value)
    ensures db.browsers == old(db.browsers) && db.commands == old(db.commands) && db.proxies == old(db.proxies)
    ensures db.browserSeq == old(db.browserSeq) && db.commandSeq == old(db.commandSeq) && db.proxySeq == old(db.proxySeq)
  {
    var existing := FindAccount(db.accounts, email);
    if existing.Some? {
      return Ok(existing.value);
    }
    r := db.InsertAccount(Some(email), password, provider, None, None, now);
    if r.Ok? {
      FindAccountSnoc(old(db.accounts), db.accounts[|db.accounts| - 1], email);
    }
  }

  // ---------------------------------------------------------------- browsers

  /** The proxy columns of a browsers line that has a `proxy_host`. */
  datatype ProxyKey = ProxyKey(host: string, port: int, username: Option<string>, password: Option<string>)

  /** The proxy part of a browsers line: none without a `proxy_host`, else a parsed `proxy_port`. */
  function ProxyColumns(row: CsvRow): (r: Result<Option<ProxyKey>, RowError>)
    ensures r == Ok(None) <==> !Truthy(Get(row, "proxy_host", ""))
    ensures r.Ok? && r.value.Some? ==> (Some(r.value.value.host) == row["proxy_host"] &&
      "proxy_port" in row && Some(r.value.value.port) == ToInt(row["proxy_port"]))
  {
    var h := Get(row, "proxy_host", "");
    if !Truthy(h) then Ok(None)
    else if "proxy_port" !in row then Err(MissingColumn("proxy_port"))
    else match ToInt(row["proxy_port"])
      case None => Err(NotAnInteger)
      case Some(port) => Ok(Some(ProxyKey(h.value, port, Get(row, "proxy_username", ""), Get(row, "proxy_password", ""))))
  }

  /** The account columns of a browsers line that has an `email`. */
  datatype AccountKey = AccountKey(email: string, password: Option<string>, provider: Option<string>)

  /** The account part of a browsers line: none without an `email`, else `email_password` must be a column. */
  function AccountColumns(row: CsvRow): (r: Result<Option<AccountKey>, RowError>)
    ensures r == Ok(None) <==> !Truthy(Get(row, "email", ""))
    ensures r.Ok? && r.value.Some? ==> Some(r.value.value.email) == row["email"] && "email_password" in row
  {
    var e := Get(row, "email", "");
    if !Truthy(e) then Ok(None)
    else if "email_password" !in row then Err(MissingColumn("email_password"))
    else Ok(Some(AccountKey(e.value, row["email_password"], Get(row, "provider", "gmail"))))
  }

  /** `f"Browser_{k + 1}"`. */
  function DefaultName(k: nat): string {
    "Browser_" + NatToString(k + 1)
  }

  /** `row.get('to_interact', '').lower() == 'true'`; a `None` field raises AttributeError. */
  function ToInteractColumn(row: CsvRow): (r: Result<bool, RowError>)
    ensures r.Err? <==> "to_interact" in row && row["to_interact"].None?
    ensures "to_interact" !in row ==> r == Ok(false)
    ensures "to_interact" in row && row["to_interact"].Some? ==> r == Ok(Lower(row["to_interact"].value) == "true")
  {
    var v := Get(row, "to_interact", "");
    if v.None? then Err(NoneValue) else Ok(Lower(v.value) == "true")
  }

  /** The account step of a line succeeds: no account part, a known email, or an insert with no NULL. */
  predicate AccountStepSucceeds(accounts: seq<AccountRow>, key: Option<AccountKey>) {
    key.None? || HasEmail(accounts, key.value.email) || (key.value.password.Some? && key.value.provider.Some?)
  }

  /** `proxyId` is what the line's proxy part resolved to in `proxies`. */
  ghost predicate ProxyLinked(row: CsvRow, proxyId: Option<int>, proxies: seq<ProxyRow>) {
    ProxyColumns(row).Ok? &&
    (proxyId.Some? <==> ProxyColumns(row).value.Some?) &&
    (proxyId.Some? ==> exists p :: (p in proxies && p.id == proxyId.value &&
      p.host == ProxyColumns(row).value.value.host && p.port == ProxyColumns(row).value.value.port &&
      p.username == ProxyColumns(row).value.value.username))
  }

  /** `accountId` is what the line's account part resolved to in `accounts`. */
  ghost predicate AccountLinked(row: CsvRow, accountId: Option<int>, accounts: seq<AccountRow>) {
    AccountColumns(row).Ok? &&
    (accountId.Some? <==> AccountColumns(row).value.Some?) &&
    (accountId.Some? ==> exists a :: (a in accounts && a.id == accountId.value &&
      a.email == AccountColumns(row).value.value.email))
  }

  /** The proxy part of a line binds: none, or a port that fits an SQLite INTEGER. */
  predicate ProxyBinds(key: Option<ProxyKey>) {
    key.None? || FitsInteger(key.value.port)
  }

  /** A line with a proxy part that binds has a proxy row with its host, port and username. */
  ghost predicate ProxyPresent(row: CsvRow, proxies: seq<ProxyRow>) {
    ProxyColumns(row).Ok? && ProxyColumns(row).value.Some? && ProxyBinds(ProxyColumns(row).value) ==>
      exists p :: p in proxies && p.host == ProxyColumns(row).value.value.host &&
        p.port == ProxyColumns(row).value.value.port && p.username == ProxyColumns(row).value.value.username
  }

  /**
   * What a browsers line leaves in a written row `b`, the `k`-th line written
   * in this call: its name (or `Browser_{k+1}`), its `to_interact` verdict,
   * the defaults of a new row, and a proxy and an account exactly when the
   * line names them.
   */
  ghost predicate RowImported(row: CsvRow, k: nat, b: BrowserRow, proxies: seq<ProxyRow>, accounts: seq<AccountRow>,
                              now: Timestamp) {
    Get(row, "name", DefaultName(k)) == Some(b.name) &&
    ToInteractColumn(row) == Ok(b.toInteract) &&
    b.status == "inactive" && b.lastInteraction.None? && b.createdAt == now &&
    ProxyLinked(row, b.proxyId, proxies) && AccountLinked(row, b.emailAccountId, accounts)
  }

  /** `after` is `before` with one more row, for `browserId`. */
  ghost predicate Appended(before: seq<BrowserRow>, after: seq<BrowserRow>, browserId: string) {
    |after| == |before| + 1 && after[..|before|] == before && after[|before|].browserId == browserId
  }

  /** What a written row says of its line stays true as the proxy and account tables grow. */
  lemma RowImportedGrows(row: CsvRow, k: nat, b: BrowserRow, proxies: seq<ProxyRow>, accounts: seq<AccountRow>,
                         proxies': seq<ProxyRow>, accounts': seq<AccountRow>, now: Timestamp)
    requires RowImported(row, k, b, proxies, accounts, now)
    requires proxies <= proxies' && accounts <= accounts'
    ensures RowImported(row, k, b, proxies', accounts', now)
  {
    assert forall p :: p in proxies ==> p in proxies';
    assert forall a :: a in accounts ==> a in accounts';
  }

  /**
   * The proxy part of a line: `create_or_find_proxy` when it has a
   * `proxy_host`, which raises only for a port beyond 64 bits.
   */
  method LinkProxy(db: Database, row: CsvRow, now: Timestamp) returns (linked: bool, proxyId: Option<int>)
    requires db.Valid() && ProxyColumns(row).Ok?
    modifies db
    ensures db.Valid()
    ensures linked <==> ProxyBinds(ProxyColumns(row).value)
    ensures linked ==> ProxyLinked(row, proxyId, db.proxies)
    ensures ProxyPresent(row, db.proxies)
    ensures old(db.proxies) <= db.proxies
    ensures !linked || ProxyColumns(row).value.None? ==> db.proxies == old(db.proxies)
    ensures db.browsers == old(db.browsers) && db.accounts == old(db.accounts) && db.commands == old(db.commands)
  {
    var columns := ProxyColumns(row);
    if columns.value.None? {
      return true, None;
    }
    var key := columns.value.value;
    var id := CreateOrFindProxy(db, key.host, key.port, key.username, key.password, now);
    if id.Err? {
      return false, None;
    }
    linked, proxyId := true, Some(id.value);
  }

  /**
   * The account part of a line: `create_or_find_email_account` when it has
   * an `email`, which raises only for a new email with a NULL password or
   * provider.
   */
  method LinkAccount(db: Database, row: CsvRow, now: Timestamp) returns (linked: bool, accountId: Option<int>)
    requires db.Valid() && AccountColumns(row).Ok?
    modifies db
    ensures db.Valid()
    ensures linked <==> AccountStepSucceeds(old(db.accounts), AccountColumns(row).value)
    ensures linked ==> AccountLinked(row, accountId, db.accounts)
    ensures old(db.accounts) <= db.accounts
    ensures db.browsers == old(db.browsers) && db.proxies == old(db.proxies) && db.commands == old(db.commands)
  {
    var columns := AccountColumns(row);
    if columns.value.None? {
      return true, None;
    }
    var key := columns.value.value;
    var id := CreateOrFindEmailAccount(db, key.email, key.password, key.provider, now);
    if id.Err? {
      return false, None;
    }
    linked, accountId := true, Some(id.value);
  }

  /** `create_browser` for a line whose proxy and account are resolved. */
  method CreateImportedBrowser(db: Database, rng: Entropy, row: CsvRow, k: nat, proxyId: Option<int>,
                               accountId: Option<int>, now: Timestamp) returns (r: Option<string>)
    requires db.Valid() && ToInteractColumn(row).Ok?
    requires ProxyLinked(row, proxyId, db.proxies) && AccountLinked(row, accountId, db.accounts)
    modifies db, rng
    ensures db.Valid()
    ensures r.Some? <==> Get(row, "name", DefaultName(k)).Some? && !HasBrowser(old(db.browsers), rng.uuids(old(rng.issued)))
    ensures r.None? ==> db.browsers == old(db.browsers)
    ensures r.Some? ==> (Appended(old(db.browsers), db.browsers, r.value) &&
      RowImported(row, k, db.browsers[|old(db.browsers)|], db.proxies, db.accounts, now))
    ensures db.proxies == old(db.proxies) && db.accounts == old(db.accounts) && db.commands == old(db.commands)
    ensures rng.issued == old(rng.issued) + 1
  {
    var created := CreateBrowser(db, rng, Get(row, "name", DefaultName(k)), proxyId, accountId,
      ToInteractColumn(row).value, now);
    if created.Err? {
      return None;
    }
    r := Some(created.value);
  }

  /**
   * What a line of the browsers import meets: the browsers and accounts
   * tables, the number of uuids drawn so far, and the number of rows the
   * import has written before it.
   */
  datatype LineState = LineState(browsers: seq<BrowserRow>, accounts: seq<AccountRow>, issued: nat, made: nat)

  /**
   * Every step of the line `row` succeeds on `st`: its proxy and account
   * columns and its `to_interact` are readable, its proxy part binds, its
   * name is not NULL, its account step succeeds, and the next uuid is not
   * already a browser id.
   */
  ghost predicate LineSucceeds(row: CsvRow, st: LineState, uuids: nat -> string) {
    ProxyColumns(row).Ok? && ProxyBinds(ProxyColumns(row).value) && AccountColumns(row).Ok? && ToInteractColumn(row).Ok? &&
    Get(row, "name", DefaultName(st.made)).Some? && AccountStepSucceeds(st.accounts, AccountColumns(row).value) &&
    !HasBrowser(st.browsers, uuids(st.issued))
  }

  /** A browsers line whose `proxy_port` is `2^63` is skipped, whatever the tables. */
  lemma OverflowingProxyPortSkipsLine(st: LineState, uuids: nat -> string)
    ensures !LineSucceeds(map["proxy_host" := Some("h"), "proxy_port" := Some(IntToString(0x8000_0000_0000_0000))],
                          st, uuids)
  {
    ParseIntToString(0x8000_0000_0000_0000);
  }

  /**
   * Line `j` met `st`, now that the tables read `browsers` and `accounts`
   * and `issued` uuids are drawn: the browsers with the rows written before
   * it, accounts and a uuid count between the first and the current ones;
   * and it is accepted exactly when its steps all succeed on `st`.
   */
  ghost predicate LineMet(st: LineState, j: nat, row: CsvRow, browsers: seq<BrowserRow>, accounts: seq<AccountRow>,
                          issued: nat, browsers0: seq<BrowserRow>, accounts0: seq<AccountRow>, issued0: nat,
                          accepted: seq<nat>, uuids: nat -> string) {
    st.made <= |accepted| && |browsers0| + st.made <= |browsers| &&
    (forall k :: 0 <= k < |accepted| ==> (accepted[k] < j <==> k < st.made)) &&
    st.browsers == browsers[..|browsers0| + st.made] &&
    accounts0 <= st.accounts <= accounts && issued0 <= st.issued <= issued &&
    (j in accepted <==> LineSucceeds(row, st, uuids))
  }

  /**
   * `states` are what the first `i` lines of the browsers import met: the
   * first line met the tables the import started from, each line met
   * accounts and a uuid count no smaller than the line before, and each
   * line is accepted exactly when its steps succeed on what it met.
   */
  ghost predicate Snapshots(states: seq<LineState>, rows: seq<CsvRow>, i: nat, browsers: seq<BrowserRow>,
                            accounts: seq<AccountRow>, issued: nat, browsers0: seq<BrowserRow>,
                            accounts0: seq<AccountRow>, issued0: nat, accepted: seq<nat>, uuids: nat -> string) {
    |states| == i <= |rows| &&
    (i == 0 ==> browsers == browsers0 && accounts == accounts0 && issued == issued0) &&
    (0 < i ==> states[0] == LineState(browsers0, accounts0, issued0, 0)) &&
    (forall j :: 0 <= j < i ==>
      LineMet(states[j], j, rows[j], browsers, accounts, issued, browsers0, accounts0, issued0, accepted, uuids)) &&
    (forall j :: 0 < j < i ==>
      states[j - 1].accounts <= states[j].accounts && states[j - 1].issued <= states[j].issued)
  }

  /** What an earlier line met stays true as the tables grow and a later line is accepted or not. */
  lemma LineMetGrows(st: LineState, j: nat, i: nat, row: CsvRow, browsers: seq<BrowserRow>, accounts: seq<AccountRow>,
                     issued: nat, browsers': seq<BrowserRow>, accounts': seq<AccountRow>, issued': nat,
                     browsers0: seq<BrowserRow>, accounts0: seq<AccountRow>, issued0: nat,
                     accepted: seq<nat>, accepted': seq<nat>, uuids: nat -> string)
    requires LineMet(st, j, row, browsers, accounts, issued, browsers0, accounts0, issued0, accepted, uuids)
    requires j < i && accounts <= accounts' && issued <= issued'
    requires |browsers| <= |browsers'| && browsers'[..|browsers|] == browsers
    requires accepted' == accepted || accepted' == accepted + [i]
    ensures LineMet(st, j, row, browsers', accounts', issued', browsers0, accounts0, issued0, accepted', uuids)
  {
    assert browsers'[..|browsers0| + st.made] == browsers[..|browsers0| + st.made];
    assert j in accepted' <==> j in accepted;
  }

  /** The line `i`, met on the current tables with every accepted line before it. */
  lemma LineMetNow(i: nat, row: CsvRow, browsers: seq<BrowserRow>, accounts: seq<AccountRow>, issued: nat,
                   browsers': seq<BrowserRow>, accounts': seq<AccountRow>, issued': nat,
                   browsers0: seq<BrowserRow>, accounts0: seq<AccountRow>, issued0: nat,
                   accepted: seq<nat>, uuids: nat -> string, r: Option<string>)
    requires |browsers| == |browsers0| + |accepted| && browsers[..|browsers0|] == browsers0
    requires forall k :: 0 <= k < |accepted| ==> accepted[k] < i
    requires accounts0 <= accounts <= accounts' && issued0 <= issued <= issued'
    requires |browsers| <= |browsers'| && browsers'[..|browsers|] == browsers
    requires r.Some? <==> LineSucceeds(row, LineState(browsers, accounts, issued, |accepted|), uuids)
    ensures LineMet(LineState(browsers, accounts, issued, |accepted|), i, row, browsers', accounts', issued',
                    browsers0, accounts0, issued0, if r.Some? then accepted + [i] else accepted, uuids)
  {
    var accepted' := if r.Some? then accepted + [i] else accepted;
    assert i !in accepted;
    assert i in accepted' <==> r.Some?;
  }

  /** The line `i`, met on the current tables, extends the snapshots. */
  lemma SnapshotsStep(states: seq<LineState>, rows: seq<CsvRow>, i: nat, browsers: seq<BrowserRow>,
                      accounts: seq<AccountRow>, issued: nat, browsers': seq<BrowserRow>, accounts': seq<AccountRow>,
                      issued': nat, browsers0: seq<BrowserRow>, accounts0: seq<AccountRow>, issued0: nat,
                      accepted: seq<nat>, uuids: nat -> string, r: Option<string>)
    requires Snapshots(states, rows, i, browsers, accounts, issued, browsers0, accounts0, issued0, accepted, uuids)
    requires i < |rows| && |browsers| == |browsers0| + |accepted| && browsers[..|browsers0|] == browsers0
    requires forall k :: 0 <= k < |accepted| ==> accepted[k] < i
    requires accounts0 <= accounts <= accounts' && issued0 <= issued <= issued'
    requires r.None? ==> browsers' == browsers
    requires r.Some? ==> |browsers'| == |browsers| + 1 && browsers'[..|browsers|] == browsers
    requires r.Some? <==> LineSucceeds(rows[i], LineState(browsers, accounts, issued, |accepted|), uuids)
    ensures Snapshots(states + [LineState(browsers, accounts, issued, |accepted|)], rows, i + 1, browsers', accounts',
                      issued', browsers0, accounts0, issued0, if r.Some? then accepted + [i] else accepted, uuids)
  {
    var st := LineState(browsers, accounts, issued, |accepted|);
    var states', accepted' := states + [st], if r.Some? then accepted + [i] else accepted;
    assert browsers'[..|browsers|] == browsers;
    forall j | 0 <= j < i + 1
      ensures LineMet(states'[j], j, rows[j], browsers', accounts', issued', browsers0, accounts0, issued0, accepted', uuids)
    {
      if j < i {
        assert states'[j] == states[j];
        LineMetGrows(states[j], j, i, rows[j], browsers, accounts, issued, browsers', accounts', issued',
                     browsers0, accounts0, issued0, accepted, accepted', uuids);
      } else {
        LineMetNow(i, rows[i], browsers, accounts, issued, browsers', accounts', issued',
                   browsers0, accounts0, issued0, accepted, uuids, r);
      }
    }
    if 0 < i {
      assert LineMet(states[i - 1], i - 1, rows[i - 1], browsers, accounts, issued, browsers0, accounts0, issued0, accepted, uuids);
    }
  }

  /**
   * One line of `import_browsers_from_csv`. The proxy and the account are
   * written by their own committed calls, so they stay even when a later
   * step of the line raises.
   */
  method ImportBrowserRow(db: Database, rng: Entropy, row: CsvRow, k: nat, now: Timestamp) returns (r: Option<string>)
    requires db.Valid()
    modifies db, rng
    ensures db.Valid()
    ensures old(db.proxies) <= db.proxies && old(db.accounts) <= db.accounts && db.commands == old(db.commands)
    ensures ProxyPresent(row, db.proxies)
    ensures !ProxyColumns(row).Ok? || !ProxyBinds(ProxyColumns(row).value) || ProxyColumns(row).value.None? ==>
      db.proxies == old(db.proxies)
    ensures r.None? ==> db.browsers == old(db.browsers)
    ensures r.Some? ==> (Appended(old(db.browsers), db.browsers, r.value) &&
      RowImported(row, k, db.browsers[|old(db.browsers)|], db.proxies, db.accounts, now))
    ensures r.Some? <==> LineSucceeds(row, LineState(old(db.browsers), old(db.accounts), old(rng.issued), k), rng.uuids)
    ensures old(rng.issued) <= rng.issued
  {
    if ProxyColumns(row).Err? {
      return None;
    }
    var proxyBound, proxyId := LinkProxy(db, row, now);
    if !proxyBound || AccountColumns(row).Err? {
      return None;
    }
    var linked, accountId := LinkAccount(db, row, now);
    if !linked || ToInteractColumn(row).Err? {
      return None;
    }
    r := CreateImportedBrowser(db, rng, row, k, proxyId, accountId, now);
  }

  /**
   * `import_browsers_from_csv`: one created browser per line that raises
   * nothing, in file order. The ghost `accepted` lists the line numbers of
   * the written rows.
   */
  method ImportBrowsers(db: Database, rng: Entropy, rows: seq<CsvRow>, now: Timestamp)
    returns (browserIds: seq<string>, ghost accepted: seq<nat>, ghost states: seq<LineState>)
    requires db.Valid()
    modifies db, rng
    ensures db.Valid()
    ensures |browserIds| == |accepted| <= |rows|
    ensures |db.browsers| == |old(db.browsers)| + |browserIds| && db.browsers[..|old(db.browsers)|] == old(db.browsers)
    ensures forall k :: 0 <= k < |browserIds| ==> db.browsers[|old(db.browsers)| + k].browserId == browserIds[k]
    ensures Distinct(browserIds)
    ensures forall k :: 0 <= k < |accepted| ==> accepted[k] < |rows|
    ensures forall k, l :: 0 <= k < l < |accepted| ==> accepted[k] < accepted[l]
    ensures forall k :: 0 <= k < |accepted| ==>
      RowImported(rows[accepted[k]], k, db.browsers[|old(db.browsers)| + k], db.proxies, db.accounts, now)
    ensures old(db.proxies) <= db.proxies && old(db.accounts) <= db.accounts && db.commands == old(db.commands)
    ensures |states| == |rows| && forall j :: 0 <= j < |rows| ==> (j in accepted <==> LineSucceeds(rows[j], states[j], rng.uuids))
    ensures Snapshots(states, rows, |rows|, db.browsers, db.accounts, rng.issued, old(db.browsers), old(db.accounts),
                      old(rng.issued), accepted, rng.uuids)
  {
    browserIds, accepted, states := [], [], [];
    var i := 0;
    while i < |rows|
      invariant 0 <= i <= |rows|
      invariant Progress(db, rows, i, old(db.browsers), old(db.proxies), old(db.accounts), old(db.commands),
        browserIds, accepted, now)
      invariant Snapshots(states, rows, i, db.browsers, db.accounts, rng.issued, old(db.browsers), old(db.accounts),
                          old(rng.issued), accepted, rng.uuids)
    {
      browserIds, accepted, states := ImportNextRow(db, rng, rows, i, old(db.browsers), old(db.proxies), old(db.accounts),
        old(db.commands), old(rng.issued), browserIds, accepted, states, now);
      i := i + 1;
    }
    var n := |old(db.browsers)|;
    forall k, l | 0 <= k < l < |browserIds| ensures browserIds[k] != browserIds[l] {
      assert db.browsers[n + k].browserId != db.browsers[n + l].browserId;
    }
  }

  /** The browsers import after its first `i` lines, against the tables it started from. */
  ghost predicate Progress(db: Database, rows: seq<CsvRow>, i: nat, browsers0: seq<BrowserRow>, proxies0: seq<ProxyRow>,
                           accounts0: seq<AccountRow>, commands0: seq<CommandRow>, browserIds: seq<string>,
                           accepted: seq<nat>, now: Timestamp)
    reads db
  {
    db.Valid() && db.commands == commands0 &&
    ProgressOf(db.browsers, db.proxies, db.accounts, rows, i, browsers0, proxies0, accounts0, browserIds, accepted, now)
  }

  /** `Progress` on the table contents alone. */
  ghost predicate ProgressOf(browsers: seq<BrowserRow>, proxies: seq<ProxyRow>, accounts: seq<AccountRow>,
                             rows: seq<CsvRow>, i: nat, browsers0: seq<BrowserRow>, proxies0: seq<ProxyRow>,
                             accounts0: seq<AccountRow>, browserIds: seq<string>, accepted: seq<nat>, now: Timestamp)
  {
    i <= |rows| &&
    |browsers| == |browsers0| + |browserIds| && browsers[..|browsers0|] == browsers0 &&
    |browserIds| == |accepted| <= i &&
    (forall k :: 0 <= k < |browserIds| ==> browsers[|browsers0| + k].browserId == browserIds[k]) &&
    (forall k :: 0 <= k < |accepted| ==> accepted[k] < i) &&
    (forall k, l :: 0 <= k < l < |accepted| ==> accepted[k] < accepted[l]) &&
    (forall k :: 0 <= k < |accepted| ==>
      RowImported(rows[accepted[k]], k, browsers[|browsers0| + k], proxies, accounts, now)) &&
    proxies0 <= proxies && accounts0 <= accounts
  }

  /** A line that leaves the browsers alone, or appends one written row, extends the progress. */
  lemma ProgressStep(browsers: seq<BrowserRow>, proxies: seq<ProxyRow>, accounts: seq<AccountRow>,
                     browsers': seq<BrowserRow>, proxies': seq<ProxyRow>, accounts': seq<AccountRow>,
                     rows: seq<CsvRow>, i: nat, browsers0: seq<BrowserRow>, proxies0: seq<ProxyRow>,
                     accounts0: seq<AccountRow>, browserIds: seq<string>, accepted: seq<nat>, r: Option<string>,
                     now: Timestamp)
    requires i < |rows|
    requires ProgressOf(browsers, proxies, accounts, rows, i, browsers0, proxies0, accounts0, browserIds, accepted, now)
    requires proxies <= proxies' && accounts <= accounts'
    requires r.None? ==> browsers' == browsers
    requires r.Some? ==> (Appended(browsers, browsers', r.value) &&
      RowImported(rows[i], |browserIds|, browsers'[|browsers|], proxies', accounts', now))
    ensures r.None? ==>
      ProgressOf(browsers', proxies', accounts', rows, i + 1, browsers0, proxies0, accounts0, browserIds, accepted, now)
    ensures r.Some? ==>
      ProgressOf(browsers', proxies', accounts', rows, i + 1, browsers0, proxies0, accounts0,
        browserIds + [r.value], accepted + [i], now)
  {
    var n0 := |browsers0|;
    forall k | 0 <= k < |accepted|
      ensures RowImported(rows[accepted[k]], k, browsers'[n0 + k], proxies', accounts', now)
    {
      assert browsers'[n0 + k] == browsers[n0 + k] by {
        if r.Some? {
          assert browsers'[..|browsers|] == browsers;
        }
      }
      RowImportedGrows(rows[accepted[k]], k, browsers[n0 + k], proxies, accounts, proxies', accounts', now);
    }
    if r.Some? {
      assert browsers'[..|browsers|] == browsers;
      assert browsers'[..n0] == browsers[..n0];
    }
  }

  /** Line `i` of the browsers import: a written line extends the ids and the line numbers by one. */
  method ImportNextRow(db: Database, rng: Entropy, rows: seq<CsvRow>, i: nat, ghost browsers0: seq<BrowserRow>,
                       ghost proxies0: seq<ProxyRow>, ghost accounts0: seq<AccountRow>, ghost commands0: seq<CommandRow>,
                       ghost issued0: nat, browserIds: seq<string>, ghost accepted: seq<nat>, ghost states: seq<LineState>,
                       now: Timestamp)
    returns (browserIds': seq<string>, ghost accepted': seq<nat>, ghost states': seq<LineState>)
    requires i < |rows|
    requires Progress(db, rows, i, browsers0, proxies0, accounts0, commands0, browserIds, accepted, now)
    requires Snapshots(states, rows, i, db.browsers, db.accounts, rng.issued, browsers0, accounts0, issued0, accepted, rng.uuids)
    modifies db, rng
    ensures Progress(db, rows, i + 1, browsers0, proxies0, accounts0, commands0, browserIds', accepted', now)
    ensures Snapshots(states', rows, i + 1, db.browsers, db.accounts, rng.issued, browsers0, accounts0, issued0, accepted',
                      rng.uuids)
    ensures states' == states + [LineState(old(db.browsers), old(db.accounts), old(rng.issued), |browserIds|)]
    ensures i in accepted' <==> LineSucceeds(rows[i], states'[i], rng.uuids)
    ensures |browserIds'| <= |browserIds| + 1
  {
    ghost var proxies, accounts, browsers, issued := db.proxies, db.accounts, db.browsers, rng.issued;
    assert issued0 <= issued by {
      if 0 < i {
        assert LineMet(states[0], 0, rows[0], browsers, accounts, issued, browsers0, accounts0, issued0, accepted, rng.uuids);
      }
    }
    var r := ImportBrowserRow(db, rng, rows[i], |browserIds|, now);
    ProgressStep(browsers, proxies, accounts, db.browsers, db.proxies, db.accounts, rows, i, browsers0, proxies0,
      accounts0, browserIds, accepted, r, now);
    SnapshotsStep(states, rows, i, browsers, accounts, issued, db.browsers, db.accounts, rng.issued, browsers0, accounts0,
      issued0, accepted, rng.uuids, r);
    states' := states + [LineState(browsers, accounts, issued, |accepted|)];
    if r.Some? {
      browserIds', accepted' := browserIds + [r.value], accepted + [i];
    } else {
      browserIds', accepted' := browserIds, accepted;
    }
  }

  // ---------------------------------------------------------------- listing

  /** The columns `get_proxy_list` returns: every column except the password. */
  datatype ProxySummary = ProxySummary(id: nat, name: Option<string>, host: string, port: int,
    username: Option<string>, protocol: Option<string>, status: string, createdAt: Timestamp)

  function SummaryOfProxy(p: ProxyRow): ProxySummary {
    ProxySummary(p.id, p.name, p.host, p.port, p.username, p.protocol, p.status, p.createdAt)
  }

  function ProxyNewestFirst(p: ProxyRow): int {
    -(p.createdAt as int)
  }

  /** `get_proxy_list`: `ORDER BY created_at DESC`, rows with the same second kept in table order. */
  function GetProxyList(proxies: seq<ProxyRow>): (r: seq<ProxySummary>)
    ensures |r| == |proxies|
  {
    var sorted := SortBy(proxies, ProxyNewestFirst);
    seq(|sorted|, i requires 0 <= i < |sorted| => SummaryOfProxy(sorted[i]))
  }

  /** Every proxy is listed, without its password, newest first. */
  lemma GetProxyListSpec(proxies: seq<ProxyRow>)
    ensures var r := GetProxyList(proxies);
      (forall i, j :: 0 <= i < j < |r| ==> r[i].createdAt >= r[j].createdAt) &&
      (forall p :: p in proxies ==> SummaryOfProxy(p) in r) &&
      (forall i :: 0 <= i < |r| ==> exists p :: p in proxies && r[i] == SummaryOfProxy(p)) &&
      multiset(r) == multiset(MapSeq(proxies, SummaryOfProxy))
  {
    var sorted := SortBy(proxies, ProxyNewestFirst);
    assert GetProxyList(proxies) == MapSeq(sorted, SummaryOfProxy);
    MapSeqPermutation(sorted, proxies, SummaryOfProxy);
    var r := GetProxyList(proxies);
    forall i, j | 0 <= i < j < |r| ensures r[i].createdAt >= r[j].createdAt {
      assert ProxyNewestFirst(sorted[i]) <= ProxyNewestFirst(sorted[j]);
    }
    forall p | p in proxies ensures SummaryOfProxy(p) in r {
      assert p in multiset(sorted);
      var k :| 0 <= k < |sorted| && sorted[k] == p;
      assert r[k] == SummaryOfProxy(p);
    }
    forall i | 0 <= i < |r| ensures exists p :: p in proxies && r[i] == SummaryOfProxy(p) {
      assert sorted[i] in multiset(proxies);
      assert sorted[i] in proxies;
    }
  }

  /** The columns `get_email_accounts_list` returns: every column except the password. */
  datatype AccountSummary = AccountSummary(id: nat, email: string, provider: string,
    recoveryEmail: Option<string>, phone: Option<string>, status: string, createdAt: Timestamp)

  function SummaryOfAccount(a: AccountRow): AccountSummary {
    AccountSummary(a.id, a.email, a.provider, a.recoveryEmail, a.phone, a.status, a.createdAt)
  }

  function AccountNewestFirst(a: AccountRow): int {
    -(a.createdAt as int)
  }

  /** `get_email_accounts_list`: `ORDER BY created_at DESC`. */
  function GetEmailAccountsList(accounts: seq<AccountRow>): (r: seq<AccountSummary>)
    ensures |r| == |accounts|
  {
    var sorted := SortBy(accounts, AccountNewestFirst);
    seq(|sorted|, i requires 0 <= i < |sorted| => SummaryOfAccount(sorted[i]))
  }

  /** Every account is listed, without its password, newest first. */
  lemma GetEmailAccountsListSpec(accounts: seq<AccountRow>)
    ensures var r := GetEmailAccountsList(accounts);
      (forall i, j :: 0 <= i < j < |r| ==> r[i].createdAt >= r[j].createdAt) &&
      (forall a :: a in accounts ==> SummaryOfAccount(a) in r) &&
      (forall i :: 0 <= i < |r| ==> exists a :: a in accounts && r[i] == SummaryOfAccount(a)) &&
      multiset(r) == multiset(MapSeq(accounts, SummaryOfAccount))
  {
    var sorted := SortBy(accounts, AccountNewestFirst);
    assert GetEmailAccountsList(accounts) == MapSeq(sorted, SummaryOfAccount);
    MapSeqPermutation(sorted, accounts, SummaryOfAccount);
    var r := GetEmailAccountsList(accounts);
    forall i, j | 0 <= i < j < |r| ensures r[i].createdAt >= r[j].createdAt {
      assert AccountNewestFirst(sorted[i]) <= AccountNewestFirst(sorted[j]);
    }
    forall a | a in accounts ensures SummaryOfAccount(a) in r {
      assert a in multiset(sorted);
      var k :| 0 <= k < |sorted| && sorted[k] == a;
      assert r[k] == SummaryOfAccount(a);
    }
    forall i | 0 <= i < |r| ensures exists a :: a in accounts && r[i] == SummaryOfAccount(a) {
      assert sorted[i] in multiset(accounts);
      assert sorted[i] in accounts;
    }
  }
}
