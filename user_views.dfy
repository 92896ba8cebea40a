/**
 * The merged-CSV user import and the add-user form of the e-mail manager:
 * the header check, the cleaning and validation of each row, the duplicate
 * checks against the table, the buffer flushed in batches of 1000 inside one
 * transaction, and the counters reported at the end.
 */
module UserViews {
  import opened Wrappers
  import opened Seqs
  import opened Text
  import opened Users

  /** One cell under the header: `None` (the reader's `restval`) past the end of the record. */
  function Cell(record: seq<string>, j: nat): Option<string> {
    if j < |record| then Some(record[j]) else None
  }

  /**
   * The row `csv.DictReader` builds: each header name maps to its cell, a
   * repeated name to its last cell. Cells past the header go to the `None`
   * key, which the cleaning drops, so they are not kept.
   */
  function ReaderRow(fieldnames: seq<string>, record: seq<string>): (r: map<string, Option<string>>)
    ensures forall k :: k in r <==> k in fieldnames
    ensures forall k :: k in r ==> exists j :: 0 <= j < |fieldnames| && fieldnames[j] == k && r[k] == Cell(record, j)
    decreases |fieldnames|
  {
    if fieldnames == [] then map[]
    else
      var n := |fieldnames| - 1;
      var prev := ReaderRow(fieldnames[..n], record);
      assert forall k :: k in fieldnames <==> k in fieldnames[..n] || k == fieldnames[n];
      prev[fieldnames[n] := Cell(record, n)]
  }

  /**
   * `{key.strip(): value for key, value in row.items() if key}`, with the
   * keys taken in `keys` order: an empty name is dropped, and of two names
   * that strip alike the later one wins.
   */
  function CleanKeys(keys: seq<string>, row: map<string, Option<string>>): (r: map<string, Option<string>>)
    requires forall k :: k in keys ==> k in row
    ensures forall c :: c in r <==> exists k :: k in keys && k != "" && Strip(k) == c
    ensures forall c :: c in r ==> exists k :: k in keys && k != "" && Strip(k) == c && r[c] == row[k]
    decreases |keys|
  {
    if keys == [] then map[]
    else
      var n := |keys| - 1;
      var prev := CleanKeys(keys[..n], row);
      assert forall k :: k in keys <==> k in keys[..n] || k == keys[n];
      if keys[n] == "" then prev else prev[Strip(keys[n]) := row[keys[n]]]
  }

  /**
   * The cleaned row of one record: `DictReader`'s row, whose keys keep the
   * order of their first appearance in the header, with its keys stripped.
   */
  function CleanRow(fieldnames: seq<string>, record: seq<string>): (r: map<string, Option<string>>)
    ensures forall c :: c in r <==> exists j :: 0 <= j < |fieldnames| && fieldnames[j] != "" && Strip(fieldnames[j]) == c
    ensures forall c :: c in r ==>
      exists j :: 0 <= j < |fieldnames| && fieldnames[j] != "" && Strip(fieldnames[j]) == c && r[c] == Cell(record, j)
  {
    var row := ReaderRow(fieldnames, record);
    var keys := Dedup(fieldnames);
    var r := CleanKeys(keys, row);
    assert forall c :: c in r <==> exists j :: 0 <= j < |fieldnames| && fieldnames[j] != "" && Strip(fieldnames[j]) == c by {
      forall c | c in r ensures exists j :: 0 <= j < |fieldnames| && fieldnames[j] != "" && Strip(fieldnames[j]) == c {
        var k :| k in keys && k != "" && Strip(k) == c;
        var j :| 0 <= j < |fieldnames| && fieldnames[j] == k;
      }
      forall j | 0 <= j < |fieldnames| && fieldnames[j] != "" ensures Strip(fieldnames[j]) in r {
        assert fieldnames[j] in keys;
      }
    }
    forall c | c in r
      ensures exists j :: 0 <= j < |fieldnames| && fieldnames[j] != "" && Strip(fieldnames[j]) == c && r[c] == Cell(record, j)
    {
      var k :| k in keys && k != "" && Strip(k) == c && r[c] == row[k];
      var j :| 0 <= j < |fieldnames| && fieldnames[j] == k && row[k] == Cell(record, j);
    }
    r
  }

  /** With header names that strip to pairwise different texts, each non-empty name holds its own column's cell. */
  lemma CleanRowOfPlainHeader(fieldnames: seq<string>, record: seq<string>, j: nat)
    requires forall a, b :: 0 <= a < b < |fieldnames| ==> Strip(fieldnames[a]) != Strip(fieldnames[b])
    requires j < |fieldnames| && fieldnames[j] != ""
    ensures Strip(fieldnames[j]) in CleanRow(fieldnames, record)
    ensures CleanRow(fieldnames, record)[Strip(fieldnames[j])] == Cell(record, j)
  {
    var r := CleanRow(fieldnames, record);
    var c := Strip(fieldnames[j]);
    var i :| 0 <= i < |fieldnames| && fieldnames[i] != "" && Strip(fieldnames[i]) == c && r[c] == Cell(record, i);
    assert i == j;
  }

  const RequiredFields: seq<string> := ["username", "email", "is_connected", "is_active_profile"]

  /** Some header name strips to `f`. */
  predicate HeaderHas(header: Option<seq<string>>, f: string) {
    header.Some? && exists k :: k in header.value && Strip(k) == f
  }

  /** `missing_fields`: the required names that no stripped header name equals, in the required order. */
  function MissingHeaders(header: Option<seq<string>>): (r: seq<string>)
    ensures forall f :: f in r <==> f in RequiredFields && !HeaderHas(header, f)
  {
    FilterContents(RequiredFields, f => !HeaderHas(header, f));
    Filter(RequiredFields, f => !HeaderHas(header, f))
  }

  /** `field not in cleaned_row or not cleaned_row[field].strip()`, with `None` counted blank as well. */
  predicate Blank(row: map<string, Option<string>>, f: string) {
    f !in row || row[f].None? || Strip(row[f].value) == ""
  }

  /** A required field whose value is `None`: calling `.strip()` on it raises. */
  predicate NoneRequired(row: map<string, Option<string>>) {
    exists f :: f in RequiredFields && f in row && row[f].None?
  }

  /** Every required field is present with a non-blank text. */
  predicate Filled(row: map<string, Option<string>>) {
    forall f :: f in RequiredFields ==> !Blank(row, f)
  }

  /** `missing_in_row`: the required fields that are absent or blank, in the required order. */
  function MissingInRow(row: map<string, Option<string>>): (r: seq<string>)
    ensures forall f :: f in r <==> f in RequiredFields && Blank(row, f)
    ensures r == [] <==> Filled(row)
  {
    FilterContents(RequiredFields, f => Blank(row, f));
    var r := Filter(RequiredFields, f => Blank(row, f));
    assert r != [] ==> r[0] in r;
    r
  }

  /** `cleaned_row.get(f, '')`: the empty text for an absent field, `None` for a `None` value. */
  function Get(row: map<string, Option<string>>, f: string): Option<string> {
    if f in row then row[f] else Some("")
  }

  /** The normalised username: `cleaned_row['username'].strip()`. */
  function Username(row: map<string, Option<string>>): string
    requires Filled(row)
  {
    assert "username" in RequiredFields;
    Strip(row["username"].value)
  }

  /** The normalised e-mail: `cleaned_row['email'].strip().lower()`. */
  function Email(row: map<string, Option<string>>): string
    requires Filled(row)
  {
    assert "email" in RequiredFields;
    Lower(Strip(row["email"].value))
  }

  /** The text of a filled boolean column. */
  function Flag(row: map<string, Option<string>>, f: string): string
    requires Filled(row) && f in RequiredFields
  {
    assert !Blank(row, f);
    row[f].value
  }

  const TrueTexts: seq<string> := ["true", "1", "yes"]

  /** `value.strip().lower() in ['true', '1', 'yes']`. */
  predicate IsTrue(v: string) {
    Lower(Strip(v)) in TrueTexts
  }

  /** `CustomUser.objects.filter(username=name).exists()`. */
  predicate UsernameTaken(users: seq<CustomUser>, name: string) {
    exists u :: u in users && u.username == name
  }

  /** `CustomUser.objects.filter(email=email).exists()`: an exact comparison. */
  predicate EmailTaken(users: seq<CustomUser>, email: string) {
    exists u :: u in users && u.email == email
  }

  /** What `results['errors']` records. */
  datatype ErrorEntry =
    | MissingRequired(row: nat, fields: seq<string>)  // a required field absent or blank
    | ProcessingFailed(row: nat)  // an exception from `.strip()` on `None` or from a query on a broken transaction
    | IntegrityFailed(row: nat)  // the bulk insert at this row broke a unique column
    | HeadersMissing(fields: seq<string>)  // the header check
    | ImportFailed  // the final bulk insert raised and the transaction was rolled back

  /** What `results['duplicates']` records. */
  datatype DuplicateEntry = DuplicateUsername(row: nat, username: string) | DuplicateEmail(row: nat, email: string)

  /** What one row becomes. */
  datatype Outcome = Invalid(error: ErrorEntry) | Duplicated(entry: DuplicateEntry) | NewUser(user: CustomUser)

  /**
   * `user_data` and the password of a filled row: `None` when `.strip()`
   * meets a `None` value in `proxy_address` or `temp_password`.
   */
  function BuildUser(row: nat, cleaned: map<string, Option<string>>): (r: Option<CustomUser>)
    requires Filled(cleaned)
    ensures r.Some? <==> Get(cleaned, "proxy_address").Some? && Get(cleaned, "temp_password").Some?
    ensures r.Some? ==>
      r.value.username == Username(cleaned) && r.value.username != ""
      && r.value.email == Email(cleaned) && r.value.email != ""
      && r.value.profileId == Some(r.value.username + "_" + NatToString(row))
      && r.value.isConnected == IsTrue(Flag(cleaned, "is_connected"))
      && r.value.isActiveProfile == IsTrue(Flag(cleaned, "is_active_profile"))
    ensures r.Some? ==>
      (r.value.proxyAddress == None <==> Strip(Get(cleaned, "proxy_address").value) == "")
      && (r.value.proxyAddress.Some? ==> r.value.proxyAddress.value == Strip(Get(cleaned, "proxy_address").value))
      && (r.value.password == GeneratedPassword <==> Strip(Get(cleaned, "temp_password").value) == "")
  {
    assert "username" in RequiredFields && "email" in RequiredFields;
    assert "is_connected" in RequiredFields && "is_active_profile" in RequiredFields;
    var username := Username(cleaned);
    var email := Email(cleaned);
    match (Get(cleaned, "proxy_address"), Get(cleaned, "temp_password"))
    case (Some(proxy), Some(temp)) =>
      var address := Strip(proxy);
      var password := Strip(temp);
      Some(CustomUser(
        username, email,
        if address == "" then None else Some(address),
        IsTrue(Flag(cleaned, "is_connected")), IsTrue(Flag(cleaned, "is_active_profile")),
        Some(username + "_" + NatToString(row)),
        if password == "" then GeneratedPassword else GivenPassword(password)))
    case _ => None
  }

  /**
   * The body of the row loop up to the append to the buffer: the checks in
   * source order, against the users the transaction sees (`known`), on a
   * transaction that a failed bulk insert may have `broken`. The check for
   * an empty username or e-mail after normalisation never fires, because
   * the required fields are already known to be non-blank.
   */
  function RowOutcome(row: nat, cleaned: map<string, Option<string>>, known: seq<CustomUser>, broken: bool)
    : (r: Outcome)
    ensures r.NewUser? ==> !broken
    ensures r.Invalid? ==> r.error.ProcessingFailed? || r.error.MissingRequired?
  {
    if NoneRequired(cleaned) then Invalid(ProcessingFailed(row))
    else
      var missing := MissingInRow(cleaned);
      if missing != [] then Invalid(MissingRequired(row, missing))
      else
        var username := Username(cleaned);
        var email := Email(cleaned);
        if broken then Invalid(ProcessingFailed(row))
        else if UsernameTaken(known, username) then Duplicated(DuplicateUsername(row, username))
        else if EmailTaken(known, email) then Duplicated(DuplicateEmail(row, email))
        else
          match BuildUser(row, cleaned)
          case Some(u) => NewUser(u)
          case None => Invalid(ProcessingFailed(row))
  }

  /**
   * The checks of one row, in the order the loop makes them: a missing
   * value, blank required fields, a broken transaction, a taken username,
   * a taken e-mail, then the new user or the failure to build it.
   */
  lemma RowOutcomeCases(row: nat, cleaned: map<string, Option<string>>, known: seq<CustomUser>, broken: bool)
    ensures var r := RowOutcome(row, cleaned, known, broken);
      (NoneRequired(cleaned) ==> r == Invalid(ProcessingFailed(row)))
      && (!NoneRequired(cleaned) && !Filled(cleaned) ==> r == Invalid(MissingRequired(row, MissingInRow(cleaned))))
      && (r.Invalid? && r.error.MissingRequired? ==> !Filled(cleaned) && r.error.fields != [])
      && (Filled(cleaned) && broken ==> r == Invalid(ProcessingFailed(row)))
      && (Filled(cleaned) && !broken && UsernameTaken(known, Username(cleaned)) ==>
            r == Duplicated(DuplicateUsername(row, Username(cleaned))))
      && (Filled(cleaned) && !broken && !UsernameTaken(known, Username(cleaned)) && EmailTaken(known, Email(cleaned)) ==>
            r == Duplicated(DuplicateEmail(row, Email(cleaned))))
      && (r.Duplicated? ==> Filled(cleaned) && !broken)
      && (Filled(cleaned) && !broken && !UsernameTaken(known, Username(cleaned)) && !EmailTaken(known, Email(cleaned)) ==>
            r == (if BuildUser(row, cleaned).Some? then NewUser(BuildUser(row, cleaned).value) else Invalid(ProcessingFailed(row))))
      && (r.NewUser? ==>
            Filled(cleaned) && BuildUser(row, cleaned) == Some(r.user)
            && !UsernameTaken(known, r.user.username) && !EmailTaken(known, r.user.email))
  {
  }

  /** The counters and lists of `results`. */
  datatype Results = Results(successCount: nat, errorCount: nat, errors: seq<ErrorEntry>, duplicates: seq<DuplicateEntry>)

  /**
   * The loop's state after some rows: `results`, the buffer `users_to_create`,
   * `row_count`, whether a failed bulk insert has broken the transaction,
   * and the users inserted so far inside the transaction.
   */
  datatype Progress = Progress(results: Results, pending: seq<CustomUser>, rowCount: nat, broken: bool, flushed: seq<CustomUser>)

  const BatchSize: nat := 1000

  /** Two users that a unique column (`username`, or a non-null `profile_id`) forbids together. */
  predicate Clash(a: CustomUser, b: CustomUser) {
    a.username == b.username || (a.profileId.Some? && a.profileId == b.profileId)
  }

  /** The table keeps its unique columns. */
  predicate Unclashed(users: seq<CustomUser>) {
    forall i, j :: 0 <= i < j < |users| ==> !Clash(users[i], users[j])
  }

  /** `bulk_create(batch)` on a table holding `users` raises `IntegrityError`: a new row clashes with another row. */
  predicate BatchClashes(users: seq<CustomUser>, batch: seq<CustomUser>) {
    exists i, j :: 0 <= i < |users| + |batch| && 0 <= j < |batch| && i != |users| + j && Clash((users + batch)[i], batch[j])
  }

  /** A batch that raises nothing keeps the unique columns. */
  lemma UnclashedAppend(users: seq<CustomUser>, batch: seq<CustomUser>)
    requires Unclashed(users) && !BatchClashes(users, batch)
    ensures Unclashed(users + batch)
  {
    var all := users + batch;
    forall i, j | 0 <= i < j < |all| ensures !Clash(all[i], all[j]) {
      if j >= |users| {
        assert all[j] == batch[j - |users|];
        assert !Clash(all[i], batch[j - |users|]);
      } else {
        assert all[i] == users[i] && all[j] == users[j];
      }
    }
  }

  /**
   * How the outcome of row `row` changes the state: an error or a duplicate
   * is recorded; a user is buffered, and a full buffer is inserted into the
   * table holding `known`, or its insert raises and breaks the transaction.
   */
  function Apply(p: Progress, row: nat, outcome: Outcome, known: seq<CustomUser>): Progress {
    match outcome
    case Invalid(e) =>
      p.(rowCount := row, results := p.results.(errorCount := p.results.errorCount + 1, errors := p.results.errors + [e]))
    case Duplicated(d) =>
      p.(rowCount := row,
         results := p.results.(errorCount := p.results.errorCount + 1, duplicates := p.results.duplicates + [d]))
    case NewUser(u) =>
      var pending := p.pending + [u];
      if |pending| < BatchSize then p.(rowCount := row, pending := pending)
      else if BatchClashes(known, pending) then
        p.(rowCount := row, pending := pending, broken := true,
           results := p.results.(errorCount := p.results.errorCount + 1, errors := p.results.errors + [IntegrityFailed(row)]))
      else
        p.(rowCount := row, pending := [], flushed := p.flushed + pending,
           results := p.results.(successCount := p.results.successCount + |pending|))
  }

  /** A check of one record: its row number, the record, the users the transaction sees, whether it is broken. */
  type RowCheck = (nat, seq<string>, seq<CustomUser>, bool) -> Outcome

  /** The loop body's check for a file whose header is `fieldnames`: clean the record, then judge the row. */
  function CheckRows(fieldnames: seq<string>): RowCheck {
    (row: nat, record: seq<string>, known: seq<CustomUser>, broken: bool) =>
      RowOutcome(row, CleanRow(fieldnames, record), known, broken)
  }

  /** What the bookkeeping needs of a check: it admits no user into a broken transaction and reports only row errors. */
  ghost predicate Sound(check: RowCheck) {
    forall row, record, known, broken ::
      (check(row, record, known, broken).NewUser? ==> !broken) && check(row, record, known, broken) != Invalid(ImportFailed)
  }

  lemma CheckRowsSound(fieldnames: seq<string>)
    ensures Sound(CheckRows(fieldnames))
  {
    forall row, record, known, broken
      ensures (CheckRows(fieldnames)(row, record, known, broken).NewUser? ==> !broken)
      ensures CheckRows(fieldnames)(row, record, known, broken) != Invalid(ImportFailed)
    {
      var o := RowOutcome(row, CleanRow(fieldnames, record), known, broken);
      assert CheckRows(fieldnames)(row, record, known, broken) == o;
    }
  }

  /** The loop over the first `n` records; the reader skips empty records without counting them. */
  function ImportFold(stored: seq<CustomUser>, check: RowCheck, records: seq<seq<string>>, n: nat): Progress
    requires n <= |records|
  {
    if n == 0 then Progress(Results(0, 0, [], []), [], 0, false, [])
    else
      var prev := ImportFold(stored, check, records, n - 1);
      var record := records[n - 1];
      if record == [] then prev
      else
        var row := prev.rowCount + 1;
        var known := stored + prev.flushed;
        Apply(prev, row, check(row, record, known, prev.broken), known)
  }

  /** One more record: skipped when empty, otherwise its outcome applied to the state so far. */
  lemma ImportFoldNext(stored: seq<CustomUser>, check: RowCheck, records: seq<seq<string>>, i: nat, p: Progress)
    requires i < |records| && p == ImportFold(stored, check, records, i)
    ensures ImportFold(stored, check, records, i + 1)
      == if records[i] == [] then p
         else Apply(p, p.rowCount + 1, check(p.rowCount + 1, records[i], stored + p.flushed, p.broken), stored + p.flushed)
  {
  }

  /**
   * The end of the `atomic` block: the remaining buffer is inserted, or the
   * insert raises (a clash, or a transaction already broken), the whole
   * transaction is rolled back and the outer handler records one error.
   */
  function Finish(stored: seq<CustomUser>, p: Progress): (Results, seq<CustomUser>) {
    if p.pending != [] then
      if p.broken || BatchClashes(stored + p.flushed, p.pending) then
        (p.results.(errorCount := p.results.errorCount + 1, errors := p.results.errors + [ImportFailed]), stored)
      else (p.results.(successCount := p.results.successCount + |p.pending|), stored + p.flushed + p.pending)
    else if p.broken then (p.results, stored)
    else (p.results, stored + p.flushed)
  }

  /** `_process_merged_csv`: the reported results and the users table afterwards. */
  function Import(stored: seq<CustomUser>, header: Option<seq<string>>, records: seq<seq<string>>)
    : (Results, seq<CustomUser>)
  {
    var missing := MissingHeaders(header);
    if missing != [] || header.None? then (Results(0, 1, [HeadersMissing(missing)], []), stored)
    else Transaction(stored, CheckRows(header.value), records)
  }

  /** The `atomic` block: the row loop, then its end. */
  function Transaction(stored: seq<CustomUser>, check: RowCheck, records: seq<seq<string>>): (Results, seq<CustomUser>) {
    Finish(stored, ImportFold(stored, check, records, |records|))
  }

  /** The number of non-empty records among the first `n`: the rows the reader yields. */
  function RowsRead(records: seq<seq<string>>, n: nat): nat
    requires n <= |records|
  {
    if n == 0 then 0 else RowsRead(records, n - 1) + (if records[n - 1] == [] then 0 else 1)
  }

  /**
   * The bookkeeping of the loop: every row read is an error, a duplicate,
   * an inserted user or a buffered one (the row whose insert failed is both
   * an error and in the buffer); inserts happen in whole batches; a broken
   * transaction keeps a full buffer; only row errors are recorded.
   */
  predicate Counted(p: Progress, rows: nat) {
    p.results.errorCount == |p.results.errors| + |p.results.duplicates|
    && p.results.successCount == |p.flushed| && |p.flushed| % BatchSize == 0
    && p.rowCount == rows
    && rows + (if p.broken then 1 else 0) == p.results.errorCount + p.results.successCount + |p.pending|
    && (if p.broken then |p.pending| == BatchSize else |p.pending| < BatchSize)
    && ImportFailed !in p.results.errors
  }

  /** Applying a row's outcome keeps the bookkeeping; a broken transaction admits no new user. */
  lemma ApplyCounted(stored: seq<CustomUser>, p: Progress, outcome: Outcome, rows: nat)
    requires Counted(p, rows) && (outcome.NewUser? ==> !p.broken) && outcome != Invalid(ImportFailed)
    ensures Counted(Apply(p, p.rowCount + 1, outcome, stored + p.flushed), rows + 1)
  {
  }

  /** A batch is inserted only when it raises nothing, so the table keeps its unique columns. */
  lemma ApplyUnclashed(stored: seq<CustomUser>, p: Progress, row: nat, outcome: Outcome)
    requires Unclashed(stored + p.flushed)
    ensures Unclashed(stored + Apply(p, row, outcome, stored + p.flushed).flushed)
  {
    if outcome.NewUser? {
      var known := stored + p.flushed;
      var pending := p.pending + [outcome.user];
      if |pending| >= BatchSize && !BatchClashes(known, pending) {
        AppendAssoc(stored, p.flushed, pending);
        UnclashedAppend(known, pending);
      }
    }
  }

  /** One more record keeps the bookkeeping; a record the reader yields counts as a row. */
  lemma CountedNext(stored: seq<CustomUser>, check: RowCheck, records: seq<seq<string>>, i: nat, p: Progress, rows: nat)
    requires Sound(check) && i < |records| && p == ImportFold(stored, check, records, i) && Counted(p, rows)
    ensures Counted(ImportFold(stored, check, records, i + 1), rows + (if records[i] == [] then 0 else 1))
  {
    ImportFoldNext(stored, check, records, i, p);
    if records[i] != [] {
      ApplyCounted(stored, p, check(p.rowCount + 1, records[i], stored + p.flushed, p.broken), rows);
    }
  }

  /** The whole loop keeps the bookkeeping. */
  lemma {:induction false} ImportFoldCounted(stored: seq<CustomUser>, check: RowCheck, records: seq<seq<string>>, n: nat)
    requires n <= |records| && Sound(check)
    ensures Counted(ImportFold(stored, check, records, n), RowsRead(records, n))
    decreases n
  {
    if n > 0 {
      ImportFoldCounted(stored, check, records, n - 1);
      CountedNext(stored, check, records, n - 1, ImportFold(stored, check, records, n - 1), RowsRead(records, n - 1));
    }
  }

  /** The whole loop inserts nothing that breaks a unique column. */
  lemma {:induction false} ImportFoldUnclashed(stored: seq<CustomUser>, check: RowCheck, records: seq<seq<string>>, n: nat)
    requires n <= |records| && Unclashed(stored)
    ensures Unclashed(stored + ImportFold(stored, check, records, n).flushed)
    decreases n
  {
    if n == 0 {
      assert stored + [] == stored;
    } else {
      ImportFoldUnclashed(stored, check, records, n - 1);
      var prev := ImportFold(stored, check, records, n - 1);
      var record := records[n - 1];
      if record != [] {
        ApplyUnclashed(stored, prev, prev.rowCount + 1, check(prev.rowCount + 1, record, stored + prev.flushed, prev.broken));
      }
    }
  }

  /** The end of the transaction on a state the loop can reach. */
  lemma FinishOutcome(stored: seq<CustomUser>, p: Progress, rows: nat)
    requires Counted(p, rows)
    ensures var (results, users) := Finish(stored, p);
      results.errorCount == |results.errors| + |results.duplicates|
      && (Unclashed(stored + p.flushed) ==> Unclashed(users))
      && (ImportFailed in results.errors ==> users == stored && results.successCount % BatchSize == 0)
      && (ImportFailed !in results.errors ==>
            |users| == |stored| + results.successCount && users[..|stored|] == stored
            && results.successCount + results.errorCount == rows)
  {
    if p.pending != [] && !(p.broken || BatchClashes(stored + p.flushed, p.pending)) {
      AppendAssoc(stored, p.flushed, p.pending);
      if Unclashed(stored + p.flushed) {
        UnclashedAppend(stored + p.flushed, p.pending);
      }
    } else if p.pending == [] && !p.broken {
      assert (stored + p.flushed)[..|stored|] == stored;
    }
  }

  /** The transaction over all records, for any check the bookkeeping accepts. */
  lemma TransactionOutcome(stored: seq<CustomUser>, check: RowCheck, records: seq<seq<string>>)
    requires Sound(check)
    ensures var (results, users) := Transaction(stored, check, records);
      results.errorCount == |results.errors| + |results.duplicates|
      && (Unclashed(stored) ==> Unclashed(users))
      && (ImportFailed in results.errors ==> users == stored && results.successCount % BatchSize == 0)
      && (ImportFailed !in results.errors ==>
            |users| == |stored| + results.successCount && users[..|stored|] == stored
            && results.successCount + results.errorCount == RowsRead(records, |records|))
  {
    ImportFoldCounted(stored, check, records, |records|);
    if Unclashed(stored) {
      ImportFoldUnclashed(stored, check, records, |records|);
    }
    FinishOutcome(stored, ImportFold(stored, check, records, |records|), RowsRead(records, |records|));
  }

  /**
   * What the import reports and leaves behind. Missing headers create
   * nothing and record one error. A failed final insert rolls everything
   * back, yet `success_count` still counts the batches inserted before it.
   * Otherwise the new users follow the old ones and every row read is
   * either a created user or an error. The unique columns are kept.
   */
  lemma ImportOutcome(stored: seq<CustomUser>, header: Option<seq<string>>, records: seq<seq<string>>)
    ensures var (results, users) := Import(stored, header, records);
      results.errorCount == |results.errors| + |results.duplicates|
      && (Unclashed(stored) ==> Unclashed(users))
      && (MissingHeaders(header) != [] ==>
            results == Results(0, 1, [HeadersMissing(MissingHeaders(header))], []) && users == stored)
      && (ImportFailed in results.errors ==> users == stored && results.successCount % BatchSize == 0)
      && (MissingHeaders(header) == [] && ImportFailed !in results.errors ==>
            |users| == |stored| + results.successCount && users[..|stored|] == stored
            && results.successCount + results.errorCount == RowsRead(records, |records|))
  {
    if MissingHeaders(header) == [] {
      assert "username" in MissingHeaders(header) <==> !HeaderHas(header, "username");
      CheckRowsSound(header.value);
      TransactionOutcome(stored, CheckRows(header.value), records);
      assert Import(stored, header, records) == Transaction(stored, CheckRows(header.value), records);
    }
  }

  /** The users table. */
  class UserTable {
    var users: seq<CustomUser>

    constructor(users: seq<CustomUser>)
      ensures this.users == users
    {
      this.users := users;
    }

    /**
     * `add_user` on a POST: reject blank fields, a taken username, then a
     * taken e-mail; otherwise create the user, unless the insert raises.
     * A rejection leaves the table as it was.
     */
    method AddUser(form: UserForm) returns (r: AddUserResult)
      modifies this
      ensures r == AddUserOutcome(old(users), form)
      ensures users == if r.Created? then old(users) + [r.user] else old(users)
    {
      var username := Posted(form.username);
      var email := Posted(form.email);
      if username == "" || email == "" {
        return FieldsRequired;
      }
      if UsernameTaken(users, username) {
        return UsernameExists(username);
      }
      if EmailTaken(users, email) {
        return EmailExists(email);
      }
      var user := FormUser(users, form);
      if BatchClashes(users, [user]) {
        return CreateFailed;
      }
      users := users + [user];
      return Created(user);
    }
  }

  /**
   * The body of the row loop for one row the reader yields: count it, check
   * it, record its error or duplicate or buffer its user, and insert a full
   * buffer into the table when that raises nothing.
   */
  method ProcessRow(table: UserTable, check: RowCheck, record: seq<string>,
                    results0: Results, pending0: seq<CustomUser>, rowCount0: nat, broken0: bool, ghost flushed0: seq<CustomUser>)
    returns (results: Results, pending: seq<CustomUser>, rowCount: nat, broken: bool, ghost flushed: seq<CustomUser>)
    modifies table
    ensures Progress(results, pending, rowCount, broken, flushed)
      == Apply(Progress(results0, pending0, rowCount0, broken0, flushed0), rowCount0 + 1,
               check(rowCount0 + 1, record, old(table.users), broken0), old(table.users))
    ensures table.users == old(table.users) + (flushed[|flushed0|..])
    ensures |flushed0| <= |flushed| && flushed[..|flushed0|] == flushed0
  {
    results, pending, broken, flushed := results0, pending0, broken0, flushed0;
    rowCount := rowCount0 + 1;
    var known := table.users;
    var outcome := check(rowCount, record, known, broken);
    if outcome.Invalid? {
      results := results.(errorCount := results.errorCount + 1, errors := results.errors + [outcome.error]);
    } else if outcome.Duplicated? {
      results := results.(errorCount := results.errorCount + 1, duplicates := results.duplicates + [outcome.entry]);
    } else {
      pending := pending + [outcome.user];
      if |pending| >= BatchSize {
        if BatchClashes(known, pending) {
          results := results.(errorCount := results.errorCount + 1, errors := results.errors + [IntegrityFailed(rowCount)]);
          broken := true;
        } else {
          table.users := known + pending;
          flushed := flushed + pending;
          assert flushed[|flushed0|..] == pending;
          results := results.(successCount := results.successCount + |pending|);
          pending := [];
        }
      }
    }
  }

  /** The row loop inside the transaction, over every record; the reader skips empty records. */
  method InsertRows(table: UserTable, check: RowCheck, records: seq<seq<string>>)
    returns (results: Results, pending: seq<CustomUser>, rowCount: nat, broken: bool, ghost flushed: seq<CustomUser>)
    modifies table
    ensures Progress(results, pending, rowCount, broken, flushed) == ImportFold(old(table.users), check, records, |records|)
    ensures table.users == old(table.users) + flushed
  {
    ghost var stored := table.users;
    flushed := [];
    results := Results(0, 0, [], []);
    pending := [];
    rowCount := 0;
    broken := false;
    var i := 0;
    while i < |records|
      invariant 0 <= i <= |records|
      invariant Progress(results, pending, rowCount, broken, flushed) == ImportFold(stored, check, records, i)
      invariant table.users == stored + flushed
    {
      ghost var p := Progress(results, pending, rowCount, broken, flushed);
      var record := records[i];
      if record != [] {
        results, pending, rowCount, broken, flushed := ProcessRow(table, check, record, results, pending, rowCount, broken, flushed);
        assert Progress(results, pending, rowCount, broken, flushed) == ImportFold(stored, check, records, i + 1) by {
          ImportFoldNext(stored, check, records, i, p);
        }
        assert table.users == stored + flushed by {
          AppendAssoc(stored, p.flushed, flushed[|p.flushed|..]);
          assert flushed == p.flushed + flushed[|p.flushed|..];
        }
      } else {
        assert p == ImportFold(stored, check, records, i + 1) by {
          ImportFoldNext(stored, check, records, i, p);
        }
      }
      i := i + 1;
    }
  }

  /** The `atomic` block on the table: the row loop, then the final insert of the buffer or the rollback. */
  method RunTransaction(table: UserTable, check: RowCheck, records: seq<seq<string>>) returns (results: Results)
    modifies table
    ensures (results, table.users) == Transaction(old(table.users), check, records)
  {
    var stored := table.users;
    var pending, rowCount, broken;
    ghost var flushed;
    results, pending, rowCount, broken, flushed := InsertRows(table, check, records);
    if pending != [] {
      if broken || BatchClashes(table.users, pending) {
        table.users := stored;
        results := results.(errorCount := results.errorCount + 1, errors := results.errors + [ImportFailed]);
        return;
      }
      table.users := table.users + pending;
      results := results.(successCount := results.successCount + |pending|);
    } else if broken {
      table.users := stored;
    }
  }

  /**
   * `_process_merged_csv(file)` on the table: the header check, then the
   * transaction over the records.
   */
  method ProcessMergedCsv(table: UserTable, header: Option<seq<string>>, records: seq<seq<string>>)
    returns (results: Results)
    modifies table
    ensures (results, table.users) == Import(old(table.users), header, records)
  {
    var missing := MissingHeaders(header);
    if missing != [] || header.None? {
      return Results(0, 1, [HeadersMissing(missing)], []);
    }
    results := RunTransaction(table, CheckRows(header.value), records);
  }

  /** The POST data of the add-user form; a field the browser did not send is absent. */
  datatype UserForm = UserForm(
    username: Option<string>,
    email: Option<string>,
    proxyAddress: Option<string>,
    isConnected: Option<string>,
    isActiveProfile: Option<string>,
    tempPassword: Option<string>)

  /** `request.POST.get(name, '').strip()`. */
  function Posted(v: Option<string>): string {
    Strip(if v.Some? then v.value else "")
  }

  /** The message `add_user` shows, with the user it created. */
  datatype AddUserResult =
    | Created(user: CustomUser)
    | FieldsRequired            // "Username and email are required."
    | UsernameExists(username: string)
    | EmailExists(email: string)
    | CreateFailed              // `create` raised: the unique `profile_id` is taken

  /**
   * The row `CustomUser.objects.create` inserts: stripped texts, an empty
   * proxy address stored as null, checkboxes that are on only when sent as
   * "on", and the profile id numbered after the current user count.
   */
  function FormUser(users: seq<CustomUser>, form: UserForm): (u: CustomUser)
    ensures u.username == Posted(form.username) && u.email == Posted(form.email)
    ensures u.proxyAddress == None <==> Posted(form.proxyAddress) == ""
    ensures u.proxyAddress != None ==> u.proxyAddress == Some(Posted(form.proxyAddress))
    ensures u.isConnected <==> form.isConnected == Some("on")
    ensures u.isActiveProfile <==> form.isActiveProfile == Some("on")
    ensures u.profileId == Some(u.username + "_" + NatToString(|users| + 1))
    ensures u.password == NoPassword <==> Posted(form.tempPassword) == ""
    ensures u.password != NoPassword ==> u.password == GivenPassword(Posted(form.tempPassword))
  {
    var username := Posted(form.username);
    var address := Posted(form.proxyAddress);
    var password := Posted(form.tempPassword);
    CustomUser(
      username, Posted(form.email),
      if address == "" then None else Some(address),
      form.isConnected == Some("on"), form.isActiveProfile == Some("on"),
      Some(username + "_" + NatToString(|users| + 1)),
      if password == "" then NoPassword else GivenPassword(password))
  }

  /**
   * `add_user`: a user is created exactly when both required fields are
   * non-blank, neither the username nor the e-mail is taken, and the new
   * row clashes with no unique column; the rejections come in that order.
   */
  function AddUserOutcome(users: seq<CustomUser>, form: UserForm): (r: AddUserResult)
    ensures r == FieldsRequired <==> Posted(form.username) == "" || Posted(form.email) == ""
    ensures r.UsernameExists? <==>
      Posted(form.username) != "" && Posted(form.email) != "" && UsernameTaken(users, Posted(form.username))
    ensures r.EmailExists? <==>
      Posted(form.username) != "" && Posted(form.email) != "" && !UsernameTaken(users, Posted(form.username))
      && EmailTaken(users, Posted(form.email))
    ensures r.Created? <==>
      Posted(form.username) != "" && Posted(form.email) != "" && !UsernameTaken(users, Posted(form.username))
      && !EmailTaken(users, Posted(form.email)) && !BatchClashes(users, [FormUser(users, form)])
    ensures r.Created? ==> r.user == FormUser(users, form)
  {
    var username := Posted(form.username);
    var email := Posted(form.email);
    if username == "" || email == "" then FieldsRequired
    else if UsernameTaken(users, username) then UsernameExists(username)
    else if EmailTaken(users, email) then EmailExists(email)
    else if BatchClashes(users, [FormUser(users, form)]) then CreateFailed
    else Created(FormUser(users, form))
  }

  /** Creating a user keeps the unique columns of the table. */
  lemma AddUserUnclashed(users: seq<CustomUser>, form: UserForm)
    requires Unclashed(users)
    ensures AddUserOutcome(users, form).Created? ==> Unclashed(users + [AddUserOutcome(users, form).user])
  {
    if AddUserOutcome(users, form).Created? {
      UnclashedAppend(users, [FormUser(users, form)]);
    }
  }

  /** Sending the same form again after it created a user is rejected for the taken username. */
  lemma AddUserTwice(users: seq<CustomUser>, form: UserForm)
    requires AddUserOutcome(users, form).Created?
    ensures AddUserOutcome(users + [AddUserOutcome(users, form).user], form) == UsernameExists(Posted(form.username))
  {
    var u := AddUserOutcome(users, form).user;
    assert u in users + [u];
  }
}
