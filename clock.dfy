/**
 * Wall-clock instants and their two text forms: Python's
 * `datetime.isoformat()` (`YYYY-MM-DDTHH:MM:SS` for a whole second) and
 * SQLite's `datetime('now')` (`YYYY-MM-DD HH:MM:SS`).
 */
module Clock {
  import opened Text

  /** Whole seconds since 1970-01-01 00:00:00. */
  type Timestamp = nat

  /** The proleptic Gregorian (year, month, day) of a day number counted from 1970-01-01. */
  function CivilFromDays(days: int): (int, int, int) {
    var z := days + 719468;
    var era := z / 146097;
    var doe := z - era * 146097;
    var yoe := (doe - doe / 1460 + doe / 36524 - doe / 146096) / 365;
    var doy := doe - (365 * yoe + yoe / 4 - yoe / 100);
    var mp := (5 * doy + 2) / 153;
    var d := doy - (153 * mp + 2) / 5 + 1;
    var m := if mp < 10 then mp + 3 else mp - 9;
    (if m <= 2 then yoe + era * 400 + 1 else yoe + era * 400, m, d)
  }

  /** `n` in decimal, left-padded with zeros to `width` digits. */
  function Pad(n: int, width: nat): string {
    var digits := IntToString(n);
    if |digits| < width then seq(width - |digits|, _ => '0') + digits else digits
  }

  /** `YYYY-MM-DD`, shared by both forms. */
  function DateText(t: Timestamp): string {
    var (y, m, d) := CivilFromDays(t / 86400);
    Pad(y, 4) + "-" + Pad(m, 2) + "-" + Pad(d, 2)
  }

  function TimeText(t: Timestamp): string {
    var s := t % 86400;
    Pad(s / 3600, 2) + ":" + Pad(s % 3600 / 60, 2) + ":" + Pad(s % 60, 2)
  }

  function IsoFormat(t: Timestamp): string {
    DateText(t) + "T" + TimeText(t)
  }

  function SqliteDatetime(t: Timestamp): string {
    DateText(t) + " " + TimeText(t)
  }

  /** Text comparison skips a shared prefix. */
  lemma {:induction false} TextLeSharedPrefix(p: string, a: string, b: string)
    ensures TextLe(p + a, p + b) == TextLe(a, b)
  {
    if p != [] {
      assert (p + a)[1..] == p[1..] + a;
      assert (p + b)[1..] == p[1..] + b;
      TextLeSharedPrefix(p[1..], a, b);
    } else {
      assert p + a == a && p + b == b;
    }
  }

  /**
   * Within one calendar day the `isoformat` text of an instant is never
   * `<=` the `datetime('now')` text of another: after the shared date the
   * separator `'T'` sorts above `' '`.
   */
  lemma SameDayIsoAboveSqlite(t: Timestamp, now: Timestamp)
    requires t / 86400 == now / 86400
    ensures !TextLe(IsoFormat(t), SqliteDatetime(now))
  {
    var p := DateText(t);
    assert DateText(now) == p;
    assert IsoFormat(t) == p + ("T" + TimeText(t));
    assert SqliteDatetime(now) == p + (" " + TimeText(now));
    TextLeSharedPrefix(p, "T" + TimeText(t), " " + TimeText(now));
  }
}
