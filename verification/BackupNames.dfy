// The names of dumps in scripts/backup_db.py: atp-<database>-<stamp>.dump, how they are taken apart
// again, and the order they are listed in.
module BackupNames {
  import opened Common

  // ---------------------------------------------------------------- strings as Python orders them

  predicate Before(a: string, b: string) {
    b != [] && (a == [] || a[0] < b[0] || (a[0] == b[0] && Before(a[1..], b[1..])))
  }

  lemma {:induction false} BeforeIsTotal(a: string, b: string)
    ensures (Before(a, b) || Before(b, a)) <==> a != b
    ensures !(Before(a, b) && Before(b, a))
  {
    if a != [] && b != [] && a[0] == b[0] {
      BeforeIsTotal(a[1..], b[1..]);
      assert a == [a[0]] + a[1..] && b == [b[0]] + b[1..];
    }
  }

  lemma {:induction false} BeforeIsTransitive(a: string, b: string, c: string)
    requires Before(a, b) && Before(b, c)
    ensures Before(a, c)
  {
    if a != [] && a[0] == b[0] == c[0] {
      BeforeIsTransitive(a[1..], b[1..], c[1..]);
    }
  }

  lemma {:induction false} CommonPrefix(p: string, a: string, b: string)
    ensures Before(p + a, p + b) <==> Before(a, b)
  {
    if p == [] {
      assert p + a == a && p + b == b;
    } else {
      assert (p + a)[1..] == p[1..] + a && (p + b)[1..] == p[1..] + b;
      CommonPrefix(p[1..], a, b);
    }
  }

  lemma {:induction false} FirstDifference(p: string, q: string, a: string, b: string)
    requires |p| == |q| && Before(p, q)
    ensures Before(p + a, q + b)
  {
    if p[0] == q[0] {
      assert (p + a)[1..] == p[1..] + a && (q + b)[1..] == q[1..] + b;
      FirstDifference(p[1..], q[1..], a, b);
    }
  }

  // ---------------------------------------------------------------- building and parsing a name

  const PREFIX := "atp-"
  const SUFFIX := ".dump"

  function Stem(database: string, stamp: string): string {
    PREFIX + database + "-" + stamp
  }

  function FileName(database: string, stamp: string): string {
    Stem(database, stamp) + SUFFIX
  }

  predicate EndsWith(s: string, suffix: string) {
    |suffix| <= |s| && s[|s| - |suffix|..] == suffix
  }

  function RemoveSuffix(s: string, suffix: string): string {
    if EndsWith(s, suffix) then s[..|s| - |suffix|] else s
  }

  // Where the last dash stands, or -1.
  function LastDash(s: string): (k: int)
    ensures -1 <= k < |s|
    ensures k >= 0 ==> s[k] == '-'
    ensures forall i :: k < i < |s| ==> s[i] != '-'
  {
    if s == [] then -1
    else if s[|s| - 1] == '-' then |s| - 1
    else LastDash(s[..|s| - 1])
  }

  function ParseName(name: string): Option<(string, string)> {
    var stem := RemoveSuffix(name, SUFFIX);
    if !(PREFIX <= stem) then None
    else
      var rest := stem[|PREFIX|..];
      var k := LastDash(rest);
      if k < 0 || k == 0 || k == |rest| - 1 then None else Some((rest[..k], rest[k + 1..]))
  }

  predicate Nameable(database: string, stamp: string) {
    database != "" && stamp != "" && '-' !in stamp
  }

  lemma ParsedIsNamed(name: string)
    requires ParseName(name).Some?
    ensures var (database, stamp) := ParseName(name).value;
            Nameable(database, stamp) && RemoveSuffix(name, SUFFIX) == Stem(database, stamp)
  {
    var stem := RemoveSuffix(name, SUFFIX);
    var rest := stem[|PREFIX|..];
    var k := LastDash(rest);
    assert rest == rest[..k] + "-" + rest[k + 1..];
    assert stem == PREFIX + rest;
  }

  lemma StemIsParsed(database: string, stamp: string, stem: string)
    requires Nameable(database, stamp) && stem == Stem(database, stamp)
    ensures PREFIX <= stem
    ensures var rest := stem[|PREFIX|..];
            && rest == database + "-" + stamp && LastDash(rest) == |database| < |rest| - 1
            && rest[..|database|] == database && rest[|database| + 1..] == stamp
  {
    var rest := database + "-" + stamp;
    assert stem == PREFIX + rest;
    assert rest[|database|] == '-';
    assert forall i :: |database| < i < |rest| ==> rest[i] == stamp[i - |database| - 1];
  }

  // Parsing inverts naming, whatever the file: what comes out is a pair the name, up to its suffix, is
  // built from, and the only one.
  lemma ParseInvertsNaming(name: string, database: string, stamp: string)
    ensures ParseName(name) == Some((database, stamp)) <==>
            Nameable(database, stamp) && RemoveSuffix(name, SUFFIX) == Stem(database, stamp)
  {
    if ParseName(name).Some? {
      ParsedIsNamed(name);
    }
    if Nameable(database, stamp) && RemoveSuffix(name, SUFFIX) == Stem(database, stamp) {
      StemIsParsed(database, stamp, RemoveSuffix(name, SUFFIX));
    }
  }

  // A dump's name gives its database and stamp back, dashes in the database and all, exactly when
  // both are non-empty and the stamp has no dash.
  lemma NameRoundTrip(database: string, stamp: string)
    ensures ParseName(FileName(database, stamp)) == Some((database, stamp)) <==> Nameable(database, stamp)
  {
    var stem, name := Stem(database, stamp), FileName(database, stamp);
    assert name == stem + SUFFIX;
    assert name[|name| - |SUFFIX|..] == SUFFIX && name[..|stem|] == stem;
    ParseInvertsNaming(name, database, stamp);
  }

  // ---------------------------------------------------------------- stamps

  datatype Instant = Instant(year: nat, month: nat, day: nat, hour: nat, minute: nat, second: nat)

  predicate IsLeap(year: nat) {
    year % 4 == 0 && (year % 100 != 0 || year % 400 == 0)
  }

  function DaysIn(year: nat, month: nat): nat {
    if month == 2 then (if IsLeap(year) then 29 else 28)
    else if month in {4, 6, 9, 11} then 30 else 31
  }

  // A UTC date and time the format writes at full width.
  predicate IsInstant(t: Instant) {
    && 1000 <= t.year <= 9999 && 1 <= t.month <= 12 && 1 <= t.day <= DaysIn(t.year, t.month)
    && t.hour < 24 && t.minute < 60 && t.second < 60
  }

  function Digits(width: nat, n: nat): (s: string)
    ensures |s| == width
    ensures forall i :: 0 <= i < width ==> '0' <= s[i] <= '9'
  {
    if width == 0 then [] else Digits(width - 1, n / 10) + ['0' + (n % 10) as char]
  }

  // %Y%m%dT%H%M%SZ
  function Stamp(t: Instant): string {
    Digits(4, t.year) + (Digits(2, t.month) + (Digits(2, t.day) + ("T" + TimeStamp(t))))
  }

  function TimeStamp(t: Instant): string {
    Digits(2, t.hour) + (Digits(2, t.minute) + (Digits(2, t.second) + "Z"))
  }

  function Power10(n: nat): nat {
    if n == 0 then 1 else 10 * Power10(n - 1)
  }

  lemma {:induction false} DigitsInOrder(width: nat, n: nat, m: nat)
    requires n < m < Power10(width)
    ensures Before(Digits(width, n), Digits(width, m))
  {
    if width > 0 {
      var p, q := Digits(width - 1, n / 10), Digits(width - 1, m / 10);
      if n / 10 == m / 10 {
        assert n % 10 < m % 10;
        CommonPrefix(p, ['0' + (n % 10) as char], ['0' + (m % 10) as char]);
      } else {
        DigitsInOrder(width - 1, n / 10, m / 10);
        FirstDifference(p, q, ['0' + (n % 10) as char], ['0' + (m % 10) as char]);
      }
    }
  }

  // One field at a time: the larger number decides, equal numbers leave it to the rest.
  lemma FieldDecides(width: nat, n: nat, m: nat, a: string, b: string)
    requires n < Power10(width) && m < Power10(width)
    ensures Before(Digits(width, n) + a, Digits(width, m) + b) <==> n < m || (n == m && Before(a, b))
  {
    if n < m {
      DigitsInOrder(width, n, m);
      FirstDifference(Digits(width, n), Digits(width, m), a, b);
    } else if m < n {
      DigitsInOrder(width, m, n);
      FirstDifference(Digits(width, m), Digits(width, n), b, a);
      BeforeIsTotal(Digits(width, n) + a, Digits(width, m) + b);
    } else {
      CommonPrefix(Digits(width, n), a, b);
    }
  }

  // ---- the calendar

  function DaysBeforeMonth(year: nat, month: nat): nat
    requires 1 <= month <= 13
  {
    if month == 1 then 0 else DaysBeforeMonth(year, month - 1) + DaysIn(year, month - 1)
  }

  function DaysBeforeYear(year: nat): nat {
    if year == 0 then 0 else DaysBeforeYear(year - 1) + DaysBeforeMonth(year - 1, 13)
  }

  // Days since the start of year 0 of the proleptic Gregorian calendar.
  function Day(t: Instant): int
    requires IsInstant(t)
  {
    DaysBeforeYear(t.year) + DaysBeforeMonth(t.year, t.month) + t.day - 1
  }

  // The instant on the time line, in seconds.
  function Seconds(t: Instant): int
    requires IsInstant(t)
  {
    Day(t) * 86400 + t.hour * 3600 + t.minute * 60 + t.second
  }

  lemma {:induction false} MonthsInOrder(year: nat, m: nat, n: nat)
    requires 1 <= m < n <= 13
    ensures DaysBeforeMonth(year, m) + DaysIn(year, m) <= DaysBeforeMonth(year, n)
  {
    if m < n - 1 {
      MonthsInOrder(year, m, n - 1);
    }
  }

  lemma {:induction false} YearsInOrder(a: nat, b: nat)
    requires a < b
    ensures DaysBeforeYear(a) + DaysBeforeMonth(a, 13) <= DaysBeforeYear(b)
  {
    if a < b - 1 {
      YearsInOrder(a, b - 1);
    }
  }

  predicate EarlierDate(t: Instant, u: Instant) {
    || t.year < u.year
    || (t.year == u.year && (t.month < u.month || (t.month == u.month && t.day < u.day)))
  }

  lemma EarlierDateEarlierDay(t: Instant, u: Instant)
    requires IsInstant(t) && IsInstant(u) && EarlierDate(t, u)
    ensures Day(t) < Day(u)
  {
    if t.year < u.year {
      YearsInOrder(t.year, u.year);
      MonthsInOrder(t.year, t.month, 13);
    } else if t.month < u.month {
      MonthsInOrder(t.year, t.month, u.month);
    }
  }

  predicate EarlierTime(t: Instant, u: Instant) {
    || t.hour < u.hour
    || (t.hour == u.hour && (t.minute < u.minute || (t.minute == u.minute && t.second < u.second)))
  }

  lemma SecondsInOrder(t: Instant, u: Instant)
    requires IsInstant(t) && IsInstant(u)
    ensures Seconds(t) < Seconds(u) <==>
            EarlierDate(t, u) || (!EarlierDate(u, t) && EarlierTime(t, u))
  {
    if EarlierDate(t, u) {
      EarlierDateEarlierDay(t, u);
    } else if EarlierDate(u, t) {
      EarlierDateEarlierDay(u, t);
    }
  }

  lemma TwoDigits()
    ensures Power10(2) == 100 && Power10(4) == 10000
  {
  }

  lemma TimesSort(t: Instant, u: Instant)
    requires IsInstant(t) && IsInstant(u)
    ensures Before(TimeStamp(t), TimeStamp(u)) <==> EarlierTime(t, u)
  {
    TwoDigits();
    var t1, u1 := Digits(2, t.second) + "Z", Digits(2, u.second) + "Z";
    BeforeIsTotal("Z", "Z");
    FieldDecides(2, t.second, u.second, "Z", "Z");
    FieldDecides(2, t.minute, u.minute, t1, u1);
    FieldDecides(2, t.hour, u.hour, Digits(2, t.minute) + t1, Digits(2, u.minute) + u1);
  }

  lemma DatesSort(t: Instant, u: Instant)
    requires IsInstant(t) && IsInstant(u)
    ensures Before(Stamp(t), Stamp(u)) <==>
            EarlierDate(t, u) || (!EarlierDate(u, t) && Before(TimeStamp(t), TimeStamp(u)))
  {
    TwoDigits();
    var t0, u0 := "T" + TimeStamp(t), "T" + TimeStamp(u);
    var t1, u1 := Digits(2, t.day) + t0, Digits(2, u.day) + u0;
    CommonPrefix("T", TimeStamp(t), TimeStamp(u));
    FieldDecides(2, t.day, u.day, t0, u0);
    FieldDecides(2, t.month, u.month, t1, u1);
    FieldDecides(4, t.year, u.year, Digits(2, t.month) + t1, Digits(2, u.month) + u1);
  }

  // Stamps sort as strings the way their instants follow one another in time.
  lemma StampsSortByTime(t: Instant, u: Instant)
    requires IsInstant(t) && IsInstant(u)
    ensures Before(Stamp(t), Stamp(u)) <==> Seconds(t) < Seconds(u)
  {
    TimesSort(t, u);
    DatesSort(t, u);
    SecondsInOrder(t, u);
  }

  lemma StampIsNameable(database: string, t: Instant)
    requires database != ""
    ensures Nameable(database, Stamp(t))
  {
  }

  // ---------------------------------------------------------------- the listing

  // A dump file with the two halves of its name, both empty for a name this tool did not write.
  datatype Dump = Dump(name: string, database: string, stamp: string)

  function AsDump(name: string): Dump {
    match ParseName(name)
    case Some((database, stamp)) => Dump(name, database, stamp)
    case None => Dump(name, "", "")
  }

  // Listed earlier: a later stamp, or the same stamp and the greater name.
  predicate Newer(a: Dump, b: Dump) {
    Before(b.stamp, a.stamp) || (a.stamp == b.stamp && Before(b.name, a.name))
  }

  lemma NewerIsTotal(a: Dump, b: Dump)
    ensures (Newer(a, b) || Newer(b, a)) <==> a.stamp != b.stamp || a.name != b.name
    ensures !(Newer(a, b) && Newer(b, a))
  {
    BeforeIsTotal(a.stamp, b.stamp);
    BeforeIsTotal(a.name, b.name);
  }

  lemma NewerIsTransitive(a: Dump, b: Dump, c: Dump)
    requires Newer(a, b) && Newer(b, c)
    ensures Newer(a, c)
  {
    if Before(b.stamp, a.stamp) && Before(c.stamp, b.stamp) {
      BeforeIsTransitive(c.stamp, b.stamp, a.stamp);
    } else if a.stamp == b.stamp == c.stamp {
      BeforeIsTransitive(c.name, b.name, a.name);
    }
  }

  // Files this tool did not name are one group of their own, listed after every one it did; equal stamps are listed in
  // descending order of the whole name.
  lemma UnrecognisedComeLast(a: string, b: string, c: string)
    requires ParseName(a).Some? && ParseName(b).None? && ParseName(c).None?
    ensures Newer(AsDump(a), AsDump(b)) && !Newer(AsDump(b), AsDump(a))
    ensures AsDump(b).database == AsDump(c).database != AsDump(a).database
  {
    ParsedIsNamed(a);
  }

  lemma EqualStampsByName()
    ensures Newer(AsDump("b.dump"), AsDump("a.dump")) && !Newer(AsDump("a.dump"), AsDump("b.dump"))
  {
    assert !(PREFIX <= RemoveSuffix("a.dump", SUFFIX)) && !(PREFIX <= RemoveSuffix("b.dump", SUFFIX));
    assert "b.dump"[0] > "a.dump"[0];
  }

  // Among the dumps `cmd_create` writes, newer means later in time, and dumps compete for the same
  // retention slots exactly when they are of the same database.
  lemma WrittenDumps(d1: string, t: Instant, d2: string, u: Instant, a: Dump, b: Dump)
    requires d1 != "" && d2 != "" && IsInstant(t) && IsInstant(u)
    requires a == AsDump(FileName(d1, Stamp(t))) && b == AsDump(FileName(d2, Stamp(u)))
    ensures a.database == b.database <==> d1 == d2
    ensures Seconds(t) > Seconds(u) ==> Newer(a, b)
    ensures Newer(a, b) ==> Seconds(t) >= Seconds(u)
  {
    StampsSortByTime(t, u);
    StampsSortByTime(u, t);
    StampIsNameable(d1, t);
    StampIsNameable(d2, u);
    NameRoundTrip(d1, Stamp(t));
    NameRoundTrip(d2, Stamp(u));
    BeforeIsTotal(Stamp(t), Stamp(u));
  }
}
