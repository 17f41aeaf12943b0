// The comparison `verify` makes in scripts/backup_db.py: _compare, and the row counts cmd_create
// takes on either side of the dump.
module RestoreCheck {
  import opened Common
  import opened BackupNames

  // What a database holds, as far as the comparison looks: rows per table, hypertables and
  // compression policies.
  datatype Contents = Contents(rows: map<string, nat>, hypertables: set<string>, jobs: nat)

  datatype Manifest = Manifest(before: map<string, nat>, after: map<string, nat>,
                               hypertables: set<string>, jobs: nat)

  datatype Failure =
    | DidNotComeBack(table: string)
    | WrongRows(table: string, got: nat, low: nat, high: nat)
    | OrdinaryTable(table: string)
    | PoliciesLost(dumped: nat)

  function Expected(m: Manifest): set<string> {
    m.before.Keys + m.after.Keys
  }

  function CountedBefore(m: Manifest, table: string): nat {
    if table in m.before then m.before[table] else 0
  }

  function CountedAfter(m: Manifest, table: string): nat {
    if table in m.after then m.after[table] else CountedBefore(m, table)
  }

  function Low(m: Manifest, table: string): nat {
    if CountedAfter(m, table) < CountedBefore(m, table) then CountedAfter(m, table) else CountedBefore(m, table)
  }

  function High(m: Manifest, table: string): nat {
    if CountedAfter(m, table) < CountedBefore(m, table) then CountedBefore(m, table) else CountedAfter(m, table)
  }

  // What is to be reported, failure by failure.
  predicate Wrong(c: Contents, m: Manifest, f: Failure) {
    match f
    case DidNotComeBack(t) => t in Expected(m) && t !in c.rows
    case WrongRows(t, got, low, high) =>
      && t in Expected(m) && t in c.rows && got == c.rows[t] && low == Low(m, t) && high == High(m, t)
      && !(low <= got <= high)
    case OrdinaryTable(t) => t in m.hypertables && t !in c.hypertables
    case PoliciesLost(n) => n == m.jobs && n > 0 && c.jobs == 0
  }

  // The order of the report: by kind, and within a kind by table, as Python sorts strings.
  function Kind(f: Failure): nat {
    match f
    case DidNotComeBack(_) => 0
    case WrongRows(_, _, _, _) => 1
    case OrdinaryTable(_) => 2
    case PoliciesLost(_) => 3
  }

  predicate Precedes(f: Failure, g: Failure) {
    Kind(f) < Kind(g) || (Kind(f) == Kind(g) && !f.PoliciesLost? && Before(f.table, g.table))
  }

  ghost predicate InOrder(failures: seq<Failure>) {
    forall i, j :: 0 <= i < j < |failures| ==> Precedes(failures[i], failures[j])
  }

  ghost predicate IsReport(failures: seq<Failure>, c: Contents, m: Manifest, kinds: set<nat>) {
    InOrder(failures) && forall f :: f in failures <==> Kind(f) in kinds && Wrong(c, m, f)
  }

  lemma Joined(a: seq<Failure>, b: seq<Failure>, c: Contents, m: Manifest, upTo: set<nat>, k: nat)
    requires IsReport(a, c, m, upTo) && IsReport(b, c, m, {k}) && forall i :: i in upTo ==> i < k
    ensures IsReport(a + b, c, m, upTo + {k})
  {
    forall i, j | 0 <= i < j < |a + b| ensures Precedes((a + b)[i], (a + b)[j]) {
      assert (a + b)[i] in a || i >= |a|;
      assert j < |a| || (a + b)[j] in b;
    }
  }

  // Every counted table is there with a number of rows between its two counts, every hypertable is one
  // again, and where there were compression policies there are some. A table missing from the first
  // count has a first count of zero; one missing from the second has its first count again.
  ghost predicate Matches(c: Contents, m: Manifest) {
    && (forall t :: t in m.before || t in m.after ==>
          && t in c.rows
          && var first := if t in m.before then m.before[t] else 0;
             var second := if t in m.after then m.after[t] else first;
             Min(first, second) <= c.rows[t] <= Max(first, second))
    && (forall t :: t in m.hypertables ==> t in c.hypertables)
    && (m.jobs > 0 ==> c.jobs > 0)
  }

  // Kind by kind, what is reported of a table and of the policies.
  lemma WrongByKind(c: Contents, m: Manifest, t: string, got: nat, low: nat, high: nat)
    ensures Wrong(c, m, DidNotComeBack(t)) <==> (t in m.before || t in m.after) && t !in c.rows
    ensures Wrong(c, m, OrdinaryTable(t)) <==> t in m.hypertables && t !in c.hypertables
    ensures Wrong(c, m, PoliciesLost(got)) <==> got == m.jobs > 0 && c.jobs == 0
    ensures Wrong(c, m, WrongRows(t, got, low, high)) <==>
            && (t in m.before || t in m.after) && t in c.rows && got == c.rows[t] && (got < low || high < got)
            && var first := if t in m.before then m.before[t] else 0;
               var second := if t in m.after then m.after[t] else first;
               low == Min(first, second) && high == Max(first, second)
  {
  }

  // A restored database is faulted for nothing exactly when it matches.
  lemma NothingWrongExactly(c: Contents, m: Manifest)
    ensures (forall f :: !Wrong(c, m, f)) <==> Matches(c, m)
  {
    if forall f :: !Wrong(c, m, f) {
      forall t | t in m.before || t in m.after ensures t in c.rows && Low(m, t) <= c.rows[t] <= High(m, t) {
        assert !Wrong(c, m, DidNotComeBack(t));
        assert !Wrong(c, m, WrongRows(t, c.rows[t], Low(m, t), High(m, t)));
      }
      forall t | t in m.hypertables ensures t in c.hypertables {
        assert !Wrong(c, m, OrdinaryTable(t));
      }
      assert !Wrong(c, m, PoliciesLost(m.jobs));
    }
  }

  method Compare(c: Contents, m: Manifest) returns (failures: seq<Failure>)
    ensures InOrder(failures) && forall f :: f in failures <==> Wrong(c, m, f)
    ensures failures == [] <==> Matches(c, m)
  {
    failures := MissingTables(c, m);
    ghost var upTo: set<nat> := {0};
    if m.before != map[] || m.after != map[] {
      var counts := WrongCounts(c, m);
      Joined(failures, counts, c, m, {0}, 1);
      failures := failures + counts;
    }
    assert IsReport(failures, c, m, {0, 1}) by {
      assert {0} + {1} == {0, 1};
    }
    var plain := OrdinaryTables(c, m);
    Joined(failures, plain, c, m, {0, 1}, 2);
    failures := failures + plain;
    assert {0, 1} + {2} == {0, 1, 2};
    if m.jobs != 0 && c.jobs == 0 {
      Joined(failures, [PoliciesLost(m.jobs)], c, m, {0, 1, 2}, 3);
      failures := failures + [PoliciesLost(m.jobs)];
    }
    NothingWrongExactly(c, m);
    assert failures != [] ==> failures[0] in failures;
  }

  // The first of a set of names.
  lemma {:induction false} LeastExists(names: set<string>) returns (least: string)
    requires names != {}
    ensures IsLeast(names, least)
    decreases |names|
  {
    var some :| some in names;
    least := some;
    if names != {some} {
      var other := LeastExists(names - {some});
      BeforeIsTotal(some, other);
      if Before(other, some) {
        least := other;
      } else {
        forall n | n in names - {some} ensures n == other || Before(some, n) {
          if n != other { BeforeIsTransitive(some, other, n); }
        }
      }
    }
  }

  predicate IsLeast(names: set<string>, least: string) {
    least in names && forall n :: n in names ==> n == least || Before(least, n)
  }

  ghost predicate Ascending(listing: seq<string>) {
    forall i, j :: 0 <= i < j < |listing| ==> Before(listing[i], listing[j])
  }

  // sorted() of a set of names.
  method Sorted(names: set<string>) returns (listing: seq<string>)
    ensures Ascending(listing) && forall n :: n in listing <==> n in names
  {
    listing := [];
    var rest := names;
    while rest != {}
      invariant rest <= names && Ascending(listing)
      invariant forall n :: n in listing <==> n in names && n !in rest
      invariant forall i, n :: 0 <= i < |listing| && n in rest ==> Before(listing[i], n)
      decreases |rest|
    {
      ghost var least := LeastExists(rest);
      var t :| t in rest && forall n :: n in rest ==> n == t || Before(t, n);
      listing := listing + [t];
      rest := rest - {t};
    }
  }

  // The next name of a listing comes after all reported so far.
  lemma Appended(failures: seq<Failure>, listing: seq<string>, i: nat, f: Failure)
    requires InOrder(failures) && Ascending(listing) && i < |listing| && !f.PoliciesLost? && f.table == listing[i]
    requires forall g :: g in failures ==> !g.PoliciesLost? && Kind(g) == Kind(f) && g.table in listing[..i]
    ensures InOrder(failures + [f])
  {
    forall g | g in failures ensures Precedes(g, f) {
      var j :| 0 <= j < i && listing[j] == g.table;
    }
  }

  method MissingTables(c: Contents, m: Manifest) returns (failures: seq<Failure>)
    ensures IsReport(failures, c, m, {0})
  {
    failures := [];
    var missing := Sorted(Expected(m) - c.rows.Keys);
    for i := 0 to |missing|
      invariant InOrder(failures)
      invariant forall f :: f in failures <==> f.DidNotComeBack? && f.table in missing[..i]
    {
      Appended(failures, missing, i, DidNotComeBack(missing[i]));
      assert missing[..i + 1] == missing[..i] + [missing[i]];
      failures := failures + [DidNotComeBack(missing[i])];
    }
    assert missing[..|missing|] == missing;
  }

  method WrongCounts(c: Contents, m: Manifest) returns (failures: seq<Failure>)
    ensures IsReport(failures, c, m, {1})
  {
    failures := [];
    var counted := Sorted(Expected(m) * c.rows.Keys);
    for i := 0 to |counted|
      invariant InOrder(failures)
      invariant forall f :: f in failures <==> f.WrongRows? && Wrong(c, m, f) && f.table in counted[..i]
    {
      var t := counted[i];
      assert counted[..i + 1] == counted[..i] + [t];
      assert t in counted;
      var low, high := CountedBefore(m, t), CountedAfter(m, t);
      low, high := Min(low, high), Max(low, high);
      var got := c.rows[t];
      if !(low <= got <= high) {
        Appended(failures, counted, i, WrongRows(t, got, low, high));
        failures := failures + [WrongRows(t, got, low, high)];
      }
    }
    assert counted[..|counted|] == counted;
  }

  method OrdinaryTables(c: Contents, m: Manifest) returns (failures: seq<Failure>)
    ensures IsReport(failures, c, m, {2})
  {
    failures := [];
    var plain := Sorted(m.hypertables - c.hypertables);
    for i := 0 to |plain|
      invariant InOrder(failures)
      invariant forall f :: f in failures <==> f.OrdinaryTable? && f.table in plain[..i]
    {
      Appended(failures, plain, i, OrdinaryTable(plain[i]));
      assert plain[..i + 1] == plain[..i] + [plain[i]];
      failures := failures + [OrdinaryTable(plain[i])];
    }
    assert plain[..|plain|] == plain;
  }

  // ---------------------------------------------------------------- the database while it is dumped

  // Rows per table at successive instants.
  type History = seq<map<string, nat>>

  // No table is dropped and no row is deleted.
  ghost predicate OnlyGrows(h: History) {
    forall i, j, t :: 0 <= i <= j < |h| && t in h[i] ==> t in h[j] && h[i][t] <= h[j][t]
  }

  function CountsOf(rows: map<string, nat>, tables: set<string>): map<string, nat> {
    map t | t in tables && t in rows :: rows[t]
  }

  // cmd_create lists the tables, counts them, dumps from a snapshot, and counts them again.
  predicate TakenFrom(m: Manifest, h: History, listed: nat, before: nat, snapshot: nat, after: nat) {
    && listed <= before <= snapshot <= after < |h|
    && m.before == CountsOf(h[before], h[listed].Keys)
    && m.after == CountsOf(h[after], h[listed].Keys)
  }

  // The table was listed and is in one of the two counts.
  predicate Counted(h: History, listed: nat, before: nat, after: nat, t: string)
    requires listed < |h| && before < |h| && after < |h|
  {
    t in h[listed] && (t in h[before] || t in h[after])
  }

  // The dump holds the table with a number of rows between the two counts. A table missing from the
  // first has a first count of zero; one missing from the second has its first count again.
  predicate Bracketed(h: History, before: nat, snapshot: nat, after: nat, t: string)
    requires before < |h| && snapshot < |h| && after < |h|
  {
    && t in h[snapshot]
    && var first := if t in h[before] then h[before][t] else 0;
       var second := if t in h[after] then h[after][t] else first;
       Min(first, second) <= h[snapshot][t] <= Max(first, second)
  }

  predicate IsRowFailure(f: Failure) {
    f.DidNotComeBack? || f.WrongRows?
  }

  // Whatever happened to the database while it was dumped, a restore that brings back what the snapshot
  // held is not faulted for its rows exactly when every counted table is in the snapshot with a number
  // of rows between its two counts.
  lemma FaithfulRestoreExactly(m: Manifest, h: History, listed: nat, before: nat, snapshot: nat, after: nat,
                               c: Contents)
    requires TakenFrom(m, h, listed, before, snapshot, after) && c.rows == h[snapshot]
    ensures (forall f :: IsRowFailure(f) ==> !Wrong(c, m, f)) <==>
            (forall t :: Counted(h, listed, before, after, t) ==> Bracketed(h, before, snapshot, after, t))
  {
    forall t ensures Counted(h, listed, before, after, t) <==> t in Expected(m) {
    }
    forall t | t in Expected(m)
      ensures Bracketed(h, before, snapshot, after, t) <==>
              t in c.rows && CountedWithin(m, t, c.rows[t])
    {
    }
    if forall f :: IsRowFailure(f) ==> !Wrong(c, m, f) {
      forall t | t in Expected(m) ensures t in c.rows && CountedWithin(m, t, c.rows[t]) {
        assert IsRowFailure(DidNotComeBack(t)) && !Wrong(c, m, DidNotComeBack(t));
        var f := WrongRows(t, c.rows[t], Low(m, t), High(m, t));
        assert IsRowFailure(f) && !Wrong(c, m, f);
      }
    }
  }

  predicate CountedWithin(m: Manifest, t: string, rows: nat) {
    Low(m, t) <= rows <= High(m, t)
  }

  // So a restore that brings back what the snapshot held is never faulted for its rows, whatever was
  // inserted, and into whichever tables, while the dump ran.
  lemma FaithfulRestorePasses(m: Manifest, h: History, listed: nat, before: nat, snapshot: nat, after: nat,
                              c: Contents, f: Failure)
    requires OnlyGrows(h) && TakenFrom(m, h, listed, before, snapshot, after)
    requires c.rows == h[snapshot] && IsRowFailure(f)
    ensures !Wrong(c, m, f)
  {
    forall t | Counted(h, listed, before, after, t) ensures Bracketed(h, before, snapshot, after, t) {
      assert t in h[before] && t in h[snapshot] && t in h[after];
    }
    FaithfulRestoreExactly(m, h, listed, before, snapshot, after, c);
  }

  // When the two counts agree, one row more or less in a counted table is reported, and only that.
  lemma QuietDumpIsChecked(m: Manifest, t: string, c: Contents)
    requires t in m.before && t in m.after && m.before[t] == m.after[t]
    ensures (exists f :: Wrong(c, m, f) && (f.DidNotComeBack? || f.WrongRows?) && f.table == t)
            <==> !(t in c.rows && c.rows[t] == m.before[t])
  {
    if t !in c.rows {
      assert Wrong(c, m, DidNotComeBack(t));
    } else if c.rows[t] != m.before[t] {
      assert Wrong(c, m, WrongRows(t, c.rows[t], m.before[t], m.after[t]));
    }
  }

  // On a busy database a restore that lost more rows of a table than were inserted while the dump
  // ran is always reported.
  lemma LossBeyondTheWindowIsReported(m: Manifest, h: History, listed: nat, before: nat, snapshot: nat,
                                      after: nat, c: Contents, t: string)
    requires OnlyGrows(h) && TakenFrom(m, h, listed, before, snapshot, after)
    requires t in h[listed] && t in h[snapshot] && t in c.rows && t in h[before] && t in h[after]
    requires c.rows[t] + h[after][t] < h[snapshot][t] + h[before][t]
    ensures Wrong(c, m, WrongRows(t, c.rows[t], h[before][t], h[after][t]))
  {
    assert h[before][t] <= h[snapshot][t] <= h[after][t];
  }

  // The bracket needs that nothing is deleted: a row deleted before the snapshot and another
  // inserted after it make a faithful restore look wrong.
  lemma DeletionBreaksTheBracket()
    ensures var h: History := [map["orders" := 5], map["orders" := 4], map["orders" := 5]];
            var m := Manifest(h[0], h[2], {}, 0);
            && TakenFrom(m, h, 0, 0, 1, 2)
            && Wrong(Contents(h[1], {}, 0), m, WrongRows("orders", 4, 5, 5))
  {
    var h: History := [map["orders" := 5], map["orders" := 4], map["orders" := 5]];
    assert CountsOf(h[0], h[0].Keys) == h[0] && CountsOf(h[2], h[0].Keys) == h[2];
  }
}
