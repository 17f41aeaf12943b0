// Settling the venue's fees: settle_broker_fees over the broker_fees ledger and the book whose cash
// and fees_settled are stored in one snapshot row.
//
// Money is in units of 10^-8, the scale of the columns.
module Fees {
  import opened Common

  type Money = int
  type Mode = string
  type ActivityId = string

  // ---------------------------------------------------------------- the ledger

  // A charge as the venue reports it, and as the ledger keeps it. The id alone is the key.
  datatype Activity = Activity(id: ActivityId, amount: Money)
  datatype Charge = Charge(mode: Mode, amount: Money)

  type Ledger = map<ActivityId, Charge>

  // Charges of one account, by id.
  type Charged = map<ActivityId, Money>

  // One report holds the last of several entries with the same id.
  function ById(activities: seq<Activity>): Charged {
    if activities == [] then map[]
    else ById(activities[..|activities| - 1])[activities[|activities| - 1].id := activities[|activities| - 1].amount]
  }

  // INSERT ... ON CONFLICT DO NOTHING: a charge already known stays as it was first recorded.
  function Recorded(l: Ledger, activities: seq<Activity>, mode: Mode): Ledger {
    var reported := ById(activities);
    (map id | id in reported :: Charge(mode, reported[id])) + l
  }

  ghost function Sum(m: Charged): Money {
    if m == map[] then 0
    else var id :| id in m; m[id] + Sum(m - {id})
  }

  lemma {:induction false} SumPicks(m: Charged, id: ActivityId)
    requires id in m
    ensures Sum(m) == m[id] + Sum(m - {id})
  {
    var x :| x in m && Sum(m) == m[x] + Sum(m - {x});
    if x != id {
      SumPicks(m - {x}, id);
      SumPicks(m - {id}, x);
      assert m - {x} - {id} == m - {id} - {x};
    }
  }

  lemma LessFromTheRight(a: Charged, b: Charged, id: ActivityId)
    requires a.Keys !! b.Keys && id in b
    ensures (a + b) - {id} == a + (b - {id})
    ensures id in a + b && (a + b)[id] == b[id]
  {
  }

  lemma {:induction false} SumOfBoth(a: Charged, b: Charged)
    requires a.Keys !! b.Keys
    ensures Sum(a + b) == Sum(a) + Sum(b)
    decreases b.Keys
  {
    if b == map[] {
      assert a + b == a;
    } else {
      var id :| id in b;
      LessFromTheRight(a, b, id);
      SumPicks(b, id);
      SumPicks(a + b, id);
      SumOfBoth(a, b - {id});
    }
  }

  function Only(m: Charged, ids: set<ActivityId>): Charged {
    map id | id in m && id in ids :: m[id]
  }

  lemma SumSplits(m: Charged, ids: set<ActivityId>)
    ensures Sum(m) == Sum(Only(m, ids)) + Sum(m - ids)
  {
    assert m == Only(m, ids) + (m - ids);
    SumOfBoth(Only(m, ids), m - ids);
  }

  // Every charge of `a` is one of `b`, with the same amount.
  predicate Within(a: Charged, b: Charged) {
    forall id :: id in a ==> id in b && b[id] == a[id]
  }

  function Charges(l: Ledger, mode: Mode): Charged {
    map id | id in l && l[id].mode == mode :: l[id].amount
  }

  // Everything the ledger knows to have been charged to one account.
  ghost function Total(l: Ledger, mode: Mode): Money {
    Sum(Charges(l, mode))
  }

  class FeeLedger {
    var rows: Ledger

    constructor ()
      ensures rows == map[]
    {
      rows := map[];
    }

    // One transaction: insert what is new, then total everything of this account.
    method RecordSeen(activities: seq<Activity>, mode: Mode) returns (total: Money)
      modifies this
      ensures rows == Recorded(old(rows), activities, mode)
      ensures total == Total(rows, mode)
    {
      var byId := map[];
      for i := 0 to |activities|
        invariant byId == ById(activities[..i])
      {
        assert activities[..i + 1][..i] == activities[..i];
        byId := byId[activities[i].id := activities[i].amount];
      }
      assert activities[..|activities|] == activities;
      rows := (map id | id in byId :: Charge(mode, byId[id])) + rows;
      total := SumOf(Charges(rows, mode));
    }
  }

  method SumOf(amounts: Charged) returns (total: Money)
    ensures total == Sum(amounts)
  {
    total := 0;
    var rest := amounts;
    while rest != map[]
      invariant total + Sum(rest) == Sum(amounts)
      decreases |rest|
    {
      var id :| id in rest;
      SumPicks(rest, id);
      total := total + rest[id];
      rest := rest - {id};
    }
  }

  // ---------------------------------------------------------------- the book

  // `fills` and `absorbed` are history: the cash that fills alone account for, and the charges the cash
  // was already less of when it was taken over from the venue.
  datatype Book = Book(cash: Money, settled: Money, fills: Money, absorbed: Charged)

  function Filled(b: Book, amount: Money): Book {
    b.(cash := b.cash + amount, fills := b.fills + amount)
  }

  // Cash and what it reflects move together.
  function Settled(b: Book, total: Money): Book {
    b.(cash := b.cash - (total - b.settled), settled := total)
  }

  // The cash of an account at the venue, by what was filled and what was charged.
  ghost function VenueCash(fills: Money, charged: Charged): Money {
    fills - Sum(charged)
  }

  // A new book with the venue's cash: it reflects every charge so far and claims none.
  ghost function Adopted(charged: Charged, fills: Money): Book {
    Book(VenueCash(fills, charged), 0, fills, charged)
  }

  class Portfolio {
    var cash: Money
    var settled: Money
    ghost var fills: Money
    ghost var absorbed: Charged

    ghost function Now(): Book
      reads this
    {
      Book(cash, settled, fills, absorbed)
    }

    constructor (cash: Money, settled: Money, ghost absorbed: Charged)
      ensures Now() == Book(cash, settled, cash + settled + Sum(absorbed), absorbed)
    {
      this.cash, this.settled := cash, settled;
      this.fills, this.absorbed := cash + settled + Sum(absorbed), absorbed;
    }

    method Fill(amount: Money)
      modifies this
      ensures Now() == Filled(old(Now()), amount)
    {
      cash := cash + amount;
      fills := fills + amount;
    }

    // Takes the venue's cash and leaves the claim as it is.
    method AdoptBrokerState(venueCash: Money, ghost filled: Money, ghost charged: Charged)
      modifies this
      ensures Now() == Book(venueCash, old(settled), filled, charged)
    {
      cash := venueCash;
      fills, absorbed := filled, charged;
    }

    // One pass; None is a venue that does not answer, which changes nothing.
    method SettleBrokerFees(ledger: FeeLedger, charged: Option<seq<Activity>>, mode: Mode)
      returns (moved: Money)
      modifies this, ledger
      ensures charged.None? ==> moved == 0 && Now() == old(Now()) && ledger.rows == old(ledger.rows)
      ensures charged.Some? ==>
        && ledger.rows == Recorded(old(ledger.rows), charged.value, mode)
        && Now() == Settled(old(Now()), Total(ledger.rows, mode))
        && moved == old(cash) - cash
    {
      if charged.None? { return 0; }
      var total := ledger.RecordSeen(charged.value, mode);
      var owed := total - settled;
      if owed == 0 { return 0; }
      cash := cash - owed;
      settled := total;
      return owed;
    }
  }

  // The book a worker starts from: the stored row's cash and claim, or without one the venue's cash on a
  // new book.
  method RestoreOrAdopt(stored: Option<(Money, Money)>, ghost absorbed: Charged, venueCash: Money,
                        ghost filled: Money, ghost charged: Charged) returns (book: Portfolio)
    requires venueCash == VenueCash(filled, charged)
    ensures fresh(book)
    ensures stored.Some? ==>
              book.Now() == Book(stored.value.0, stored.value.1,
                                 stored.value.0 + stored.value.1 + Sum(absorbed), absorbed)
    ensures stored.None? ==> book.Now() == Adopted(charged, filled)
  {
    if stored.Some? {
      book := new Portfolio(stored.value.0, stored.value.1, absorbed);
    } else {
      book := new Portfolio(0, 0, map[]);
      book.AdoptBrokerState(venueCash, filled, charged);
    }
  }

  // ---------------------------------------------------------------- runs with crashes

  // What the venue has charged each account so far, one ledger, and a book per account in memory and in
  // its latest snapshot row. `pending` holds the totals passes have been given by the ledger and not yet
  // applied.
  datatype State = State(venue: map<Mode, Charged>, ledger: Ledger, books: map<Mode, Book>,
                         stored: map<Mode, Book>, pending: map<Mode, set<Money>>)

  datatype Event =
    | VenueCharges(mode: Mode, id: ActivityId, amount: Money)
    | Trade(mode: Mode, amount: Money)
    | Record(mode: Mode, activities: seq<Activity>)   // the transaction of one pass commits
    | Apply(mode: Mode, total: Money)                 // that pass goes on to move the cash
    | Snapshot(mode: Mode)
    | Restart(mode: Mode, filled: Money)              // ended anywhere, or first boot: restore_or_adopt
    | Adopt(mode: Mode, filled: Money)                // an operator stores the venue's book
    | Remove(id: ActivityId)                          // an operator deletes a row

  // No worker runs yet. A stored book has had no fee taken from it, as the migration that adds
  // fees_settled assumes of every book; the ledger may already know any number of charges.
  predicate Start(s: State) {
    && s.books == map[] && s.pending == map[] && s.stored.Keys <= s.venue.Keys
    && forall m :: m in s.stored ==> s.stored[m] == Book(s.stored[m].fills, 0, s.stored[m].fills, map[])
  }

  predicate Enabled(s: State, e: Event) {
    match e
    case VenueCharges(m, id, _) => m in s.venue && id !in s.venue[m]
    case Restart(m, _) => m in s.venue
    case Adopt(m, _) => m in s.venue && m in s.stored
    case Apply(m, total) => m in s.books && m in s.pending && total in s.pending[m]
    case Remove(_) => true
    case _ => e.mode in s.books && e.mode in s.pending
  }

  ghost function Step(s: State, e: Event): State
    requires Enabled(s, e)
  {
    match e
    case VenueCharges(m, id, amount) => s.(venue := s.venue[m := s.venue[m][id := amount]])
    case Trade(m, amount) => s.(books := s.books[m := Filled(s.books[m], amount)])
    case Record(m, activities) =>
      var l := Recorded(s.ledger, activities, m);
      s.(ledger := l, pending := s.pending[m := s.pending[m] + {Total(l, m)}])
    case Apply(m, total) =>
      s.(books := s.books[m := Settled(s.books[m], total)], pending := s.pending[m := s.pending[m] - {total}])
    case Snapshot(m) => s.(stored := s.stored[m := s.books[m]])
    case Restart(m, filled) =>
      s.(books := s.books[m := if m in s.stored then s.stored[m] else Adopted(s.venue[m], filled)],
         pending := s.pending[m := {}])
    case Adopt(m, filled) => s.(stored := s.stored[m := Adopted(s.venue[m], filled)])
    case Remove(id) => s.(ledger := s.ledger - {id})
  }

  ghost predicate Legal(s: State, trace: seq<Event>)
    decreases |trace|, 0
  {
    trace == [] ||
    (Legal(s, trace[..|trace| - 1]) && Enabled(Final(s, trace[..|trace| - 1]), trace[|trace| - 1]))
  }

  ghost function Final(s: State, trace: seq<Event>): State
    requires Legal(s, trace)
    decreases |trace|, 1
  {
    if trace == [] then s else Step(Final(s, trace[..|trace| - 1]), trace[|trace| - 1])
  }

  ghost predicate Balanced(b: Book) {
    b.cash + b.settled + Sum(b.absorbed) == b.fills
  }

  ghost predicate BookOk(s: State, m: Mode, b: Book) {
    m in s.venue && Balanced(b) && Within(b.absorbed, s.venue[m])
  }

  ghost predicate Inv(s: State) {
    && s.books.Keys == s.pending.Keys
    && (forall m :: m in s.books ==> BookOk(s, m, s.books[m]))
    && (forall m :: m in s.stored ==> BookOk(s, m, s.stored[m]))
  }

  lemma StepKeepsBooks(s: State, e: Event)
    requires Inv(s) && Enabled(s, e)
    ensures forall m :: m in Step(s, e).books ==> BookOk(Step(s, e), m, Step(s, e).books[m])
  {
  }

  lemma StepKeepsStored(s: State, e: Event)
    requires Inv(s) && Enabled(s, e)
    ensures forall m :: m in Step(s, e).stored ==> BookOk(Step(s, e), m, Step(s, e).stored[m])
  {
  }

  lemma StepKeepsInv(s: State, e: Event)
    requires Inv(s) && Enabled(s, e)
    ensures Inv(Step(s, e))
  {
    StepKeepsBooks(s, e);
    StepKeepsStored(s, e);
  }

  // At every moment of every run, in memory and in the database alike, cash, the fees it claims to
  // reflect and those it was taken over with add up to the cash of the fills: a crash cannot tear cash
  // and claim apart.
  lemma {:induction false} CashAndSettledMoveTogether(s: State, trace: seq<Event>)
    requires Start(s) && Legal(s, trace)
    ensures Inv(Final(s, trace))
  {
    if trace != [] {
      var before := trace[..|trace| - 1];
      CashAndSettledMoveTogether(s, before);
      StepKeepsInv(Final(s, before), trace[|trace| - 1]);
    }
  }

  // What a pass over a report leaves of the account, snapshot included.
  ghost function AfterPass(s: State, m: Mode, activities: seq<Activity>): State
    requires m in s.books && m in s.pending
  {
    var recorded := Step(s, Record(m, activities));
    Step(Step(recorded, Apply(m, Total(recorded.ledger, m))), Snapshot(m))
  }

  lemma PassSettles(s: State, m: Mode, activities: seq<Activity>)
    requires m in s.books && m in s.pending
    ensures var after, l := AfterPass(s, m, activities), Recorded(s.ledger, activities, m);
            && after.ledger == l && after.venue == s.venue
            && m in after.books && after.books[m] == Settled(s.books[m], Total(l, m))
            && m in after.stored && after.stored[m] == after.books[m]
  {
  }

  // One pass from any state any run can reach, through whatever crashes, replays, removals and
  // adoptions, takes every charge in the ledger from the book exactly once, and the next snapshot says
  // so. What it does not know of is what the book was taken over with.
  lemma OnePassHeals(s: State, trace: seq<Event>, m: Mode, activities: seq<Activity>)
    requires Start(s) && Legal(s, trace) && m in Final(s, trace).books
    ensures m in Final(s, trace).pending
    ensures var now, after := Final(s, trace), AfterPass(Final(s, trace), m, activities);
            var b, total := now.books[m], Total(after.ledger, m);
            && after.ledger == Recorded(now.ledger, activities, m)
            && after.books[m] == Book(b.fills - Sum(b.absorbed) - total, total, b.fills, b.absorbed)
            && m in after.stored && after.stored[m] == after.books[m]
  {
    CashAndSettledMoveTogether(s, trace);
    PassSettles(Final(s, trace), m, activities);
    assert Balanced(Final(s, trace).books[m]);
  }

  lemma ClaimStands(s: State, e: Event, m: Mode)
    requires Enabled(s, e) && m in s.books && !((e.Apply? || e.Restart?) && e.mode == m)
    ensures m in Step(s, e).books && Step(s, e).books[m].settled == s.books[m].settled
    ensures e == Snapshot(m) ==> m in Step(s, e).stored && Step(s, e).stored[m] == Step(s, e).books[m]
  {
  }

  // Neither trading nor anything done to the ledger or to other accounts disturbs what was settled:
  // until the account's next pass or restart, its book owes exactly what came after the last pass, and a
  // snapshot taken then stores it so.
  lemma {:induction false} SnapshotTellsTheLastPass(s: State, trace: seq<Event>, i: nat, m: Mode, total: Money)
    requires Start(s) && Legal(s, trace) && i < |trace| && trace[i] == Apply(m, total)
    requires forall j :: i < j < |trace| ==> !((trace[j].Apply? || trace[j].Restart?) && trace[j].mode == m)
    ensures m in Final(s, trace).books
    ensures var b := Final(s, trace).books[m];
            b.settled == total && b.cash == b.fills - Sum(b.absorbed) - total
    ensures i < |trace| - 1 && trace[|trace| - 1] == Snapshot(m) ==>
              m in Final(s, trace).stored && Final(s, trace).stored[m] == Final(s, trace).books[m]
  {
    CashAndSettledMoveTogether(s, trace);
    var before := trace[..|trace| - 1];
    if i < |before| {
      SnapshotTellsTheLastPass(s, before, i, m, total);
      ClaimStands(Final(s, before), trace[|trace| - 1], m);
    }
  }

  // What a stored or remembered book claims to have settled is always a sum the ledger really had at
  // some moment of the run, or nothing; never an amount of the book's own making.
  ghost predicate WasTotal(s: State, trace: seq<Event>, m: Mode, total: Money)
    requires Legal(s, trace)
  {
    exists k :: 0 <= k <= |trace| && Legal(s, trace[..k]) && Total(Final(s, trace[..k]).ledger, m) == total
  }

  lemma WasTotalLater(s: State, trace: seq<Event>, m: Mode, total: Money)
    requires trace != [] && Legal(s, trace) && WasTotal(s, trace[..|trace| - 1], m, total)
    ensures WasTotal(s, trace, m, total)
  {
    var before := trace[..|trace| - 1];
    var k :| 0 <= k <= |before| && Legal(s, before[..k]) && Total(Final(s, before[..k]).ledger, m) == total;
    assert before[..k] == trace[..k];
  }

  ghost predicate Claims(s: State, m: Mode, total: Money) {
    || (m in s.books && total == s.books[m].settled)
    || (m in s.stored && total == s.stored[m].settled)
    || (m in s.pending && total in s.pending[m])
  }

  lemma {:induction false} SettledIsALedgerTotal(s: State, trace: seq<Event>, m: Mode, total: Money)
    requires Start(s) && Legal(s, trace) && Claims(Final(s, trace), m, total)
    ensures total == 0 || WasTotal(s, trace, m, total)
  {
    if trace != [] && total != 0 {
      var before, e := trace[..|trace| - 1], trace[|trace| - 1];
      if Claims(Final(s, before), m, total) {
        SettledIsALedgerTotal(s, before, m, total);
        WasTotalLater(s, trace, m, total);
      } else {
        NewClaim(Final(s, before), e, m, total);
        assert trace[..|trace|] == trace;
      }
    }
  }

  // Only a recording can introduce a claim, and it is the total it leaves behind.
  lemma NewClaim(s: State, e: Event, m: Mode, total: Money)
    requires Enabled(s, e) && Claims(Step(s, e), m, total) && !Claims(s, m, total) && total != 0
    ensures e.Record? && total == Total(Step(s, e).ledger, m)
  {
  }

  // ---------------------------------------------------------------- level with the venue

  // The ledger holds nothing but charges the venue made, to the account it has them under.
  predicate Truthful(l: Ledger, venue: map<Mode, Charged>) {
    forall id :: id in l ==>
      l[id].mode in venue && id in venue[l[id].mode] && venue[l[id].mode][id] == l[id].amount
  }

  // The venue reports nothing but what it charged to the account it is asked about.
  predicate Honest(s: State, e: Event) {
    e.Record? ==> e.mode in s.venue && Within(ById(e.activities), s.venue[e.mode])
  }

  ghost predicate HonestRun(s: State, trace: seq<Event>)
    requires Legal(s, trace)
  {
    trace == [] ||
    (HonestRun(s, trace[..|trace| - 1]) && Honest(Final(s, trace[..|trace| - 1]), trace[|trace| - 1]))
  }

  lemma StepKeepsTruth(s: State, e: Event)
    requires Truthful(s.ledger, s.venue) && Enabled(s, e) && Honest(s, e)
    ensures Truthful(Step(s, e).ledger, Step(s, e).venue)
  {
  }

  lemma {:induction false} TruthStays(s: State, trace: seq<Event>)
    requires Truthful(s.ledger, s.venue) && Legal(s, trace) && HonestRun(s, trace)
    ensures Truthful(Final(s, trace).ledger, Final(s, trace).venue)
  {
    if trace != [] {
      TruthStays(s, trace[..|trace| - 1]);
      StepKeepsTruth(Final(s, trace[..|trace| - 1]), trace[|trace| - 1]);
    }
  }

  // Charges on record that the book had been taken over with: a pass takes them a second time.
  function Twice(l: Ledger, m: Mode, b: Book): Charged {
    Only(Charges(l, m), b.absorbed.Keys)
  }

  // Charges nobody has told the book of: made since it was taken over, if it was, and not on record.
  function Unknown(venue: Charged, l: Ledger, m: Mode, b: Book): Charged {
    venue - b.absorbed.Keys - Charges(l, m).Keys
  }

  lemma SumsAgainstTheVenue(venue: Charged, l: Ledger, m: Mode, b: Book)
    requires Within(Charges(l, m), venue) && Within(b.absorbed, venue)
    ensures Sum(b.absorbed) + Total(l, m) - Sum(venue) == Sum(Twice(l, m, b)) - Sum(Unknown(venue, l, m, b))
  {
    var taken, absorbed := Charges(l, m), b.absorbed.Keys;
    SumSplits(taken, absorbed);
    SumSplits(venue, absorbed);
    assert Only(venue, absorbed) == b.absorbed;
    SumSplits(venue - absorbed, taken.Keys);
    assert Only(venue - absorbed, taken.Keys) == taken - absorbed;
  }

  // After any honest run, adoptions included, a pass leaves the book short of the venue's cash by the
  // charges it took a second time, less those it does not know of; it is level exactly when these come
  // to the same.
  lemma PassAgainstTheVenue(s: State, trace: seq<Event>, m: Mode, activities: seq<Activity>)
    requires Start(s) && Truthful(s.ledger, s.venue) && Legal(s, trace) && HonestRun(s, trace)
    requires m in Final(s, trace).books && Honest(Final(s, trace), Record(m, activities))
    ensures m in Final(s, trace).pending && m in Final(s, trace).venue
    ensures var now, after := Final(s, trace), AfterPass(Final(s, trace), m, activities);
            var b := after.books[m];
            var twice, unknown := Sum(Twice(after.ledger, m, b)), Sum(Unknown(now.venue[m], after.ledger, m, b));
            && VenueCash(b.fills, now.venue[m]) - b.cash == twice - unknown
            && (b.cash == VenueCash(b.fills, now.venue[m]) <==> twice == unknown)
  {
    var now := Final(s, trace);
    CashAndSettledMoveTogether(s, trace);
    OnePassHeals(s, trace, m, activities);
    TruthStays(s, trace);
    StepKeepsTruth(now, Record(m, activities));
    var after := AfterPass(now, m, activities);
    assert after.ledger == Step(now, Record(m, activities)).ledger;
    SumsAgainstTheVenue(now.venue[m], after.ledger, m, after.books[m]);
  }

  // The account's books, wherever there is one, were taken over with these charges.
  predicate TakenOverWith(s: State, m: Mode, absorbed: Charged) {
    && m in s.stored && s.stored[m].absorbed == absorbed
    && (m in s.books ==> s.books[m].absorbed == absorbed)
  }

  lemma StepKeepsAbsorbed(s: State, e: Event, m: Mode, absorbed: Charged)
    requires TakenOverWith(s, m, absorbed) && Enabled(s, e) && !(e.Adopt? && e.mode == m)
    ensures TakenOverWith(Step(s, e), m, absorbed)
  {
  }

  predicate NoAdoption(trace: seq<Event>, m: Mode) {
    forall i :: 0 <= i < |trace| ==> !(trace[i].Adopt? && trace[i].mode == m)
  }

  // What a book was taken over with stays what it was, through passes, snapshots and restarts, until an
  // operator adopts the venue's book again.
  lemma {:induction false} AbsorbedStays(s: State, trace: seq<Event>, m: Mode, absorbed: Charged)
    requires Legal(s, trace) && TakenOverWith(s, m, absorbed) && NoAdoption(trace, m)
    ensures TakenOverWith(Final(s, trace), m, absorbed)
  {
    if trace != [] {
      var before := trace[..|trace| - 1];
      AbsorbedStays(s, before, m, absorbed);
      StepKeepsAbsorbed(Final(s, before), trace[|trace| - 1], m, absorbed);
    }
  }

  // Adopting the venue's book and restarting, or booting without a stored book and taking a snapshot,
  // makes it a book taken over with every charge the venue had made by then, and so it stays.
  lemma TakingOverAbsorbsAllCharges(s: State, m: Mode, filled: Money, again: Money, trace: seq<Event>)
    requires m in s.venue && NoAdoption(trace, m)
    requires var t := if m in s.stored then Step(Step(s, Adopt(m, filled)), Restart(m, again))
                      else Step(Step(s, Restart(m, filled)), Snapshot(m));
             Legal(t, trace)
    ensures var t := if m in s.stored then Step(Step(s, Adopt(m, filled)), Restart(m, again))
                     else Step(Step(s, Restart(m, filled)), Snapshot(m));
            && t.books[m] == t.stored[m] == Adopted(s.venue[m], filled)
            && TakenOverWith(Final(t, trace), m, s.venue[m])
  {
    var t := if m in s.stored then Step(Step(s, Adopt(m, filled)), Restart(m, again))
             else Step(Step(s, Restart(m, filled)), Snapshot(m));
    AbsorbedStays(t, trace, m, s.venue[m]);
  }

  // A book that started as our own and was never adopted is level with the venue after every pass that
  // leaves no charge off the record: every fee was taken, and none twice.
  lemma OwnBookIsLevel(s: State, trace: seq<Event>, m: Mode, activities: seq<Activity>)
    requires Start(s) && Truthful(s.ledger, s.venue) && Legal(s, trace) && HonestRun(s, trace)
    requires m in Final(s, trace).books && Honest(Final(s, trace), Record(m, activities))
    requires m in s.stored && NoAdoption(trace, m)
    ensures m in Final(s, trace).pending && m in Final(s, trace).venue
    ensures var now, after := Final(s, trace), AfterPass(Final(s, trace), m, activities);
            var b := after.books[m];
            var unknown := now.venue[m] - Charges(after.ledger, m).Keys;
            && b.cash == VenueCash(b.fills, now.venue[m]) + Sum(unknown)
            && (unknown == map[] ==> b.cash == VenueCash(b.fills, now.venue[m]))
  {
    AbsorbedStays(s, trace, m, map[]);
    OnePassHeals(s, trace, m, activities);
    PassAgainstTheVenue(s, trace, m, activities);
    var now, after := Final(s, trace), AfterPass(Final(s, trace), m, activities);
    NothingAbsorbed(now.venue[m], after.ledger, m, after.books[m]);
  }

  lemma NothingAbsorbed(venue: Charged, l: Ledger, m: Mode, b: Book)
    requires b.absorbed == map[]
    ensures Twice(l, m, b) == map[] && Unknown(venue, l, m, b) == venue - Charges(l, m).Keys
  {
  }

  // A book that was adopted is short of the venue's cash, after every pass with all later charges on
  // record, by exactly the charges made before its adoption that are on record too; it is level exactly
  // when these come to nothing.
  lemma AdoptedBookIsChargedTwice(s: State, trace: seq<Event>, m: Mode, activities: seq<Activity>)
    requires Start(s) && Truthful(s.ledger, s.venue) && Legal(s, trace) && HonestRun(s, trace)
    requires m in Final(s, trace).books && Honest(Final(s, trace), Record(m, activities))
    requires m in Final(s, trace).venue
    requires Unknown(Final(s, trace).venue[m], Recorded(Final(s, trace).ledger, activities, m), m,
                     Final(s, trace).books[m]) == map[]
    ensures m in Final(s, trace).pending
    ensures var now, after := Final(s, trace), AfterPass(Final(s, trace), m, activities);
            var b, cash := after.books[m], VenueCash(after.books[m].fills, now.venue[m]);
            && b.absorbed == now.books[m].absorbed
            && b.cash == cash - Sum(Twice(after.ledger, m, b))
            && (b.cash == cash <==> Sum(Twice(after.ledger, m, b)) == 0)
  {
    OnePassHeals(s, trace, m, activities);
    PassAgainstTheVenue(s, trace, m, activities);
  }

  // ---- two first boots without a stored book

  const NO_BOOK := State(map["paper" := map[]], map[], map[], map[], map[])

  lemma OneCharge(id: ActivityId, amount: Money)
    ensures Sum(map[id := amount]) == amount
  {
    SumPicks(map[id := amount], id);
    assert map[id := amount] - {id} == map[];
  }

  lemma OneMore(s: State, trace: seq<Event>, e: Event)
    requires Legal(s, trace) && Enabled(Final(s, trace), e)
    ensures Legal(s, trace + [e]) && Final(s, trace + [e]) == Step(Final(s, trace), e)
  {
    assert (trace + [e])[..|trace|] == trace;
  }

  const CHARGED_THEN_BOOTED: seq<Event> := [VenueCharges("paper", "cat", 5), Restart("paper", 100)]

  lemma Booted()
    ensures Start(NO_BOOK) && Legal(NO_BOOK, CHARGED_THEN_BOOTED)
    ensures Final(NO_BOOK, CHARGED_THEN_BOOTED)
         == State(map["paper" := map["cat" := 5]], map[], map["paper" := Book(95, 0, 100, map["cat" := 5])], map[],
                  map["paper" := {}])
  {
    OneMore(NO_BOOK, [], VenueCharges("paper", "cat", 5));
    assert [] + [VenueCharges("paper", "cat", 5)] == [VenueCharges("paper", "cat", 5)];
    OneMore(NO_BOOK, [VenueCharges("paper", "cat", 5)], Restart("paper", 100));
    assert [VenueCharges("paper", "cat", 5)] + [Restart("paper", 100)] == CHARGED_THEN_BOOTED;
    OneCharge("cat", 5);
  }

  // A run of such an account that ends with a worker up.
  ghost predicate BootedBook(trace: seq<Event>) {
    && Start(NO_BOOK) && Legal(NO_BOOK, trace)
    && "paper" in Final(NO_BOOK, trace).books && "paper" in Final(NO_BOOK, trace).pending
    && "paper" in Final(NO_BOOK, trace).venue
  }

  lemma PassAfterBoot(now: State, activities: seq<Activity>, total: Money)
    requires "paper" in now.books && "paper" in now.pending && now.ledger == map[]
    requires now.books["paper"].cash == 95 && now.books["paper"].settled == 0
    requires Total(Recorded(map[], activities, "paper"), "paper") == total
    ensures AfterPass(now, "paper", activities).books["paper"].cash == 95 - total
  {
    PassSettles(now, "paper", activities);
  }

  // The venue has charged 5 of 100 before the boot. If its feed reports the charge, the first pass takes
  // it again: 90 where the venue has 95.
  lemma ReportedFeeIsTakenAgain()
    ensures exists trace :: && BootedBook(trace)
                            && var now := Final(NO_BOOK, trace);
                               && Honest(now, Record("paper", [Activity("cat", 5)]))
                               && AfterPass(now, "paper", [Activity("cat", 5)]).books["paper"].cash == 90
                               && VenueCash(100, now.venue["paper"]) == 95
  {
    Booted();
    OneCharge("cat", 5);
    var now, acts := Final(NO_BOOK, CHARGED_THEN_BOOTED), [Activity("cat", 5)];
    assert acts[..0] == [] && ById(acts) == map["cat" := 5];
    assert Charges(Recorded(map[], acts, "paper"), "paper") == map["cat" := 5];
    PassAfterBoot(now, acts, 5);
    assert BootedBook(CHARGED_THEN_BOOTED);
  }

  lemma NothingReported()
    ensures Total(Recorded(map[], [], "paper"), "paper") == 0
  {
    assert Charges(Recorded(map[], [], "paper"), "paper") == map[];
  }

  // If the charge is too old for the feed, nothing is taken and the book is level.
  lemma UnreportedFeeIsNot()
    ensures exists trace :: && BootedBook(trace)
                            && var now := Final(NO_BOOK, trace);
                               && AfterPass(now, "paper", []).books["paper"].cash == 95
                               && VenueCash(100, now.venue["paper"]) == 95
  {
    Booted();
    OneCharge("cat", 5);
    NothingReported();
    PassAfterBoot(Final(NO_BOOK, CHARGED_THEN_BOOTED), [], 0);
    assert BootedBook(CHARGED_THEN_BOOTED);
  }

  // ---------------------------------------------------------------- every charge once

  predicate Reports(e: Event, id: ActivityId) {
    e.Record? && id in ById(e.activities)
  }

  function ChargeIn(e: Event, id: ActivityId): Charge
    requires Reports(e, id)
  {
    Charge(e.mode, ById(e.activities)[id])
  }

  // The i-th event is the first to report the charge.
  ghost predicate FirstReport(trace: seq<Event>, i: nat, id: ActivityId) {
    i < |trace| && Reports(trace[i], id) && forall j :: 0 <= j < i ==> !Reports(trace[j], id)
  }

  predicate NoRemoval(trace: seq<Event>) {
    forall i :: 0 <= i < |trace| ==> !trace[i].Remove?
  }

  lemma {:induction false} LedgerIsReported(s: State, trace: seq<Event>, id: ActivityId)
    requires Start(s) && Legal(s, trace) && NoRemoval(trace)
    ensures id in Final(s, trace).ledger <==>
            id in s.ledger || exists i :: 0 <= i < |trace| && Reports(trace[i], id)
  {
    if trace != [] {
      var n := |trace| - 1;
      var before := trace[..n];
      LedgerIsReported(s, before, id);
      assert forall i :: 0 <= i < n ==> trace[i] == before[i];
      assert id in Final(s, trace).ledger <==> id in Final(s, before).ledger || Reports(trace[n], id);
    }
  }

  // However often and under whatever account a charge is reported, the ledger keeps the account and
  // the amount of its first report: it counts once, and in one account only.
  lemma {:induction false} FirstReportStands(s: State, trace: seq<Event>, i: nat, id: ActivityId)
    requires Start(s) && Legal(s, trace) && NoRemoval(trace) && id !in s.ledger && FirstReport(trace, i, id)
    ensures id in Final(s, trace).ledger && Final(s, trace).ledger[id] == ChargeIn(trace[i], id)
  {
    var n := |trace| - 1;
    var before := trace[..n];
    if i < n {
      assert FirstReport(before, i, id);
      FirstReportStands(s, before, i, id);
    } else {
      LedgerIsReported(s, before, id);
      assert forall j :: 0 <= j < n ==> trace[j] == before[j];
    }
  }

  // Within one report the last entry of an id is the one that counts.
  lemma {:induction false} LastEntryCounts(activities: seq<Activity>, i: nat)
    requires i < |activities| && forall j :: i < j < |activities| ==> activities[j].id != activities[i].id
    ensures activities[i].id in ById(activities) && ById(activities)[activities[i].id] == activities[i].amount
  {
    if i < |activities| - 1 {
      LastEntryCounts(activities[..|activities| - 1], i);
    }
  }

  lemma {:induction false} OnlyEntriesCount(activities: seq<Activity>, id: ActivityId)
    requires id in ById(activities)
    ensures exists i :: 0 <= i < |activities| && activities[i].id == id
  {
    if activities[|activities| - 1].id != id {
      OnlyEntriesCount(activities[..|activities| - 1], id);
    }
  }

  // Recording keeps what is known and adds what is not, under the account that asked.
  lemma RecordedCharge(l: Ledger, activities: seq<Activity>, m: Mode, i: nat)
    requires i < |activities| && forall j :: i < j < |activities| ==> activities[j].id != activities[i].id
    ensures var id := activities[i].id;
            && id in Recorded(l, activities, m)
            && Recorded(l, activities, m)[id] == if id in l then l[id] else Charge(m, activities[i].amount)
  {
    LastEntryCounts(activities, i);
  }

  // Ids are unique only within one account, and the key is the id alone: a charge of this account is
  // counted in its total exactly when no other account had used the id before it.
  lemma ChargeCountsUnlessItsIdWasTaken(s: State, trace: seq<Event>, i: nat, k: nat, id: ActivityId)
    requires Start(s) && Legal(s, trace) && NoRemoval(trace) && id !in s.ledger
    requires FirstReport(trace, i, id) && k < |trace| && Reports(trace[k], id)
    ensures id in Charges(Final(s, trace).ledger, trace[k].mode) <==> trace[i].mode == trace[k].mode
  {
    FirstReportStands(s, trace, i, id);
  }

  // ---------------------------------------------------------------- what recording adds

  function Unseen(l: Ledger, activities: seq<Activity>): Charged {
    ById(activities) - l.Keys
  }

  lemma ChargesRecorded(l: Ledger, activities: seq<Activity>, m: Mode)
    ensures Charges(Recorded(l, activities, m), m) == Charges(l, m) + Unseen(l, activities)
    ensures Charges(l, m).Keys !! Unseen(l, activities).Keys
  {
  }

  lemma ChargesOfOthers(l: Ledger, activities: seq<Activity>, m: Mode, other: Mode)
    requires other != m
    ensures Charges(Recorded(l, activities, m), other) == Charges(l, other)
  {
  }

  // Recording raises the account's total by the charges not known before, and leaves every other
  // account's total alone.
  lemma RecordingAddsTheUnseen(l: Ledger, activities: seq<Activity>, m: Mode, other: Mode)
    ensures Total(Recorded(l, activities, m), m) == Total(l, m) + Sum(Unseen(l, activities))
    ensures other != m ==> Total(Recorded(l, activities, m), other) == Total(l, other)
  {
    ChargesRecorded(l, activities, m);
    SumOfBoth(Charges(l, m), Unseen(l, activities));
    if other != m {
      ChargesOfOthers(l, activities, m, other);
    }
  }

  // The earlier design moved cash by what a recording had just inserted. A pass that recorded and then
  // died left nothing for a later pass over the same report to move, while the present design moves
  // exactly what the dead one should have.
  lemma DeadPassIsMadeGood(l: Ledger, activities: seq<Activity>, m: Mode, b: Book)
    requires Balanced(b) && b.settled == Total(l, m)
    ensures var after := Recorded(l, activities, m);
            && Recorded(after, activities, m) == after
            && Sum(Unseen(after, activities)) == 0
            && Settled(b, Total(after, m)).cash == b.cash - Sum(Unseen(l, activities))
  {
    RecordingAddsTheUnseen(l, activities, m, m);
    var after := Recorded(l, activities, m);
    assert Unseen(after, activities) == map[];
    assert Recorded(after, activities, m) == after;
  }
}
