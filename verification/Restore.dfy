// Restoring in scripts/backup_db.py: _restore_into, cmd_restore and cmd_verify.
//
// Every command sent to the server may fail, before it takes effect or after, and the process may
// die between any two of them. Server records each state it passes through and each command sent,
// so what holds "throughout" holds wherever the run stops.
module Restore {
  import opened Common
  import opened RestoreCheck

  // ---------------------------------------------------------------- the server

  // `restoring` is the flag timescaledb_pre_restore() leaves on a database.
  datatype Db = Db(contents: Contents, restoring: bool)

  type Databases = map<string, Db>

  const EMPTY := Db(Contents(map[], {}, 0), false)

  datatype Command =
    | Detach(db: string)
    | Rename(db: string, to: string)
    | Create(db: string)
    | Extension(db: string)
    | PreRestore(db: string)
    | Load(db: string, contents: Contents)
    | PostRestore(db: string)
    | Drop(db: string)

  // Carried out; not carried out and an error; carried out, but reported as an error.
  datatype Outcome = Done | Refused | Lost

  // What a command does, or None where the server has to reject it.
  function Effect(dbs: Databases, c: Command): Option<Databases> {
    match c
    case Rename(a, b) => if a in dbs && b !in dbs then Some((dbs - {a})[b := dbs[a]]) else None
    case Create(d) => if d in dbs then None else Some(dbs[d := EMPTY])
    case PreRestore(d) => if d in dbs then Some(dbs[d := dbs[d].(restoring := true)]) else None
    case Load(d, got) => if d in dbs then Some(dbs[d := dbs[d].(contents := got)]) else None
    case PostRestore(d) => if d in dbs then Some(dbs[d := dbs[d].(restoring := false)]) else None
    case Drop(d) => Some(dbs - {d})
    case _ => Some(dbs)
  }

  function Sending(dbs: Databases, c: Command, o: Outcome): Databases {
    if o.Refused? || Effect(dbs, c).None? then dbs else Effect(dbs, c).value
  }

  class Server {
    var databases: Databases
    ghost var passed: seq<Databases>
    ghost var sent: seq<Command>

    constructor (databases: Databases)
      ensures this.databases == databases && passed == [] && sent == []
    {
      this.databases := databases;
      passed, sent := [], [];
    }

    method Send(c: Command, o: Outcome) returns (ok: bool)
      modifies this
      ensures databases == Sending(old(databases), c, o)
      ensures passed == old(passed) + [databases] && sent == old(sent) + [c]
      ensures ok <==> o.Done? && Effect(old(databases), c).Some?
    {
      var next := Effect(databases, c);
      ok := o.Done? && next.Some?;
      if !o.Refused? && next.Some? {
        databases := next.value;
      }
      passed, sent := passed + [databases], sent + [c];
    }
  }

  // The outcome of each command, what a failed pg_restore leaves behind, and whether the queries
  // that only read go through.
  datatype Script = Script(detach: Outcome, rename: Outcome, create: Outcome, extension: Outcome,
                           pre: Outcome, opens: bool, load: Outcome, partial: Contents,
                           post: Outcome, drop: Outcome, queries: bool)

  // ---------------------------------------------------------------- _restore_into

  // All databases but one are as they were.
  predicate OthersKept(was: Databases, now: Databases, db: string) {
    && (forall n :: n in was && n != db ==> n in now && now[n] == was[n])
    && (forall n :: n in now && n != db ==> n in was)
  }

  // The commands that act within one database.
  predicate ActsWithin(c: Command, db: string) {
    (c.Extension? || c.PreRestore? || c.Load? || c.PostRestore?) && c.db == db
  }

  lemma OthersStay(was: Databases, dbs: Databases, c: Command, o: Outcome, db: string)
    requires OthersKept(was, dbs, db) && ActsWithin(c, db) && db in dbs
    ensures OthersKept(was, Sending(dbs, c, o), db) && db in Sending(dbs, c, o)
  {
  }

  // Sends one command that acts within the database.
  method SendWithin(s: Server, ghost was: Databases, c: Command, o: Outcome, db: string) returns (ok: bool)
    requires OthersKept(was, s.databases, db) && ActsWithin(c, db) && db in s.databases
    modifies s
    ensures s.databases == Sending(old(s.databases), c, o)
    ensures s.passed == old(s.passed) + [s.databases] && s.sent == old(s.sent) + [c]
    ensures OthersKept(was, s.databases, db) && db in s.databases
    ensures ok <==> o.Done?
  {
    OthersStay(was, s.databases, c, o, db);
    ok := s.Send(c, o);
  }

  // pg_restore, if it gets as far as being run.
  function Loading(db: string, dump: Contents, x: Script): seq<Command> {
    if x.opens then [Load(db, if x.load.Done? then dump else x.partial)] else []
  }

  // Everything sent to restore into an empty database: once the bracket is open, closing it is the last
  // thing done, whatever goes wrong in between.
  function Restoring(db: string, dump: Contents, timescale: bool, x: Script): seq<Command> {
    if !timescale then Loading(db, dump, x)
    else if !x.extension.Done? then [Extension(db)]
    else if !x.pre.Done? then [Extension(db), PreRestore(db)]
    else [Extension(db), PreRestore(db)] + Loading(db, dump, x) + [PostRestore(db)]
  }

  method OpenBracket(s: Server, ghost was: Databases, db: string, x: Script) returns (ok: bool)
    requires OthersKept(was, s.databases, db) && db in s.databases && !s.databases[db].restoring
    modifies s
    ensures old(s.passed) <= s.passed
    ensures s.sent == old(s.sent) + if x.extension.Done? then [Extension(db), PreRestore(db)] else [Extension(db)]
    ensures forall i :: |old(s.passed)| <= i < |s.passed| ==> OthersKept(was, s.passed[i], db)
    ensures OthersKept(was, s.databases, db) && db in s.databases
    ensures s.databases[db].restoring <==> x.extension.Done? && !x.pre.Refused?
    ensures ok <==> x.extension.Done? && x.pre.Done?
  {
    ok := SendWithin(s, was, Extension(db), x.extension, db);
    if ok {
      ok := SendWithin(s, was, PreRestore(db), x.pre, db);
    }
  }

  method LoadDump(s: Server, ghost was: Databases, db: string, dump: Contents, x: Script) returns (ok: bool)
    requires OthersKept(was, s.databases, db) && db in s.databases
    modifies s
    ensures old(s.passed) <= s.passed
    ensures s.sent == old(s.sent) + Loading(db, dump, x)
    ensures forall i :: |old(s.passed)| <= i < |s.passed| ==> OthersKept(was, s.passed[i], db)
    ensures OthersKept(was, s.databases, db) && db in s.databases
    ensures s.databases[db].restoring == old(s.databases)[db].restoring
    ensures ok <==> x.opens && x.load.Done?
    ensures ok ==> s.databases[db].contents == dump
  {
    if !x.opens { return false; }
    ok := SendWithin(s, was, Load(db, if x.load.Done? then dump else x.partial), x.load, db);
  }

  method RestoreInto(s: Server, db: string, dump: Contents, timescale: bool, x: Script) returns (ok: bool)
    requires db in s.databases && !s.databases[db].restoring
    modifies s
    ensures old(s.passed) <= s.passed && old(s.sent) <= s.sent
    ensures OthersKept(old(s.databases), s.databases, db) && db in s.databases
    ensures forall i :: |old(s.passed)| <= i < |s.passed| ==> OthersKept(old(s.databases), s.passed[i], db)
    ensures ok ==> s.databases[db] == Db(dump, false)
    ensures ok <==> x.opens && x.load.Done? && (timescale ==> x.extension.Done? && x.pre.Done? && x.post.Done?)
    ensures s.sent == old(s.sent) + Restoring(db, dump, timescale, x)
    ensures s.databases[db].restoring <==>
              timescale && x.extension.Done? && (x.pre.Lost? || (x.pre.Done? && x.post.Refused?))
  {
    ghost var was := s.databases;
    if timescale {
      var bracketed := OpenBracket(s, was, db, x);
      if !bracketed { return false; }
    }
    ok := LoadDump(s, was, db, dump, x);
    if timescale {
      var closed := SendWithin(s, was, PostRestore(db), x.post, db);
      ok := ok && closed;
    }
  }

  // ---------------------------------------------------------------- cmd_restore

  // The manifest beside a dump, if there is one that can be read.
  datatype Beside =
    | NoManifest
    | Unreadable
    | Readable(manifest: Manifest, checksumOk: bool, mode: string, timescale: bool)

  datatype RestoreArgs = RestoreArgs(dumpExists: bool, beside: Beside, here: string, force: bool,
                                     connections: nat, into: string, overwrite: bool, stamp: string)

  // Whether a restore may begin. An empty run mode is an unknown one.
  predicate MayRestore(a: RestoreArgs, dbs: Databases) {
    && a.dumpExists
    && !a.beside.Unreadable?
    && (a.beside.Readable? ==>
          && a.beside.checksumOk
          && (a.beside.mode == "" || a.here == "" || a.beside.mode == a.here || a.force))
    && a.connections == 0
    && (a.into in dbs ==> a.overwrite)
  }

  function Timescale(a: RestoreArgs): bool {
    if a.beside.Readable? then a.beside.timescale else true
  }

  // Whatever was there is still there in full: under its own name, or for the database restored
  // into, possibly under the name it was set aside to.
  predicate NothingLost(was: Databases, now: Databases, into: string, aside: string) {
    && (forall n :: n in was && n != into ==> n in now && now[n] == was[n])
    && (into in was ==> (into in now && now[into] == was[into]) || (aside in now && now[aside] == was[into]))
  }

  // PostgreSQL cuts an identifier off after 63 bytes.
  const IDENTIFIER_LENGTH: nat := 63

  function Identifier(name: string): string {
    if |name| <= IDENTIFIER_LENGTH then name else name[..IDENTIFIER_LENGTH]
  }

  // Each of the two flags lifts its own refusal and no other.
  lemma FlagsLiftOneRefusalEach(a: RestoreArgs, dbs: Databases)
    ensures MayRestore(a.(force := true), dbs) && !MayRestore(a.(force := false), dbs) <==>
            && MayRestore(a.(force := true), dbs)
            && a.beside.Readable? && a.beside.mode != "" && a.here != "" && a.beside.mode != a.here
    ensures MayRestore(a.(overwrite := true), dbs) && !MayRestore(a.(overwrite := false), dbs) <==>
            MayRestore(a.(overwrite := true), dbs) && a.into in dbs
    ensures MayRestore(a.(force := true, overwrite := true), dbs) ==>
            a.dumpExists && a.connections == 0 && (a.beside.NoManifest? || (a.beside.Readable? && a.beside.checksumOk))
  {
  }

  // The name an existing database is set aside to. It is the database's own name for a name of the
  // full length, and only for one.
  function Aside(a: RestoreArgs): (aside: string)
    ensures |aside| <= 63 && aside <= a.into + "_replaced_" + a.stamp
    ensures |a.into| + |a.stamp| <= 53 ==> aside == a.into + "_replaced_" + a.stamp
    ensures aside == a.into <==> |a.into| == 63
  {
    Identifier(a.into + "_replaced_" + a.stamp)
  }

  datatype Ending = Restored | NotStarted | Failed

  // The refusals, in the order they are made.
  method Checked(a: RestoreArgs, there: bool) returns (may: bool)
    ensures forall dbs: Databases :: (a.into in dbs <==> there) ==> (may <==> MayRestore(a, dbs))
  {
    if !a.dumpExists { return false; }
    if a.beside.Unreadable? { return false; }
    if a.beside.Readable? {
      if !a.beside.checksumOk { return false; }
      if a.beside.mode != "" && a.here != "" && a.beside.mode != a.here && !a.force { return false; }
    }
    if a.connections > 0 { return false; }
    if there {
      if !a.overwrite { return false; }
    }
    return true;
  }

  // What is sent to make room for a restore.
  function Clearing(dbs: Databases, into: string, aside: string, x: Script): seq<Command> {
    if into !in dbs then [Create(into)]
    else if !x.detach.Done? then [Detach(into)]
    else if !x.rename.Done? || aside in dbs then [Detach(into), Rename(into, aside)]
    else [Detach(into), Rename(into, aside), Create(into)]
  }

  // Whether room is made.
  predicate HasRoom(dbs: Databases, into: string, aside: string, x: Script) {
    x.create.Done? && (into in dbs ==> x.detach.Done? && x.rename.Done? && aside !in dbs)
  }

  lemma BracketIsLast(sent: seq<Command>, dbs: Databases, a: RestoreArgs, dump: Contents, x: Script)
    requires sent == Clearing(dbs, a.into, Aside(a), x)
                     + if HasRoom(dbs, a.into, Aside(a), x) then Restoring(a.into, dump, Timescale(a), x) else []
    ensures PreRestore(a.into) in sent && x.pre.Done? ==> sent[|sent| - 1] == PostRestore(a.into)
  {
  }

  // A restore into a database made for it, with nothing lost on the way.
  method RestoreAfresh(s: Server, into: string, aside: string, dump: Contents, timescale: bool, x: Script)
    returns (ok: bool)
    modifies s
    ensures old(s.passed) <= s.passed && old(s.sent) <= s.sent
    ensures NothingLost(old(s.databases), s.databases, into, aside)
    ensures forall i :: |old(s.passed)| <= i < |s.passed| ==>
              NothingLost(old(s.databases), s.passed[i], into, aside)
    ensures ok <==>
              && HasRoom(old(s.databases), into, aside, x) && x.opens && x.load.Done?
              && (timescale ==> x.extension.Done? && x.pre.Done? && x.post.Done?)
    ensures ok ==> into in s.databases && s.databases[into] == Db(dump, false)
    ensures ok && into in old(s.databases) ==>
              aside in s.databases && s.databases[aside] == old(s.databases)[into]
    ensures s.sent == old(s.sent) + Clearing(old(s.databases), into, aside, x)
                      + if HasRoom(old(s.databases), into, aside, x) then Restoring(into, dump, timescale, x) else []
  {
    ghost var was := s.databases;
    var ready := MakeRoom(s, into, aside, x);
    if !ready { return false; }
    ghost var mid := s.databases;
    ok := RestoreInto(s, into, dump, timescale, x);
    forall now | OthersKept(mid, now, into) ensures NothingLost(was, now, into, aside) {
      OnlyTheNewOneChanges(was, mid, now, into, aside);
    }
  }

  method CmdRestore(s: Server, a: RestoreArgs, dump: Contents, x: Script) returns (ending: Ending)
    modifies s
    ensures old(s.passed) <= s.passed && old(s.sent) <= s.sent
    ensures NothingLost(old(s.databases), s.databases, a.into, Aside(a))
    ensures forall i :: |old(s.passed)| <= i < |s.passed| ==>
              NothingLost(old(s.databases), s.passed[i], a.into, Aside(a))
    // Nothing begins without the dump, beside a manifest that cannot be read or does not match it,
    // into a database in use or, unless it is to be overwritten, one that exists; nor, unless it is
    // forced, across two known run modes.
    ensures ending == NotStarted <==>
              || !a.dumpExists
              || a.beside.Unreadable?
              || (a.beside.Readable? && !a.beside.checksumOk)
              || (&& a.beside.Readable? && a.beside.mode != "" && a.here != "" && a.beside.mode != a.here
                  && !a.force)
              || a.connections > 0
              || (a.into in old(s.databases) && !a.overwrite)
    ensures ending == NotStarted ==> s.databases == old(s.databases) && s.sent == old(s.sent)
    // What has begun succeeds exactly when every step does and the old database has a name to go to.
    ensures ending == Restored <==>
              && ending != NotStarted
              && (a.into in old(s.databases) ==>
                    x.detach.Done? && x.rename.Done? && Aside(a) !in old(s.databases))
              && x.create.Done? && x.opens && x.load.Done? && x.queries
              && ((a.beside.Readable? ==> a.beside.timescale) ==>
                    x.extension.Done? && x.pre.Done? && x.post.Done?)
    ensures ending == Restored ==>
              && a.into in s.databases && s.databases[a.into] == Db(dump, false)
              && (a.into in old(s.databases) ==>
                    Aside(a) in s.databases && s.databases[Aside(a)] == old(s.databases)[a.into])
    ensures ending == Restored ==>
              var clearing := if a.into in old(s.databases) then [Detach(a.into), Rename(a.into, Aside(a))] else [];
              var loading := if a.beside.Readable? && !a.beside.timescale then [Load(a.into, dump)]
                             else [Extension(a.into), PreRestore(a.into), Load(a.into, dump), PostRestore(a.into)];
              s.sent == old(s.sent) + (clearing + [Create(a.into)] + loading)
    ensures PreRestore(a.into) in s.sent[|old(s.sent)|..] && x.pre.Done? ==>
              s.sent[|s.sent| - 1] == PostRestore(a.into)
  {
    var may := Checked(a, a.into in s.databases);
    if !may { return NotStarted; }
    var ok := RestoreAfresh(s, a.into, Aside(a), dump, Timescale(a), x);
    BracketIsLast(s.sent[|old(s.sent)|..], old(s.databases), a, dump, x);
    ending := if ok && x.queries then Restored else Failed;
  }

  // An empty database to restore into. The old one is renamed, never dropped.
  method MakeRoom(s: Server, into: string, aside: string, x: Script) returns (ready: bool)
    modifies s
    ensures old(s.passed) <= s.passed && old(s.sent) <= s.sent
    ensures s.sent == old(s.sent) + Clearing(old(s.databases), into, aside, x)
    ensures NothingLost(old(s.databases), s.databases, into, aside)
    ensures forall i :: |old(s.passed)| <= i < |s.passed| ==>
              NothingLost(old(s.databases), s.passed[i], into, aside)
    ensures ready ==> into in s.databases && s.databases[into] == EMPTY
    ensures ready <==> HasRoom(old(s.databases), into, aside, x)
    ensures ready && into in old(s.databases) ==>
              aside != into && aside in s.databases && s.databases[aside] == old(s.databases)[into]
  {
    if into in s.databases {
      ready := s.Send(Detach(into), x.detach);
      if !ready { return; }
      ready := s.Send(Rename(into, aside), x.rename);
      if !ready { return; }
    }
    ready := s.Send(Create(into), x.create);
  }

  lemma OnlyTheNewOneChanges(was: Databases, mid: Databases, now: Databases, into: string, aside: string)
    requires OthersKept(mid, now, into)
    requires forall n :: n in was && n != into ==> n in mid && mid[n] == was[n]
    requires into in was ==> aside != into && aside in mid && mid[aside] == was[into]
    ensures NothingLost(was, now, into, aside)
  {
  }

  // ---------------------------------------------------------------- cmd_verify

  datatype VerifyArgs = VerifyArgs(dumpExists: bool, beside: Beside, source: string, scratch: string, keep: bool)

  predicate MayVerify(a: VerifyArgs) {
    a.dumpExists && a.beside.Readable? && a.beside.checksumOk && a.scratch != a.source
  }

  // Exit codes: verified, checked and not good, could not check.
  datatype Verdict = Verified | Unverified | Unavailable

  // What happens between the creation of the scratch database and its removal.
  method RestoreAndCompare(s: Server, db: string, dump: Contents, m: Manifest, timescale: bool, x: Script)
    returns (verdict: Verdict)
    requires db in s.databases && !s.databases[db].restoring
    modifies s
    ensures old(s.passed) <= s.passed && old(s.sent) <= s.sent
    ensures OthersKept(old(s.databases), s.databases, db) && db in s.databases
    ensures forall i :: |old(s.passed)| <= i < |s.passed| ==> OthersKept(old(s.databases), s.passed[i], db)
    ensures verdict == Verified ==> Matches(dump, m)
    ensures verdict == Unverified ==> !Matches(dump, m)
    ensures verdict == Unavailable <==>
              !(&& x.opens && x.load.Done? && x.queries
                && (timescale ==> x.extension.Done? && x.pre.Done? && x.post.Done?))
    ensures PreRestore(db) in s.sent[|old(s.sent)|..] && x.pre.Done? ==> s.sent[|s.sent| - 1] == PostRestore(db)
  {
    var ok := RestoreInto(s, db, dump, timescale, x);
    if !ok || !x.queries { return Unavailable; }
    var failures := Compare(s.databases[db].contents, m);
    return if failures != [] then Unverified else Verified;
  }

  lemma Inside(c: Command, first: Command, inside: seq<Command>, last: seq<Command>)
    requires c in [first] + inside + last && c != first && c !in last
    ensures c in inside
  {
  }

  // The scratch database, up to its removal.
  method FillScratch(s: Server, a: VerifyArgs, dump: Contents, x: Script) returns (created: bool, verdict: Verdict)
    requires MayVerify(a)
    modifies s
    ensures old(s.passed) <= s.passed && old(s.sent) <= s.sent
    ensures forall i :: |old(s.passed)| <= i < |s.passed| ==> OthersKept(old(s.databases), s.passed[i], a.scratch)
    ensures OthersKept(old(s.databases), s.databases, a.scratch)
    ensures a.scratch in old(s.databases) ==> s.databases == old(s.databases)
    ensures |s.sent| > |old(s.sent)|
    ensures created <==> a.scratch !in old(s.databases) && x.create.Done?
    ensures a.scratch !in old(s.databases) ==> (a.scratch in s.databases <==> !x.create.Refused?)
    ensures PreRestore(a.scratch) in s.sent[|old(s.sent)|..] ==> created
    ensures PreRestore(a.scratch) in s.sent[|old(s.sent)|..] && x.pre.Done? ==>
              s.sent[|s.sent| - 1] == PostRestore(a.scratch)
    ensures !created ==> verdict == Unavailable
    ensures verdict == Verified ==> Matches(dump, a.beside.manifest)
    ensures verdict == Unverified ==> !Matches(dump, a.beside.manifest)
    ensures verdict == Unavailable <==>
              !(&& created && x.opens && x.load.Done? && x.queries
                && (a.beside.timescale ==> x.extension.Done? && x.pre.Done? && x.post.Done?))
  {
    created := s.Send(Create(a.scratch), x.create);
    if !created { return false, Unavailable; }
    ghost var begun := s.sent;
    verdict := RestoreAndCompare(s, a.scratch, dump, a.beside.manifest, a.beside.timescale, x);
    assert s.sent[|old(s.sent)|..] == [Create(a.scratch)] + s.sent[|begun|..] + [];
    if PreRestore(a.scratch) in s.sent[|old(s.sent)|..] {
      Inside(PreRestore(a.scratch), Create(a.scratch), s.sent[|begun|..], []);
    }
  }

  lemma DropKeeps(was: Databases, dbs: Databases, o: Outcome, db: string)
    requires OthersKept(was, dbs, db)
    ensures OthersKept(was, Sending(dbs, Drop(db), o), db)
    ensures db in dbs ==> (db in Sending(dbs, Drop(db), o) <==> o.Refused?)
  {
  }

  method CmdVerify(s: Server, a: VerifyArgs, dump: Contents, x: Script) returns (verdict: Verdict)
    modifies s
    ensures old(s.sent) <= s.sent
    // Without a dump, or a manifest to check it against, or a database of its own, nothing is done; nor
    // for a dump that does not match its manifest, which is as bad as one that does not come back.
    ensures !a.dumpExists || !a.beside.Readable? ==> verdict == Unavailable && s.sent == old(s.sent)
    ensures a.dumpExists && a.beside.Readable? && !a.beside.checksumOk ==>
              verdict == Unverified && s.sent == old(s.sent)
    ensures a.dumpExists && a.beside.Readable? && a.beside.checksumOk && a.scratch == a.source ==>
              verdict == Unavailable && s.sent == old(s.sent)
    ensures s.sent == old(s.sent) ==> s.databases == old(s.databases)
    // No database but the scratch one is ever touched, and a database that already had that name
    // is not either.
    ensures forall i :: |old(s.passed)| <= i < |s.passed| ==>
              OthersKept(old(s.databases), s.passed[i], a.scratch)
    ensures OthersKept(old(s.databases), s.databases, a.scratch)
    ensures a.scratch in old(s.databases) ==> s.databases == old(s.databases)
    // The scratch database is dropped on every path after its creation, unless it is to be kept.
    ensures s.sent != old(s.sent) && a.scratch !in old(s.databases) && x.create.Done? && !a.keep ==>
              s.sent[|s.sent| - 1] == Drop(a.scratch)
    ensures a.scratch !in old(s.databases) ==>
              (a.scratch in s.databases <==>
                 s.sent != old(s.sent) && (x.create.Lost? || (x.create.Done? && (a.keep || x.drop.Refused?))))
    // Once the restoring bracket is open, closing it is the last thing done before that.
    ensures PreRestore(a.scratch) in s.sent[|old(s.sent)|..] && x.pre.Done? ==>
              |s.sent| >= 2 && s.sent[|s.sent| - if a.keep then 1 else 2] == PostRestore(a.scratch)
    // A dump that matches its manifest is good exactly when it came back whole and as counted.
    ensures a.dumpExists && a.beside.Readable? && a.beside.checksumOk && a.scratch != a.source ==>
              && s.sent != old(s.sent)
              && (verdict == Unavailable <==>
                    !(&& a.scratch !in old(s.databases) && x.create.Done?
                      && x.opens && x.load.Done? && x.queries
                      && (a.beside.timescale ==> x.extension.Done? && x.pre.Done? && x.post.Done?)
                      && (a.keep || x.drop.Done?)))
              && (verdict == Verified ==> Matches(dump, a.beside.manifest))
              && (verdict == Unverified ==> !Matches(dump, a.beside.manifest))
  {
    if !a.dumpExists { return Unavailable; }
    if !a.beside.Readable? { return Unavailable; }
    if !a.beside.checksumOk { return Unverified; }
    if a.scratch == a.source { return Unavailable; }
    ghost var was, before := s.databases, s.sent;
    var created;
    created, verdict := FillScratch(s, a, dump, x);
    if created && !a.keep {
      ghost var filled := s.sent;
      DropKeeps(was, s.databases, x.drop, a.scratch);
      var dropped := s.Send(Drop(a.scratch), x.drop);
      assert s.sent[|before|..] == filled[|before|..] + [Drop(a.scratch)];
      if !dropped { verdict := Unavailable; }
    }
  }
}
