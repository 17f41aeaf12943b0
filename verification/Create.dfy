// Taking a backup: cmd_create in scripts/backup_db.py, with a failure possible at every step.
//
// The dump is written under another name and renamed when it is complete. Disk records each state it
// passes through, so what holds "throughout" holds wherever the process dies.
module Create {
  import opened Common
  import opened BackupNames
  import opened RestoreCheck
  import Retention

  // An archive, whole or cut short; a manifest with the contents its checksum was taken of; or a
  // manifest that was not written to its end.
  datatype File = Archive(contents: Contents, whole: bool) | Record(manifest: Manifest, of: Contents) | Torn

  type Files = map<string, File>

  function DumpName(database: string, stamp: string): string {
    FileName(database, stamp)
  }

  function PartName(database: string, stamp: string): string {
    RemoveSuffix(FileName(database, stamp), SUFFIX) + ".part"
  }

  class Disk {
    var files: Files
    ghost var passed: seq<Files>

    constructor (files: Files)
      ensures this.files == files && passed == []
    {
      this.files := files;
      passed := [];
    }

    method Write(name: string, file: File)
      modifies this
      ensures files == old(files)[name := file] && passed == old(passed) + [files]
    {
      files := files[name := file];
      passed := passed + [files];
    }

    // os.replace: one step, over whatever has the new name.
    method Replace(name: string, to: string)
      requires name in files
      modifies this
      ensures files == (old(files) - {name})[to := old(files)[name]] && passed == old(passed) + [files]
    {
      files := (files - {name})[to := files[name]];
      passed := passed + [files];
    }

    method Remove(name: string)
      modifies this
      ensures files == old(files) - {name} && passed == old(passed) + [files]
    {
      files := files - {name};
      passed := passed + [files];
    }
  }

  // Which steps go through. A pg_dump that fails leaves what it had written by then.
  datatype Writing = Complete | Interrupted | NotBegun

  datatype Script = Script(opens: bool, dumps: bool, partial: Contents, recounts: bool, renames: bool,
                           cleansUp: bool, record: Writing)

  // Up to the rename nothing has happened that shows.
  predicate Replaced(x: Script) {
    x.opens && x.dumps && x.recounts && x.renames
  }

  // Seen by whoever looks for backups: every dump that was there is there unchanged, and the new one
  // is either not there yet or there in full.
  ghost predicate OnlyWholeDumps(was: Files, now: Files, dump: string, snapshot: Contents) {
    forall name :: EndsWith(name, SUFFIX) ==>
      || (name in was && name in now && now[name] == was[name])
      || (name !in was && name !in now)
      || (name == dump && name in now && now[name] == Archive(snapshot, true))
  }

  lemma StillOnlyWhole(was: Files, now: Files, dump: string, snapshot: Contents, name: string, file: File)
    requires OnlyWholeDumps(was, now, dump, snapshot) && !EndsWith(name, SUFFIX)
    ensures OnlyWholeDumps(was, now[name := file], dump, snapshot)
    ensures OnlyWholeDumps(was, now - {name}, dump, snapshot)
  {
  }

  // What the directory holds in the end.
  function Left(was: Files, dump: string, part: string, beside: string, snapshot: Contents, m: Manifest,
                x: Script): Files
  {
    if Replaced(x) then
      var done := (was - {part})[dump := Archive(snapshot, true)];
      match x.record
      case Complete => done[beside := Record(m, snapshot)]
      case Interrupted => done[beside := Torn]
      case NotBegun => done
    else if x.cleansUp then was - {part}
    else if !x.opens then was
    else was[part := Archive(if x.dumps then snapshot else x.partial, x.dumps)]
  }

  // What the directory holds after taking a backup of `database` at `stamp`.
  function DirectoryAfter(was: Files, database: string, stamp: string, snapshot: Contents, m: Manifest,
                          x: Script): Files
  {
    Left(was, DumpName(database, stamp), PartName(database, stamp),
         Retention.ManifestName(DumpName(database, stamp)), snapshot, m, x)
  }

  // A whole dump whose name says database and stamp, beside the manifest of its contents.
  ghost predicate HoldsBackup(files: Files, database: string, stamp: string, snapshot: Contents, m: Manifest) {
    exists name :: IsBackup(files, name, database, stamp, snapshot, m)
  }

  predicate IsBackup(files: Files, name: string, database: string, stamp: string, snapshot: Contents, m: Manifest) {
    && EndsWith(name, ".dump") && ParseName(name) == Some((database, stamp))
    && name in files && files[name] == Archive(snapshot, true)
    && name + ".json" in files && files[name + ".json"] == Record(m, snapshot)
  }

  // Nothing is new or changed, and nothing is gone but unfinished dumps.
  ghost predicate OnlyPartsLost(was: Files, now: Files) {
    && (forall name :: name in now ==> name in was && now[name] == was[name])
    && (forall name :: name in was && name !in now ==> EndsWith(name, ".part"))
  }

  // What a written name says: exactly the database and the stamp it was written for.
  lemma WrittenNameParses(database: string, stamp: string)
    requires Nameable(database, stamp)
    ensures ParseName(DumpName(database, stamp)) == Some((database, stamp))
    ensures EndsWith(DumpName(database, stamp), ".dump")
  {
    NameRoundTrip(database, stamp);
    OtherNames(database, stamp);
  }

  // A name as it looks.
  lemma NameAsWritten()
    ensures DumpName("atp", "20260101T000000Z") == "atp-atp-20260101T000000Z.dump"
    ensures PartName("atp", "20260101T000000Z") == "atp-atp-20260101T000000Z.part"
  {
    var stem := "atp-atp-20260101T000000Z";
    assert Stem("atp", "20260101T000000Z") == stem;
    assert (stem + SUFFIX)[..|stem|] == stem && (stem + SUFFIX)[|stem|..] == SUFFIX;
  }

  lemma BackupIsHeld(was: Files, now: Files, database: string, stamp: string, snapshot: Contents, m: Manifest,
                     x: Script)
    requires Nameable(database, stamp) && Replaced(x) && x.record.Complete?
    requires now == DirectoryAfter(was, database, stamp, snapshot, m, x)
    ensures HoldsBackup(now, database, stamp, snapshot, m)
  {
    WrittenNameParses(database, stamp);
    OtherNames(database, stamp);
    assert IsBackup(now, DumpName(database, stamp), database, stamp, snapshot, m);
  }

  lemma PartEnds(database: string, stamp: string)
    ensures EndsWith(PartName(database, stamp), ".part")
  {
  }

  method CmdCreate(d: Disk, database: string, stamp: string, snapshot: Contents, m: Manifest, x: Script)
    returns (ok: bool)
    modifies d
    ensures old(d.passed) <= d.passed
    ensures forall i :: |old(d.passed)| <= i < |d.passed| ==>
              OnlyWholeDumps(old(d.files), d.passed[i], DumpName(database, stamp), snapshot)
    ensures OnlyWholeDumps(old(d.files), d.files, DumpName(database, stamp), snapshot)
    ensures ok <==> Replaced(x) && x.record.Complete?
    ensures d.files == DirectoryAfter(old(d.files), database, stamp, snapshot, m, x)
    ensures ok && Nameable(database, stamp) ==> HoldsBackup(d.files, database, stamp, snapshot, m)
    ensures !(x.opens && x.dumps && x.recounts && x.renames) && x.cleansUp ==> OnlyPartsLost(old(d.files), d.files)
  {
    OtherNames(database, stamp);
    ok := Create(d, DumpName(database, stamp), PartName(database, stamp),
                 Retention.ManifestName(DumpName(database, stamp)), snapshot, m, x);
    if ok && Nameable(database, stamp) {
      BackupIsHeld(old(d.files), d.files, database, stamp, snapshot, m, x);
    }
    if !Replaced(x) && x.cleansUp {
      PartEnds(database, stamp);
    }
  }

  // pg_dump into the unfinished file, which is opened first.
  method FillPart(d: Disk, ghost was: Files, ghost dump: string, part: string, snapshot: Contents, x: Script)
    requires !EndsWith(part, SUFFIX) && d.files == was
    modifies d
    ensures old(d.passed) <= d.passed
    ensures forall i :: |old(d.passed)| <= i < |d.passed| ==> OnlyWholeDumps(was, d.passed[i], dump, snapshot)
    ensures OnlyWholeDumps(was, d.files, dump, snapshot)
    ensures d.files == if !x.opens then was
                       else was[part := Archive(if x.dumps then snapshot else x.partial, x.dumps)]
  {
    if x.opens {
      StillOnlyWhole(was, d.files, dump, snapshot, part, Archive(if x.dumps then snapshot else x.partial, false));
      d.Write(part, Archive(if x.dumps then snapshot else x.partial, false));
      if x.dumps {
        StillOnlyWhole(was, d.files, dump, snapshot, part, Archive(snapshot, true));
        d.Write(part, Archive(snapshot, true));
      }
    }
  }

  method Create(d: Disk, dump: string, part: string, beside: string, snapshot: Contents, m: Manifest, x: Script)
    returns (ok: bool)
    requires EndsWith(dump, SUFFIX) && !EndsWith(part, SUFFIX) && !EndsWith(beside, SUFFIX)
    modifies d
    ensures old(d.passed) <= d.passed
    ensures forall i :: |old(d.passed)| <= i < |d.passed| ==>
              OnlyWholeDumps(old(d.files), d.passed[i], dump, snapshot)
    ensures OnlyWholeDumps(old(d.files), d.files, dump, snapshot)
    ensures ok <==> Replaced(x) && x.record.Complete?
    ensures d.files == Left(old(d.files), dump, part, beside, snapshot, m, x)
  {
    ghost var was := d.files;
    FillPart(d, was, dump, part, snapshot, x);
    if !x.opens || !x.dumps || !x.recounts || !x.renames {
      if x.cleansUp {
        StillOnlyWhole(was, d.files, dump, snapshot, part, Torn);
        d.Remove(part);
      }
      return false;
    }
    d.Replace(part, dump);
    assert d.files == (was - {part})[dump := Archive(snapshot, true)];
    assert OnlyWholeDumps(was, d.files, dump, snapshot);
    if x.record.NotBegun? { return false; }
    StillOnlyWhole(was, d.files, dump, snapshot, beside, if x.record.Complete? then Record(m, snapshot) else Torn);
    d.Write(beside, if x.record.Complete? then Record(m, snapshot) else Torn);
    return x.record.Complete?;
  }

  // Neither the unfinished dump nor the manifest can be taken for a backup.
  lemma OtherNames(database: string, stamp: string)
    ensures !EndsWith(PartName(database, stamp), SUFFIX)
    ensures !EndsWith(Retention.ManifestName(DumpName(database, stamp)), SUFFIX)
    ensures EndsWith(DumpName(database, stamp), SUFFIX)
  {
    Retention.ManifestIsNoDump(DumpName(database, stamp));
    var p := PartName(database, stamp);
    assert p[|p| - 1] == 't' && SUFFIX[|SUFFIX| - 1] == 'p';
  }

  // Stamps are whole seconds. A dump of the same database already taken in this one is still the same
  // afterwards exactly when the new one did not get as far as its rename, or holds the very same.
  lemma EarlierDumpStandsUnlessReplaced(was: Files, database: string, stamp: string, snapshot: Contents,
                                        m: Manifest, x: Script)
    requires DumpName(database, stamp) in was
    ensures var now, dump := DirectoryAfter(was, database, stamp, snapshot, m, x), DumpName(database, stamp);
            && dump in now
            && (now[dump] == was[dump] <==> !Replaced(x) || was[dump] == Archive(snapshot, true))
  {
    OtherNames(database, stamp);
  }

  // Two databases' or two instants' backups never share a name.
  lemma WrittenNamesDiffer(d1: string, t: Instant, d2: string, u: Instant)
    requires d1 != "" && d2 != "" && IsInstant(t) && IsInstant(u)
    ensures DumpName(d1, Stamp(t)) == DumpName(d2, Stamp(u)) ==> d1 == d2 && Seconds(t) == Seconds(u)
  {
    StampIsNameable(d1, t);
    StampIsNameable(d2, u);
    WrittenNameParses(d1, Stamp(t));
    WrittenNameParses(d2, Stamp(u));
    StampsSortByTime(t, u);
    StampsSortByTime(u, t);
    BeforeIsTotal(Stamp(t), Stamp(u));
  }

  // Among the backups `cmd_create` writes, a later one is listed as newer, and they compete for the same
  // retention slots exactly when they are of the same database.
  lemma WrittenBackups(d1: string, t: Instant, d2: string, u: Instant, a: Dump, b: Dump)
    requires d1 != "" && d2 != "" && IsInstant(t) && IsInstant(u)
    requires a == AsDump(DumpName(d1, Stamp(t))) && b == AsDump(DumpName(d2, Stamp(u)))
    ensures a.database == d1 && b.database == d2
    ensures Seconds(t) > Seconds(u) ==> Newer(a, b)
    ensures Newer(a, b) ==> Seconds(t) >= Seconds(u)
  {
    StampIsNameable(d1, t);
    StampIsNameable(d2, u);
    WrittenNameParses(d1, Stamp(t));
    WrittenNameParses(d2, Stamp(u));
    WrittenDumps(d1, t, d2, u, a, b);
  }

  // Taking another backup, of another database or in another second, leaves an earlier one as it is,
  // however the new one ends; and if both went through, both are there.
  lemma EarlierBackupStays(was: Files, d1: string, t: Instant, one: Contents, m: Manifest, x: Script,
                           d2: string, u: Instant, two: Contents, n: Manifest, y: Script)
    requires d1 != "" && d2 != "" && IsInstant(t) && IsInstant(u) && (d1 != d2 || Seconds(t) != Seconds(u))
    requires Replaced(x)
    ensures var first := DirectoryAfter(was, d1, Stamp(t), one, m, x);
            var second := DirectoryAfter(first, d2, Stamp(u), two, n, y);
            && DumpName(d1, Stamp(t)) in second && second[DumpName(d1, Stamp(t))] == Archive(one, true)
            && (Replaced(y) ==>
                  DumpName(d2, Stamp(u)) in second && second[DumpName(d2, Stamp(u))] == Archive(two, true))
  {
    WrittenNamesDiffer(d1, t, d2, u);
    OtherNames(d1, Stamp(t));
    OtherNames(d2, Stamp(u));
    BothStay(was, DumpName(d1, Stamp(t)), PartName(d1, Stamp(t)), Retention.ManifestName(DumpName(d1, Stamp(t))),
             one, m, x,
             DumpName(d2, Stamp(u)), PartName(d2, Stamp(u)), Retention.ManifestName(DumpName(d2, Stamp(u))),
             two, n, y);
  }

  lemma BothStay(was: Files, dump1: string, part1: string, beside1: string, one: Contents, m: Manifest, x: Script,
                 dump2: string, part2: string, beside2: string, two: Contents, n: Manifest, y: Script)
    requires Replaced(x) && dump1 != dump2 && EndsWith(dump1, SUFFIX) && EndsWith(dump2, SUFFIX)
    requires !EndsWith(part1, SUFFIX) && !EndsWith(beside1, SUFFIX)
    requires !EndsWith(part2, SUFFIX) && !EndsWith(beside2, SUFFIX)
    ensures var first := Left(was, dump1, part1, beside1, one, m, x);
            var second := Left(first, dump2, part2, beside2, two, n, y);
            && dump1 in second && second[dump1] == Archive(one, true)
            && (Replaced(y) ==> dump2 in second && second[dump2] == Archive(two, true))
  {
  }

  // A backup that shows and that `verify` has no manifest for: it is left behind exactly when the
  // rename went through and the manifest was not written to its end.
  lemma UnverifiableExactly(was: Files, database: string, stamp: string, snapshot: Contents, m: Manifest, x: Script)
    requires DumpName(database, stamp) !in was && Retention.ManifestName(DumpName(database, stamp)) !in was
    ensures var now, dump := DirectoryAfter(was, database, stamp, snapshot, m, x), DumpName(database, stamp);
            var beside := Retention.ManifestName(dump);
            dump in now && !(beside in now && now[beside].Record?) <==> Replaced(x) && !x.record.Complete?
  {
    OtherNames(database, stamp);
  }

  // Two backups of one database in one second: only the second is left.
  lemma SameSecondLosesTheFirst()
    ensures var one, two := Contents(map["orders" := 1], {}, 0), Contents(map["orders" := 2], {}, 0);
            var m := Manifest(map[], map[], {}, 0);
            var goes := Script(true, true, one, true, true, true, Complete);
            var first := DirectoryAfter(map[], "atp", "20260101T000000Z", one, m, goes);
            var second := DirectoryAfter(first, "atp", "20260101T000000Z", two, m, goes);
            var dump := DumpName("atp", "20260101T000000Z");
            && dump in first && first[dump] == Archive(one, true)
            && dump in second && second[dump] == Archive(two, true)
            && forall name :: name in second ==> second[name] != Archive(one, true)
  {
    OtherNames("atp", "20260101T000000Z");
    assert map["orders" := 1]["orders"] != map["orders" := 2]["orders"];
  }

  // A failure between the rename and the manifest: a whole dump and nothing to check it with.
  lemma LostManifestLeavesADump()
    ensures var one, m := Contents(map["orders" := 1], {}, 0), Manifest(map[], map[], {}, 0);
            var x := Script(true, true, one, true, true, true, NotBegun);
            var now := DirectoryAfter(map[], "atp", "20260101T000000Z", one, m, x);
            var dump := DumpName("atp", "20260101T000000Z");
            dump in now && now[dump] == Archive(one, true) && Retention.ManifestName(dump) !in now
  {
    OtherNames("atp", "20260101T000000Z");
  }

  // A dump taken while rows were only inserted, of a database whose hypertables and policies stood
  // still, verifies: restored as it is, nothing in it is found wrong.
  lemma CreatedDumpVerifies(m: Manifest, h: History, listed: nat, before: nat, snapshot: nat, after: nat,
                            dump: Contents)
    requires OnlyGrows(h) && TakenFrom(m, h, listed, before, snapshot, after) && dump.rows == h[snapshot]
    requires m.hypertables <= dump.hypertables && (m.jobs > 0 ==> dump.jobs > 0)
    ensures Matches(dump, m)
  {
    forall f ensures !Wrong(dump, m, f) {
      if IsRowFailure(f) {
        FaithfulRestorePasses(m, h, listed, before, snapshot, after, dump, f);
      }
    }
    NothingWrongExactly(dump, m);
  }
}
