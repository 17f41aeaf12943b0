// Retention in scripts/backup_db.py: find_backups, newest_backup and _prune over one directory.
module Retention {
  import opened Common
  import opened BackupNames

  function ManifestName(dump: string): string {
    dump + ".json"
  }

  function Dumps(files: set<string>): set<Dump> {
    set f | f in files && EndsWith(f, SUFFIX) :: AsDump(f)
  }

  // The dumps that compete with d for retention slots and are listed before it.
  function NewerSiblings(dumps: set<Dump>, d: Dump): set<Dump> {
    set x | x in dumps && x.database == d.database && Newer(x, d)
  }

  // The dumps retention gives up, independently of how the code finds them.
  function Doomed(dumps: set<Dump>, keep: nat): set<Dump> {
    set d | d in dumps && |NewerSiblings(dumps, d)| >= keep
  }

  // Dumps and their manifests, as files.
  function FilesOf(dumps: set<Dump>): set<string> {
    (set d | d in dumps :: d.name) + (set d | d in dumps :: ManifestName(d.name))
  }

  function Pruned(files: set<string>, keep: nat): set<string> {
    files - FilesOf(Doomed(Dumps(files), keep))
  }

  lemma NamesAreDistinct(files: set<string>)
    ensures forall a, b :: a in Dumps(files) && b in Dumps(files) && a.name == b.name ==> a == b
  {
  }

  // ---------------------------------------------------------------- the listing

  ghost predicate Sorted(listing: seq<Dump>) {
    forall i, j :: 0 <= i < j < |listing| ==> Newer(listing[i], listing[j])
  }

  // Every dump there is, newest first.
  ghost predicate IsListing(dumps: set<Dump>, listing: seq<Dump>) {
    Sorted(listing) && forall d :: d in listing <==> d in dumps
  }

  function Insert(listing: seq<Dump>, d: Dump): seq<Dump> {
    if listing == [] || Newer(d, listing[0]) then [d] + listing
    else [listing[0]] + Insert(listing[1..], d)
  }

  lemma {:induction false} InsertAdds(listing: seq<Dump>, d: Dump)
    ensures forall x :: x in Insert(listing, d) <==> x == d || x in listing
  {
    if listing != [] && !Newer(d, listing[0]) {
      InsertAdds(listing[1..], d);
      assert listing == [listing[0]] + listing[1..];
    }
  }

  lemma SortedCons(d: Dump, rest: seq<Dump>)
    requires Sorted(rest) && forall x :: x in rest ==> Newer(d, x)
    ensures Sorted([d] + rest)
  {
  }

  lemma {:induction false} InsertSorts(listing: seq<Dump>, d: Dump)
    requires Sorted(listing) && forall x :: x in listing ==> x.name != d.name
    ensures Sorted(Insert(listing, d))
  {
    if listing == [] {
    } else if Newer(d, listing[0]) {
      forall x | x in listing ensures Newer(d, x) {
        var j :| 0 <= j < |listing| && listing[j] == x;
        if j > 0 { NewerIsTransitive(d, listing[0], x); }
      }
      SortedCons(d, listing);
    } else {
      NewerIsTotal(d, listing[0]);
      InsertSorts(listing[1..], d);
      InsertAdds(listing[1..], d);
      SortedCons(listing[0], Insert(listing[1..], d));
    }
  }

  // ---------------------------------------------------------------- one database's dumps

  function Members(listing: seq<Dump>, g: string): seq<Dump> {
    if listing == [] then []
    else
      var d := listing[|listing| - 1];
      Members(listing[..|listing| - 1], g) + if d.database == g then [d] else []
  }

  lemma {:induction false} MembersOfListing(listing: seq<Dump>, g: string)
    requires Sorted(listing)
    ensures Sorted(Members(listing, g))
    ensures forall d :: d in Members(listing, g) <==> d in listing && d.database == g
  {
    if listing != [] {
      var before, d := listing[..|listing| - 1], listing[|listing| - 1];
      MembersOfListing(before, g);
      assert listing == before + [d];
      forall i | 0 <= i < |Members(before, g)| ensures Newer(Members(before, g)[i], d) {
        assert Members(before, g)[i] in before;
      }
    }
  }

  lemma NoRepeats(listing: seq<Dump>, i: nat, j: nat)
    requires Sorted(listing) && i < |listing| && j < |listing|
    ensures listing[i] == listing[j] ==> i == j
    ensures Newer(listing[i], listing[j]) ==> i < j
  {
    NewerIsTotal(listing[i], listing[j]);
  }

  lemma NotBefore(before: seq<Dump>, d: Dump)
    requires Sorted(before + [d])
    ensures d !in before
  {
    if d in before {
      var i :| 0 <= i < |before| && before[i] == d;
      NoRepeats(before + [d], i, |before|);
    }
  }

  lemma {:induction false} SortedIsDistinct(listing: seq<Dump>)
    requires Sorted(listing)
    ensures |set d | d in listing| == |listing|
  {
    if listing != [] {
      var before, d := listing[..|listing| - 1], listing[|listing| - 1];
      SortedIsDistinct(before);
      assert listing == before + [d];
      NotBefore(before, d);
      assert (set x | x in listing) == (set x | x in before) + {d};
    }
  }

  // A dump's place in its group is the number of newer siblings it has.
  lemma PlaceIsRank(dumps: set<Dump>, listing: seq<Dump>, g: string, k: nat)
    requires IsListing(dumps, listing) && k < |Members(listing, g)|
    ensures |NewerSiblings(dumps, Members(listing, g)[k])| == k
  {
    var group := Members(listing, g);
    MembersOfListing(listing, g);
    assert group[k] in group;
    forall x ensures x in NewerSiblings(dumps, group[k]) <==> x in group[..k] {
      if x in group {
        var i :| 0 <= i < |group| && group[i] == x;
        NoRepeats(group, i, k);
      }
    }
    assert NewerSiblings(dumps, group[k]) == set x | x in group[..k];
    SortedIsDistinct(group[..k]);
  }

  // All but the first `keep` of a listing.
  function Beyond(group: seq<Dump>, keep: nat): set<Dump> {
    if keep < |group| then set d | d in group[keep..] else {}
  }

  lemma BeyondIsPlace(group: seq<Dump>, keep: nat, k: nat)
    requires Sorted(group) && k < |group|
    ensures group[k] in Beyond(group, keep) <==> k >= keep
  {
    if group[k] in Beyond(group, keep) {
      var i :| 0 <= i < |group[keep..]| && group[keep..][i] == group[k];
      NoRepeats(group, keep + i, k);
    }
    assert k >= keep ==> group[keep..][k - keep] == group[k];
  }

  lemma DoomedOfGroup(dumps: set<Dump>, listing: seq<Dump>, g: string, keep: nat)
    requires IsListing(dumps, listing)
    ensures forall d :: d in Doomed(dumps, keep) && d.database == g <==> d in Beyond(Members(listing, g), keep)
  {
    var group := Members(listing, g);
    MembersOfListing(listing, g);
    forall d | d in group
      ensures d in Doomed(dumps, keep) <==> d in Beyond(group, keep)
    {
      var k :| 0 <= k < |group| && group[k] == d;
      PlaceIsRank(dumps, listing, g, k);
      BeyondIsPlace(group, keep, k);
    }
    assert forall d :: d in Beyond(group, keep) ==> d in group;
  }

  // ---------------------------------------------------------------- the imperative code

  datatype Refusal = KeepTooSmall

  class Directory {
    var files: set<string>

    constructor (files: set<string>)
      ensures this.files == files
    {
      this.files := files;
    }

    method FindBackups() returns (listing: seq<Dump>)
      ensures IsListing(Dumps(files), listing)
      ensures forall d :: d in listing <==> d.name in files && EndsWith(d.name, ".dump") && d == AsDump(d.name)
    {
      listing := [];
      var rest := Dumps(files);
      NamesAreDistinct(files);
      while rest != {}
        invariant rest <= Dumps(files)
        invariant IsListing(Dumps(files) - rest, listing)
        decreases |rest|
      {
        var d :| d in rest;
        InsertSorts(listing, d);
        InsertAdds(listing, d);
        listing := Insert(listing, d);
        rest := rest - {d};
      }
    }

    method Prune(keep: int, dryRun: bool) returns (removed: Result<nat, Refusal>)
      modifies this
      ensures keep < 1 ==> removed == Err(KeepTooSmall) && files == old(files)
      ensures keep >= 1 ==> removed == Ok(|Doomed(Dumps(old(files)), keep)|)
      ensures keep >= 1 ==> files == if dryRun then old(files) else Pruned(old(files), keep)
    {
      if keep < 1 { return Err(KeepTooSmall); }
      ghost var dumps := Dumps(files);
      var listing := FindBackups();
      var byDatabase := GroupByDatabase(listing);
      EveryGroupIsThere(dumps, listing, byDatabase);
      var count := 0;
      ghost var gone: set<Dump> := {};
      var databases := byDatabase.Keys;
      while databases != {}
        invariant databases <= byDatabase.Keys
        invariant forall d :: d in gone <==> d in Doomed(dumps, keep) && d.database !in databases
        invariant count == |gone|
        invariant files == if dryRun then old(files) else old(files) - FilesOf(gone)
        decreases |databases|
      {
        var g :| g in databases;
        assert byDatabase[g] == Members(listing, g);
        MembersOfListing(listing, g);
        DoomedOfGroup(dumps, listing, g, keep);
        var n := RemoveBeyond(byDatabase[g], keep, dryRun);
        ghost var more := Beyond(byDatabase[g], keep);
        FilesOfBoth(old(files), gone, more);
        GroupDone(Doomed(dumps, keep), gone, more, databases, g);
        gone := gone + more;
        count := count + n;
        databases := databases - {g};
      }
      assert gone == Doomed(dumps, keep);
      removed := Ok(count);
    }

    method GroupByDatabase(listing: seq<Dump>) returns (byDatabase: map<string, seq<Dump>>)
      ensures Grouped(byDatabase, listing)
    {
      byDatabase := map[];
      for i := 0 to |listing|
        invariant Grouped(byDatabase, listing[..i])
      {
        var d := listing[i];
        GroupedGrows(byDatabase, listing[..i], d);
        assert listing[..i + 1] == listing[..i] + [d];
        byDatabase := byDatabase[d.database :=
          (if d.database in byDatabase then byDatabase[d.database] else []) + [d]];
      }
      assert listing[..|listing|] == listing;
    }

    // Unlinks all but the first `keep` dumps of one database, each with its manifest.
    method RemoveBeyond(group: seq<Dump>, keep: nat, dryRun: bool) returns (count: nat)
      requires Sorted(group)
      modifies this
      ensures count == |Beyond(group, keep)|
      ensures files == if dryRun then old(files) else old(files) - FilesOf(Beyond(group, keep))
    {
      count := 0;
      if keep >= |group| { return; }
      for i := keep to |group|
        invariant count == |Slice(group, keep, i)|
        invariant files == if dryRun then old(files) else old(files) - FilesOf(Slice(group, keep, i))
      {
        SliceGrows(old(files), group, keep, i);
        if !dryRun {
          files := files - {group[i].name};
          files := files - {ManifestName(group[i].name)};
        }
        count := count + 1;
      }
      assert Slice(group, keep, |group|) == Beyond(group, keep) by {
        assert group[keep..|group|] == group[keep..];
      }
    }
  }

  ghost predicate Grouped(byDatabase: map<string, seq<Dump>>, listing: seq<Dump>) {
    forall g :: Members(listing, g) == if g in byDatabase then byDatabase[g] else []
  }

  lemma EveryGroupIsThere(dumps: set<Dump>, listing: seq<Dump>, byDatabase: map<string, seq<Dump>>)
    requires IsListing(dumps, listing) && Grouped(byDatabase, listing)
    ensures forall d :: d in dumps ==> d.database in byDatabase
  {
    forall d | d in dumps ensures d.database in byDatabase {
      MembersOfListing(listing, d.database);
      assert d in listing;
    }
  }

  lemma GroupedGrows(byDatabase: map<string, seq<Dump>>, listing: seq<Dump>, d: Dump)
    requires Grouped(byDatabase, listing)
    ensures Grouped(byDatabase[d.database :=
              (if d.database in byDatabase then byDatabase[d.database] else []) + [d]], listing + [d])
  {
  }

  function Slice(group: seq<Dump>, from: nat, to: nat): set<Dump>
    requires from <= to <= |group|
  {
    set d | d in group[from..to]
  }

  lemma SliceGrows(files: set<string>, group: seq<Dump>, from: nat, i: nat)
    requires Sorted(group) && from <= i < |group|
    ensures |Slice(group, from, i + 1)| == |Slice(group, from, i)| + 1
    ensures files - FilesOf(Slice(group, from, i)) - {group[i].name} - {ManifestName(group[i].name)}
         == files - FilesOf(Slice(group, from, i + 1))
  {
    forall k | from <= k < i ensures group[k] != group[i] {
      NoRepeats(group, k, i);
    }
    assert group[from..i + 1] == group[from..i] + [group[i]];
    assert Slice(group, from, i + 1) == Slice(group, from, i) + {group[i]};
    FilesOfOne(files, Slice(group, from, i), group[i]);
  }

  lemma FilesOfBoth(files: set<string>, a: set<Dump>, b: set<Dump>)
    ensures files - FilesOf(a) - FilesOf(b) == files - FilesOf(a + b)
  {
  }

  lemma FilesOfOne(files: set<string>, a: set<Dump>, d: Dump)
    ensures files - FilesOf(a) - {d.name} - {ManifestName(d.name)} == files - FilesOf(a + {d})
  {
  }

  // The groups done so far, one more of them.
  lemma GroupDone(doomed: set<Dump>, gone: set<Dump>, more: set<Dump>, left: set<string>, g: string)
    requires g in left
    requires forall d :: d in gone <==> d in doomed && d.database !in left
    requires forall d :: d in more <==> d in doomed && d.database == g
    ensures |gone + more| == |gone| + |more|
    ensures forall d :: d in gone + more <==> d in doomed && d.database !in left - {g}
  {
  }

  // ---------------------------------------------------------------- what retention promises

  // Pruning takes the doomed dumps out of the directory and leaves it no other dump and no fewer.
  lemma PrunedDumps(files: set<string>, keep: nat)
    ensures Dumps(Pruned(files, keep)) == Dumps(files) - Doomed(Dumps(files), keep)
  {
    var doomed := Doomed(Dumps(files), keep);
    NamesAreDistinct(files);
    forall d | d in doomed ensures !EndsWith(ManifestName(d.name), SUFFIX) {
      ManifestIsNoDump(d.name);
    }
    forall f | f in files && EndsWith(f, SUFFIX)
      ensures f in Pruned(files, keep) <==> AsDump(f) !in doomed
    {
      if f !in Pruned(files, keep) {
        var d :| d in doomed && (f == d.name || f == ManifestName(d.name));
        assert AsDump(f).name == f;
      }
    }
  }

  lemma ManifestIsNoDump(name: string)
    ensures !EndsWith(ManifestName(name), SUFFIX)
  {
  }

  lemma {:induction false} ListingExists(files: set<string>, some: set<Dump>) returns (listing: seq<Dump>)
    requires some <= Dumps(files)
    ensures IsListing(some, listing)
    decreases |some|
  {
    listing := [];
    if some != {} {
      var d :| d in some;
      listing := ListingExists(files, some - {d});
      NamesAreDistinct(files);
      InsertSorts(listing, d);
      InsertAdds(listing, d);
      listing := Insert(listing, d);
    }
  }

  function Group(dumps: set<Dump>, g: string): set<Dump> {
    set d | d in dumps && d.database == g
  }

  // A group before and after pruning, in terms of its listing.
  lemma GroupPruned(files: set<string>, keep: nat, g: string, members: seq<Dump>)
    requires forall d :: d in members <==> d in Dumps(files) && d.database == g
    requires forall d :: d in Doomed(Dumps(files), keep) && d.database == g <==> d in Beyond(members, keep)
    ensures Group(Dumps(files), g) == set d | d in members
    ensures Group(Dumps(Pruned(files, keep)), g) == Group(Dumps(files), g) - Beyond(members, keep)
  {
  }

  // In every group exactly the newest min(keep, n) dumps stay.
  lemma KeepsTheNewest(files: set<string>, keep: nat, g: string)
    ensures var group, kept := Group(Dumps(files), g), Group(Dumps(Pruned(files, keep)), g);
            && kept <= group && |kept| == Min(keep, |group|)
            && forall a, b :: a in kept && b in group - kept ==> Newer(a, b)
  {
    var listing := ListingExists(files, Dumps(files));
    var members := Members(listing, g);
    MembersOfListing(listing, g);
    DoomedOfGroup(Dumps(files), listing, g, keep);
    GroupPruned(files, keep, g, members);
    SortedIsDistinct(members);
    FirstAndBeyond(members, keep);
  }

  lemma FirstAndBeyond(group: seq<Dump>, keep: nat)
    requires Sorted(group)
    ensures var all := set d | d in group;
            && |all - Beyond(group, keep)| == Min(keep, |group|)
            && forall a, b :: a in all - Beyond(group, keep) && b in Beyond(group, keep) ==> Newer(a, b)
  {
    var all := set d | d in group;
    forall k | 0 <= k < |group| ensures group[k] in Beyond(group, keep) <==> k >= keep {
      BeyondIsPlace(group, keep, k);
    }
    FirstOnes(group, keep);
    forall a, b | a in all - Beyond(group, keep) && b in Beyond(group, keep) ensures Newer(a, b) {
      var i :| 0 <= i < |group| && group[i] == a;
      var j :| 0 <= j < |group[keep..]| && group[keep..][j] == b;
      assert group[keep + j] == b;
    }
  }

  lemma FirstOnes(group: seq<Dump>, keep: nat)
    requires Sorted(group)
    requires forall k :: 0 <= k < |group| ==> (group[k] in Beyond(group, keep) <==> k >= keep)
    ensures |(set d | d in group) - Beyond(group, keep)| == Min(keep, |group|)
  {
    var first := group[..Min(keep, |group|)];
    SortedIsDistinct(first);
    assert (set d | d in group) - Beyond(group, keep) == set d | d in first;
  }

  // What `verify` and `restore` reach for survives any pruning.
  lemma NewestSurvives(files: set<string>, listing: seq<Dump>, keep: nat)
    requires IsListing(Dumps(files), listing) && listing != [] && keep >= 1
    ensures listing[0] in Dumps(Pruned(files, keep))
  {
    PrunedDumps(files, keep);
    assert listing[0] in listing;
    forall x | x in Dumps(files) ensures !Newer(x, listing[0]) {
      assert x in listing;
      var i :| 0 <= i < |listing| && listing[i] == x;
      NoRepeats(listing, i, 0);
    }
    assert NewerSiblings(Dumps(files), listing[0]) == {};
  }

  // The number returned and the survivors make up the original number.
  lemma NothingIsMiscounted(files: set<string>, keep: nat)
    ensures |Doomed(Dumps(files), keep)| + |Dumps(Pruned(files, keep))| == |Dumps(files)|
  {
    PrunedDumps(files, keep);
    assert Dumps(files) == Doomed(Dumps(files), keep) + Dumps(Pruned(files, keep));
  }

  // Of the files of a directory pruning removes exactly the doomed dumps and what is beside them under
  // their name with .json added.
  lemma PrunedFiles(files: set<string>, keep: nat, f: string)
    requires f in files
    ensures f !in Pruned(files, keep) <==>
            exists d :: d in Doomed(Dumps(files), keep) && (f == d.name || f == d.name + ".json")
  {
  }

  // A dump that stays keeps its manifest.
  lemma ManifestsStay(files: set<string>, keep: nat, d: Dump)
    requires d in Dumps(Pruned(files, keep)) && ManifestName(d.name) in files
    ensures ManifestName(d.name) in Pruned(files, keep)
  {
    PrunedDumps(files, keep);
    ManifestIsNoDump(d.name);
    NamesAreDistinct(files);
    forall x | x in Doomed(Dumps(files), keep)
      ensures ManifestName(x.name) != ManifestName(d.name) && x.name != ManifestName(d.name)
    {
      assert ManifestName(x.name)[..|x.name|] == x.name && ManifestName(d.name)[..|d.name|] == d.name;
    }
  }

  // Siblings newer than a survivor survive too, so its rank does not change.
  lemma RankOfSurvivor(dumps: set<Dump>, keep: nat, d: Dump)
    requires d in dumps && d !in Doomed(dumps, keep)
    ensures NewerSiblings(dumps - Doomed(dumps, keep), d) == NewerSiblings(dumps, d)
  {
    forall x | x in NewerSiblings(dumps, d) ensures x !in Doomed(dumps, keep) {
      forall y | y in NewerSiblings(dumps, x) ensures y in NewerSiblings(dumps, d) {
        NewerIsTransitive(y, x, d);
      }
      Subset(NewerSiblings(dumps, x), NewerSiblings(dumps, d));
    }
  }

  lemma Subset<T>(a: set<T>, b: set<T>)
    requires a <= b
    ensures |a| <= |b|
  {
    assert b == a + (b - a);
  }

  // Pruning to a and then to b is pruning to the smaller of the two.
  lemma PruneTwice(files: set<string>, a: nat, b: nat)
    ensures Pruned(Pruned(files, a), b) == Pruned(files, Min(a, b))
  {
    var all := Dumps(files);
    var half := all - Doomed(all, a);
    PrunedDumps(files, a);
    forall d | d in half ensures NewerSiblings(half, d) == NewerSiblings(all, d) {
      RankOfSurvivor(all, a, d);
    }
    assert Doomed(all, a) + Doomed(half, b) == Doomed(all, Min(a, b));
    FilesOfBoth(files, Doomed(all, a), Doomed(half, b));
  }
}
