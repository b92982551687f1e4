/** ApplyMigrations: the resumable, ordered migration loop. */
module Migrations {
  import opened Text

  datatype DirEntry = DirEntry(name: string, isDir: bool)

  /** A migrations directory: its entries, and the contents of its files. */
  datatype Directory = Directory(entries: seq<DirEntry>, contents: map<string, string>)

  /** schema_migrations, and the migration statements executed so far in order. */
  datatype Schema = Schema(applied: set<string>, executed: seq<string>)

  const EMPTY := Schema({}, [])

  predicate HasSuffix(s: string, suffix: string) {
    |suffix| <= |s| && s[|s| - |suffix|..] == suffix
  }

  predicate IsUp(e: DirEntry) {
    !e.isDir && HasSuffix(e.name, ".up.sql")
  }

  function UpFiles(entries: seq<DirEntry>): seq<string> {
    if entries == [] then [] else
    var rest, last := UpFiles(entries[..|entries| - 1]), entries[|entries| - 1];
    if IsUp(last) then rest + [last.name] else rest
  }

  // ----- sort.Strings -----

  function Inserted(name: string, names: seq<string>): seq<string> {
    if names == [] then [name]
    else if Less(names[0], name) then [names[0]] + Inserted(name, names[1..])
    else [name] + names
  }

  function SortStrings(names: seq<string>): seq<string> {
    if names == [] then [] else Inserted(names[0], SortStrings(names[1..]))
  }

  ghost predicate Increasing(names: seq<string>) {
    forall i, j | 0 <= i < j < |names| :: Less(names[i], names[j])
  }

  lemma {:induction false} InsertedKeeps(name: string, names: seq<string>)
    requires Increasing(names) && name !in names
    ensures Increasing(Inserted(name, names))
    ensures forall x :: x in Inserted(name, names) <==> x == name || x in names
  {
    if names == [] {
    } else {
      var h, t := names[0], names[1..];
      assert names == [h] + t;
      LessIsTotal(h, name);
      if Less(h, name) {
        InsertedKeeps(name, t);
        var r := Inserted(name, t);
        forall j | 0 <= j < |r| ensures Less(h, r[j]) {
          assert r[j] == name || r[j] in t;
          if r[j] in t {
            var i :| 0 <= i < |t| && t[i] == r[j];
            assert names[i + 1] == r[j];
          }
        }
      } else {
        forall j | 0 <= j < |names| ensures Less(name, names[j]) {
          if j > 0 { LessIsTransitive(name, h, names[j]); }
        }
      }
    }
  }

  predicate NoRepeats(names: seq<string>) {
    forall i, j | 0 <= i < j < |names| :: names[i] != names[j]
  }

  lemma {:induction false} SortedNames(names: seq<string>)
    requires NoRepeats(names)
    ensures Increasing(SortStrings(names))
    ensures forall x :: x in SortStrings(names) <==> x in names
  {
    if names == [] {
    } else {
      assert forall i | 0 <= i < |names[1..]| :: names[1..][i] == names[i + 1];
      SortedNames(names[1..]);
      assert names == [names[0]] + names[1..];
      InsertedKeeps(names[0], SortStrings(names[1..]));
    }
  }

  // ----- the loop -----

  /** There is nothing to execute: the file is blank, or it cannot be read and stops the run that comes to it. */
  predicate Blank(d: Directory, name: string) {
    name !in d.contents || TrimSpace(d.contents[name]) == ""
  }

  /** One pass of the loop body: skip what is applied or blank, else execute and record in one transaction. */
  function Migrate(d: Directory, s: Schema, name: string): Schema {
    if name in s.applied || Blank(d, name) then s
    else Schema(s.applied + {name}, s.executed + [name])
  }

  /** A run that gets through the given names. */
  function MigrateAll(d: Directory, s: Schema, names: seq<string>): Schema {
    if names == [] then s
    else Migrate(d, MigrateAll(d, s, names[..|names| - 1]), names[|names| - 1])
  }

  function Pending(d: Directory): seq<string> {
    SortStrings(UpFiles(d.entries))
  }

  // ----- resumption -----

  function NonBlank(d: Directory, names: seq<string>): seq<string> {
    if names == [] then [] else
    var rest, last := NonBlank(d, names[..|names| - 1]), names[|names| - 1];
    if Blank(d, last) then rest else rest + [last]
  }

  lemma {:induction false} FirstRun(d: Directory, names: seq<string>)
    requires NoRepeats(names)
    ensures MigrateAll(d, EMPTY, names).executed == NonBlank(d, names)
    ensures forall x :: x in MigrateAll(d, EMPTY, names).applied <==> x in names && !Blank(d, x)
  {
    if names == [] {
    } else {
      var init := names[..|names| - 1];
      FirstRun(d, init);
      assert names == init + [names[|names| - 1]];
      assert forall i | 0 <= i < |init| :: names[i] == init[i] && init[i] != names[|names| - 1];
    }
  }

  function Max(a: nat, b: nat): nat {
    if a < b then b else a
  }

  /** A run that stops after k names resumes one that stopped after m. */
  lemma {:induction false} Resumes(d: Directory, names: seq<string>, m: nat, k: nat)
    requires NoRepeats(names) && m <= |names| && k <= |names|
    ensures MigrateAll(d, MigrateAll(d, EMPTY, names[..m]), names[..k]) == MigrateAll(d, EMPTY, names[..Max(m, k)])
  {
    if k == 0 {
    } else {
      Resumes(d, names, m, k - 1);
      assert names[..k][..k - 1] == names[..k - 1];
      if k <= m {
        FirstRun(d, names[..m]);
        assert names[..m][k - 1] == names[k - 1];
      } else {
        assert Max(m, k - 1) == k - 1;
      }
    }
  }

  /** Runs aborted after the given numbers of files, one after the other. */
  function Aborted(d: Directory, s: Schema, names: seq<string>, stops: seq<nat>): Schema
    requires forall i | 0 <= i < |stops| :: stops[i] <= |names|
  {
    if stops == [] then s
    else MigrateAll(d, Aborted(d, s, names, stops[..|stops| - 1]), names[..stops[|stops| - 1]])
  }

  lemma {:induction false} AbortedIsPrefix(d: Directory, names: seq<string>, stops: seq<nat>)
    requires NoRepeats(names) && forall i | 0 <= i < |stops| :: stops[i] <= |names|
    ensures exists m | 0 <= m <= |names| :: Aborted(d, EMPTY, names, stops) == MigrateAll(d, EMPTY, names[..m])
  {
    if stops == [] {
      assert names[..0] == [];
      assert Aborted(d, EMPTY, names, stops) == MigrateAll(d, EMPTY, names[..0]);
    } else {
      AbortedIsPrefix(d, names, stops[..|stops| - 1]);
      var m :| 0 <= m <= |names| && Aborted(d, EMPTY, names, stops[..|stops| - 1]) == MigrateAll(d, EMPTY, names[..m]);
      var k := stops[|stops| - 1];
      Resumes(d, names, m, k);
      assert Aborted(d, EMPTY, names, stops) == MigrateAll(d, EMPTY, names[..Max(m, k)]);
    }
  }

  lemma {:induction false} NonBlankKeepsOrder(d: Directory, names: seq<string>)
    requires Increasing(names)
    ensures Increasing(NonBlank(d, names))
    ensures forall x :: x in NonBlank(d, names) <==> x in names && !Blank(d, x)
  {
    if names == [] {
    } else {
      hide Less, Blank;
      var init, last := names[..|names| - 1], names[|names| - 1];
      assert forall i | 0 <= i < |init| :: init[i] == names[i];
      NonBlankKeepsOrder(d, init);
      assert names == init + [last];
      forall i | 0 <= i < |NonBlank(d, init)| ensures Less(NonBlank(d, init)[i], last) {
        var x := NonBlank(d, init)[i];
        assert x in init;
        var j :| 0 <= j < |init| && init[j] == x;
        assert names[j] == x;
      }
    }
  }

  lemma {:induction false} UpFilesIn(entries: seq<DirEntry>, x: string)
    ensures x in UpFiles(entries) <==> exists e :: e in entries && IsUp(e) && e.name == x
  {
    hide IsUp;
    if entries == [] {
    } else {
      var init, last := entries[..|entries| - 1], entries[|entries| - 1];
      UpFilesIn(init, x);
      assert entries == init + [last];
      assert forall e :: e in entries <==> e in init || e == last;
    }
  }

  lemma {:induction false} UpFilesAre(entries: seq<DirEntry>)
    requires forall i, j | 0 <= i < j < |entries| :: entries[i].name != entries[j].name
    ensures NoRepeats(UpFiles(entries))
    ensures forall x :: x in UpFiles(entries) <==> exists e :: e in entries && IsUp(e) && e.name == x
  {
    hide IsUp;
    forall x ensures x in UpFiles(entries) <==> exists e :: e in entries && IsUp(e) && e.name == x {
      UpFilesIn(entries, x);
    }
    if entries == [] {
    } else {
      var n := |entries| - 1;
      UpFilesAre(entries[..n]);
      forall i | 0 <= i < |UpFiles(entries[..n])| ensures UpFiles(entries[..n])[i] != entries[n].name {
        LastNameIsNew(entries, UpFiles(entries[..n])[i]);
      }
    }
  }

  lemma LastNameIsNew(entries: seq<DirEntry>, x: string)
    requires entries != [] && forall i, j | 0 <= i < j < |entries| :: entries[i].name != entries[j].name
    requires x in UpFiles(entries[..|entries| - 1])
    ensures x != entries[|entries| - 1].name
  {
    UpFilesIn(entries[..|entries| - 1], x);
    var e :| e in entries[..|entries| - 1] && IsUp(e) && e.name == x;
    var j :| 0 <= j < |entries| - 1 && entries[..|entries| - 1][j] == e;
    assert entries[j] == e;
  }

  /** The directory lists it as a file, not a directory, its name ends in ".up.sql", and its text is not blank. */
  ghost predicate IsMigration(d: Directory, x: string) {
    && |x| >= 7 && x[|x| - 7..] == ".up.sql" && DirEntry(x, false) in d.entries
    && x in d.contents && TrimSpace(d.contents[x]) != ""
  }

  lemma MigrationsAre(d: Directory, x: string)
    ensures IsMigration(d, x) <==> !Blank(d, x) && exists e :: e in d.entries && IsUp(e) && e.name == x
  {
    hide TrimSpace;
    if e :| e in d.entries && IsUp(e) && e.name == x {
      assert e == DirEntry(x, false);
    }
    if IsMigration(d, x) {
      assert IsUp(DirEntry(x, false));
    }
  }

  /** Main result: starting from nothing applied, any number of runs aborted anywhere and then one complete run over
      the same directory have executed every non-blank .up.sql file exactly once, in increasing name order, the same
      as one uninterrupted run; a further run, complete or not, changes nothing. */
  lemma {:induction false} MigrationsResume(d: Directory, stops: seq<nat>, more: nat)
    requires forall i, j | 0 <= i < j < |d.entries| :: d.entries[i].name != d.entries[j].name
    requires (forall i | 0 <= i < |stops| :: stops[i] <= |Pending(d)|) && more <= |Pending(d)|
    ensures var names := Pending(d);
            var final := MigrateAll(d, Aborted(d, EMPTY, names, stops), names);
            && final == MigrateAll(d, EMPTY, names)
            && Increasing(final.executed)
            && (forall x :: x in final.executed <==> IsMigration(d, x))
            && MigrateAll(d, final, names[..more]) == final
  {
    hide Less, Blank, IsUp, UpFiles, SortStrings, MigrateAll, Aborted, NonBlank, IsMigration;
    var names := Pending(d);
    forall x ensures IsMigration(d, x) <==> !Blank(d, x) && exists e :: e in d.entries && IsUp(e) && e.name == x {
      MigrationsAre(d, x);
    }
    UpFilesAre(d.entries);
    SortedNames(UpFiles(d.entries));
    IncreasingHasNoRepeats(names);
    AbortedIsPrefix(d, names, stops);
    var m :| 0 <= m <= |names| && Aborted(d, EMPTY, names, stops) == MigrateAll(d, EMPTY, names[..m]);
    assert names[..|names|] == names;
    Resumes(d, names, m, |names|);
    Resumes(d, names, |names|, more);
    FirstRun(d, names);
    NonBlankKeepsOrder(d, names);
  }

  lemma IncreasingHasNoRepeats(names: seq<string>)
    requires Increasing(names)
    ensures NoRepeats(names)
  {
    forall i, j | 0 <= i < j < |names| ensures names[i] != names[j] {
      LessIsAsymmetric(names[i], names[j]);
    }
  }

  // ----- the migrator -----

  /** The database as ApplyMigrations sees it. faults scripts the outcome of the coming fallible calls, true for a
      failure; an empty script is healthy. */
  class Migrator {
    var applied: set<string>
    var executed: seq<string>
    var faults: seq<bool>

    function State(): Schema
      reads this
    {
      Schema(applied, executed)
    }

    ghost predicate Healthy()
      reads this
    {
      forall i | 0 <= i < |faults| :: !faults[i]
    }

    /** One call to the database or the file system. */
    method Call() returns (ok: bool)
      modifies this`faults
      ensures old(Healthy()) ==> ok && Healthy()
    {
      ok := true;
      if faults != [] {
        ok := !faults[0];
        faults := faults[1..];
      }
    }

    method SelectFiles(d: Directory) returns (files: seq<string>)
      ensures files == UpFiles(d.entries)
    {
      files := [];
      for i := 0 to |d.entries|
        invariant files == UpFiles(d.entries[..i])
      {
        assert d.entries[..i + 1][..i] == d.entries[..i];
        if IsUp(d.entries[i]) {
          files := files + [d.entries[i].name];
        }
      }
      assert d.entries[..|d.entries|] == d.entries;
    }

    /** Whatever fails, the run has got through the first `done` files and no further. A healthy run gets through all
        of them, unless it meets a file that is not applied yet and cannot be read. */
    method ApplyMigrations(d: Directory) returns (ok: bool, ghost done: nat)
      modifies this
      ensures done <= |Pending(d)| && State() == MigrateAll(d, old(State()), Pending(d)[..done])
      ensures ok ==> done == |Pending(d)|
      ensures ok ==> forall k | 0 <= k < |Pending(d)| :: Pending(d)[k] in applied || Pending(d)[k] in d.contents
      ensures old(Healthy()) && !ok ==>
                done < |Pending(d)| && Pending(d)[done] !in applied && Pending(d)[done] !in d.contents
    {
      done := 0;
      var created := Call();
      if !created { return false, 0; }
      var read := Call();
      if !read { return false, 0; }
      var files := SelectFiles(d);
      files := SortStrings(files);
      for i := 0 to |files|
        invariant done == i && files == Pending(d)
        invariant State() == MigrateAll(d, old(State()), files[..i])
        invariant old(Healthy()) ==> Healthy()
        invariant forall k | 0 <= k < i :: files[k] in applied || files[k] in d.contents
      {
        assert files[..i + 1][..i] == files[..i];
        var name := files[i];
        var checked := Call();
        if !checked { return false, i; }
        if name !in applied {
          var loaded := Call();
          if !loaded || name !in d.contents { return false, i; }
          var statement := TrimSpace(d.contents[name]);
          if statement != "" {
            var committed := Call();
            if !committed { return false, i; }
            executed := executed + [name];
            applied := applied + {name};
          }
        }
        done := i + 1;
      }
      assert files[..|files|] == files;
      ok := true;
    }
  }
}
