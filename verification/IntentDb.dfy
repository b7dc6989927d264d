/** The intent database (db.rs) as its two relations, and one uninterrupted gc
    run over the store (store.rs gc_locked). */
module IntentDb {
  import opened Wrappers

  type Key = string
  type Name = string
  type Ino = nat

  /** Plan keys some request is bound to. */
  function LivePlans(rows: map<Ino, Key>): set<Key> {
    rows.Values
  }

  /** Download keys some bound plan is related to. */
  function LiveDownloads(rows: map<Ino, Key>, relations: set<(Key, Key)>): set<Key> {
    set e | e in relations && e.0 in LivePlans(rows) :: e.1
  }

  function Referenced(rows: map<Ino, Key>, relations: set<(Key, Key)>): set<(Key, Key)> {
    set e | e in relations && e.0 in LivePlans(rows)
  }

  /** Forgetting relations of unbound plans frees no download. */
  lemma ReferencedKeepsDownloads(rows: map<Ino, Key>, relations: set<(Key, Key)>)
    ensures LiveDownloads(rows, Referenced(rows, relations)) == LiveDownloads(rows, relations)
  {
    forall k | k in LiveDownloads(rows, relations)
      ensures k in LiveDownloads(rows, Referenced(rows, relations))
    {
      var e :| e in relations && e.0 in LivePlans(rows) && e.1 == k;
      assert e in Referenced(rows, relations);
    }
  }

  /** A request other than `i` is bound to the plan. */
  ghost predicate BoundBeside(rows: map<Ino, Key>, i: Ino, plan: Key) {
    exists j :: j in rows && j != i && rows[j] == plan
  }

  /** A plan stays live exactly as long as another request is bound to it. */
  lemma LiveAfterRemoval(rows: map<Ino, Key>, i: Ino, plan: Key)
    ensures plan in LivePlans(rows - {i}) <==> BoundBeside(rows, i, plan)
  {
    var rest := rows - {i};
    if j :| j in rows && j != i && rows[j] == plan {
      assert j in rest && rest[j] == plan;
    }
  }

  class Database {
    var rows: map<Ino, Key>
    var relations: set<(Key, Key)>

    method RequestPlan(i: Ino) returns (k: Option<Key>)
      ensures k == if i in rows then Some(rows[i]) else None
    {
      k := if i in rows then Some(rows[i]) else None;
    }

    /** Binds the request, and relates its plan to every download key. */
    method AddRequest(i: Ino, plan: Key, downloads: set<Key>)
      modifies this
      ensures rows == old(rows)[i := plan]
      ensures relations == old(relations) + set d | d in downloads :: (plan, d)
      ensures downloads <= LiveDownloads(rows, relations)
    {
      rows := rows[i := plan];
      var rest := downloads;
      while rest != {}
        invariant rest <= downloads && rows == old(rows)[i := plan]
        invariant relations == old(relations) + set d | d in downloads - rest :: (plan, d)
        decreases rest
      {
        var d :| d in rest;
        relations := relations + {(plan, d)};
        rest := rest - {d};
      }
      assert downloads - rest == downloads;
      assert plan in LivePlans(rows) by { assert rows[i] == plan; }
      forall d | d in downloads
        ensures d in LiveDownloads(rows, relations)
      {
        assert (plan, d) in relations;
      }
    }

    /** Unbinds the request. A plan is live afterwards exactly if a request other
        than this one is bound to it, and so the answer is live exactly if it is
        shared. */
    method RemoveRequest(i: Ino) returns (k: Option<Key>)
      modifies this`rows
      ensures k == if i in old(rows) then Some(old(rows)[i]) else None
      ensures rows == old(rows) - {i}
      ensures forall p :: p in LivePlans(rows) <==> BoundBeside(old(rows), i, p)
      ensures k.None? ==> LivePlans(rows) == LivePlans(old(rows))
      ensures k.Some? ==>
        LivePlans(rows) == LivePlans(old(rows)) - if BoundBeside(old(rows), i, k.value) then {} else {k.value}
    {
      k := RequestPlan(i);
      forall p
        ensures p in LivePlans(rows - {i}) <==> BoundBeside(rows, i, p)
        ensures i !in rows ==> (p in LivePlans(rows) <==> BoundBeside(rows, i, p))
        ensures i in rows && p != rows[i] ==> (p in LivePlans(rows) <==> BoundBeside(rows, i, p))
      {
        LiveAfterRemoval(rows, i, p);
      }
      rows := rows - {i};
    }

    /** Relations of plans that no request is bound to are dropped. */
    method RemoveUnreferencedDownloadRelations()
      modifies this`relations
      ensures relations == Referenced(rows, old(relations))
      ensures LiveDownloads(rows, relations) == LiveDownloads(rows, old(relations))
    {
      ReferencedKeepsDownloads(rows, relations);
      relations := Referenced(rows, relations);
    }
  }

  class Store {
    const names: Key -> Name
    const db: Database
    var files: set<Ino>
    var links: map<Ino, nat>
    var installs: set<Name>
    var downloads: set<Name>
    var temps: set<nat>

    constructor (names: Key -> Name, db: Database)
      ensures this.names == names && this.db == db && files == {} && installs == {} && downloads == {} && temps == {}
    {
      this.names, this.db := names, db;
      files, links, installs, downloads, temps := {}, map[], {}, {}, {};
    }

    /** Deletes rows whose request file is gone. */
    method ScanRows(known: set<Ino>)
      requires known == db.rows.Keys
      modifies db`rows
      ensures db.rows == WithFile(old(db.rows), files)
    {
      hide WithFile;
      var rest := known;
      WithFileAll(db.rows, files + rest);
      while rest != {}
        invariant rest <= known && db.rows == WithFile(old(db.rows), files + rest)
        decreases rest
      {
        var i :| i in rest;
        WithFileDrop(old(db.rows), files + rest, i);
        if i !in files {
          assert files + (rest - {i}) == files + rest - {i};
          var _ := db.RemoveRequest(i);
        } else {
          assert files + (rest - {i}) == files + rest;
        }
        rest := rest - {i};
      }
      assert files + rest == files;
    }

    /** Deletes request files that no row knows or that only the store links to,
        with their rows. */
    method ScanFiles(known: set<Ino>)
      requires db.rows.Keys <= files && db.rows.Keys <= known
      modifies this`files, db`rows
      ensures files == Wanted(old(files), known, links) && db.rows == WithFile(old(db.rows), files)
    {
      hide WithFile;
      var rest := files;
      WithFileAll(db.rows, files);
      while rest != {}
        invariant rest <= files <= old(files)
        invariant files == rest + Wanted(old(files) - rest, known, links)
        invariant db.rows == WithFile(old(db.rows), files)
        decreases rest
      {
        var i :| i in rest;
        assert old(files) - (rest - {i}) == (old(files) - rest) + {i};
        WantedNext(old(files) - rest, known, links, i);
        if (i in links && links[i] == 1) || i !in known {
          WithFileDrop(old(db.rows), files, i);
          if i in known {
            var _ := db.RemoveRequest(i);
          }
          files := files - {i};
        }
        rest := rest - {i};
      }
      assert old(files) - rest == old(files);
    }

    /** Deletes every entry whose name is not that of a live key. */
    method SweepKeyed(entries: set<Name>, live: set<Key>) returns (kept: set<Name>)
      ensures kept == Surviving(names, entries, live)
    {
      var liveNames := set k | k in live :: names(k);
      kept := entries;
      var rest := entries;
      while rest != {}
        invariant rest <= entries && kept == set n | n in entries && (n in rest || n in liveNames)
        decreases rest
      {
        var n :| n in rest;
        if n !in liveNames {
          kept := kept - {n};
        }
        rest := rest - {n};
      }
    }

    /** One gc with the lock held: afterwards rows and request files are the same
        set, and only what they need is left. A request is left exactly if it had a
        row and a file, and the file was linked from elsewhere. */
    method GcLocked()
      modifies this`files, this`installs, this`downloads, this`temps, db
      ensures forall i :: i in db.rows <==> i in old(db.rows) && i in old(files) && !(i in links && links[i] == 1)
      ensures forall i :: i in db.rows ==> db.rows[i] == old(db.rows)[i]
      ensures forall n :: n in installs <==> n in old(installs) && exists i :: i in db.rows && names(db.rows[i]) == n
      ensures files == Wanted(old(files), old(db.rows).Keys, links) && db.rows == WithFile(old(db.rows), files)
      ensures db.rows.Keys == files
      ensures db.relations == Referenced(db.rows, old(db.relations))
      ensures installs == Surviving(names, old(installs), LivePlans(db.rows))
      ensures downloads == Surviving(names, old(downloads), LiveDownloads(db.rows, old(db.relations)))
      ensures temps == {}
    {
      hide WithFile, Wanted, Surviving, LivePlans, LiveDownloads, Referenced;
      var known := db.rows.Keys;
      ScanRows(known);
      WithFileShape(old(db.rows), files);
      ScanFiles(known);
      WithFileTwice(old(db.rows), old(files), files);
      WithFileShape(old(db.rows), files);
      WantedShape(old(files), known, links);
      db.RemoveUnreferencedDownloadRelations();
      installs := SweepKeyed(installs, LivePlans(db.rows));
      downloads := SweepKeyed(downloads, LiveDownloads(db.rows, db.relations));
      temps := {};
      LeftRows(old(db.rows), old(files), links, db.rows);
      LeftNames(names, old(installs), db.rows, installs);
    }
  }

  lemma LeftRows(was: map<Ino, Key>, files: set<Ino>, links: map<Ino, nat>, rows: map<Ino, Key>)
    requires rows == WithFile(was, Wanted(files, was.Keys, links))
    ensures forall i :: i in rows <==> i in was && i in files && !(i in links && links[i] == 1)
    ensures forall i :: i in rows ==> rows[i] == was[i]
  {
  }

  lemma LeftNames(names: Key -> Name, entries: set<Name>, rows: map<Ino, Key>, kept: set<Name>)
    requires kept == Surviving(names, entries, LivePlans(rows))
    ensures forall n :: n in kept <==> n in entries && exists i :: i in rows && names(rows[i]) == n
  {
  }

  /** Rows whose request file is there. */
  function WithFile(rows: map<Ino, Key>, files: set<Ino>): map<Ino, Key> {
    map i | i in rows && i in files :: rows[i]
  }

  /** Request files that a row knows and that somebody else links to. */
  function Wanted(files: set<Ino>, known: set<Ino>, links: map<Ino, nat>): set<Ino> {
    set i | i in files && i in known && !(i in links && links[i] == 1)
  }

  /** Entries that carry the name of a live key. */
  function Surviving(names: Key -> Name, entries: set<Name>, live: set<Key>): set<Name> {
    set n | n in entries && n in (set k | k in live :: names(k))
  }

  lemma WithFileAll(rows: map<Ino, Key>, files: set<Ino>)
    ensures rows.Keys <= files ==> WithFile(rows, files) == rows
  {
  }

  lemma WithFileDrop(rows: map<Ino, Key>, files: set<Ino>, i: Ino)
    ensures WithFile(rows, files - {i}) == WithFile(rows, files) - {i}
    ensures i !in rows ==> WithFile(rows, files - {i}) == WithFile(rows, files)
  {
  }

  lemma WithFileShape(rows: map<Ino, Key>, files: set<Ino>)
    ensures WithFile(rows, files).Keys == rows.Keys * files
  {
  }

  lemma WithFileTwice(rows: map<Ino, Key>, files: set<Ino>, fewer: set<Ino>)
    ensures fewer <= files ==> WithFile(WithFile(rows, files), fewer) == WithFile(rows, fewer)
  {
  }

  lemma WantedShape(files: set<Ino>, known: set<Ino>, links: map<Ino, nat>)
    ensures Wanted(files, known, links) <= files && Wanted(files, known, links) <= known
  {
  }

  lemma WantedNext(files: set<Ino>, known: set<Ino>, links: map<Ino, nat>, i: Ino)
    ensures Wanted(files + {i}, known, links) ==
      Wanted(files, known, links) + (if (i in links && links[i] == 1) || i !in known then {} else {i})
  {
  }
}
