/** What the steps of the store protocol achieve, and that a gc and a create that
    nobody disturbs can be carried to their ends. */
module StoreProgress {
  import opened Wrappers
  import opened IntentDb
  import opened StoreProtocol

  // ----- single steps -----------------------------------------------------------------

  /** What a remove does to the store: the row goes, then the file with one link. */
  lemma RemoveDone(names: Key -> Name, w: World, p: Pid, i: Ino)
    requires Inv(names, w)
    ensures Can(names, w, p, Remove(RemoveRow)) && w.procs[p] == Removing(i) ==>
      var v := Do(names, w, p, Remove(RemoveRow)); v.rows == w.rows - {i} && v.files == w.files
    ensures Can(names, w, p, Remove(RemoveFile)) && w.procs[p] == Unlinking(i) ==>
      var v := Do(names, w, p, Remove(RemoveFile));
        && v.rows == w.rows && v.files == w.files - {i} && Links(v, i) + (if i in w.files then 1 else 0) == Links(w, i)
  {
    hide RowsPublished, Excluded, OneInstaller, ProcsOk, OwnTemps;
  }

  /** What linking a request does: the file is there, with one more link if it was not. */
  lemma LinkDone(names: Key -> Name, w: World, p: Pid)
    requires Can(names, w, p, Create(Link)) && !w.procs[p].r.already
    ensures var v, i := Do(names, w, p, Create(Link)), w.procs[p].r.ino;
      && v.files == w.files + {i} && v.rows == w.rows && v.installs == w.installs
      && Links(v, i) == Links(w, i) + (if i in w.files then 0 else 1)
  {
  }

  // ----- a gc on its own -----------------------------------------------------------------

  predicate Collecting(q: Proc) {
    q.GcRows? || q.GcFiles? || q.GcInstalls? || q.GcDownloads? || q.GcTemps? || q.GcDone?
  }

  function Phase(q: Proc): nat {
    match q
    case GcRows(_, _) => 5
    case GcFiles(_, _, _, _) => 4
    case GcInstalls(_, _) => 3
    case GcDownloads(_, _) => 2
    case GcTemps(_) => 1
    case _ => 0
  }

  /** What is left to do in this phase. */
  function Todo(w: World, q: Proc): nat {
    match q
    case GcRows(_, todo) => |todo|
    case GcFiles(_, todo, _, doomed) => 2 * |todo| + if doomed.Some? then 1 else 0
    case GcInstalls(_, live) => |w.installs.Keys - live|
    case GcDownloads(_, live) => |w.downloads.Keys - live|
    case GcTemps(_) => |w.temps|
    case _ => 0
  }

  /** The gc is nearer to its end. */
  predicate Nearer(w: World, q: Proc, v: World, p: Pid) {
    && p in v.procs && Collecting(v.procs[p])
    && (Phase(v.procs[p]) < Phase(q) || (Phase(v.procs[p]) == Phase(q) && Todo(v, v.procs[p]) < Todo(w, q)))
  }

  lemma OneLess<T>(s: set<T>, x: T)
    requires x in s
    ensures |s - {x}| < |s|
  {
    assert s == s - {x} + {x};
  }

  lemma ScanRowNext(names: Key -> Name, w: World, p: Pid, q: Proc) returns (g: GcStep)
    requires q.GcRows?
    ensures CanGc(w, q, g) && Nearer(w, q, DoGc(names, w, p, q, g), p)
  {
    hide DoGc, Nearer;
    if i :| i in q.todo {
      g := ScanRow(i);
      OneLess(q.todo, i);
      Scanning(names, w, p, q, i);
      LessTodo(w, q, DoGc(names, w, p, q, g), p);
    } else {
      g := ListFiles;
      Scanning(names, w, p, q, 0);
      NextPhase(w, q, DoGc(names, w, p, q, g), p);
    }
  }

  /** Where the scanning steps lead. */
  lemma Scanning(names: Key -> Name, w: World, p: Pid, q: Proc, i: Ino)
    ensures CanGc(w, q, ScanRow(i)) ==>
      var v := DoGc(names, w, p, q, ScanRow(i)); p in v.procs && v.procs[p] == GcRows(q.known, q.todo - {i})
    ensures CanGc(w, q, ListFiles) ==> var v := DoGc(names, w, p, q, ListFiles); p in v.procs && v.procs[p].GcFiles?
  {
    hide LiveInstallNames, Links, Referenced;
  }

  lemma ScanningFile(names: Key -> Name, w: World, p: Pid, q: Proc, i: Ino)
    ensures CanGc(w, q, ScanFile(i)) ==>
      var v := DoGc(names, w, p, q, ScanFile(i));
      p in v.procs && v.procs[p].GcFiles? && v.procs[p].todo == q.todo - {i}
    ensures CanGc(w, q, DropRelations) ==>
      var v := DoGc(names, w, p, q, DropRelations); p in v.procs && v.procs[p].GcInstalls?
  {
    hide LiveInstallNames, Links, Referenced;
  }

  lemma UnlinkingFile(names: Key -> Name, w: World, p: Pid, q: Proc)
    ensures CanGc(w, q, UnlinkFile) ==>
      var v := DoGc(names, w, p, q, UnlinkFile);
      p in v.procs && v.procs[p] == GcFiles(q.known, q.todo, q.kept, None)
  {
    hide LiveInstallNames, Links, Referenced;
  }

  lemma LessTodo(w: World, q: Proc, v: World, p: Pid)
    requires p in v.procs && Collecting(v.procs[p])
    requires var n := v.procs[p];
      || (q.GcRows? && n.GcRows? && |n.todo| < |q.todo|)
      || (q.GcFiles? && n.GcFiles? && (|n.todo| < |q.todo| || (n.todo == q.todo && q.doomed.Some? && n.doomed.None?)))
    ensures Nearer(w, q, v, p)
  {
  }

  lemma NextPhase(w: World, q: Proc, v: World, p: Pid)
    requires p in v.procs && Collecting(v.procs[p]) && Phase(v.procs[p]) < Phase(q)
    ensures Nearer(w, q, v, p)
  {
  }

  lemma ScanFileNext(names: Key -> Name, w: World, p: Pid, q: Proc) returns (g: GcStep)
    requires q.GcFiles?
    ensures CanGc(w, q, g) && Nearer(w, q, DoGc(names, w, p, q, g), p)
  {
    hide DoGc, Nearer;
    if q.doomed.Some? {
      g := UnlinkFile;
      UnlinkingFile(names, w, p, q);
      LessTodo(w, q, DoGc(names, w, p, q, g), p);
    } else if i :| i in q.todo {
      g := ScanFile(i);
      OneLess(q.todo, i);
      ScanningFile(names, w, p, q, i);
      LessTodo(w, q, DoGc(names, w, p, q, g), p);
    } else {
      g := DropRelations;
      ScanningFile(names, w, p, q, 0);
      NextPhase(w, q, DoGc(names, w, p, q, g), p);
    }
  }

  lemma SweepInstallNext(names: Key -> Name, w: World, p: Pid, q: Proc) returns (g: GcStep)
    requires q.GcInstalls? && p in w.procs && w.procs[p] == q
    ensures CanGc(w, q, g) && Nearer(w, q, DoGc(names, w, p, q, g), p)
  {
    hide LiveDownloadNames;
    if n :| n in w.installs.Keys - q.live {
      g := SweepInstall(n, None);
      OneLess(w.installs.Keys - q.live, n);
      assert (w.installs - {n}).Keys - q.live == w.installs.Keys - q.live - {n};
    } else {
      assert forall n :: n in w.installs.Keys ==> n in w.installs.Keys - q.live || n in q.live;
      g := NextDownloads;
    }
  }

  lemma SweepDownloadNext(names: Key -> Name, w: World, p: Pid, q: Proc) returns (g: GcStep)
    requires q.GcDownloads? && p in w.procs && w.procs[p] == q
    ensures CanGc(w, q, g) && Nearer(w, q, DoGc(names, w, p, q, g), p)
  {
    if n :| n in w.downloads.Keys - q.live {
      g := SweepDownload(n, None);
      OneLess(w.downloads.Keys - q.live, n);
      assert (w.downloads - {n}).Keys - q.live == w.downloads.Keys - q.live - {n};
    } else {
      assert forall n :: n in w.downloads.Keys ==> n in w.downloads.Keys - q.live || n in q.live;
      g := NextTemps;
    }
  }

  lemma SweepTempNext(names: Key -> Name, w: World, p: Pid, q: Proc) returns (g: GcStep)
    requires q.GcTemps? && p in w.procs && w.procs[p] == q
    ensures CanGc(w, q, g) && Nearer(w, q, DoGc(names, w, p, q, g), p)
  {
    if t :| t in w.temps {
      g := SweepTemp(t);
      OneLess(w.temps, t);
    } else {
      g := EndGc;
    }
  }

  /** A gc that is not done can go on, and gets nearer to its end. */
  lemma GcNext(names: Key -> Name, w: World, p: Pid, q: Proc) returns (g: GcStep)
    requires Collecting(q) && !q.GcDone? && p in w.procs && w.procs[p] == q
    ensures CanGc(w, q, g) && Nearer(w, q, DoGc(names, w, p, q, g), p)
  {
    hide CanGc, DoGc, Nearer;
    match q
    case GcRows(_, _) => g := ScanRowNext(names, w, p, q);
    case GcFiles(_, _, _, _) => g := ScanFileNext(names, w, p, q);
    case GcInstalls(_, _) => g := SweepInstallNext(names, w, p, q);
    case GcDownloads(_, _) => g := SweepDownloadNext(names, w, p, q);
    case GcTemps(_) => g := SweepTempNext(names, w, p, q);
  }

  /** Wherever a gc stands, it can be carried to its end by steps of its own. */
  lemma {:induction false} GcFinishes(names: Key -> Name, w: World, p: Pid) returns (run: seq<(Pid, Step)>, v: World)
    requires p in w.procs && Collecting(w.procs[p])
    ensures Runs(names, w, run, v) && p in v.procs && v.procs[p].GcDone?
    ensures forall i :: 0 <= i < |run| ==> run[i].0 == p && run[i].1.Gc?
    decreases Phase(w.procs[p]), Todo(w, w.procs[p])
  {
    hide CanGc, DoGc, Todo;
    var q := w.procs[p];
    if q.GcDone? {
      run, v := [], w;
    } else {
      var g := GcNext(names, w, p, q);
      var rest;
      rest, v := GcFinishes(names, DoGc(names, w, p, q, g), p);
      run := [(p, Gc(g))] + rest;
      assert run[1..] == rest;
    }
  }

  // ----- a create on its own ---------------------------------------------------------

  lemma {:induction false} RunsJoin(names: Key -> Name, w: World, a: seq<(Pid, Step)>, u: World,
                                    b: seq<(Pid, Step)>, v: World)
    requires Runs(names, w, a, u) && Runs(names, u, b, v)
    ensures Runs(names, w, a + b, v)
    decreases |a|
  {
    hide Can, Do;
    if a == [] {
      assert a + b == b;
    } else {
      RunsJoin(names, Do(names, w, a[0].0, a[0].1), a[1..], u, b, v);
      assert (a + b)[1..] == a[1..] + b;
    }
  }

  lemma OneStep(names: Key -> Name, w: World, p: Pid, s: Step)
    requires Can(names, w, p, s)
    ensures Runs(names, w, [(p, s)], Do(names, w, p, s))
  {
    hide Can, Do;
    assert [(p, s)][1..] == [];
    assert Runs(names, Do(names, w, p, s), [], Do(names, w, p, s));
  }

  /** Only process `p` is there, and stands at `q`. */
  predicate Alone(w: World, p: Pid, q: Proc) {
    w.procs == map[p := q]
  }

  /** Names of the downloads are apart, and those that are there are what they say. */
  predicate Fetchable(names: Key -> Name, w: World, ks: set<Key>) {
    && (forall k, l :: k in ks && l in ks && k != l ==> names(k) != names(l))
    && (forall k :: k in ks && names(k) in w.downloads ==> Fetched(names, w.downloads, k))
  }

  lemma FetchOne(names: Key -> Name, w: World, p: Pid, q: Proc, k: Key) returns (run: seq<(Pid, Step)>, v: World)
    requires Alone(w, p, q) && q.Installing? && q.fetching == {} && k in q.r.plan.downloads
    requires Fetchable(names, w, q.r.plan.downloads)
    ensures Runs(names, w, run, v) && Fetchable(names, v, q.r.plan.downloads)
    ensures Alone(v, p, Installing(q.r, q.temporary, {}, q.fetched + {k}))
    ensures v == w.(procs := v.procs, downloads := v.downloads)
  {
    hide Runs;
    var s, t := Create(BeginFetch(k)), Create(EndFetch(k));
    var u := Do(names, w, p, s);
    assert q.fetching + {k} == {k};
    assert u == w.(procs := map[p := Installing(q.r, q.temporary, {k}, q.fetched)]);
    v := Do(names, u, p, t);
    assert {k} - {k} == {};
    OneStep(names, w, p, s);
    OneStep(names, u, p, t);
    RunsJoin(names, w, [(p, s)], u, [(p, t)], v);
    run := [(p, s)] + [(p, t)];
  }

  lemma {:induction false} FetchAll(names: Key -> Name, w: World, p: Pid, q: Proc, left: set<Key>)
    returns (run: seq<(Pid, Step)>, v: World)
    requires Alone(w, p, q) && q.Installing? && q.fetching == {} && q.r.plan.downloads == q.fetched + left
    requires Fetchable(names, w, q.r.plan.downloads)
    ensures Runs(names, w, run, v) && Alone(v, p, Installing(q.r, q.temporary, {}, q.r.plan.downloads))
    ensures v == w.(procs := v.procs, downloads := v.downloads)
    decreases left
  {
    hide Fetchable;
    if k :| k in left {
      var first, u := FetchOne(names, w, p, q, k);
      var rest;
      rest, v := FetchAll(names, u, p, Installing(q.r, q.temporary, {}, q.fetched + {k}), left - {k});
      RunsJoin(names, w, first, u, rest, v);
      run := first + rest;
    } else {
      run, v := [], w;
      assert q.fetched == q.r.plan.downloads;
    }
  }

  lemma NewTemp(temps: set<Temp>) returns (t: Temp)
    ensures t !in temps
  {
    t := Highest(temps) + 1;
    assert forall u :: u in temps ==> u <= Highest(temps);
  }

  ghost function Highest(temps: set<Temp>): (h: Temp)
    ensures forall t :: t in temps ==> t <= h
  {
    if temps == {} then 0
    else
      var t :| t in temps;
      var h := Highest(temps - {t});
      assert forall u :: u in temps ==> u == t || u in temps - {t};
      if t < h then h else t
  }

  /** From a held installation to a published one. */
  lemma InstallAlone(names: Key -> Name, w: World, p: Pid, r: Request) returns (run: seq<(Pid, Step)>, v: World)
    requires Alone(w, p, Installing(r, None, {}, {})) && Fetchable(names, w, r.plan.downloads)
    ensures Runs(names, w, run, v) && Alone(v, p, Installed(r)) && Published(names, v.installs, r.plan.key)
    ensures v.rows == w.rows && v.files == w.files && v.links == w.links
  {
    hide Runs, Fetchable, NoneExclusive, FetchFree;
    var t := NewTemp(w.temps);
    var make := Create(MakeTemp(t));
    var u := Do(names, w, p, make);
    OneStep(names, w, p, make);
    SameDownloads(names, w, u, r.plan.downloads);
    var fetch, x := FetchAll(names, u, p, Installing(r, Some(t), {}, {}), r.plan.downloads);
    RunsJoin(names, w, [(p, make)], u, fetch, x);
    var publish := Create(Publish);
    v := Do(names, x, p, publish);
    OneStep(names, x, p, publish);
    run := [(p, make)] + fetch;
    RunsJoin(names, w, run, x, [(p, publish)], v);
    run := run + [(p, publish)];
  }

  lemma SameDownloads(names: Key -> Name, w: World, v: World, ks: set<Key>)
    requires Fetchable(names, w, ks) && v.downloads == w.downloads
    ensures Fetchable(names, v, ks)
  {
  }

  /** What a create needs to find: an installation and downloads that are whole where
      there are any, no row for another plan, and the links it has counted. */
  predicate Ready(names: Key -> Name, w: World, r: Request) {
    && (names(r.plan.key) in w.installs ==> Published(names, w.installs, r.plan.key))
    && Fetchable(names, w, r.plan.downloads)
    && (r.ino in w.rows ==> w.rows[r.ino] == r.plan.key)
    && (if r.already then r.ino in w.files && Links(w, r.ino) >= 2 && Links(w, r.ino) >= r.links
        else r.ino !in w.files && Links(w, r.ino) >= 1)
  }

  lemma HoldAlone(names: Key -> Name, w: World, p: Pid, r: Request) returns (run: seq<(Pid, Step)>, v: World)
    requires Alone(w, p, Read(r)) && Ready(names, w, r)
    ensures Runs(names, w, run, v) && v == w.(procs := v.procs)
    ensures Alone(v, p, if names(r.plan.key) in w.installs then Installed(r) else Installing(r, None, {}, {}))
  {
    hide Runs, Fetchable, Links;
    var s, t := Create(LockGc), Create(LockInstall);
    var u := Do(names, w, p, s);
    assert u == w.(procs := map[p := Shared(r)]);
    v := Do(names, u, p, t);
    OneStep(names, w, p, s);
    OneStep(names, u, p, t);
    RunsJoin(names, w, [(p, s)], u, [(p, t)], v);
    run := [(p, s)] + [(p, t)];
  }

  /** From an installation to a plan file that was linked and checked. */
  lemma LinkAlone(names: Key -> Name, w: World, p: Pid, r: Request) returns (run: seq<(Pid, Step)>, v: World)
    requires Alone(w, p, Installed(r))
    requires if r.already then r.ino in w.files && Links(w, r.ino) >= 2 && Links(w, r.ino) >= r.links
      else r.ino !in w.files && Links(w, r.ino) >= 1
    ensures Runs(names, w, run, v) && Alone(v, p, Checked(r)) && v.installs == w.installs
    ensures v.rows == w.rows && v.files == w.files + {r.ino}
  {
    hide Runs;
    var link, check := Create(Link), Create(Check(true));
    var a := Do(names, w, p, link);
    assert Alone(a, p, Linked(r));
    v := Do(names, a, p, check);
    OneStep(names, w, p, link);
    OneStep(names, a, p, check);
    RunsJoin(names, w, [(p, link)], a, [(p, check)], v);
    run := [(p, link)] + [(p, check)];
  }

  lemma RowAlone(names: Key -> Name, w: World, p: Pid, r: Request) returns (run: seq<(Pid, Step)>, v: World)
    requires Alone(w, p, Checked(r)) && (r.ino in w.rows ==> w.rows[r.ino] == r.plan.key)
    ensures Runs(names, w, run, v) && Alone(v, p, Registered(r)) && v.installs == w.installs
    ensures v.rows == w.rows[r.ino := r.plan.key] && v.files == w.files
  {
    hide Runs, Links;
    var read, add := Create(ReadRow), Create(AddRow);
    var a := Do(names, w, p, read);
    assert a == w.(procs := map[p := RowRead(r)]);
    v := Do(names, a, p, add);
    OneStep(names, w, p, read);
    OneStep(names, a, p, add);
    RunsJoin(names, w, [(p, read)], a, [(p, add)], v);
    run := [(p, read)] + [(p, add)];
  }

  /** A create on its own that finds what it needs can install and register: its
      request has a row for its plan, a file, and a published installation. */
  lemma CreateFinishes(names: Key -> Name, w: World, p: Pid, r: Request) returns (run: seq<(Pid, Step)>, v: World)
    requires Alone(w, p, Read(r)) && Ready(names, w, r)
    ensures Runs(names, w, run, v) && Alone(v, p, Registered(r))
    ensures v.rows == w.rows[r.ino := r.plan.key] && v.files == w.files + {r.ino}
    ensures Published(names, v.installs, r.plan.key)
  {
    hide Runs, Fetchable, Links, Published;
    var u;
    run, u := HoldAlone(names, w, p, r);
    if names(r.plan.key) !in w.installs {
      SameDownloads(names, w, u, r.plan.downloads);
      var install, x := InstallAlone(names, u, p, r);
      RunsJoin(names, w, run, u, install, x);
      run, u := run + install, x;
    }
    SameLinks(w, u, r.ino);
    var link, x := LinkAlone(names, u, p, r);
    RunsJoin(names, w, run, u, link, x);
    run := run + link;
    var add;
    add, v := RowAlone(names, x, p, r);
    RunsJoin(names, w, run, x, add, v);
    run := run + add;
  }

  lemma SameLinks(w: World, v: World, i: Ino)
    requires v.links == w.links
    ensures Links(v, i) == Links(w, i)
  {
  }
}
