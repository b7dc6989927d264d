/** What a gc that dies inside a deletion leaves behind: a create looks at the key
    file and for a root directory only, so it may take half of an installation for
    a whole one. */
module StoreDamage {
  import opened Wrappers
  import opened IntentDb
  import opened StoreProtocol

  // ----- when an installation is whole ------------------------------------------

  /** The step publishes an installation under the name. */
  predicate Publishes(names: Key -> Name, w: World, p: Pid, s: Step, n: Name)
    requires Can(names, w, p, s)
  {
    s == Create(Publish) && names(w.procs[p].r.plan.key) == n
  }

  /** The step deletes a part of what is under the root, and leaves the root. */
  predicate Tears(s: Step, n: Name) {
    s.Gc? && s.g.SweepInstall? && s.g.n == n && s.g.left.Some? && s.g.left.value.content.Partial?
  }

  /** Whether the last of these was a tear: since the installation was last
      published, a gc has been inside its root and has left the root there. */
  predicate Torn(names: Key -> Name, w: World, run: seq<(Pid, Step)>, n: Name, before: bool)
    decreases |run|
  {
    if run == [] || !Can(names, w, run[0].0, run[0].1) then before
    else
      Torn(names, Do(names, w, run[0].0, run[0].1), run[1..], n,
           !Publishes(names, w, run[0].0, run[0].1, n) && (Tears(run[0].1, n) || before))
  }

  predicate Agrees(w: World, n: Name, torn: bool) {
    n in w.installs && !w.installs[n].content.Gone? ==> (w.installs[n].content.Whole? <==> !torn)
  }

  lemma AgreesStep(names: Key -> Name, w: World, p: Pid, s: Step, n: Name, torn: bool)
    requires Can(names, w, p, s) && Agrees(w, n, torn)
    ensures Agrees(Do(names, w, p, s), n, !Publishes(names, w, p, s, n) && (Tears(s, n) || torn))
  {
    hide LiveInstallNames, LiveDownloadNames, Links, NoneExclusive, NoneLocked, InstallFree, FetchFree;
  }

  lemma {:induction false} AgreesRun(names: Key -> Name, w: World, run: seq<(Pid, Step)>, v: World, n: Name, torn: bool)
    requires Agrees(w, n, torn) && Runs(names, w, run, v)
    ensures Agrees(v, n, Torn(names, w, run, n, torn))
    decreases |run|
  {
    hide Can, Do, Agrees, Publishes, Tears;
    if run != [] {
      var p, s := run[0].0, run[0].1;
      AgreesStep(names, w, p, s, n, torn);
      AgreesRun(names, Do(names, w, p, s), run[1..], v, n, !Publishes(names, w, p, s, n) && (Tears(s, n) || torn));
    }
  }

  /** In every state that can be reached, the installation of a request row is whole
      if and only if no gc has died inside its root since it was published. */
  lemma WholeUnlessTorn(names: Key -> Name, links: map<Ino, nat>, run: seq<(Pid, Step)>, v: World, i: Ino)
    requires Runs(names, Opened(links), run, v) && i in v.rows
    ensures var n := names(v.rows[i]);
      n in v.installs
        && (v.installs[n] == Object(Some(v.rows[i]), Whole) <==> !Torn(names, Opened(links), run, n, false))
  {
    hide Can, Do, Runs, Torn;
    var n := names(v.rows[i]);
    EveryRowPublished(names, links, run, v, i);
    AgreesRun(names, Opened(links), run, v, n, false);
  }

  /** Downloads are not affected: what a create takes as one has its data. */
  lemma DownloadsWhole(names: Key -> Name, links: map<Ino, nat>, run: seq<(Pid, Step)>, v: World, p: Pid, k: Key)
    requires Runs(names, Opened(links), run, v) && p in v.procs
    requires v.procs[p].Installing? && k in v.procs[p].fetched
    ensures Fetched(names, v.downloads, k)
  {
    hide Runs;
    Reached(names, links, run, v);
    assert ProcOk(names, v, v.procs[p]);
  }

  // ----- a run that damages a row -------------------------------------------------

  lemma {:induction false} Then(names: Key -> Name, w: World, run: seq<(Pid, Step)>, v: World, p: Pid, s: Step)
    requires Runs(names, w, run, v) && Can(names, v, p, s)
    ensures Runs(names, w, run + [(p, s)], Do(names, v, p, s))
    decreases |run|
  {
    hide Can, Do;
    var longer := run + [(p, s)];
    if run == [] {
      assert longer[1..] == [];
    } else {
      assert longer[1..] == run[1..] + [(p, s)];
      Then(names, Do(names, w, run[0].0, run[0].1), run[1..], v, p, s);
    }
  }

  lemma {:induction false} Join(names: Key -> Name, w: World, run: seq<(Pid, Step)>, u: World, more: seq<(Pid, Step)>,
                                v: World)
    requires Runs(names, w, run, u) && Runs(names, u, more, v)
    ensures Runs(names, w, run + more, v)
    decreases |more|
  {
    hide Can, Do;
    if more == [] {
      assert run + more == run;
    } else {
      Then(names, w, run, u, more[0].0, more[0].1);
      assert run + more == run + [(more[0].0, more[0].1)] + more[1..];
      Join(names, w, run + [(more[0].0, more[0].1)], Do(names, u, more[0].0, more[0].1), more[1..], v);
    }
  }

  /** The store when one process, and no other, is at `q`. */
  function Alone(w: World, q: Proc): World {
    w.(procs := map[0 := q])
  }

  /** `s` is possible in `w` and leads to `v`. */
  predicate Leads(names: Key -> Name, w: World, s: Step, v: World) {
    Can(names, w, 0, s) && Do(names, w, 0, s) == v
  }

  lemma Extend(names: Key -> Name, w: World, run: seq<(Pid, Step)>, u: World, s: Step, v: World)
    returns (longer: seq<(Pid, Step)>)
    requires Runs(names, w, run, u) && Leads(names, u, s, v)
    ensures Runs(names, w, longer, v)
  {
    hide Can, Do, Runs;
    Then(names, w, run, u, 0, s);
    longer := run + [(0, s)];
  }

  lemma NoSteps(names: Key -> Name, w: World)
    ensures Runs(names, w, [], w)
  {
  }

  function RequestOf(i: Ino, k: Key): Request {
    Request(i, Plan(k, {}), false, 1)
  }

  lemma LockSteps(names: Key -> Name, w: World, i: Ino, k: Key)
    requires w.procs == map[] && Links(w, i) == 1 && i !in w.files
    ensures Leads(names, w, Prepare(i, Plan(k, {})), Alone(w, Read(RequestOf(i, k))))
    ensures Leads(names, Alone(w, Read(RequestOf(i, k))), Create(LockGc), Alone(w, Shared(RequestOf(i, k))))
  {
  }

  lemma CachedStep(names: Key -> Name, w: World, r: Request)
    requires names(r.plan.key) in w.installs && Published(names, w.installs, r.plan.key)
    ensures Leads(names, Alone(w, Shared(r)), Create(LockInstall), Alone(w, Installed(r)))
  {
  }

  lemma UncachedStep(names: Key -> Name, w: World, r: Request)
    requires names(r.plan.key) !in w.installs
    ensures Leads(names, Alone(w, Shared(r)), Create(LockInstall), Alone(w, Installing(r, None, {}, {})))
  {
  }

  lemma TempStep(names: Key -> Name, w: World, r: Request)
    requires w.temps == {}
    ensures Leads(names, Alone(w, Installing(r, None, {}, {})), Create(MakeTemp(0)),
                  Alone(w, Installing(r, Some(0), {}, {})).(temps := {0}))
  {
  }

  lemma PublishStep(names: Key -> Name, w: World, r: Request)
    requires names(r.plan.key) !in w.installs && w.temps == {} && r.plan.downloads == {}
    ensures Leads(names, Alone(w, Installing(r, Some(0), {}, {})).(temps := {0}), Create(Publish),
                  Alone(w, Installed(r)).(installs := w.installs[names(r.plan.key) := Object(Some(r.plan.key), Whole)]))
  {
  }

  /** A create up to an installed object, its plan without downloads. */
  lemma Installs(names: Key -> Name, w: World, i: Ino, k: Key) returns (run: seq<(Pid, Step)>, v: World)
    requires w.procs == map[] && Links(w, i) == 1 && i !in w.files && w.temps == {}
    requires names(k) in w.installs ==> Published(names, w.installs, k)
    ensures v == Alone(w, Installed(RequestOf(i, k))).(
      installs := if names(k) in w.installs then w.installs else w.installs[names(k) := Object(Some(k), Whole)])
    ensures Runs(names, w, run, v)
  {
    hide Runs, Leads, Links, Published;
    var r := RequestOf(i, k);
    NoSteps(names, w);
    LockSteps(names, w, i, k);
    run := Extend(names, w, [], w, Prepare(i, Plan(k, {})), Alone(w, Read(r)));
    run := Extend(names, w, run, Alone(w, Read(r)), Create(LockGc), Alone(w, Shared(r)));
    if names(k) in w.installs {
      CachedStep(names, w, r);
      v := Alone(w, Installed(r));
      run := Extend(names, w, run, Alone(w, Shared(r)), Create(LockInstall), v);
    } else {
      UncachedStep(names, w, r);
      TempStep(names, w, r);
      PublishStep(names, w, r);
      var temporary := Alone(w, Installing(r, Some(0), {}, {})).(temps := {0});
      v := Alone(w, Installed(r)).(installs := w.installs[names(k) := Object(Some(k), Whole)]);
      run := Extend(names, w, run, Alone(w, Shared(r)), Create(LockInstall), Alone(w, Installing(r, None, {}, {})));
      run := Extend(names, w, run, Alone(w, Installing(r, None, {}, {})), Create(MakeTemp(0)), temporary);
      run := Extend(names, w, run, temporary, Create(Publish), v);
    }
  }

  function LinkedWorld(w: World, i: Ino): World {
    w.(files := w.files + {i}, links := w.links[i := 2])
  }

  lemma LinkStep(names: Key -> Name, w: World, i: Ino, k: Key)
    requires Links(w, i) == 1 && i !in w.files
    ensures Leads(names, Alone(w, Installed(RequestOf(i, k))), Create(Link),
      Alone(LinkedWorld(w, i), Linked(RequestOf(i, k))))
  {
  }

  lemma CheckStep(names: Key -> Name, w: World, i: Ino, k: Key)
    requires Links(w, i) == 2 && i in w.files
    ensures Leads(names, Alone(w, Linked(RequestOf(i, k))), Create(Check(true)), Alone(w, Checked(RequestOf(i, k))))
  {
  }

  lemma ReadStep(names: Key -> Name, w: World, i: Ino, k: Key)
    requires i !in w.rows
    ensures Leads(names, Alone(w, Checked(RequestOf(i, k))), Create(ReadRow), Alone(w, RowRead(RequestOf(i, k))))
  {
  }

  lemma RowStep(names: Key -> Name, w: World, i: Ino, k: Key)
    ensures var registered := w.(rows := w.rows[i := k]);
      Leads(names, Alone(w, RowRead(RequestOf(i, k))), Create(AddRow),
        Alone(registered, StoreProtocol.Registered(RequestOf(i, k))))
  {
    hide Links, Published, Fetched;
    assert (set d | d in RequestOf(i, k).plan.downloads :: (k, d)) == {};
  }

  lemma LeaveStep(names: Key -> Name, w: World, q: Proc)
    ensures Leads(names, Alone(w, q), Leave, w.(procs := map[]))
  {
  }

  /** Its registration. */
  lemma Registers(names: Key -> Name, w: World, i: Ino, k: Key) returns (run: seq<(Pid, Step)>, v: World)
    requires w.procs == map[0 := Installed(RequestOf(i, k))] && Links(w, i) == 1 && i !in w.files && i !in w.rows
    ensures v == LinkedWorld(w, i).(procs := map[], rows := w.rows[i := k])
    ensures Runs(names, w, run, v)
  {
    hide Runs, Leads;
    var r, u := RequestOf(i, k), LinkedWorld(w, i);
    var registered := u.(rows := u.rows[i := k]);
    NoSteps(names, w);
    LinkStep(names, w, i, k);
    assert Links(u, i) == 2;
    CheckStep(names, u, i, k);
    ReadStep(names, u, i, k);
    RowStep(names, u, i, k);
    LeaveStep(names, registered, StoreProtocol.Registered(r));
    assert w == Alone(w, Installed(r));
    v := registered.(procs := map[]);
    run := Extend(names, w, [], w, Create(Link), Alone(u, Linked(r)));
    run := Extend(names, w, run, Alone(u, Linked(r)), Create(Check(true)), Alone(u, Checked(r)));
    run := Extend(names, w, run, Alone(u, Checked(r)), Create(ReadRow), Alone(u, RowRead(r)));
    run := Extend(names, w, run, Alone(u, RowRead(r)), Create(AddRow), Alone(registered, StoreProtocol.Registered(r)));
    run := Extend(names, w, run, Alone(registered, StoreProtocol.Registered(r)), Leave, v);
  }

  lemma RemoveSteps(names: Key -> Name, w: World, i: Ino)
    requires w.procs == map[] && i in w.files && Links(w, i) == 2
    ensures Leads(names, w, BeginRemove(i), Alone(w, Removing(i)))
    ensures Leads(names, Alone(w, Removing(i)), Remove(RemoveRow), Alone(w, Unlinking(i)).(rows := w.rows - {i}))
    ensures Leads(names, Alone(w, Unlinking(i)).(rows := w.rows - {i}), Remove(RemoveFile),
                  w.(rows := w.rows - {i}, files := w.files - {i}, links := w.links[i := 1]))
  {
  }

  /** The request is removed. */
  lemma Removes(names: Key -> Name, w: World, i: Ino) returns (run: seq<(Pid, Step)>, v: World)
    requires w.procs == map[] && i in w.files && Links(w, i) == 2
    ensures v == w.(rows := w.rows - {i}, files := w.files - {i}, links := w.links[i := 1])
    ensures Runs(names, w, run, v)
  {
    hide Runs, Leads, Links;
    NoSteps(names, w);
    RemoveSteps(names, w, i);
    var unlinking := Alone(w, Unlinking(i)).(rows := w.rows - {i});
    v := w.(rows := w.rows - {i}, files := w.files - {i}, links := w.links[i := 1]);
    run := Extend(names, w, [], w, BeginRemove(i), Alone(w, Removing(i)));
    run := Extend(names, w, run, Alone(w, Removing(i)), Remove(RemoveRow), unlinking);
    run := Extend(names, w, run, unlinking, Remove(RemoveFile), v);
  }

  lemma GcStarts(names: Key -> Name, w: World)
    requires w.procs == map[] && w.rows == map[] && w.files == {} && w.relations == {}
    ensures Leads(names, w, BeginGc, Alone(w, GcRows({}, {})))
    ensures Leads(names, Alone(w, GcRows({}, {})), Gc(ListFiles), Alone(w, GcFiles({}, {}, map[], None)))
  {
    assert w.rows.Keys == {};
  }

  lemma DropStep(names: Key -> Name, w: World)
    requires w.rows == map[] && w.relations == {}
    ensures Leads(names, Alone(w, GcFiles({}, {}, map[], None)), Gc(DropRelations), Alone(w, GcInstalls(map[], {})))
  {
    var u := Alone(w, GcFiles({}, {}, map[], None));
    assert LiveKeys(u) == {};
    assert LiveInstallNames(names, u) == {};
    assert Referenced(u.rows, u.relations) == {};
  }

  lemma TearStep(names: Key -> Name, w: World, k: Key)
    requires w.installs == map[names(k) := Object(Some(k), Whole)]
    ensures Leads(names, Alone(w, GcInstalls(map[], {})), Gc(SweepInstall(names(k), Some(Object(Some(k), Partial)))),
                  Alone(w.(installs := map[names(k) := Object(Some(k), Partial)]), GcInstalls(map[], {})))
  {
  }

  /** A gc dies inside the deletion of the only object, with key and root left. */
  lemma GcDies(names: Key -> Name, w: World, k: Key) returns (run: seq<(Pid, Step)>, v: World)
    requires w.procs == map[] && w.rows == map[] && w.files == {} && w.relations == {}
    requires w.installs == map[names(k) := Object(Some(k), Whole)]
    ensures v == w.(installs := map[names(k) := Object(Some(k), Partial)])
    ensures Runs(names, w, run, v)
  {
    hide Runs, Leads;
    var q := GcInstalls(map[], {});
    NoSteps(names, w);
    GcStarts(names, w);
    DropStep(names, w);
    TearStep(names, w, k);
    v := w.(installs := map[names(k) := Object(Some(k), Partial)]);
    LeaveStep(names, v, q);
    run := Extend(names, w, [], w, BeginGc, Alone(w, GcRows({}, {})));
    run := Extend(names, w, run, Alone(w, GcRows({}, {})), Gc(ListFiles), Alone(w, GcFiles({}, {}, map[], None)));
    run := Extend(names, w, run, Alone(w, GcFiles({}, {}, map[], None)), Gc(DropRelations), Alone(w, q));
    run := Extend(names, w, run, Alone(w, q), Gc(SweepInstall(names(k), Some(Object(Some(k), Partial)))), Alone(v, q));
    run := Extend(names, w, run, Alone(v, q), Leave, v);
  }

  /** Create, remove, a gc that dies, create again: the second create takes what is
      left for an installation, and registers it. */
  lemma DamagedRow(names: Key -> Name, i: Ino, k: Key) returns (run: seq<(Pid, Step)>, v: World)
    ensures Runs(names, Opened(map[i := 1]), run, v)
    ensures v.procs == map[] && v.rows == map[i := k] && v.installs == map[names(k) := Object(Some(k), Partial)]
  {
    hide Runs;
    var w := Opened(map[i := 1]);
    var r1, v1 := Installs(names, w, i, k);
    var r2, v2 := Registers(names, v1, i, k);
    var r3, v3 := Removes(names, v2, i);
    var r4, v4 := GcDies(names, v3, k);
    var r5, v5 := Installs(names, v4, i, k);
    var r6, v6 := Registers(names, v5, i, k);
    Join(names, w, r1, v1, r2, v2);
    Join(names, w, r1 + r2, v2, r3, v3);
    Join(names, w, r1 + r2 + r3, v3, r4, v4);
    Join(names, w, r1 + r2 + r3 + r4, v4, r5, v5);
    Join(names, w, r1 + r2 + r3 + r4 + r5, v5, r6, v6);
    run, v := r1 + r2 + r3 + r4 + r5 + r6, v6;
  }
}
