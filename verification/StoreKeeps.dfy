/** What a gc must leave alone: a request that is still wanted keeps its row, its
    installation and its downloads through every run; and what a finished gc leaves
    is wanted by some row. */
module StoreKeeps {
  import opened Wrappers
  import opened IntentDb
  import opened StoreProtocol

  // ----- how rows and files are lost ----------------------------------------------

  lemma CreateKeeps(names: Key -> Name, w: World, p: Pid, q: Proc, c: CreateStep, i: Ino)
    requires CanCreate(names, w, q, c)
    ensures var v := DoCreate(names, w, p, q, c);
      (i in w.rows ==> i in v.rows) && (i in w.files ==> i in v.files)
  {
    hide NoneExclusive, InstallFree, FetchFree, Links, Published;
  }

  /** Which rows a gc step takes, and which files. */
  lemma GcTakes(names: Key -> Name, w: World, p: Pid, q: Proc, g: GcStep, i: Ino)
    requires ProcOk(names, w, q) && CanGc(w, q, g)
    ensures var v := DoGc(names, w, p, q, g);
      && (i in w.rows && i !in v.rows ==>
            (g == ScanRow(i) && i !in w.files) || (g == ScanFile(i) && i in w.files && Links(w, i) == 1))
      && (i in w.files && i !in v.files ==> g == UnlinkFile && q.doomed == Some(i) && i !in w.rows)
  {
    hide LiveInstallNames, LiveDownloadNames, Links, Settled, Swept;
  }

  /** A gc condemns a file only if nothing else links to it, or if it had no row when
      the gc began. */
  lemma Condemned(names: Key -> Name, w: World, p: Pid, q: Proc, g: GcStep, i: Ino)
    requires ProcOk(names, w, q) && CanGc(w, q, g)
    requires var v := DoGc(names, w, p, q, g); p in v.procs && v.procs[p].GcFiles? && v.procs[p].doomed == Some(i)
    requires !(p in w.procs && w.procs[p].GcFiles? && w.procs[p].doomed == Some(i)) && p in w.procs && w.procs[p] == q
    ensures g == ScanFile(i) && i in w.files && (Links(w, i) == 1 || i !in q.known)
  {
    hide LiveInstallNames, LiveDownloadNames, Links, Settled, Swept;
  }

  lemma RemoveTakes(w: World, p: Pid, q: Proc, r: RemoveStep, i: Ino)
    requires CanRemove(q, r)
    ensures var v := DoRemove(w, p, q, r);
      && (i in w.rows && i !in v.rows ==> r.RemoveRow? && q == Removing(i))
      && (i in w.files && i !in v.files ==> r.RemoveFile? && q == Unlinking(i))
  {
  }

  lemma OthersKeep(names: Key -> Name, w: World, p: Pid, s: Step)
    requires Can(names, w, p, s) && !s.Create? && !s.Remove? && !s.Gc?
    ensures Do(names, w, p, s).rows == w.rows && Do(names, w, p, s).files == w.files
  {
    hide Links, NoneExclusive, NoneLocked;
  }

  lemma Acting(names: Key -> Name, w: World, p: Pid, s: Step)
    requires Inv(names, w) && Can(names, w, p, s) && (s.Create? || s.Remove? || s.Gc?)
    ensures p in w.procs && ProcOk(names, w, w.procs[p])
    ensures s.Create? ==>
      CanCreate(names, w, w.procs[p], s.c) && Do(names, w, p, s) == DoCreate(names, w, p, w.procs[p], s.c)
    ensures s.Remove? ==> CanRemove(w.procs[p], s.r) && Do(names, w, p, s) == DoRemove(w, p, w.procs[p], s.r)
    ensures s.Gc? ==> CanGc(w, w.procs[p], s.g) && Do(names, w, p, s) == DoGc(names, w, p, w.procs[p], s.g)
  {
    hide CanCreate, CanGc, CanRemove, DoCreate, DoRemove, DoGc, ProcOk;
  }

  /** A row is lost to a remove of it, or to a gc that finds its request file gone or
      linked from nowhere else. */
  lemma RowLost(names: Key -> Name, w: World, p: Pid, s: Step, i: Ino)
    requires Inv(names, w) && Can(names, w, p, s) && i in w.rows && i !in Do(names, w, p, s).rows
    ensures p in w.procs
    ensures
      || (s == Remove(RemoveRow) && w.procs[p] == Removing(i))
      || (s == Gc(ScanRow(i)) && i !in w.files)
      || (s == Gc(ScanFile(i)) && i in w.files && Links(w, i) == 1)
  {
    hide Inv, Can, Do, Links, CanCreate, CanGc, CanRemove, DoCreate, DoRemove, DoGc, ProcOk;
    match s
    case Create(c) => Acting(names, w, p, s); CreateKeeps(names, w, p, w.procs[p], c, i);
    case Remove(r) => Acting(names, w, p, s); RemoveTakes(w, p, w.procs[p], r, i);
    case Gc(g) => Acting(names, w, p, s); GcTakes(names, w, p, w.procs[p], g, i);
    case _ => OthersKeep(names, w, p, s);
  }

  /** A request file is lost to a remove of it, or to a gc that has condemned it; and
      a condemned file has no row any more. */
  lemma FileLost(names: Key -> Name, w: World, p: Pid, s: Step, i: Ino)
    requires Inv(names, w) && Can(names, w, p, s) && i in w.files && i !in Do(names, w, p, s).files
    ensures p in w.procs
    ensures
      || (s == Remove(RemoveFile) && w.procs[p] == Unlinking(i))
      || (s == Gc(UnlinkFile) && w.procs[p].GcFiles? && w.procs[p].doomed == Some(i) && i !in w.rows)
  {
    hide Inv, Can, Do, Links, CanCreate, CanRemove, DoCreate, DoRemove, DoGc, ProcOk;
    match s
    case Create(c) => Acting(names, w, p, s); CreateKeeps(names, w, p, w.procs[p], c, i);
    case Remove(r) => Acting(names, w, p, s); RemoveTakes(w, p, w.procs[p], r, i);
    case Gc(g) => Acting(names, w, p, s); GcTakes(names, w, p, w.procs[p], g, i);
    case _ => OthersKeep(names, w, p, s);
  }

  // ----- wanted requests ------------------------------------------------------------

  /** The step removes the request by name. */
  predicate Removes(w: World, p: Pid, s: Step, i: Ino) {
    s.Remove? && p in w.procs && (w.procs[p] == Removing(i) || w.procs[p] == Unlinking(i))
  }

  /** Through the whole run somebody links to the request's file besides the store,
      and nobody removes the request. */
  predicate Wanted(names: Key -> Name, w: World, run: seq<(Pid, Step)>, i: Ino)
    decreases |run|
  {
    && Links(w, i) >= 2
    && (run != [] && Can(names, w, run[0].0, run[0].1) ==>
          !Removes(w, run[0].0, run[0].1, i) && Wanted(names, Do(names, w, run[0].0, run[0].1), run[1..], i))
  }

  /** However many processes run, and whichever die: a wanted request keeps its row
      and its file, and its plan an installation. */
  lemma {:induction false} WantedKept(names: Key -> Name, w: World, run: seq<(Pid, Step)>, v: World, i: Ino)
    requires Inv(names, w) && Runs(names, w, run, v) && i in w.rows && i in w.files && Wanted(names, w, run, i)
    ensures i in v.rows && i in v.files && Published(names, v.installs, v.rows[i])
    decreases |run|
  {
    hide Inv, Can, Do, Links, Published, Removes;
    if run == [] {
      RowPublished(names, v, i);
    } else {
      var p, s := run[0].0, run[0].1;
      StillThere(names, w, p, s, i);
      StepInv(names, w, p, s);
      WantedKept(names, Do(names, w, p, s), run[1..], v, i);
    }
  }

  lemma RowPublished(names: Key -> Name, w: World, i: Ino)
    requires Inv(names, w) && i in w.rows
    ensures Published(names, w.installs, w.rows[i])
  {
    hide Published, Excluded, OneInstaller, ProcsOk, FilesLinked, OwnTemps;
  }

  lemma StillThere(names: Key -> Name, w: World, p: Pid, s: Step, i: Ino)
    requires Inv(names, w) && Can(names, w, p, s) && i in w.rows && i in w.files && Links(w, i) >= 2
    requires !Removes(w, p, s, i)
    ensures i in Do(names, w, p, s).rows && i in Do(names, w, p, s).files
  {
    hide Inv, Can, Do, Links;
    if i !in Do(names, w, p, s).rows {
      RowLost(names, w, p, s, i);
    }
    if i !in Do(names, w, p, s).files {
      FileLost(names, w, p, s, i);
    }
  }

  /** From the start: whatever led there, a request that is wanted from then on is
      kept. */
  lemma RequestKept(names: Key -> Name, links: map<Ino, nat>, before: seq<(Pid, Step)>, w: World,
                    run: seq<(Pid, Step)>, v: World, i: Ino)
    requires Runs(names, Opened(links), before, w) && Runs(names, w, run, v)
    requires i in w.rows && i in w.files && Wanted(names, w, run, i)
    ensures i in v.rows && i in v.files && Published(names, v.installs, v.rows[i])
  {
    hide Runs, Wanted, Published;
    Reached(names, links, before, w);
    WantedKept(names, w, run, v, i);
  }

  // ----- downloads of a plan ----------------------------------------------------------

  /** Adding a row makes every download of the plan live. */
  lemma RowRecorded(names: Key -> Name, w: World, p: Pid)
    requires Can(names, w, p, Create(AddRow))
    ensures var v, r := Do(names, w, p, Create(AddRow)), w.procs[p].r;
      && v.rows == w.rows[r.ino := r.plan.key]
      && forall d :: d in r.plan.downloads ==> (r.plan.key, d) in v.relations && d in LiveDownloads(v.rows, v.relations)
  {
    var v, r := Do(names, w, p, Create(AddRow)), w.procs[p].r;
    assert v.rows[r.ino] == r.plan.key;
    assert r.plan.key in LivePlans(v.rows);
    forall d | d in r.plan.downloads
      ensures (r.plan.key, d) in v.relations && d in LiveDownloads(v.rows, v.relations)
    {
      assert (r.plan.key, d) in v.relations;
    }
  }

  /** Some row has the plan key, through the whole run. */
  predicate LiveThrough(names: Key -> Name, w: World, run: seq<(Pid, Step)>, k: Key)
    decreases |run|
  {
    && k in LiveKeys(w)
    && (run != [] && Can(names, w, run[0].0, run[0].1) ==>
          LiveThrough(names, Do(names, w, run[0].0, run[0].1), run[1..], k))
  }

  lemma CreateKeepsDownload(names: Key -> Name, w: World, p: Pid, q: Proc, c: CreateStep, e: (Key, Key))
    requires CanCreate(names, w, q, c) && e in w.relations
    ensures e in DoCreate(names, w, p, q, c).relations
    ensures Fetched(names, w.downloads, e.1) ==> Fetched(names, DoCreate(names, w, p, q, c).downloads, e.1)
  {
    hide NoneExclusive, InstallFree, FetchFree, Links, Published;
  }

  lemma GcKeepsDownload(names: Key -> Name, w: World, p: Pid, q: Proc, g: GcStep, e: (Key, Key))
    requires ProcOk(names, w, q) && CanGc(w, q, g) && e in w.relations && e.0 in LiveKeys(w)
    requires e.0 in LiveKeys(DoGc(names, w, p, q, g))
    ensures e in DoGc(names, w, p, q, g).relations
    ensures Fetched(names, w.downloads, e.1) ==> Fetched(names, DoGc(names, w, p, q, g).downloads, e.1)
  {
    hide LiveInstallNames, Links, Settled;
    assert e.1 in LiveDownloads(w.rows, w.relations);
    assert names(e.1) in LiveDownloadNames(names, w);
  }

  lemma OthersKeepDownload(names: Key -> Name, w: World, p: Pid, s: Step)
    requires Can(names, w, p, s) && !s.Create? && !s.Gc?
    ensures Do(names, w, p, s).relations == w.relations && Do(names, w, p, s).downloads == w.downloads
  {
    hide NoneExclusive, NoneLocked;
  }

  lemma DownloadStep(names: Key -> Name, w: World, p: Pid, s: Step, e: (Key, Key))
    requires Inv(names, w) && Can(names, w, p, s) && e in w.relations
    requires e.0 in LiveKeys(w) && e.0 in LiveKeys(Do(names, w, p, s))
    ensures e in Do(names, w, p, s).relations
    ensures Fetched(names, w.downloads, e.1) ==> Fetched(names, Do(names, w, p, s).downloads, e.1)
  {
    hide Inv, Can, Do, Links, CanCreate, CanGc, CanRemove, DoCreate, DoRemove, DoGc, ProcOk, LiveKeys, Fetched;
    match s
    case Create(c) => Acting(names, w, p, s); CreateKeepsDownload(names, w, p, w.procs[p], c, e);
    case Gc(g) => Acting(names, w, p, s); GcKeepsDownload(names, w, p, w.procs[p], g, e);
    case _ => OthersKeepDownload(names, w, p, s);
  }

  /** As long as some row has the plan key, the plan's relations stay, and a download
      of it that is there stays whole. */
  lemma {:induction false} DownloadKept(names: Key -> Name, w: World, run: seq<(Pid, Step)>, v: World, e: (Key, Key))
    requires Inv(names, w) && Runs(names, w, run, v) && e in w.relations && LiveThrough(names, w, run, e.0)
    ensures e in v.relations
    ensures Fetched(names, w.downloads, e.1) ==> Fetched(names, v.downloads, e.1)
    decreases |run|
  {
    hide Inv, Can, Do, LiveKeys, Fetched;
    if run != [] {
      var p, s := run[0].0, run[0].1;
      LiveNow(names, Do(names, w, p, s), run[1..], e.0);
      DownloadStep(names, w, p, s, e);
      StepInv(names, w, p, s);
      DownloadKept(names, Do(names, w, p, s), run[1..], v, e);
    }
  }

  lemma LiveNow(names: Key -> Name, w: World, run: seq<(Pid, Step)>, k: Key)
    requires LiveThrough(names, w, run, k)
    ensures k in LiveKeys(w)
  {
  }

  // ----- what a registration has seen -------------------------------------------------

  /** A check of its plan file by process `p` finds it as it was prepared, the request
      file there, and as many links as there were, two at least. */
  predicate Approves(w: World, p: Pid, unmodified: bool) {
    && p in w.procs && w.procs[p].Linked? && unmodified
    && var r := w.procs[p].r;
    r.ino in w.files && Links(w, r.ino) >= 2 && (r.already ==> Links(w, r.ino) >= r.links)
  }

  /** Whether the last check that process `p` made of its plan file approved it. */
  predicate Saw(names: Key -> Name, w: World, run: seq<(Pid, Step)>, p: Pid, before: bool)
    decreases |run|
  {
    if run == [] || !Can(names, w, run[0].0, run[0].1) then before
    else
      var q, s := run[0].0, run[0].1;
      var now :=
        if q == p && s.Create? && s.c.Check? then Approves(w, p, s.c.unmodified)
        else if q == p && (s.Prepare? || s.BeginRemove? || s.BeginGc?) then false
        else before;
      Saw(names, Do(names, w, q, s), run[1..], p, now)
  }

  predicate Past(q: Proc) {
    q.Checked? || q.RowRead? || q.Registered?
  }

  lemma OthersStay(names: Key -> Name, w: World, q: Pid, s: Step, p: Pid)
    requires Can(names, w, q, s) && p != q
    ensures var v := Do(names, w, q, s); p in v.procs ==> p in w.procs && v.procs[p] == w.procs[p]
  {
    hide LiveInstallNames, LiveDownloadNames, Links, NoneExclusive, NoneLocked, CanCreate, DoCreate;
    if s.Create? {
      CreateMoves(names, w, q, w.procs[q], s.c);
    }
  }

  lemma CreatePast(names: Key -> Name, w: World, p: Pid, q: Proc, c: CreateStep)
    requires CanCreate(names, w, q, c) && p in w.procs && w.procs[p] == q
    ensures var v := DoCreate(names, w, p, q, c);
      p in v.procs && Past(v.procs[p]) ==>
        if c.Check? then Approves(w, p, c.unmodified) else Past(q)
  {
    hide NoneExclusive, InstallFree, FetchFree, Links, Published;
  }

  lemma OtherPast(names: Key -> Name, w: World, p: Pid, s: Step)
    requires Can(names, w, p, s) && !s.Create?
    ensures var v := Do(names, w, p, s);
      p in v.procs && Past(v.procs[p]) ==>
        p in w.procs && Past(w.procs[p]) && !s.Prepare? && !s.BeginRemove? && !s.BeginGc?
  {
    hide Links, NoneExclusive, NoneLocked, CanGc, DoGc;
    if s.Gc? {
      GcMoves(names, w, p, w.procs[p], s.g);
    }
  }

  lemma SawStep(names: Key -> Name, w: World, q: Pid, s: Step, p: Pid)
    requires Can(names, w, q, s)
    ensures var v := Do(names, w, q, s);
      && (p in v.procs && Past(v.procs[p]) ==> p in w.procs)
      && (p in v.procs && Past(v.procs[p]) && q == p && s.Create? && s.c.Check? ==> Approves(w, p, s.c.unmodified))
      && (p in v.procs && Past(v.procs[p]) && !(q == p && s.Create? && s.c.Check?) ==>
            Past(w.procs[p]) && !(q == p && (s.Prepare? || s.BeginRemove? || s.BeginGc?)))
  {
    hide Links, CanCreate, CanGc, CanRemove, DoCreate, DoRemove, DoGc, Past, Approves;
    if q != p {
      OthersStay(names, w, q, s, p);
    } else if s.Create? {
      CreatePast(names, w, p, w.procs[p], s.c);
    } else {
      OtherPast(names, w, p, s);
    }
  }

  lemma {:induction false} SawRun(names: Key -> Name, w: World, run: seq<(Pid, Step)>, v: World, p: Pid, before: bool)
    requires Runs(names, w, run, v) && (p in w.procs && Past(w.procs[p]) ==> before)
    requires p in v.procs && Past(v.procs[p])
    ensures Saw(names, w, run, p, before)
    decreases |run|
  {
    hide Can, Do, Past, Approves;
    if run != [] {
      var q, s := run[0].0, run[0].1;
      SawStep(names, w, q, s, p);
      var now :=
        if q == p && s.Create? && s.c.Check? then Approves(w, p, s.c.unmodified)
        else if q == p && (s.Prepare? || s.BeginRemove? || s.BeginGc?) then false
        else before;
      SawRun(names, Do(names, w, q, s), run[1..], v, p, now);
    }
  }

  /** A row is added only by a create whose last check, made since it installed, found
      its plan file as it was prepared, in the store and linked from elsewhere. */
  lemma AddsChecked(names: Key -> Name, links: map<Ino, nat>, run: seq<(Pid, Step)>, v: World, p: Pid)
    requires Runs(names, Opened(links), run, v) && Can(names, v, p, Create(AddRow))
    ensures Saw(names, Opened(links), run, p, false)
  {
    hide Runs, Saw;
    SawRun(names, Opened(links), run, v, p, false);
  }

  // ----- what a create knows and claims -------------------------------------------------

  predicate Creating(q: Proc) {
    q.Read? || q.Shared? || q.Installing? || q.Installed? || q.Linked? || q.Checked? || q.RowRead? || q.Registered?
  }

  /** A create starts on a plan file that the store has, or that nobody else links to,
      and it knows of the file what was true then. */
  lemma Recorded(names: Key -> Name, w: World, p: Pid, i: Ino, plan: Plan)
    ensures Can(names, w, p, Prepare(i, plan)) <==> p !in w.procs && (i in w.files || Links(w, i) == 1)
    ensures Can(names, w, p, Prepare(i, plan)) ==>
      var v := Do(names, w, p, Prepare(i, plan));
      p in v.procs && Creating(v.procs[p]) &&
      var r := v.procs[p].r; r.ino == i && r.plan == plan && (r.already <==> i in w.files) && r.links == Links(w, i)
  {
    hide Links;
  }

  /** What a create knows stays as it is. */
  lemma RequestFixed(names: Key -> Name, w: World, q: Pid, s: Step, p: Pid)
    requires Can(names, w, q, s)
    ensures var v := Do(names, w, q, s);
      p in v.procs && Creating(v.procs[p]) && !(q == p && s.Prepare?) ==>
        p in w.procs && Creating(w.procs[p]) && v.procs[p].r == w.procs[p].r
  {
    hide Links, CanCreate, CanGc, DoCreate, DoGc;
    if q != p {
      OthersStay(names, w, q, s, p);
    } else if s.Create? {
      CreateFixed(names, w, p, w.procs[p], s.c);
    } else if s.Gc? {
      GcMoves(names, w, p, w.procs[p], s.g);
    }
  }

  lemma CreateFixed(names: Key -> Name, w: World, p: Pid, q: Proc, c: CreateStep)
    requires CanCreate(names, w, q, c)
    ensures var v := DoCreate(names, w, p, q, c);
      p in v.procs && Creating(v.procs[p]) && Creating(q) && v.procs[p].r == q.r
  {
    hide NoneExclusive, InstallFree, FetchFree, Links, Published;
  }

  /** Reading the row and then writing it binds no request to another plan. */
  lemma NoRebinding(names: Key -> Name, w: World, p: Pid, i: Ino)
    requires Can(names, w, p, Create(ReadRow)) && i in w.rows
    ensures var v := Do(names, w, p, Create(ReadRow));
      && Can(names, v, p, Create(AddRow))
      && var u := Do(names, v, p, Create(AddRow)); i in u.rows && u.rows[i] == w.rows[i]
  {
    hide Links;
  }

  /** No two processes fetch downloads of one name. */
  ghost predicate OneFetcher(names: Key -> Name, w: World) {
    forall p, q, n :: p in w.procs && q in w.procs && p != q && Fetching(names, w.procs[p], n) ==>
      !Fetching(names, w.procs[q], n)
  }

  lemma FetchStarts(names: Key -> Name, w: World, p: Pid, s: Step, n: Name)
    requires Can(names, w, p, s)
    ensures var v := Do(names, w, p, s);
      p in v.procs && Fetching(names, v.procs[p], n) ==>
        (p in w.procs && Fetching(names, w.procs[p], n)) || FetchFree(names, w, n)
  {
    hide Links, CanGc, DoGc, FetchFree, NoneExclusive, NoneLocked, InstallFree, Published, Fetched;
    if s.Gc? {
      GcMoves(names, w, p, w.procs[p], s.g);
    }
  }

  lemma FetcherStep(names: Key -> Name, w: World, p: Pid, s: Step)
    requires OneFetcher(names, w) && Can(names, w, p, s)
    ensures OneFetcher(names, Do(names, w, p, s))
  {
    hide Can, Do, Fetching;
    var v := Do(names, w, p, s);
    forall q, o, n | q in v.procs && o in v.procs && q != o && Fetching(names, v.procs[q], n)
      ensures !Fetching(names, v.procs[o], n)
    {
      FetchStarts(names, w, p, s, n);
      if q != p { OthersStay(names, w, p, s, q); }
      if o != p { OthersStay(names, w, p, s, o); }
    }
  }

  /** Whatever runs, each download is fetched by one process at a time. */
  lemma {:induction false} FetchedOnce(names: Key -> Name, w: World, run: seq<(Pid, Step)>, v: World)
    requires OneFetcher(names, w) && Runs(names, w, run, v)
    ensures OneFetcher(names, v)
    decreases |run|
  {
    hide OneFetcher, Can, Do;
    if run != [] {
      FetcherStep(names, w, run[0].0, run[0].1);
      FetchedOnce(names, Do(names, w, run[0].0, run[0].1), run[1..], v);
    }
  }
}
