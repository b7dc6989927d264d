/** Concurrent create, remove and gc processes over one store (store.rs, db.rs):
    every step is one system call or one database transaction, any process may
    die between two steps, and a dead process holds no lock. */
module StoreProtocol {
  import opened Wrappers
  import opened IntentDb

  type Pid = nat
  type Temp = nat

  datatype Plan = Plan(key: Key, downloads: set<Key>)

  /** What a create knows about its plan file since it first read it. */
  datatype Request = Request(ino: Ino, plan: Plan, already: bool, links: nat)

  /** Where a process stands. The lock files it holds follow from that. */
  datatype Proc =
    | Read(r: Request)
    | Shared(r: Request)
    | Installing(r: Request, temporary: Option<Temp>, fetching: set<Key>, fetched: set<Key>)
    | Installed(r: Request)
    | Linked(r: Request)
    | Checked(r: Request)
    | RowRead(r: Request)
    | Registered(r: Request)
    | Removing(ino: Ino)
    | Unlinking(ino: Ino)
    | GcRows(known: set<Ino>, todo: set<Ino>)
    | GcFiles(known: set<Ino>, todo: set<Ino>, kept: map<Ino, nat>, doomed: Option<Ino>)
    | GcInstalls(kept: map<Ino, nat>, live: set<Name>)
    | GcDownloads(kept: map<Ino, nat>, live: set<Name>)
    | GcTemps(kept: map<Ino, nat>)
    | GcDone(kept: map<Ino, nat>)

  /** What a directory tree still holds: all that was published, some of it, or not
      even its root. */
  datatype Content = Whole | Partial | Gone

  /** An object directory: its key file and its root or data. A deletion goes entry
      by entry, in any order, and may be cut short anywhere. */
  datatype Object = Object(key: Option<Key>, content: Content)

  type Objects = map<Name, Object>

  datatype World = World(
    rows: map<Ino, Key>, relations: set<(Key, Key)>,
    files: set<Ino>, links: map<Ino, nat>,
    installs: Objects, downloads: Objects, temps: set<Temp>,
    procs: map<Pid, Proc>)

  // ----- locks ----------------------------------------------------------------

  predicate Exclusive(p: Proc) {
    p.GcRows? || p.GcFiles? || p.GcInstalls? || p.GcDownloads? || p.GcTemps? || p.GcDone?
  }

  /** Holds the gc lock, shared or not. */
  predicate Locked(p: Proc) {
    !p.Read?
  }

  predicate Working(p: Proc) {
    p.Installing? || p.Installed? || p.Linked? || p.Checked? || p.RowRead? || p.Registered?
  }

  predicate HoldsInstall(names: Key -> Name, p: Proc, n: Name) {
    Working(p) && names(p.r.plan.key) == n
  }

  predicate Fetching(names: Key -> Name, p: Proc, n: Name) {
    p.Installing? && exists k :: k in p.fetching && names(k) == n
  }

  /** What a create checks of an installation it finds: its key, and that there is a
      root directory. It does not look inside. */
  predicate Published(names: Key -> Name, objects: Objects, k: Key) {
    names(k) in objects && objects[names(k)].key == Some(k) && !objects[names(k)].content.Gone?
  }

  /** A download is a single file, so it is there or it is not. */
  predicate Fetched(names: Key -> Name, objects: Objects, k: Key) {
    names(k) in objects && objects[names(k)] == Object(Some(k), Whole)
  }

  /** What one more deleted entry may leave of an object. */
  predicate Left(o: Object, rest: Object) {
    && (rest.key == o.key || rest.key.None?)
    && (rest.content == o.content || rest.content.Gone? || (rest.content.Partial? && o.content.Whole?))
  }

  function Links(w: World, i: Ino): nat {
    if i in w.links then w.links[i] else 0
  }

  function Min1(n: nat): nat { if n == 0 then 0 else n - 1 }

  /** Plan keys some request still needs. */
  function LiveKeys(w: World): set<Key> {
    LivePlans(w.rows)
  }

  predicate ReachableInstall(names: Key -> Name, w: World, n: Name) {
    exists k :: k in LiveKeys(w) && names(k) == n
  }

  predicate ReachableDownload(names: Key -> Name, w: World, n: Name) {
    exists e :: e in w.relations && e.0 in LiveKeys(w) && names(e.1) == n
  }

  function LiveInstallNames(names: Key -> Name, w: World): set<Name> {
    set k | k in LiveKeys(w) :: names(k)
  }

  function LiveDownloadNames(names: Key -> Name, w: World): set<Name> {
    set k | k in LiveDownloads(w.rows, w.relations) :: names(k)
  }

  // ----- steps ----------------------------------------------------------------

  /** What a create does once its plan was read. */
  datatype CreateStep =
    | LockGc
    | LockInstall
    | MakeTemp(t: Temp)
    | BeginFetch(k: Key)
    | EndFetch(k: Key)
    | Publish
    | Link
    | Check(unmodified: bool)
    | ReadRow
    | AddRow

  datatype RemoveStep = RemoveRow | RemoveFile

  datatype GcStep =
    | ScanRow(i: Ino)
    | ListFiles
    | ScanFile(i: Ino)
    | UnlinkFile
    | DropRelations
    | SweepInstall(n: Name, left: Option<Object>)
    | NextDownloads
    | SweepDownload(n: Name, left: Option<Object>)
    | NextTemps
    | SweepTemp(t: Temp)
    | EndGc

  /** A process starts, goes on, or leaves (done, failed or dead); and anybody
      may change how many links a file has. */
  datatype Step =
    | Prepare(ino: Ino, plan: Plan)
    | BeginRemove(ino: Ino)
    | BeginGc
    | Create(c: CreateStep)
    | Remove(r: RemoveStep)
    | Gc(g: GcStep)
    | Leave
    | Relink(ino: Ino, count: nat)

  function At(w: World, p: Pid, s: Proc): World {
    w.(procs := w.procs[p := s])
  }

  predicate NoneLocked(w: World) {
    forall q :: q in w.procs ==> !Locked(w.procs[q])
  }

  predicate NoneExclusive(w: World) {
    forall q :: q in w.procs ==> !Exclusive(w.procs[q])
  }

  predicate InstallFree(names: Key -> Name, w: World, n: Name) {
    forall q :: q in w.procs ==> !HoldsInstall(names, w.procs[q], n)
  }

  predicate FetchFree(names: Key -> Name, w: World, n: Name) {
    forall q :: q in w.procs ==> !Fetching(names, w.procs[q], n)
  }

  /** When a process can go on; everything else it might try fails, and a process
      that fails leaves. */
  predicate CanCreate(names: Key -> Name, w: World, q: Proc, c: CreateStep) {
    match c
    case LockGc => q.Read? && NoneExclusive(w)
    case LockInstall =>
      && q.Shared? && InstallFree(names, w, names(q.r.plan.key))
      && (names(q.r.plan.key) in w.installs ==> Published(names, w.installs, q.r.plan.key))
    case MakeTemp(t) => q.Installing? && q.temporary.None? && t !in w.temps
    case BeginFetch(k) => q.Installing? && k in q.r.plan.downloads && FetchFree(names, w, names(k))
    case EndFetch(k) =>
      q.Installing? && k in q.fetching && (names(k) in w.downloads ==> Fetched(names, w.downloads, k))
    case Publish => q.Installing? && q.temporary.Some? && q.r.plan.downloads <= q.fetched
    case Link => q.Installed?
    case Check(unmodified) =>
      && q.Linked? && unmodified && q.r.ino in w.files
      && Links(w, q.r.ino) >= (if q.r.already && q.r.links > 2 then q.r.links else 2)
    case ReadRow => q.Checked? && (q.r.ino in w.rows ==> w.rows[q.r.ino] == q.r.plan.key)
    case AddRow => q.RowRead?
  }

  predicate CanRemove(q: Proc, r: RemoveStep) {
    match r
    case RemoveRow => q.Removing?
    case RemoveFile => q.Unlinking?
  }

  predicate CanGc(w: World, q: Proc, g: GcStep) {
    match g
    case ScanRow(i) => q.GcRows? && i in q.todo
    case ListFiles => q.GcRows? && q.todo == {}
    case ScanFile(i) => q.GcFiles? && i in q.todo && q.doomed.None?
    case UnlinkFile => q.GcFiles? && q.doomed.Some?
    case DropRelations => q.GcFiles? && q.todo == {} && q.doomed.None?
    case SweepInstall(n, left) =>
      q.GcInstalls? && n in w.installs && n !in q.live && (left.Some? ==> Left(w.installs[n], left.value))
    case NextDownloads => q.GcInstalls? && w.installs.Keys <= q.live
    case SweepDownload(n, left) =>
      && q.GcDownloads? && n in w.downloads && n !in q.live
      && (left.Some? ==> Left(w.downloads[n], left.value) && !left.value.content.Partial?)
    case NextTemps => q.GcDownloads? && w.downloads.Keys <= q.live
    case SweepTemp(t) => q.GcTemps? && t in w.temps
    case EndGc => q.GcTemps? && w.temps == {}
  }

  predicate Can(names: Key -> Name, w: World, p: Pid, s: Step) {
    match s
    case Prepare(i, _) => p !in w.procs && (i in w.files || Links(w, i) == 1)
    case BeginRemove(_) => p !in w.procs && NoneExclusive(w)
    case BeginGc => p !in w.procs && NoneLocked(w)
    case Create(c) => p in w.procs && CanCreate(names, w, w.procs[p], c)
    case Remove(r) => p in w.procs && CanRemove(w.procs[p], r)
    case Gc(g) => p in w.procs && CanGc(w, w.procs[p], g)
    case Leave => p in w.procs
    case Relink(i, count) => i in w.files ==> count >= 1
  }

  /** Deletes an entry of an object directory, or the last of it. */
  function Swept(o: Objects, n: Name, left: Option<Object>): Objects {
    if left.Some? then o[n := left.value] else o - {n}
  }

  function Unlinked(w: World, i: Ino): World {
    if i in w.files then w.(files := w.files - {i}, links := w.links[i := Min1(Links(w, i))]) else w
  }

  function DoCreate(names: Key -> Name, w: World, p: Pid, q: Proc, c: CreateStep): World
    requires CanCreate(names, w, q, c)
  {
    match c
    case LockGc => At(w, p, Shared(q.r))
    case LockInstall =>
      At(w, p, if names(q.r.plan.key) in w.installs then Installed(q.r) else Installing(q.r, None, {}, {}))
    case MakeTemp(t) => At(w, p, Installing(q.r, Some(t), q.fetching, q.fetched)).(temps := w.temps + {t})
    case BeginFetch(k) => At(w, p, Installing(q.r, q.temporary, q.fetching + {k}, q.fetched))
    case EndFetch(k) =>
      At(w, p, Installing(q.r, q.temporary, q.fetching - {k}, q.fetched + {k})).(
        downloads := if names(k) in w.downloads then w.downloads else w.downloads[names(k) := Object(Some(k), Whole)])
    case Publish =>
      At(w, p, Installed(q.r)).(
        installs := w.installs[names(q.r.plan.key) := Object(Some(q.r.plan.key), Whole)],
          temps := w.temps - {q.temporary.value})
    case Link =>
      if q.r.already || q.r.ino in w.files then At(w, p, Linked(q.r))
      else At(w, p, Linked(q.r)).(files := w.files + {q.r.ino}, links := w.links[q.r.ino := Links(w, q.r.ino) + 1])
    case Check(_) => At(w, p, Checked(q.r))
    case ReadRow => At(w, p, RowRead(q.r))
    case AddRow =>
      At(w, p, Registered(q.r)).(
        rows := w.rows[q.r.ino := q.r.plan.key],
        relations := w.relations + set d | d in q.r.plan.downloads :: (q.r.plan.key, d))
  }

  function DoRemove(w: World, p: Pid, q: Proc, r: RemoveStep): World
    requires CanRemove(q, r)
  {
    match r
    case RemoveRow => At(w, p, Unlinking(q.ino)).(rows := w.rows - {q.ino})
    case RemoveFile => Unlinked(w, q.ino).(procs := w.procs - {p})
  }

  function DoGc(names: Key -> Name, w: World, p: Pid, q: Proc, g: GcStep): World
    requires CanGc(w, q, g)
  {
    match g
    case ScanRow(i) => At(w, p, GcRows(q.known, q.todo - {i})).(rows := if i in w.files then w.rows else w.rows - {i})
    case ListFiles => At(w, p, GcFiles(q.known, w.files, map[], None))
    case ScanFile(i) =>
      if Links(w, i) == 1 || i !in q.known then
        At(w, p, GcFiles(q.known, q.todo - {i}, q.kept, Some(i)))
          .(rows := if i in q.known then w.rows - {i} else w.rows)
      else At(w, p, GcFiles(q.known, q.todo - {i}, q.kept[i := Links(w, i)], None))
    case UnlinkFile => At(Unlinked(w, q.doomed.value), p, GcFiles(q.known, q.todo, q.kept, None))
    case DropRelations =>
      At(w, p, GcInstalls(q.kept, LiveInstallNames(names, w))).(
        relations := Referenced(w.rows, w.relations))
    case SweepInstall(n, left) => w.(installs := Swept(w.installs, n, left))
    case NextDownloads => At(w, p, GcDownloads(q.kept, LiveDownloadNames(names, w)))
    case SweepDownload(n, left) => w.(downloads := Swept(w.downloads, n, left))
    case NextTemps => At(w, p, GcTemps(q.kept))
    case SweepTemp(t) => w.(temps := w.temps - {t})
    case EndGc => At(w, p, GcDone(q.kept))
  }

  function Do(names: Key -> Name, w: World, p: Pid, s: Step): World
    requires Can(names, w, p, s)
  {
    match s
    case Prepare(i, plan) => At(w, p, Read(Request(i, plan, i in w.files, Links(w, i))))
    case BeginRemove(i) => At(w, p, Removing(i))
    case BeginGc => At(w, p, GcRows(w.rows.Keys, w.rows.Keys))
    case Create(c) => DoCreate(names, w, p, w.procs[p], c)
    case Remove(r) => DoRemove(w, p, w.procs[p], r)
    case Gc(g) => DoGc(names, w, p, w.procs[p], g)
    case Leave => w.(procs := w.procs - {p})
    case Relink(i, count) => w.(links := w.links[i := count])
  }

  // ----- the invariant ----------------------------------------------------------

  /** Every request row's plan key has a published installation. */
  predicate RowsPublished(names: Key -> Name, w: World) {
    forall i :: i in w.rows ==> Published(names, w.installs, w.rows[i])
  }

  predicate Excluded(w: World) {
    forall p, q :: p in w.procs && q in w.procs && p != q && Exclusive(w.procs[p]) ==> !Locked(w.procs[q])
  }

  predicate OneInstaller(names: Key -> Name, w: World) {
    forall p, q :: p in w.procs && q in w.procs && p != q && Working(w.procs[p]) && Working(w.procs[q]) ==>
      names(w.procs[p].r.plan.key) != names(w.procs[q].r.plan.key)
  }

  predicate ProcOk(names: Key -> Name, w: World, q: Proc) {
    match q
    case Read(_) => true
    case Shared(_) => true
    case Installing(r, temporary, _, fetched) =>
      && names(r.plan.key) !in w.installs
      && (temporary.Some? ==> temporary.value in w.temps)
      && (forall k :: k in fetched ==> Fetched(names, w.downloads, k))
    case Installed(r) => Published(names, w.installs, r.plan.key)
    case Linked(r) => Published(names, w.installs, r.plan.key)
    case Checked(r) => Published(names, w.installs, r.plan.key)
    case RowRead(r) => Published(names, w.installs, r.plan.key)
    case Registered(r) => Published(names, w.installs, r.plan.key)
    case Removing(_) => true
    case Unlinking(_) => true
    case GcRows(known, todo) =>
      w.rows.Keys <= known && todo <= known && (forall i :: i in known && i !in w.rows ==> i !in w.files)
      && (forall i :: i in w.rows ==> i in todo || i in w.files)
    case GcFiles(known, todo, kept, doomed) => Scanned(w.rows.Keys, w.files, known, todo, kept, doomed)
    case GcInstalls(kept, live) => Settled(w, kept) && live == LiveInstallNames(names, w)
    case GcDownloads(kept, live) =>
      Settled(w, kept) && live == LiveDownloadNames(names, w) && w.installs.Keys <= LiveInstallNames(names, w)
    case GcTemps(kept) => Settled(w, kept) && Cleared(names, w)
    case GcDone(kept) => Settled(w, kept) && Cleared(names, w) && w.temps == {}
  }

  /** The scan of the request files: rows have files, files that were looked at
      are kept or about to be unlinked. */
  predicate Scanned(rows: set<Ino>, files: set<Ino>, known: set<Ino>, todo: set<Ino>, kept: map<Ino, nat>,
                    doomed: Option<Ino>) {
    && rows <= known && rows <= files && todo <= files && todo !! kept.Keys
    && (forall i :: i in known && i in files && i !in rows ==> doomed == Some(i))
    && (doomed.Some? ==>
          doomed.value in files && doomed.value !in rows && doomed.value !in todo && doomed.value !in kept)
    && (forall i :: i in files ==> i in todo || i in kept || doomed == Some(i))
    && (forall i :: i in kept ==> i in rows && kept[i] >= 2)
  }

  /** Rows and request files are the same set, every file had two links when it was
      looked at, and only plans of rows have relations. */
  predicate Settled(w: World, kept: map<Ino, nat>) {
    && w.rows.Keys == w.files == kept.Keys && (forall i :: i in kept ==> kept[i] >= 2)
    && w.relations == Referenced(w.rows, w.relations)
  }

  /** Whatever object is left is needed by some row. */
  predicate Cleared(names: Key -> Name, w: World) {
    w.installs.Keys <= LiveInstallNames(names, w) && w.downloads.Keys <= LiveDownloadNames(names, w)
  }

  predicate ProcsOk(names: Key -> Name, w: World) {
    forall p :: p in w.procs ==> ProcOk(names, w, w.procs[p])
  }

  predicate FilesLinked(w: World) {
    forall i :: i in w.files ==> Links(w, i) >= 1
  }

  predicate Owns(p: Proc) {
    p.Installing? && p.temporary.Some?
  }

  /** A temporary directory belongs to one process at most. */
  predicate OwnTemps(w: World) {
    forall p, q :: p in w.procs && q in w.procs && p != q && Owns(w.procs[p]) && Owns(w.procs[q]) ==>
      w.procs[p].temporary != w.procs[q].temporary
  }

  predicate Inv(names: Key -> Name, w: World) {
    RowsPublished(names, w) && Excluded(w) && OneInstaller(names, w) && ProcsOk(names, w) && FilesLinked(w)
      && OwnTemps(w)
  }

  // ----- preservation -----------------------------------------------------------

  /** Only process `p` has moved. */
  predicate OnlyProc(w: World, p: Pid, v: World) {
    && (forall q :: q in v.procs && q != p ==> q in w.procs && v.procs[q] == w.procs[q])
    && (forall q :: q in w.procs && q != p ==> q in v.procs)
  }

  /** The part of a process's state that other processes depend on. */
  predicate SameRole(names: Key -> Name, q: Proc, q': Proc) {
    && (Locked(q') ==> Locked(q)) && (Exclusive(q') ==> Exclusive(q))
    && (Working(q') ==> Working(q) && q.r == q'.r)
    && (Owns(q') ==> Owns(q) && q.temporary == q'.temporary)
  }

  lemma CreateMoves(names: Key -> Name, w: World, p: Pid, q: Proc, c: CreateStep)
    requires p in w.procs && w.procs[p] == q && CanCreate(names, w, q, c)
    ensures var v := DoCreate(names, w, p, q, c);
      && OnlyProc(w, p, v) && p in v.procs
      && (SameRole(names, q, v.procs[p]) || c.LockGc? || c.LockInstall? || c.MakeTemp?)
  {
    hide NoneExclusive, InstallFree, FetchFree, Links;
  }

  lemma GcMoves(names: Key -> Name, w: World, p: Pid, q: Proc, g: GcStep)
    requires p in w.procs && w.procs[p] == q && CanGc(w, q, g)
    ensures var v := DoGc(names, w, p, q, g);
      v.procs == w.procs[p := v.procs[p]] && Exclusive(q) && Exclusive(v.procs[p])
  {
    hide LiveInstallNames, LiveDownloadNames, Links, Swept;
  }

  predicate Roles(names: Key -> Name, w: World) {
    Excluded(w) && OneInstaller(names, w) && OwnTemps(w)
  }

  lemma SameRolesKept(names: Key -> Name, w: World, p: Pid, v: World)
    requires Roles(names, w) && OnlyProc(w, p, v)
    requires p in v.procs ==> p in w.procs && SameRole(names, w.procs[p], v.procs[p])
    ensures Roles(names, v)
  {
  }

  lemma StartedRoles(names: Key -> Name, w: World, p: Pid, v: World)
    requires Roles(names, w) && OnlyProc(w, p, v) && p !in w.procs && p in v.procs
    requires !Working(v.procs[p])
    requires Locked(v.procs[p]) ==> NoneExclusive(w)
    requires Exclusive(v.procs[p]) ==> NoneLocked(w)
    ensures Roles(names, v)
  {
  }

  lemma CreateRoles(names: Key -> Name, w: World, p: Pid, q: Proc, c: CreateStep)
    requires Roles(names, w) && ProcsOk(names, w) && p in w.procs && w.procs[p] == q && CanCreate(names, w, q, c)
    ensures Roles(names, DoCreate(names, w, p, q, c))
  {
    hide CanCreate, DoCreate, Roles, Excluded, OneInstaller, OwnTemps;
    CreateMoves(names, w, p, q, c);
    if c.LockGc? || c.LockInstall? || c.MakeTemp? {
      LockRoles(names, w, p, q, c);
    } else {
      SameRolesKept(names, w, p, DoCreate(names, w, p, q, c));
    }
  }

  lemma LockRoles(names: Key -> Name, w: World, p: Pid, q: Proc, c: CreateStep)
    requires Roles(names, w) && ProcsOk(names, w) && p in w.procs && w.procs[p] == q && CanCreate(names, w, q, c)
    requires c.LockGc? || c.LockInstall? || c.MakeTemp?
    ensures Roles(names, DoCreate(names, w, p, q, c))
  {
    hide Excluded, OneInstaller, OwnTemps, ProcsOk, CanCreate;
    if c.MakeTemp? {
      MakeTempRoles(names, w, p, q, c.t);
    } else if c.LockInstall? {
      LockInstallRoles(names, w, p, q);
    } else {
      LockGcRoles(names, w, p, q);
    }
  }

  lemma MakeTempRoles(names: Key -> Name, w: World, p: Pid, q: Proc, t: Temp)
    requires Roles(names, w) && ProcsOk(names, w) && p in w.procs && w.procs[p] == q
    requires CanCreate(names, w, q, MakeTemp(t))
    ensures Roles(names, DoCreate(names, w, p, q, MakeTemp(t)))
  {
    forall o | o in w.procs && o != p && Owns(w.procs[o])
      ensures w.procs[o].temporary != Some(t)
    {
      assert ProcOk(names, w, w.procs[o]);
    }
  }

  lemma LockInstallRoles(names: Key -> Name, w: World, p: Pid, q: Proc)
    requires Roles(names, w) && p in w.procs && w.procs[p] == q && CanCreate(names, w, q, LockInstall)
    ensures Roles(names, DoCreate(names, w, p, q, LockInstall))
  {
    forall o | o in w.procs && Working(w.procs[o])
      ensures names(w.procs[o].r.plan.key) != names(q.r.plan.key)
    {
      assert !HoldsInstall(names, w.procs[o], names(q.r.plan.key));
    }
  }

  lemma LockGcRoles(names: Key -> Name, w: World, p: Pid, q: Proc)
    requires Roles(names, w) && p in w.procs && w.procs[p] == q && CanCreate(names, w, q, LockGc)
    ensures Roles(names, DoCreate(names, w, p, q, LockGc))
  {
  }

  // ----- rows -------------------------------------------------------------------

  lemma CreateRows(names: Key -> Name, w: World, p: Pid, q: Proc, c: CreateStep)
    requires RowsPublished(names, w) && ProcOk(names, w, q) && CanCreate(names, w, q, c)
    ensures RowsPublished(names, DoCreate(names, w, p, q, c))
  {
    hide InstallFree, FetchFree, NoneExclusive, Links;
    if c.Publish? {
      forall i | i in w.rows
        ensures names(w.rows[i]) != names(q.r.plan.key)
      {
        assert Published(names, w.installs, w.rows[i]);
      }
    }
  }

  lemma GcRowsPublished(names: Key -> Name, w: World, p: Pid, q: Proc, g: GcStep)
    requires RowsPublished(names, w) && ProcOk(names, w, q) && CanGc(w, q, g)
    ensures RowsPublished(names, DoGc(names, w, p, q, g))
  {
    hide Links, LiveDownloadNames, Settled;
    var v := DoGc(names, w, p, q, g);
    forall i | i in v.rows
      ensures Published(names, v.installs, v.rows[i])
    {
      assert i in w.rows && v.rows[i] == w.rows[i];
      assert Published(names, w.installs, w.rows[i]);
      assert w.rows[i] in LiveKeys(w);
    }
  }

  // ----- processes ----------------------------------------------------------------

  /** What `ProcOk` reads besides the process itself. */
  predicate SameStore(w: World, v: World) {
    w.rows == v.rows && w.relations == v.relations && w.files == v.files
    && w.installs == v.installs && w.downloads == v.downloads && w.temps == v.temps
  }

  lemma SameStoreOk(names: Key -> Name, w: World, v: World, q: Proc)
    requires SameStore(w, v) && ProcOk(names, w, q)
    ensures ProcOk(names, v, q)
  {
  }

  lemma SameStoreProcs(names: Key -> Name, w: World, p: Pid, v: World)
    requires SameStore(w, v) && OnlyProc(w, p, v) && ProcsOk(names, w)
    requires (p in v.procs ==> ProcOk(names, w, v.procs[p]))
    ensures ProcsOk(names, v)
  {
    hide ProcOk, SameStore;
    forall o | o in v.procs
      ensures ProcOk(names, v, v.procs[o])
    {
      SameStoreOk(names, w, v, v.procs[o]);
    }
  }

  lemma CreateSelf(names: Key -> Name, w: World, p: Pid, q: Proc, c: CreateStep)
    requires ProcOk(names, w, q) && p in w.procs && w.procs[p] == q && CanCreate(names, w, q, c)
    ensures var v := DoCreate(names, w, p, q, c); p in v.procs && ProcOk(names, v, v.procs[p])
  {
    hide InstallFree, FetchFree, NoneExclusive, Links;
  }

  /** Another process that does not hold the gc lock alone. */
  lemma CreateOther(names: Key -> Name, w: World, p: Pid, q: Proc, c: CreateStep, o: Proc)
    requires ProcOk(names, w, q) && CanCreate(names, w, q, c) && ProcOk(names, w, o) && !Exclusive(o)
    requires Working(q) && Working(o) ==> names(q.r.plan.key) != names(o.r.plan.key)
    requires Owns(q) && Owns(o) ==> q.temporary != o.temporary
    ensures ProcOk(names, DoCreate(names, w, p, q, c), o)
  {
    hide InstallFree, FetchFree, NoneExclusive, Links;
  }

  lemma CreateProcs(names: Key -> Name, w: World, p: Pid, q: Proc, c: CreateStep)
    requires Roles(names, w) && ProcsOk(names, w) && p in w.procs && w.procs[p] == q && CanCreate(names, w, q, c)
    ensures ProcsOk(names, DoCreate(names, w, p, q, c))
  {
    hide ProcOk, CanCreate, DoCreate;
    var v := DoCreate(names, w, p, q, c);
    CreateMoves(names, w, p, q, c);
    CreateSelf(names, w, p, q, c);
    CreateLocked(names, w, q, c);
    forall o | o in v.procs && o != p
      ensures ProcOk(names, v, v.procs[o])
    {
      CreateOther(names, w, p, q, c, w.procs[o]);
    }
  }

  lemma CreateLocked(names: Key -> Name, w: World, q: Proc, c: CreateStep)
    requires CanCreate(names, w, q, c)
    ensures (Locked(q) && !Exclusive(q)) || NoneExclusive(w)
  {
    hide InstallFree, FetchFree, NoneExclusive, Links;
  }

  lemma GcSelfRows(names: Key -> Name, w: World, p: Pid, q: Proc, g: GcStep)
    requires ProcOk(names, w, q) && CanGc(w, q, g) && q.GcRows?
    ensures var v := DoGc(names, w, p, q, g); p in v.procs && ProcOk(names, v, v.procs[p])
  {
    hide Settled, LiveInstallNames, LiveDownloadNames, Links;
    var v := DoGc(names, w, p, q, g);
    forall k | k in q.known && k in w.files
      ensures k in w.rows && k in v.rows
    {
    }
    forall k | k in v.rows
      ensures k in w.rows && (g.ListFiles? ==> k in w.files)
    {
    }
  }

  lemma GcSelfScan(names: Key -> Name, w: World, p: Pid, q: Proc, i: Ino)
    requires ProcOk(names, w, q) && FilesLinked(w) && CanGc(w, q, ScanFile(i))
    ensures var v := DoGc(names, w, p, q, ScanFile(i)); p in v.procs && ProcOk(names, v, v.procs[p])
  {
    hide Settled, LiveInstallNames, LiveDownloadNames, Scanned, Links;
    ScannedOne(w.rows.Keys, w.files, q.known, q.todo, q.kept, i, Links(w, i));
    assert i in q.known ==> (w.rows - {i}).Keys == w.rows.Keys - {i};
    assert i !in q.known ==> w.rows.Keys - {i} == w.rows.Keys;
  }

  lemma ScannedOne(rows: set<Ino>, files: set<Ino>, known: set<Ino>, todo: set<Ino>, kept: map<Ino, nat>, i: Ino,
                   links: nat)
    requires Scanned(rows, files, known, todo, kept, None) && i in todo
    ensures Scanned(rows - {i}, files, known, todo - {i}, kept, Some(i)) && (i !in known ==> i !in rows)
    ensures i in known && links >= 2 ==> Scanned(rows, files, known, todo - {i}, kept[i := links], None)
  {
  }

  lemma GcSelfUnlink(names: Key -> Name, w: World, p: Pid, q: Proc)
    requires ProcOk(names, w, q) && CanGc(w, q, UnlinkFile)
    ensures var v := DoGc(names, w, p, q, UnlinkFile); p in v.procs && ProcOk(names, v, v.procs[p])
  {
    hide Settled, LiveInstallNames, LiveDownloadNames, Links;
  }

  lemma GcSelfSweep(names: Key -> Name, w: World, p: Pid, q: Proc, g: GcStep)
    requires ProcOk(names, w, q) && p in w.procs && w.procs[p] == q && CanGc(w, q, g)
    requires !q.GcRows? && (q.GcFiles? ==> g.DropRelations?)
    ensures var v := DoGc(names, w, p, q, g); p in v.procs && ProcOk(names, v, v.procs[p])
  {
    hide Links;
    if g.DropRelations? {
      forall k | k in q.known && k in w.files
        ensures k in w.rows
      {
      }
    }
  }

  lemma GcSelf(names: Key -> Name, w: World, p: Pid, q: Proc, g: GcStep)
    requires ProcOk(names, w, q) && FilesLinked(w) && p in w.procs && w.procs[p] == q && CanGc(w, q, g)
    ensures var v := DoGc(names, w, p, q, g); p in v.procs && ProcOk(names, v, v.procs[p])
  {
    hide ProcOk, DoGc, FilesLinked;
    if q.GcRows? {
      GcSelfRows(names, w, p, q, g);
    } else if g.ScanFile? {
      GcSelfScan(names, w, p, q, g.i);
    } else if g.UnlinkFile? {
      GcSelfUnlink(names, w, p, q);
    } else {
      GcSelfSweep(names, w, p, q, g);
    }
  }

  lemma RemoveOther(names: Key -> Name, w: World, p: Pid, q: Proc, r: RemoveStep, o: Proc)
    requires CanRemove(q, r) && ProcOk(names, w, o) && !Exclusive(o)
    ensures ProcOk(names, DoRemove(w, p, q, r), o)
  {
  }

  // ----- every step, every run ----------------------------------------------------

  lemma CreateInv(names: Key -> Name, w: World, p: Pid, c: CreateStep)
    requires Inv(names, w) && p in w.procs && CanCreate(names, w, w.procs[p], c)
    ensures Inv(names, DoCreate(names, w, p, w.procs[p], c))
  {
    hide CanCreate, DoCreate, RowsPublished, ProcOk, Excluded, OneInstaller, OwnTemps, FilesLinked;
    var q := w.procs[p];
    assert ProcOk(names, w, q);
    CreateRoles(names, w, p, q, c);
    CreateRows(names, w, p, q, c);
    CreateProcs(names, w, p, q, c);
    CreateLinks(names, w, p, q, c);
  }

  lemma CreateLinks(names: Key -> Name, w: World, p: Pid, q: Proc, c: CreateStep)
    requires FilesLinked(w) && CanCreate(names, w, q, c)
    ensures FilesLinked(DoCreate(names, w, p, q, c))
  {
    hide NoneExclusive, InstallFree, FetchFree;
  }

  lemma RemoveInv(names: Key -> Name, w: World, p: Pid, r: RemoveStep)
    requires Inv(names, w) && p in w.procs && CanRemove(w.procs[p], r)
    ensures Inv(names, DoRemove(w, p, w.procs[p], r))
  {
    hide RowsPublished, ProcOk, Excluded, OneInstaller, OwnTemps, FilesLinked, Links;
    var q := w.procs[p];
    var v := DoRemove(w, p, q, r);
    SameRolesKept(names, w, p, v);
    RemoveStore(names, w, p, q, r);
    RemoveProcs(names, w, p, q, r);
  }

  lemma RemoveStore(names: Key -> Name, w: World, p: Pid, q: Proc, r: RemoveStep)
    requires RowsPublished(names, w) && FilesLinked(w) && CanRemove(q, r)
    ensures RowsPublished(names, DoRemove(w, p, q, r)) && FilesLinked(DoRemove(w, p, q, r))
  {
  }

  lemma RemoveProcs(names: Key -> Name, w: World, p: Pid, q: Proc, r: RemoveStep)
    requires ProcsOk(names, w) && Excluded(w) && p in w.procs && w.procs[p] == q && CanRemove(q, r)
    ensures ProcsOk(names, DoRemove(w, p, q, r))
  {
    hide ProcOk, Links;
    var v := DoRemove(w, p, q, r);
    forall o | o in v.procs && o != p
      ensures ProcOk(names, v, v.procs[o])
    {
      RemoveOther(names, w, p, q, r, w.procs[o]);
    }
    if p in v.procs {
      UnlinkingOk(names, v, v.procs[p]);
    }
  }

  lemma UnlinkingOk(names: Key -> Name, w: World, q: Proc)
    ensures q.Unlinking? || q.Read? || q.Removing? || q.Shared? ==> ProcOk(names, w, q)
  {
  }

  lemma GcInv(names: Key -> Name, w: World, p: Pid, g: GcStep)
    requires Inv(names, w) && p in w.procs && CanGc(w, w.procs[p], g)
    ensures Inv(names, DoGc(names, w, p, w.procs[p], g))
  {
    hide CanGc, DoGc, RowsPublished, ProcOk, FilesLinked, Owns, Working;
    var q := w.procs[p];
    var v := DoGc(names, w, p, q, g);
    assert ProcOk(names, w, q);
    GcMoves(names, w, p, q, g);
    ExclusiveRole(q);
    ExclusiveRole(v.procs[p]);
    GcRowsPublished(names, w, p, q, g);
    GcSelf(names, w, p, q, g);
    GcLinks(names, w, p, q, g);
    forall o | o in v.procs && o != p
      ensures ProcOk(names, v, v.procs[o])
    {
      assert !Locked(w.procs[o]);
      UnlinkingOk(names, v, w.procs[o]);
    }
  }

  lemma ExclusiveRole(q: Proc)
    requires Exclusive(q)
    ensures Locked(q) && !Working(q) && !Owns(q)
  {
  }

  lemma GcLinks(names: Key -> Name, w: World, p: Pid, q: Proc, g: GcStep)
    requires FilesLinked(w) && CanGc(w, q, g)
    ensures FilesLinked(DoGc(names, w, p, q, g))
  {
    hide LiveInstallNames, LiveDownloadNames, Swept;
  }

  /** Starting, leaving and link changes. */
  lemma OtherInv(names: Key -> Name, w: World, p: Pid, s: Step)
    requires Inv(names, w) && Can(names, w, p, s) && !s.Create? && !s.Remove? && !s.Gc?
    ensures Inv(names, Do(names, w, p, s))
  {
    hide ProcOk, Roles, Excluded, OneInstaller, OwnTemps;
    assert Roles(names, w) by { AreRoles(names, w); }
    var v := Do(names, w, p, s);
    if s.Leave? || s.Relink? {
      SameRolesKept(names, w, p, v);
    } else {
      StartedRoles(names, w, p, v);
      StartedOk(names, w, v.procs[p]);
    }
    AreRoles(names, v);
    SameStoreProcs(names, w, p, v);
  }

  lemma AreRoles(names: Key -> Name, w: World)
    ensures Roles(names, w) <==> Excluded(w) && OneInstaller(names, w) && OwnTemps(w)
  {
  }

  lemma StartedOk(names: Key -> Name, w: World, q: Proc)
    requires q.Read? || q.Removing? || q == GcRows(w.rows.Keys, w.rows.Keys)
    ensures ProcOk(names, w, q)
  {
  }

  lemma StepInv(names: Key -> Name, w: World, p: Pid, s: Step)
    requires Inv(names, w) && Can(names, w, p, s)
    ensures Inv(names, Do(names, w, p, s))
  {
    hide Inv, CanCreate, CanGc, CanRemove, DoCreate, DoRemove, DoGc;
    match s
    case Create(c) => CreateInv(names, w, p, c);
    case Remove(r) => RemoveInv(names, w, p, r);
    case Gc(g) => GcInv(names, w, p, g);
    case _ => OtherInv(names, w, p, s);
  }

  /** A store that was just opened: no rows, nothing published, nobody there. */
  function Opened(links: map<Ino, nat>): World {
    World(map[], {}, {}, links, map[], map[], {}, map[])
  }

  /** `v` is the state after the interleaving `run` of steps of any processes. */
  predicate Runs(names: Key -> Name, w: World, run: seq<(Pid, Step)>, v: World)
    decreases |run|
  {
    if run == [] then v == w
    else Can(names, w, run[0].0, run[0].1) && Runs(names, Do(names, w, run[0].0, run[0].1), run[1..], v)
  }

  lemma {:induction false} RunInv(names: Key -> Name, w: World, run: seq<(Pid, Step)>, v: World)
    requires Inv(names, w) && Runs(names, w, run, v)
    ensures Inv(names, v)
    decreases |run|
  {
    hide Inv, Can, Do;
    if run != [] {
      StepInv(names, w, run[0].0, run[0].1);
      RunInv(names, Do(names, w, run[0].0, run[0].1), run[1..], v);
    }
  }

  lemma Reached(names: Key -> Name, links: map<Ino, nat>, run: seq<(Pid, Step)>, v: World)
    requires Runs(names, Opened(links), run, v)
    ensures Inv(names, v)
  {
    hide Inv, Can, Do, Runs;
    assert Inv(names, Opened(links)) by { OpenedInv(names, links); }
    RunInv(names, Opened(links), run, v);
  }

  lemma OpenedInv(names: Key -> Name, links: map<Ino, nat>)
    ensures Inv(names, Opened(links))
  {
  }

  // ----- what every run guarantees --------------------------------------------------

  /** Whatever ran, and whatever died: a request row's plan key is installed. */
  lemma EveryRowPublished(names: Key -> Name, links: map<Ino, nat>, run: seq<(Pid, Step)>, v: World, i: Ino)
    requires Runs(names, Opened(links), run, v) && i in v.rows
    ensures Published(names, v.installs, v.rows[i])
  {
    hide Can, Do, Runs, Published;
    Reached(names, links, run, v);
  }

  /** A sweep touches no object that a row still needs, even where the hashes of
      two keys collide; and no process has a temporary directory then. */
  lemma SweepsOnlyGarbage(names: Key -> Name, links: map<Ino, nat>, run: seq<(Pid, Step)>, w: World, p: Pid, g: GcStep)
    requires Runs(names, Opened(links), run, w) && Can(names, w, p, Gc(g))
    ensures g.SweepInstall? ==> !ReachableInstall(names, w, g.n)
    ensures g.SweepDownload? ==> !ReachableDownload(names, w, g.n)
    ensures g.SweepTemp? ==> forall o :: o in w.procs ==> !Owns(w.procs[o])
  {
    hide Runs, Settled;
    Reached(names, links, run, w);
    assert ProcOk(names, w, w.procs[p]);
    forall o | o in w.procs
      ensures !Owns(w.procs[o])
    {
      assert Exclusive(w.procs[p]);
      assert o != p ==> !Locked(w.procs[o]);
    }
  }

  /** When a gc has completed, the rows and the request files are the same set,
      and each of those files had at least two links when it was looked at; every
      object that is left is needed by some row, and nothing temporary is left. */
  lemma GcSettles(names: Key -> Name, links: map<Ino, nat>, run: seq<(Pid, Step)>, w: World, p: Pid)
    requires Runs(names, Opened(links), run, w) && p in w.procs && w.procs[p].GcDone?
    ensures w.rows.Keys == w.files == w.procs[p].kept.Keys
    ensures forall i :: i in w.files ==> w.procs[p].kept[i] >= 2
    ensures forall n :: n in w.installs ==> exists i :: i in w.rows && names(w.rows[i]) == n
    ensures forall n :: n in w.downloads ==>
      exists i, k :: i in w.rows && (w.rows[i], k) in w.relations && names(k) == n
    ensures forall e :: e in w.relations ==> exists i :: i in w.rows && w.rows[i] == e.0
    ensures w.temps == {}
  {
    hide Runs;
    Reached(names, links, run, w);
    assert ProcOk(names, w, w.procs[p]);
  }

  /** A publication never replaces an object, and two processes never install
      under one name at a time. */
  lemma PublishesFresh(names: Key -> Name, links: map<Ino, nat>, run: seq<(Pid, Step)>, w: World, p: Pid)
    requires Runs(names, Opened(links), run, w) && Can(names, w, p, Create(Publish))
    ensures names(w.procs[p].r.plan.key) !in w.installs
    ensures forall d :: d in w.procs[p].r.plan.downloads ==> Fetched(names, w.downloads, d)
    ensures forall o :: o in w.procs && o != p && Working(w.procs[o]) ==>
      names(w.procs[o].r.plan.key) != names(w.procs[p].r.plan.key)
  {
    hide Runs;
    Reached(names, links, run, w);
    assert ProcOk(names, w, w.procs[p]);
  }
}
