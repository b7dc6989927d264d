/** The state of one create run (store.rs): what has happened, which effects are
    running, and what every reachable state satisfies. */
module CreateState {
  import opened Wrappers

  type Key = string
  type Path = string

  type Outcome<+T> = Wrappers.Result<T, string>

  datatype Item = Item(key: Key, name: string)

  datatype Plan = Plan(name: string, key: Key, items: seq<Item>)

  /** A plan file that was read, with the identity it had then. */
  datatype Prepared = Prepared(plan: Plan, identity: nat)

  datatype Lock = Lock(waited: bool)

  // ----- progress (progress.rs) -----------------------------------------------

  datatype Subject = InstallShared | Fetch

  datatype Phase = Waiting | Running | Completed | Failed

  datatype Status = Status(subject: Subject, key: Key, phase: Phase, tried: nat, bytes: Option<nat>)

  datatype ProgressEvent =
    | Waited(subject: Subject, key: Key)
    | Resumed(key: Key)
    | AttemptStarted(subject: Subject, key: Key, bytes: Option<nat>)
    | Progressed(key: Key, amount: nat)
    | Completion(key: Key, bytes: Option<nat>)
    | Failure(key: Key)
    | Cached(subject: Subject, key: Key, bytes: Option<nat>)
    | EmitFailed(message: string)

  datatype Progress = Progress(statuses: map<Key, Status>, failed: Option<string>)

  predicate Ended(s: Status) {
    s.phase.Completed? || s.phase.Failed?
  }

  function Emitted(p: Progress, s: Status): (Progress, Option<Status>) {
    (p.(statuses := p.statuses[s.key := s]), Some(s))
  }

  /** A status event for a key that never started is a failure; one for a key
      that ended is dropped. */
  function ReduceProgress(p: Progress, e: ProgressEvent): (Progress, Option<Status>) {
    match e
    case Waited(subject, key) =>
      if key in p.statuses && p.statuses[key].subject == subject then
        Emitted(p, p.statuses[key].(key := key, phase := Waiting))
      else Emitted(p, Status(subject, key, Waiting, 0, None))
    case AttemptStarted(subject, key, bytes) =>
      var tried := if key in p.statuses && p.statuses[key].subject == subject then p.statuses[key].tried + 1 else 1;
      Emitted(p, Status(subject, key, Running, tried, bytes))
    case Resumed(key) =>
      if key !in p.statuses then (p.(failed := Some("resumed before start")), None)
      else Emitted(p, p.statuses[key].(key := key, phase := Running))
    case Progressed(key, amount) =>
      if key !in p.statuses then (p.(failed := Some("progress before start")), None)
      else if Ended(p.statuses[key]) then (p, None)
      else Emitted(p, p.statuses[key].(key := key, phase := Running, bytes := Some(amount)))
    case Completion(key, bytes) =>
      if key !in p.statuses then (p.(failed := Some("finished before start")), None)
      else if Ended(p.statuses[key]) then (p, None)
      else Emitted(p, p.statuses[key].(key := key, phase := Completed,
        bytes := if bytes.Some? then bytes else p.statuses[key].bytes))
    case Failure(key) =>
      if key !in p.statuses then (p.(failed := Some("failed before start")), None)
      else if Ended(p.statuses[key]) then (p, None)
      else Emitted(p, p.statuses[key].(key := key, phase := Failed))
    case Cached(subject, key, bytes) =>
      Emitted(p, Status(subject, key, Completed, 0, bytes))
    case EmitFailed(message) =>
      (p.(failed := Some(message)), None)
  }

  datatype Pending = Local(event: ProgressEvent) | Observed(status: Status)

  // ----- effects and events ---------------------------------------------------

  datatype Effect =
    | Prepare(planFile: Path)
    | AcquireRequestLock(home: Path, submitted: Plan)
    | PersistRequest(home: Path, submitted: Plan)
    | AcquireInstall(prepared: Prepared)
    | Download(item: Item)
    | PrepareInstall(planKey: Key)
    | ExecuteItem(index: nat, item: Item, data: Path, temporary: Path)
    | PublishInstall(temporary: Path, root: Path)
    | Register(planFile: Path, prepared: Prepared, root: Path)
    | EmitProgress(target: Key, status: Status)
    | ForwardStatus(target: Key, status: Status)

  datatype Event =
    | Submitted(planFile: Path)
    | InstallSubmitted(home: Path, submitted: Plan)
    | RequestLockAcquired(home: Path, submitted: Plan)
    | RequestFilePrepared(written: Outcome<(Path, Prepared)>)
    | PlanPrepared(ready: Outcome<Prepared>)
    | InstallAcquired(prepared: Prepared, lock: Lock, cached: bool)
    | DownloadFinished(key: Key, fetched: Outcome<Path>)
    | InstallPrepared(temporary: Outcome<Path>)
    | ItemFinished(index: nat, executed: Outcome<()>)
    | Published(root: Outcome<Path>)
    | Registered(root: Outcome<Path>)
    | ProgressMade(target: Key, event: ProgressEvent)
    | StatusObserved(status: Status)
    | ProgressApplied(target: Key, events: seq<ProgressEvent>)
    | StatusForwarded(target: Key)
    | EffectFailed(error: string)

  /** How an effect can end. Any task may also die, which the run loop reports as
      a failed effect. */
  predicate Ends(e: Effect, v: Event) {
    v.EffectFailed? ||
    match e
    case Prepare(_) => v.PlanPrepared?
    case AcquireRequestLock(_, plan) => v.RequestLockAcquired? && v.submitted == plan
    case PersistRequest(_, _) => v.RequestFilePrepared?
    case AcquireInstall(p) => v.InstallAcquired? && v.prepared == p
    case Download(item) => v.DownloadFinished? && v.key == item.key
    case PrepareInstall(_) => v.InstallPrepared?
    case ExecuteItem(index, _, _, _) => v.ItemFinished? && v.index == index
    case PublishInstall(_, root) => v.Published? && (v.root.Ok? ==> v.root.value == root)
    case Register(_, _, root) => v.Registered? && (v.root.Ok? ==> v.root.value == root)
    case EmitProgress(target, _) => v.ProgressApplied? && v.target == target
    case ForwardStatus(target, _) => v.StatusForwarded? && v.target == target
  }

  predicate IsStatus(e: Effect) {
    e.EmitProgress? || e.ForwardStatus?
  }

  predicate IsStarting(e: Effect) {
    e.Prepare? || e.AcquireRequestLock? || e.PersistRequest? || e.AcquireInstall?
  }

  // ----- state ----------------------------------------------------------------

  datatype Tracker = Tracker(pending: set<Key>, completed: map<Key, Path>, failed: bool)

  /** What a create does that others can see, in the order it did it. */
  datatype Moment =
    | ItemStarted(index: nat)
    | ItemDone(index: nat)
    | PublishStarted
    | PublishDone
    | RegisterStarted
    | RegisterDone

  /** Ghost: which effect the run is waiting for, where that is a single one. */
  datatype Stage =
    | Starting(e: Effect)
    | Installing
    | Stopped
    | Publishing(e: Effect)
    | Registering(e: Effect)
    | Finished

  datatype State = State(
    planFile: Option<Path>, prepared: Option<Prepared>, lock: Option<Lock>, downloads: Tracker,
    temporary: Option<Path>, nextItem: nat, itemRunning: bool, publishing: bool,
    result: Option<Outcome<Path>>, busy: set<Key>, tasks: set<Effect>,
    cached: bool, stage: Stage, steps: seq<Moment>)

  function ItemMoments(n: nat): (m: seq<Moment>)
    ensures |m| == 2 * n
  {
    if n == 0 then [] else ItemMoments(n - 1) + [ItemStarted(n - 1), ItemDone(n - 1)]
  }

  /** The only order in which a plan of `n` items may be carried out. */
  function Schedule(n: nat, cached: bool): seq<Moment> {
    (if cached then [] else ItemMoments(n) + [PublishStarted, PublishDone]) + [RegisterStarted, RegisterDone]
  }

  function InstallRoot(names: Key -> string, key: Key): Path {
    "install/" + names(key) + "/root"
  }

  function Items(s: State): seq<Item>
    requires s.prepared.Some?
  {
    s.prepared.value.plan.items
  }

  predicate CanRun(s: State) {
    s.prepared.Some? && s.nextItem < |Items(s)| && Items(s)[s.nextItem].key in s.downloads.completed
      && s.temporary.Some?
  }

  /** The item effect that may be running. */
  function RunningItem(s: State): Effect
    requires CanRun(s)
  {
    var item := Items(s)[s.nextItem];
    ExecuteItem(s.nextItem, item, s.downloads.completed[item.key], s.temporary.value)
  }

  function StartedCount(s: State): nat {
    s.nextItem + if s.itemRunning then 1 else 0
  }

  /** Facts about the fields, stage by stage. */
  predicate Shaped(names: Key -> string, s: State) {
    && (s.stage.Starting? <==> s.prepared.None?) && (s.prepared.Some? <==> s.lock.Some?)
    && (s.prepared.Some? ==> s.planFile.Some?) && (s.cached ==> s.temporary.None?)
    && (s.publishing <==> !s.cached && (s.stage.Publishing? || s.stage.Registering? || s.stage.Finished?))
    && (s.result.Some? && s.result.value.Ok? ==>
          s.stage.Finished? && s.result.value.value == InstallRoot(names, s.prepared.value.plan.key))
    && match s.stage
       case Starting(e) =>
         IsStarting(e) && (e.AcquireInstall? || e.Prepare? ==> s.planFile.Some?) && s.temporary.None?
           && s.nextItem == 0 && !s.itemRunning && !s.cached
       case Installing =>
         && !s.cached && s.nextItem <= |Items(s)|
         && (s.temporary.None? ==> s.nextItem == 0 && !s.itemRunning)
         && (s.itemRunning ==> CanRun(s))
       case Stopped =>
         !s.cached && s.nextItem < |Items(s)| && !s.itemRunning && s.temporary.Some? && s.result.Some?
       case Publishing(e) =>
         && !s.cached && s.nextItem == |Items(s)| && !s.itemRunning && s.temporary.Some?
         && e == PublishInstall(s.temporary.value, InstallRoot(names, s.prepared.value.plan.key))
       case Registering(e) =>
         && !s.itemRunning && (!s.cached ==> s.nextItem == |Items(s)|)
         && e == Register(s.planFile.value, s.prepared.value, InstallRoot(names, s.prepared.value.plan.key))
       case Finished => !s.itemRunning && (!s.cached ==> s.nextItem == |Items(s)|)
  }

  /** Each download key has one effect, and while the tracker has not given up
      that key is pending. */
  predicate FetchedOnce(s: State) {
    && (forall e, f :: e in s.tasks && f in s.tasks && e.Download? && f.Download? && e.item.key == f.item.key ==>
          e == f)
    && (!s.downloads.failed ==> forall e :: e in s.tasks && e.Download? ==> e.item.key in s.downloads.pending)
  }

  /** Every download is pending, completed, or the tracker gave up; an item was
      started only after its own download. */
  predicate Fetched(s: State) {
    s.prepared.Some? && !s.cached ==>
      && (forall i :: 0 <= i < |Items(s)| ==>
            Items(s)[i].key in s.downloads.pending || Items(s)[i].key in s.downloads.completed || s.downloads.failed)
      && StartedCount(s) <= |Items(s)|
      && s.downloads.pending !! s.downloads.completed.Keys
      && (forall i :: 0 <= i < StartedCount(s) ==> Items(s)[i].key in s.downloads.completed)
  }

  function History(s: State): seq<Moment>
    requires s.prepared.Some? || s.stage.Starting?
  {
    match s.stage
    case Starting(_) => []
    case Installing => ItemMoments(s.nextItem) + if s.itemRunning then [ItemStarted(s.nextItem)] else []
    case Stopped => ItemMoments(s.nextItem) + [ItemStarted(s.nextItem)]
    case Publishing(_) => ItemMoments(|Items(s)|) + [PublishStarted]
    case Registering(_) =>
      (if s.cached then [] else ItemMoments(|Items(s)|) + [PublishStarted, PublishDone]) + [RegisterStarted]
    case Finished => Schedule(|Items(s)|, s.cached)
  }

  /** When an effect may be running. */
  predicate Fits(s: State, e: Effect) {
    match e
    case Download(item) => s.prepared.Some? && !s.cached && item in Items(s)
    case PrepareInstall(key) => s.stage.Installing? && s.prepared.Some? && s.temporary.None?
      && key == s.prepared.value.plan.key
    case ExecuteItem(_, _, _, _) => s.stage.Installing? && s.itemRunning && CanRun(s) && e == RunningItem(s)
    case PublishInstall(_, _) => s.stage == Publishing(e)
    case Register(_, _, _) => s.stage == Registering(e)
    case EmitProgress(_, _) => true
    case ForwardStatus(_, _) => true
    case _ => s.stage == Starting(e)
  }

  predicate Placed(s: State) {
    forall e :: e in s.tasks ==> Fits(s, e)
  }

  /** At most one status effect runs per target. */
  predicate Serial(s: State) {
    && (forall e :: e in s.tasks && IsStatus(e) ==> e.target in s.busy)
    && (forall e, f :: e in s.tasks && f in s.tasks && IsStatus(e) && IsStatus(f) && e.target == f.target ==> e == f)
  }

  predicate Downloading(s: State, key: Key) {
    exists e :: e in s.tasks && e.Download? && e.item.key == key
  }

  /** What keeps a run without a result going. */
  predicate Live(s: State) {
    && !s.downloads.failed
    && match s.stage
       case Starting(e) => e in s.tasks
       case Publishing(e) => e in s.tasks
       case Registering(e) => e in s.tasks
       case Finished => false
       case Stopped => false
       case Installing =>
         && s.prepared.Some?
         && (forall k :: k in s.downloads.pending ==> Downloading(s, k))
         && (s.temporary.None? ==> PrepareInstall(s.prepared.value.plan.key) in s.tasks)
         && (s.temporary.Some? && s.itemRunning ==> CanRun(s) && RunningItem(s) in s.tasks)
         && (s.temporary.Some? && !s.itemRunning ==>
               s.nextItem < |Items(s)| && Items(s)[s.nextItem].key !in s.downloads.completed)
  }

  /** Everything but progress: it survives the loss of any effect. */
  predicate Safe(names: Key -> string, s: State) {
    Shaped(names, s) && Fetched(s) && FetchedOnce(s) && s.steps == History(s) && Placed(s) && Serial(s)
  }

  predicate Inv(names: Key -> string, s: State) {
    Safe(names, s) && (s.result.None? ==> Live(s))
  }

  // ----- what the invariant means ----------------------------------------------

  /** No deadlock: when nothing is running any more, the result is known. */
  lemma NoDeadlock(names: Key -> string, s: State)
    requires Inv(names, s) && s.tasks == {}
    ensures s.result.Some?
  {
    assert s.result.None? && s.stage.Installing? && s.temporary.Some? && !s.itemRunning ==>
      Downloading(s, Items(s)[s.nextItem].key);
  }

  lemma {:induction false} MomentsPrefix(k: nat, n: nat)
    requires k <= n
    ensures ItemMoments(k) <= ItemMoments(n)
    ensures k < n ==> ItemMoments(k) + [ItemStarted(k)] <= ItemMoments(n)
  {
    if k < n {
      MomentsPrefix(k, n - 1);
      if k < n - 1 {
        assert ItemMoments(k) + [ItemStarted(k)] <= ItemMoments(n - 1);
      } else {
        assert ItemMoments(n) == ItemMoments(k) + [ItemStarted(k), ItemDone(k)];
        assert ItemMoments(k) + [ItemStarted(k)] == ItemMoments(n)[..2 * k + 1];
      }
    }
  }

  /** Whatever happens, what was done so far is the beginning of the schedule:
      items one at a time in plan order, then the publication, then the
      registration; each at most once. */
  lemma OnSchedule(names: Key -> string, s: State)
    requires Inv(names, s) && s.prepared.Some?
    ensures s.steps <= Schedule(|Items(s)|, s.cached)
  {
    var n := |Items(s)|;
    match s.stage
    case Installing =>
      MomentsPrefix(s.nextItem, n);
      assert s.steps <= ItemMoments(n);
    case Stopped =>
      MomentsPrefix(s.nextItem, n);
    case Publishing(_) =>
      assert ItemMoments(n) + [PublishStarted] <= ItemMoments(n) + [PublishStarted, PublishDone];
    case _ =>
  }

  /** A create that succeeds was cached, or carried out every item, then
      published, then registered; and it answers the root of its own plan. */
  lemma OkIsComplete(names: Key -> string, s: State)
    requires Inv(names, s) && s.result.Some? && s.result.value.Ok?
    ensures s.prepared.Some? && s.steps == Schedule(|Items(s)|, s.cached)
    ensures s.result.value.value == InstallRoot(names, s.prepared.value.plan.key)
  {
  }

  /** At most one item runs, and only after its download succeeded and all items
      before it are done. */
  lemma OneItem(names: Key -> string, s: State, e: Effect, f: Effect)
    requires Inv(names, s) && e in s.tasks && f in s.tasks && e.ExecuteItem? && f.ExecuteItem?
    ensures e == f && s.prepared.Some? && e.index < |Items(s)| && e.item == Items(s)[e.index]
    ensures e.item.key in s.downloads.completed && e.data == s.downloads.completed[e.item.key]
    ensures s.temporary == Some(e.temporary)
    ensures s.steps == ItemMoments(e.index) + [ItemStarted(e.index)]
  {
    assert Fits(s, e) && Fits(s, f);
  }

  /** What the other effects of an installation are asked to do. */
  lemma EffectArguments(names: Key -> string, s: State, e: Effect)
    requires Inv(names, s) && e in s.tasks && s.prepared.Some?
    ensures e.Download? ==> e.item in Items(s) && !s.cached
    ensures e.PrepareInstall? ==> e.planKey == s.prepared.value.plan.key
    ensures e.PublishInstall? ==>
      s.temporary == Some(e.temporary) && e.root == "install/" + names(s.prepared.value.plan.key) + "/root"
    ensures e.Register? ==>
      && s.planFile == Some(e.planFile) && s.prepared == Some(e.prepared)
      && e.root == "install/" + names(s.prepared.value.plan.key) + "/root"
  {
    hide Serial, Fetched, FetchedOnce, Live, History;
    assert Fits(s, e);
  }

  lemma {:induction false} NoPublication(n: nat)
    ensures PublishStarted !in ItemMoments(n) && RegisterStarted !in ItemMoments(n)
  {
    if n > 0 {
      NoPublication(n - 1);
    }
  }

  lemma ScheduleCounts(n: nat, cached: bool)
    ensures var all := multiset(Schedule(n, cached)); all[PublishStarted] <= 1 && all[RegisterStarted] <= 1
  {
    hide ItemMoments;
    NoPublication(n);
    assert multiset(ItemMoments(n))[PublishStarted] == 0 && multiset(ItemMoments(n))[RegisterStarted] == 0;
  }

  lemma PrefixCounts<T>(s: seq<T>, t: seq<T>, x: T)
    requires s <= t
    ensures multiset(s)[x] <= multiset(t)[x]
  {
    assert t == s + t[|s|..];
  }

  lemma PublicationLast(n: nat, cached: bool, i: nat)
    requires i < |Schedule(n, cached)| && Schedule(n, cached)[i] == PublishStarted
    ensures !cached && i == 2 * n
  {
    hide ItemMoments;
    NoPublication(n);
    assert forall k :: 0 <= k < |ItemMoments(n)| ==> ItemMoments(n)[k] in ItemMoments(n);
  }

  /** Publication and registration start at most once, and publication only
      after every item was done. */
  lemma PublishedOnce(names: Key -> string, s: State)
    requires Inv(names, s) && s.prepared.Some?
    ensures multiset(s.steps)[PublishStarted] <= 1 && multiset(s.steps)[RegisterStarted] <= 1
    ensures PublishStarted in s.steps ==> ItemMoments(|Items(s)|) <= s.steps && !s.cached
  {
    hide Inv, ItemMoments, Schedule;
    OnSchedule(names, s);
    var n := |Items(s)|;
    var all := Schedule(n, s.cached);
    ScheduleCounts(n, s.cached);
    PrefixCounts(s.steps, all, PublishStarted);
    PrefixCounts(s.steps, all, RegisterStarted);
    if PublishStarted in s.steps {
      var i :| 0 <= i < |s.steps| && s.steps[i] == PublishStarted;
      PublicationLast(n, s.cached, i);
      ScheduleItems(n);
      assert ItemMoments(n) == all[..2 * n] == s.steps[..2 * n];
    }
  }

  lemma ScheduleItems(n: nat)
    ensures ItemMoments(n) <= Schedule(n, false) && |ItemMoments(n)| == 2 * n
  {
    hide ItemMoments;
  }

  // ----- progress never interferes ----------------------------------------------

  /** `t` differs from `s` only in progress work and, possibly, in having failed. */
  predicate Murmur(s: State, t: State) {
    && t == s.(tasks := t.tasks, busy := t.busy, result := t.result)
    && s.tasks <= t.tasks && (forall e :: e in t.tasks && e !in s.tasks ==> IsStatus(e))
    && (s.result.Some? ==> t.result == s.result)
    && (t.result.Some? ==> t.result == s.result || t.result.value.Err?)
    && (Serial(s) ==> Serial(t))
  }

  lemma MurmurRefl(s: State)
    ensures Murmur(s, s)
  {
  }

  lemma StatusStarted(s: State, e: Effect)
    requires Serial(s) && IsStatus(e) && e.target !in s.busy
    ensures var t := s.(tasks := s.tasks + {e}, busy := s.busy + {e.target});
      Murmur(s, t) && Serial(t) && e !in s.tasks
  {
  }

  lemma MurmurSerial(s: State, t: State)
    requires Serial(s) && Murmur(s, t)
    ensures Serial(t)
  {
    hide Serial;
  }

  lemma MurmurTrans(s: State, t: State, u: State)
    requires Murmur(s, t) && Murmur(t, u)
    ensures Murmur(s, u)
  {
    hide Serial;
  }

  lemma MurmurInv(names: Key -> string, s: State, t: State)
    requires Safe(names, s) && (t.result.None? ==> Live(s)) && Murmur(s, t)
    ensures Inv(names, t)
  {
    hide Serial;
    assert s.result.None? ==> (t.result.None? ==> Live(t)) by {
      assert t.result.None? && t.stage.Installing? ==> forall k :: k in s.downloads.pending ==>
        Downloading(s, k) && Downloading(t, k);
    }
    assert Placed(t) by {
      forall e | e in t.tasks
        ensures Fits(t, e)
      {
        assert e in s.tasks ==> Fits(s, e);
      }
    }
  }

  lemma DropSafe(names: Key -> string, s: State, e: Effect)
    requires Safe(names, s)
    ensures Safe(names, s.(tasks := s.tasks - {e}))
  {
  }

  /** What every step of a run keeps. */
  predicate Keeps(s: State, t: State) {
    && (s.result.Some? ==> t.result == s.result)
    && s.steps <= t.steps
    && (s.prepared.Some? ==> t.prepared == s.prepared && t.cached == s.cached)
  }

  // ----- the steps of a run -------------------------------------------------------

  lemma KeepsTrans(s: State, t: State, u: State)
    requires Keeps(s, t) && Keeps(t, u)
    ensures Keeps(s, u)
  {
  }

  lemma MurmurKeeps(s: State, t: State)
    requires Murmur(s, t)
    ensures Keeps(s, t)
  {
    hide Serial;
  }

  /** One starting effect hands over to the next. */
  lemma HandOver(names: Key -> string, s: State, e: Effect, f: Effect, t: State)
    requires Inv(names, s) && e in s.tasks && IsStarting(e) && IsStarting(f) && e != f
    requires t == s.(planFile := t.planFile, tasks := s.tasks - {e} + {f}, stage := Starting(f))
    requires f.AcquireInstall? || f.Prepare? ==> t.planFile.Some?
    ensures f !in s.tasks && Inv(names, t)
  {
    assert Fits(s, e);
    assert f in s.tasks ==> Fits(s, f);
    forall g | g in t.tasks
      ensures Fits(t, g)
    {
      assert g != f ==> Fits(s, g);
    }
  }

  function ItemKeys(items: seq<Item>): set<Key> {
    set i | i in items :: i.key
  }

  function FreshTracker(items: seq<Item>): Tracker {
    Tracker(ItemKeys(items), map[], false)
  }

  /** The install lock is held: the state before and after the effects that
      follow, whatever progress did in between. */
  predicate Entered(s: State, e: Effect, p: Prepared, t: State) {
    && e == AcquireInstall(p) && e in s.tasks
    && t == s.(prepared := Some(p), lock := t.lock, downloads := t.downloads, result := t.result, busy := t.busy,
               tasks := t.tasks, cached := t.cached, stage := t.stage, steps := t.steps)
    && t.lock.Some?
    && (s.result.Some? ==> t.result == s.result)
    && (t.result.Some? ==> t.result == s.result || t.result.value.Err?)
    && Serial(t)
  }

  lemma EnteredCached(names: Key -> string, s: State, e: Effect, p: Prepared, t: State, r: Effect)
    requires Inv(names, s) && Entered(s, e, p, t) && t.cached && t.stage == Registering(r)
    requires s.planFile.Some? && r == Register(s.planFile.value, p, InstallRoot(names, p.plan.key))
    requires t.steps == s.steps + [RegisterStarted] && t.downloads == s.downloads
    requires r in t.tasks && forall f :: f in t.tasks ==> f in s.tasks - {e} || IsStatus(f) || f == r
    ensures Inv(names, t)
  {
    hide Serial;
    assert Fits(s, e);
    assert s.result.None? ==> !s.downloads.failed;
    forall f | f in t.tasks
      ensures Fits(t, f)
    {
      assert f in s.tasks ==> Fits(s, f);
    }
  }

  lemma EnteredInstalling(names: Key -> string, s: State, e: Effect, p: Prepared, t: State)
    requires Inv(names, s) && Entered(s, e, p, t) && !t.cached && t.stage == Installing
    requires t.steps == s.steps && t.downloads == FreshTracker(p.plan.items)
    requires PrepareInstall(p.plan.key) in t.tasks
    requires forall k :: k in t.downloads.pending ==> Downloading(t, k)
    requires forall e, f :: e in t.tasks && f in t.tasks && e.Download? && f.Download? && e.item.key == f.item.key ==>
      e == f
    requires forall f :: f in t.tasks ==>
      f in s.tasks - {e} || IsStatus(f) || f == PrepareInstall(p.plan.key) || (f.Download? && f.item in p.plan.items)
    ensures Inv(names, t)
  {
    hide Serial, Downloading;
    assert Fits(s, e);
    forall f | f in t.tasks
      ensures Fits(t, f)
    {
      assert f in s.tasks ==> Fits(s, f);
    }
    assert ItemMoments(0) == [];
  }

  /** `Live`, except that an idle run may have an item ready. */
  predicate Almost(s: State) {
    && !s.downloads.failed
    && if s.stage.Installing? then
         && s.prepared.Some?
         && (forall k :: k in s.downloads.pending ==> Downloading(s, k))
         && (s.temporary.None? ==> PrepareInstall(s.prepared.value.plan.key) in s.tasks)
         && (s.temporary.Some? && s.itemRunning ==> CanRun(s) && RunningItem(s) in s.tasks)
       else Live(s)
  }

  /** Other effects come and go. */
  lemma OnceKept(s: State, t: State)
    requires FetchedOnce(s) && t.downloads == s.downloads
    requires forall e :: e in t.tasks && e.Download? ==> e in s.tasks
    ensures FetchedOnce(t)
  {
  }

  /** Nothing can be started now. */
  lemma StaysIdle(names: Key -> string, s: State)
    requires Safe(names, s) && (s.result.None? ==> Almost(s))
    requires s.result.Some? || s.itemRunning || s.publishing || s.prepared.None? || s.temporary.None? ||
             (s.nextItem < |Items(s)| && Items(s)[s.nextItem].key !in s.downloads.completed)
    ensures Inv(names, s)
  {
    hide Serial, Placed, Fetched;
  }

  lemma StartsPublishing(names: Key -> string, s: State, e: Effect)
    requires Safe(names, s) && s.result.None? && Almost(s)
    requires !s.itemRunning && !s.publishing && s.prepared.Some? && s.temporary.Some? && s.nextItem == |Items(s)|
    requires s.stage.Installing?
    requires e == PublishInstall(s.temporary.value, InstallRoot(names, s.prepared.value.plan.key))
    ensures e !in s.tasks
    ensures Inv(names, s.(publishing := true, tasks := s.tasks + {e}, stage := Publishing(e),
      steps := s.steps + [PublishStarted]))
  {
    assert e in s.tasks ==> Fits(s, e);
    var t := s.(publishing := true, tasks := s.tasks + {e}, stage := Publishing(e),
      steps := s.steps + [PublishStarted]);
    forall f | f in t.tasks
      ensures Fits(t, f)
    {
      assert f != e ==> Fits(s, f);
    }
  }

  lemma StartsItem(names: Key -> string, s: State)
    requires Safe(names, s) && s.result.None? && Almost(s)
    requires !s.itemRunning && CanRun(s) && s.stage.Installing?
    ensures RunningItem(s) !in s.tasks
    ensures Inv(names, s.(itemRunning := true, tasks := s.tasks + {RunningItem(s)},
      steps := s.steps + [ItemStarted(s.nextItem)]))
  {
    hide FetchedOnce, Serial;
    var e := RunningItem(s);
    assert e in s.tasks ==> Fits(s, e);
    var t := s.(itemRunning := true, tasks := s.tasks + {e}, steps := s.steps + [ItemStarted(s.nextItem)]);
    PushSerial(s, e, t);
    OnceKept(s, t);
    forall f | f in t.tasks
      ensures Fits(t, f)
    {
      assert f != e ==> Fits(s, f);
    }
    forall k | k in t.downloads.pending
      ensures Downloading(t, k)
    {
      assert Downloading(s, k);
    }
  }

  /** The temporary directory is there. */
  lemma GotTemporary(names: Key -> string, s: State, e: Effect, dir: Path, t: State)
    requires Inv(names, s) && e in s.tasks && e.PrepareInstall? && s.result.None?
    requires t == s.(tasks := s.tasks - {e}, temporary := Some(dir))
    ensures Safe(names, t) && Almost(t) && t.stage.Installing?
  {
    assert Fits(s, e);
    forall f | f in t.tasks
      ensures Fits(t, f)
    {
      assert Fits(s, f);
    }
    forall k | k in t.downloads.pending
      ensures Downloading(t, k)
    {
      assert Downloading(s, k);
    }
  }

  /** Bookkeeping of one finished download. */
  function Finish(d: Tracker, key: Key, fetched: Outcome<Path>): Tracker {
    if d.failed || key !in d.pending then d
    else if fetched.Ok? then Tracker(d.pending - {key}, d.completed[key := fetched.value], false)
    else Tracker(d.pending - {key}, d.completed, true)
  }

  lemma FinishSafe(names: Key -> string, s: State, e: Effect, fetched: Outcome<Path>, t: State)
    requires Inv(names, s) && e in s.tasks && e.Download?
    requires t == s.(tasks := s.tasks - {e}, downloads := Finish(s.downloads, e.item.key, fetched))
    ensures Safe(names, t)
    ensures s.result.None? && fetched.Ok? && e.item.key in s.downloads.pending ==> Almost(t)
    ensures s.result.None? && e.item.key !in s.downloads.pending ==> Live(t)
  {
    hide Serial;
    FinishFits(names, s, e, fetched, t);
    FinishSerial(s, e, t);
    if s.result.None? { FinishLive(names, s, e, fetched, t); }
  }

  lemma FinishSerial(s: State, e: Effect, t: State)
    requires Serial(s) && t.tasks == s.tasks - {e} && t.busy == s.busy
    ensures Serial(t)
  {
  }

  lemma FinishFits(names: Key -> string, s: State, e: Effect, fetched: Outcome<Path>, t: State)
    requires Safe(names, s) && e in s.tasks && e.Download?
    requires t == s.(tasks := s.tasks - {e}, downloads := Finish(s.downloads, e.item.key, fetched))
    ensures Placed(t)
  {
    hide Serial;
    forall f | f in t.tasks
      ensures Fits(t, f)
    {
      assert Fits(s, f);
    }
  }

  lemma FinishLive(names: Key -> string, s: State, e: Effect, fetched: Outcome<Path>, t: State)
    requires Inv(names, s) && e in s.tasks && e.Download? && s.result.None?
    requires t == s.(tasks := s.tasks - {e}, downloads := Finish(s.downloads, e.item.key, fetched))
    ensures fetched.Ok? && e.item.key in s.downloads.pending ==> Almost(t)
    ensures e.item.key !in s.downloads.pending ==> Live(t)
  {
    hide Serial;
    assert Fits(s, e);
    if s.stage.Installing? && (fetched.Ok? || e.item.key !in s.downloads.pending) {
      forall k | k in t.downloads.pending
        ensures Downloading(t, k)
      {
        var f :| f in s.tasks && f.Download? && f.item.key == k;
        assert f in t.tasks;
      }
    }
  }

  lemma ItemDoneSafe(names: Key -> string, s: State, e: Effect, t: State)
    requires Inv(names, s) && e in s.tasks && e.ExecuteItem? && s.result.None?
    requires t ==
      s.(tasks := s.tasks - {e}, itemRunning := false, nextItem := s.nextItem + 1,
        steps := s.steps + [ItemDone(s.nextItem)])
    ensures e.index == s.nextItem && s.itemRunning && Safe(names, t) && Almost(t) && t.stage.Installing?
  {
    hide Serial;
    FinishSerial(s, e, t);
    assert Fits(s, e);
    forall f | f in t.tasks
      ensures Fits(t, f)
    {
      assert Fits(s, f);
    }
    forall k | k in t.downloads.pending
      ensures Downloading(t, k)
    {
      assert Downloading(s, k);
    }
    assert t.steps == ItemMoments(t.nextItem);
  }

  /** A failed item: its effect is gone, progress may have been reported. */
  lemma ItemFailedInv(names: Key -> string, s: State, e: Effect, m: State, t: State)
    requires Inv(names, s) && e in s.tasks && e.ExecuteItem? && s.result.None?
    requires Murmur(s.(tasks := s.tasks - {e}, itemRunning := false), m) && m.result.Some?
    requires t == m.(stage := Stopped)
    ensures Inv(names, t)
  {
    hide FetchedOnce;
    FinishSerial(s, e, s.(tasks := s.tasks - {e}, itemRunning := false));
    OnceKept(s, t);
    assert Fits(s, e);
    forall f | f in t.tasks
      ensures Fits(t, f)
    {
      assert f in s.tasks ==> Fits(s, f);
    }
  }

  lemma PublishedSafe(names: Key -> string, s: State, e: Effect, r: Effect, t: State)
    requires Inv(names, s) && e in s.tasks && e.PublishInstall? && r.Register?
    requires s.prepared.Some? && s.planFile.Some? ==> r == Register(s.planFile.value, s.prepared.value, e.root)
    requires t ==
      s.(tasks := s.tasks - {e} + {r}, stage := Registering(r), steps := s.steps + [PublishDone, RegisterStarted])
    ensures s.stage == Publishing(e) && s.prepared.Some? && s.lock.Some? && s.planFile.Some? && r !in s.tasks
    ensures Inv(names, t)
  {
    hide FetchedOnce;
    OnceKept(s, t);
    assert Fits(s, e);
    assert r in s.tasks ==> Fits(s, r);
    forall f | f in t.tasks
      ensures Fits(t, f)
    {
      assert f != r ==> Fits(s, f);
    }
  }

  lemma RegisteredSafe(names: Key -> string, s: State, e: Effect, root: Path, t: State)
    requires Inv(names, s) && e in s.tasks && e.Register? && root == e.root
    requires t == s.(tasks := s.tasks - {e}, stage := Finished, steps := s.steps + [RegisterDone],
                     result := if s.result.None? then Some(Ok(root)) else s.result)
    ensures Inv(names, t)
  {
    assert Fits(s, e);
    forall f | f in t.tasks
      ensures Fits(t, f)
    {
      assert Fits(s, f);
    }
  }

  /** A download that runs is waited for, unless the run has failed. */
  lemma DownloadPending(names: Key -> string, s: State, e: Effect)
    requires Inv(names, s) && e in s.tasks && e.Download? && s.result.None?
    ensures !s.downloads.failed && e.item.key in s.downloads.pending
  {
  }

  lemma FailedMurmur(s: State, t: State)
    requires Serial(s) && s.result.None? && t == s.(result := t.result) && t.result.Some? && t.result.value.Err?
    ensures Murmur(s, t) && Serial(t)
  {
  }

  // ----- reading the invariant ----------------------------------------------------

  lemma SafeSerial(names: Key -> string, s: State)
    requires Safe(names, s)
    ensures Serial(s)
  {
  }

  lemma InvSafe(names: Key -> string, s: State)
    requires Inv(names, s)
    ensures Safe(names, s) && (s.result.None? ==> Live(s))
  {
  }

  lemma SafeFields(names: Key -> string, s: State)
    requires Safe(names, s)
    ensures s.result.None? && s.prepared.Some? && s.temporary.Some? && !s.publishing && !s.itemRunning ==>
      s.stage.Installing? && s.nextItem <= |Items(s)|
  {
    hide Serial, Placed, Fetched;
  }

  lemma NotFailed(names: Key -> string, s: State)
    requires Inv(names, s)
    ensures s.result.None? ==> !s.downloads.failed
  {
    hide Safe;
  }

  lemma StartingPrepared(names: Key -> string, s: State, e: Effect)
    requires Inv(names, s) && e in s.tasks && IsStarting(e)
    ensures s.stage == Starting(e) && s.prepared.None? && s.steps == [] && !s.cached
    ensures e.AcquireInstall? ==> s.planFile.Some?
    ensures forall f :: f in s.tasks && f != e ==> IsStatus(f)
  {
    hide Serial, Fetched, Live;
    assert Fits(s, e);
    forall f | f in s.tasks && f != e
      ensures IsStatus(f)
    {
      assert Fits(s, f);
    }
  }

  lemma ItemRunning(names: Key -> string, s: State, e: Effect)
    requires Inv(names, s) && e in s.tasks && e.ExecuteItem?
    ensures s.itemRunning && e.index == s.nextItem
  {
    assert Fits(s, e);
  }

  lemma PublishingFields(names: Key -> string, s: State, e: Effect)
    requires Inv(names, s) && e in s.tasks && e.PublishInstall?
    ensures s.stage == Publishing(e) && s.prepared.Some? && s.lock.Some? && s.planFile.Some? && !s.cached
  {
    hide Serial, Fetched, Live;
    assert Fits(s, e);
  }

  lemma MurmurNone(s: State, t: State)
    requires Murmur(s, t)
    ensures t.result.None? ==> s.result.None?
  {
    hide Serial;
  }

  lemma MurmurTasks(s: State, t: State)
    requires Murmur(s, t)
    ensures t == s.(tasks := t.tasks, busy := t.busy, result := t.result) && s.tasks <= t.tasks
    ensures forall e :: e in t.tasks && e !in s.tasks ==> IsStatus(e)
    ensures s.result.Some? ==> t.result == s.result
    ensures t.result.Some? ==> t.result == s.result || t.result.value.Err?
  {
    hide Serial;
  }

  lemma DroppedSerial(names: Key -> string, s: State, e: Effect, t: State)
    requires Inv(names, s) && t.tasks == s.tasks - {e} && t.busy == s.busy
    ensures Serial(t)
  {
    FinishSerial(s, e, t);
  }

  lemma PushSerial(s: State, e: Effect, t: State)
    requires Serial(s) && !IsStatus(e) && t.tasks == s.tasks + {e} && t.busy == s.busy
    ensures Serial(t)
  {
  }

  lemma NewSerial(s: State, t: State)
    requires Serial(s) && t.busy == s.busy && forall e :: e in t.tasks && e !in s.tasks ==> !IsStatus(e)
    ensures Serial(t)
  {
  }

  lemma AllDownloading(items: seq<Item>, s: State)
    requires forall k :: k in ItemKeys(items) ==> exists e :: e in s.tasks && e.Download? && e.item.key == k
    ensures forall k :: k in FreshTracker(items).pending ==> Downloading(s, k)
  {
  }

  lemma NextKeys(items: seq<Item>, i: nat)
    requires i < |items|
    ensures ItemKeys(items[..i + 1]) == ItemKeys(items[..i]) + {items[i].key}
  {
    assert items[..i + 1] == items[..i] + [items[i]];
  }

  function KeysOf(items: seq<Item>): (ks: set<Key>)
    ensures ks == ItemKeys(items) && FreshTracker(items) == Tracker(ks, map[], false)
  {
    ItemKeys(items)
  }

  /** Progress work goes on next to a step that only starts another effect. */
  lemma AlongsideMurmur(was: State, m: State, t: State, u: State, r: Effect)
    requires Murmur(was, m) && !IsStatus(r) && Serial(was)
    requires t == was.(tasks := was.tasks + {r}, stage := t.stage, steps := t.steps)
    requires u == m.(tasks := m.tasks + {r}, stage := t.stage, steps := t.steps)
    ensures Murmur(t, u)
  {
    hide Serial;
    PushSerial(was, r, t);
    MurmurSerial(was, m);
    PushSerial(m, r, u);
  }

  lemma AnyError(s: State, t: State)
    requires t == s.(result := t.result) && (s.result.Some? ==> t.result == s.result) && t.result.Some?
    requires s.result.None? ==> t.result.value.Err?
    ensures Murmur(s, t)
  {
  }

  lemma EnteredKeeps(s: State, e: Effect, p: Prepared, t: State)
    requires Entered(s, e, p, t) && s.prepared.None? && s.steps <= t.steps
    ensures Keeps(s, t)
  {
    hide Serial;
  }

  /** Starting an installation: progress first, then downloads and a temporary. */
  lemma Installs(names: Key -> string, s: State, e: Effect, p: Prepared, m: State, t: State)
    requires Inv(names, s) && e == AcquireInstall(p) && e in s.tasks && m.lock.Some?
    requires Murmur(s.(tasks := s.tasks - {e}, prepared := Some(p), lock := m.lock), m)
    requires t == m.(downloads := FreshTracker(p.plan.items), tasks := t.tasks, cached := false, stage := Installing)
    requires m.tasks <= t.tasks && PrepareInstall(p.plan.key) in t.tasks
    requires forall f :: f in t.tasks && f !in m.tasks ==>
      f == PrepareInstall(p.plan.key) || (f.Download? && f.item in p.plan.items)
    requires forall k :: k in ItemKeys(p.plan.items) ==> exists f :: f in t.tasks && f.Download? && f.item.key == k
    requires forall e, f :: e in t.tasks && f in t.tasks && e.Download? && f.Download? && e.item.key == f.item.key ==>
      e == f
    ensures Inv(names, t) && Keeps(s, t)
  {
    hide Inv, Serial, Downloading, FreshTracker, Keeps;
    StartingPrepared(names, s, e);
    DroppedSerial(names, s, e, s.(tasks := s.tasks - {e}, prepared := Some(p), lock := m.lock));
    NewSerial(m, t);
    AllDownloading(p.plan.items, t);
    EnteredInstalling(names, s, e, p, t);
    EnteredKeeps(s, e, p, t);
  }

  /** Registering a cached installation: progress first, then the effect. */
  lemma Registers(names: Key -> string, s: State, e: Effect, p: Prepared, m: State, r: Effect)
    requires Inv(names, s) && e == AcquireInstall(p) && e in s.tasks && m.lock.Some? && s.planFile.Some?
    requires Murmur(s.(tasks := s.tasks - {e}, prepared := Some(p), lock := m.lock), m)
    requires r == Register(s.planFile.value, p, InstallRoot(names, p.plan.key))
    ensures r !in m.tasks
    ensures var t := m.(tasks := m.tasks + {r}, cached := true, stage := Registering(r),
      steps := s.steps + [RegisterStarted]);
      Inv(names, t) && Keeps(s, t)
  {
    hide Inv, Serial, Keeps, InstallRoot;
    StartingPrepared(names, s, e);
    var was := s.(tasks := s.tasks - {e}, prepared := Some(p), lock := m.lock);
    DroppedSerial(names, s, e, was);
    MurmurSerial(was, m);
    var t := m.(tasks := m.tasks + {r}, cached := true, stage := Registering(r), steps := s.steps + [RegisterStarted]);
    PushSerial(m, r, t);
    EnteredCached(names, s, e, p, t, r);
    EnteredKeeps(s, e, p, t);
  }

  lemma NoneDownloading(names: Key -> string, s: State, e: Effect, was: State, m: State)
    requires Inv(names, s) && e in s.tasks && IsStarting(e) && was.tasks == s.tasks - {e} && Murmur(was, m)
    ensures forall f :: f in m.tasks ==> !f.Download? && !f.PrepareInstall?
  {
    hide Inv, Murmur;
    StartingPrepared(names, s, e);
    MurmurTasks(was, m);
  }

  lemma PlanFileKnown(names: Key -> string, s: State, e: Effect)
    requires Inv(names, s) && e in s.tasks && e.Prepare?
    ensures s.planFile.Some?
  {
    hide Serial, Fetched, Live;
    assert Fits(s, e);
  }

  /** The history goes on, and what is known of the plan stays. */
  lemma GoesOn(s: State, t: State, u: State)
    requires t == s.(tasks := t.tasks, stage := t.stage, steps := t.steps) && s.steps <= t.steps && Murmur(t, u)
    ensures Keeps(s, u)
  {
    hide Serial;
  }

  lemma DropKeeps(s: State, e: Effect)
    ensures Keeps(s, s.(tasks := s.tasks - {e}))
  {
  }

  /** A status effect has ended: its target is free again. */
  lemma StatusEnded(names: Key -> string, s: State, e: Effect, t: State)
    requires Inv(names, s) && e in s.tasks && IsStatus(e)
    requires t == s.(tasks := s.tasks - {e}, busy := s.busy - {e.target})
    ensures Safe(names, t) && (s.result.None? ==> Live(t)) && Keeps(s, t)
  {
    assert s.result.None? && s.stage.Installing? ==> forall k :: k in s.downloads.pending ==>
      Downloading(s, k) && Downloading(t, k);
    forall f | f in t.tasks
      ensures Fits(t, f)
    {
      assert Fits(s, f);
    }
  }
}
