/** The reducer behind Store::create (store.rs): one event at a time it updates
    the state of the run and starts effects. */
module CreateReducer {
  import opened CreateState
  import opened CreateLog
  import opened Wrappers

  class Create {
    const names: Key -> string
    var planFile: Option<Path>
    var prepared: Option<Prepared>
    var lock: Option<Lock>
    var downloads: Tracker
    var temporary: Option<Path>
    var nextItem: nat
    var itemRunning: bool
    var publishing: bool
    var result: Option<Outcome<Path>>
    var progress: Progress
    var busy: set<Key>
    var waiting: map<Key, seq<Pending>>
    var tasks: set<Effect>
    ghost var cached: bool
    ghost var stage: Stage
    ghost var steps: seq<Moment>

    ghost function Now(): State
      reads this
    {
      State(planFile, prepared, lock, downloads, temporary, nextItem, itemRunning, publishing,
            result, busy, tasks, cached, stage, steps)
    }

    ghost predicate Valid()
      reads this
    {
      Inv(names, Now())
    }

    function Queue(target: Key): seq<Pending>
      reads this
    {
      QueueOf(waiting, target)
    }

    /** What events teach the run. */
    ghost function Mind(): Memory
      reads this
    {
      Memory(result, steps, prepared, lock, cached, downloads, planFile, temporary, progress, waiting)
    }

    /** Starts an effect that is not running already. */
    method Push(e: Effect)
      requires e !in tasks
      modifies this`tasks
      ensures tasks == old(tasks) + {e}
    {
      tasks := tasks + {e};
    }

    // ----- progress -------------------------------------------------------------

    method Enqueue(target: Key, event: ProgressEvent)
      requires Serial(Now())
      modifies this
      ensures Murmur(old(Now()), Now())
      ensures Noted(old(Mind()), Mind(), target, Local(event))
      ensures Spoken(old(Mind()), Mind(), target in old(busy), old(tasks), tasks, target, [Local(event)])
      decreases if result.None? then 1 else 0, 2
    {
      hide Murmur, Serial, Noted, Soft, Spoken;
      ghost var l := Mind();
      waiting := waiting[target := Queue(target) + [Local(event)]];
      ghost var m := Mind();
      Pump(target);
      NotedThen(l, m, Mind(), target, Local(event));
      SpokenMore(l, m, Mind(), target in old(busy), old(tasks), tasks, target, Local(event));
    }

    /** Starts a status effect; until it ends its target is busy. */
    method Begin(e: Effect)
      requires Serial(Now()) && IsStatus(e) && e.target !in busy
      modifies this`busy, this`tasks
      ensures Murmur(old(Now()), Now()) && Serial(Now()) && busy == old(busy) + {e.target}
      ensures result == old(result) && tasks == old(tasks) + {e}
    {
      hide Serial, Murmur;
      ghost var s := Now();
      StatusStarted(s, e);
      busy := busy + {e.target};
      Push(e);
      assert Now() == s.(tasks := s.tasks + {e}, busy := s.busy + {e.target});
    }

    /** Hands on waiting progress of a target while none of its effects runs. */
    method Pump(target: Key)
      requires Serial(Now())
      modifies this
      ensures Murmur(old(Now()), Now())
      ensures result == old(result) ==> target in busy || Queue(target) == [] || result.Some?
      ensures Soft(old(Mind()), Mind())
      ensures Spoken(old(Mind()), Mind(), target in old(busy), old(tasks), tasks, target, [])
      decreases if result.None? then 1 else 0, 1
    {
      hide Serial, Murmur, ReduceProgress, AllCalm, Ready, HandOn, Spoken;
      ghost var h := HandOn(progress, target, Queue(target));
      ghost var s := Now();
      ghost var l := Mind();
      MurmurRefl(s);
      KeepsReadySame(l, l);
      while target !in busy && Queue(target) != []
        invariant Murmur(s, Now()) && result == s.result && Serial(Now())
        invariant Soft(l, Mind())
        invariant target in busy && target !in old(busy) ==>
          && progress == h.progress && Queue(target) == h.rest && !h.failed && h.begun.Some?
          && tasks == s.tasks + {h.begun.value}
        invariant target !in busy ==> h == HandOn(progress, target, Queue(target)) && tasks == s.tasks
        invariant target in old(busy) ==> Now() == s && Mind() == l
        decreases |Queue(target)|
      {
        ghost var t := Now();
        var next := Queue(target)[0];
        HandNext(progress, target, Queue(target));
        if AllCalm(progress, waiting) {
          CalmNext(progress, waiting, target);
        }
        waiting := waiting[target := Queue(target)[1..]];
        match next {
          case Local(event) =>
            var reduced := ReduceProgress(progress, event);
            progress := reduced.0.(failed := None);
            if reduced.0.failed.Some? {
              FailCreate(reduced.0.failed.value);
              MurmurTrans(s, t, Now());
              SpokenNow(l, Mind(), false, s.tasks, tasks, target, h);
              return;
            }
            if reduced.1.Some? {
              Begin(EmitProgress(target, reduced.1.value));
              MurmurTrans(s, t, Now());
            }
          case Observed(status) =>
            progress := progress.(statuses := progress.statuses[status.key := status]);
            Begin(ForwardStatus(target, status));
            MurmurTrans(s, t, Now());
        }
      }
      HandNext(progress, target, []);
      SpokenNow(l, Mind(), target in old(busy), s.tasks, tasks, target, h);
    }

    /** The first failure is the result, whatever happens later. */
    method FailCreate(error: string)
      requires Serial(Now())
      modifies this
      ensures Murmur(old(Now()), Now()) && result == if old(result).Some? then old(result) else Some(Err(error))
      ensures FailureSaid(old(Mind()), Mind(), old(busy), old(tasks), tasks)
      decreases if result.None? then 1 else 0, 0
    {
      hide Serial, Noted, Soft, Spoken;
      if result.Some? {
        return;
      }
      result := Some(Err(error));
      ghost var t, m := Now(), Mind();
      FailedMurmur(old(Now()), t);
      if prepared.Some? && lock.Some? {
        var key := prepared.value.plan.key;
        Enqueue(key, Failure(key));
        MurmurTrans(old(Now()), t, Now());
        SpokenBeside(old(Mind()), m, Mind(), Mind(), key in old(busy), old(tasks), tasks, tasks, key,
                     [Local(Failure(key))]);
      }
    }

    /** A failure at any point. */
    method Fail(error: string)
      requires Safe(names, Now())
      modifies this
      ensures Valid() && Keeps(old(Now()), Now()) && Murmur(old(Now()), Now())
      ensures result == if old(result).Some? then old(result) else Some(Err(error))
      ensures FailureSaid(old(Mind()), Mind(), old(busy), old(tasks), tasks)
    {
      hide Safe, Inv, Murmur, Keeps, Serial, FailureSaid;
      ghost var s := Now();
      SafeSerial(names, s);
      FailCreate(error);
      MurmurInv(names, s, Now());
      MurmurKeeps(s, Now());
    }

    /** Progress work that leaves a valid state valid. */
    method Report(target: Key, event: ProgressEvent)
      requires Valid()
      modifies this
      ensures Valid() && Keeps(old(Now()), Now())
      ensures Heard(old(Mind()), Mind(), ProgressMade(target, event))
      ensures Spoken(old(Mind()), Mind(), target in old(busy), old(tasks), tasks, target, [Local(event)])
    {
      hide Safe, Inv, Murmur, Keeps, Serial, Spoken;
      ghost var s := Now();
      InvSafe(names, s);
      SafeSerial(names, s);
      ghost var m := Mind();
      Enqueue(target, event);
      MurmurTasks(s, Now());
      HeardNoted(m, Mind(), ProgressMade(target, event));
      MurmurNone(s, Now());
      MurmurInv(names, s, Now());
      MurmurKeeps(s, Now());
    }

    // ----- items ----------------------------------------------------------------

    /** Starts the next item, or the publication, as soon as it can. */
    method AdvanceItems()
      requires Safe(names, Now()) && (result.None? ==> Almost(Now()))
      modifies this`publishing, this`itemRunning, this`tasks, this`stage, this`steps
      ensures Valid() && Keeps(old(Now()), Now()) && Done(steps) == Done(old(steps))
    {
      hide Safe, Inv, Almost, Serial, Placed, InstallRoot, Done;
      ghost var s := Now();
      SafeFields(names, s);
      if result.Some? || itemRunning || publishing {
        StaysIdle(names, s);
        return;
      }
      if prepared.None? || temporary.None? {
        StaysIdle(names, s);
        return;
      }
      var plan := prepared.value.plan;
      if nextItem == |plan.items| {
        var e := PublishInstall(temporary.value, InstallRoot(names, plan.key));
        StartsPublishing(names, s, e);
        DoneAppend(steps, PublishStarted);
        publishing := true;
        Push(e);
        stage, steps := Publishing(e), steps + [PublishStarted];
        assert Now() ==
          s.(publishing := true, tasks := s.tasks + {e}, stage := Publishing(e), steps := s.steps + [PublishStarted]);
        return;
      }
      var item := plan.items[nextItem];
      if item.key !in downloads.completed {
        StaysIdle(names, s);
        return;
      }
      StartsItem(names, s);
      DoneAppend(steps, ItemStarted(nextItem));
      itemRunning := true;
      Push(ExecuteItem(nextItem, item, downloads.completed[item.key], temporary.value));
      steps := steps + [ItemStarted(nextItem)];
      assert Now() ==
        s.(itemRunning := true, tasks := s.tasks + {RunningItem(s)}, steps := s.steps + [ItemStarted(s.nextItem)]);
    }

    // ----- events ---------------------------------------------------------------

    /** From one starting effect to the next. */
    method OnStarting(ghost s: State, ghost e: Effect, f: Effect, file: Option<Path>)
      requires Inv(names, s) && e in s.tasks && IsStarting(e) && IsStarting(f) && e != f
      requires Now() == s.(tasks := s.tasks - {e}) && (f.AcquireInstall? || f.Prepare? ==> file.Some?)
      modifies this`planFile, this`tasks, this`stage
      ensures Valid() && Keeps(s, Now()) && planFile == file
    {
      hide Inv;
      HandOver(names, s, e, f, s.(planFile := file, tasks := s.tasks - {e} + {f}, stage := Starting(f)));
      planFile := file;
      Push(f);
      stage := Starting(f);
      assert Now() == s.(planFile := file, tasks := s.tasks - {e} + {f}, stage := Starting(f));
      StartingPrepared(names, s, e);
    }

    /** Each download key once. */
    method StartDownloads(items: seq<Item>)
      requires forall e :: e in tasks ==> !e.Download?
      modifies this`tasks
      ensures old(tasks) <= tasks
      ensures forall e :: e in tasks && e !in old(tasks) ==> e.Download? && e.item in items
      ensures forall k :: k in ItemKeys(items) ==> exists e :: e in tasks && e.Download? && e.item.key == k
      ensures forall e, f :: e in tasks && f in tasks && e.Download? && f.Download? && e.item.key == f.item.key ==>
        e == f
    {
      var unique: set<Key> := {};
      for i := 0 to |items|
        invariant old(tasks) <= tasks
        invariant forall e :: e in tasks && e !in old(tasks) ==> e.Download? && e.item in items && e.item.key in unique
        invariant unique == ItemKeys(items[..i])
        invariant forall k :: k in unique ==> exists e :: e in tasks && e.Download? && e.item.key == k
        invariant forall e, f ::
          e in tasks && f in tasks && e.Download? && f.Download? && e.item.key == f.item.key ==> e == f
      {
        ghost var was := tasks;
        if items[i].key !in unique {
          unique := unique + {items[i].key};
          Push(Download(items[i]));
          assert Download(items[i]) in tasks;
        }
        NextKeys(items, i);
        forall k | k in unique
          ensures exists e :: e in tasks && e.Download? && e.item.key == k
        {
          if k != items[i].key {
            var e :| e in was && e.Download? && e.item.key == k;
            assert e in tasks;
          }
        }
      }
      assert items[..|items|] == items;
    }

    /** The install lock is held: register a cached installation, or start every
        download and make a place to install to. */
    method OnInstallAcquired(ghost s: State, ghost e: Effect, p: Prepared, held: Lock, hit: bool)
      requires Inv(names, s) && e == AcquireInstall(p) && e in s.tasks && Now() == s.(tasks := s.tasks - {e})
      modifies this
      ensures Valid() && Keeps(s, Now()) && Follows(old(Mind()), Mind(), InstallAcquired(p, held, hit))
      ensures Answers(old(Mind()), Mind(), old(busy), old(tasks), tasks, InstallAcquired(p, held, hit))
    {
      hide Inv, Safe, Serial, Murmur, Follows, Soft, AtEase, Ready, Done, FreshTracker, Spoken;
      ghost var m := Mind();
      StartingPrepared(names, s, e);
      lock, prepared := Some(held), Some(p);
      ghost var l := Mind();
      DroppedSerial(names, s, e, Now());
      if hit {
        RegisterCached(s, e, p);
      } else {
        StartInstalling(s, e, p);
      }
      FollowsAcquired(m, l, Mind(), InstallAcquired(p, held, hit));
      if Says(m, InstallAcquired(p, held, hit)).Some? {
        var said := Says(m, InstallAcquired(p, held, hit)).value;
        SpokenBeside(m, l, Mind(), Mind(), said.key in old(busy), old(tasks), tasks, tasks, said.key, said.more);
      }
    }

    /** A cached installation is reported by whoever did not wait for it. */
    method NoteCached(key: Key)
      requires Serial(Now()) && lock.Some?
      modifies this
      ensures Murmur(old(Now()), Now()) && Soft(old(Mind()), Mind())
      ensures old(lock).value.waited ==> Now() == old(Now()) && Mind() == old(Mind())
      ensures !old(lock).value.waited ==>
        Spoken(old(Mind()), Mind(), key in old(busy), old(tasks), tasks, key,
          [Local(ProgressEvent.Cached(InstallShared, key, None))])
    {
      hide Serial, Murmur, AtEase, Spoken;
      MurmurRefl(Now());
      KeepsReadySame(Mind(), Mind());
      if !lock.value.waited {
        Enqueue(key, ProgressEvent.Cached(InstallShared, key, None));
      }
    }

    method RegisterCached(ghost s: State, ghost e: Effect, p: Prepared)
      requires Inv(names, s) && e == AcquireInstall(p) && e in s.tasks && s.planFile.Some?
      requires lock.Some? && Now() == s.(tasks := s.tasks - {e}, prepared := Some(p), lock := lock) && Serial(Now())
      modifies this
      ensures Valid() && Keeps(s, Now())
      ensures cached && prepared == old(prepared) && lock == old(lock) && downloads == old(downloads)
      ensures planFile == old(planFile) && temporary == old(temporary)
      ensures Done(steps) == Done(old(steps)) && OnlyFails(old(Mind()), Mind())
      ensures Soft(old(Mind()), Mind())
      ensures var key := p.plan.key; !old(lock).value.waited ==>
        Spoken(old(Mind()), Mind(), key in old(busy), old(tasks), tasks, key,
          [Local(ProgressEvent.Cached(InstallShared, key, None))])
    {
      hide Inv, Safe, Serial, Murmur, InstallRoot, Keeps, AtEase, KeepsReady, Done, Spoken, Statuses;
      DoneAppend(steps, RegisterStarted);
      ghost var was, l := Now(), Mind();
      NoteCached(p.plan.key);
      ghost var m, n := Now(), Mind();
      MurmurTasks(was, m);
      var r := Register(planFile.value, p, InstallRoot(names, p.plan.key));
      Registers(names, s, e, p, m, r);
      Push(r);
      cached, stage, steps := true, Registering(r), steps + [RegisterStarted];
      assert Now() ==
        m.(tasks := m.tasks + {r}, cached := true, stage := Registering(r), steps := s.steps + [RegisterStarted]);
      Aside(l, n, Mind());
      StatusesBeside(m.tasks, r);
      if !was.lock.value.waited {
        SpokenBeside(l, l, n, Mind(), p.plan.key in was.busy, was.tasks, m.tasks, tasks, p.plan.key,
                     [Local(ProgressEvent.Cached(InstallShared, p.plan.key, None))]);
      }
    }

    method StartInstalling(ghost s: State, ghost e: Effect, p: Prepared)
      requires Inv(names, s) && e == AcquireInstall(p) && e in s.tasks
      requires lock.Some? && Now() == s.(tasks := s.tasks - {e}, prepared := Some(p), lock := lock) && Serial(Now())
      modifies this
      ensures Valid() && Keeps(s, Now())
      ensures !cached && prepared == old(prepared) && lock == old(lock) && downloads == FreshTracker(p.plan.items)
      ensures steps == old(steps) && OnlyFails(old(Mind()), Mind())
      ensures planFile == old(planFile) && temporary == old(temporary)
      ensures Soft(old(Mind()), Mind()) && (AtEase(old(Mind())) ==> Ready(progress, waiting, p.plan.key))
      ensures var key := p.plan.key;
        Spoken(old(Mind()), Mind(), key in old(busy), old(tasks), tasks, key,
          [Local(AttemptStarted(InstallShared, key, None))])
    {
      hide Inv, Safe, Serial, Murmur, FreshTracker, Keeps, AtEase, KeepsReady, Ready, Noted, Soft, Done,
           Spoken, Statuses;
      ghost var was, l := Now(), Mind();
      Enqueue(p.plan.key, AttemptStarted(InstallShared, p.plan.key, None));
      ghost var m, n := Now(), Mind();
      MurmurTasks(was, m);
      NoneDownloading(names, s, e, was, m);
      downloads := Tracker(KeysOf(p.plan.items), map[], false);
      StartDownloads(p.plan.items);
      Push(PrepareInstall(p.plan.key));
      cached, stage := false, Installing;
      Installs(names, s, e, p, m, Now());
      Aside(l, n, Mind());
      StartNoted(l, Mind(), p.plan.key, InstallShared);
      StatusesSame(m.tasks, tasks);
      SpokenBeside(l, l, n, Mind(), p.plan.key in was.busy, was.tasks, m.tasks, tasks, p.plan.key,
                   [Local(AttemptStarted(InstallShared, p.plan.key, None))]);
    }

    method OnInstallPrepared(ghost s: State, ghost e: Effect, made: Outcome<Path>)
      requires Inv(names, s) && e in s.tasks && e.PrepareInstall? && Now() == s.(tasks := s.tasks - {e})
      modifies this
      ensures Valid() && Keeps(s, Now()) && Follows(old(Mind()), Mind(), InstallPrepared(made))
      ensures Answers(old(Mind()), Mind(), old(busy), old(tasks), tasks, InstallPrepared(made))
    {
      hide Inv, Safe, Serial, Murmur, Almost, Follows, Done, Spoken, FailureSaid;
      InvSafe(names, s);
      DropSafe(names, s, e);
      ghost var m := Mind();
      if made.Err? {
        ghost var t := Now();
        Fail(made.error);
        MurmurTasks(t, Now());
        FollowsFail(m, Mind(), InstallPrepared(made), made.error);
        FailureAnswers(m, m, Mind(), old(busy), old(tasks), tasks, InstallPrepared(made));
      } else if result.None? {
        GotTemporary(names, s, e, made.value, s.(tasks := s.tasks - {e}, temporary := Some(made.value)));
        temporary := Some(made.value);
        assert Now() == s.(tasks := s.tasks - {e}, temporary := Some(made.value));
        AdvanceItems();
        FollowsAside(m, Mind(), InstallPrepared(made));
      } else {
        MurmurRefl(Now());
        MurmurInv(names, Now(), Now());
        FollowsAside(m, Mind(), InstallPrepared(made));
      }
    }

    method OnDownloadFinished(ghost s: State, ghost e: Effect, key: Key, fetched: Outcome<Path>)
      requires Inv(names, s) && e in s.tasks && e.Download? && e.item.key == key && Now() == s.(tasks := s.tasks - {e})
      modifies this
      ensures Valid() && Keeps(s, Now()) && Follows(old(Mind()), Mind(), DownloadFinished(key, fetched))
      ensures Answers(old(Mind()), Mind(), old(busy), old(tasks), tasks, DownloadFinished(key, fetched))
      ensures downloads == Finish(s.downloads, key, fetched)
    {
      hide Inv, Safe, Serial, Murmur, Almost, Live, Follows, Done, Spoken, FailureSaid;
      ghost var m := Mind();
      if result.None? { DownloadPending(names, s, e); }
      FinishSafe(names, s, e, fetched, s.(tasks := s.tasks - {e}, downloads := Finish(s.downloads, key, fetched)));
      if downloads.failed || key !in downloads.pending {
        assert Now() == s.(tasks := s.tasks - {e}, downloads := Finish(s.downloads, key, fetched));
        NotFailed(names, s);
        MurmurRefl(Now());
        MurmurInv(names, Now(), Now());
        FollowsAside(m, Mind(), DownloadFinished(key, fetched));
        return;
      }
      if fetched.Ok? {
        DownloadArrived(s, e, key, fetched.value);
        FollowsAside(m, Mind(), DownloadFinished(key, fetched));
      } else {
        downloads := downloads.(pending := downloads.pending - {key}, failed := true);
        ghost var l := Mind();
        Fail(fetched.error);
        FailureAnswers(m, l, Mind(), old(busy), old(tasks), tasks, DownloadFinished(key, fetched));
        MurmurTasks(s.(tasks := s.tasks - {e}, downloads := Finish(s.downloads, key, fetched)), Now());
        FollowsFail(m, Mind(), DownloadFinished(key, fetched), fetched.error);
      }
    }

    method DownloadArrived(ghost s: State, ghost e: Effect, key: Key, data: Path)
      requires Inv(names, s) && e in s.tasks && e.Download? && e.item.key == key && Now() == s.(tasks := s.tasks - {e})
      requires !downloads.failed && key in downloads.pending
      modifies this`downloads, this`publishing, this`itemRunning, this`tasks, this`stage, this`steps
      ensures Valid() && Keeps(s, Now()) && downloads == Finish(s.downloads, key, Ok(data))
      ensures Done(steps) == Done(old(steps))
    {
      hide Inv, Safe, Serial, Almost, Live, Done;
      FinishSafe(names, s, e, Ok(data), s.(tasks := s.tasks - {e}, downloads := Finish(s.downloads, key, Ok(data))));
      downloads := Tracker(downloads.pending - {key}, downloads.completed[key := data], downloads.failed);
      AdvanceItems();
    }

    method OnItemFinished(ghost s: State, ghost e: Effect, index: nat, executed: Outcome<()>)
      requires Inv(names, s) && e in s.tasks && e.ExecuteItem? && e.index == index
      requires Now() == s.(tasks := s.tasks - {e})
      modifies this
      ensures Valid() && Keeps(s, Now()) && Follows(old(Mind()), Mind(), ItemFinished(index, executed))
      ensures Answers(old(Mind()), Mind(), old(busy), old(tasks), tasks, ItemFinished(index, executed))
    {
      hide Inv, Safe, Serial, Murmur, Almost, Live, Follows, Done, Spoken, FailureSaid;
      ghost var was := Mind();
      if result.None? { ItemRunning(names, s, e); }
      if result.Some? || !itemRunning || index != nextItem {
        ItemRunning(names, s, e);
        InvSafe(names, s);
        DropSafe(names, s, e);
        MurmurRefl(Now());
        MurmurInv(names, Now(), Now());
        FollowsAside(was, Mind(), ItemFinished(index, executed));
        return;
      }
      itemRunning := false;
      if executed.Ok? {
        ItemSucceeded(s, e, index);
        FollowsAside(was, Mind(), ItemFinished(index, executed));
      } else {
        ItemFailed(s, e, executed.error);
        FollowsFail(was, Mind(), ItemFinished(index, executed), executed.error);
        FailureAnswers(was, was, Mind(), old(busy), old(tasks), tasks, ItemFinished(index, executed));
      }
    }

    method ItemSucceeded(ghost s: State, ghost e: Effect, index: nat)
      requires Inv(names, s) && e in s.tasks && e.ExecuteItem? && e.index == index == nextItem && s.result.None?
      requires Now() == s.(tasks := s.tasks - {e}, itemRunning := false)
      modifies this`nextItem, this`publishing, this`itemRunning, this`tasks, this`stage, this`steps
      ensures Valid() && Keeps(s, Now()) && Done(steps) == Done(old(steps)) + [ItemDone(index)]
    {
      hide Inv, Safe, Serial, Almost, Live, Done;
      nextItem := nextItem + 1;
      DoneAppend(steps, ItemDone(index));
      steps := steps + [ItemDone(index)];
      ItemDoneSafe(names, s, e, Now());
      AdvanceItems();
    }

    method ItemFailed(ghost s: State, ghost e: Effect, error: string)
      requires Inv(names, s) && e in s.tasks && e.ExecuteItem? && s.result.None?
      requires Now() == s.(tasks := s.tasks - {e}, itemRunning := false)
      modifies this
      ensures Valid() && Keeps(s, Now())
      ensures Mind() == old(Mind()).(result := Some(Err(error)), progress := progress, waiting := waiting)
      ensures FailureSaid(old(Mind()), Mind(), old(busy), old(tasks), tasks)
    {
      hide Inv, Safe, Serial, Murmur, Almost, Live, FailureSaid;
      ghost var t := Now();
      InvSafe(names, s);
      SafeSerial(names, s);
      FinishSerial(s, e, t);
      FailCreate(error);
      ghost var m := Now();
      stage := Stopped;
      ItemFailedInv(names, s, e, m, Now());
      MurmurTasks(t, m);
    }

    method OnPublished(ghost s: State, ghost e: Effect, root: Outcome<Path>)
      requires Inv(names, s) && e in s.tasks && e.PublishInstall? && (root.Ok? ==> root.value == e.root)
      requires Now() == s.(tasks := s.tasks - {e})
      modifies this
      ensures Valid() && Keeps(s, Now()) && Follows(old(Mind()), Mind(), Published(root))
      ensures Answers(old(Mind()), Mind(), old(busy), old(tasks), tasks, Published(root))
    {
      hide Inv, Safe, Serial, Murmur, Almost, Live, Follows, Done, Spoken, FailureSaid;
      InvSafe(names, s);
      DropSafe(names, s, e);
      PublishingFields(names, s, e);
      ghost var start, before := Now(), Mind();
      if root.Err? {
        Fail(root.error);
        MurmurTasks(start, Now());
        FollowsFail(before, Mind(), Published(root), root.error);
        FailureAnswers(before, before, Mind(), old(busy), old(tasks), tasks, Published(root));
        return;
      }
      if prepared.Some? && lock.Some? {
        RegisterPublished(s, e, root.value);
        DonePublished(before.steps);
        FollowsNoted(before, Mind(), Published(root), Completion(prepared.value.plan.key, None));
      }
    }

    /** Publication is reported, and the registration starts. */
    method RegisterPublished(ghost s: State, ghost e: Effect, root: Path)
      requires Inv(names, s) && e in s.tasks && e.PublishInstall? && root == e.root
      requires Now() == s.(tasks := s.tasks - {e}) && Safe(names, Now()) && (result.None? ==> s.result.None?)
      requires prepared.Some? && lock.Some? && planFile.Some? && s.stage == Publishing(e)
      modifies this
      ensures Valid() && Keeps(s, Now())
      ensures prepared == old(prepared) && lock == old(lock) && cached == old(cached) && downloads == old(downloads)
      ensures steps == old(steps) + [PublishDone, RegisterStarted] && OnlyFails(old(Mind()), Mind())
      ensures planFile == old(planFile) && temporary == old(temporary)
      ensures var key := old(prepared).value.plan.key; Noted(old(Mind()), Mind(), key, Local(Completion(key, None)))
      ensures var key := old(prepared).value.plan.key;
        Spoken(old(Mind()), Mind(), key in old(busy), old(tasks), tasks, key, [Local(Completion(key, None))])
    {
      hide Inv, Safe, Serial, Murmur, Almost, Live, Noted, Keeps, Spoken, Statuses;
      ghost var was, l := Now(), Mind();
      SafeSerial(names, was);
      Enqueue(prepared.value.plan.key, Completion(prepared.value.plan.key, None));
      ghost var m, n := Now(), Mind();
      MurmurTasks(was, m);
      var r := Register(planFile.value, prepared.value, root);
      ghost var t := s.(tasks := s.tasks - {e} + {r}, stage := Registering(r),
                        steps := s.steps + [PublishDone, RegisterStarted]);
      PublishedSafe(names, s, e, r, t);
      Push(r);
      stage, steps := Registering(r), steps + [PublishDone, RegisterStarted];
      AlongsideMurmur(was, m, t, Now(), r);
      InvSafe(names, t);
      MurmurNone(t, Now());
      MurmurInv(names, t, Now());
      GoesOn(s, t, Now());
      Aside(l, n, Mind());
      CompletionSpoken(l, n, Mind(), was, m.tasks, r);
    }

    method OnRegistered(ghost s: State, ghost e: Effect, root: Outcome<Path>)
      requires Inv(names, s) && e in s.tasks && e.Register? && (root.Ok? ==> root.value == e.root)
      requires Now() == s.(tasks := s.tasks - {e})
      modifies this
      ensures Valid() && Keeps(s, Now()) && Follows(old(Mind()), Mind(), Registered(root))
      ensures old(result).None? ==> result == Some(root)
    {
      hide Inv, Safe, Serial, Murmur, Almost, Live, Follows, Done;
      DoneAppend(steps, RegisterDone);
      ghost var before := Mind();
      if root.Ok? {
        RootRegistered(s, e, root.value);
      } else {
        InvSafe(names, s);
        DropSafe(names, s, e);
        ghost var was := Now();
        if result.None? { result := Some(root); }
        AnyError(was, Now());
        MurmurInv(names, was, Now());
      }
      FollowsAside(before, Mind(), Registered(root));
    }

    method RootRegistered(ghost s: State, ghost e: Effect, root: Path)
      requires Inv(names, s) && e in s.tasks && e.Register? && root == e.root && Now() == s.(tasks := s.tasks - {e})
      modifies this`result, this`stage, this`steps
      ensures Valid() && Keeps(s, Now()) && steps == old(steps) + [RegisterDone]
      ensures result == if old(result).None? then Some(Ok(root)) else old(result)
    {
      hide Inv;
      ghost var t := s.(tasks := s.tasks - {e}, stage := Finished, steps := s.steps + [RegisterDone],
                        result := if s.result.None? then Some(Ok(root)) else s.result);
      RegisteredSafe(names, s, e, root, t);
      if result.None? { result := Some(Ok(root)); }
      stage, steps := Finished, steps + [RegisterDone];
      assert Now() == t;
    }

    /** A status effect ended: its own failures first, then whatever waits. */
    method OnStatusDone(ghost s: State, ghost e: Effect, target: Key, events: seq<ProgressEvent>)
      requires Inv(names, s) && e in s.tasks && IsStatus(e) && e.target == target && Now() == s.(tasks := s.tasks - {e})
      modifies this
      ensures Valid() && Keeps(s, Now()) && Follows(old(Mind()), Mind(), ProgressApplied(target, events))
      ensures events == [] ==> Follows(old(Mind()), Mind(), StatusForwarded(target))
      ensures Answers(old(Mind()), Mind(), s.busy - {target}, s.tasks - {e}, tasks, ProgressApplied(target, events))
      ensures events == [] ==>
        Answers(old(Mind()), Mind(), s.busy - {target}, s.tasks - {e}, tasks, StatusForwarded(target))
    {
      hide Inv, Safe, Serial, Murmur, Keeps, ReduceProgress, Follows, Soft, Spoken;
      ghost var m := Mind();
      busy := busy - {target};
      ghost var t := Now();
      StatusEnded(names, s, e, t);
      SafeSerial(names, t);
      ApplyEvents(target, events);
      MurmurTasks(t, Now());
      MurmurNone(t, Now());
      MurmurInv(names, t, Now());
      MurmurKeeps(t, Now());
      KeepsTrans(s, t, Now());
      FollowsStatus(m, Mind(), ProgressApplied(target, events));
      if events == [] { FollowsStatus(m, Mind(), StatusForwarded(target)); }
    }

    /** Failures of the status effect itself, then whatever waits for its target. */
    method ApplyEvents(target: Key, events: seq<ProgressEvent>)
      requires Serial(Now())
      modifies this
      ensures Murmur(old(Now()), Now()) && (events == [] ==> Soft(old(Mind()), Mind()))
      ensures events == [] && old(progress).failed.None? ==>
        Spoken(old(Mind()), Mind(), target in old(busy), old(tasks), tasks, target, [])
    {
      hide Serial, Murmur, ReduceProgress, AtEase, KeepsReady, Spoken;
      ghost var t, m := Now(), Mind();
      for i := 0 to |events|
        invariant Now() == t && waiting == m.waiting && (i == 0 ==> progress == m.progress)
      {
        progress := ReduceProgress(progress, events[i]).0;
      }
      MurmurRefl(t);
      if progress.failed.Some? {
        if events == [] { NotAtEase(m); }
        var error := progress.failed.value;
        progress := progress.(failed := None);
        FailCreate(error);
      }
      ghost var u := Now();
      MurmurSerial(t, u);
      Pump(target);
      MurmurTrans(t, u, Now());
    }

    // ----- the run loop (run_create) ----------------------------------------------

    /** An effect ends in some way; the reducer takes its event. */
    method Deliver(e: Effect, v: Event)
      requires Valid() && e in tasks && Ends(e, v)
      modifies this
      ensures Valid() && Keeps(old(Now()), Now()) && Follows(old(Mind()), Mind(), v)
      ensures v.Registered? && old(result).None? ==> result == Some(v.root)
      ensures var ended := if v.StatusForwarded? || v.ProgressApplied? then {v.target} else {};
        Answers(old(Mind()), Mind(), old(busy) - ended, old(tasks) - {e}, tasks, v)
    {
      hide Inv, Safe, Serial, Murmur, Keeps, Follows, Answers, Verdict, Done;
      ghost var s, m := Now(), Mind();
      ghost var none: set<Key> := {};
      assert busy - none == busy;
      InvSafe(names, s);
      DropSafe(names, s, e);
      tasks := tasks - {e};
      assert Now() == s.(tasks := s.tasks - {e});
      ghost var t := Now();
      DropKeeps(s, e);
      match v {
        case PlanPrepared(_) => OnStarted(s, e, t, v);
        case RequestLockAcquired(_, _) => OnStarted(s, e, t, v);
        case RequestFilePrepared(_) => OnStarted(s, e, t, v);
        case InstallAcquired(p, held, hit) => OnInstallAcquired(s, e, p, held, hit);
        case DownloadFinished(key, fetched) => OnDownloadFinished(s, e, key, fetched);
        case InstallPrepared(made) => OnInstallPrepared(s, e, made);
        case ItemFinished(index, executed) => OnItemFinished(s, e, index, executed);
        case Published(root) => OnPublished(s, e, root);
        case Registered(root) =>
          OnRegistered(s, e, root);
          RegisteredSays(m, Mind(), v, old(busy), t.tasks, tasks);
        case ProgressApplied(target, events) => OnStatusDone(s, e, target, events);
        case StatusForwarded(target) => OnStatusDone(s, e, target, []);
        case EffectFailed(error) => FailedEvent(s, t, m, v, error);
      }
    }

    /** A starting effect ended: the next one starts, or the run fails. */
    method OnStarted(ghost s: State, ghost e: Effect, ghost t: State, v: Event)
      requires Inv(names, s) && e in s.tasks && Ends(e, v)
      requires v.PlanPrepared? || v.RequestLockAcquired? || v.RequestFilePrepared?
      requires Now() == t == s.(tasks := s.tasks - {e}) && Safe(names, t) && Keeps(s, t)
      modifies this
      ensures Valid() && Keeps(s, Now()) && Follows(old(Mind()), Mind(), v)
      ensures Answers(old(Mind()), Mind(), s.busy, t.tasks, tasks, v)
    {
      hide Inv, Safe, Serial, Murmur, Keeps, Follows, Answers, Verdict, Done;
      ghost var m := Mind();
      match v {
        case PlanPrepared(Ok(p)) =>
          PlanFileKnown(names, s, e);
          OnStarting(s, e, AcquireInstall(p), planFile);
          FollowsSame(m, Mind(), v, s.busy, t.tasks, tasks);
        case PlanPrepared(Err(error)) => FailedEvent(s, t, m, v, error);
        case RequestLockAcquired(home, plan) =>
          OnStarting(s, e, PersistRequest(home, plan), planFile);
          FollowsSame(m, Mind(), v, s.busy, t.tasks, tasks);
        case RequestFilePrepared(Ok(written)) =>
          OnStarting(s, e, AcquireInstall(written.1), Some(written.0));
          FollowsSame(m, Mind(), v, s.busy, t.tasks, tasks);
        case RequestFilePrepared(Err(error)) => FailedEvent(s, t, m, v, error);
      }
    }

    /** An event that is a failure and nothing else. */
    method FailedEvent(ghost s: State, ghost t: State, ghost m: Memory, ghost v: Event, error: string)
      requires Safe(names, t) && Now() == t && Mind() == m && Keeps(s, t)
      requires v == PlanPrepared(Err(error)) || v == RequestFilePrepared(Err(error)) || v == EffectFailed(error)
      modifies this
      ensures Valid() && Keeps(s, Now()) && Follows(m, Mind(), v) && Answers(m, Mind(), t.busy, t.tasks, tasks, v)
    {
      hide Inv, Safe, Serial, Murmur, Keeps, Follows, Spoken, FailureSaid;
      Fail(error);
      KeepsTrans(s, t, Now());
      MurmurTasks(t, Now());
      FollowsFail(m, Mind(), v, error);
      FailureAnswers(m, m, Mind(), t.busy, t.tasks, tasks, v);
    }

    /** A running effect reports progress, or an observed status arrives. */
    method Notify(v: Event)
      requires Valid() && (v.ProgressMade? || v.StatusObserved?)
      modifies this
      ensures Valid() && Keeps(old(Now()), Now()) && Heard(old(Mind()), Mind(), v)
      ensures v.ProgressMade? ==>
        Spoken(old(Mind()), Mind(), v.target in old(busy), old(tasks), tasks, v.target, [Local(v.event)])
      ensures v.StatusObserved? ==>
        Spoken(old(Mind()), Mind(), v.status.key in old(busy), old(tasks), tasks, v.status.key, [Observed(v.status)])
    {
      hide Inv, Safe, Serial, Murmur, Keeps, Heard, Noted, Soft, Spoken;
      match v
      case ProgressMade(target, event) => Report(target, event);
      case StatusObserved(status) =>
        ghost var s, m := Now(), Mind();
        InvSafe(names, s);
        SafeSerial(names, s);
        waiting := waiting[status.key := Queue(status.key) + [Observed(status)]];
        ghost var l := Mind();
        Pump(status.key);
        NotedThen(m, l, Mind(), status.key, Observed(status));
        SpokenMore(m, l, Mind(), status.key in old(busy), old(tasks), tasks, status.key, Observed(status));
        MurmurTasks(s, Now());
        HeardNoted(m, Mind(), v);
        MurmurNone(s, Now());
        MurmurInv(names, s, Now());
        MurmurKeeps(s, Now());
    }

    constructor (names: Key -> string, initial: Event)
      requires initial.Submitted? || initial.InstallSubmitted?
      ensures Valid() && this.names == names && result == None && steps == [] && prepared == None && lock == None
      ensures downloads == Tracker({}, map[], false) && progress == Progress(map[], None) && waiting == map[]
    {
      this.names := names;
      planFile := if initial.Submitted? then Some(initial.planFile) else None;
      var first := if initial.Submitted? then Prepare(initial.planFile)
        else AcquireRequestLock(initial.home, initial.submitted);
      tasks := {first};
      stage := Starting(first);
      prepared, lock, temporary, result := None, None, None, None;
      downloads := Tracker({}, map[], false);
      nextItem, itemRunning, publishing := 0, false, false;
      progress := Progress(map[], None);
      busy, waiting := {}, map[];
      cached, steps := false, [];
    }
  }

  /** One thing that happens while a create runs. */
  datatype Occurrence = Ended(e: Effect, v: Event) | Told(v: Event)

  /** Every run: effects end in any order and in any way, progress arrives at any
      time; `log` is what the run took in. Once nothing runs there is a result. It
      is a success only if the log says that the plan was carried out; and while
      progress is in order it is what the first event that decides anything says. */
  method RunCreate(names: Key -> string, initial: Event, script: seq<Occurrence>)
    returns (run: Create, log: seq<Event>)
    requires initial.Submitted? || initial.InstallSubmitted?
    ensures run.Valid() && run.names == names
    ensures run.tasks == {} ==> run.result.Some?
    ensures run.prepared.Some? ==> run.steps <= Schedule(|run.prepared.value.plan.items|, run.cached)
    ensures Picked(log, seq(|script|, i requires 0 <= i < |script| => script[i].v))
    ensures InOrder(log) ==> run.result == Decided(log)
    ensures run.result == Decided(log) || (run.result.Some? && run.result.value.Err?)
    ensures run.result.Some? && run.result.value.Ok? ==> exists a ::
      a in log && a.InstallAcquired? && CarriedOut(names, log, a, run.result.value.value)
    ensures forall a, b :: a in log && b in log && a.InstallAcquired? && b.InstallAcquired? ==>
      a.prepared == b.prepared && a.cached == b.cached
  {
    hide Inv, Schedule, InstallRoot, Keeps, Follows, Heard, Foresees, Remembers, Picked, Decided, InOrder, CarriedOut;
    run := new Create(names, initial);
    log := [];
    Unknown(run.Mind());
    ghost var told: seq<Event> := [];
    for i := 0 to |script|
      invariant run.Valid() && run.names == names && fresh(run)
      invariant Remembers(run.Mind(), log) && Foresees(run.Mind(), log)
      invariant |told| == i && Picked(log, told) && forall k :: 0 <= k < i ==> told[k] == script[k].v
    {
      ghost var s, m := run.Now(), run.Mind();
      PickedSkip(log, told, script[i].v);
      told := told + [script[i].v];
      match script[i] {
        case Ended(e, v) =>
          if e in run.tasks && Ends(e, v) {
            EndsFits(names, s, e, v);
            run.Deliver(e, v);
            DeliveredLog(m, run.Mind(), log, v);
            log := log + [v];
          }
        case Told(v) =>
          if v.ProgressMade? || v.StatusObserved? {
            run.Notify(v);
            HeardLog(m, run.Mind(), log, v);
            log := log + [v];
          }
      }
    }
    assert told == seq(|script|, i requires 0 <= i < |script| => script[i].v);
    ghost var s := run.Now();
    if run.tasks == {} { NoDeadlock(names, s); }
    if run.prepared.Some? { OnSchedule(names, s); }
    WholeLog(names, s, run.Mind(), log);
  }
}
