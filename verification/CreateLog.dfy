/** What a create run was told, read as events alone: which event decides the
    result, which were successes worth recording, and when progress cannot fail. */
module CreateLog {
  import opened CreateState
  import opened Wrappers

  // ----- what an event decides ------------------------------------------------

  /** The result that an event brings about in a run that has none: its failure,
      or what the registration answers. */
  function Verdict(v: Event): Option<Outcome<Path>> {
    match v
    case PlanPrepared(Err(error)) => Some(Err(error))
    case RequestFilePrepared(Err(error)) => Some(Err(error))
    case DownloadFinished(_, Err(error)) => Some(Err(error))
    case InstallPrepared(Err(error)) => Some(Err(error))
    case ItemFinished(_, Err(error)) => Some(Err(error))
    case Published(Err(error)) => Some(Err(error))
    case EffectFailed(error) => Some(Err(error))
    case Registered(root) => Some(root)
    case _ => None
  }

  /** The first event that decides anything. */
  function Decided(log: seq<Event>): Option<Outcome<Path>> {
    if log == [] then None
    else if Decided(log[..|log| - 1]).Some? then Decided(log[..|log| - 1])
    else Verdict(log[|log| - 1])
  }

  // ----- what was done ----------------------------------------------------------

  /** The success that an event reports. */
  function Reports(v: Event): seq<Moment> {
    match v
    case ItemFinished(index, Ok(_)) => [ItemDone(index)]
    case Published(Ok(_)) => [PublishDone]
    case Registered(Ok(_)) => [RegisterDone]
    case _ => []
  }

  function Reported(log: seq<Event>): seq<Moment> {
    if log == [] then [] else Reported(log[..|log| - 1]) + Reports(log[|log| - 1])
  }

  predicate IsDone(m: Moment) {
    m.ItemDone? || m.PublishDone? || m.RegisterDone?
  }

  /** The successes in a history. */
  function Done(steps: seq<Moment>): seq<Moment> {
    if steps == [] then []
    else Done(steps[..|steps| - 1]) + if IsDone(steps[|steps| - 1]) then [steps[|steps| - 1]] else []
  }

  lemma DoneAppend(steps: seq<Moment>, m: Moment)
    ensures Done(steps + [m]) == Done(steps) + if IsDone(m) then [m] else []
  {
    assert (steps + [m])[..|steps|] == steps;
  }

  lemma {:induction false} DoneJoin(a: seq<Moment>, b: seq<Moment>)
    ensures Done(a + b) == Done(a) + Done(b)
    decreases |b|
  {
    if b == [] {
      assert a + b == a;
    } else {
      var n := |b| - 1;
      assert a + b == (a + b[..n]) + [b[n]];
      DoneAppend(a + b[..n], b[n]);
      DoneJoin(a, b[..n]);
    }
  }

  /** `s` is left when some elements of `t` are dropped. */
  predicate Picked<T(==)>(s: seq<T>, t: seq<T>)
    decreases |t|
  {
    if t == [] then s == []
    else
      || Picked(s, t[..|t| - 1])
      || (s != [] && s[|s| - 1] == t[|t| - 1] && Picked(s[..|s| - 1], t[..|t| - 1]))
  }

  lemma PickedSkip<T>(s: seq<T>, t: seq<T>, x: T)
    requires Picked(s, t)
    ensures Picked(s, t + [x]) && Picked(s + [x], t + [x])
  {
    assert (t + [x])[..|t|] == t && (s + [x])[..|s|] == s;
  }

  /** Items one after the other in plan order, then the publication, then the
      registration; for a cached installation the registration alone. */
  function AllDone(n: nat, cached: bool): seq<Moment> {
    (if cached then [] else ItemDones(n) + [PublishDone]) + [RegisterDone]
  }

  function ItemDones(n: nat): (s: seq<Moment>)
    ensures |s| == n && forall i :: 0 <= i < n ==> s[i] == ItemDone(i)
  {
    seq(n, i requires 0 <= i < n => ItemDone(i))
  }

  lemma {:induction false} ItemsDone(n: nat)
    ensures Done(ItemMoments(n)) == ItemDones(n)
  {
    if n > 0 {
      ItemsDone(n - 1);
      var front := ItemMoments(n - 1);
      DoneAppend(front, ItemStarted(n - 1));
      DoneAppend(front + [ItemStarted(n - 1)], ItemDone(n - 1));
      assert ItemMoments(n) == front + [ItemStarted(n - 1)] + [ItemDone(n - 1)];
      assert ItemDones(n) == ItemDones(n - 1) + [ItemDone(n - 1)];
    }
  }

  lemma ScheduleDone(n: nat, cached: bool)
    ensures Done(Schedule(n, cached)) == AllDone(n, cached)
  {
    hide ItemMoments;
    ItemsDone(n);
    var tail := [RegisterStarted, RegisterDone];
    DoneTail();
    if cached {
      assert [] + tail == tail;
    } else {
      DoneJoin(ItemMoments(n), [PublishStarted, PublishDone]);
      DoneJoin(ItemMoments(n) + [PublishStarted, PublishDone], tail);
    }
  }

  lemma DoneTail()
    ensures Done([RegisterStarted, RegisterDone]) == [RegisterDone]
    ensures Done([PublishStarted, PublishDone]) == [PublishDone]
  {
    DoneAppend([], RegisterStarted);
    DoneAppend([RegisterStarted], RegisterDone);
    DoneAppend([], PublishStarted);
    DoneAppend([PublishStarted], PublishDone);
    assert [] + [RegisterStarted] == [RegisterStarted] && [] + [PublishStarted] == [PublishStarted];
    assert [RegisterStarted] + [RegisterDone] == [RegisterStarted, RegisterDone];
    assert [PublishStarted] + [PublishDone] == [PublishStarted, PublishDone];
  }

  /** Only an installation that is not cached makes these happen. */
  predicate OfInstalling(v: Event) {
    v.DownloadFinished? || v.InstallPrepared? || v.ItemFinished? || v.Published?
  }

  // ----- when progress cannot fail ------------------------------------------------

  /** Queued progress starts the status of its key. */
  predicate Starts(key: Key, p: Pending) {
    match p
    case Observed(status) => status.key == key
    case Local(event) => (event.Waited? || event.AttemptStarted? || event.Cached?) && event.key == key
  }

  /** Reducing it does not fail, where `known` says that the key has a status. */
  predicate Mild(key: Key, p: Pending, known: bool) {
    match p
    case Observed(_) => true
    case Local(event) =>
      match event
      case EmitFailed(_) => false
      case Waited(_, _) => true
      case AttemptStarted(_, _, _) => true
      case Cached(_, _, _) => true
      case _ => known && event.key == key
  }

  /** Whatever waits for a target is reduced without a failure. */
  predicate Calm(key: Key, waiting: seq<Pending>, known: bool)
    decreases |waiting|
  {
    waiting == [] || (Mild(key, waiting[0], known) && Calm(key, waiting[1..], known || Starts(key, waiting[0])))
  }

  /** The key has a status, or will have one once everything that waits is reduced. */
  predicate Known(key: Key, waiting: seq<Pending>, known: bool) {
    known || exists i :: 0 <= i < |waiting| && Starts(key, waiting[i])
  }

  lemma {:induction false} CalmAppend(key: Key, waiting: seq<Pending>, known: bool, p: Pending)
    requires Calm(key, waiting, known) && Mild(key, p, Known(key, waiting, known))
    ensures Calm(key, waiting + [p], known)
    ensures Known(key, waiting, known) || Starts(key, p) ==> Known(key, waiting + [p], known)
    decreases |waiting|
  {
    var all := waiting + [p];
    if waiting == [] {
      assert all[1..] == [];
    } else {
      var now := known || Starts(key, waiting[0]);
      assert all[1..] == waiting[1..] + [p];
      KnownRest(key, waiting, known);
      CalmAppend(key, waiting[1..], now, p);
    }
    if i :| 0 <= i < |waiting| && Starts(key, waiting[i]) {
      assert Starts(key, all[i]);
    }
    assert all[|waiting|] == p;
  }

  lemma KnownRest(key: Key, waiting: seq<Pending>, known: bool)
    requires waiting != []
    ensures Known(key, waiting, known) <==> Known(key, waiting[1..], known || Starts(key, waiting[0]))
  {
    var rest := waiting[1..];
    if i :| 0 <= i < |waiting| && Starts(key, waiting[i]) {
      if i > 0 { assert rest[i - 1] == waiting[i]; }
    }
    if i :| 0 <= i < |rest| && Starts(key, rest[i]) {
      assert waiting[i + 1] == rest[i];
    }
  }

  function QueueOf(waiting: map<Key, seq<Pending>>, target: Key): seq<Pending> {
    if target in waiting then waiting[target] else []
  }

  /** Nothing that waits will fail. */
  ghost predicate AllCalm(p: Progress, waiting: map<Key, seq<Pending>>) {
    p.failed.None? && forall k :: Calm(k, QueueOf(waiting, k), k in p.statuses)
  }

  ghost predicate Ready(p: Progress, waiting: map<Key, seq<Pending>>, key: Key) {
    Known(key, QueueOf(waiting, key), key in p.statuses)
  }

  lemma {:induction false} CalmMore(key: Key, waiting: seq<Pending>)
    requires Calm(key, waiting, false)
    ensures Calm(key, waiting, true)
    decreases |waiting|
  {
    if waiting != [] && !Starts(key, waiting[0]) {
      CalmMore(key, waiting[1..]);
    }
  }

  /** Handing on the first thing that waits for a target. */
  lemma HandedOn(p: Progress, next: Progress, waiting: map<Key, seq<Pending>>, target: Key)
    requires AllCalm(p, waiting) && QueueOf(waiting, target) != [] && next.failed.None?
    requires p.statuses.Keys <= next.statuses.Keys
    requires Starts(target, QueueOf(waiting, target)[0]) ==> target in next.statuses
    ensures var rest := waiting[target := QueueOf(waiting, target)[1..]];
      AllCalm(next, rest) && forall k :: Ready(p, waiting, k) ==> Ready(next, rest, k)
  {
    hide Calm, Known, Mild, Starts;
    var rest := waiting[target := QueueOf(waiting, target)[1..]];
    forall k
      ensures Calm(k, QueueOf(rest, k), k in next.statuses)
      ensures Ready(p, waiting, k) ==> Ready(next, rest, k)
    {
      HandedOnOne(p, next, waiting, target, k);
    }
  }

  lemma HandedOnOne(p: Progress, next: Progress, waiting: map<Key, seq<Pending>>, target: Key, k: Key)
    requires AllCalm(p, waiting) && QueueOf(waiting, target) != [] && p.statuses.Keys <= next.statuses.Keys
    requires Starts(target, QueueOf(waiting, target)[0]) ==> target in next.statuses
    ensures var rest := waiting[target := QueueOf(waiting, target)[1..]];
      Calm(k, QueueOf(rest, k), k in next.statuses) && (Ready(p, waiting, k) ==> Ready(next, rest, k))
  {
    hide Mild, Starts;
    var q := QueueOf(waiting, k);
    assert Calm(k, q, k in p.statuses);
    if k == target {
      KnownRest(k, q, k in p.statuses);
      if k in next.statuses && !(k in p.statuses || Starts(k, q[0])) { CalmMore(k, q[1..]); }
    } else if k in next.statuses && k !in p.statuses {
      CalmMore(k, q);
    }
  }

  /** What comes first is reduced without a failure, and handed on. */
  lemma CalmNext(p: Progress, waiting: map<Key, seq<Pending>>, target: Key)
    requires AllCalm(p, waiting) && QueueOf(waiting, target) != []
    ensures var next := QueueOf(waiting, target)[0];
      var rest := waiting[target := QueueOf(waiting, target)[1..]];
      match next
      case Local(event) =>
        var r := ReduceProgress(p, event).0;
        r.failed.None? && r.(failed := None) == r && AllCalm(r, rest)
        && forall k :: Ready(p, waiting, k) ==> Ready(r, rest, k)
      case Observed(status) =>
        var r := p.(statuses := p.statuses[status.key := status]);
        AllCalm(r, rest) && forall k :: Ready(p, waiting, k) ==> Ready(r, rest, k)
  {
    hide AllCalm, Ready, ReduceProgress;
    var next := QueueOf(waiting, target)[0];
    FirstMild(p, waiting, target);
    match next
    case Local(event) =>
      CalmReduced(p, target, event);
      HandedOn(p, ReduceProgress(p, event).0, waiting, target);
    case Observed(status) =>
      HandedOn(p, p.(statuses := p.statuses[status.key := status]), waiting, target);
  }

  lemma FirstMild(p: Progress, waiting: map<Key, seq<Pending>>, target: Key)
    requires AllCalm(p, waiting) && QueueOf(waiting, target) != []
    ensures p.failed.None? && Mild(target, QueueOf(waiting, target)[0], target in p.statuses)
  {
    assert Calm(target, QueueOf(waiting, target), target in p.statuses);
  }

  /** One more thing waits for a target. */
  lemma Queued(p: Progress, waiting: map<Key, seq<Pending>>, target: Key, more: Pending)
    requires AllCalm(p, waiting) && Mild(target, more, Ready(p, waiting, target))
    ensures var now := waiting[target := QueueOf(waiting, target) + [more]];
      && AllCalm(p, now) && (Starts(target, more) ==> Ready(p, now, target))
      && forall k :: Ready(p, waiting, k) ==> Ready(p, now, k)
  {
    hide Calm, Known, Mild, Starts;
    var now := waiting[target := QueueOf(waiting, target) + [more]];
    CalmAppend(target, QueueOf(waiting, target), target in p.statuses, more);
    forall k
      ensures Calm(k, QueueOf(now, k), k in p.statuses) && (Ready(p, waiting, k) ==> Ready(p, now, k))
    {
      assert k != target ==> QueueOf(now, k) == QueueOf(waiting, k);
    }
  }

  /** Reducing calm progress succeeds, and what was known stays known. */
  lemma CalmReduced(p: Progress, key: Key, event: ProgressEvent)
    requires p.failed.None? && Mild(key, Local(event), key in p.statuses)
    ensures var r := ReduceProgress(p, event).0; r.failed.None? && p.statuses.Keys <= r.statuses.Keys
    ensures Starts(key, Local(event)) ==> key in ReduceProgress(p, event).0.statuses
  {
  }

  // ----- how progress is handed on -----------------------------------------------------

  /** Waiting progress up to the first that has something to show: what is known then,
      what still waits, and the effect that shows it. */
  datatype Handed = Handed(progress: Progress, rest: seq<Pending>, begun: Option<Effect>, failed: bool)

  function HandOn(p: Progress, target: Key, waiting: seq<Pending>): (h: Handed)
    ensures h.begun.Some? ==> IsStatus(h.begun.value)
    decreases |waiting|
  {
    if waiting == [] then Handed(p, [], None, false)
    else
      match waiting[0]
      case Observed(status) =>
        var now := p.(statuses := p.statuses[status.key := status]);
        Handed(now, waiting[1..], Some(ForwardStatus(target, status)), false)
      case Local(event) =>
        var reduced := ReduceProgress(p, event);
        if reduced.0.failed.Some? then Handed(reduced.0, waiting[1..], None, true)
        else if reduced.1.Some? then
          Handed(reduced.0, waiting[1..], Some(EmitProgress(target, reduced.1.value)), false)
        else HandOn(reduced.0, target, waiting[1..])
  }

  lemma HandNext(p: Progress, target: Key, waiting: seq<Pending>)
    ensures waiting == [] ==> HandOn(p, target, waiting) == Handed(p, [], None, false)
    ensures waiting != [] && waiting[0].Observed? ==>
      var status := waiting[0].status;
      var now := p.(statuses := p.statuses[status.key := status]);
      HandOn(p, target, waiting) == Handed(now, waiting[1..], Some(ForwardStatus(target, status)), false)
    ensures waiting != [] && waiting[0].Local? ==>
      var reduced := ReduceProgress(p, waiting[0].event);
      HandOn(p, target, waiting) ==
        if reduced.0.failed.Some? then Handed(reduced.0, waiting[1..], None, true)
        else if reduced.1.Some? then
          Handed(reduced.0, waiting[1..], Some(EmitProgress(target, reduced.1.value)), false)
        else HandOn(reduced.0, target, waiting[1..])
  {
    hide ReduceProgress;
  }

  /** Progress that has nothing to show: its key has ended, and this does not change
      that. */
  predicate Late(p: Progress, w: Pending) {
    match w
    case Observed(_) => false
    case Local(event) =>
      && (event.Progressed? || event.Completion? || event.Failure?)
      && event.key in p.statuses && (p.statuses[event.key].phase.Completed? || p.statuses[event.key].phase.Failed?)
  }

  /** The effect shows what waited: an observed status as it is, local progress as the
      status that its key has now. */
  predicate ShownBy(target: Key, w: Pending, e: Effect, now: Progress) {
    match w
    case Observed(status) => e == ForwardStatus(target, status)
    case Local(event) =>
      && e.EmitProgress? && e.target == target && e.status.key in now.statuses
      && now.statuses[e.status.key] == e.status
  }

  /** Nothing that waits is lost: unless something fails, all of it that comes before
      the first to be shown is late, and what comes after that goes on waiting. */
  lemma {:induction false} NothingLost(p: Progress, target: Key, waiting: seq<Pending>) returns (n: nat)
    ensures var h := HandOn(p, target, waiting);
      && n <= |waiting| && (forall i :: 0 <= i < n ==> Late(p, waiting[i]))
      && (h.begun.None? && !h.failed ==> n == |waiting| && h.rest == [] && h.progress == p)
      && (h.begun.Some? ==>
            n < |waiting| && h.rest == waiting[n + 1..] && ShownBy(target, waiting[n], h.begun.value, h.progress))
    decreases |waiting|
  {
    n := 0;
    if waiting != [] && waiting[0].Local? {
      var reduced := ReduceProgress(p, waiting[0].event);
      if reduced.0.failed.None? && reduced.1.None? {
        var m := NothingLost(p, target, waiting[1..]);
        assert forall i :: 1 <= i < m + 1 ==> waiting[i] == waiting[1..][i - 1];
        assert m < |waiting| - 1 ==> waiting[1..][m + 1..] == waiting[m + 2..];
        n := m + 1;
      }
    }
  }

  /** What progress makes of statuses: of its own key alone, and a key that ended is
      opened again only by a new start. */
  lemma StatusMade(p: Progress, event: ProgressEvent)
    requires !event.EmitFailed? && ReduceProgress(p, event).0.failed.None?
    ensures var r := ReduceProgress(p, event).0;
      && event.key in r.statuses && r.statuses == p.statuses[event.key := r.statuses[event.key]]
      && r.statuses[event.key].key == (if Late(p, Local(event)) then p.statuses[event.key].key else event.key)
      && (Late(p, Local(event)) ==> r == p)
      && (!Late(p, Local(event)) ==> r.statuses[event.key].phase == PhaseOf(event))
      && (event.AttemptStarted? ==> r.statuses[event.key].tried > 0)
  {
  }

  function PhaseOf(event: ProgressEvent): Phase
    requires !event.EmitFailed?
  {
    match event
    case Waited(_, _) => Phase.Waiting
    case Resumed(_) => Running
    case AttemptStarted(_, _, _) => Running
    case Progressed(_, _) => Running
    case Completion(_, _) => Completed
    case Cached(_, _, _) => Completed
    case Failure(_) => Phase.Failed
  }

  // ----- runs whose progress is in order --------------------------------------------

  /** An event that starts the status of a key. */
  predicate StartsOf(v: Event, key: Key) {
    match v
    case StatusObserved(status) => status.key == key
    case ProgressMade(target, event) => target == key && Starts(key, Local(event))
    case _ => false
  }

  predicate StartedIn(log: seq<Event>, key: Key) {
    exists i :: 0 <= i < |log| && StartsOf(log[i], key)
  }

  /** The event reports no progress of a key without a start, and no failure. */
  predicate MildEvent(log: seq<Event>, v: Event) {
    match v
    case ProgressMade(target, event) => Mild(target, Local(event), StartedIn(log, target))
    case ProgressApplied(_, events) => events == []
    case _ => true
  }

  /** Progress is reported in order: no key goes on before it started. */
  predicate InOrder(log: seq<Event>) {
    forall i :: 0 <= i < |log| ==> MildEvent(log[..i], log[i])
  }

  lemma InOrderNext(log: seq<Event>, v: Event)
    ensures InOrder(log + [v]) <==> InOrder(log) && MildEvent(log, v)
  {
    var all := log + [v];
    assert all[..|log|] == log;
    if InOrder(all) {
      assert MildEvent(all[..|log|], all[|log|]);
      forall i | 0 <= i < |log|
        ensures MildEvent(log[..i], log[i])
      {
        assert all[..i] == log[..i] && MildEvent(all[..i], all[i]);
      }
    }
    if InOrder(log) && MildEvent(log, v) {
      forall i | 0 <= i < |all|
        ensures MildEvent(all[..i], all[i])
      {
        if i < |log| {
          assert all[..i] == log[..i] && MildEvent(log[..i], log[i]);
        }
      }
    }
  }

  lemma StartedNext(log: seq<Event>, v: Event, key: Key)
    ensures StartedIn(log + [v], key) <==> StartedIn(log, key) || StartsOf(v, key)
  {
    var all := log + [v];
    assert all[|log|] == v;
    if i :| 0 <= i < |log| && StartsOf(log[i], key) {
      assert StartsOf(all[i], key);
    }
    if i :| 0 <= i < |all| && StartsOf(all[i], key) {
      assert i < |log| ==> StartsOf(log[i], key);
    }
  }

  lemma NextLog(log: seq<Event>, v: Event)
    ensures Decided(log + [v]) == if Decided(log).Some? then Decided(log) else Verdict(v)
    ensures Reported(log + [v]) == Reported(log) + Reports(v)
  {
    assert (log + [v])[..|log|] == log;
  }

  lemma DonePublished(steps: seq<Moment>)
    ensures Done(steps + [PublishDone, RegisterStarted]) == Done(steps) + [PublishDone]
  {
    DoneAppend(steps, PublishDone);
    DoneAppend(steps + [PublishDone], RegisterStarted);
    assert steps + [PublishDone] + [RegisterStarted] == steps + [PublishDone, RegisterStarted];
  }

  // ----- what a run makes of an event -------------------------------------------------

  /** What events teach a run; the history is ghost, like whether the plan was
      found installed. */
  datatype Memory = Memory(
    result: Option<Outcome<Path>>, steps: seq<Moment>, prepared: Option<Prepared>, lock: Option<Lock>, cached: bool,
    downloads: Tracker, planFile: Option<Path>, temporary: Option<Path>, progress: Progress,
    waiting: map<Key, seq<Pending>>)

  ghost predicate AtEase(m: Memory) {
    AllCalm(m.progress, m.waiting)
  }

  ghost predicate KeepsReady(m: Memory, n: Memory) {
    forall k :: Ready(m.progress, m.waiting, k) ==> Ready(n.progress, n.waiting, k)
  }

  lemma KeepsReadyTrans(l: Memory, m: Memory, n: Memory)
    requires KeepsReady(l, m) && KeepsReady(m, n)
    ensures KeepsReady(l, n)
  {
    hide Ready;
  }

  lemma KeepsReadySame(m: Memory, n: Memory)
    requires m.progress == n.progress && m.waiting == n.waiting
    ensures KeepsReady(m, n) && (AtEase(m) <==> AtEase(n))
  {
    hide Ready, AllCalm;
  }

  /** Progress alone will not fail a run that has no result. */
  ghost predicate Tuned(m: Memory) {
    m.result.Some? || (AtEase(m) &&
      (m.prepared.Some? && !m.cached ==> Ready(m.progress, m.waiting, m.prepared.value.plan.key)))
  }

  /** If all progress was in order, it was handed on and nothing else came of it. */
  ghost predicate Soft(m: Memory, n: Memory) {
    AtEase(m) ==> AtEase(n) && n.result == m.result && KeepsReady(m, n)
  }

  /** Something waits for a target at last: while an effect of the target runs, it just
      waits; otherwise everything up to the first to be shown is handed on, and that
      is shown. */
  ghost predicate Spoken(m: Memory, n: Memory, busy: bool, was: set<Effect>, now: set<Effect>, target: Key,
                         more: seq<Pending>) {
    var waiting := QueueOf(m.waiting, target) + more;
    var h := HandOn(m.progress, target, waiting);
    if busy then Statuses(now) == Statuses(was) && n.progress == m.progress && QueueOf(n.waiting, target) == waiting
    else if h.failed then n.result.Some?
    else
      && n.progress == h.progress && QueueOf(n.waiting, target) == h.rest
      && Statuses(now) == Statuses(was) + if h.begun.Some? then {h.begun.value} else {}
  }

  /** The effects that show something. */
  function Statuses(tasks: set<Effect>): set<Effect> {
    set e | e in tasks && IsStatus(e)
  }

  lemma SpokenNow(m: Memory, n: Memory, busy: bool, was: set<Effect>, now: set<Effect>, target: Key, h: Handed)
    requires h == HandOn(m.progress, target, QueueOf(m.waiting, target))
    requires busy ==> now == was && n.progress == m.progress && n.waiting == m.waiting
    requires !busy && h.failed ==> n.result.Some?
    requires !busy && !h.failed ==> n.progress == h.progress && QueueOf(n.waiting, target) == h.rest
    requires !busy && !h.failed ==> now == was + if h.begun.Some? then {h.begun.value} else {}
    ensures Spoken(m, n, busy, was, now, target, [])
  {
    hide HandOn;
    assert QueueOf(m.waiting, target) + [] == QueueOf(m.waiting, target);
  }

  /** Only progress and what shows it matter here. */
  lemma SpokenBeside(l: Memory, m: Memory, n: Memory, o: Memory, busy: bool, was: set<Effect>, now: set<Effect>,
                     later: set<Effect>, target: Key, more: seq<Pending>)
    requires Spoken(m, n, busy, was, now, target, more)
    requires l.progress == m.progress && l.waiting == m.waiting
    requires o.progress == n.progress && o.waiting == n.waiting && (n.result.Some? ==> o.result.Some?)
    requires Statuses(now) == Statuses(later)
    ensures Spoken(l, o, busy, was, later, target, more)
  {
    hide HandOn, Statuses;
  }

  lemma StatusesBeside(tasks: set<Effect>, e: Effect)
    requires !IsStatus(e)
    ensures Statuses(tasks + {e}) == Statuses(tasks) == Statuses(tasks - {e})
  {
  }

  lemma StatusesSame(was: set<Effect>, now: set<Effect>)
    requires was <= now && forall e :: e in now && e !in was ==> !IsStatus(e)
    ensures Statuses(now) == Statuses(was)
  {
  }

  /** The publication stays said when the registration starts. */
  lemma CompletionSpoken(m: Memory, n: Memory, o: Memory, was: State, now: set<Effect>, r: Effect)
    requires m.prepared.Some? && !IsStatus(r)
    requires o.progress == n.progress && o.waiting == n.waiting && o.result == n.result
    requires var key := m.prepared.value.plan.key;
      Spoken(m, n, key in was.busy, was.tasks, now, key, [Local(Completion(key, None))])
    ensures var key := m.prepared.value.plan.key;
      Spoken(m, o, key in was.busy, was.tasks, now + {r}, key, [Local(Completion(key, None))])
  {
    hide Spoken, Statuses;
    var key := m.prepared.value.plan.key;
    StatusesBeside(now, r);
    SpokenBeside(m, m, n, o, key in was.busy, was.tasks, now, now + {r}, key, [Local(Completion(key, None))]);
  }

  // ----- what events say -----------------------------------------------------------------

  datatype Said = Said(key: Key, more: seq<Pending>)

  /** What progress an event says: that an installation starts, was cached, was
      published or has failed; and when a status effect ends, what waits goes on. */
  function Says(m: Memory, v: Event): Option<Said> {
    match v
    case InstallAcquired(p, held, hit) =>
      var key := p.plan.key;
      if !hit then Some(Said(key, [Local(AttemptStarted(InstallShared, key, None))]))
      else if !held.waited then Some(Said(key, [Local(ProgressEvent.Cached(InstallShared, key, None))]))
      else None
    case Published(Ok(_)) =>
      if m.prepared.Some? && m.lock.Some? then
        Some(Said(m.prepared.value.plan.key, [Local(Completion(m.prepared.value.plan.key, None))]))
      else None
    case StatusForwarded(target) => if m.progress.failed.None? then Some(Said(target, [])) else None
    case ProgressApplied(target, events) =>
      if m.progress.failed.None? && events == [] then Some(Said(target, [])) else None
    case Registered(_) => None
    case _ =>
      if Verdict(v).Some? && m.result.None? && m.prepared.Some? && m.lock.Some? then
        Some(Said(m.prepared.value.plan.key, [Local(Failure(m.prepared.value.plan.key))]))
      else None
  }

  ghost predicate Answers(m: Memory, n: Memory, busy: set<Key>, was: set<Effect>, now: set<Effect>, v: Event) {
    var said := Says(m, v);
    said.Some? ==> Spoken(m, n, said.value.key in busy, was, now, said.value.key, said.value.more)
  }

  /** A failure is said if it is the first and the plan is known. */
  ghost predicate FailureSaid(m: Memory, n: Memory, busy: set<Key>, was: set<Effect>, now: set<Effect>) {
    m.result.None? && m.prepared.Some? && m.lock.Some? ==>
      var key := m.prepared.value.plan.key;
      Spoken(m, n, key in busy, was, now, key, [Local(Failure(key))])
  }

  lemma FailureAnswers(l: Memory, m: Memory, n: Memory, busy: set<Key>, was: set<Effect>, now: set<Effect>, v: Event)
    requires FailureSaid(m, n, busy, was, now) && Verdict(v).Some? && !v.Registered?
    requires l.progress == m.progress && l.waiting == m.waiting && l.result == m.result
    requires l.prepared == m.prepared && l.lock == m.lock && !v.InstallAcquired?
    ensures Answers(l, n, busy, was, now, v)
  {
    hide Spoken;
    var said := Says(l, v);
    if said.Some? {
      SpokenBeside(l, m, n, n, said.value.key in busy, was, now, now, said.value.key, said.value.more);
    }
  }

  lemma RegisteredSays(m: Memory, n: Memory, v: Event, busy: set<Key>, was: set<Effect>, now: set<Effect>)
    requires v.Registered?
    ensures Answers(m, n, busy, was, now, v)
  {
  }

  lemma SpokenMore(l: Memory, m: Memory, n: Memory, busy: bool, was: set<Effect>, now: set<Effect>, target: Key,
                   p: Pending)
    requires m == l.(waiting := l.waiting[target := QueueOf(l.waiting, target) + [p]])
    requires Spoken(m, n, busy, was, now, target, [])
    ensures Spoken(l, n, busy, was, now, target, [p])
  {
    assert QueueOf(m.waiting, target) + [] == QueueOf(l.waiting, target) + [p];
  }

  /** What is not progress does not matter. */
  lemma Aside(l: Memory, m: Memory, n: Memory)
    requires n.result == m.result && n.progress == m.progress && n.waiting == m.waiting
    ensures Soft(l, m) ==> Soft(l, n)
    ensures forall target, p :: Noted(l, m, target, p) ==> Noted(l, n, target, p)
  {
    hide AllCalm, Ready, Mild, Starts;
    KeepsReadySame(m, n);
    if KeepsReady(l, m) { KeepsReadyTrans(l, m, n); }
  }

  lemma NotAtEase(m: Memory)
    requires m.progress.failed.Some?
    ensures !AtEase(m)
  {
  }

  /** The same after something was queued that is in order, too. */
  ghost predicate Noted(m: Memory, n: Memory, target: Key, p: Pending) {
    AtEase(m) && Mild(target, p, Ready(m.progress, m.waiting, target)) ==>
      && AtEase(n) && n.result == m.result && KeepsReady(m, n)
      && (Starts(target, p) ==> Ready(n.progress, n.waiting, target))
  }

  /** The start of a status is in order by itself. */
  lemma StartNoted(m: Memory, n: Memory, key: Key, subject: Subject)
    requires Noted(m, n, key, Local(AttemptStarted(subject, key, None)))
    ensures Soft(m, n) && (AtEase(m) ==> Ready(n.progress, n.waiting, key))
  {
    hide AllCalm, Ready;
  }

  lemma NotedThen(l: Memory, m: Memory, n: Memory, target: Key, p: Pending)
    requires m == l.(waiting := l.waiting[target := QueueOf(l.waiting, target) + [p]]) && Soft(m, n)
    ensures Noted(l, n, target, p)
  {
    hide AllCalm, Ready, Mild, Starts;
    if AtEase(l) && Mild(target, p, Ready(l.progress, l.waiting, target)) {
      Queued(l.progress, l.waiting, target, p);
      KeepsReadyTrans(l, m, n);
    }
  }

  /** The result is what the event decides, if there was none; nothing else makes
      it a success. */
  predicate Judged(m: Memory, n: Memory, v: Event) {
    && (m.result.Some? ==> n.result == m.result)
    && (m.result.None? && Verdict(v).Some? ==> n.result == Verdict(v))
    && (m.result.None? && Verdict(v).None? ==> OnlyFails(m, n))
  }

  predicate OnlyFails(m: Memory, n: Memory) {
    n.result == m.result || (m.result.None? && n.result.value.Err?)
  }

  /** The history goes on with the success that the event reports, or not at all. */
  predicate Recorded(m: Memory, n: Memory, v: Event) {
    Done(n.steps) == Done(m.steps) || Done(n.steps) == Done(m.steps) + Reports(v)
  }

  /** What is known of the plan, its files and its downloads comes from the event. */
  predicate Learnt(m: Memory, n: Memory, v: Event) {
    && (if v.InstallAcquired? then n.prepared == Some(v.prepared) && n.lock == Some(v.lock) && n.cached == v.cached
        else n.prepared == m.prepared && n.lock == m.lock && n.cached == m.cached)
    && n.downloads == (if v.DownloadFinished? then Finish(m.downloads, v.key, v.fetched)
                       else if v.InstallAcquired? && !v.cached then FreshTracker(v.prepared.plan.items)
                       else m.downloads)
    && n.planFile == (if v.RequestFilePrepared? && v.written.Ok? then Some(v.written.value.0) else m.planFile)
    && n.temporary == (if v.InstallPrepared? && v.temporary.Ok? && m.result.None? then Some(v.temporary.value)
                       else m.temporary)
  }

  /** A run whose progress is in order gets a result from what the event decides,
      and from nothing else. */
  ghost predicate Quiet(m: Memory, n: Memory, v: Event) {
    Tuned(m) && (v.ProgressApplied? ==> v.events == []) ==>
      && Tuned(n) && (m.result.None? && Verdict(v).None? ==> n.result.None?)
      && (n.result.None? ==> KeepsReady(m, n))
  }

  ghost predicate Follows(m: Memory, n: Memory, v: Event) {
    Judged(m, n, v) && Recorded(m, n, v) && Learnt(m, n, v) && Quiet(m, n, v)
  }

  /** Events that only start the next effect. */
  lemma FollowsSame(m: Memory, n: Memory, v: Event, busy: set<Key>, was: set<Effect>, now: set<Effect>)
    requires (v.PlanPrepared? && v.ready.Ok?) || v.RequestLockAcquired? || (v.RequestFilePrepared? && v.written.Ok?)
    requires n == m.(planFile := if v.RequestFilePrepared? then Some(v.written.value.0) else m.planFile)
    ensures Follows(m, n, v) && Answers(m, n, busy, was, now, v)
  {
    hide AllCalm, Ready, Done;
    KeepsReadySame(m, n);
  }

  /** A failure, whatever progress it sets off. */
  lemma FollowsFail(m: Memory, n: Memory, v: Event, error: string)
    requires Verdict(v) == Some(Err(error)) && Learnt(m, n, v) && n.steps == m.steps
    requires n.result == if m.result.Some? then m.result else Some(Err(error))
    ensures Follows(m, n, v)
  {
    hide AllCalm, Ready, Done, KeepsReady;
  }

  /** An event that leaves progress alone, and the result if it decides nothing. */
  lemma FollowsAside(m: Memory, n: Memory, v: Event)
    requires n == m.(result := n.result, steps := n.steps, downloads := n.downloads, temporary := n.temporary)
    requires Judged(m, n, v) && Recorded(m, n, v) && Learnt(m, n, v)
    requires if m.result.Some? || Verdict(v).None? then n.result == m.result else n.result.Some?
    ensures Follows(m, n, v)
  {
    hide AllCalm, Ready, Done;
    KeepsReadySame(m, n);
  }

  /** An event after which progress was told of it. */
  lemma FollowsNoted(m: Memory, n: Memory, v: Event, p: ProgressEvent)
    requires Verdict(v).None? && v.Published? && m.prepared.Some? && !m.cached
    requires n == m.(result := n.result, steps := n.steps, progress := n.progress, waiting := n.waiting)
    requires Recorded(m, n, v) && Noted(m, n, m.prepared.value.plan.key, Local(p))
    requires p.Completion? && p.key == m.prepared.value.plan.key && OnlyFails(m, n)
    ensures Follows(m, n, v)
  {
    hide AllCalm, Ready, Done;
  }

  /** The install lock: `l` is what was known when progress was told. */
  lemma FollowsAcquired(m: Memory, l: Memory, n: Memory, v: Event)
    requires v.InstallAcquired? && m.prepared.None?
    requires l == m.(prepared := Some(v.prepared), lock := Some(v.lock))
    requires n.prepared == l.prepared && n.lock == l.lock && n.cached == v.cached && Done(n.steps) == Done(m.steps)
    requires n.downloads == if v.cached then m.downloads else FreshTracker(v.prepared.plan.items)
    requires n.planFile == m.planFile && n.temporary == m.temporary
    requires Soft(l, n) && OnlyFails(m, n)
    requires AtEase(l) && !v.cached ==> Ready(n.progress, n.waiting, v.prepared.plan.key)
    ensures Follows(m, n, v)
  {
    hide AllCalm, Ready, Done;
    KeepsReadySame(m, l);
    if AtEase(m) { KeepsReadyTrans(m, l, n); }
  }

  /** A status effect ended. */
  lemma FollowsStatus(m: Memory, n: Memory, v: Event)
    requires v.ProgressApplied? || v.StatusForwarded?
    requires n == m.(result := n.result, progress := n.progress, waiting := n.waiting)
    requires OnlyFails(m, n)
    requires (v.ProgressApplied? ==> v.events == []) ==> Soft(m, n)
    ensures Follows(m, n, v)
  {
    hide AllCalm, Ready, Done;
  }

  /** Progress changes neither the history nor what is known of the plan, and in
      order it fails nothing. */
  ghost predicate Heard(m: Memory, n: Memory, v: Event) {
    && n == m.(result := n.result, progress := n.progress, waiting := n.waiting) && OnlyFails(m, n)
    && (Tuned(m) && (v.ProgressMade? && m.result.None? ==>
          Mild(v.target, Local(v.event), Ready(m.progress, m.waiting, v.target))) ==>
        && Tuned(n) && (m.result.None? ==> n.result.None?)
        && (n.result.None? ==> KeepsReady(m, n) && forall k :: StartsOf(v, k) ==> Ready(n.progress, n.waiting, k)))
  }

  lemma HeardNoted(m: Memory, n: Memory, v: Event)
    requires v.ProgressMade? || v.StatusObserved?
    requires n == m.(result := n.result, progress := n.progress, waiting := n.waiting) && OnlyFails(m, n)
    requires if v.ProgressMade? then Noted(m, n, v.target, Local(v.event))
             else Noted(m, n, v.status.key, Observed(v.status))
    ensures Heard(m, n, v)
  {
    hide AllCalm, Ready;
  }

  // ----- whole runs -------------------------------------------------------------------

  predicate FetchedIn(log: seq<Event>, key: Key) {
    exists i :: 0 <= i < |log| && log[i].DownloadFinished? && log[i].key == key && log[i].fetched.Ok?
  }

  /** The log says that the plan whose install lock was acquired was carried out:
      every download and every item succeeded, items in plan order, then the
      publication, then the registration. If it was found installed nothing but
      the registration happened. */
  predicate CarriedOut(names: Key -> string, log: seq<Event>, a: Event, root: Path)
    requires a.InstallAcquired?
  {
    var plan := a.prepared.plan;
    && root == InstallRoot(names, plan.key)
    && Picked(AllDone(|plan.items|, a.cached), Reported(log))
    && if a.cached then forall v :: v in log ==> !OfInstalling(v)
       else forall i :: 0 <= i < |plan.items| ==> FetchedIn(log, plan.items[i].key)
  }

  /** What a run remembers is what the log says. */
  ghost predicate Remembers(m: Memory, log: seq<Event>) {
    && (m.result.None? ==> Decided(log).None?)
    && (m.result.Some? && m.result.value.Ok? ==> m.result == Decided(log))
    && Picked(Done(m.steps), Reported(log))
    && (m.prepared.Some? <==> m.lock.Some?)
    && (m.prepared.Some? ==> InstallAcquired(m.prepared.value, m.lock.value, m.cached) in log)
    && (forall v :: v in log && v.InstallAcquired? ==> m.prepared == Some(v.prepared) && m.cached == v.cached)
    && (forall v :: v in log && OfInstalling(v) ==> m.prepared.Some? && !m.cached)
    && (forall k :: k in m.downloads.completed ==> FetchedIn(log, k))
  }

  /** While progress is in order, the result is what the log decides. */
  ghost predicate Foresees(m: Memory, log: seq<Event>) {
    InOrder(log) ==>
      && Tuned(m) && m.result == Decided(log)
      && (m.result.None? ==> forall k :: StartedIn(log, k) ==> Ready(m.progress, m.waiting, k))
  }

  lemma FetchedLonger(log: seq<Event>, v: Event, key: Key)
    requires FetchedIn(log, key) || (v.DownloadFinished? && v.key == key && v.fetched.Ok?)
    ensures FetchedIn(log + [v], key)
  {
    var all := log + [v];
    assert all[|log|] == v;
    if i :| 0 <= i < |log| && log[i].DownloadFinished? && log[i].key == key && log[i].fetched.Ok? {
      assert all[i] == log[i];
    }
  }

  lemma StepsRemembered(m: Memory, n: Memory, log: seq<Event>, v: Event)
    requires Picked(Done(m.steps), Reported(log)) && Recorded(m, n, v)
    ensures Picked(Done(n.steps), Reported(log + [v]))
  {
    hide Done, Picked;
    NextLog(log, v);
    var r := Reports(v);
    assert r == [] || r == [r[0]];
    if r == [] {
      assert Reported(log) + [] == Reported(log) && Done(m.steps) + [] == Done(m.steps);
    } else {
      PickedSkip(Done(m.steps), Reported(log), r[0]);
    }
  }

  lemma Remembered(m: Memory, n: Memory, log: seq<Event>, v: Event)
    requires Remembers(m, log) && Judged(m, n, v) && Recorded(m, n, v) && Learnt(m, n, v)
    requires v.InstallAcquired? ==> m.prepared.None?
    requires OfInstalling(v) ==> m.prepared.Some? && !m.cached
    ensures Remembers(n, log + [v])
  {
    hide Done, Picked, Reported, FetchedIn, Decided;
    NextLog(log, v);
    StepsRemembered(m, n, log, v);
    forall k | k in n.downloads.completed
      ensures FetchedIn(log + [v], k)
    {
      FetchedLonger(log, v, k);
    }
  }

  lemma ForeseenStarts(log: seq<Event>, v: Event)
    ensures forall k :: StartedIn(log + [v], k) <==> StartedIn(log, k) || StartsOf(v, k)
  {
    hide StartsOf, StartedIn;
    forall k
      ensures StartedIn(log + [v], k) <==> StartedIn(log, k) || StartsOf(v, k)
    {
      StartedNext(log, v, k);
    }
  }

  lemma ForeseenFollows(m: Memory, n: Memory, log: seq<Event>, v: Event)
    requires Foresees(m, log) && Follows(m, n, v) && !v.ProgressMade? && !v.StatusObserved?
    ensures Foresees(n, log + [v])
  {
    hide Done, Decided, AllCalm, Ready, Tuned, InOrder, StartedIn;
    NextLog(log, v);
    InOrderNext(log, v);
    ForeseenStarts(log, v);
  }

  lemma ForeseenHeard(m: Memory, n: Memory, log: seq<Event>, v: Event)
    requires Foresees(m, log) && Heard(m, n, v) && (v.ProgressMade? || v.StatusObserved?)
    ensures Foresees(n, log + [v])
  {
    hide Foresees, Decided, Tuned, InOrder, StartedIn, Mild, StartsOf, Heard, Ready, AllCalm, KeepsReady;
    NextLog(log, v);
    InOrderNext(log, v);
    if InOrder(log + [v]) {
      ForeseenNow(m, log);
      if v.ProgressMade? && m.result.None? {
        MildMore(v.target, Local(v.event), StartedIn(log, v.target), Ready(m.progress, m.waiting, v.target));
      }
      HeardInOrder(m, n, v);
      forall k | n.result.None? && StartedIn(log + [v], k)
        ensures Ready(n.progress, n.waiting, k)
      {
        StartedNext(log, v, k);
        StillReady(m, n, k);
      }
      Foreseen(n, log + [v]);
    } else {
      NotInOrder(n, log + [v]);
    }
  }

  lemma NotInOrder(m: Memory, log: seq<Event>)
    requires !InOrder(log)
    ensures Foresees(m, log)
  {
  }

  lemma ForeseenNow(m: Memory, log: seq<Event>)
    requires Foresees(m, log) && InOrder(log)
    ensures Tuned(m) && m.result == Decided(log)
    ensures forall k :: m.result.None? && StartedIn(log, k) ==> Ready(m.progress, m.waiting, k)
  {
    hide Tuned, Decided, InOrder, StartedIn, Ready;
  }

  lemma Foreseen(m: Memory, log: seq<Event>)
    requires Tuned(m) && m.result == Decided(log)
    requires forall k :: m.result.None? && StartedIn(log, k) ==> Ready(m.progress, m.waiting, k)
    ensures Foresees(m, log)
  {
    hide Tuned, Decided, InOrder, StartedIn, Ready;
  }

  lemma StillReady(m: Memory, n: Memory, k: Key)
    requires KeepsReady(m, n)
    ensures Ready(m.progress, m.waiting, k) ==> Ready(n.progress, n.waiting, k)
  {
    hide Ready;
  }

  /** Progress in order, read off the run alone. */
  lemma HeardInOrder(m: Memory, n: Memory, v: Event)
    requires Heard(m, n, v) && Tuned(m) && (v.ProgressMade? || v.StatusObserved?)
    requires v.ProgressMade? && m.result.None? ==>
      Mild(v.target, Local(v.event), Ready(m.progress, m.waiting, v.target))
    ensures Tuned(n) && n.result == m.result && (n.result.None? ==> KeepsReady(m, n))
    ensures n.result.None? ==> forall k :: StartsOf(v, k) ==> Ready(n.progress, n.waiting, k)
  {
    hide Tuned, Mild, Ready, StartsOf, KeepsReady;
  }

  lemma MildMore(key: Key, p: Pending, known: bool, more: bool)
    requires known ==> more
    ensures Mild(key, p, known) ==> Mild(key, p, more)
  {
  }

  lemma Unknown(m: Memory)
    requires m.result.None? && m.steps == [] && m.prepared.None? && m.lock.None? && m.downloads.completed == map[]
    requires m.progress == Progress(map[], None) && m.waiting == map[]
    ensures Remembers(m, []) && Foresees(m, []) && Picked<Event>([], [])
  {
  }

  lemma DeliveredLog(m: Memory, n: Memory, log: seq<Event>, v: Event)
    requires Remembers(m, log) && Foresees(m, log) && Follows(m, n, v) && !v.ProgressMade? && !v.StatusObserved?
    requires v.InstallAcquired? ==> m.prepared.None?
    requires OfInstalling(v) ==> m.prepared.Some? && !m.cached
    ensures Remembers(n, log + [v]) && Foresees(n, log + [v])
  {
    hide Remembers, Foresees, Judged, Recorded, Learnt, Quiet;
    ForeseenFollows(m, n, log, v);
    Remembered(m, n, log, v);
  }

  lemma HeardLog(m: Memory, n: Memory, log: seq<Event>, v: Event)
    requires Remembers(m, log) && Foresees(m, log) && Heard(m, n, v) && (v.ProgressMade? || v.StatusObserved?)
    ensures Remembers(n, log + [v]) && Foresees(n, log + [v])
  {
    hide Remembers, Foresees, Tuned, KeepsReady, Ready, Mild, StartsOf, Done;
    ForeseenHeard(m, n, log, v);
    assert Recorded(m, n, v);
    Remembered(m, n, log, v);
  }

  /** Which effects end with these events, and when they run. */
  lemma EndsFits(names: Key -> string, s: State, e: Effect, v: Event)
    requires Inv(names, s) && e in s.tasks && Ends(e, v)
    ensures v.InstallAcquired? ==> s.prepared.None?
    ensures OfInstalling(v) ==> s.prepared.Some? && !s.cached
    ensures !v.ProgressMade? && !v.StatusObserved?
  {
    hide Serial, Fetched, FetchedOnce, Live, InstallRoot;
    assert Fits(s, e);
  }

  /** What a run remembers at its end. */
  lemma WholeLog(names: Key -> string, s: State, m: Memory, log: seq<Event>)
    requires Inv(names, s) && Remembers(m, log) && Foresees(m, log)
    requires m.result == s.result && m.steps == s.steps && m.prepared == s.prepared && m.cached == s.cached
    requires m.downloads == s.downloads
    ensures InOrder(log) ==> m.result == Decided(log)
    ensures m.result == Decided(log) || (m.result.Some? && m.result.value.Err?)
    ensures m.result.Some? && m.result.value.Ok? ==> exists a ::
      a in log && a.InstallAcquired? && CarriedOut(names, log, a, m.result.value.value)
    ensures forall a, b :: a in log && b in log && a.InstallAcquired? && b.InstallAcquired? ==>
      a.prepared == b.prepared && a.cached == b.cached
  {
    hide Inv, InOrder, Decided, Picked, Reported, Done, Schedule, InstallRoot, FetchedIn, Tuned, Ready, StartedIn;
    if m.result.Some? && m.result.value.Ok? {
      OkIsComplete(names, s);
      AllFetched(names, s);
      ScheduleDone(|Items(s)|, s.cached);
      var a := InstallAcquired(m.prepared.value, m.lock.value, m.cached);
      assert a in log && CarriedOut(names, log, a, m.result.value.value);
    }
  }

  lemma AllFetched(names: Key -> string, s: State)
    requires Inv(names, s) && s.result.Some? && s.result.value.Ok?
    ensures s.prepared.Some?
    ensures !s.cached ==> forall i :: 0 <= i < |Items(s)| ==> Items(s)[i].key in s.downloads.completed
  {
    hide Serial, Placed, FetchedOnce, InstallRoot, History;
  }
}
