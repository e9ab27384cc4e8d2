/** The download cache: one download per query at a time, waiters, and first-in first-out
    eviction whose file removal may fail (discord-bot/music/ytdl.go). Each section under s.lock
    or s.clock is a step; Search reads the cache under s.clock while it holds s.lock, so its
    second look and its look at the downloads in flight are separate steps. */
module DownloadCaches {
  import opened CircularQueues
  import opened Collections

  type Query = string

  /** What a download produced; path names its file. */
  datatype Download = Download(title: string, path: string)

  datatype Pc =
    | FastPath
    | WantLock
    | SecondLook
    | Missed
    | Waiting(leader: nat)
    | Awake
    | Running
    | Fetched(download: Download)
    | CleaningUp(result: Option<Download>)
    | Signalling(result: Option<Download>)
    | Returned(result: Option<Download>)
  {
    predicate Holds() { SecondLook? || Missed? }
    predicate Leads() { Running? || Fetched? || CleaningUp? }
  }

  /** One call of Search, after formatQuery. */
  datatype Caller = Caller(query: Query, pc: Pc)

  datatype State = State(
    capacity: nat,
    cache: map<Query, Download>,
    queue: seq<Query>,
    downloading: map<Query, nat>,
    lock: Option<nat>,
    callers: seq<Caller>,
    // every download made for each query
    fetched: set<(Query, Download)>,
    // the downloaded files that are on disk
    files: set<string>)

  function Init(capacity: nat): State {
    State(capacity, map[], [], map[], None, [], {}, {})
  }

  datatype Step =
    | Search(query: Query)
    | LookFast(caller: nat)
    | Lock(caller: nat)
    | LookAgain(caller: nat)
    | JoinOrLead(caller: nat)
    | WakeUp(caller: nat)
    | LookLast(caller: nat)
    | FailDownload(caller: nat)
    | Fetch(caller: nat, download: Download)
    | Insert(caller: nat, removed: bool)
    | CleanUp(caller: nat)
    | Signal(caller: nat)

  predicate At(s: State, t: nat, pc: Pc) {
    t < |s.callers| && s.callers[t].pc == pc
  }

  function Oldest(s: State): Option<Query> {
    if |s.queue| == s.capacity > 0 then Some(s.queue[0]) else None
  }

  /** The path of a download that is not in the cache is empty. Removing that always fails, and so does
      removing a file that is gone. */
  predicate CanRemove(s: State, removed: bool) {
    removed ==> Oldest(s).Some? && Oldest(s).value in s.cache && s.cache[Oldest(s).value].path in s.files
  }

  predicate Enabled(s: State, step: Step) {
    match step
    case Search(_) => true
    case LookFast(t) => At(s, t, FastPath)
    case Lock(t) => At(s, t, WantLock) && s.lock == None
    case LookAgain(t) => At(s, t, SecondLook)
    case JoinOrLead(t) => At(s, t, Missed)
    case WakeUp(t) => t < |s.callers| && s.callers[t].pc.Waiting? && s.callers[t].pc.leader < |s.callers|
                      && s.callers[s.callers[t].pc.leader].pc.Returned?
    case LookLast(t) => At(s, t, Awake)
    // the download itself may fail, or reading what it reports
    case FailDownload(t) => t < |s.callers| && (s.callers[t].pc.Running? || s.callers[t].pc.Fetched?)
    case Fetch(t, _) => At(s, t, Running)
    case Insert(t, removed) => t < |s.callers| && s.callers[t].pc.Fetched? && 0 < s.capacity
                               && (Oldest(s).Some? ==> CanRemove(s, removed))
    case CleanUp(t) => t < |s.callers| && s.callers[t].pc.CleaningUp? && s.lock == None
    case Signal(t) => t < |s.callers| && s.callers[t].pc.Signalling?
  }

  function Cached(s: State, q: Query): Option<Download> {
    if q in s.cache then Some(s.cache[q]) else None
  }

  function SetPc(s: State, t: nat, pc: Pc): State
    requires t < |s.callers|
  {
    s.(callers := s.callers[t := s.callers[t].(pc := pc)])
  }

  function Apply(s: State, step: Step): State
    requires Enabled(s, step)
  {
    match step
    case Search(q) => s.(callers := s.callers + [Caller(q, FastPath)])
    case LookFast(t) =>
      var hit := Cached(s, s.callers[t].query);
      SetPc(s, t, if hit.Some? then Returned(hit) else WantLock)
    case Lock(t) => SetPc(s, t, SecondLook).(lock := Some(t))
    case LookAgain(t) =>
      var hit := Cached(s, s.callers[t].query);
      if hit.Some? then SetPc(s, t, Returned(hit)).(lock := None) else SetPc(s, t, Missed)
    case JoinOrLead(t) =>
      var q := s.callers[t].query;
      if q in s.downloading then SetPc(s, t, Waiting(s.downloading[q])).(lock := None)
      else SetPc(s, t, Running).(downloading := s.downloading[q := t], lock := None)
    case WakeUp(t) => SetPc(s, t, Awake)
    case LookLast(t) => SetPc(s, t, Returned(Cached(s, s.callers[t].query)))
    case FailDownload(t) => SetPc(s, t, CleaningUp(None))
    case Fetch(t, download) =>
      SetPc(s, t, Fetched(download)).(fetched := s.fetched + {(s.callers[t].query, download)}, files := s.files + {download.path})
    case Insert(t, removed) =>
      var q, download := s.callers[t].query, s.callers[t].pc.download;
      var s1 := s.(queue := Pushed(s.queue, s.capacity, q));
      if Oldest(s) == None then
        SetPc(s1, t, CleaningUp(Some(download))).(cache := s.cache[q := download])
      else if removed then
        var out := Oldest(s).value;
        SetPc(s1, t, CleaningUp(Some(download))).(cache := (s.cache - {out})[q := download], files := s.files - {s.cache[out].path})
      else
        SetPc(s1, t, CleaningUp(None)).(cache := s.cache - {Oldest(s).value})
    case CleanUp(t) =>
      SetPc(s, t, Signalling(s.callers[t].pc.result)).(downloading := s.downloading - {s.callers[t].query})
    case Signal(t) => SetPc(s, t, Returned(s.callers[t].pc.result))
  }

  /** Where steps lead from s, None if one of them was not enabled. */
  function After(s: State, steps: seq<Step>): Option<State> {
    if steps == [] then Some(s)
    else match After(s, steps[..|steps| - 1])
      case Some(r) => if Enabled(r, steps[|steps| - 1]) then Some(Apply(r, steps[|steps| - 1])) else None
      case None => None
  }

  // ---- the invariant -------------------------------------------------------------

  predicate LockOk(s: State) {
    && (forall t :: 0 <= t < |s.callers| ==> (s.callers[t].pc.Holds() <==> s.lock == Some(t)))
    && (s.lock.Some? ==> s.lock.value < |s.callers|)
  }

  /** A query is in flight exactly while its one leader is between registering and cleaning up. */
  predicate LeadersOk(s: State) {
    && (forall q :: q in s.downloading ==>
          var t := s.downloading[q]; t < |s.callers| && s.callers[t].query == q && s.callers[t].pc.Leads())
    && (forall t :: 0 <= t < |s.callers| && s.callers[t].pc.Leads() ==>
          s.callers[t].query in s.downloading && s.downloading[s.callers[t].query] == t)
  }

  /** A leader still downloading has nothing cached under its query; a caller that missed twice finds
      its query cached since only if somebody is still registered for it. */
  predicate MissOk(s: State, t: nat)
    requires t < |s.callers|
  {
    var c := s.callers[t];
    && (c.pc.Running? || c.pc.Fetched? ==> c.query !in s.cache)
    && (c.pc.Fetched? ==> (c.query, c.pc.download) in s.fetched)
    && (c.pc.Missed? && c.query in s.cache ==> c.query in s.downloading)
  }

  predicate WaitersOk(s: State) {
    forall t :: 0 <= t < |s.callers| && s.callers[t].pc.Waiting? ==>
      var l := s.callers[t].pc.leader;
      l < |s.callers| && s.callers[l].query == s.callers[t].query
      && (s.callers[l].pc.Leads() || s.callers[l].pc.Signalling? || s.callers[l].pc.Returned?)
  }

  predicate CacheOk(s: State) {
    && |s.queue| <= s.capacity
    && (forall q :: q in s.cache ==> q in s.queue)
    && (forall q :: q in s.cache ==> (q, s.cache[q]) in s.fetched)
  }

  predicate Inv(s: State) {
    && 0 < s.capacity && LockOk(s) && LeadersOk(s) && WaitersOk(s) && CacheOk(s)
    && forall t :: 0 <= t < |s.callers| ==> MissOk(s, t)
  }

  lemma StepKeepsLock(s: State, step: Step)
    requires LockOk(s) && Enabled(s, step)
    ensures LockOk(Apply(s, step))
  {
    if step.Insert? {
      InsertKeepsLock(s, step);
    } else if step.Lock? || step.LookAgain? || step.JoinOrLead? {
      TakeOrLeaveKeepsLock(s, step);
    } else {
      hide Pushed, Oldest, Cached;
    }
  }

  lemma TakeOrLeaveKeepsLock(s: State, step: Step)
    requires LockOk(s) && Enabled(s, step) && (step.Lock? || step.LookAgain? || step.JoinOrLead?)
    ensures LockOk(Apply(s, step))
  {
    hide Cached;
  }

  lemma InsertKeepsLock(s: State, step: Step)
    requires LockOk(s) && Enabled(s, step) && step.Insert?
    ensures LockOk(Apply(s, step))
  {
    hide Pushed;
  }

  lemma {:induction false} StepKeepsLeaders(s: State, step: Step)
    requires LeadersOk(s) && Enabled(s, step)
    ensures LeadersOk(Apply(s, step))
  {
    hide LeadersOk, Enabled, Apply;
    if step.JoinOrLead? {
      JoinKeepsLeaders(s, step);
    } else if step.CleanUp? {
      CleanUpKeepsLeaders(s, step);
    } else if step.Insert? || step.FailDownload? || step.Fetch? {
      DownloadEndKeepsLeaders(s, step);
    } else {
      OtherStepKeepsLeaders(s, step);
    }
  }

  lemma OtherStepKeepsLeaders(s: State, step: Step)
    requires LeadersOk(s) && Enabled(s, step)
    requires !(step.JoinOrLead? || step.CleanUp? || step.Insert? || step.FailDownload? || step.Fetch?)
    ensures LeadersOk(Apply(s, step))
  {
    assert Apply(s, step).downloading == s.downloading;
  }

  lemma DownloadEndKeepsLeaders(s: State, step: Step)
    requires LeadersOk(s) && Enabled(s, step) && (step.Insert? || step.FailDownload? || step.Fetch?)
    ensures LeadersOk(Apply(s, step))
  {
    hide Pushed;
    assert Apply(s, step).downloading == s.downloading;
  }

  lemma JoinKeepsLeaders(s: State, step: Step)
    requires LeadersOk(s) && Enabled(s, step) && step.JoinOrLead?
    ensures LeadersOk(Apply(s, step))
  {
  }

  lemma CleanUpKeepsLeaders(s: State, step: Step)
    requires LeadersOk(s) && Enabled(s, step) && step.CleanUp?
    ensures LeadersOk(Apply(s, step))
  {
  }

  lemma {:induction false} StepKeepsWaiters(s: State, step: Step)
    requires WaitersOk(s) && LeadersOk(s) && Enabled(s, step)
    ensures WaitersOk(Apply(s, step))
  {
    if step.JoinOrLead? || step.Search? {
      NewWaiterKeepsWaiters(s, step);
    } else {
      OtherStepKeepsWaiters(s, step);
    }
  }

  lemma NewWaiterKeepsWaiters(s: State, step: Step)
    requires WaitersOk(s) && LeadersOk(s) && Enabled(s, step) && (step.JoinOrLead? || step.Search?)
    ensures WaitersOk(Apply(s, step))
  {
  }

  lemma OtherStepKeepsWaiters(s: State, step: Step)
    requires WaitersOk(s) && Enabled(s, step) && !step.JoinOrLead? && !step.Search?
    ensures WaitersOk(Apply(s, step))
  {
    hide Pushed;
  }

  lemma StepKeepsCache(s: State, step: Step)
    requires Inv(s) && Enabled(s, step)
    ensures CacheOk(Apply(s, step))
  {
    if step.Insert? {
      InsertKeepsCache(s, step);
    }
  }

  lemma InsertKeepsCache(s: State, step: Step)
    requires Inv(s) && Enabled(s, step) && step.Insert?
    ensures CacheOk(Apply(s, step))
  {
    hide LockOk, LeadersOk, WaitersOk;
    var s', q := Apply(s, step), s.callers[step.caller].query;
    assert MissOk(s, step.caller);
    forall x | x in s'.queue ensures x == q || x in s.queue {}
    assert s'.queue[|s'.queue| - 1] == q;
    forall x | x in s.queue && Oldest(s) != Some(x) ensures x in s'.queue {
      var i :| 0 <= i < |s.queue| && s.queue[i] == x;
      assert s'.queue[if |s.queue| == s.capacity then i - 1 else i] == x;
    }
  }

  lemma StepKeepsMisses(s: State, step: Step)
    requires Inv(s) && Enabled(s, step)
    ensures forall t :: 0 <= t < |Apply(s, step).callers| ==> MissOk(Apply(s, step), t)
  {
    forall t | 0 <= t < |Apply(s, step).callers| ensures MissOk(Apply(s, step), t) {
      if step.Insert? {
        InsertKeepsMiss(s, step, t);
      } else {
        OtherStepKeepsMiss(s, step, t);
      }
    }
  }

  lemma InsertKeepsMiss(s: State, step: Step, t: nat)
    requires Inv(s) && Enabled(s, step) && step.Insert? && t < |s.callers|
    ensures MissOk(Apply(s, step), t)
  {
    hide CacheOk, WaitersOk, Pushed;
    assert MissOk(s, t);
  }

  lemma OtherStepKeepsMiss(s: State, step: Step, t: nat)
    requires Inv(s) && Enabled(s, step) && !step.Insert? && t < |Apply(s, step).callers|
    ensures MissOk(Apply(s, step), t)
  {
    hide CacheOk, WaitersOk;
    assert t < |s.callers| ==> MissOk(s, t);
  }

  lemma {:induction false} EveryRunKeepsInv(s: State, steps: seq<Step>)
    requires Inv(s) && After(s, steps).Some?
    ensures Inv(After(s, steps).value)
  {
    if steps != [] {
      var r, step := After(s, steps[..|steps| - 1]).value, steps[|steps| - 1];
      EveryRunKeepsInv(s, steps[..|steps| - 1]);
      StepKeepsInv(r, step);
    }
  }

  lemma StepKeepsInv(s: State, step: Step)
    requires Inv(s) && Enabled(s, step)
    ensures Inv(Apply(s, step))
  {
    StepKeepsLock(s, step);
    StepKeepsLeaders(s, step);
    StepKeepsWaiters(s, step);
    StepKeepsCache(s, step);
    StepKeepsMisses(s, step);
    hide LockOk, LeadersOk, WaitersOk, CacheOk, MissOk;
  }

  ghost predicate Reachable(s: State) {
    exists capacity: nat, steps :: 0 < capacity && After(Init(capacity), steps) == Some(s)
  }

  /** The invariant holds after every run, for any number of searches in any interleaving. */
  lemma ReachableInv(s: State)
    requires Reachable(s)
    ensures Inv(s)
  {
    var capacity: nat, steps :| 0 < capacity && After(Init(capacity), steps) == Some(s);
    EveryRunKeepsInv(Init(capacity), steps);
  }

  // ---- what the cache promises ---------------------------------------------------

  /** At most one download per query runs at any moment, and what its leader will insert is not
      already cached. */
  lemma SingleFlight(s: State, t: nat, u: nat)
    requires Reachable(s) && At(s, t, Running) && At(s, u, Running)
    ensures s.callers[t].query == s.callers[u].query ==> t == u
    ensures s.callers[t].query !in s.cache
  {
    ReachableInv(s);
    assert MissOk(s, t);
  }

  /** What is cached under a query was downloaded for that query. */
  lemma CacheServesWhatWasFetched(s: State, q: Query)
    requires Reachable(s) && q in s.cache
    ensures (q, s.cache[q]) in s.fetched
  {
    ReachableInv(s);
  }

  // ---- slots of the eviction queue -----------------------------------------------

  /** Slots of the eviction queue that back no cached download. */
  function LostSlots(s: State): int {
    |s.queue| - |s.cache|
  }

  /** The cache never holds more downloads than the queue has slots, and the queue lists exactly the
      cached queries, each once, exactly when no slot is lost. */
  lemma {:induction false} QueueMirrorsCache(s: State)
    requires Reachable(s)
    ensures 0 <= LostSlots(s) && |s.cache| <= s.capacity
    ensures Distinct(s.queue) && (forall q :: q in s.queue <==> q in s.cache) <==> LostSlots(s) == 0
  {
    ReachableInv(s);
    ElementsCount(s.queue);
    var listed, cached := Elements(s.queue), s.cache.Keys;
    assert cached <= listed;
    Fits(cached, listed);
    assert listed == cached + (listed - cached);
  }

  /** The eviction of a cached download whose file cannot be removed. */
  predicate Loses(s: State, step: Step) {
    step.Insert? && Oldest(s).Some? && Oldest(s).value in s.cache && !step.removed
  }

  /** Such an eviction loses exactly one slot. No other step loses one, and none wins one back. */
  lemma StepLosesExactly(s: State, step: Step)
    requires Inv(s) && Enabled(s, step)
    ensures LostSlots(Apply(s, step)) == LostSlots(s) + if Loses(s, step) then 1 else 0
  {
    if step.Insert? {
      assert MissOk(s, step.caller);
      hide Inv;
      InsertLosesExactly(s, step);
    }
  }

  lemma InsertLosesExactly(s: State, step: Step)
    requires Enabled(s, step) && step.Insert? && s.callers[step.caller].query !in s.cache
    ensures LostSlots(Apply(s, step)) == LostSlots(s) + if Loses(s, step) then 1 else 0
  {
    InsertLeaves(s, step.caller, step.removed);
    hide Apply;
    CountInsert(s.cache, s.callers[step.caller].query, s.callers[step.caller].pc.download, Oldest(s));
  }

  lemma CountInsert(cache: map<Query, Download>, q: Query, download: Download, out: Option<Query>)
    requires q !in cache
    ensures |cache[q := download]| == |cache| + 1
    ensures out.Some? ==> |cache - {out.value}| == |cache| - (if out.value in cache then 1 else 0)
    ensures out.Some? ==> |(cache - {out.value})[q := download]| == |cache - {out.value}| + 1
  {
    assert cache[q := download].Keys == cache.Keys + {q};
    if out.Some? {
      var rest := cache - {out.value};
      assert rest.Keys == cache.Keys - {out.value};
      assert rest[q := download].Keys == rest.Keys + {q};
    }
  }

  /** How many steps of a run lost a slot. */
  function Losses(s: State, steps: seq<Step>): nat
    requires After(s, steps).Some?
  {
    if steps == [] then 0
    else
      var init := steps[..|steps| - 1];
      Losses(s, init) + if Loses(After(s, init).value, steps[|steps| - 1]) then 1 else 0
  }

  lemma {:induction false} RunLosesExactly(s: State, steps: seq<Step>)
    requires Inv(s) && After(s, steps).Some?
    ensures LostSlots(After(s, steps).value) == LostSlots(s) + Losses(s, steps)
  {
    if steps != [] {
      var init := steps[..|steps| - 1];
      RunLosesExactly(s, init);
      EveryRunKeepsInv(s, init);
      StepLosesExactly(After(s, init).value, steps[|steps| - 1]);
    }
  }

  /** After any run the slots lost number the evictions of a cached download whose file could not be
      removed. So every slot of the queue backs a download, each its own, exactly when none failed. */
  lemma {:induction false} SlotsLostExactly(capacity: nat, steps: seq<Step>)
    requires 0 < capacity && After(Init(capacity), steps).Some?
    ensures var s, losses := After(Init(capacity), steps).value, Losses(Init(capacity), steps);
            && LostSlots(s) == losses && |s.cache| <= s.capacity - losses
            && (Distinct(s.queue) && (forall q :: q in s.queue <==> q in s.cache) <==> losses == 0)
  {
    var s := After(Init(capacity), steps).value;
    assert Reachable(s);
    ReachableInv(s);
    RunLosesExactly(Init(capacity), steps);
    QueueMirrorsCache(s);
    hide LockOk, LeadersOk, WaitersOk, MissOk;
  }

  /** One search that leads and has nothing in its way, up to its insertion. */
  function Leading(t: nat, q: Query): seq<Step> {
    [Search(q), LookFast(t), Lock(t), LookAgain(t), JoinOrLead(t)]
  }

  lemma {:induction false} AfterMore(s: State, steps: seq<Step>, more: seq<Step>)
    requires After(s, steps).Some?
    ensures After(s, steps + more) == After(After(s, steps).value, more)
  {
    if more == [] {
      assert steps + more == steps;
    } else {
      AfterMore(s, steps, more[..|more| - 1]);
      assert (steps + more)[..|steps + more| - 1] == steps + more[..|more| - 1];
    }
  }

  lemma LeadingLeads(s: State, q: Query)
    requires q !in s.cache && q !in s.downloading && s.lock == None
    ensures var t := |s.callers|;
            After(s, Leading(t, q)) == Some(s.(callers := s.callers + [Caller(q, Running)], downloading := s.downloading[q := t]))
  {
    hide Pushed, Oldest;
    var t, steps := |s.callers|, Leading(|s.callers|, q);
    var s1 := Apply(s, steps[0]);
    var s2 := Apply(s1, steps[1]);
    var s3 := Apply(s2, steps[2]);
    var s4 := Apply(s3, steps[3]);
    assert steps[..0] == [] && After(s, steps[..0]) == Some(s);
    assert steps[..1][..0] == steps[..0] && After(s, steps[..1]) == Some(s1);
    assert steps[..2][..1] == steps[..1] && After(s, steps[..2]) == Some(s2);
    assert steps[..3][..2] == steps[..2] && After(s, steps[..3]) == Some(s3);
    assert steps[..4][..3] == steps[..3] && After(s, steps[..4]) == Some(s4);
    assert steps[..|steps| - 1] == steps[..4];
    assert Apply(s4, steps[4]).callers == s.callers + [Caller(q, Running)];
  }

  function LeadThenInsert(s: State, q: Query, download: Download, removed: bool): seq<Step> {
    Leading(|s.callers|, q) + [Fetch(|s.callers|, download), Insert(|s.callers|, removed)]
  }

  function AfterFetch(s: State, q: Query, download: Download): State {
    s.(callers := s.callers + [Caller(q, Fetched(download))], downloading := s.downloading[q := |s.callers|],
       fetched := s.fetched + {(q, download)}, files := s.files + {download.path})
  }

  lemma LeadThenFetches(s: State, q: Query, download: Download)
    requires q !in s.cache && q !in s.downloading && s.lock == None
    ensures After(s, Leading(|s.callers|, q) + [Fetch(|s.callers|, download)]) == Some(AfterFetch(s, q, download))
  {
    var steps, fetch := Leading(|s.callers|, q), Fetch(|s.callers|, download);
    LeadingLeads(s, q);
    hide Leading;
    assert (steps + [fetch])[..|steps|] == steps;
    var s1 := After(s, steps).value;
    assert Apply(s1, fetch).callers == AfterFetch(s, q, download).callers;
  }

  lemma AfterOneMore(s: State, steps: seq<Step>, step: Step)
    requires After(s, steps).Some? && Enabled(After(s, steps).value, step)
    ensures After(s, steps + [step]) == Some(Apply(After(s, steps).value, step))
  {
    assert (steps + [step])[..|steps|] == steps;
    hide Enabled, Apply;
  }

  lemma InsertLeaves(s: State, t: nat, removed: bool)
    requires Enabled(s, Insert(t, removed))
    ensures var r, out, download := Apply(s, Insert(t, removed)), Oldest(s), s.callers[t].pc.download;
            && r.queue == Pushed(s.queue, s.capacity, s.callers[t].query)
            && r.lock == s.lock && r.capacity == s.capacity && r.downloading == s.downloading
            && r.cache == (if out == None then s.cache[s.callers[t].query := download]
                           else if removed then (s.cache - {out.value})[s.callers[t].query := download]
                           else s.cache - {out.value})
            && r.files == (if removed && out.Some? then s.files - {s.cache[out.value].path} else s.files)
  {
    hide Pushed;
  }

  /** What a search with nothing in its way leaves. */
  lemma LeadThenInserts(s: State, q: Query, download: Download, removed: bool)
    requires q !in s.cache && q !in s.downloading && s.lock == None && 0 < s.capacity
    requires removed ==> Oldest(s).Some? && Oldest(s).value in s.cache && s.cache[Oldest(s).value].path in s.files + {download.path}
    ensures After(s, LeadThenInsert(s, q, download, removed)).Some?
    ensures var r, out, files := After(s, LeadThenInsert(s, q, download, removed)).value, Oldest(s), s.files + {download.path};
            && r.queue == Pushed(s.queue, s.capacity, q) && r.lock == None && r.capacity == s.capacity
            && r.downloading == s.downloading[q := |s.callers|]
            && r.cache == (if out == None then s.cache[q := download]
                           else if removed then (s.cache - {out.value})[q := download] else s.cache - {out.value})
            && r.files == (if removed then files - {s.cache[out.value].path} else files)
  {
    hide Leading, Pushed, Apply, After;
    var steps, insert := Leading(|s.callers|, q) + [Fetch(|s.callers|, download)], Insert(|s.callers|, removed);
    LeadThenFetches(s, q, download);
    assert steps + [insert] == LeadThenInsert(s, q, download, removed);
    var s1 := AfterFetch(s, q, download);
    assert Oldest(s1) == Oldest(s) && s1.callers[|s.callers|] == Caller(q, Fetched(download));
    assert Enabled(s1, insert);
    hide LeadThenInsert, Oldest, Enabled;
    AfterOneMore(s, steps, insert);
    InsertLeaves(s1, |s.callers|, removed);
  }

  /** Slots are lost: with room for one download, a second search whose eviction fails leaves a cache that
      never holds anything again. */
  lemma OneFailureCanEndTheCache(a: Query, b: Query, download: Download) returns (steps: seq<Step>)
    requires a != b
    ensures After(Init(1), steps).Some? && Losses(Init(1), steps) == 1
    ensures forall more :: After(Init(1), steps + more).Some? ==> After(Init(1), steps + more).value.cache == map[]
  {
    var first := LeadThenInsert(Init(1), a, download, false);
    LeadThenInserts(Init(1), a, download, false);
    var s := After(Init(1), first).value;
    LeadThenInserts(s, b, download, false);
    steps := first + LeadThenInsert(s, b, download, false);
    hide LeadThenInsert;
    AfterMore(Init(1), first, LeadThenInsert(s, b, download, false));
    SlotsLostExactly(1, steps);
    EveryRunKeepsInv(Init(1), steps);
    hide After, Inv, Losses;
    forall more | After(Init(1), steps + more).Some?
      ensures After(Init(1), steps + more).value.cache == map[]
    {
      AfterMore(Init(1), steps, more);
      NeverRegained(After(Init(1), steps).value, more);
    }
  }

  lemma NeverRegained(s: State, more: seq<Step>)
    requires Inv(s) && LostSlots(s) == s.capacity && After(s, more).Some?
    ensures After(s, more).value.cache == map[]
  {
    RunLosesExactly(s, more);
    EveryRunKeepsInv(s, more);
    CapacityStays(s, more);
  }

  lemma {:induction false} CapacityStays(s: State, steps: seq<Step>)
    requires After(s, steps).Some?
    ensures After(s, steps).value.capacity == s.capacity
  {
    if steps != [] {
      CapacityStays(s, steps[..|steps| - 1]);
      StepKeepsCapacity(After(s, steps[..|steps| - 1]).value, steps[|steps| - 1]);
      hide Apply, Enabled;
    }
  }

  lemma StepKeepsCapacity(s: State, step: Step)
    requires Enabled(s, step)
    ensures Apply(s, step).capacity == s.capacity
  {
    hide Pushed, Oldest;
  }

  // ---- the files on disk ---------------------------------------------------------

  /** A caller that is about to cache a download. */
  predicate Holding(s: State, t: int) {
    0 <= t < |s.callers| && s.callers[t].pc.Fetched?
  }

  /** Every cached download has its file, and so has every one about to be cached. */
  ghost predicate FilesOk(s: State) {
    && (forall q :: q in s.cache ==> s.cache[q].path in s.files)
    && (forall t :: Holding(s, t) ==> s.callers[t].pc.download.path in s.files)
  }

  /** Some query other than the evicted one serves, or is about to serve, a file. */
  ghost predicate StillServed(s: State, out: Query, path: string) {
    || (exists q :: q in s.cache && q != out && s.cache[q].path == path)
    || (exists t :: Holding(s, t) && s.callers[t].pc.download.path == path)
  }

  /** The eviction of a download whose file is removed though another query's download has the same one. */
  ghost predicate Strands(s: State, step: Step) {
    step.Insert? && step.removed && Oldest(s).Some? && Oldest(s).value in s.cache
    && StillServed(s, Oldest(s).value, s.cache[Oldest(s).value].path)
  }

  lemma OtherStepKeepsFiles(s: State, step: Step)
    requires FilesOk(s) && Enabled(s, step) && !step.Insert?
    ensures FilesOk(Apply(s, step))
  {
    var s' := Apply(s, step);
    forall t | Holding(s', t) ensures s'.callers[t].pc.download.path in s'.files {
      assert Holding(s, t) || (step.Fetch? && t == step.caller);
    }
  }

  lemma KeptFilesKeep(s: State, step: Step)
    requires FilesOk(s) && Enabled(s, step) && step.Insert? && !(step.removed && Oldest(s).Some?)
    ensures FilesOk(Apply(s, step))
  {
    hide Pushed;
    var s' := Apply(s, step);
    assert Holding(s, step.caller);
    assert forall t :: Holding(s', t) ==> Holding(s, t);
  }

  lemma RemovalStrandsExactly(s: State, step: Step)
    requires FilesOk(s) && Enabled(s, step) && step.Insert? && step.removed && Oldest(s).Some?
    requires s.callers[step.caller].query !in s.cache
    ensures FilesOk(Apply(s, step)) <==> !Strands(s, step)
  {
    hide Pushed;
    var s', out := Apply(s, step), Oldest(s).value;
    var path, mine := s.cache[out].path, s.callers[step.caller].query;
    assert Holding(s, step.caller);
    assert forall t :: Holding(s', t) <==> Holding(s, t) && t != step.caller;
    assert forall q :: q in s'.cache <==> q == mine || (q in s.cache && q != out);
    if q :| q in s.cache && q != out && s.cache[q].path == path {
      assert s'.cache[q].path !in s'.files;
    } else if t :| Holding(s, t) && s.callers[t].pc.download.path == path {
      if t == step.caller {
        assert s'.cache[mine].path !in s'.files;
      } else {
        assert Holding(s', t);
      }
    }
  }

  /** Only such an eviction takes a file from under a download, and it always does. */
  lemma StepStrandsExactly(s: State, step: Step)
    requires Inv(s) && FilesOk(s) && Enabled(s, step)
    ensures FilesOk(Apply(s, step)) <==> !Strands(s, step)
  {
    if !step.Insert? {
      OtherStepKeepsFiles(s, step);
    } else if step.removed && Oldest(s).Some? {
      assert MissOk(s, step.caller);
      hide Inv;
      RemovalStrandsExactly(s, step);
    } else {
      hide Inv;
      KeptFilesKeep(s, step);
    }
  }

  /** Some step of a run strands a download. */
  ghost predicate EverStrands(s: State, steps: seq<Step>)
    requires After(s, steps).Some?
  {
    steps != [] && (var init := steps[..|steps| - 1];
                    EverStrands(s, init) || Strands(After(s, init).value, steps[|steps| - 1]))
  }

  /** Every cached download had its file all through a run. */
  ghost predicate AlwaysHadFiles(s: State, steps: seq<Step>)
    requires After(s, steps).Some?
  {
    FilesOk(After(s, steps).value) && (steps == [] || AlwaysHadFiles(s, steps[..|steps| - 1]))
  }

  /** All through a run every cached download has its file exactly when no evicted one shares its file with
      another that is cached or about to be. */
  lemma {:induction false} FilesAreThereExactly(capacity: nat, steps: seq<Step>)
    requires 0 < capacity && After(Init(capacity), steps).Some?
    ensures AlwaysHadFiles(Init(capacity), steps) <==> !EverStrands(Init(capacity), steps)
  {
    if steps != [] {
      var init := steps[..|steps| - 1];
      FilesAreThereExactly(capacity, init);
      EveryRunKeepsInv(Init(capacity), init);
      if AlwaysHadFiles(Init(capacity), init) {
        StepStrandsExactly(After(Init(capacity), init).value, steps[|steps| - 1]);
      }
    }
  }

  /** Which never comes about when different queries find different files. */
  lemma OwnFilesNeverStrand(s: State, step: Step)
    requires Inv(s) && Enabled(s, step)
    requires forall x, y :: x in s.fetched && y in s.fetched && x.1.path == y.1.path ==> x.0 == y.0
    ensures !Strands(s, step)
  {
    hide LockOk, LeadersOk, WaitersOk, Apply;
    var out := Oldest(s);
    if step.Insert? && out.Some? && out.value in s.cache {
      assert (out.value, s.cache[out.value]) in s.fetched;
      forall q | q in s.cache && q != out.value ensures s.cache[q].path != s.cache[out.value].path {
        assert (q, s.cache[q]) in s.fetched;
      }
      forall t | Holding(s, t) ensures s.callers[t].pc.download.path != s.cache[out.value].path {
        assert MissOk(s, t);
      }
    }
  }

  /** But files are named by site and title, so two queries can find one file: with room for one download,
      the second is cached as its file is removed to make way for it. */
  lemma SharedFilesCanVanish(a: Query, b: Query, download: Download) returns (steps: seq<Step>)
    requires a != b
    ensures After(Init(1), steps).Some?
    ensures var s := After(Init(1), steps).value; s.cache == map[b := download] && s.files == {}
  {
    var first := LeadThenInsert(Init(1), a, download, false);
    LeadThenInserts(Init(1), a, download, false);
    var s := After(Init(1), first).value;
    LeadThenInserts(s, b, download, true);
    steps := first + LeadThenInsert(s, b, download, true);
    hide LeadThenInsert;
    AfterMore(Init(1), first, LeadThenInsert(s, b, download, true));
  }

  /** The caller whose step a waiter is waiting for, and that step. */
  function Unblocks(s: State, w: nat): Step
    requires w < |s.callers| && s.callers[w].pc.Waiting? && s.callers[w].pc.leader < |s.callers|
  {
    var l := s.callers[w].pc.leader;
    match s.callers[l].pc
    case Running => FailDownload(l)
    case Fetched(_) => Insert(l, false)
    case CleaningUp(_) =>
      if s.lock == None then CleanUp(l)
      else if At(s, s.lock.value, SecondLook) then LookAgain(s.lock.value)
      else JoinOrLead(s.lock.value)
    case Signalling(_) => Signal(l)
    case _ => WakeUp(w)
  }

  /** How many steps a waiter is from waking. */
  function Distance(s: State, w: nat): nat
    requires w < |s.callers| && s.callers[w].pc.Waiting? && s.callers[w].pc.leader < |s.callers|
  {
    match s.callers[s.callers[w].pc.leader].pc
    case Running => 6
    case Fetched(_) => 6
    case CleaningUp(_) => if s.lock == None then 3 else if At(s, s.lock.value, SecondLook) then 5 else 4
    case Signalling(_) => 2
    case _ => 1
  }

  /** No waiter is stuck: there is always an enabled step, of its leader or of whoever holds the
      lock its leader needs, that wakes it or brings it nearer to waking. */
  lemma WaitersAreReleased(s: State, w: nat)
    requires Reachable(s) && w < |s.callers| && s.callers[w].pc.Waiting?
    ensures s.callers[w].pc.leader < |s.callers| && s.callers[s.callers[w].pc.leader].query == s.callers[w].query
    ensures Enabled(s, Unblocks(s, w))
    ensures var r := Apply(s, Unblocks(s, w));
            r.callers[w].pc == Awake || (r.callers[w].pc == s.callers[w].pc && Distance(r, w) < Distance(s, w))
  {
    ReachableInv(s);
    hide CacheOk, MissOk;
    var l := s.callers[w].pc.leader;
    if s.callers[l].pc.Running? || s.callers[l].pc.Fetched? {
      DownloaderReleases(s, w, l);
    } else if s.callers[l].pc.CleaningUp? {
      CleanerReleases(s, w, l);
    }
  }

  lemma DownloaderReleases(s: State, w: nat, l: nat)
    requires 0 < s.capacity && w < |s.callers| && l < |s.callers| && s.callers[w].pc == Waiting(l)
    requires s.callers[l].pc.Running? || s.callers[l].pc.Fetched?
    ensures Enabled(s, Unblocks(s, w))
    ensures var r := Apply(s, Unblocks(s, w)); r.callers[w].pc == Waiting(l) && Distance(r, w) < Distance(s, w)
  {
    hide Pushed;
  }

  lemma CleanerReleases(s: State, w: nat, l: nat)
    requires LockOk(s) && w < |s.callers| && l < |s.callers| && s.callers[w].pc == Waiting(l) && s.callers[l].pc.CleaningUp?
    ensures Enabled(s, Unblocks(s, w))
    ensures var r := Apply(s, Unblocks(s, w)); r.callers[w].pc == Waiting(l) && Distance(r, w) < Distance(s, w)
  {
    hide Pushed, Oldest, Cached;
  }
}
