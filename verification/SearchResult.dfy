/** What a search for a download returns (Search in discord-bot/music/ytdl.go), over runs of any number of
    searches in any interleaving. */
module SearchResults {
  import opened CircularQueues
  import opened DownloadCaches

  predicate ResultOk(s: State, c: Caller) {
    (c.pc.CleaningUp? || c.pc.Signalling? || c.pc.Returned?) && c.pc.result.Some? ==>
      (c.query, c.pc.result.value) in s.fetched
  }

  lemma StepKeepsResults(s: State, step: Step)
    requires Enabled(s, step) && Inv(s) && forall c :: c in s.callers ==> ResultOk(s, c)
    ensures forall c :: c in DownloadCaches.Apply(s, step).callers ==> ResultOk(DownloadCaches.Apply(s, step), c)
  {
    hide Pushed, LockOk, LeadersOk, WaitersOk;
    var s' := DownloadCaches.Apply(s, step);
    assert s.fetched <= s'.fetched;
    forall t | 0 <= t < |s'.callers| ensures ResultOk(s', s'.callers[t]) {
      assert t < |s.callers| ==> ResultOk(s, s.callers[t]) && MissOk(s, t);
    }
  }

  /** Whatever a search returns was downloaded for its own query: nothing is served under another's
      name, and nothing that was never fetched. */
  lemma {:induction false} SearchReturnsWhatWasFetched(capacity: nat, steps: seq<Step>)
    requires 0 < capacity && After(Init(capacity), steps).Some?
    ensures var s := After(Init(capacity), steps).value; forall c :: c in s.callers ==> ResultOk(s, c)
  {
    if steps != [] {
      var init := steps[..|steps| - 1];
      SearchReturnsWhatWasFetched(capacity, init);
      EveryRunKeepsInv(Init(capacity), init);
      StepKeepsResults(After(Init(capacity), init).value, steps[|steps| - 1]);
    }
  }

  // ---- what a search returns -----------------------------------------------------

  /** What befell one search: what its last look at the cache found, what its own download made, whether it
      led a download to its end, and whether that came to nothing. */
  datatype Story = Story(look: Option<Option<Download>>, made: Option<Download>, led: bool, lost: bool)

  const UNTOLD := Story(None, None, false, false)

  /** What one step adds to the story of caller t. */
  function Tell(s: State, step: Step, t: nat, story: Story): Story
    requires Enabled(s, step) && t < |s.callers|
  {
    match step
    case LookFast(u) => if u == t then story.(look := Some(Cached(s, s.callers[t].query))) else story
    case LookAgain(u) => if u == t then story.(look := Some(Cached(s, s.callers[t].query))) else story
    case LookLast(u) => if u == t then story.(look := Some(Cached(s, s.callers[t].query))) else story
    case Fetch(u, download) => if u == t then story.(made := Some(download)) else story
    // the download failed
    case FailDownload(u) => if u == t then story.(led := true, lost := true) else story
    // a download had to be evicted, and no file was removed
    case Insert(u, removed) => if u == t then story.(led := true, lost := Oldest(s).Some? && !removed) else story
    case _ => story
  }

  /** The story of caller t over a run. */
  function StoryOf(s: State, steps: seq<Step>, t: nat): Story
    requires After(s, steps).Some?
  {
    if steps == [] then UNTOLD
    else
      var init := steps[..|steps| - 1];
      var r := After(s, init).value;
      if t < |r.callers| then Tell(r, steps[|steps| - 1], t, StoryOf(s, init, t)) else UNTOLD
  }

  /** A leader's result: none when its download came to nothing, else what it made. */
  predicate LeaderResult(result: Option<Download>, story: Story) {
    story.led && if story.lost then result == None else story.made.Some? && result == story.made
  }

  /** Where a search is agrees with its story; one whose look finds a download is done. */
  predicate Follows(c: Caller, story: Story) {
    && (story.look.Some? && story.look.value.Some? ==> c.pc == Returned(story.look.value))
    && (c.pc.Fetched? ==> story.made == Some(c.pc.download))
    && (c.pc.CleaningUp? || c.pc.Signalling? ==> LeaderResult(c.pc.result, story))
    && (c.pc.Returned? ==> if story.led then LeaderResult(c.pc.result, story) else story.look == Some(c.pc.result))
    && (!(c.pc.CleaningUp? || c.pc.Signalling? || c.pc.Returned?) ==> !story.led)
    && (c.pc.Running? ==> story.look == Some(None))
  }

  lemma StepFollows(s: State, step: Step, t: nat, story: Story)
    requires Enabled(s, step) && t < |s.callers| && Follows(s.callers[t], story)
    requires s.callers[t].pc.Missed? ==> story.look == Some(None)
    ensures var c := DownloadCaches.Apply(s, step).callers[t];
            Follows(c, Tell(s, step, t, story)) && (c.pc.Missed? ==> Tell(s, step, t, story).look == Some(None))
  {
    hide Pushed;
  }

  lemma {:induction false} EverySearchFollows(s: State, steps: seq<Step>, t: nat)
    requires s.callers == [] && After(s, steps).Some? && t < |After(s, steps).value.callers|
    ensures var c, story := After(s, steps).value.callers[t], StoryOf(s, steps, t);
            Follows(c, story) && (c.pc.Missed? ==> story.look == Some(None))
  {
    var init := steps[..|steps| - 1];
    var r, step := After(s, init).value, steps[|steps| - 1];
    if t < |r.callers| {
      EverySearchFollows(s, init, t);
      StepFollows(r, step, t, StoryOf(s, init, t));
      hide DownloadCaches.Apply, Enabled, Follows, Tell;
    } else {
      hide Pushed;
    }
  }

  /** Over any run, what a search returns. One that led a download returns nothing exactly when that failed or
      when a cached download had to go and no file was removed, and otherwise what its own download made. Any
      other returns what was cached under its query when it last looked, nothing exactly when nothing was. */
  lemma {:induction false} SearchReturnsExactly(capacity: nat, steps: seq<Step>, s: State, t: nat)
    requires After(Init(capacity), steps) == Some(s) && t < |s.callers| && s.callers[t].pc.Returned?
    ensures var result, story := s.callers[t].pc.result, StoryOf(Init(capacity), steps, t);
            if story.led then
              && (result == None <==> story.lost)
              && (!story.lost ==> story.made.Some? && result == story.made)
            else story.look == Some(result)
  {
    EverySearchFollows(Init(capacity), steps, t);
    hide After, StoryOf;
  }

  /** A search that finds its query cached returns that at once, at its first look as at any other. */
  lemma HitsReturnAtOnce(s: State, t: nat)
    requires t < |s.callers| && s.callers[t].query in s.cache
    ensures Enabled(s, LookFast(t)) ==> DownloadCaches.Apply(s, LookFast(t)).callers[t].pc == Returned(Some(s.cache[s.callers[t].query]))
    ensures Enabled(s, LookAgain(t)) ==> DownloadCaches.Apply(s, LookAgain(t)).callers[t].pc == Returned(Some(s.cache[s.callers[t].query]))
    ensures Enabled(s, LookLast(t)) ==> DownloadCaches.Apply(s, LookLast(t)).callers[t].pc == Returned(Some(s.cache[s.callers[t].query]))
  {
  }

  /** The queries searched for, in order. */
  function Searched(steps: seq<Step>): seq<Query> {
    if steps == [] then []
    else Searched(steps[..|steps| - 1]) + if steps[|steps| - 1].Search? then [steps[|steps| - 1].query] else []
  }

  lemma {:induction false} QueriesAreKept(capacity: nat, steps: seq<Step>)
    requires After(Init(capacity), steps).Some?
    ensures var callers := After(Init(capacity), steps).value.callers;
            |callers| == |Searched(steps)| && forall t :: 0 <= t < |callers| ==> callers[t].query == Searched(steps)[t]
  {
    if steps != [] {
      var init := steps[..|steps| - 1];
      QueriesAreKept(capacity, init);
      StepKeepsQueries(After(Init(capacity), init).value, steps[|steps| - 1]);
      hide DownloadCaches.Apply, Enabled;
    }
  }

  lemma StepKeepsQueries(s: State, step: Step)
    requires Enabled(s, step)
    ensures var callers := DownloadCaches.Apply(s, step).callers;
            && (if step.Search? then callers == s.callers + [Caller(step.query, FastPath)] else |callers| == |s.callers|)
            && forall t :: 0 <= t < |s.callers| ==> callers[t].query == s.callers[t].query
  {
    hide Pushed, Oldest;
  }
}
