/**
 * The frame-sequence player's bookkeeping: the texture cache, the map of
 * in-flight requests and their abort controllers, the liveness flag, the
 * free-running clock and the texture on screen.
 *
 * `loadTexture` is split in two steps. `Begin` is its synchronous prefix,
 * which runs atomically up to the first `await`: the liveness check, the cache
 * lookup, the backpressure check and the in-flight registration. `Complete` is
 * what happens once the fetches are over, given for each candidate URL whether
 * fetching and decoding it succeeded. Any number of other steps may run in
 * between. Each step is a function on a `PlayerState`; the `Player` class
 * performs the same steps in place.
 */
module SequencePlayer {
  import opened Wrappers
  import opened SequenceConfig
  import opened FrameUrls
  import opened NetProfile
  import opened FrameCache
  import opened Playback

  /** How the synchronous prefix of `loadTexture` ends: with a result, or with a request in flight. */
  datatype LoadStart = Finished(result: Option<Texture>) | Pending(controller: nat)

  /** What a scroll update or a tick asks for: a frame, its load, and the prefetch window to schedule. */
  datatype Request = Request(frame: int, load: LoadStart, prefetchLimit: int)

  datatype PlayerState = PlayerState(
    alive: bool,
    cache: seq<Entry>,
    inflight: map<int, nat>,
    aborted: set<nat>,
    disposed: seq<Texture>,
    nextTexture: nat,
    nextController: nat,
    time: int,
    shown: Option<Texture>,
    redraws: nat,
    progress: Option<real>)

  /**
   * What holds of every reachable state: distinct keys, at most
   * `max(0, maxCache)` entries, a clock in range, and only controllers already
   * issued in flight.
   */
  predicate Inv(p: Props, s: PlayerState) {
    && p.count >= 1
    && Distinct(s.cache) && |s.cache| <= Capacity(p.maxCache)
    && 0 <= s.time < p.count
    && forall k :: k in s.inflight ==> s.inflight[k] < s.nextController
  }

  /** The abort controllers of the requests in flight. */
  function Controllers(inflight: map<int, nat>): set<nat> {
    set k | k in inflight :: inflight[k]
  }

  /** The state at mount, with the first value of the `progress` prop (`None` when it is not a number). */
  function Initial(progress: Option<real>): PlayerState {
    PlayerState(true, [], map[], {}, [], 0, 0, 0, None, 0, progress)
  }

  function MaxInflight(p: Props, reported: Option<string>): int {
    GetNetProfile(reported, p.netProfileOverride).maxInflight
  }

  /** The synchronous prefix of `loadTexture(idx, isPrefetch)`. */
  function Begin(p: Props, s: PlayerState, idx: int, isPrefetch: bool, reported: Option<string>): (PlayerState, LoadStart) {
    if !s.alive then (s, Finished(None))
    else match Get(s.cache, idx)
      case Some(t) => (s.(cache := MoveToEnd(s.cache, idx)), Finished(Some(t)))
      case None =>
        if isPrefetch && |s.inflight| >= MaxInflight(p, reported) then (s, Finished(None))
        else (Registered(s, idx), Pending(s.nextController))
  }

  /** The in-flight registration: `idx` gets the next abort controller. */
  function Registered(s: PlayerState, idx: int): PlayerState {
    s.(inflight := s.inflight[idx := s.nextController], nextController := s.nextController + 1)
  }

  predicate Succeeds(outcomes: seq<bool>, i: nat) {
    i < |outcomes| && outcomes[i]
  }

  /** The first of candidates `from .. n - 1` whose fetch and decode succeed. */
  function FirstSuccess(outcomes: seq<bool>, n: nat, from: nat): (w: Option<nat>)
    ensures w.Some? ==> from <= w.value < n && Succeeds(outcomes, w.value)
    ensures w.Some? ==> forall j :: from <= j < w.value ==> !Succeeds(outcomes, j)
    ensures w.None? ==> forall j :: from <= j < n ==> !Succeeds(outcomes, j)
    decreases n - from
  {
    if from >= n then None
    else if Succeeds(outcomes, from) then Some(from)
    else FirstSuccess(outcomes, n, from + 1)
  }

  function EvictedPart(o: Option<Texture>): seq<Texture> {
    match o
    case Some(t) => [t]
    case None => []
  }

  /**
   * The completion of `loadTexture(idx)`: the first candidate that succeeds
   * gives a new texture, stored with at most one eviction; the in-flight entry
   * for `idx` is deleted in every case. Liveness is not checked again.
   */
  function Complete(p: Props, s: PlayerState, idx: int, outcomes: seq<bool>): (PlayerState, Option<Texture>) {
    var tries := TryList(p, idx);
    match FirstSuccess(outcomes, |tries|, 0)
    case None => (Failed(s, idx), None)
    case Some(w) =>
      var t := Texture(s.nextTexture, tries[w]);
      (Stored(p, s, idx, t), Some(t))
  }

  /** The state after a completion in which every candidate failed. */
  function Failed(s: PlayerState, idx: int): PlayerState {
    s.(inflight := s.inflight - {idx})
  }

  /** The state after a completion that produced texture `t`. */
  function Stored(p: Props, s: PlayerState, idx: int, t: Texture): PlayerState {
    var c := Set(s.cache, idx, t);
    s.(inflight := s.inflight - {idx}, cache := Evict(c, p.maxCache),
       disposed := s.disposed + EvictedPart(Evicted(c, p.maxCache)),
       nextTexture := s.nextTexture + 1)
  }

  /** The cleanup effect: dead from now on, every cached texture disposed, every controller aborted. */
  function TornDown(s: PlayerState): PlayerState {
    s.(alive := false, cache := [], disposed := s.disposed + Textures(s.cache),
       aborted := s.aborted + Controllers(s.inflight), inflight := map[])
  }

  /** `showFrame`'s swap: a loaded texture replaces the one on screen, with a redraw, only when it differs. */
  function Presented(s: PlayerState, tex: Option<Texture>): PlayerState {
    if tex.Some? && s.shown != tex then s.(shown := tex, redraws := s.redraws + 1) else s
  }

  /** The scrub effect for a progress value: show the scrubbed frame and prefetch ahead of it. */
  function Scrub(p: Props, s: PlayerState, progress: real, reported: Option<string>): (PlayerState, Request) {
    var idx := ScrubIndex(p.count, p.loops, progress);
    var (s1, r) := Begin(p, s, idx, false, reported);
    (s1, Request(idx, r, PrefetchLimit(p, reported)))
  }

  /**
   * The scrub effect after a new `progress` value: when it is a number, the
   * scrubbed frame is shown and prefetched ahead of; otherwise the effect
   * returns at once.
   */
  function ScrubEffect(p: Props, s: PlayerState, progress: Option<real>, reported: Option<string>): (PlayerState, Option<Request>) {
    var s0 := s.(progress := progress);
    match progress
    case None => (s0, None)
    case Some(v) =>
      var (s1, r) := Scrub(p, s0, v, reported);
      (s1, Some(r))
  }

  /**
   * The loop effect: the period of the interval timer it installs, or `None`
   * when it returns early because `progress` is a number or `active` is off.
   */
  function LoopInterval(p: Props, progress: Option<real>): Option<JsNumber.Num> {
    if progress.Some? || !p.active then None else Some(IntervalMs(p.fps))
  }

  /** One timer tick: nothing when dead or hidden, else advance the clock and show that frame. */
  function Tick(p: Props, s: PlayerState, hidden: bool, reported: Option<string>): (PlayerState, Option<Request>)
    requires p.count >= 1
    requires LoopInterval(p, s.progress).Some?
  {
    if !s.alive || hidden then (s, None)
    else
      var next := NextFrame(s.time, p.count);
      var (s1, r) := Begin(p, s.(time := next), next, false, reported);
      (s1, Some(Request(next, r, PrefetchLimit(p, reported))))
  }

  /**
   * The scheduled prefetch callback, from step `k` on: each window index that
   * is neither cached nor in flight gets a prefetch `loadTexture`, which (see
   * `PrefetchStepShape`) registers it exactly when `CanPrefetch` holds.
   * `started` collects the indices whose request went in flight.
   */
  function Batch(p: Props, s: PlayerState, idx: int, k: int, limit: int, maxInflight: int, started: seq<int>): (PlayerState, seq<int>)
    decreases if k <= limit then limit - k + 1 else 0
  {
    if k > limit then (s, started)
    else
      var n := WindowIndex(p, idx, k);
      if n in Keys(s.cache) || n in s.inflight || !CanPrefetch(s, maxInflight) then
        Batch(p, s, idx, k + 1, limit, maxInflight, started)
      else Batch(p, Registered(s, n), idx, k + 1, limit, maxInflight, started + [n])
  }

  /** Whether a prefetch miss goes in flight: a live player below `MAX_INFLIGHT`. */
  predicate CanPrefetch(s: PlayerState, maxInflight: int) {
    s.alive && |s.inflight| < maxInflight
  }

  // ---------------------------------------------------------------------------
  // Properties of the steps
  // ---------------------------------------------------------------------------

  /** A dead player's `loadTexture` returns null at once and changes nothing. */
  lemma BeginWhenDead(p: Props, s: PlayerState, idx: int, isPrefetch: bool, reported: Option<string>)
    requires !s.alive
    ensures Begin(p, s, idx, isPrefetch, reported) == (s, Finished(None))
  {
  }

  /**
   * A hit returns the cached texture and moves `idx` to the newest position;
   * size and every lookup are unchanged and no request goes in flight. The hit
   * check comes first, so it holds for prefetches even when in-flight is full.
   */
  lemma BeginHit(p: Props, s: PlayerState, idx: int, isPrefetch: bool, reported: Option<string>)
    requires Inv(p, s) && s.alive && idx in Keys(s.cache)
    ensures var (s1, r) := Begin(p, s, idx, isPrefetch, reported);
            r == Finished(Get(s.cache, idx)) && r.result.Some? &&
            |s1.cache| == |s.cache| &&
            (forall j :: Get(s1.cache, j) == Get(s.cache, j)) &&
            Keys(s1.cache) == Keys(Delete(s.cache, idx)) + [idx] &&
            s1.inflight == s.inflight &&
            s1 == s.(cache := s1.cache)
  {
    MoveToEndKeepsEntries(s.cache, idx);
  }

  /** A prefetch miss with `MAX_INFLIGHT` requests already in flight backs off: null, and no change. */
  lemma BeginBackpressure(p: Props, s: PlayerState, idx: int, reported: Option<string>)
    requires s.alive && idx !in Keys(s.cache) && |s.inflight| >= MaxInflight(p, reported)
    ensures Begin(p, s, idx, true, reported) == (s, Finished(None))
  {
  }

  /** Otherwise a miss registers a fresh controller for `idx`, replacing any controller already there. */
  lemma BeginMiss(p: Props, s: PlayerState, idx: int, isPrefetch: bool, reported: Option<string>)
    requires s.alive && idx !in Keys(s.cache)
    requires !isPrefetch || |s.inflight| < MaxInflight(p, reported)
    ensures var (s1, r) := Begin(p, s, idx, isPrefetch, reported);
            r == Pending(s.nextController) &&
            s1.inflight == s.inflight[idx := s.nextController] &&
            s1.cache == s.cache &&
            s1 == s.(inflight := s1.inflight, nextController := s.nextController + 1)
  {
  }

  lemma BeginKeepsInv(p: Props, s: PlayerState, idx: int, isPrefetch: bool, reported: Option<string>)
    requires Inv(p, s)
    ensures Inv(p, Begin(p, s, idx, isPrefetch, reported).0)
  {
    if s.alive && idx in Keys(s.cache) {
      MoveToEndKeepsEntries(s.cache, idx);
    }
  }

  /** A completion deletes the in-flight entry for `idx` whatever the outcome, and keeps the invariant. */
  lemma CompleteKeepsInv(p: Props, s: PlayerState, idx: int, outcomes: seq<bool>)
    requires Inv(p, s)
    ensures var s1 := Complete(p, s, idx, outcomes).0;
            Inv(p, s1) && s1.inflight == s.inflight - {idx} && idx !in s1.inflight &&
            s1.alive == s.alive && s1.aborted == s.aborted && s1.time == s.time
  {
    var tries := TryList(p, idx);
    var w := FirstSuccess(outcomes, |tries|, 0);
    if w.Some? {
      StoredKeepsInv(p, s, idx, Texture(s.nextTexture, tries[w.value]));
    }
  }

  lemma StoredKeepsInv(p: Props, s: PlayerState, idx: int, t: Texture)
    requires Inv(p, s)
    ensures Inv(p, Stored(p, s, idx, t))
  {
    StoreKeepsBound(s.cache, idx, t, p.maxCache);
  }

  /** The loaded texture comes from the first candidate URL that succeeded; null means every candidate failed. */
  lemma CompleteResult(p: Props, s: PlayerState, idx: int, outcomes: seq<bool>)
    ensures var r := Complete(p, s, idx, outcomes).1;
            var tries := TryList(p, idx);
            (r.None? <==> forall j :: 0 <= j < |tries| ==> !Succeeds(outcomes, j)) &&
            (r.Some? ==> exists w :: 0 <= w < |tries| && r.value.url == tries[w] && Succeeds(outcomes, w) &&
                           forall j :: 0 <= j < w ==> !Succeeds(outcomes, j))
  {
    var tries := TryList(p, idx);
    var w := FirstSuccess(outcomes, |tries|, 0);
    if w.Some? {
      assert Succeeds(outcomes, w.value);
    }
  }

  /**
   * On failure the cache and the disposals are unchanged. On success the new
   * texture is stored under `idx` and at most one texture is disposed: the
   * oldest entry's, or the new one's own when there is no room at all.
   */
  lemma CompleteCache(p: Props, s: PlayerState, idx: int, outcomes: seq<bool>)
    requires Inv(p, s)
    ensures var (s1, r) := Complete(p, s, idx, outcomes);
            (r.None? ==> s1.cache == s.cache && s1.disposed == s.disposed) &&
            (r.Some? ==> s1.cache == Store(s.cache, idx, r.value, p.maxCache) && Get(Set(s.cache, idx, r.value), idx) == r) &&
            |s.disposed| <= |s1.disposed| <= |s.disposed| + 1 && s1.disposed[..|s.disposed|] == s.disposed &&
            (|s1.disposed| == |s.disposed| + 1 ==>
               r.Some? && s1.disposed[|s.disposed|] == (if s.cache == [] then r.value else s.cache[0].tex))
  {
    var tries := TryList(p, idx);
    var w := FirstSuccess(outcomes, |tries|, 0);
    if w.Some? {
      StoredCache(p, s, idx, Texture(s.nextTexture, tries[w.value]));
    }
  }

  /** Storing `t`: the cache is `Store`'s, `t` is found under `idx`, and at most the oldest entry is disposed. */
  lemma StoredCache(p: Props, s: PlayerState, idx: int, t: Texture)
    requires Inv(p, s)
    ensures var s1 := Stored(p, s, idx, t);
            s1.cache == Store(s.cache, idx, t, p.maxCache) && Get(Set(s.cache, idx, t), idx) == Some(t) &&
            |s.disposed| <= |s1.disposed| <= |s.disposed| + 1 && s1.disposed[..|s.disposed|] == s.disposed &&
            (|s1.disposed| == |s.disposed| + 1 ==>
               s1.disposed[|s.disposed|] == (if s.cache == [] then t else s.cache[0].tex))
  {
    SetKeys(s.cache, idx, t);
    SetLookups(s.cache, idx, t);
    var c := Set(s.cache, idx, t);
    if s.cache != [] && idx !in Keys(s.cache) {
      assert c[0] == s.cache[0];
    }
  }

  /** The candidates for one frame: the explicit source, then each extension, as in the documented example. */
  lemma CandidateOrderExample(p: Props, name: string)
    requires p.sources == Some(["A"]) && p.extCandidates == Some(["webp", "png"])
    requires FrameName(p, 0) == name
    ensures TryList(p, 0) == ["A", name + ".webp", name + ".png"]
  {
    assert ExplicitPart(p, 0) == ["A"];
    assert Candidates(p) == ["webp", "png"];
    var t := TryList(p, 0);
    assert t[1] == name + "." + "webp" && t[2] == name + "." + "png";
    assert |t| == 3;
    assert name + "." + "webp" == name + ".webp";
    assert name + "." + "png" == name + ".png";
    assert t == [t[0], t[1], t[2]];
  }

  /** A completion that arrives after teardown still writes into the cache. */
  lemma CompletionAfterTeardownStillCaches(p: Props, s: PlayerState, idx: int, outcomes: seq<bool>)
    requires Inv(p, s) && p.maxCache >= 1 && Succeeds(outcomes, 0)
    ensures var (s1, r) := Complete(p, TornDown(s), idx, outcomes);
            !s1.alive && r.Some? && Get(s1.cache, idx) == r
  {
    var d := TornDown(s);
    var t := Texture(d.nextTexture, TryList(p, idx)[0]);
    StoreRetainsNewFrame([], idx, t, p.maxCache);
  }

  /**
   * Two on-demand loads of one frame both go in flight; the second's
   * controller replaces the first's, which is no longer tracked, and whichever
   * completes first deletes the entry, so a teardown aborts neither.
   */
  lemma DuplicateOnDemandLoads(p: Props, s: PlayerState, idx: int, reported: Option<string>, outcomes: seq<bool>)
    requires Inv(p, s) && s.alive && idx !in Keys(s.cache)
    ensures var (s1, r1) := Begin(p, s, idx, false, reported);
            var (s2, r2) := Begin(p, s1, idx, false, reported);
            var s3 := Complete(p, s2, idx, outcomes).0;
            r1.Pending? && r2.Pending? && r1.controller != r2.controller &&
            s2.inflight[idx] == r2.controller && r1.controller !in Controllers(s2.inflight) &&
            idx !in s3.inflight &&
            r1.controller !in TornDown(s3).aborted - s.aborted &&
            r2.controller !in TornDown(s3).aborted - s.aborted
  {
    var c0 := s.nextController;
    DuplicateBegins(p, s, idx, reported);
    var s2 := Registered(Registered(s, idx), idx);
    CompleteFrame(p, s2, idx, outcomes);
    var s3 := Complete(p, s2, idx, outcomes).0;
    assert s3.inflight == s.inflight - {idx};
    ControllersBelow(s.inflight - {idx}, c0);
  }

  /**
   * A completion for a frame that is already cached replaces its texture
   * without disposing it. The entry keeps its place, so nothing is evicted,
   * and the earlier texture is neither cached nor disposed afterwards.
   */
  lemma StoreOverCachedLeaks(p: Props, s: PlayerState, idx: int, t: Texture)
    requires Inv(p, s) && idx in Keys(s.cache)
    requires t != Get(s.cache, idx).value
    requires forall e :: e in s.cache && e.key != idx ==> e.tex != Get(s.cache, idx).value
    ensures var s1 := Stored(p, s, idx, t);
            var t0 := Get(s.cache, idx).value;
            Get(s1.cache, idx) == Some(t) && s1.disposed == s.disposed &&
            t0 !in Textures(s1.cache) && t0 !in s1.disposed[|s.disposed|..]
  {
    var c := Set(s.cache, idx, t);
    SetLookups(s.cache, idx, t);
    SetEntries(s.cache, idx, t);
    assert |c| == |s.cache| <= Capacity(p.maxCache);
    assert Evict(c, p.maxCache) == c;
  }

  /** The two synchronous prefixes: both register `idx`, the second with the next controller, replacing the first. */
  lemma DuplicateBegins(p: Props, s: PlayerState, idx: int, reported: Option<string>)
    requires Inv(p, s) && s.alive && idx !in Keys(s.cache)
    ensures var c0 := s.nextController;
            var s1 := Registered(s, idx);
            var s2 := Registered(s1, idx);
            Begin(p, s, idx, false, reported) == (s1, Pending(c0)) &&
            Begin(p, s1, idx, false, reported) == (s2, Pending(c0 + 1)) &&
            s2.inflight == s.inflight[idx := c0 + 1] &&
            forall c :: c in Controllers(s2.inflight) ==> c < c0 || c == c0 + 1
  {
    var c0 := s.nextController;
    var s2 := Registered(Registered(s, idx), idx);
    forall c | c in Controllers(s2.inflight) ensures c < c0 || c == c0 + 1 {
      var k :| k in s2.inflight && s2.inflight[k] == c;
      if k != idx {
        assert s.inflight[k] == c;
      }
    }
  }

  /** A completion changes neither the aborted controllers nor any in-flight entry but the one for `idx`, which it deletes. */
  lemma CompleteFrame(p: Props, s: PlayerState, idx: int, outcomes: seq<bool>)
    ensures Complete(p, s, idx, outcomes).0.inflight == s.inflight - {idx}
    ensures Complete(p, s, idx, outcomes).0.aborted == s.aborted
  {
  }

  /** Every controller of a map whose values are all below `bound` is below it. */
  lemma ControllersBelow(m: map<int, nat>, bound: nat)
    requires forall k :: k in m ==> m[k] < bound
    ensures forall c :: c in Controllers(m) ==> c < bound
  {
    forall c | c in Controllers(m) ensures c < bound {
      var k :| k in m && m[k] == c;
    }
  }


  /** After teardown the cache and the in-flight map are empty, every controller is aborted and every texture disposed. */
  lemma TeardownReleasesAll(p: Props, s: PlayerState)
    requires Inv(p, s)
    ensures var d := TornDown(s);
            !d.alive && d.cache == [] && d.inflight == map[] &&
            (forall k :: k in s.inflight ==> s.inflight[k] in d.aborted) &&
            (forall e :: e in s.cache ==> e.tex in d.disposed[|s.disposed|..]) &&
            Inv(p, d)
  {
    var d := TornDown(s);
    assert d.disposed[|s.disposed|..] == Textures(s.cache);
    forall e | e in s.cache ensures e.tex in Textures(s.cache) {
      var i :| 0 <= i < |s.cache| && s.cache[i] == e;
      assert Textures(s.cache)[i] == e.tex;
    }
  }

  /** Nothing loads after teardown: every later `loadTexture` prefix is a no-op. */
  lemma NoLoadsAfterTeardown(p: Props, s: PlayerState, idx: int, isPrefetch: bool, reported: Option<string>)
    ensures Begin(p, TornDown(s), idx, isPrefetch, reported) == (TornDown(s), Finished(None))
  {
  }

  /** A tick on a live, visible player advances the clock by one frame modulo `count` and shows it; otherwise nothing happens. */
  lemma TickAdvances(p: Props, s: PlayerState, hidden: bool, reported: Option<string>)
    requires Inv(p, s) && LoopInterval(p, s.progress).Some?
    ensures var (s1, r) := Tick(p, s, hidden, reported);
            Inv(p, s1) &&
            (!s.alive || hidden ==> s1 == s && r.None?) &&
            (s.alive && !hidden ==> r.Some? && s1.time == NextFrame(s.time, p.count) && r.value.frame == s1.time) &&
            (s.alive && !hidden && s.time < p.count - 1 ==> s1.time == s.time + 1) &&
            (s.alive && !hidden && s.time == p.count - 1 ==> s1.time == 0)
  {
    if s.alive && !hidden {
      var next := NextFrame(s.time, p.count);
      NextFrameSteps(s.time, p.count);
      var s0 := s.(time := next);
      assert Inv(p, s0);
      BeginKeepsInv(p, s0, next, false, reported);
      var (s1, r) := Begin(p, s0, next, false, reported);
      assert s1.time == next;
    }
  }

  /**
   * Scroll-driven and free-running playback exclude each other. The scrub
   * effect requests a frame exactly when `progress` is a number. The loop
   * effect installs its timer exactly when `progress` is not a number and
   * `active` holds, with the period `IntervalMs(fps)`. So after any scrub
   * effect no tick can run, and a player whose timer runs gets no scrub request.
   */
  lemma ModesExclusive(p: Props, s: PlayerState, progress: Option<real>, reported: Option<string>)
    ensures var (s1, r) := ScrubEffect(p, s, progress, reported);
            s1.progress == progress &&
            (r.Some? <==> progress.Some?) &&
            (r.Some? ==> (s1, r.value) == Scrub(p, s.(progress := progress), progress.value, reported)) &&
            (r.None? ==> s1 == s.(progress := progress)) &&
            (LoopInterval(p, progress).Some? <==> progress.None? && p.active) &&
            (LoopInterval(p, progress).Some? ==> LoopInterval(p, progress).value == IntervalMs(p.fps)) &&
            (r.Some? ==> LoopInterval(p, s1.progress).None?)
  {
  }

  /** A scroll update requests a frame in range and keeps the invariant. */
  lemma ScrubKeepsInv(p: Props, s: PlayerState, progress: real, reported: Option<string>)
    requires Inv(p, s)
    ensures var (s1, r) := Scrub(p, s, progress, reported);
            Inv(p, s1) && 0 <= r.frame < p.count && s1.time == s.time
  {
    BeginKeepsInv(p, s, ScrubIndex(p.count, p.loops, progress), false, reported);
  }

  /** The texture on screen changes, with one redraw, only for a loaded texture that differs; a repeat is a no-op. */
  lemma PresentOnlyOnChange(s: PlayerState, tex: Option<Texture>)
    ensures var s1 := Presented(s, tex);
            (s1.redraws == s.redraws + 1 <==> tex.Some? && tex != s.shown) &&
            (s1.redraws != s.redraws + 1 ==> s1 == s) &&
            (tex.Some? ==> s1.shown == tex) &&
            Presented(s1, tex) == s1
  {
  }

  predicate NoDuplicates(xs: seq<int>) {
    forall i, j :: 0 <= i < j < |xs| ==> xs[i] != xs[j]
  }

  /**
   * `loadTexture(n, true)` on an index that is not cached either registers a
   * fresh controller for it (live player, in-flight count below
   * `MAX_INFLIGHT`) or returns null and changes nothing: the step `Batch` takes.
   */
  lemma PrefetchStepShape(p: Props, s: PlayerState, n: int, reported: Option<string>)
    requires n !in Keys(s.cache)
    ensures CanPrefetch(s, MaxInflight(p, reported)) ==>
      Begin(p, s, n, true, reported) == (Registered(s, n), Pending(s.nextController))
    ensures !CanPrefetch(s, MaxInflight(p, reported)) ==> Begin(p, s, n, true, reported) == (s, Finished(None))
  {
  }

  /** The indices steps `k .. limit` of the window visit, in order. */
  function Window(p: Props, idx: int, k: int, limit: int): seq<int>
    decreases if k <= limit then limit - k + 1 else 0
  {
    if k > limit then [] else [WindowIndex(p, idx, k)] + Window(p, idx, k + 1, limit)
  }

  /** An index is in the window exactly when some step `k .. limit` gives it. */
  lemma {:induction false} WindowMembers(p: Props, idx: int, k: int, limit: int, n: int)
    ensures n in Window(p, idx, k, limit) <==> exists j :: k <= j <= limit && n == WindowIndex(p, idx, j)
    decreases if k <= limit then limit - k + 1 else 0
  {
    if k <= limit {
      WindowMembers(p, idx, k + 1, limit, n);
      if n in Window(p, idx, k + 1, limit) {
        var j :| k + 1 <= j <= limit && n == WindowIndex(p, idx, j);
        assert k <= j <= limit;
      }
      if exists j :: k <= j <= limit && n == WindowIndex(p, idx, j) {
        var j :| k <= j <= limit && n == WindowIndex(p, idx, j);
        if j > k {
          assert n in Window(p, idx, k + 1, limit);
        }
      }
    }
  }

  /**
   * A prefetch batch leaves the cache, the clock and the liveness flag alone,
   * keeps every request already in flight, and only appends to `started`;
   * on a dead player it does nothing at all.
   */
  lemma {:induction false} BatchFrame(p: Props, s: PlayerState, idx: int, k: int, limit: int, maxInflight: int, acc: seq<int>)
    ensures Keeps(s, Batch(p, s, idx, k, limit, maxInflight, acc).0)
    ensures !s.alive ==> Batch(p, s, idx, k, limit, maxInflight, acc) == (s, acc)
    decreases if k <= limit then limit - k + 1 else 0
  {
    if k <= limit {
      var n := WindowIndex(p, idx, k);
      if n in Keys(s.cache) || n in s.inflight || !CanPrefetch(s, maxInflight) {
        BatchFrame(p, s, idx, k + 1, limit, maxInflight, acc);
      } else {
        var s1 := Registered(s, n);
        BatchFrame(p, s1, idx, k + 1, limit, maxInflight, acc + [n]);
        var s2 := Batch(p, s1, idx, k + 1, limit, maxInflight, acc + [n]).0;
        assert Keeps(s, s1) && Keeps(s1, s2);
      }
    }
  }

  /** `s1` keeps the cache, the clock, liveness and every request `s` had in flight. */
  ghost predicate Keeps(s: PlayerState, s1: PlayerState) {
    && s1.cache == s.cache && s1.alive == s.alive && s1.time == s.time
    && forall n :: n in s.inflight ==> n in s1.inflight && s1.inflight[n] == s.inflight[n]
  }

  /** A batch keeps the invariant. */
  lemma {:induction false} BatchKeepsInv(p: Props, s: PlayerState, idx: int, k: int, limit: int, maxInflight: int, acc: seq<int>)
    requires Inv(p, s)
    ensures Inv(p, Batch(p, s, idx, k, limit, maxInflight, acc).0)
    decreases if k <= limit then limit - k + 1 else 0
  {
    if k <= limit {
      var n := WindowIndex(p, idx, k);
      if n in Keys(s.cache) || n in s.inflight || !CanPrefetch(s, maxInflight) {
        BatchKeepsInv(p, s, idx, k + 1, limit, maxInflight, acc);
      } else {
        var s1 := Registered(s, n);
        assert Inv(p, s1);
        BatchKeepsInv(p, s1, idx, k + 1, limit, maxInflight, acc + [n]);
      }
    }
  }



  /** `xs` is a prefix of `ys`. */
  predicate IsPrefix(xs: seq<int>, ys: seq<int>) {
    |xs| <= |ys| && forall i :: 0 <= i < |xs| ==> ys[i] == xs[i]
  }

  /** A batch only appends to `started`. */
  lemma {:induction false} BatchExtends(p: Props, s: PlayerState, idx: int, k: int, limit: int, maxInflight: int, acc: seq<int>)
    ensures IsPrefix(acc, Batch(p, s, idx, k, limit, maxInflight, acc).1)
    decreases if k <= limit then limit - k + 1 else 0
  {
    if k <= limit {
      var n := WindowIndex(p, idx, k);
      if n in Keys(s.cache) || n in s.inflight || !CanPrefetch(s, maxInflight) {
        BatchExtends(p, s, idx, k + 1, limit, maxInflight, acc);
      } else {
        var s1 := Registered(s, n);
        BatchExtends(p, s1, idx, k + 1, limit, maxInflight, acc + [n]);
        var out := Batch(p, s1, idx, k + 1, limit, maxInflight, acc + [n]).1;
        assert IsPrefix(acc + [n], out);
        forall i | 0 <= i < |acc| ensures out[i] == acc[i] {
          assert out[i] == (acc + [n])[i];
        }
      }
    }
  }

  /** A batch starts each index at most once. */
  lemma {:induction false} BatchNoDuplicates(p: Props, s: PlayerState, idx: int, k: int, limit: int, maxInflight: int, acc: seq<int>)
    requires NoDuplicates(acc) && forall n :: n in acc ==> n in s.inflight
    ensures NoDuplicates(Batch(p, s, idx, k, limit, maxInflight, acc).1)
    decreases if k <= limit then limit - k + 1 else 0
  {
    if k <= limit {
      var n := WindowIndex(p, idx, k);
      if n in Keys(s.cache) || n in s.inflight || !CanPrefetch(s, maxInflight) {
        BatchNoDuplicates(p, s, idx, k + 1, limit, maxInflight, acc);
      } else {
        var s1 := Registered(s, n);
        AppendFresh(acc, n);
        assert forall m :: m in acc + [n] ==> m in s1.inflight;
        BatchNoDuplicates(p, s1, idx, k + 1, limit, maxInflight, acc + [n]);
      }
    }
  }

  lemma AppendFresh(xs: seq<int>, n: int)
    requires NoDuplicates(xs) && n !in xs
    ensures NoDuplicates(xs + [n])
  {
    var ys := xs + [n];
    forall i, j | 0 <= i < j < |ys| ensures ys[i] != ys[j] {
      assert ys[i] == xs[i];
      if j < |xs| {
        assert ys[j] == xs[j];
      } else {
        assert xs[i] in xs;
      }
    }
  }

  /** Every entry of `out` from position `from` on is a window index that `s` had neither cached nor in flight. */
  ghost predicate FreshTargets(out: seq<int>, from: int, s: PlayerState, window: seq<int>) {
    forall i :: 0 <= from <= i < |out| ==> out[i] !in Keys(s.cache) && out[i] !in s.inflight && out[i] in window
  }

  /** Each index a batch starts was in the window and neither cached nor in flight when the batch began. */
  lemma {:induction false} BatchTargets(p: Props, s: PlayerState, idx: int, k: int, limit: int, maxInflight: int, acc: seq<int>)
    ensures FreshTargets(Batch(p, s, idx, k, limit, maxInflight, acc).1, |acc|, s, Window(p, idx, k, limit))
    decreases if k <= limit then limit - k + 1 else 0
  {
    if k <= limit {
      var n := WindowIndex(p, idx, k);
      var w := Window(p, idx, k + 1, limit);
      assert Window(p, idx, k, limit) == [n] + w;
      if n in Keys(s.cache) || n in s.inflight || !CanPrefetch(s, maxInflight) {
        BatchTargets(p, s, idx, k + 1, limit, maxInflight, acc);
        var out := Batch(p, s, idx, k + 1, limit, maxInflight, acc).1;
        assert FreshTargets(out, |acc|, s, w);
        forall i | 0 <= |acc| <= i < |out|
          ensures out[i] !in Keys(s.cache) && out[i] !in s.inflight && out[i] in [n] + w
        {
          assert out[i] in w;
        }
      } else {
        var s1 := Registered(s, n);
        BatchTargets(p, s1, idx, k + 1, limit, maxInflight, acc + [n]);
        BatchExtends(p, s1, idx, k + 1, limit, maxInflight, acc + [n]);
        var out := Batch(p, s1, idx, k + 1, limit, maxInflight, acc + [n]).1;
        assert FreshTargets(out, |acc| + 1, s1, w);
        forall i | 0 <= |acc| <= i < |out|
          ensures out[i] !in Keys(s.cache) && out[i] !in s.inflight && out[i] in [n] + w
        {
          if i == |acc| {
            assert out[i] == (acc + [n])[i] == n;
          } else {
            assert out[i] in w && out[i] !in s1.inflight;
          }
        }
      }
    }
  }

  /** What is in flight after a batch is what was before plus what the batch started. */
  lemma {:induction false} BatchInflight(p: Props, s: PlayerState, idx: int, k: int, limit: int, maxInflight: int, acc: seq<int>)
    requires forall n :: n in acc ==> n in s.inflight
    ensures var (s1, out) := Batch(p, s, idx, k, limit, maxInflight, acc);
            forall n :: n in s1.inflight <==> n in s.inflight || n in out
    decreases if k <= limit then limit - k + 1 else 0
  {
    if k <= limit {
      var n := WindowIndex(p, idx, k);
      if n in Keys(s.cache) || n in s.inflight || !CanPrefetch(s, maxInflight) {
        BatchInflight(p, s, idx, k + 1, limit, maxInflight, acc);
      } else {
        var s1 := Registered(s, n);
        BatchInflight(p, s1, idx, k + 1, limit, maxInflight, acc + [n]);
        BatchExtends(p, s1, idx, k + 1, limit, maxInflight, acc + [n]);
        var out := Batch(p, s1, idx, k + 1, limit, maxInflight, acc + [n]).1;
        assert out[|acc|] == (acc + [n])[|acc|] == n;
      }
    }
  }

  /** A batch never pushes the in-flight count past `MAX_INFLIGHT`, nor further past it when it already was. */
  lemma {:induction false} BatchBound(p: Props, s: PlayerState, idx: int, k: int, limit: int, maxInflight: int, acc: seq<int>)
    ensures |Batch(p, s, idx, k, limit, maxInflight, acc).0.inflight| <= Max(|s.inflight|, maxInflight)
    decreases if k <= limit then limit - k + 1 else 0
  {
    if k <= limit {
      var n := WindowIndex(p, idx, k);
      if n in Keys(s.cache) || n in s.inflight || !CanPrefetch(s, maxInflight) {
        BatchBound(p, s, idx, k + 1, limit, maxInflight, acc);
      } else {
        var s1 := Registered(s, n);
        assert |s1.inflight| == |s.inflight| + 1;
        BatchBound(p, s1, idx, k + 1, limit, maxInflight, acc + [n]);
      }
    }
  }

  /** Within one batch no frame is requested twice, and every request was for a frame neither cached nor in flight. */
  lemma BatchRequestsOnce(p: Props, s: PlayerState, idx: int, limit: int, reported: Option<string>)
    requires Inv(p, s)
    ensures var (s1, out) := Batch(p, s, idx, 1, limit, MaxInflight(p, reported), []);
            NoDuplicates(out) && s1.cache == s.cache &&
            (forall n :: n in out ==> n !in Keys(s.cache) && n !in s.inflight && n in s1.inflight) &&
            (forall i :: 0 <= i < |out| ==> exists j :: 1 <= j <= limit && out[i] == WindowIndex(p, idx, j)) &&
            |s1.inflight| <= Max(|s.inflight|, MaxInflight(p, reported))
  {
    BatchFrame(p, s, idx, 1, limit, MaxInflight(p, reported), []);
    BatchKeepsInv(p, s, idx, 1, limit, MaxInflight(p, reported), []);
    BatchNoDuplicates(p, s, idx, 1, limit, MaxInflight(p, reported), []);
    BatchTargets(p, s, idx, 1, limit, MaxInflight(p, reported), []);
    BatchInflight(p, s, idx, 1, limit, MaxInflight(p, reported), []);
    BatchBound(p, s, idx, 1, limit, MaxInflight(p, reported), []);
    var (s1, out) := Batch(p, s, idx, 1, limit, MaxInflight(p, reported), []);
    forall i | 0 <= i < |out| ensures exists j :: 1 <= j <= limit && out[i] == WindowIndex(p, idx, j) {
      WindowMembers(p, idx, 1, limit, out[i]);
    }
    forall n | n in out ensures n !in Keys(s.cache) && n !in s.inflight {
      var i :| 0 <= i < |out| && out[i] == n;
    }
  }

  // ---------------------------------------------------------------------------
  // The player object
  // ---------------------------------------------------------------------------

  /** Tries the candidates in order and stops at the first success: the loop over `tryList`. */
  method TryCandidates(tries: seq<string>, outcomes: seq<bool>) returns (winner: Option<nat>)
    ensures winner == FirstSuccess(outcomes, |tries|, 0)
    ensures winner.Some? ==> winner.value < |tries| && Succeeds(outcomes, winner.value)
  {
    var i := 0;
    while i < |tries|
      invariant 0 <= i <= |tries|
      invariant forall j :: 0 <= j < i ==> !Succeeds(outcomes, j)
      invariant FirstSuccess(outcomes, |tries|, 0) == FirstSuccess(outcomes, |tries|, i)
    {
      if i < |outcomes| && outcomes[i] {
        return Some(i);
      }
      i := i + 1;
    }
    return None;
  }

  class Player {
    const props: Props
    var alive: bool
    var cache: seq<Entry>
    var inflight: map<int, nat>
    var aborted: set<nat>
    var disposed: seq<Texture>
    var nextTexture: nat
    var nextController: nat
    var time: int
    var shown: Option<Texture>
    var redraws: nat
    var progress: Option<real>

    function Snapshot(): PlayerState
      reads this
    {
      PlayerState(alive, cache, inflight, aborted, disposed, nextTexture, nextController, time, shown, redraws, progress)
    }

    ghost predicate Valid()
      reads this
    {
      Inv(props, Snapshot())
    }

    constructor (p: Props, progress0: Option<real>)
      requires p.count >= 1
      ensures props == p && Snapshot() == Initial(progress0) && Valid()
    {
      props := p;
      alive, cache, inflight, aborted, disposed := true, [], map[], {}, [];
      nextTexture, nextController, time, shown, redraws := 0, 0, 0, None, 0;
      progress := progress0;
    }

    /** The synchronous prefix of `loadTexture(idx, isPrefetch)`. */
    method BeginLoad(idx: int, isPrefetch: bool, reported: Option<string>) returns (r: LoadStart)
      requires Valid()
      modifies this
      ensures Valid()
      ensures (Snapshot(), r) == Begin(props, old(Snapshot()), idx, isPrefetch, reported)
    {
      BeginKeepsInv(props, Snapshot(), idx, isPrefetch, reported);
      if !alive {
        return Finished(None);
      }
      var hit := Get(cache, idx);
      if hit.Some? {
        cache := Delete(cache, idx);
        cache := cache + [Entry(idx, hit.value)];
        return Finished(hit);
      }
      var profile := GetNetProfile(reported, props.netProfileOverride);
      if isPrefetch && |inflight| >= profile.maxInflight {
        return Finished(None);
      }
      var ac := nextController;
      nextController := nextController + 1;
      inflight := inflight[idx := ac];
      r := Pending(ac);
    }

    /** The rest of `loadTexture(idx)`, once every attempted candidate has succeeded or failed. */
    method CompleteLoad(idx: int, outcomes: seq<bool>) returns (tex: Option<Texture>)
      requires Valid()
      modifies this`inflight, this`nextTexture, this`cache, this`disposed
      ensures Valid()
      ensures (Snapshot(), tex) == Complete(props, old(Snapshot()), idx, outcomes)
    {
      ghost var s0 := Snapshot();
      var tries := TryList(props, idx);
      var winner := TryCandidates(tries, outcomes);
      if winner.None? {
        inflight := inflight - {idx};
        assert Snapshot() == Failed(s0, idx);
        return None;
      }
      var t := Texture(nextTexture, tries[winner.value]);
      FinishLoad(idx, t);
      tex := Some(t);
    }

    /** A completion that produced texture `t`: store it, count it, and clear the in-flight entry. */
    method FinishLoad(idx: int, t: Texture)
      requires Valid()
      modifies this`inflight, this`nextTexture, this`cache, this`disposed
      ensures Valid()
      ensures Snapshot() == Stored(props, old(Snapshot()), idx, t)
    {
      ghost var s1 := Stored(props, Snapshot(), idx, t);
      StoredKeepsInv(props, Snapshot(), idx, t);
      nextTexture := nextTexture + 1;
      StoreLoaded(idx, t);
      inflight := inflight - {idx};
      assert cache == s1.cache && disposed == s1.disposed;
      assert inflight == s1.inflight && nextTexture == s1.nextTexture;
    }

    /** `cache.set(idx, { tex })`, then the eviction of the oldest entry past `maxCache`. */
    method StoreLoaded(idx: int, t: Texture)
      modifies this`cache, this`disposed
      ensures cache == Evict(Set(old(cache), idx, t), props.maxCache)
      ensures disposed == old(disposed) + EvictedPart(Evicted(Set(old(cache), idx, t), props.maxCache))
    {
      var c := Set(cache, idx, t);
      cache := c;
      if |cache| > props.maxCache && |cache| > 0 {
        disposed := disposed + [cache[0].tex];
        cache := cache[1..];
      }
    }

    /** The cleanup effect: dispose every cached texture, then abort every request in flight. */
    method Teardown()
      requires Valid()
      modifies this
      ensures Valid()
      ensures Snapshot() == TornDown(old(Snapshot()))
    {
      alive := false;
      DisposeAll();
      cache := [];
      AbortAll();
      inflight := map[];
    }

    /** `cache.forEach(e => e.tex.dispose())`. */
    method DisposeAll()
      modifies this`disposed
      ensures disposed == old(disposed) + Textures(cache)
    {
      var i := 0;
      while i < |cache|
        invariant 0 <= i <= |cache|
        invariant disposed == old(disposed) + Textures(cache[..i])
      {
        TexturesAppend(cache[..i], cache[i]);
        assert cache[..i + 1] == cache[..i] + [cache[i]];
        disposed := disposed + [cache[i].tex];
        i := i + 1;
      }
      assert cache[..|cache|] == cache;
    }

    /** `inflight.forEach(c => c.abort())`. */
    method AbortAll()
      modifies this`aborted
      ensures aborted == old(aborted) + Controllers(inflight)
    {
      var rest := inflight;
      while rest.Keys != {}
        invariant aborted + Controllers(rest) == old(aborted) + Controllers(inflight)
        decreases |rest|
      {
        assert (forall j :: j !in rest.Keys) ==> rest.Keys == {};
        var k :| k in rest.Keys;
        ControllersRemove(rest, k);
        aborted := aborted + {rest[k]};
        rest := rest - {k};
      }
      assert Controllers(rest) == {};
    }

    /** `showFrame`'s completion: swap the loaded texture in if it differs from the one shown. */
    method Present(tex: Option<Texture>)
      modifies this`shown, this`redraws
      ensures Snapshot() == Presented(old(Snapshot()), tex)
    {
      if tex.Some? && shown != tex {
        shown := tex;
        redraws := redraws + 1;
      }
    }

    /** A new value of the `progress` prop and the scrub effect it triggers, which runs only for a number. */
    method OnProgress(value: Option<real>, reported: Option<string>) returns (req: Option<Request>)
      requires Valid()
      modifies this
      ensures Valid()
      ensures (Snapshot(), req) == ScrubEffect(props, old(Snapshot()), value, reported)
    {
      progress := value;
      if value.None? {
        return None;
      }
      var idx := ScrubIndex(props.count, props.loops, value.value);
      var r := BeginLoad(idx, false, reported);
      req := Some(Request(idx, r, PrefetchLimit(props, reported)));
    }

    /** The interval callback of the free-running loop, which exists only while the loop effect's timer is installed. */
    method OnTick(hidden: bool, reported: Option<string>) returns (req: Option<Request>)
      requires Valid() && LoopInterval(props, progress).Some?
      modifies this
      ensures Valid()
      ensures (Snapshot(), req) == Tick(props, old(Snapshot()), hidden, reported)
    {
      if !alive || hidden {
        return None;
      }
      var next := NextFrame(time, props.count);
      time := next;
      var r := BeginLoad(next, false, reported);
      req := Some(Request(next, r, PrefetchLimit(props, reported)));
    }

    /** The idle callback `prefetchWindowFrom(idx)` schedules: steps `1 .. limit`. */
    method RunPrefetch(idx: int, limit: int, reported: Option<string>) returns (started: seq<int>)
      requires Valid()
      modifies this
      ensures Valid()
      ensures (Snapshot(), started) == Batch(props, old(Snapshot()), idx, 1, limit, MaxInflight(props, reported), [])
    {
      var k := 1;
      started := [];
      while k <= limit
        invariant Valid()
        invariant Batch(props, Snapshot(), idx, k, limit, MaxInflight(props, reported), started) ==
                  Batch(props, old(Snapshot()), idx, 1, limit, MaxInflight(props, reported), [])
        decreases if k <= limit then limit - k + 1 else 0
      {
        var n := WindowIndex(props, idx, k);
        if n !in Keys(cache) && n !in inflight {
          PrefetchStepShape(props, Snapshot(), n, reported);
          var r := BeginLoad(n, true, reported);
          if r.Pending? {
            started := started + [n];
          }
        }
        k := k + 1;
      }
    }
  }

  /** Removing one key leaves the other values, and its own value is still among them or gone with it. */
  lemma ControllersRemove(m: map<int, nat>, k: int)
    requires k in m
    ensures Controllers(m) == Controllers(m - {k}) + {m[k]}
    ensures |m - {k}| == |m| - 1
  {
    var r := m - {k};
    forall v | v in Controllers(m) ensures v in Controllers(r) || v == m[k] {
      var j :| j in m && m[j] == v;
      if j != k {
        assert j in r && r[j] == v;
      }
    }
  }

  lemma {:induction false} TexturesAppend(c: seq<Entry>, e: Entry)
    ensures Textures(c + [e]) == Textures(c) + [e.tex]
  {
  }
}
