# Frame-sequence hero and page widgets, modelled in Dafny

This project models the scroll-driven landing page of a marketing site.

The centre of it is the frame-sequence player (`ImageSequenceLite`). It shows one decoded image of a numbered frame sequence at a time, driven either by scroll progress or by a free-running timer. It keeps:

- a cache of decoded textures, in insertion order, used as a least-recently-used list bounded by `maxCache`;
- a map of requests in flight, each with its abort controller, which prefetches back off from when it is full;
- a liveness flag, which the cleanup effect clears after disposing every texture and aborting every request.

For each frame it tries an ordered list of candidate URLs: an explicit source first, then a name made from the directory, base name, zero-padded number and each extension. The first URL that loads wins.

Around the player the project models:

- the hero section's scroll arithmetic: the content fade, the clamped stats window, the stats toggle, the trigger settings and the scroller proxy;
- the composite that feeds the player its 545 explicit frame URLs;
- the three build scripts that write the frame manifests;
- the two carousels (client cases and services);
- the option selection of the two Rive animation cards.

Modules:

- `Wrappers`, `Text`, `JsNumber`: options, the JavaScript string operations used (`String(n)`, `padStart`, `replace(/\/$/)`, `toLowerCase`, `endsWith`, `join`), and JavaScript numbers that may be NaN or infinite.
- `SequenceConfig`, `FrameUrls`, `NetProfile`, `Playback`: the player's props, frame names and candidate lists, network profile, and scrub/tick/prefetch arithmetic.
- `FrameCache`: the `Map` of textures as a sequence of entries with distinct keys, oldest first.
- `SequencePlayer`: the player's state. `loadTexture` is split into its synchronous prefix (`Begin`) and its completion (`Complete`). Each step is a function on a state value, and the class `Player` performs the same steps in place with methods proved equal to those functions.
- `HeroScroll`, `HeroComposite`: the hero section and the composite. `Hero` and `SmoothScroller` are the stateful parts.
- `FileLists`, `Manifests`, `BuildManifest`, `BuildManifestHybrid`, `BuildManifestLoop`: the build scripts, as functions from directory listings to a manifest or an exit code.
- `Carousel`, `CasosClientes`, `NossosServicos`: the carousels. `CaseCarousel` and `ServicesCarousel` hold their state.
- `RiveCard`, `NPRive`: the selection shared by both Rive wrappers, and what only the process-section card adds (the call-to-action trigger).

## Model

| member | source | states |
|---|---|---|
| Text.NatToString | src/components/hero/ImagenSequenceLite.tsx:73 | `String(n)` of a natural number is a non-empty digit string without a leading zero, two or more digits long exactly from 10 on |
| Text.ParseNatToString | src/components/hero/ImagenSequenceLite.tsx:73 | reading back the digits `String(n)` writes gives `n` |
| Text.NatToStringInjective | src/components/hero/ImagenSequenceLite.tsx:73 | distinct numbers have distinct decimal strings |
| Text.IntToString | src/components/nossos-servicos/index.tsx:195 | `String(n)` of a non-negative integer is all digits and reads back as `n`; of a negative one it is '-' followed by digits that read back as `-n` |
| Text.IntToStringInjective | src/components/nossos-servicos/index.tsx:195 | distinct integers have distinct `String(n)` |
| Text.ParseNatLeadingZeros | src/components/hero/ImagenSequenceLite.tsx:73 | leading zeros leave a digit string's value unchanged |
| Text.PadStart | src/components/hero/ImagenSequenceLite.tsx:73 | `padStart`: the result is `max(width, len)` long, ends with the original string and is filled on the left |
| Text.ParsePadded | src/components/hero/ImagenSequenceLite.tsx:73 | a zero-padded number is all digits and reads back as the number, for any width |
| Text.PaddedInjective | src/components/hero/ImagenSequenceLite.tsx:73 | two numbers padded to the same width are equal only if the numbers are |
| Text.StripTrailingSlash | src/components/hero/ImagenSequenceLite.tsx:71 | `replace(/\/$/, "")` removes exactly one trailing '/' and otherwise leaves the string alone |
| JsNumber.Max | src/components/hero/index.tsx:48 | `Math.max` is NaN exactly when an argument is NaN, and otherwise is one of its arguments and below neither |
| JsNumber.Min | src/components/hero/index.tsx:47 | `Math.min` is NaN exactly when an argument is NaN, and otherwise is one of its arguments and above neither |
| FrameUrls.Urls | src/components/hero/ImagenSequenceLite.tsx:78-81 | `urls` has one entry per frame, none for a negative count |
| FrameUrls.FrameNameDecodes | src/components/hero/ImagenSequenceLite.tsx:70-81 | frame i's name is the stripped `dir`, '/', `base` and at least `pad` digits that read back as `start + i` |
| FrameUrls.UrlsDistinct | src/components/hero/ImagenSequenceLite.tsx:78-81 | with a non-negative `start` no two frames share a name |
| FrameUrls.Candidates | src/components/hero/ImagenSequenceLite.tsx:166 | the extensions tried are `extCandidates` when non-empty, else `[ext]`, so never none |
| FrameUrls.Explicit | src/components/hero/ImagenSequenceLite.tsx:180 | an explicit URL exists exactly when `sources` is given and has a non-empty entry at `idx`, and it is that entry |
| FrameUrls.TryList | src/components/hero/ImagenSequenceLite.tsx:181-183 | the explicit URL (if any) comes first, then the frame name with each candidate extension in order |
| NetProfile.GetNetProfile | src/components/hero/ImagenSequenceLite.tsx:141-150 | each override field replaces its own default; the defaults are 3 and 12 on a 2g/3g connection, else 6 and 28 |
| NetProfile.KnownConnectionTypes | src/components/hero/ImagenSequenceLite.tsx:143-145 | "slow-2g", "2g" and "3g" are slow; "4g", "" and no report are not |
| Playback.Clamp01 | src/components/hero/ImagenSequenceLite.tsx:311 | the clamped progress lies in [0, 1] and is the input when that is already in range |
| Playback.TotalLoops | src/components/hero/ImagenSequenceLite.tsx:310 | there is always at least one loop |
| Playback.Frac | src/components/hero/ImagenSequenceLite.tsx:312 | `x % 1` lies in [0, 1) |
| Playback.EffectiveProgress | src/components/hero/ImagenSequenceLite.tsx:312 | the effective progress lies in [0, 1], and below 1 with more than one loop |
| Playback.ScrubIndex | src/components/hero/ImagenSequenceLite.tsx:313 | the scrubbed frame is a valid index whenever there is a frame |
| Playback.FloorOfIntPlusEpsilon | src/components/hero/ImagenSequenceLite.tsx:313 | the 0.00001 bias never moves an exact frame boundary to the next frame |
| Playback.ScrubEndpoints | src/components/hero/ImagenSequenceLite.tsx:309-313 | progress 0 or less shows frame 0; progress 1 or more with one loop shows the last frame |
| Playback.ScrubTwoLoops | src/components/hero/ImagenSequenceLite.tsx:310-313 | with two loops, mid-scroll wraps to frame 0 and three quarters is half-way through |
| Playback.ScrubMonotone | src/components/hero/ImagenSequenceLite.tsx:311-313 | with one loop, more progress never shows an earlier frame |
| Playback.ScaledFloorMonotone | src/components/hero/ImagenSequenceLite.tsx:313 | scaling by the frame count, biasing and flooring keeps the order of two progress values |
| Playback.NextFrame | src/components/hero/ImagenSequenceLite.tsx:329 | the tick's next frame is a valid index |
| Playback.NextFrameSteps | src/components/hero/ImagenSequenceLite.tsx:329-330 | ticks step one frame at a time and wrap from the last frame to the first |
| Playback.IntervalMs | src/components/hero/ImagenSequenceLite.tsx:323 | the timer period is never below 16 ms; it is `1000 / fps` up to 62.5 fps and 16 ms from there or for a negative rate |
| Playback.PrefetchLimit | src/components/hero/ImagenSequenceLite.tsx:277-279 | the prefetch limit is between 0 and `count - 1`, an explicit `prefetchWindow` wins over the profile's window, and without one the limit is the network profile's window held to `[0, count - 1]` |
| Playback.WindowIndex | src/components/hero/ImagenSequenceLite.tsx:297 | a prefetch step never asks for a frame past the last |
| FrameCache.Get | src/components/hero/ImagenSequenceLite.tsx:158 | a lookup finds a texture exactly when the key is cached, and that texture is the key's entry |
| FrameCache.DeleteLookups | src/components/hero/ImagenSequenceLite.tsx:160 | `delete(k)` removes `k` and keeps every other key and lookup |
| FrameCache.DeleteDistinct | src/components/hero/ImagenSequenceLite.tsx:160 | deleting keeps keys distinct and removes one entry when the key was present |
| FrameCache.SetLookups | src/components/hero/ImagenSequenceLite.tsx:220 | after `set(k, t)`, `k` finds `t` and every other lookup is unchanged |
| FrameCache.SetKeysPresent | src/components/hero/ImagenSequenceLite.tsx:161 | `set` on a cached key keeps the key order: the value is replaced where it stands |
| FrameCache.SetAppendsNew | src/components/hero/ImagenSequenceLite.tsx:220 | `set` on a new key appends it as the newest entry |
| FrameCache.SetKeys | src/components/hero/ImagenSequenceLite.tsx:220 | after `set` the keys are the old ones plus `k`, in place or appended |
| FrameCache.SetDistinct | src/components/hero/ImagenSequenceLite.tsx:220 | `set` keeps keys distinct |
| FrameCache.AppendLookups | src/components/hero/ImagenSequenceLite.tsx:220 | appending a new key finds it and changes no other lookup |
| FrameCache.MoveToEndKeepsEntries | src/components/hero/ImagenSequenceLite.tsx:157-163 | a hit keeps the size and every lookup and makes the key the newest, with the rest in their old order |
| FrameCache.StoreKeepsBound | src/components/hero/ImagenSequenceLite.tsx:220-227 | a store keeps the cache within `max(0, maxCache)` and evicts at most one entry |
| FrameCache.StoreRetainsNewFrame | src/components/hero/ImagenSequenceLite.tsx:220-227 | with room for one frame, the frame just stored can be found afterwards |
| FrameCache.AppendEvictLookup | src/components/hero/ImagenSequenceLite.tsx:221-226 | dropping the oldest entry after appending a new key keeps that key |
| FrameCache.StoreWithoutCapacity | src/components/hero/ImagenSequenceLite.tsx:220-227 | with `maxCache <= 0` the cache empties and the new texture is the one disposed |
| SequencePlayer.FirstSuccess | src/components/hero/ImagenSequenceLite.tsx:185-209 | the winner is a candidate that succeeded with every earlier one failing; there is none only when all failed |
| SequencePlayer.TryCandidates | src/components/hero/ImagenSequenceLite.tsx:185-209 | the candidate loop stops at the first candidate that succeeds |
| SequencePlayer.BeginWhenDead | src/components/hero/ImagenSequenceLite.tsx:155 | a dead player's load returns null and changes nothing |
| SequencePlayer.BeginHit | src/components/hero/ImagenSequenceLite.tsx:157-163 | a hit returns the cached texture, moves it to the newest position with every lookup kept, and registers no request, prefetch or not |
| SequencePlayer.BeginBackpressure | src/components/hero/ImagenSequenceLite.tsx:169-172 | a prefetch miss with `MAX_INFLIGHT` requests in flight returns null and changes nothing |
| SequencePlayer.BeginMiss | src/components/hero/ImagenSequenceLite.tsx:174-175 | any other miss registers a fresh controller for the frame, replacing one already there, and leaves the cache alone |
| SequencePlayer.BeginKeepsInv | src/components/hero/ImagenSequenceLite.tsx:153-175 | the synchronous prefix keeps the state invariant (distinct keys, cache bound, clock in range, issued controllers) |
| SequencePlayer.CompleteKeepsInv | src/components/hero/ImagenSequenceLite.tsx:231-233 | a completion deletes the frame's in-flight entry whatever the outcome and keeps the invariant |
| SequencePlayer.StoredKeepsInv | src/components/hero/ImagenSequenceLite.tsx:220-227 | storing a texture keeps the invariant |
| SequencePlayer.CompleteResult | src/components/hero/ImagenSequenceLite.tsx:185-211 | a completion returns the texture of the first candidate URL that succeeded, and null exactly when all failed |
| SequencePlayer.CompleteCache | src/components/hero/ImagenSequenceLite.tsx:211-228 | a failure leaves cache and disposals alone; a success stores the texture under the frame and disposes at most the oldest entry's texture |
| SequencePlayer.StoreOverCachedLeaks | src/components/hero/ImagenSequenceLite.tsx:220-227 | storing over a frame already cached replaces its texture in place with nothing evicted; the earlier texture is then neither cached nor disposed |
| FrameCache.SetEntries | src/components/hero/ImagenSequenceLite.tsx:220 | every entry after `set(k, t)` is the new one or an earlier entry of another key |
| SequencePlayer.StoredCache | src/components/hero/ImagenSequenceLite.tsx:220-227 | storing `t` finds it under the frame and appends at most one disposal, the oldest entry's |
| SequencePlayer.CandidateOrderExample | src/components/hero/ImagenSequenceLite.tsx:180-183 | with source "A" and extensions webp and png, the URLs tried are "A", then the name with ".webp", then with ".png" |
| SequencePlayer.CompletionAfterTeardownStillCaches | src/components/hero/ImagenSequenceLite.tsx:211-228 | a load that completes after teardown still stores its texture in the cache |
| SequencePlayer.DuplicateOnDemandLoads | src/components/hero/ImagenSequenceLite.tsx:174-175 | two on-demand loads of one frame both go in flight; the second controller replaces the first, the first completion deletes the entry, and teardown then aborts neither |
| SequencePlayer.DuplicateBegins | src/components/hero/ImagenSequenceLite.tsx:174-175 | the second registration of a frame overwrites the first with the next controller |
| SequencePlayer.CompleteFrame | src/components/hero/ImagenSequenceLite.tsx:231-233 | a completion deletes only its own frame's in-flight entry and aborts nothing |
| SequencePlayer.TeardownReleasesAll | src/components/hero/ImagenSequenceLite.tsx:84-110 | teardown marks the player dead, aborts every controller in flight, disposes every cached texture, and empties both maps |
| SequencePlayer.NoLoadsAfterTeardown | src/components/hero/ImagenSequenceLite.tsx:155 | after teardown every load returns null and changes nothing |
| SequencePlayer.ModesExclusive | src/components/hero/ImagenSequenceLite.tsx:308-323 | the scrub effect requests a frame exactly when `progress` is a number; the loop timer is installed exactly when it is not and `active` holds, with period `max(1000 / fps, 16)`; after a scrub request no tick can run |
| SequencePlayer.TickAdvances | src/components/hero/ImagenSequenceLite.tsx:326-333 | a tick, which runs only while the loop timer is installed, advances the clock one frame modulo `count` and shows that frame when the player is live and visible; otherwise it does nothing |
| SequencePlayer.ScrubKeepsInv | src/components/hero/ImagenSequenceLite.tsx:308-316 | a scroll update requests a valid frame, leaves the clock alone and keeps the invariant |
| SequencePlayer.PresentOnlyOnChange | src/components/hero/ImagenSequenceLite.tsx:244-268 | the shown texture changes, with one redraw, exactly for a loaded texture that differs from it; presenting it again is a no-op |
| SequencePlayer.PrefetchStepShape | src/components/hero/ImagenSequenceLite.tsx:298-299 | a prefetch of an uncached frame either registers it (live and below `MAX_INFLIGHT`) or changes nothing |
| SequencePlayer.WindowMembers | src/components/hero/ImagenSequenceLite.tsx:296-297 | a frame is in the window exactly when some step `k .. limit` gives it |
| SequencePlayer.BatchFrame | src/components/hero/ImagenSequenceLite.tsx:295-302 | a prefetch batch keeps the cache, clock, liveness and earlier requests, and does nothing on a dead player |
| SequencePlayer.BatchKeepsInv | src/components/hero/ImagenSequenceLite.tsx:295-302 | a prefetch batch keeps the invariant |
| SequencePlayer.BatchNoDuplicates | src/components/hero/ImagenSequenceLite.tsx:296-301 | a batch starts each frame at most once |
| SequencePlayer.BatchTargets | src/components/hero/ImagenSequenceLite.tsx:298 | each frame a batch starts was in the window and neither cached nor in flight when the batch began |
| SequencePlayer.BatchInflight | src/components/hero/ImagenSequenceLite.tsx:296-301 | after a batch, in flight is what was before plus what the batch started |
| SequencePlayer.BatchBound | src/components/hero/ImagenSequenceLite.tsx:169-172 | a batch never raises the in-flight count past `MAX_INFLIGHT`, or further past it when it already was |
| SequencePlayer.BatchRequestsOnce | src/components/hero/ImagenSequenceLite.tsx:277-300 | one prefetch batch requests only window frames that were neither cached nor in flight, each at most once, and respects the in-flight cap |
| SequencePlayer.Player.constructor | src/components/hero/ImagenSequenceLite.tsx:64-67 | a new player is alive with an empty cache, nothing in flight, the clock at 0 and the first `progress` value recorded |
| SequencePlayer.Player.BeginLoad | src/components/hero/ImagenSequenceLite.tsx:155-175 | the in-place synchronous prefix has the effect and result of `Begin` |
| SequencePlayer.Player.CompleteLoad | src/components/hero/ImagenSequenceLite.tsx:185-233 | the in-place completion has the effect and result of `Complete` |
| SequencePlayer.Player.FinishLoad | src/components/hero/ImagenSequenceLite.tsx:220-233 | storing a loaded texture in place has the effect of `Stored` |
| SequencePlayer.Player.StoreLoaded | src/components/hero/ImagenSequenceLite.tsx:220-227 | `set` followed by eviction of the oldest entry past `maxCache`, logging the disposed texture |
| SequencePlayer.Player.Teardown | src/components/hero/ImagenSequenceLite.tsx:88-109 | the in-place cleanup has the effect of `TornDown` |
| SequencePlayer.Player.DisposeAll | src/components/hero/ImagenSequenceLite.tsx:90-91 | every cached texture is disposed once, oldest first |
| SequencePlayer.Player.AbortAll | src/components/hero/ImagenSequenceLite.tsx:101-107 | every controller in flight is aborted |
| SequencePlayer.Player.Present | src/components/hero/ImagenSequenceLite.tsx:244-268 | the in-place swap has the effect of `Presented` |
| SequencePlayer.Player.OnProgress | src/components/hero/ImagenSequenceLite.tsx:308-316 | a new `progress` value is recorded, and the scrub effect runs as `ScrubEffect`: a `Scrub` request for a number, nothing otherwise |
| SequencePlayer.Player.OnTick | src/components/hero/ImagenSequenceLite.tsx:326-333 | the in-place tick, callable only while the loop timer is installed, has the effect and request of `Tick` |
| SequencePlayer.Player.RunPrefetch | src/components/hero/ImagenSequenceLite.tsx:295-302 | the prefetch loop has the effect of `Batch` from step 1 |
| HeroScroll.FadeT | src/components/hero/index.tsx:108-110 | the fade parameter lies in [0, 1]: 0 before the fade, 1 after it, linear inside |
| HeroScroll.ContentFade | src/components/hero/index.tsx:107-113 | the content is opaque at the top and gone from 8% on, never more visible further down, and rises by up to 6% |
| HeroScroll.ContentPointerEvents | src/components/hero/index.tsx:120 | pointer events are off exactly when the content is less than 95% opaque |
| HeroScroll.PointerEventsThreshold | src/components/hero/index.tsx:116-120 | pointer events go off exactly past 0.4% of the pin, and the grid is never shown |
| HeroScroll.ClampedFraction | src/components/hero/index.tsx:47-48 | a clamped environment fraction is NaN only for a non-numeric setting, otherwise lies in [lo, 0.95], and is the default when unset |
| HeroScroll.StatsFractionBounds | src/components/hero/index.tsx:47-48 | for numeric settings the stats start lies in [0, 0.95] and the fade in [0.05, 0.95]; unset they are 0.45 and 0.25 |
| HeroScroll.StatsWindowInsidePin | src/components/hero/index.tsx:139-146 | the stats window starts inside the pin and spans 5% to 95% of it; with the defaults it runs from 45% to 70% of the pin distance |
| HeroScroll.WindowInsidePin | src/components/hero/index.tsx:139-141 | the window bounds in pixels, for any fractions in the allowed bands |
| HeroScroll.WindowScaled | src/components/hero/index.tsx:140-141 | scaling fractions in the allowed bands by a non-negative pin distance stays inside the pin |
| HeroScroll.StatsReveal | src/components/hero/index.tsx:153-155 | the stats panel is hidden and 6% low before its window, in place after it, and its alpha is the progress inside |
| HeroScroll.StatsToggle | src/components/hero/index.tsx:158-162 | show is requested only on positive progress while hidden, hide only on non-positive progress while shown, and never the value already held |
| HeroScroll.ShowStatsSettles | src/components/hero/index.tsx:158-162 | with the ref in step the panel is shown exactly for positive progress and a repeat update does nothing; with a stale ref it only moves toward that value |
| HeroScroll.ScrubSetting | src/components/hero/index.tsx:86 | the scrub follows the scroll immediately exactly when the smoothing is 0, else it lags by that many seconds |
| HeroScroll.RangeReadsBack | src/components/hero/index.tsx:85 | the trigger range is "+=", the percentage's digits and "%", and reads back as the percentage; the default is "+=200%" |
| HeroScroll.ScrollTopRead | src/components/hero/index.tsx:71 | the proxy reports Lenis's scroll (else the window's) when that is truthy, and 0 otherwise |
| HeroScroll.ScrollTopIsNumber | src/components/hero/index.tsx:67-72 | the proxy never reports NaN, and reports a non-zero Lenis position as it is |
| HeroScroll.SmoothScroller.constructor | src/components/hero/index.tsx:62-63 | the scroller starts with no jumps requested |
| HeroScroll.SmoothScroller.ScrollTop | src/components/hero/index.tsx:67-72 | `scrollTop(v)` jumps only when given a number and reports what `ScrollTopRead` gives |
| HeroScroll.Hero.constructor | src/components/hero/index.tsx:28-33 | the hero starts at progress 0 with the stats hidden and nothing styled |
| HeroScroll.Hero.OnMainUpdate | src/components/hero/index.tsx:103-121 | the pinned trigger's update records the progress and writes the content style for it |
| HeroScroll.Hero.OnStatsUpdate | src/components/hero/index.tsx:151-163 | the stats trigger's update writes the reveal style and toggles `showStats` through the ref |
| HeroScroll.Hero.SyncShowStatsRef | src/components/hero/index.tsx:34-36 | the ref catches up with `showStats` after a render |
| HeroComposite.OrElse | src/components/hero/components/HeroScrollComposite.tsx:34 | JavaScript's `or` on two optional strings keeps a non-empty first value and otherwise takes the second |
| HeroComposite.SourcesScroll | src/components/hero/components/HeroScrollComposite.tsx:31-41 | the source list has exactly 545 entries |
| HeroComposite.ProgressClamped | src/components/hero/components/HeroScrollComposite.tsx:44 | the progress handed on lies in [0, 1], is 0 when absent and is unchanged when in range |
| HeroComposite.BaseDirChoice | src/components/hero/components/HeroScrollComposite.tsx:34-35 | the base is the scroll CDN, else the general CDN, each without one trailing '/', else the local directory |
| HeroComposite.SourceAt | src/components/hero/components/HeroScrollComposite.tsx:36-39 | entry i is the URL of frame i + 1 under the chosen base |
| HeroComposite.Pad3Digits | src/components/hero/components/HeroScrollComposite.tsx:37 | a frame number below 1000 pads to three digits that read back as the number |
| HeroComposite.SourceUrlShape | src/components/hero/components/HeroScrollComposite.tsx:38 | a frame URL is the base, "/HERO_QUEDA", three digits and ".png" |
| HeroComposite.SourcesShape | src/components/hero/components/HeroScrollComposite.tsx:36-39 | entry i is the base, "/HERO_QUEDA", i + 1 zero-padded to three digits, and ".png" |
| HeroComposite.SourcesDistinct | src/components/hero/components/HeroScrollComposite.tsx:36-39 | no two frames share a URL |
| HeroComposite.SourcesEndpoints | src/components/hero/components/HeroScrollComposite.tsx:32 | the first URL ends in "001.png" and the last in "545.png" |
| HeroComposite.SourcesMatchSynthesisedNames | src/components/hero/components/HeroScrollComposite.tsx:54-60 | without a CDN each explicit URL is the player's own name plus ".png", so the player tries the same URL twice |
| HeroComposite.SynthesisedName | src/components/hero/components/HeroScrollComposite.tsx:54-56 | under this directory, base, padding and start, the player's name for frame i + 1 plus ".png" is the local URL |
| HeroComposite.PngTryList | src/components/hero/components/HeroScrollComposite.tsx:59-60 | an explicit URL equal to the synthesised PNG name, with only "png" as candidate, is tried twice |
| HeroComposite.PlayerConfiguration | src/components/hero/components/HeroScrollComposite.tsx:51-73 | the player gets 545 frames, 6 cached, 6 in flight and a prefetch window of 20 on every connection; the explicit window wins over the override's 24 |
| FileLists.Filter | scripts/build-manifest-loop.cjs:12 | the kept names are the listed ones that match, each as often as listed |
| FileLists.Insert | scripts/build-manifest-loop.cjs:12 | inserting adds the name once and keeps every other one |
| FileLists.InsertSorted | scripts/build-manifest-loop.cjs:12 | inserting into a sorted list keeps it sorted under a total comparator |
| FileLists.SortByPermutes | scripts/build-manifest-hybrid.cjs:26 | sorting keeps every name with its multiplicity and orders them under a total comparator |
| FileLists.CodeUnits | scripts/build-manifest.cjs:18 | a character is one code unit below U+10000 and otherwise a high and a low surrogate that decode back to it |
| FileLists.UnitsLeqTotal | scripts/build-manifest.cjs:18 | any two code-unit sequences are ordered one way or the other |
| FileLists.CodeUnitLeqTotal | scripts/build-manifest.cjs:18 | the default sort order, by UTF-16 code units, is total |
| FileLists.SurrogatesBeforePrivateUse | scripts/build-manifest.cjs:18 | the default sort puts U+10000 before U+E000, unlike code-point order |
| FileLists.ReadFramesSpec | scripts/build-manifest-loop.cjs:11-13 | a missing directory lists nothing; otherwise every matching name, as often as listed, sorted under a total comparator |
| FileLists.LowerEndsWith | scripts/build-manifest.cjs:18 | testing a lower-cased name for a lower-case suffix is the case-insensitive suffix test |
| Manifests.OrDefault | scripts/build-manifest-hybrid.cjs:7-8 | the variable-or-fallback expression is the variable when it is set and non-empty, else the fallback |
| Manifests.Under | scripts/build-manifest-loop.cjs:18-19 | prefixing keeps the number of files |
| Manifests.UnderEntries | scripts/build-manifest-loop.cjs:18-19 | entry i is the prefix, '/', and file i, and reads back as file i |
| BuildManifest.RunExits | scripts/build-manifest.cjs:11-14 | the script exits 1 exactly when either variable is missing or empty, and writes otherwise |
| BuildManifest.WebpFiles | scripts/build-manifest.cjs:16-20 | the files are every ".webp" file in any case, as often as listed, in UTF-16 code-unit order; a missing directory gives none |
| BuildManifest.WebpFilesSorted | scripts/build-manifest.cjs:18 | the webp files come out in UTF-16 code-unit order |
| BuildManifest.WebpSuffix | scripts/build-manifest.cjs:18 | the lower-cased ".webp" test is the case-insensitive one |
| BuildManifest.RunManifest | scripts/build-manifest.cjs:22-29 | a written manifest is 1600 by 900 in 40 chunks with no AVIF, counts its webp entries, and entry i is the CDN URL, base path and file i |
| BuildManifestHybrid.BuildList | scripts/build-manifest-hybrid.cjs:41-63 | a URL list has one entry per file |
| BuildManifestHybrid.RunExits | scripts/build-manifest-hybrid.cjs:20-35 | the script exits, always with 1, exactly when the webp directory is missing or neither directory has frames |
| BuildManifestHybrid.RunManifest | scripts/build-manifest-hybrid.cjs:65-73 | a written manifest is 1600 by 900, counts the longer list, and entry i is local when early or without a CDN, else on the CDN under the format's prefix |
| BuildManifestHybrid.EntriesEndWithFile | scripts/build-manifest-hybrid.cjs:41-51 | every entry ends with '/' and the file at its position |
| BuildManifestHybrid.DefaultSplit | scripts/build-manifest-hybrid.cjs:7-13 | by default the first 20 frames are local, the AVIF prefix is the webp prefix, and the prefix is "spot/hero/v1/seq-scroll"; a non-numeric setting makes no frame early |
| BuildManifestHybrid.InputLists | scripts/build-manifest-hybrid.cjs:25-30 | the file lists hold exactly the listed names with the right extension, sorted under a total collation |
| BuildManifestLoop.RunManifest | scripts/build-manifest-loop.cjs:15-23 | the manifest has no size or chunks, lists the sorted local files under their directories, and counts AVIF frames when there are any, else webp ones |
| Carousel.JsRem | src/components/casos-clientes/index.tsx:30 | JavaScript's `%`: the remainder takes the dividend's sign and is below the divisor in size |
| Carousel.NextStep | src/components/casos-clientes/index.tsx:30 | "next" from a valid slide gives the following slide, wrapping from the last to the first |
| Carousel.PrevStep | src/components/casos-clientes/index.tsx:31 | "previous" from a valid slide gives the preceding slide, wrapping from the first to the last |
| Carousel.NextPrevInverse | src/components/casos-clientes/index.tsx:30-31 | next then previous, or previous then next, returns to the same slide |
| Carousel.ForwardAdd | src/components/nossos-servicos/index.tsx:191 | a + b presses of "next" are a presses followed by b more |
| Carousel.ForwardBelow | src/components/nossos-servicos/index.tsx:191 | before the end, k presses move exactly k slides on |
| Carousel.FullCycle | src/components/nossos-servicos/index.tsx:191 | n presses of "next" return to the starting slide |
| CasosClientes.CasesShape | src/components/casos-clientes/index.tsx:12-26 | there are three slides, slide i shows `cliente{i+1}.png`, and only the second has a caption pair |
| CasosClientes.SwapImageExtCases | src/components/casos-clientes/index.tsx:46-50 | a ".webp" source becomes ".png", another source ending in ".png" in any case becomes ".webp", anything else is kept; the stem never changes |
| CasosClientes.SwapWebpStem | src/components/casos-clientes/index.tsx:48 | `stem.webp` falls back to `stem.png` |
| CasosClientes.SwapPngStem | src/components/casos-clientes/index.tsx:48 | `stem.png` falls back to `stem.webp` |
| CasosClientes.SwapRoundTrip | src/components/casos-clientes/index.tsx:46-50 | two failures in a row bring a lower-case ".webp" or ".png" source back to itself |
| CasosClientes.UpperCaseWebpIsKept | src/components/casos-clientes/index.tsx:48 | a webp source in any other casing than ".webp" is not swapped at all |
| CasosClientes.SlideImageFallback | src/components/casos-clientes/index.tsx:44-50 | on slide i the first failure asks for `cliente{i+1}.webp` and the second returns to the PNG |
| CasosClientes.LayoutBands | src/components/casos-clientes/index.tsx:59-66 | the three width flags exclude each other and are all off exactly from 1536 up; the gap is 12, 18 or 28, 12 exactly on mobile, and grows with the width |
| CasosClientes.TMid | src/components/casos-clientes/index.tsx:117 | the mid-desktop position lies in [0, 1]: 0 outside the band or at 1024, 1 from 1535, linear between |
| CasosClientes.SlideScale | src/components/casos-clientes/index.tsx:118-119 | the slide scale is 0.86 on tablets, between 0.85 and 0.98 on mid desktops, 1 elsewhere |
| CasosClientes.SlideScaleMonotone | src/components/casos-clientes/index.tsx:117-119 | within the mid-desktop band a wider window never gives smaller slides |
| CasosClientes.ViewportMaxPx | src/components/casos-clientes/index.tsx:122-124 | the mid-desktop viewport maximum lies between 940 and 1200 px, 940 at the band's start and 1200 at its end |
| CasosClientes.ViewportWidth | src/components/casos-clientes/index.tsx:81 | the viewport width is at least 1, and the client width when that is at least 1 |
| CasosClientes.SwipeThreshold | src/components/casos-clientes/index.tsx:100 | the swipe threshold is 18% of the viewport width but at least 80 px |
| CasosClientes.DragAcceptedIsHorizontal | src/components/casos-clientes/index.tsx:94 | an accepted drag moves at least 8 px, and more sideways than vertically |
| CasosClientes.SwipeOutcome | src/components/casos-clientes/index.tsx:97-107 | a release keeps the slide valid, never moves for a drag of at most 80 px, moves back for a right drag past the threshold and on for a left one |
| CasosClientes.TranslateXStep | src/components/casos-clientes/index.tsx:109 | the next slide shifts the track exactly one pitch (width plus gap) further left |
| CasosClientes.CaseCarousel.constructor | src/components/casos-clientes/index.tsx:29-80 | the carousel starts on slide 0 with its image, no drag and transitions on |
| CasosClientes.CaseCarousel.Next | src/components/casos-clientes/index.tsx:30 | "next" moves to `Carousel.Next` of the slide and keeps it valid |
| CasosClientes.CaseCarousel.Prev | src/components/casos-clientes/index.tsx:31 | "previous" moves to `Carousel.Prev` of the slide and keeps it valid |
| CasosClientes.CaseCarousel.OnKey | src/components/casos-clientes/index.tsx:35-38 | ArrowRight goes forward, ArrowLeft back, and any other key changes nothing |
| CasosClientes.CaseCarousel.ShowSlideImage | src/components/casos-clientes/index.tsx:45 | after a slide change the image is that slide's |
| CasosClientes.CaseCarousel.OnImgError | src/components/casos-clientes/index.tsx:46-50 | a broken image is replaced by its extension swap |
| CasosClientes.CaseCarousel.OnResize | src/components/casos-clientes/index.tsx:60-66 | a resize sets the layout of the new width |
| CasosClientes.CaseCarousel.OnPointerDown | src/components/casos-clientes/index.tsx:83-89 | a press records the start point, starts dragging and turns transitions off |
| CasosClientes.CaseCarousel.OnPointerMove | src/components/casos-clientes/index.tsx:90-96 | a move sets the drag offset to dx only while dragging from a recorded start and horizontally enough, and otherwise keeps it |
| CasosClientes.CaseCarousel.OnPointerEnd | src/components/casos-clientes/index.tsx:97-107 | a release ends the drag, resets the offset, turns transitions on and moves by the swipe decision; without a drag the slide stays |
| NossosServicos.ItemKeysDistinct | src/components/nossos-servicos/index.tsx:21-66 | there are four services, each appearing once |
| NossosServicos.MobileThreshold | src/components/nossos-servicos/index.tsx:68-77 | a window is mobile exactly up to 820 px |
| NossosServicos.BackgroundNumbering | src/components/nossos-servicos/index.tsx:195-196 | card i's section and card backgrounds carry the number i + 1 |
| NossosServicos.NumberedPathInjective | src/components/nossos-servicos/index.tsx:195-196 | a numbered background path determines the card |
| NossosServicos.BackgroundsDistinct | src/components/nossos-servicos/index.tsx:195-196 | different cards never share a section or a card background |
| NossosServicos.SectionStyle | src/components/nossos-servicos/index.tsx:198-206 | the section uses the card's background image exactly on desktop, a plain colour on mobile |
| NossosServicos.ServicesCarousel.constructor | src/components/nossos-servicos/index.tsx:188 | the carousel starts on the first card |
| NossosServicos.ServicesCarousel.Current | src/components/nossos-servicos/index.tsx:189 | the card shown is one of the services |
| NossosServicos.ServicesCarousel.Next | src/components/nossos-servicos/index.tsx:191 | "next" moves to `Carousel.Next` of the card and keeps it valid |
| NossosServicos.ServicesCarousel.Prev | src/components/nossos-servicos/index.tsx:192 | "previous" moves to `Carousel.Prev` of the card and keeps it valid |
| NossosServicos.Wraparound | src/components/nossos-servicos/index.tsx:191-192 | forward from the last card shows Google Ads, back from the first shows the diagnosis card |
| RiveCard.ConfigSelection | src/components/nosso-processo/NPRive.tsx:93-105 | a config exists exactly when a source is truthy, with the device's own artboard and state machines and its own source when given, else the other |
| RiveCard.SingleSourceServesBoth | src/components/diferenciais/DRive.tsx:85-97 | with only a desktop source, both devices play it |
| RiveCard.EmptySourceIsSelected | src/components/diferenciais/DRive.tsx:89 | an empty mobile source next to a real desktop one is still selected on mobile |
| RiveCard.InstanceKeyShape | src/components/nosso-processo/NPRive.tsx:117-119 | the key is "image" exactly without a config, and otherwise starts with the source followed by the separator character |
| RiveCard.ImageKeyWithoutRive | src/components/diferenciais/DRive.tsx:109-111 | without a source the key is "image" on every device |
| RiveCard.TransformFallbacks | src/components/nosso-processo/NPRive.tsx:142-144 | each transform value is the device's own prop when given (even 0), else the general one, else 1 for scale and 0 for offsets |
| RiveCard.TransformIgnoresOtherDevice | src/components/diferenciais/DRive.tsx:129-131 | one device's transform never depends on the other device's props |
| RiveCard.Rendered | src/components/diferenciais/DRive.tsx:139-160 | the canvas is rendered exactly when a source is truthy and the library produced a component, else the image, defaulting to "/fallback.png" |
| NPRive.StateNameSources | src/components/nosso-processo/NPRive.tsx:51-60 | a state name comes only from an object: `stateName` when it is a string, `name` when only that is, else "" |
| NPRive.ExpectedState | src/components/nosso-processo/NPRive.tsx:131 | the trigger state is the configured one when non-empty, else "CTA_Click", never "" |
| NPRive.CallToAction | src/components/nosso-processo/NPRive.tsx:129-135 | the link opens exactly when the event names the expected state and a non-empty link is set, in the given target or the same tab |
| NPRive.DefaultTriggerExample | src/components/nosso-processo/NPRive.tsx:130-134 | a "CTA_Click" state opens the link by default, a `name` field serves when `stateName` is not a string, and another `stateName` wins over `name` |
| NPRive.CanvasPointerEvents | src/components/nosso-processo/NPRive.tsx:161 | the canvas lets pointer gestures through exactly on mobile |

## Left out

- Fetching, `createImageBitmap` and `Image` decoding are not modelled. Each candidate URL's attempt is an outcome given to `Complete`, true when fetching and decoding it succeed.
- The three.js texture settings, the orientation transforms of `showFrame`, and the camera-fit resize effect are left out. They are foreign library state and floating-point trigonometry.
- `setInterval`, `requestIdleCallback` and `setTimeout` are not modelled: a scheduled callback is a later step, and steps interleave without concurrency. `document.hidden` is a parameter of `Tick`.
- `navigator.connection.effectiveType` is not modelled; it is the parameter `reported`.
- GSAP and ScrollTrigger registration, pinning and refresh, and the Lenis setup are left out. They are third-party engines. Only the values the hero's callbacks compute and the proxy's `scrollTop` are modelled.
- The animated counters and stats panel, and the asset encoding and upload scripts, are not part of this model. They are timing, formatting, file and network I/O.
- File-system reads and writes in the manifest builders are left out; directories are given as listings (`None` when missing). `process.exit` is the result `Exited(1)`. Console output is left out.
- `localeCompare` is a comparator parameter, because its ICU collation is host-specific.
- `FileLists.SortBy` is a stable insertion sort; for a comparator that is not consistent, `Array.prototype.sort` may order differently.
- Text.Lower: `toLowerCase` is modelled on the ASCII letters only. JavaScript also lower-cases other letters, and some of them change length. Only the ".webp" suffix test uses it, and that test comes out the same: no non-ASCII character lower-cases to text ending in one of those ASCII letters. The `/…$/i` regular-expression tests are modelled ASCII-only as well (`EndsWithIgnoringCase`). That is exact, because without the `u` flag a non-ASCII character never matches an ASCII letter case-insensitively.
- JavaScript doubles are exact reals, so IEEE rounding is not modelled. Numbers that can be NaN or infinite (`Number(env)`, scroll positions, `1000 / 0`) use `JsNumber.Num`.
- Playback.ScrubIndex: states a valid index and the endpoint and monotonicity lemmas over exact reals. Whether a double lands just below a frame boundary is not captured.
- SequencePlayer.Player.constructor: requires `count >= 1`. With no frames the tick's `% count` is NaN in JavaScript, and the class does not model that case; `ScrubIndex` alone does cover `count <= 0`.
- SequencePlayer.Tick: requires `count >= 1`, for the same reason.
- The markup-only pages and the two index files that place the Rive cards are left out. So are the services' HTML blurbs and WhatsApp links (`encodeURIComponent`), and the captions' and images' styling.
- CasosClientes.ViewportMaxPx: gives the value inside the mid-desktop band only; outside it the source sets no maximum, and the model has no such case.
- CasosClientes.TranslateXStep: the slide width is a parameter (the viewport's client width).
- `imgRatio` and the aspect ratio of the mobile slide in the client-cases carousel are left out. They depend on the decoded image's size.
- `useIsMobile` in the Rive cards is the media query `(max-width: 767px)` (`RiveCard.MatchesMobile`). Its change listener is left out, and `isMobile` is an input.
- `riveReady`, whether the Rive library produced a component, is an input. The library itself is not modelled.

## Notes on the code as written

These behaviours are modelled as the code has them, even where a reader might expect otherwise:

- Liveness is checked only when a load starts and in the tick. A load that completes after teardown still stores its texture in the cache: `CompletionAfterTeardownStillCaches`.
- `Map.set` on a frame that is already cached replaces its texture without disposing the old one. When two loads of one frame both succeed, the first texture is never disposed: `StoreOverCachedLeaks`.
- An on-demand load does not look at the in-flight map before registering. A second load of the same frame replaces the first controller, and whichever completes first deletes the entry: `DuplicateOnDemandLoads`.
- Cache entries hold only the texture, and eviction only disposes it. The bitmap-closing branch of the cleanup can never fire, so the model has no bitmap.
- The cache-hit check runs before the back-pressure check, so a hit is served even when the in-flight map is full: `BeginHit`.
- `MAX_INFLIGHT` is read on each prefetch step in the source. Here it is read once per batch, which is the same because `reported` is fixed.
- In the client-cases carousel a ".WEBP" image source is never swapped, because the first test is case-sensitive and the second only matches ".png": `UpperCaseWebpIsKept`.
- `mobileSrc ?? desktopSrc` skips only an absent source, not an empty one: `EmptySourceIsSelected`.
- The process-section card and the differentials card select sources, keys and transforms with identical code. `RiveCard` models that selection once, and its rows cite both files. `NPRive` adds what only the process-section card has.
- With no CDN configured, the composite's explicit URL for each frame equals the player's own fallback name. Each frame is therefore tried twice at the same URL before it fails: `SourcesMatchSynthesisedNames`.
