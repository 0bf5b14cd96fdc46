/**
 * `build-manifest-hybrid`: the scroll sequence's manifest, with the first
 * frames served locally and the rest from the CDN when one is configured.
 */
module BuildManifestHybrid {
  import opened Wrappers
  import JsNumber
  import opened Text
  import opened FileLists
  import opened Manifests

  const LocalPrefixWebp: string := "/AnimationHero/seq-scroll"
  const LocalPrefixAvif: string := "/AnimationHero/seq-scroll-avif"
  const DefaultPrefix: string := "spot/hero/v1/seq-scroll"
  const DefaultLocalFirst: real := 20.0

  /**
   * The environment: `CDN_PUBLIC_URL`, `CDN_BASE_PATH`, `CDN_BASE_PATH_AVIF`,
   * and `Number(SEQ_LOCAL_FIRST)` (`None` when that variable is unset or empty).
   */
  datatype Env = Env(cdn: Option<string>, basePath: Option<string>, basePathAvif: Option<string>, localFirst: Option<JsNumber.Num>)

  function Prefix(env: Env): string {
    OrDefault(env.basePath, DefaultPrefix)
  }

  function PrefixAvif(env: Env): string {
    OrDefault(env.basePathAvif, Prefix(env))
  }

  function LocalFirst(env: Env): JsNumber.Num {
    env.localFirst.GetOr(JsNumber.Finite(DefaultLocalFirst))
  }

  /** `i < LOCAL_FIRST`, which is false for NaN. */
  predicate Early(env: Env, i: nat) {
    JsNumber.Less(JsNumber.Finite(i as real), LocalFirst(env))
  }

  /** The URL of file `f` at position `i`: local for the early frames and when there is no CDN. */
  function EntryUrl(env: Env, localPrefix: string, cdnPrefix: string, f: string, i: nat): string {
    if Early(env, i) then localPrefix + "/" + f
    else if IsSet(env.cdn) then env.cdn.value + "/" + cdnPrefix + "/" + f
    else localPrefix + "/" + f
  }

  /** `buildListWebp` / `buildListAvif`. */
  function BuildList(env: Env, localPrefix: string, cdnPrefix: string, files: seq<string>): (r: seq<string>)
    ensures |r| == |files|
  {
    seq(|files|, i requires 0 <= i < |files| => EntryUrl(env, localPrefix, cdnPrefix, files[i], i))
  }

  function IsWebp(f: string): bool { EndsWithIgnoringCase(f, ".webp") }
  function IsAvif(f: string): bool { EndsWithIgnoringCase(f, ".avif") }

  /**
   * A run of the script. `webpListing` and `avifListing` are the two source
   * directories' entries (`None` for a directory that does not exist), and
   * `collate` is `localeCompare(a, b) <= 0`.
   */
  function Run(env: Env, webpListing: Option<seq<string>>, avifListing: Option<seq<string>>,
               collate: (string, string) -> bool): Outcome
  {
    if webpListing.None? then Exited(1)
    else
      var webpFiles := ReadFrames(webpListing, IsWebp, collate);
      var avifFiles := ReadFrames(avifListing, IsAvif, collate);
      if |webpFiles| == 0 && |avifFiles| == 0 then Exited(1)
      else
        var webp := if |webpFiles| > 0 then BuildList(env, LocalPrefixWebp, Prefix(env), webpFiles) else [];
        var avif := if |avifFiles| > 0 then BuildList(env, LocalPrefixAvif, PrefixAvif(env), avifFiles) else [];
        Written(Manifest(Some(1600), Some(900), if |webp| >= |avif| then |webp| else |avif|, None, avif, webp))
  }

  /** The script fails with status 1 exactly when the webp directory is missing or neither directory has frames. */
  lemma RunExits(env: Env, webpListing: Option<seq<string>>, avifListing: Option<seq<string>>, collate: (string, string) -> bool)
    ensures Run(env, webpListing, avifListing, collate).Exited? <==>
            webpListing.None? ||
            (|ReadFrames(webpListing, IsWebp, collate)| == 0 && |ReadFrames(avifListing, IsAvif, collate)| == 0)
    ensures Run(env, webpListing, avifListing, collate).Exited? ==> Run(env, webpListing, avifListing, collate).code == 1
  {
  }

  /**
   * A written manifest is 1600 by 900, counts the longer list, and its lists
   * follow the sorted file lists entry by entry: early or CDN-less entries
   * point at the local directory, the others at the CDN.
   */
  lemma RunManifest(env: Env, webpListing: Option<seq<string>>, avifListing: Option<seq<string>>, collate: (string, string) -> bool)
    requires Run(env, webpListing, avifListing, collate).Written?
    ensures var m := Run(env, webpListing, avifListing, collate).manifest;
            var webpFiles := ReadFrames(webpListing, IsWebp, collate);
            var avifFiles := ReadFrames(avifListing, IsAvif, collate);
            m.width == Some(1600) && m.height == Some(900) && m.chunks.None? &&
            |m.webp| == |webpFiles| && |m.avif| == |avifFiles| &&
            m.totalFrames == (if |webpFiles| >= |avifFiles| then |webpFiles| else |avifFiles|) &&
            (forall i :: 0 <= i < |m.webp| ==>
               m.webp[i] == (if Early(env, i) || !IsSet(env.cdn) then LocalPrefixWebp + "/" + webpFiles[i]
                             else env.cdn.value + "/" + Prefix(env) + "/" + webpFiles[i])) &&
            (forall i :: 0 <= i < |m.avif| ==>
               m.avif[i] == (if Early(env, i) || !IsSet(env.cdn) then LocalPrefixAvif + "/" + avifFiles[i]
                             else env.cdn.value + "/" + PrefixAvif(env) + "/" + avifFiles[i]))
  {
  }

  /** Whatever its prefix, entry i ends with '/' and the i-th sorted file. */
  lemma EntriesEndWithFile(env: Env, localPrefix: string, cdnPrefix: string, files: seq<string>, i: nat)
    requires i < |files|
    ensures EndsWith(BuildList(env, localPrefix, cdnPrefix, files)[i], "/" + files[i])
  {
    var e := BuildList(env, localPrefix, cdnPrefix, files)[i];
    var head := if Early(env, i) || !IsSet(env.cdn) then localPrefix else env.cdn.value + "/" + cdnPrefix;
    assert e == (head + "/") + files[i];
    assert e[|e| - |files[i]| - 1..] == "/" + files[i];
  }

  /**
   * With the defaults the first 20 frames are local and, given a CDN, every
   * later one is on it under the same prefix for both formats. A
   * `SEQ_LOCAL_FIRST` that is not a number makes no frame early.
   */
  lemma DefaultSplit(env: Env, i: nat)
    ensures env.localFirst.None? ==> (Early(env, i) <==> i < 20)
    ensures !IsSet(env.basePathAvif) ==> PrefixAvif(env) == Prefix(env)
    ensures !IsSet(env.basePath) ==> Prefix(env) == DefaultPrefix
    ensures env.localFirst == Some(JsNumber.NaN) ==> !Early(env, i)
    ensures env.localFirst == Some(JsNumber.PosInf) ==> Early(env, i)
  {
  }

  /** The input lists hold only frames with the right extension, every one of them, sorted when the collation is total. */
  lemma InputLists(webpListing: Option<seq<string>>, avifListing: Option<seq<string>>, collate: (string, string) -> bool)
    ensures forall f :: f in ReadFrames(webpListing, IsWebp, collate) ==> EndsWithIgnoringCase(f, ".webp")
    ensures forall f :: f in ReadFrames(avifListing, IsAvif, collate) ==> EndsWithIgnoringCase(f, ".avif")
    ensures webpListing.Some? ==> forall f :: f in webpListing.value && IsWebp(f) ==> f in ReadFrames(webpListing, IsWebp, collate)
    ensures avifListing.Some? ==> forall f :: f in avifListing.value && IsAvif(f) ==> f in ReadFrames(avifListing, IsAvif, collate)
    ensures Total(collate) ==> SortedBy(collate, ReadFrames(webpListing, IsWebp, collate)) &&
                                SortedBy(collate, ReadFrames(avifListing, IsAvif, collate))
  {
    ReadFramesSpec(webpListing, IsWebp, collate);
    ReadFramesSpec(avifListing, IsAvif, collate);
    if webpListing.Some? {
      forall f | f in webpListing.value && IsWebp(f) ensures f in ReadFrames(webpListing, IsWebp, collate) {
        assert multiset(webpListing.value)[f] > 0;
        assert multiset(ReadFrames(webpListing, IsWebp, collate))[f] > 0;
      }
    }
    if avifListing.Some? {
      forall f | f in avifListing.value && IsAvif(f) ensures f in ReadFrames(avifListing, IsAvif, collate) {
        assert multiset(avifListing.value)[f] > 0;
        assert multiset(ReadFrames(avifListing, IsAvif, collate))[f] > 0;
      }
    }
  }
}
