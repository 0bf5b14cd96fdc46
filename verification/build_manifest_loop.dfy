/** `build-manifest-loop`: the loop sequence's manifest, from local files only, AVIF preferred. */
module BuildManifestLoop {
  import opened Wrappers
  import opened Text
  import opened FileLists
  import opened Manifests

  const LocalPrefixAvif: string := "/AnimationHero/seq-loop-avif"
  const LocalPrefixWebp: string := "/AnimationHero/seq-loop"

  function IsAvif(f: string): bool { EndsWithIgnoringCase(f, ".avif") }
  function IsWebp(f: string): bool { EndsWithIgnoringCase(f, ".webp") }

  /** A run: `totalFrames` is the AVIF count unless there are none (`avifs.length || webps.length`). */
  function Run(avifListing: Option<seq<string>>, webpListing: Option<seq<string>>, collate: (string, string) -> bool): Manifest {
    var avif := Under(LocalPrefixAvif, ReadFrames(avifListing, IsAvif, collate));
    var webp := Under(LocalPrefixWebp, ReadFrames(webpListing, IsWebp, collate));
    Manifest(None, None, if |avif| != 0 then |avif| else |webp|, None, avif, webp)
  }

  /**
   * The manifest has no size and no chunking; its lists name the sorted
   * local files under their directories, and it counts the AVIF frames when
   * there are any, else the webp ones. A missing directory gives an empty list.
   */
  lemma RunManifest(avifListing: Option<seq<string>>, webpListing: Option<seq<string>>, collate: (string, string) -> bool)
    ensures var m := Run(avifListing, webpListing, collate);
            var avifs := ReadFrames(avifListing, IsAvif, collate);
            var webps := ReadFrames(webpListing, IsWebp, collate);
            m.width.None? && m.height.None? && m.chunks.None? &&
            |m.avif| == |avifs| && |m.webp| == |webps| &&
            (forall i :: 0 <= i < |avifs| ==> m.avif[i] == LocalPrefixAvif + "/" + avifs[i]) &&
            (forall i :: 0 <= i < |webps| ==> m.webp[i] == LocalPrefixWebp + "/" + webps[i]) &&
            (|avifs| > 0 ==> m.totalFrames == |avifs|) &&
            (|avifs| == 0 ==> m.totalFrames == |webps|) &&
            (avifListing.None? ==> m.avif == []) && (webpListing.None? ==> m.webp == [])
  {
  }
}
