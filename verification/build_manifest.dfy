/** `build-manifest`: the CDN-only scroll manifest, in chunks of 40. */
module BuildManifest {
  import opened Wrappers
  import opened Text
  import opened FileLists
  import opened Manifests

  const Chunks: int := 40

  /** `f.toLowerCase().endsWith('.webp')`. */
  function IsWebp(f: string): bool { EndsWith(Lower(f), ".webp") }

  /** `list(dir)`: the webp files in default sort order, each as a CDN URL. */
  function List(cdnUrl: string, basePath: string, listing: Option<seq<string>>): seq<string> {
    Under(cdnUrl + "/" + basePath, ReadFrames(listing, IsWebp, CodeUnitLeq))
  }

  /** A run, given the two environment variables and the source directory's entries. */
  function Run(cdnUrl: Option<string>, basePath: Option<string>, listing: Option<seq<string>>): Outcome {
    if !IsSet(cdnUrl) || !IsSet(basePath) then Exited(1)
    else
      var webp := List(cdnUrl.value, basePath.value, listing);
      Written(Manifest(Some(1600), Some(900), |webp|, Some(Chunks), [], webp))
  }

  /** The script exits with status 1 exactly when either variable is missing or empty. */
  lemma RunExits(cdnUrl: Option<string>, basePath: Option<string>, listing: Option<seq<string>>)
    ensures Run(cdnUrl, basePath, listing) == Exited(1) <==> !IsSet(cdnUrl) || !IsSet(basePath)
    ensures Run(cdnUrl, basePath, listing).Written? <==> IsSet(cdnUrl) && IsSet(basePath)
  {
  }

  /**
   * The files listed are every webp file of the directory in any letter
   * case, each as often as it appears, in UTF-16 code-unit order; a missing
   * directory lists none.
   */
  lemma WebpFiles(listing: Option<seq<string>>)
    ensures var files := ReadFrames(listing, IsWebp, CodeUnitLeq);
            SortedBy(CodeUnitLeq, files) &&
            (forall f :: f in files ==> EndsWithIgnoringCase(f, ".webp")) &&
            (listing.Some? ==> forall f :: multiset(files)[f] == if IsWebp(f) then multiset(listing.value)[f] else 0) &&
            (listing.None? ==> files == [])
  {
    WebpFilesSorted(listing);
    ReadFramesSpec(listing, IsWebp, CodeUnitLeq);
    var files := ReadFrames(listing, IsWebp, CodeUnitLeq);
    forall f | f in files ensures EndsWithIgnoringCase(f, ".webp") {
      WebpSuffix(f);
    }
  }

  lemma WebpFilesSorted(listing: Option<seq<string>>)
    ensures SortedBy(CodeUnitLeq, ReadFrames(listing, IsWebp, CodeUnitLeq))
  {
    CodeUnitLeqTotal();
    ReadFramesSpec(listing, IsWebp, CodeUnitLeq);
  }

  /** The lower-cased suffix test is the case-insensitive one. */
  lemma WebpSuffix(f: string)
    ensures IsWebp(f) <==> EndsWithIgnoringCase(f, ".webp")
  {
    LowerEndsWith(f, ".webp");
  }

  /**
   * A written manifest is 1600 by 900 in 40 chunks with no AVIF; its webp
   * list holds the listed files in order, each under `CDN_PUBLIC_URL/CDN_BASE_PATH/`.
   */
  lemma RunManifest(cdnUrl: Option<string>, basePath: Option<string>, listing: Option<seq<string>>)
    requires IsSet(cdnUrl) && IsSet(basePath)
    ensures var m := Run(cdnUrl, basePath, listing).manifest;
            var files := ReadFrames(listing, IsWebp, CodeUnitLeq);
            m.width == Some(1600) && m.height == Some(900) && m.chunks == Some(40) && m.avif == [] &&
            m.totalFrames == |m.webp| == |files| &&
            (forall i :: 0 <= i < |files| ==> m.webp[i] == cdnUrl.value + "/" + basePath.value + "/" + files[i])
  {
    var files := ReadFrames(listing, IsWebp, CodeUnitLeq);
    var m := Run(cdnUrl, basePath, listing).manifest;
    forall i | 0 <= i < |files| ensures m.webp[i] == cdnUrl.value + "/" + basePath.value + "/" + files[i] {
      assert m.webp[i] == (cdnUrl.value + "/" + basePath.value) + "/" + files[i];
    }
  }
}
