/** The manifest the build scripts write, and the pieces they share. */
module Manifests {
  import opened Wrappers
  import opened Text

  /** The JSON object written; the fields a script does not write are `None`. */
  datatype Manifest = Manifest(
    width: Option<int>,
    height: Option<int>,
    totalFrames: int,
    chunks: Option<int>,
    avif: seq<string>,
    webp: seq<string>)

  /** A script run either writes its manifest or exits with a status code. */
  datatype Outcome = Written(manifest: Manifest) | Exited(code: int)

  /** An environment variable in a boolean position: set and not empty. */
  predicate IsSet(env: Option<string>) {
    env.Some? && env.value != ""
  }

  /** `env || fallback`. */
  function OrDefault(env: Option<string>, fallback: string): (r: string)
    ensures IsSet(env) ==> r == env.value
    ensures !IsSet(env) ==> r == fallback
  {
    if IsSet(env) then env.value else fallback
  }

  /** `files.map(f => `${prefix}/${f}`)`. */
  function Under(prefix: string, files: seq<string>): (r: seq<string>)
    ensures |r| == |files|
  {
    seq(|files|, i requires 0 <= i < |files| => prefix + "/" + files[i])
  }

  /** Every entry is the prefix, a '/', and the file at the same position. */
  lemma UnderEntries(prefix: string, files: seq<string>, i: nat)
    requires i < |files|
    ensures StartsWith(Under(prefix, files)[i], prefix + "/")
    ensures EndsWith(Under(prefix, files)[i], "/" + files[i])
    ensures Under(prefix, files)[i][|prefix| + 1..] == files[i]
  {
    var e := Under(prefix, files)[i];
    assert e == (prefix + "/") + files[i];
    assert e[|e| - |files[i]| - 1..] == "/" + files[i];
  }
}
