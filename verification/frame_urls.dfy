/** How the player names frames and which URLs it tries for one frame. */
module FrameUrls {
  import opened Wrappers
  import opened Text
  import opened SequenceConfig

  /** `dir` with one trailing '/' removed (absolute and relative directories alike). */
  function Prefix(p: Props): string {
    StripTrailingSlash(p.dir)
  }

  /** `baseNameFor(i)`: prefix, '/', base, then `i` zero-padded to `pad` digits. */
  function BaseNameFor(p: Props, i: int): string {
    Prefix(p) + "/" + p.base + PadStart(IntToString(i), p.pad, '0')
  }

  /** `Array.from({ length: count }, ...)`: a negative length gives an empty array. */
  function Length(count: int): nat {
    if count > 0 then count else 0
  }

  /** `urls`: the synthesised base name (no extension) of every frame. */
  function Urls(p: Props): (u: seq<string>)
    ensures |u| == Length(p.count)
  {
    seq(Length(p.count), i requires 0 <= i < Length(p.count) => BaseNameFor(p, p.start + i))
  }

  /** `urls[idx]`, which JavaScript renders as "undefined" outside the array. */
  function FrameName(p: Props, idx: int): string {
    var u := Urls(p);
    if 0 <= idx < |u| then u[idx] else "undefined"
  }

  /** `extCandidates` when present and non-empty, else `[ext]`. */
  function Candidates(p: Props): (c: seq<string>)
    ensures |c| >= 1
    ensures p.extCandidates.Some? && |p.extCandidates.value| > 0 ==> c == p.extCandidates.value
    ensures !(p.extCandidates.Some? && |p.extCandidates.value| > 0) ==> c == [p.ext]
  {
    if p.extCandidates.Some? && |p.extCandidates.value| > 0 then p.extCandidates.value else [p.ext]
  }

  /** `sources[idx]` when `sources` is an array and that entry is a non-empty string. */
  function Explicit(p: Props, idx: int): (e: Option<string>)
    ensures e.Some? <==> p.sources.Some? && 0 <= idx < |p.sources.value| && p.sources.value[idx] != ""
    ensures e.Some? ==> e.value == p.sources.value[idx]
  {
    if p.sources.Some? && 0 <= idx < |p.sources.value| && p.sources.value[idx] != ""
    then Some(p.sources.value[idx]) else None
  }

  function ExplicitPart(p: Props, idx: int): seq<string> {
    match Explicit(p, idx)
    case Some(e) => [e]
    case None => []
  }

  /** `tryList`: the explicit URL first, if any, then the synthesised name with each candidate extension. */
  function TryList(p: Props, idx: int): (t: seq<string>)
    ensures |t| == |ExplicitPart(p, idx)| + |Candidates(p)| && |t| >= 1
    ensures Explicit(p, idx).Some? ==> t[0] == Explicit(p, idx).value
    ensures forall j :: 0 <= j < |Candidates(p)| ==>
              t[|ExplicitPart(p, idx)| + j] == FrameName(p, idx) + "." + Candidates(p)[j]
  {
    var c := Candidates(p);
    var name := FrameName(p, idx);
    ExplicitPart(p, idx) + seq(|c|, j requires 0 <= j < |c| => name + "." + c[j])
  }

  /** Frame `i`'s name is prefix, '/', base and a zero-padded number that reads back as `start + i`. */
  lemma FrameNameDecodes(p: Props, i: int)
    requires 0 <= i < p.count && p.start + i >= 0
    ensures var name := Urls(p)[i];
            var head := Prefix(p) + "/" + p.base;
            StartsWith(name, head) &&
            AllDigits(name[|head|..]) &&
            ParseNat(name[|head|..]) == p.start + i &&
            |name| - |head| >= (if p.pad > 1 then p.pad else 1)
  {
    var head := Prefix(p) + "/" + p.base;
    var digits := PadStart(NatToString(p.start + i), p.pad, '0');
    var name := Urls(p)[i];
    assert name == BaseNameFor(p, p.start + i);
    assert IntToString(p.start + i) == NatToString(p.start + i);
    assert name == head + digits;
    assert name[|head|..] == digits;
    assert name[..|head|] == head;
    ParsePadded(p.start + i, p.pad);
  }

  /** With a non-negative `start`, no two frames share a synthesised name. */
  lemma UrlsDistinct(p: Props, i: int, j: int)
    requires 0 <= i < p.count && 0 <= j < p.count && p.start >= 0
    requires Urls(p)[i] == Urls(p)[j]
    ensures i == j
  {
    var head := Prefix(p) + "/" + p.base;
    FrameNameDecodes(p, i);
    FrameNameDecodes(p, j);
  }
}
