/**
 * The scroll-driven hero sequence: the 545 explicit frame URLs it builds,
 * optionally on a CDN, the progress clamp, and the fixed configuration it
 * hands to the frame-sequence player.
 */
module HeroComposite {
  import opened Wrappers
  import opened Text
  import opened SequenceConfig
  import opened FrameUrls
  import opened NetProfile
  import opened Playback

  const Total: nat := 545
  const LocalDir: string := "/AnimationHero/seq-scroll"
  const FrameBase: string := "HERO_QUEDA"

  /** JavaScript's `a || b` on two optional strings: the empty string is falsy. */
  function OrElse(a: Option<string>, b: Option<string>): (r: Option<string>)
    ensures a.Some? && a.value != "" ==> r == a
    ensures !(a.Some? && a.value != "") ==> r == b
  {
    if a.Some? && a.value != "" then a else b
  }

  /** `baseDir`: the CDN base (the scroll-specific one first) without a trailing '/', else the local directory. */
  function BaseDir(cdnScroll: Option<string>, cdnBase: Option<string>): string {
    var c := OrElse(cdnScroll, cdnBase);
    if c.Some? && |c.value| > 0 then StripTrailingSlash(c.value) else LocalDir
  }

  /** `String(n).padStart(3, "0")`. */
  function Pad3(n: nat): string {
    PadStart(NatToString(n), 3, '0')
  }

  function SourceUrl(baseDir: string, i: nat): string {
    baseDir + "/" + FrameBase + Pad3(i + 1) + ".png"
  }

  /** `sourcesScroll`: one PNG URL per frame, numbered from 1. */
  function SourcesScroll(cdnScroll: Option<string>, cdnBase: Option<string>): (s: seq<string>)
    ensures |s| == Total
  {
    var dir := BaseDir(cdnScroll, cdnBase);
    seq(Total, i requires 0 <= i < Total => SourceUrl(dir, i))
  }

  /** `Math.min(1, Math.max(0, progress))` with `progress` defaulting to 0. */
  function PlayerProgress(progress: Option<real>): real {
    Clamp01(progress.GetOr(0.0))
  }

  /** The props passed to the player. */
  function CompositeProps(cdnScroll: Option<string>, cdnBase: Option<string>): Props {
    Props(Total, 24.0, LocalDir, FrameBase, 3, "png", Some(["png"]), Some(SourcesScroll(cdnScroll, cdnBase)),
          1, 1.0, true, 6, NetOverride(Some(6), Some(24)), Some(20))
  }

  /** The progress handed on lies in [0, 1], is 0 when absent, and is unchanged when already in range. */
  lemma ProgressClamped(progress: Option<real>)
    ensures 0.0 <= PlayerProgress(progress) <= 1.0
    ensures progress.None? ==> PlayerProgress(progress) == 0.0
    ensures progress.Some? && 0.0 <= progress.value <= 1.0 ==> PlayerProgress(progress) == progress.value
  {
  }

  /** Without a CDN, or with an empty one, the frames are served from the local directory; a CDN base loses one trailing '/'. */
  lemma BaseDirChoice(cdnScroll: Option<string>, cdnBase: Option<string>)
    ensures (cdnScroll.None? || cdnScroll == Some("")) && (cdnBase.None? || cdnBase == Some("")) ==>
              BaseDir(cdnScroll, cdnBase) == LocalDir
    ensures cdnScroll.Some? && cdnScroll.value != "" ==> BaseDir(cdnScroll, cdnBase) == StripTrailingSlash(cdnScroll.value)
    ensures (cdnScroll.None? || cdnScroll == Some("")) && cdnBase.Some? && cdnBase.value != "" ==>
              BaseDir(cdnScroll, cdnBase) == StripTrailingSlash(cdnBase.value)
  {
  }

  /** Entry i of the list is the URL of frame i + 1 under the chosen base directory. */
  lemma SourceAt(cdnScroll: Option<string>, cdnBase: Option<string>, i: nat)
    requires i < Total
    ensures SourcesScroll(cdnScroll, cdnBase)[i] == SourceUrl(BaseDir(cdnScroll, cdnBase), i)
  {
  }

  /** A decimal of at most three digits. */
  lemma {:induction false} ShortDecimal(n: nat)
    requires n < 1000
    ensures |NatToString(n)| <= 3
  {
    if n >= 10 {
      var a := n / 10;
      assert NatToString(n) == NatToString(a) + [DigitChar(n % 10)];
      if a >= 10 {
        assert NatToString(a) == NatToString(a / 10) + [DigitChar(a % 10)];
        assert a / 10 < 10;
      }
    }
  }

  /** Frame numbers below 1000 pad to exactly three digits that read back as the number. */
  lemma Pad3Digits(n: nat)
    requires n < 1000
    ensures |Pad3(n)| == 3 && AllDigits(Pad3(n)) && ParseNat(Pad3(n)) == n
  {
    ShortDecimal(n);
    ParsePadded(n, 3);
  }

  /** The URL of frame i + 1: the directory, the frame base, three digits and ".png". */
  lemma SourceUrlShape(dir: string, i: nat)
    requires i < Total
    ensures var s := SourceUrl(dir, i);
            var head := dir + "/" + FrameBase;
            StartsWith(s, head) && EndsWith(s, ".png") && |s| == |head| + 7 &&
            AllDigits(s[|head|..|s| - 4]) && ParseNat(s[|head|..|s| - 4]) == i + 1
  {
    var head := dir + "/" + FrameBase;
    var d := Pad3(i + 1);
    Pad3Digits(i + 1);
    var s := SourceUrl(dir, i);
    assert s == head + d + ".png";
    assert s[..|head|] == head;
    assert s[|s| - 4..] == ".png";
    assert s[|head|..|s| - 4] == d;
  }

  /** Entry i is the base directory, the frame base and frame number i + 1 zero-padded to three digits, as a PNG. */
  lemma SourcesShape(cdnScroll: Option<string>, cdnBase: Option<string>, i: nat)
    requires i < Total
    ensures var s := SourcesScroll(cdnScroll, cdnBase)[i];
            var head := BaseDir(cdnScroll, cdnBase) + "/" + FrameBase;
            StartsWith(s, head) && EndsWith(s, ".png") && |s| == |head| + 7 &&
            AllDigits(s[|head|..|s| - 4]) && ParseNat(s[|head|..|s| - 4]) == i + 1
  {
    SourceAt(cdnScroll, cdnBase, i);
    SourceUrlShape(BaseDir(cdnScroll, cdnBase), i);
  }

  /** No two frames share a URL. */
  lemma SourcesDistinct(cdnScroll: Option<string>, cdnBase: Option<string>, i: nat, j: nat)
    requires i < Total && j < Total
    requires SourcesScroll(cdnScroll, cdnBase)[i] == SourcesScroll(cdnScroll, cdnBase)[j]
    ensures i == j
  {
    SourcesShape(cdnScroll, cdnBase, i);
    SourcesShape(cdnScroll, cdnBase, j);
  }

  /** The first entry ends in "001.png" and the last in "545.png". */
  lemma SourcesEndpoints(cdnScroll: Option<string>, cdnBase: Option<string>)
    ensures EndsWith(SourcesScroll(cdnScroll, cdnBase)[0], "001.png")
    ensures EndsWith(SourcesScroll(cdnScroll, cdnBase)[Total - 1], "545.png")
  {
    var dir := BaseDir(cdnScroll, cdnBase);
    SourceAt(cdnScroll, cdnBase, 0);
    SourceAt(cdnScroll, cdnBase, Total - 1);
    FirstAndLastUrl(dir);
  }

  lemma FirstAndLastUrl(dir: string)
    ensures EndsWith(SourceUrl(dir, 0), "001.png")
    ensures EndsWith(SourceUrl(dir, Total - 1), "545.png")
  {
    FirstNumber();
    LastNumber();
    UrlSuffix(dir, 0, "001");
    UrlSuffix(dir, Total - 1, "545");
  }

  lemma FirstNumber()
    ensures Pad3(1) == "001"
  {
    assert NatToString(1) == "1";
  }

  lemma LastNumber()
    ensures Pad3(545) == "545"
  {
    assert NatToString(5) == "5";
    assert NatToString(54) == NatToString(5) + [DigitChar(4)];
    assert NatToString(545) == NatToString(54) + [DigitChar(5)];
  }

  lemma UrlSuffix(dir: string, i: nat, digits: string)
    requires Pad3(i + 1) == digits
    ensures EndsWith(SourceUrl(dir, i), digits + ".png")
  {
    var u := SourceUrl(dir, i);
    var head := dir + "/" + FrameBase;
    assert u == head + (digits + ".png");
    assert u[|u| - |digits + ".png"|..] == digits + ".png";
  }

  /**
   * With no CDN configured the explicit URL of every frame is the player's
   * own synthesised name with the ".png" extension, so the player tries the
   * same URL twice: first as the explicit source, then as its fallback.
   */
  lemma SourcesMatchSynthesisedNames(cdnScroll: Option<string>, cdnBase: Option<string>, i: nat)
    requires BaseDir(cdnScroll, cdnBase) == LocalDir
    requires i < Total
    ensures var p := CompositeProps(cdnScroll, cdnBase);
            SourcesScroll(cdnScroll, cdnBase)[i] == Urls(p)[i] + ".png" &&
            TryList(p, i) == [Urls(p)[i] + ".png", Urls(p)[i] + ".png"]
  {
    var p := CompositeProps(cdnScroll, cdnBase);
    SynthesisedName(p, i);
    var u := Urls(p)[i] + ".png";
    SourceAt(cdnScroll, cdnBase, i);
    assert p.sources.value[i] == u;
    PngTryList(p, i, u);
  }

  /** The player's own name for frame i + 1 under this configuration, with ".png", is the local URL. */
  lemma SynthesisedName(p: Props, i: nat)
    requires p.dir == LocalDir && p.base == FrameBase && p.pad == 3 && p.start == 1
    requires i < p.count
    ensures Urls(p)[i] + ".png" == SourceUrl(LocalDir, i)
    ensures FrameName(p, i) == Urls(p)[i]
  {
    assert LocalDir[|LocalDir| - 1] == 'l';
    assert Prefix(p) == LocalDir;
    assert IntToString(1 + i) == NatToString(i + 1);
    assert Urls(p)[i] == BaseNameFor(p, 1 + i);
    assert Urls(p)[i] == LocalDir + "/" + FrameBase + Pad3(i + 1);
  }

  /** With explicit source `u` equal to the synthesised name plus ".png" and the candidates ["png"], `u` is tried twice. */
  lemma PngTryList(p: Props, i: nat, u: string)
    requires p.extCandidates == Some(["png"])
    requires p.sources.Some? && i < |p.sources.value| && p.sources.value[i] == u
    requires u == FrameName(p, i) + ".png"
    ensures TryList(p, i) == [u, u]
  {
    assert u != "";
    assert Explicit(p, i) == Some(u);
    assert ExplicitPart(p, i) == [u];
    assert Candidates(p) == ["png"];
    var t := TryList(p, i);
    assert t[1] == FrameName(p, i) + "." + "png";
    assert FrameName(p, i) + "." + "png" == u;
    assert |t| == 2;
    assert t == [u, u];
  }

  /**
   * The player gets 545 frames, at most 6 cached, 6 requests in flight and
   * a prefetch window of 20 whatever the connection: the explicit window wins
   * over the override's 24.
   */
  lemma PlayerConfiguration(cdnScroll: Option<string>, cdnBase: Option<string>, reported: Option<string>)
    ensures var p := CompositeProps(cdnScroll, cdnBase);
            p.count == 545 && p.maxCache == 6 && p.loops == 1.0 && p.start == 1 &&
            GetNetProfile(reported, p.netProfileOverride) == Profile(6, 24) &&
            PrefetchLimit(p, reported) == 20 &&
            Candidates(p) == ["png"] &&
            |Urls(p)| == |p.sources.value| == 545
  {
  }
}
