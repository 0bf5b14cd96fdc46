/**
 * The option selection shared by the two Rive card wrappers (the
 * process-section card and the differentials card): whether a Rive
 * animation is used at all, which file, artboard and state machines the
 * current device gets, the key that remounts the card when that choice
 * changes, and the per-device scale and offsets.
 */
module RiveCard {
  import opened Wrappers
  import opened Text

  /** The props both wrappers read; numbers are reals, absent props `None`. */
  datatype Props = Props(
    desktopSrc: Option<string>,
    mobileSrc: Option<string>,
    desktopArtboard: Option<string>,
    mobileArtboard: Option<string>,
    desktopStateMachines: Option<seq<string>>,
    mobileStateMachines: Option<seq<string>>,
    imgSrc: Option<string>,
    scale: Option<real>,
    offsetX: Option<real>,
    offsetY: Option<real>,
    desktopScale: Option<real>,
    mobileScale: Option<real>,
    desktopOffsetX: Option<real>,
    desktopOffsetY: Option<real>,
    mobileOffsetX: Option<real>,
    mobileOffsetY: Option<real>)

  /** JavaScript truthiness of an optional string: present and not empty. */
  predicate Truthy(s: Option<string>) {
    s.Some? && s.value != ""
  }

  /** `useIsMobile`: the media query `(max-width: 767px)`; false until the effect has run. */
  predicate MatchesMobile(innerWidth: int) {
    innerWidth <= 767
  }

  /** `willUseRive`: either source is a non-empty string. */
  predicate WillUseRive(p: Props) {
    Truthy(p.desktopSrc) || Truthy(p.mobileSrc)
  }

  datatype Config = Config(src: string, artboard: Option<string>, stateMachines: Option<seq<string>>)

  /**
   * `config`: nothing without a source; otherwise the device's own source,
   * falling back (`??`) to the other device's, with the device's own
   * artboard and state machines.
   */
  function ConfigFor(p: Props, isMobile: bool): Option<Config> {
    if !WillUseRive(p) then None
    else if isMobile then
      Some(Config(p.mobileSrc.OrElse(p.desktopSrc).GetOr(""), p.mobileArtboard, p.mobileStateMachines))
    else
      Some(Config(p.desktopSrc.OrElse(p.mobileSrc).GetOr(""), p.desktopArtboard, p.desktopStateMachines))
  }

  /** `instanceKey`: "image" without a config, else `src|artboard|machines`. */
  function InstanceKey(c: Option<Config>): string {
    match c
    case None => "image"
    case Some(cfg) =>
      cfg.src + "|" + cfg.artboard.GetOr("") + "|" + Join(cfg.stateMachines.GetOr([]), ",")
  }

  /**
   * A config exists exactly when a source is truthy; on each device it
   * carries that device's artboard and state machines, and its source is
   * the device's own whenever that prop is given, the other one otherwise.
   */
  lemma ConfigSelection(p: Props, isMobile: bool)
    ensures ConfigFor(p, isMobile).Some? <==> WillUseRive(p)
    ensures ConfigFor(p, isMobile).Some? && isMobile ==>
      ConfigFor(p, isMobile).value.artboard == p.mobileArtboard &&
      ConfigFor(p, isMobile).value.stateMachines == p.mobileStateMachines &&
      (p.mobileSrc.Some? ==> ConfigFor(p, isMobile).value.src == p.mobileSrc.value) &&
      (p.mobileSrc.None? ==> ConfigFor(p, isMobile).value.src == p.desktopSrc.value)
    ensures ConfigFor(p, isMobile).Some? && !isMobile ==>
      ConfigFor(p, isMobile).value.artboard == p.desktopArtboard &&
      ConfigFor(p, isMobile).value.stateMachines == p.desktopStateMachines &&
      (p.desktopSrc.Some? ==> ConfigFor(p, isMobile).value.src == p.desktopSrc.value) &&
      (p.desktopSrc.None? ==> ConfigFor(p, isMobile).value.src == p.mobileSrc.value)
  {
  }

  /** With only one source given, both devices play that one file. */
  lemma SingleSourceServesBoth(p: Props)
    requires Truthy(p.desktopSrc) && p.mobileSrc.None?
    ensures ConfigFor(p, true).Some? && ConfigFor(p, true).value.src == p.desktopSrc.value
    ensures ConfigFor(p, false).Some? && ConfigFor(p, false).value.src == p.desktopSrc.value
  {
  }

  /**
   * `??` only skips an absent prop, not an empty one: a mobile source of ""
   * next to a real desktop source still selects "" on mobile.
   */
  lemma EmptySourceIsSelected(p: Props)
    requires p.mobileSrc == Some("") && Truthy(p.desktopSrc)
    ensures WillUseRive(p)
    ensures ConfigFor(p, true).Some? && ConfigFor(p, true).value.src == ""
  {
  }

  /** The key is "image" exactly when there is no config, and otherwise starts with the source and a '|'. */
  lemma InstanceKeyShape(c: Option<Config>)
    ensures InstanceKey(c) == "image" <==> c.None?
    ensures c.Some? ==> StartsWith(InstanceKey(c), c.value.src + "|")
  {
    if c.Some? {
      var k := InstanceKey(c);
      var cfg := c.value;
      var rest := cfg.artboard.GetOr("") + "|" + Join(cfg.stateMachines.GetOr([]), ",");
      assert k == cfg.src + "|" + rest;
      assert k[..|cfg.src + "|"|] == cfg.src + "|";
      assert k[|cfg.src|] == '|';
      assert k != "image" by {
        if k == "image" {
          PipeFree("image", |cfg.src|);
          assert false;
        }
      }
    }
  }

  lemma PipeFree(s: string, i: int)
    requires s == "image" && 0 <= i < |s|
    ensures s[i] != '|'
  {
  }

  /** Without a source the wrapper keys its element "image" on every device. */
  lemma ImageKeyWithoutRive(p: Props, isMobile: bool)
    requires !WillUseRive(p)
    ensures InstanceKey(ConfigFor(p, isMobile)) == "image"
  {
  }

  datatype Transform = Transform(scale: real, offsetX: real, offsetY: real)

  /** `computedScale` and the two offsets: device-specific ?? general ?? 1 (scale) or 0 (offsets). */
  function TransformFor(p: Props, isMobile: bool): Transform {
    if isMobile then
      Transform(p.mobileScale.OrElse(p.scale).GetOr(1.0),
                p.mobileOffsetX.OrElse(p.offsetX).GetOr(0.0),
                p.mobileOffsetY.OrElse(p.offsetY).GetOr(0.0))
    else
      Transform(p.desktopScale.OrElse(p.scale).GetOr(1.0),
                p.desktopOffsetX.OrElse(p.offsetX).GetOr(0.0),
                p.desktopOffsetY.OrElse(p.offsetY).GetOr(0.0))
  }

  /**
   * The fallback order for each transform value, written per value: the
   * device's own prop when given (even 0), else the general one, else the
   * identity (scale 1, offset 0).
   */
  lemma TransformFallbacks(p: Props, isMobile: bool)
    ensures var dev := if isMobile then p.mobileScale else p.desktopScale;
      TransformFor(p, isMobile).scale ==
        (if dev.Some? then dev.value else if p.scale.Some? then p.scale.value else 1.0)
    ensures var dev := if isMobile then p.mobileOffsetX else p.desktopOffsetX;
      TransformFor(p, isMobile).offsetX ==
        (if dev.Some? then dev.value else if p.offsetX.Some? then p.offsetX.value else 0.0)
    ensures var dev := if isMobile then p.mobileOffsetY else p.desktopOffsetY;
      TransformFor(p, isMobile).offsetY ==
        (if dev.Some? then dev.value else if p.offsetY.Some? then p.offsetY.value else 0.0)
  {
  }

  /** One device's transform never depends on the other device's props. */
  lemma TransformIgnoresOtherDevice(p: Props, q: Props)
    requires p.scale == q.scale && p.offsetX == q.offsetX && p.offsetY == q.offsetY
    ensures (p.mobileScale == q.mobileScale && p.mobileOffsetX == q.mobileOffsetX &&
             p.mobileOffsetY == q.mobileOffsetY) ==> TransformFor(p, true) == TransformFor(q, true)
    ensures (p.desktopScale == q.desktopScale && p.desktopOffsetX == q.desktopOffsetX &&
             p.desktopOffsetY == q.desktopOffsetY) ==> TransformFor(p, false) == TransformFor(q, false)
  {
  }

  datatype Content = RiveCanvas(transform: Transform) | FallbackImage(src: string)

  /**
   * What the card renders: the Rive canvas once the library has produced a
   * component (`riveReady`, a library outcome) for a card that uses Rive;
   * otherwise the image, defaulting to "/fallback.png".
   */
  function Rendered(p: Props, isMobile: bool, riveReady: bool): (c: Content)
    ensures c.RiveCanvas? <==> WillUseRive(p) && riveReady
    ensures c.RiveCanvas? ==> c.transform == TransformFor(p, isMobile)
    ensures c.FallbackImage? ==> c.src == (if p.imgSrc.Some? then p.imgSrc.value else "/fallback.png")
  {
    if WillUseRive(p) && riveReady then RiveCanvas(TransformFor(p, isMobile))
    else FallbackImage(p.imgSrc.GetOr("/fallback.png"))
  }
}
