/**
 * What the process-section Rive card adds to the shared selection: reading
 * a state name out of a state-change event, and opening the call-to-action
 * link when the configured state is entered. On mobile the canvas lets
 * pointer gestures through so the page keeps scrolling.
 */
module NPRive {
  import opened Wrappers
  import RiveCard

  /** A property of the event's data object: absent, a string, or some other value. */
  datatype Field = Absent | Str(s: string) | NonString

  /**
   * The event's `data`: `undefined`, `null`, a value whose `typeof` is not
   * "object", or an object (arrays included) with its two fields of interest.
   */
  datatype EventData = Undefined | Null | NonObject | Object(stateName: Field, name: Field)

  /** A falsy event, or an event with its data. */
  datatype Event = NoEvent | StateChange(data: EventData)

  /** `getRiveStateName`. */
  function StateName(evt: Event): string {
    match evt
    case NoEvent => ""
    case StateChange(data) =>
      match data
      case Object(stateName, name) =>
        if stateName.Str? then stateName.s
        else if name.Str? then name.s
        else ""
      case _ => ""
  }

  /**
   * A state name is only ever read from an object: `stateName` wins when it
   * is a string, `name` is used only when `stateName` is not, and any other
   * shape gives "".
   */
  lemma StateNameSources(evt: Event)
    ensures StateName(evt) != "" ==> evt.StateChange? && evt.data.Object?
    ensures evt.StateChange? && evt.data.Object? && evt.data.stateName.Str? ==>
      StateName(evt) == evt.data.stateName.s
    ensures evt.StateChange? && evt.data.Object? && !evt.data.stateName.Str? && evt.data.name.Str? ==>
      StateName(evt) == evt.data.name.s
    ensures evt.StateChange? && evt.data.Object? && !evt.data.stateName.Str? && !evt.data.name.Str? ==>
      StateName(evt) == ""
    ensures !(evt.StateChange? && evt.data.Object?) ==> StateName(evt) == ""
  {
  }

  datatype Target = Self | Blank

  /** A `window.open(href, target)` call. */
  datatype Open = Open(href: string, target: Target)

  /** The state that triggers the link: `ctaStateName || "CTA_Click"`. */
  function ExpectedState(ctaStateName: Option<string>): (s: string)
    ensures s != ""
    ensures RiveCard.Truthy(ctaStateName) ==> s == ctaStateName.value
  {
    if RiveCard.Truthy(ctaStateName) then ctaStateName.value else "CTA_Click"
  }

  /** `onStateChange`: open the link when the expected state is entered and a link is set. */
  function OnStateChange(evt: Event, ctaStateName: Option<string>, ctaHref: Option<string>,
                         ctaTarget: Option<Target>): Option<Open>
  {
    if StateName(evt) == ExpectedState(ctaStateName) && RiveCard.Truthy(ctaHref) then
      Some(Open(ctaHref.value, ctaTarget.GetOr(Self)))
    else None
  }

  /**
   * The link opens exactly when the event names the expected state and a
   * non-empty link is set; it goes to that link, in the given target or the
   * same tab; with no state name configured the state is "CTA_Click"; an
   * event without a state name never opens anything.
   */
  lemma CallToAction(evt: Event, ctaStateName: Option<string>, ctaHref: Option<string>,
                     ctaTarget: Option<Target>)
    ensures var o := OnStateChange(evt, ctaStateName, ctaHref, ctaTarget);
      (o.Some? <==> StateName(evt) == ExpectedState(ctaStateName) && RiveCard.Truthy(ctaHref)) &&
      (o.Some? ==> o.value.href == ctaHref.value) &&
      (o.Some? && ctaTarget.None? ==> o.value.target == Self) &&
      (o.Some? && ctaTarget.Some? ==> o.value.target == ctaTarget.value) &&
      (!RiveCard.Truthy(ctaStateName) && o.Some? ==> StateName(evt) == "CTA_Click") &&
      (StateName(evt) == "" ==> o.None?)
  {
  }

  /** The default trigger fires on an event whose data object names the state "CTA_Click". */
  lemma DefaultTriggerExample(href: string)
    requires href != ""
    ensures OnStateChange(StateChange(Object(Str("CTA_Click"), Absent)), None, Some(href), None)
      == Some(Open(href, Self))
    ensures OnStateChange(StateChange(Object(NonString, Str("CTA_Click"))), Some(""), Some(href), Some(Blank))
      == Some(Open(href, Blank))
    ensures OnStateChange(StateChange(Object(Str("Idle"), Str("CTA_Click"))), None, Some(href), None)
      == None
  {
  }

  datatype PointerEvents = PointerNone | PointerAuto

  /** The canvas's `pointerEvents`: "none" on mobile so touch scrolling reaches the page. */
  function CanvasPointerEvents(isMobile: bool): (pe: PointerEvents)
    ensures pe == PointerNone <==> isMobile
  {
    if isMobile then PointerNone else PointerAuto
  }
}
