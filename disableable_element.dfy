/**
 The enabled state of a NiceGUI element that can be disabled.

 The element holds one bindable boolean, `enabled`, which starts out true. Every
 assignment to it goes through the bindable property's change hook to
 `OnEnabledChange`, which sets the render prop `disable` to the negation of the
 new value and asks for one display update. The three bind methods hand a link
 to the binding module and return the element itself; here they record the link.
 */
module DisableableElements {

  /** The render prop the element writes. */
  const DisableKey: string := "disable"

  /** The default name of the bound attribute on the other object. */
  const EnabledName: string := "enabled"

  /** A transform passed to a bind method: the identity default, or a caller's
      function, which this model knows only by a tag. */
  datatype Transform = Identity | Custom(tag: string)

  /** A link request handed to the binding module. */
  datatype Link =
    | ToTarget(target: object, targetName: string, forward: Transform)
    | FromTarget(target: object, targetName: string, backward: Transform)
    | BothWays(target: object, targetName: string, forward: Transform, backward: Transform)

  /** The effect of the change hook on the render props: only `disable` changes,
      and it becomes the negation of the new enabled state. */
  function PropsAfterChange(props: map<string, bool>, enabled: bool): (r: map<string, bool>)
    ensures DisableKey in r && r[DisableKey] == !enabled
    ensures r.Keys == props.Keys + {DisableKey}
    ensures forall key :: key in props && key != DisableKey ==> r[key] == props[key]
  {
    props[DisableKey := !enabled]
  }

  /** The render props as left by the last assignment depend only on that value. */
  lemma PropsAfterChangeOverwrites(props: map<string, bool>, first: bool, second: bool)
    ensures PropsAfterChange(PropsAfterChange(props, first), second) == PropsAfterChange(props, second)
  {
  }

  class DisableableElement {
    /** The bindable enabled state. */
    var enabled: bool
    /** The element's render props; only the key this element writes is modelled. */
    var props: map<string, bool>
    /** The number of display updates requested. */
    var updates: nat
    /** The link requests made through the bind methods, oldest first. */
    ghost var links: seq<Link>

    /** The render prop `disable`, once written, is the negation of `enabled`. */
    ghost predicate Valid()
      reads this
    {
      DisableKey in props ==> props[DisableKey] == !enabled
    }

    /** Initialisation assigns `enabled := true`, which runs the change hook once. */
    constructor ()
      ensures Valid()
      ensures enabled
      ensures props == map[DisableKey := false]
      ensures updates == 1
      ensures links == []
    {
      props := map[];
      updates := 0;
      links := [];
      new;
      AssignEnabled(true);
    }

    /** The change hook: set `disable` to the negation of the new state and request
        a display update. It leaves `enabled` alone, so it keeps the invariant
        exactly when it is given the current state. */
    method OnEnabledChange(value: bool)
      modifies this
      ensures props == PropsAfterChange(old(props), value)
      ensures updates == old(updates) + 1
      ensures enabled == old(enabled) && links == old(links)
      ensures Valid() <==> enabled == value
    {
      props := props[DisableKey := !value];
      updates := updates + 1;
    }

    /** An assignment to the bindable property: store the value, then run the
        change hook with it. */
    method AssignEnabled(value: bool)
      modifies this
      ensures enabled == value
      ensures props == PropsAfterChange(old(props), value)
      ensures updates == old(updates) + 1
      ensures links == old(links)
      ensures Valid()
    {
      enabled := value;
      OnEnabledChange(value);
    }

    method Enable()
      modifies this
      ensures enabled
      ensures props == PropsAfterChange(old(props), true)
      ensures updates == old(updates) + 1
      ensures links == old(links)
      ensures Valid()
    {
      AssignEnabled(true);
    }

    method Disable()
      modifies this
      ensures !enabled
      ensures props == PropsAfterChange(old(props), false)
      ensures updates == old(updates) + 1
      ensures links == old(links)
      ensures Valid()
    {
      AssignEnabled(false);
    }

    method SetEnabled(value: bool)
      modifies this
      ensures enabled == value
      ensures props == PropsAfterChange(old(props), value)
      ensures updates == old(updates) + 1
      ensures links == old(links)
      ensures Valid()
    {
      AssignEnabled(value);
    }

    /** Bind one way, from this element to the target's attribute. */
    method BindEnabledTo(target: object, targetName: string := EnabledName, forward: Transform := Identity)
      returns (r: DisableableElement)
      modifies this
      ensures r == this
      ensures links == old(links) + [ToTarget(target, targetName, forward)]
      ensures old(Valid()) ==> Valid()
    {
      links := links + [ToTarget(target, targetName, forward)];
      r := this;
    }

    /** Bind one way, from the target's attribute to this element. */
    method BindEnabledFrom(target: object, targetName: string := EnabledName, backward: Transform := Identity)
      returns (r: DisableableElement)
      modifies this
      ensures r == this
      ensures links == old(links) + [FromTarget(target, targetName, backward)]
      ensures old(Valid()) ==> Valid()
    {
      links := links + [FromTarget(target, targetName, backward)];
      r := this;
    }

    /** Bind both ways between this element and the target's attribute. */
    method BindEnabled(target: object, targetName: string := EnabledName,
                       forward: Transform := Identity, backward: Transform := Identity)
      returns (r: DisableableElement)
      modifies this
      ensures r == this
      ensures links == old(links) + [BothWays(target, targetName, forward, backward)]
      ensures old(Valid()) ==> Valid()
    {
      links := links + [BothWays(target, targetName, forward, backward)];
      r := this;
    }
  }

  /** `enable()` leaves the state `set_enabled(True)` leaves, and `disable()` the
      state `set_enabled(False)` leaves, on two elements that start out alike. */
  method EnableIsSetEnabled(a: DisableableElement, b: DisableableElement, value: bool)
    requires a != b
    requires a.enabled == b.enabled && a.props == b.props && a.updates == b.updates
    modifies a, b
    ensures a.enabled == b.enabled && a.props == b.props && a.updates == b.updates
  {
    if value {
      a.Enable();
    } else {
      a.Disable();
    }
    b.SetEnabled(value);
  }

  /** Disabling twice leaves the enabled state and the render props of disabling
      once; only the update count differs. */
  method DisableTwice(e: DisableableElement)
    modifies e
    ensures !e.enabled && e.Valid()
    ensures e.props == PropsAfterChange(old(e.props), false)
    ensures e.updates == old(e.updates) + 2
  {
    e.Disable();
    e.Disable();
    PropsAfterChangeOverwrites(old(e.props), false, false);
  }

  /** Enabling twice leaves the enabled state and the render props of enabling once. */
  method EnableTwice(e: DisableableElement)
    modifies e
    ensures e.enabled && e.Valid()
    ensures e.props == PropsAfterChange(old(e.props), true)
    ensures e.updates == old(e.updates) + 2
  {
    e.Enable();
    e.Enable();
    PropsAfterChangeOverwrites(old(e.props), true, true);
  }

  /** Calling the bind methods with their defaults records links to the target's
      `enabled` attribute with identity transforms, in the documented directions;
      each call returns the element, so the calls chain. */
  method BindDefaults(e: DisableableElement, target: object) returns (r: DisableableElement)
    requires e.Valid()
    modifies e
    ensures r == e && e.Valid()
    ensures e.links == old(e.links) + [
      ToTarget(target, EnabledName, Identity),
      FromTarget(target, EnabledName, Identity),
      BothWays(target, EnabledName, Identity, Identity)]
  {
    r := e.BindEnabledTo(target);
    r := r.BindEnabledFrom(target);
    r := r.BindEnabled(target);
  }

  /** A fresh element is enabled with `disable` false; disabling it then flips both. */
  method Lifecycle() returns (states: seq<(bool, bool)>)
    ensures states == [(true, false), (false, true), (true, false), (false, true)]
  {
    var e := new DisableableElement();
    states := [(e.enabled, e.props[DisableKey])];
    e.Disable();
    states := states + [(e.enabled, e.props[DisableKey])];
    e.Enable();
    states := states + [(e.enabled, e.props[DisableKey])];
    e.SetEnabled(false);
    states := states + [(e.enabled, e.props[DisableKey])];
  }
}
