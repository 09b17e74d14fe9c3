/**
 * web/src/composables/useToast.js: the slot through which the app reaches its toast
 * component. The slot holds whatever was registered last; a registered component is
 * known by a number, and every falsy value (null, undefined, ...) is None.
 */
module Toast {
  import opened Wrappers

  datatype ToastKind = Success | Failure | Warning | Info

  /** What useToast hands out: the registered component, or a stand-in whose four methods do nothing. */
  datatype Toaster = NoOpStub | Component(id: nat)

  /** A toast shown: by which component, of which kind, with which text. */
  datatype Shown = Shown(component: nat, kind: ToastKind, message: string)

  /** Calling success/error/warning/info: the stub shows nothing, a component shows the toast. */
  function Notify(t: Toaster, kind: ToastKind, message: string): (r: Option<Shown>)
    ensures r.None? <==> t.NoOpStub?
    ensures r.Some? ==> r.value == Shown(t.id, kind, message)
  {
    match t
    case NoOpStub => None
    case Component(id) => Some(Shown(id, kind, message))
  }

  const NotInitialized: string := "Toast not initialized"

  class ToastSlot {
    /** The registered component; None for null and any other falsy value. */
    var instance: Option<nat>

    /** The slot starts empty. */
    constructor()
      ensures instance.None?
    {
      instance := None;
    }

    /** useToast: the registered component, or the no-op stub and a console warning when there is none. */
    method UseToast() returns (t: Toaster, warning: Option<string>)
      ensures t.NoOpStub? <==> instance.None?
      ensures instance.Some? ==> t == Component(instance.value)
      ensures warning.Some? <==> instance.None?
      ensures warning.Some? ==> warning.value == NotInitialized
    {
      if instance.None? {
        return NoOpStub, Some(NotInitialized);
      }
      return Component(instance.value), None;
    }

    /** setToastInstance: the slot takes the new value unconditionally, replacing any earlier one. */
    method SetToastInstance(x: Option<nat>)
      modifies this
      ensures instance == x
    {
      instance := x;
    }
  }

  /**
   * The last registration decides: after registering `a` then `b`, useToast gives `b`'s
   * component, or the silent stub when `b` is falsy.
   */
  method RegisterTwiceThenUse(slot: ToastSlot, a: Option<nat>, b: Option<nat>, kind: ToastKind, message: string)
    returns (shown: Option<Shown>)
    modifies slot
    ensures b.None? ==> shown.None?
    ensures b.Some? ==> shown == Some(Shown(b.value, kind, message))
  {
    slot.SetToastInstance(a);
    slot.SetToastInstance(b);
    var t, _ := slot.UseToast();
    shown := Notify(t, kind, message);
  }
}
