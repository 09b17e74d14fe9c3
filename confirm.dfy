/**
 * web/src/composables/useConfirm.js: the one confirm dialog of the app. Its state is a
 * single module-level object: whether it is shown, its labels, and the resolve function
 * of the promise the last `confirm` call returned. Promises are numbered in the order
 * they are made, and `settled` records the value each settled promise resolved to.
 */
module Confirm {
  import opened Wrappers
  import opened JsValues

  const DefaultTitle: string := "确认操作"
  const DefaultMessage: string := "确定要执行此操作吗？"
  const DefaultKind: string := "warning"
  const DefaultConfirmText: string := "确定"
  const DefaultCancelText: string := "取消"

  /** The `options` argument; an absent property is Undefined. */
  datatype ConfirmOptions = ConfirmOptions(title: JsValue, message: JsValue, kind: JsValue,
                                           confirmText: JsValue, cancelText: JsValue)

  /** `option || default`: the option itself when it is truthy, else the default text. */
  function Label(option: JsValue, default: string): JsValue {
    if Truthy(option) then option else Str(default)
  }

  /**
   * Resolving a promise: the first resolution fixes its value, and later calls of its
   * resolve function change nothing. No other promise is touched.
   */
  function Settle(settled: map<nat, bool>, promise: nat, value: bool): (r: map<nat, bool>)
    ensures promise in r && r[promise] == (if promise in settled then settled[promise] else value)
    ensures forall q :: q != promise ==> (q in r <==> q in settled)
    ensures forall q :: q in settled ==> q in r && r[q] == settled[q]
  {
    if promise in settled then settled else settled[promise := value]
  }

  /** A promise settles once: answering it a second time, either way, is without effect. */
  lemma SettleFirstWins(settled: map<nat, bool>, promise: nat, first: bool, second: bool)
    ensures Settle(Settle(settled, promise, first), promise, second) == Settle(settled, promise, first)
  {
  }

  /** The dialog's texts and its type. */
  datatype DialogLabels = DialogLabels(title: JsValue, message: JsValue, kind: JsValue,
                                       confirmText: JsValue, cancelText: JsValue)

  const DefaultLabels: DialogLabels :=
    DialogLabels(Str(DefaultTitle), Str(DefaultMessage), Str(DefaultKind), Str(DefaultConfirmText), Str(DefaultCancelText))

  /** The labels `confirm` shows: each option when it is truthy, else its default; so no label is ever blank. */
  function LabelsFor(options: ConfirmOptions): (r: DialogLabels)
    ensures Truthy(r.title) && Truthy(r.message) && Truthy(r.kind) && Truthy(r.confirmText) && Truthy(r.cancelText)
    ensures r.title == options.title <==> Truthy(options.title)
    ensures r.message == options.message <==> Truthy(options.message)
    ensures r.kind == options.kind <==> Truthy(options.kind)
    ensures r.confirmText == options.confirmText <==> Truthy(options.confirmText)
    ensures r.cancelText == options.cancelText <==> Truthy(options.cancelText)
  {
    DialogLabels(Label(options.title, DefaultTitle), Label(options.message, DefaultMessage),
                 Label(options.kind, DefaultKind), Label(options.confirmText, DefaultConfirmText),
                 Label(options.cancelText, DefaultCancelText))
  }

  /** `confirm()` with no options shows exactly the initial labels. */
  lemma NoOptionsGiveDefaults()
    ensures LabelsFor(ConfirmOptions(Undefined, Undefined, Undefined, Undefined, Undefined)) == DefaultLabels
  {
  }

  class ConfirmStore {
    var visible: bool
    var labels: DialogLabels
    /** The promise whose resolve function is held, if any. */
    var resolver: Option<nat>
    /** How many promises `confirm` has made. */
    var issued: nat
    var settled: map<nat, bool>

    /** Only promises already made are held or settled. */
    ghost predicate Valid()
      reads this
    {
      (resolver.Some? ==> resolver.value < issued)
      && forall q :: q in settled ==> q < issued
    }

    /** The initial state: hidden, the default labels, no resolver. */
    constructor()
      ensures Valid()
      ensures !visible && labels == DefaultLabels && resolver.None? && issued == 0 && settled == map[]
    {
      visible := false;
      labels := DefaultLabels;
      resolver := None;
      issued := 0;
      settled := map[];
    }

    /**
     * confirm: a new promise, and the whole state replaced: shown, each label from the
     * options or its default, and the new promise's resolve function held in place of any
     * earlier one (which can then never be settled through the dialog).
     */
    method Confirm(options: ConfirmOptions) returns (promise: nat)
      requires Valid()
      modifies this
      ensures Valid()
      ensures promise == old(issued) && issued == old(issued) + 1
      ensures promise !in settled && settled == old(settled)
      ensures visible && labels == LabelsFor(options) && resolver == Some(promise)
    {
      promise := issued;
      issued := issued + 1;
      visible := true;
      labels := LabelsFor(options);
      resolver := Some(promise);
    }

    /** handleConfirm (answer true) and handleCancel (answer false): resolve the held promise if any, then hide. */
    method Answer(value: bool)
      requires Valid()
      modifies this
      ensures Valid()
      ensures old(resolver).Some? ==> settled == Settle(old(settled), old(resolver).value, value)
      ensures old(resolver).None? ==> settled == old(settled)
      ensures !visible && resolver == old(resolver) && issued == old(issued)
      ensures labels == old(labels)
    {
      if resolver.Some? {
        settled := Settle(settled, resolver.value, value);
      }
      visible := false;
    }

    method HandleConfirm()
      requires Valid()
      modifies this
      ensures Valid()
      ensures old(resolver).Some? ==> settled == Settle(old(settled), old(resolver).value, true)
      ensures old(resolver).None? ==> settled == old(settled)
      ensures !visible && resolver == old(resolver) && issued == old(issued)
      ensures labels == old(labels)
    {
      Answer(true);
    }

    method HandleCancel()
      requires Valid()
      modifies this
      ensures Valid()
      ensures old(resolver).Some? ==> settled == Settle(old(settled), old(resolver).value, false)
      ensures old(resolver).None? ==> settled == old(settled)
      ensures !visible && resolver == old(resolver) && issued == old(issued)
      ensures labels == old(labels)
    {
      Answer(false);
    }
  }

  /**
   * A dialog opened twice before it is answered: the answer settles the second promise
   * only; the first is never settled, and answering again, either way, changes nothing.
   */
  method ConfirmTwiceThenAnswer(store: ConfirmStore, first: ConfirmOptions, second: ConfirmOptions, answer: bool)
    returns (p1: nat, p2: nat)
    requires store.Valid()
    modifies store
    ensures store.Valid()
    ensures p1 != p2 && p1 !in store.settled
    ensures p2 in store.settled && store.settled[p2] == answer
    ensures !store.visible
  {
    p1 := store.Confirm(first);
    p2 := store.Confirm(second);
    if answer {
      store.HandleConfirm();
    } else {
      store.HandleCancel();
    }
    store.HandleCancel();
    store.HandleConfirm();
  }
}
