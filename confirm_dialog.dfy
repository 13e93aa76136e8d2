/** The confirmation dialog provider: `showDialog` opens a dialog and returns a promise whose
    resolver is kept in state; confirming resolves it with `true`, cancelling with `false`,
    and either closes the dialog and forgets the resolver. */
module ConfirmDialog {
  import opened Seqs
  import opened Text

  const DefaultCancelText := "İptal"
  const DefaultConfirmText := "Onayla"

  datatype DialogOptions = DialogOptions(
    title: string,
    message: string,
    confirmText: Option<string>,
    cancelText: Option<string>,
    isDangerous: Option<bool>)

  /** What the provider renders: its children alone, or its children under an open dialog. */
  datatype Screen =
    | ChildrenOnly
    | ChildrenWithDialog(title: string, message: string, cancelLabel: string, confirmLabel: string, dangerous: bool)

  /** The provider's render for the stored dialog. */
  function Render(dialog: Option<DialogOptions>): (screen: Screen)
    ensures dialog.None? <==> screen == ChildrenOnly
    ensures dialog.Some? ==>
              && screen.title == dialog.value.title && screen.message == dialog.value.message
              && screen.cancelLabel != "" && screen.confirmLabel != ""
              && (Truthy(dialog.value.cancelText) ==> screen.cancelLabel == dialog.value.cancelText.value)
              && (!Truthy(dialog.value.cancelText) ==> screen.cancelLabel == DefaultCancelText)
              && (Truthy(dialog.value.confirmText) ==> screen.confirmLabel == dialog.value.confirmText.value)
              && (!Truthy(dialog.value.confirmText) ==> screen.confirmLabel == DefaultConfirmText)
              && (screen.dangerous <==> dialog.value.isDangerous == Some(true))
  {
    match dialog
    case None => ChildrenOnly
    case Some(d) =>
      ChildrenWithDialog(d.title, d.message,
                         OrDefault(d.cancelText, DefaultCancelText),
                         OrDefault(d.confirmText, DefaultConfirmText),
                         d.isDangerous == Some(true))
  }

  /** One call of a stored resolver: which promise, and with what value. */
  datatype Settlement = Settlement(promise: nat, value: bool)

  /** The provider's two state fields. Promises are numbered in creation order, and every
      call of a resolver is logged. */
  class Provider {
    var dialog: Option<DialogOptions>
    var resolver: Option<nat>
    var promisesCreated: nat
    var settled: seq<Settlement>

    /** Every promise is resolved at most once, and the stored resolver is still unused. */
    ghost predicate Valid()
      reads this
    {
      && (forall k :: 0 <= k < |settled| ==> settled[k].promise < promisesCreated)
      && (forall i, j :: 0 <= i < j < |settled| ==> settled[i].promise != settled[j].promise)
      && (resolver.Some? ==>
            resolver.value < promisesCreated && forall k :: 0 <= k < |settled| ==> settled[k].promise != resolver.value)
    }

    constructor ()
      ensures Valid()
      ensures dialog.None? && resolver.None? && promisesCreated == 0 && settled == []
    {
      dialog := None;
      resolver := None;
      promisesCreated := 0;
      settled := [];
    }

    function Shown(): Screen
      reads this
    {
      Render(dialog)
    }

    /** `showDialog`: the promise executor stores the options and the new promise's resolver. */
    method ShowDialog(options: DialogOptions) returns (promise: nat)
      requires Valid()
      modifies this`dialog, this`resolver, this`promisesCreated
      ensures Valid()
      ensures promise == old(promisesCreated) && promisesCreated == promise + 1
      ensures dialog == Some(options) && resolver == Some(promise)
      ensures settled == old(settled)
    {
      promise := promisesCreated;
      promisesCreated := promisesCreated + 1;
      dialog := Some(options);
      resolver := Some(promise);
    }

    /** `resolvePromise?.(value)`, then both fields are cleared. */
    method Resolve(value: bool)
      requires Valid()
      modifies this`dialog, this`resolver, this`settled
      ensures Valid()
      ensures settled == old(settled) + (if old(resolver).Some? then [Settlement(old(resolver).value, value)] else [])
      ensures dialog.None? && resolver.None?
    {
      if resolver.Some? {
        settled := settled + [Settlement(resolver.value, value)];
      }
      dialog := None;
      resolver := None;
    }

    /** `handleConfirm`: resolve with `true`. */
    method HandleConfirm()
      requires Valid()
      modifies this`dialog, this`resolver, this`settled
      ensures Valid()
      ensures settled == old(settled) + (if old(resolver).Some? then [Settlement(old(resolver).value, true)] else [])
      ensures dialog.None? && resolver.None?
    {
      Resolve(true);
    }

    /** `handleCancel`: resolve with `false`. */
    method HandleCancel()
      requires Valid()
      modifies this`dialog, this`resolver, this`settled
      ensures Valid()
      ensures settled == old(settled) + (if old(resolver).Some? then [Settlement(old(resolver).value, false)] else [])
      ensures dialog.None? && resolver.None?
    {
      Resolve(false);
    }
  }

  /** A second `showDialog` before the first is answered replaces the stored resolver: the
      answer then settles only the second promise, and the first one stays pending. */
  method ShowTwiceThenConfirm(provider: Provider, first: DialogOptions, second: DialogOptions)
    returns (p1: nat, p2: nat)
    requires provider.Valid()
    modifies provider
    ensures provider.Valid() && p1 != p2
    ensures provider.settled == old(provider.settled) + [Settlement(p2, true)]
    ensures forall k :: 0 <= k < |provider.settled| ==> provider.settled[k].promise != p1
  {
    p1 := provider.ShowDialog(first);
    p2 := provider.ShowDialog(second);
    provider.HandleConfirm();
  }
}
