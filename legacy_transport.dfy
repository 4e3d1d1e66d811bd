/** The older transport editor (`transport`): the same bag/item form, but bags
    are removed at once, the last item of a bag is refused with a toast, and
    submission relies on the form's own validity instead of a validator of its
    own. */
module LegacyTransport {
  import opened Values
  import opened TransportForm

  const LastItemText := "At least one item is required in a bag"

  class LegacyTransportEditor {
    var customerId: Value
    var bags: seq<Bag>
    var loading: bool
    /** Snackbar toasts, oldest first. */
    var notifications: seq<Notice>
    /** The bodies sent to `createTransport`, oldest first. */
    var requests: seq<TransportRequest>

    /** Every bag holds at least one item. */
    predicate Valid()
      reads this
    {
      EveryBagHasItem(bags)
    }

    /** `initializeForm()`: no customer chosen yet, no bags. */
    constructor ()
      ensures customerId == Str("") && bags == [] && !loading
      ensures notifications == [] && requests == []
      ensures Valid()
    {
      customerId := Str("");
      bags := [];
      loading := false;
      notifications := [];
      requests := [];
    }

    /** `addBag()`: push a bag with no items, then `addItem` on it. */
    method AddBag()
      modifies this`bags
      ensures bags == TransportForm.AddBag(old(bags))
      ensures old(Valid()) ==> Valid()
    {
      bags := bags + [Bag(Str(""), [])];
      AddItem(|bags| - 1);
      assert bags[..|old(bags)|] == old(bags);
      assert bags[|old(bags)|] == Bag(Str(""), [BlankItem]);
      assert bags == bags[..|old(bags)|] + [bags[|old(bags)|]];
      if old(Valid()) {
        AddBagKeepsItems(old(bags));
      }
    }

    /** `addItem(b)`: push a blank item onto bag `b`. */
    method AddItem(b: nat)
      requires b < |bags|
      modifies this`bags
      ensures bags == TransportForm.AddItem(old(bags), b)
      ensures old(Valid()) ==> Valid()
    {
      bags := bags[b := bags[b].(items := bags[b].items + [BlankItem])];
    }

    /** `removeBag(i)`: the bag goes at once, the others keep their order. */
    method RemoveBag(bagIndex: nat)
      modifies this`bags
      ensures bags == RemoveAt(old(bags), bagIndex)
      ensures old(Valid()) ==> Valid()
    {
      if Valid() {
        RemoveBagKeepsItems(bags, bagIndex);
      }
      bags := RemoveAt(bags, bagIndex);
    }

    /** `removeItem(b, i)`: refused with an error toast when the bag has a
        single item left. */
    method RemoveItem(bagIndex: nat, itemIndex: nat)
      requires bagIndex < |bags|
      modifies this`bags, this`notifications
      ensures bags == RemoveItemIfNotLast(old(bags), bagIndex, itemIndex)
      ensures |old(bags)[bagIndex].items| > 1 ==> notifications == old(notifications)
      ensures |old(bags)[bagIndex].items| <= 1 ==> notifications == old(notifications) + [Failure(LastItemText)]
      ensures old(Valid()) ==> Valid()
    {
      var items := bags[bagIndex].items;
      if |items| > 1 {
        bags := bags[bagIndex := bags[bagIndex].(items := RemoveAt(items, itemIndex))];
      } else {
        notifications := notifications + [Failure(LastItemText)];
      }
      if old(Valid()) {
        GuardedRemoveKeepsItems(old(bags), bagIndex, itemIndex);
      }
    }

    /** `onSubmit()`: a form Angular considers valid is sent to
        `createTransport`; otherwise nothing is sent. */
    method OnSubmit()
      modifies this`loading, this`requests
      ensures AngularValid(customerId, bags) ==>
                requests == old(requests) + [TransportRequest(customerId, bags)] && loading
      ensures !AngularValid(customerId, bags) ==> requests == old(requests) && loading == old(loading)
    {
      if AngularValid(customerId, bags) {
        loading := true;
        requests := requests + [TransportRequest(customerId, bags)];
      }
    }

    /** `next` of `createTransport`: on success a toast and a cleared form;
        the busy flag drops either way. */
    method OnCreateResponse(success: bool)
      modifies this`customerId, this`bags, this`loading, this`notifications
      ensures success ==> notifications == old(notifications) + [Success("Transport created successfully")]
                          && customerId == Null && bags == []
      ensures !success ==> notifications == old(notifications) && customerId == old(customerId) && bags == old(bags)
      ensures !loading
      ensures old(Valid()) ==> Valid()
    {
      if success {
        notifications := notifications + [Success("Transport created successfully")];
        ResetForm();
      }
      loading := false;
    }

    /** `error` of `createTransport`: always the same toast, whatever the server said. */
    method OnCreateError()
      modifies this`loading, this`notifications
      ensures notifications == old(notifications) + [Failure("Failed to create transport")]
      ensures !loading
    {
      notifications := notifications + [Failure("Failed to create transport")];
      loading := false;
    }

    /** `resetForm()`: `reset()` nulls the customer, then the bags are removed
        one at a time from the front until none is left. */
    method ResetForm()
      modifies this`customerId, this`bags
      ensures customerId == Null && bags == []
      ensures Valid()
    {
      customerId := Null;
      while |bags| > 0
        invariant customerId == Null
        decreases |bags|
      {
        bags := RemoveAt(bags, 0);
      }
    }
  }

  /** The older editor sends a form without any bag, which the newer one
      refuses with "Please add at least one bag". */
  lemma SubmitsFormWithoutBags(customerId: Value)
    requires Truthy(customerId)
    ensures AngularValid(customerId, [])
    ensures Render(FormErrors(customerId, [])) == ["Please add at least one bag"]
  {
    TruthyIsPresent(customerId);
  }
}
