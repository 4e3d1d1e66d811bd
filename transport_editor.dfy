/** The transport editor (`Transports/transport`): the bag/item form with a
    confirm-before-delete step, and the validation that lists every problem
    before a transport is created. Each `createTransport` call is recorded in
    `requests`; its outcome is applied later by `OnCreateResponse` or
    `OnCreateError`. */
module TransportEditor {
  import opened Values
  import opened TransportForm

  /** `{ bagIndex, itemIndex }` of an item waiting for confirmation. */
  datatype ItemRef = ItemRef(bagIndex: nat, itemIndex: nat)

  class TransportEditor {
    var customerId: Value
    var bags: seq<Bag>
    var loading: bool
    var showDeleteBagModal: bool
    var showDeleteItemModal: bool
    var deleteBagIndex: Option<nat>
    var deleteItemIndices: Option<ItemRef>
    /** Snackbar toasts, oldest first. */
    var notifications: seq<Notice>
    /** The bodies sent to `createTransport`, oldest first. */
    var requests: seq<TransportRequest>

    /** Every bag holds at least one item. */
    predicate Valid()
      reads this
    {
      EveryBagHasItem(bags)
    }

    /** `initializeForm()`: no customer chosen yet, no bags, nothing pending. */
    constructor ()
      ensures customerId == Str("") && bags == []
      ensures !loading && !showDeleteBagModal && !showDeleteItemModal
      ensures deleteBagIndex.None? && deleteItemIndices.None?
      ensures notifications == [] && requests == []
      ensures Valid()
    {
      customerId := Str("");
      bags := [];
      loading := false;
      showDeleteBagModal := false;
      showDeleteItemModal := false;
      deleteBagIndex := None;
      deleteItemIndices := None;
      notifications := [];
      requests := [];
    }

    /** `addBag()`: push a bag with no items, then `addItem` on it. */
    method AddBag()
      modifies this`bags
      ensures bags == TransportForm.AddBag(old(bags))
      ensures old(Valid()) ==> Valid()
    {
      bags := bags + [Bag(Str(""), [])];
      AddItem(|bags| - 1);
      assert bags[..|old(bags)|] == old(bags);
      assert bags[|old(bags)|] == Bag(Str(""), [BlankItem]);
      assert bags == bags[..|old(bags)|] + [bags[|old(bags)|]];
      if old(Valid()) {
        AddBagKeepsItems(old(bags));
      }
    }

    /** `addItem(b)`: push a blank item onto bag `b`. */
    method AddItem(b: nat)
      requires b < |bags|
      modifies this`bags
      ensures bags == TransportForm.AddItem(old(bags), b)
      ensures old(Valid()) ==> Valid()
    {
      bags := bags[b := bags[b].(items := bags[b].items + [BlankItem])];
    }

    /** `removeBag(b)`: only asks for confirmation. */
    method RemoveBag(bagIndex: nat)
      modifies this`deleteBagIndex, this`showDeleteBagModal
      ensures deleteBagIndex == Some(bagIndex) && showDeleteBagModal
    {
      deleteBagIndex := Some(bagIndex);
      showDeleteBagModal := true;
    }

    /** `onDeleteBag(b)`: the same request for confirmation as `removeBag`. */
    method OnDeleteBag(bagIndex: nat)
      modifies this`deleteBagIndex, this`showDeleteBagModal
      ensures deleteBagIndex == Some(bagIndex) && showDeleteBagModal
    {
      deleteBagIndex := Some(bagIndex);
      showDeleteBagModal := true;
    }

    /** `removeItem(b, i)`: only asks for confirmation. */
    method RemoveItem(bagIndex: nat, itemIndex: nat)
      modifies this`deleteItemIndices, this`showDeleteItemModal
      ensures deleteItemIndices == Some(ItemRef(bagIndex, itemIndex)) && showDeleteItemModal
    {
      deleteItemIndices := Some(ItemRef(bagIndex, itemIndex));
      showDeleteItemModal := true;
    }

    /** `onDeleteItem(b, i)`: the same request for confirmation as `removeItem`. */
    method OnDeleteItem(bagIndex: nat, itemIndex: nat)
      modifies this`deleteItemIndices, this`showDeleteItemModal
      ensures deleteItemIndices == Some(ItemRef(bagIndex, itemIndex)) && showDeleteItemModal
    {
      deleteItemIndices := Some(ItemRef(bagIndex, itemIndex));
      showDeleteItemModal := true;
    }

    /** `confirmDeleteBag()`: remove the pending bag, if any, and close the modal. */
    method ConfirmDeleteBag()
      modifies this`bags, this`showDeleteBagModal, this`deleteBagIndex
      ensures old(deleteBagIndex).Some? ==>
                bags == RemoveAt(old(bags), old(deleteBagIndex).value)
                && !showDeleteBagModal && deleteBagIndex.None?
      ensures old(deleteBagIndex).None? ==>
                bags == old(bags) && showDeleteBagModal == old(showDeleteBagModal) && deleteBagIndex.None?
      ensures old(Valid()) ==> Valid()
    {
      if deleteBagIndex.Some? {
        if Valid() {
          RemoveBagKeepsItems(bags, deleteBagIndex.value);
        }
        bags := RemoveAt(bags, deleteBagIndex.value);
        showDeleteBagModal := false;
        deleteBagIndex := None;
      }
    }

    /** `confirmDeleteItem()`: remove the pending item unless it is the last
        of its bag, then close the modal. A pending bag index past the end
        makes `getBagItems` throw before anything changes. */
    method ConfirmDeleteItem()
      modifies this`bags, this`showDeleteItemModal, this`deleteItemIndices
      ensures var p := old(deleteItemIndices);
              p.Some? && p.value.bagIndex < |old(bags)| ==>
                bags == RemoveItemIfNotLast(old(bags), p.value.bagIndex, p.value.itemIndex)
                && !showDeleteItemModal && deleteItemIndices.None?
      ensures var p := old(deleteItemIndices);
              p.None? || p.value.bagIndex >= |old(bags)| ==>
                bags == old(bags) && showDeleteItemModal == old(showDeleteItemModal)
                && deleteItemIndices == old(deleteItemIndices)
      ensures old(Valid()) ==> Valid()
    {
      if deleteItemIndices.Some? {
        var bagIndex, itemIndex := deleteItemIndices.value.bagIndex, deleteItemIndices.value.itemIndex;
        if bagIndex < |bags| {
          var items := bags[bagIndex].items;
          if |items| > 1 {
            bags := bags[bagIndex := bags[bagIndex].(items := RemoveAt(items, itemIndex))];
          }
          if old(Valid()) {
            GuardedRemoveKeepsItems(old(bags), bagIndex, itemIndex);
          }
          showDeleteItemModal := false;
          deleteItemIndices := None;
        }
      }
    }

    /** `cancelDelete()`: close both modals and forget what was pending. */
    method CancelDelete()
      modifies this`showDeleteBagModal, this`showDeleteItemModal, this`deleteBagIndex, this`deleteItemIndices
      ensures !showDeleteBagModal && !showDeleteItemModal
      ensures deleteBagIndex.None? && deleteItemIndices.None?
    {
      showDeleteBagModal := false;
      showDeleteItemModal := false;
      deleteBagIndex := None;
      deleteItemIndices := None;
    }

    /** `validateForm()`: walks the customer, then every bag, collecting one
        message per problem; the form is valid when none was found, which is
        exactly when the form is complete. */
    method ValidateForm() returns (isValid: bool, errors: seq<string>)
      ensures errors == Render(FormErrors(customerId, bags))
      ensures isValid <==> errors == []
      ensures isValid <==> FormComplete(customerId, bags)
    {
      errors := [];
      if !Truthy(customerId) {
        errors := errors + [Message(MissingCustomer)];
      }
      ghost var head := errors;
      assert head == Render(CustomerErrors(customerId));
      if |bags| == 0 {
        errors := errors + [Message(NoBags)];
        assert errors == head + Render([NoBags]);
      } else {
        var b := 0;
        while b < |bags|
          invariant 0 <= b <= |bags|
          invariant errors == head + Render(Flatten(BagBlocks(bags)[..b]))
        {
          ghost var done := Flatten(BagBlocks(bags)[..b]);
          ghost var next := BagBlocks(bags)[b];
          assert next == BagErrors(b, bags[b]);
          errors := CheckBag(b, bags[b], errors);
          FlattenPrefix(BagBlocks(bags), b);
          RenderConcat(done, next);
          ConcatAssoc(head, Render(done), Render(next));
          b := b + 1;
        }
        assert BagBlocks(bags)[..|bags|] == BagBlocks(bags);
      }
      RenderConcat(CustomerErrors(customerId), if |bags| == 0 then [NoBags] else Flatten(BagBlocks(bags)));
      isValid := |errors| == 0;
      FormErrorsEmptyIff(customerId, bags);
    }

    /** `onSubmit()`: a complete form is sent to `createTransport` and the
        editor shows it is busy; otherwise every validation message becomes an
        error toast, in order, and nothing is sent. */
    method OnSubmit()
      modifies this`loading, this`notifications, this`requests
      ensures FormComplete(customerId, bags) ==>
                requests == old(requests) + [TransportRequest(customerId, bags)]
                && loading && notifications == old(notifications)
      ensures !FormComplete(customerId, bags) ==>
                requests == old(requests) && loading == old(loading)
                && notifications == old(notifications) + Failures(Render(FormErrors(customerId, bags)))
    {
      var isValid, errors := ValidateForm();
      if isValid {
        loading := true;
        requests := requests + [TransportRequest(customerId, bags)];
      } else {
        ShowErrors(errors);
      }
    }

    /** `errors.forEach(error => snackbar.error(error))`: one error toast per
        message, in order. */
    method ShowErrors(errors: seq<string>)
      modifies this`notifications
      ensures notifications == old(notifications) + Failures(errors)
    {
      var k := 0;
      while k < |errors|
        invariant 0 <= k <= |errors|
        invariant notifications == old(notifications) + Failures(errors[..k])
      {
        assert errors[..k + 1][..k] == errors[..k];
        notifications := notifications + [Failure(errors[k])];
        k := k + 1;
      }
      assert errors[..|errors|] == errors;
    }

    /** `next` of `createTransport`: on success a toast and a cleared form;
        the busy flag drops either way. */
    method OnCreateResponse(success: bool)
      modifies this`customerId, this`bags, this`loading, this`notifications
      ensures success ==> notifications == old(notifications) + [Success("Transport created successfully")]
                          && customerId == Null && bags == []
      ensures !success ==> notifications == old(notifications) && customerId == old(customerId) && bags == old(bags)
      ensures !loading
      ensures old(Valid()) ==> Valid()
    {
      if success {
        notifications := notifications + [Success("Transport created successfully")];
        ResetForm();
      }
      loading := false;
    }

    /** `error` of `createTransport`: the server's message, or a fallback. */
    method OnCreateError(message: Option<string>)
      modifies this`loading, this`notifications
      ensures notifications == old(notifications) + [Failure(ErrorText(message, "Failed to create transport"))]
      ensures !loading
    {
      notifications := notifications + [Failure(ErrorText(message, "Failed to create transport"))];
      loading := false;
    }

    /** `resetForm()`: `reset()` nulls the customer, then the bags are removed
        one at a time from the front until none is left. */
    method ResetForm()
      modifies this`customerId, this`bags
      ensures customerId == Null && bags == []
      ensures Valid()
    {
      customerId := Null;
      while |bags| > 0
        invariant customerId == Null
        decreases |bags|
      {
        bags := RemoveAt(bags, 0);
      }
    }
  }

  /** The `forEach` callback over one item of bag `b`: a missing product, then
      a missing or too small quantity. */
  method CheckItem(b: nat, i: nat, item: Item, errors: seq<string>) returns (r: seq<string>)
    ensures r == errors + Render(ItemErrors(b, i, item))
    ensures |r| - |errors| <= 2
  {
    r := errors;
    if !Truthy(item.productId) {
      r := r + [Message(MissingProduct(b, i))];
    }
    if !Truthy(item.quantity) {
      r := r + [Message(MissingQuantity(b, i))];
    } else if BelowMin(item.quantity, MinQuantity) {
      r := r + [Message(QuantityTooSmall(b, i))];
    }
  }

  /** The `forEach` callback over bag `b`: a missing or too small weight, then
      "no items" or the messages of each item in order. */
  method CheckBag(b: nat, bag: Bag, errors: seq<string>) returns (r: seq<string>)
    ensures r == errors + Render(BagErrors(b, bag))
  {
    r := errors;
    if !Truthy(bag.weight) {
      r := r + [Message(MissingWeight(b))];
    } else if BelowMin(bag.weight, MinWeight) {
      r := r + [Message(WeightTooSmall(b))];
    }
    ghost var head := r;
    assert head == errors + Render(WeightErrors(b, bag.weight));
    if |bag.items| == 0 {
      r := r + [Message(NoItems(b))];
    } else {
      r := CheckItems(b, bag.items, r);
    }
    assert r == head + Render(ContentErrors(b, bag));
    RenderConcat(WeightErrors(b, bag.weight), ContentErrors(b, bag));
    ConcatAssoc(errors, Render(WeightErrors(b, bag.weight)), Render(ContentErrors(b, bag)));
  }

  /** The `forEach` over the items of bag `b`: the messages of each item, in
      item order. */
  method CheckItems(b: nat, items: seq<Item>, errors: seq<string>) returns (r: seq<string>)
    ensures r == errors + Render(Flatten(ItemBlocks(b, items)))
  {
    r := errors;
    var i := 0;
    while i < |items|
      invariant 0 <= i <= |items|
      invariant r == errors + Render(Flatten(ItemBlocks(b, items)[..i]))
    {
      ghost var done := Flatten(ItemBlocks(b, items)[..i]);
      ghost var next := ItemBlocks(b, items)[i];
      assert next == ItemErrors(b, i, items[i]);
      r := CheckItem(b, i, items[i], r);
      FlattenPrefix(ItemBlocks(b, items), i);
      RenderConcat(done, next);
      ConcatAssoc(errors, Render(done), Render(next));
      i := i + 1;
    }
    assert ItemBlocks(b, items)[..|items|] == ItemBlocks(b, items);
  }
}
