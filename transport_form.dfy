/** The transport form shared by both transport editors: a customer and an
    ordered list of bags, each an ordered list of line items. This module holds
    the form's value types, the edits the editors make to the bag list as
    functions on values, the invariant "every bag holds at least one item",
    and the validation that the newer editor performs before submitting. */
module TransportForm {
  import opened Values
  import opened Text

  /** One line item: `{ productId, quantity, remarks }`. */
  datatype Item = Item(productId: Value, quantity: Value, remarks: Value)

  /** One bag: `{ weight, items }`. */
  datatype Bag = Bag(weight: Value, items: seq<Item>)

  /** What `createTransport` is sent: the form's value. */
  datatype TransportRequest = TransportRequest(customerId: Value, bags: seq<Bag>)

  /** A freshly built item group: every control starts as `''`. */
  const BlankItem: Item := Item(Str(""), Str(""), Str(""))

  /** The smallest weight `Validators.min` accepts. */
  const MinWeight: real := 0.01

  /** The smallest quantity `Validators.min` accepts. */
  const MinQuantity: real := 1.0

  // ------------------------------------------------------------ editing

  predicate EveryBagHasItem(bags: seq<Bag>)
  {
    forall b :: 0 <= b < |bags| ==> |bags[b].items| >= 1
  }

  /** `addBag()`: push a bag with an empty weight, then `addItem` on it. */
  function AddBag(bags: seq<Bag>): (r: seq<Bag>)
    ensures |r| == |bags| + 1 && r[..|bags|] == bags
    ensures r[|bags|] == Bag(Str(""), [BlankItem])
  {
    bags + [Bag(Str(""), [BlankItem])]
  }

  /** `addItem(b)`: push a blank item onto bag `b`. */
  function AddItem(bags: seq<Bag>, b: nat): (r: seq<Bag>)
    requires b < |bags|
    ensures |r| == |bags|
    ensures r[b].weight == bags[b].weight && r[b].items == bags[b].items + [BlankItem]
    ensures forall j :: 0 <= j < |bags| && j != b ==> r[j] == bags[j]
  {
    bags[b := bags[b].(items := bags[b].items + [BlankItem])]
  }

  /** `FormArray.removeAt(i)`: an index past the end removes nothing. */
  function RemoveAt<T>(s: seq<T>, i: nat): (r: seq<T>)
    ensures i < |s| ==> |r| == |s| - 1
    ensures i < |s| ==> forall k :: 0 <= k < i ==> r[k] == s[k]
    ensures i < |s| ==> forall k :: i <= k < |r| ==> r[k] == s[k + 1]
    ensures i >= |s| ==> r == s
  {
    if i < |s| then s[..i] + s[i + 1..] else s
  }

  /** `getBagItems(b).removeAt(i)`. */
  function RemoveItem(bags: seq<Bag>, b: nat, i: nat): (r: seq<Bag>)
    requires b < |bags|
    ensures |r| == |bags|
    ensures r[b].weight == bags[b].weight && r[b].items == RemoveAt(bags[b].items, i)
    ensures forall j :: 0 <= j < |bags| && j != b ==> r[j] == bags[j]
  {
    bags[b := bags[b].(items := RemoveAt(bags[b].items, i))]
  }

  /** Removing an item only when its bag has more than one: the guard both
      editors put around `removeAt`. */
  function RemoveItemIfNotLast(bags: seq<Bag>, b: nat, i: nat): (r: seq<Bag>)
    requires b < |bags|
    ensures |bags[b].items| <= 1 ==> r == bags
    ensures |bags[b].items| > 1 ==> r == RemoveItem(bags, b, i)
  {
    if |bags[b].items| > 1 then RemoveItem(bags, b, i) else bags
  }

  lemma AddBagKeepsItems(bags: seq<Bag>)
    requires EveryBagHasItem(bags)
    ensures EveryBagHasItem(AddBag(bags))
  {
  }

  lemma AddItemKeepsItems(bags: seq<Bag>, b: nat)
    requires b < |bags| && EveryBagHasItem(bags)
    ensures EveryBagHasItem(AddItem(bags, b))
  {
  }

  lemma RemoveBagKeepsItems(bags: seq<Bag>, i: nat)
    requires EveryBagHasItem(bags)
    ensures EveryBagHasItem(RemoveAt(bags, i))
  {
    var r := RemoveAt(bags, i);
    forall k | 0 <= k < |r|
      ensures |r[k].items| >= 1
    {
      if i < |bags| && k >= i {
        assert r[k] == bags[k + 1];
      }
    }
  }

  /** The guard keeps the invariant: a bag's last item is never removed. */
  lemma GuardedRemoveKeepsItems(bags: seq<Bag>, b: nat, i: nat)
    requires b < |bags| && EveryBagHasItem(bags)
    ensures EveryBagHasItem(RemoveItemIfNotLast(bags, b, i))
  {
  }

  /** Without the guard, removing the only item of a bag breaks the invariant. */
  lemma UnguardedRemoveBreaksItems(bags: seq<Bag>, b: nat)
    requires b < |bags| && |bags[b].items| == 1
    ensures !EveryBagHasItem(RemoveItem(bags, b, 0))
  {
    assert |RemoveItem(bags, b, 0)[b].items| == 0;
  }

  // --------------------------------------------------------- validation

  /** The messages `validateForm()` can push, by what they report. Bag and
      item numbers are 0-based here and rendered 1-based. */
  datatype ValidationError =
    | MissingCustomer
    | NoBags
    | MissingWeight(bag: nat)
    | WeightTooSmall(bag: nat)
    | NoItems(bag: nat)
    | MissingProduct(bag: nat, item: nat)
    | MissingQuantity(bag: nat, item: nat)
    | QuantityTooSmall(bag: nat, item: nat)

  /** The text of each message. */
  function Message(e: ValidationError): (r: string)
    ensures r != ""
  {
    match e
    case MissingCustomer => "Please select a customer"
    case NoBags => "Please add at least one bag"
    case MissingWeight(b) => "Please enter weight for Bag #" + NatToString(b + 1)
    case WeightTooSmall(b) => "Weight must be greater than 0kg for Bag #" + NatToString(b + 1)
    case NoItems(b) => "Please add at least one item in Bag #" + NatToString(b + 1)
    case MissingProduct(b, i) =>
      "Please select product for item " + NatToString(i + 1) + " in Bag #" + NatToString(b + 1)
    case MissingQuantity(b, i) =>
      "Please enter quantity for item " + NatToString(i + 1) + " in Bag #" + NatToString(b + 1)
    case QuantityTooSmall(b, i) =>
      "Quantity must be greater than 0 for item " + NatToString(i + 1) + " in Bag #" + NatToString(b + 1)
  }

  /** The messages of a list of errors, in order. */
  function Render(errs: seq<ValidationError>): (r: seq<string>)
    ensures |r| == |errs|
  {
    seq(|errs|, k requires 0 <= k < |errs| => Message(errs[k]))
  }

  lemma ConcatAssoc<T>(a: seq<T>, b: seq<T>, c: seq<T>)
    ensures (a + b) + c == a + (b + c)
  {
  }

  lemma RenderConcat(a: seq<ValidationError>, c: seq<ValidationError>)
    ensures Render(a + c) == Render(a) + Render(c)
  {
    var l, r := Render(a + c), Render(a) + Render(c);
    forall k | 0 <= k < |l|
      ensures l[k] == r[k]
    {
      if k < |a| {
        assert (a + c)[k] == a[k];
      } else {
        assert (a + c)[k] == c[k - |a|];
      }
    }
  }

  function CustomerErrors(customerId: Value): seq<ValidationError>
  {
    if !Truthy(customerId) then [MissingCustomer] else []
  }

  function WeightErrors(b: nat, weight: Value): seq<ValidationError>
  {
    if !Truthy(weight) then [MissingWeight(b)]
    else if BelowMin(weight, MinWeight) then [WeightTooSmall(b)]
    else []
  }

  function ProductErrors(b: nat, i: nat, item: Item): seq<ValidationError>
  {
    if !Truthy(item.productId) then [MissingProduct(b, i)] else []
  }

  function QuantityErrors(b: nat, i: nat, item: Item): seq<ValidationError>
  {
    if !Truthy(item.quantity) then [MissingQuantity(b, i)]
    else if BelowMin(item.quantity, MinQuantity) then [QuantityTooSmall(b, i)]
    else []
  }

  function ItemErrors(b: nat, i: nat, item: Item): seq<ValidationError>
  {
    ProductErrors(b, i, item) + QuantityErrors(b, i, item)
  }

  /** The blocks of a list, one after the other. */
  function Flatten<T>(blocks: seq<seq<T>>): seq<T>
  {
    if blocks == [] then [] else Flatten(blocks[..|blocks| - 1]) + blocks[|blocks| - 1]
  }

  /** The messages of each item of bag `b`, item by item. */
  function ItemBlocks(b: nat, items: seq<Item>): seq<seq<ValidationError>>
  {
    seq(|items|, i requires 0 <= i < |items| => ItemErrors(b, i, items[i]))
  }

  function ContentErrors(b: nat, bag: Bag): seq<ValidationError>
  {
    if |bag.items| == 0 then [NoItems(b)] else Flatten(ItemBlocks(b, bag.items))
  }

  function BagErrors(b: nat, bag: Bag): seq<ValidationError>
  {
    WeightErrors(b, bag.weight) + ContentErrors(b, bag)
  }

  /** The messages of each bag, bag by bag. */
  function BagBlocks(bags: seq<Bag>): seq<seq<ValidationError>>
  {
    seq(|bags|, b requires 0 <= b < |bags| => BagErrors(b, bags[b]))
  }

  /** Everything `validateForm()` reports, in the order it reports it. */
  function FormErrors(customerId: Value, bags: seq<Bag>): seq<ValidationError>
  {
    CustomerErrors(customerId) + (if |bags| == 0 then [NoBags] else Flatten(BagBlocks(bags)))
  }

  // ------------------------------------------------------- flattening

  /** Taking one more block appends that block. */
  lemma FlattenPrefix<T>(blocks: seq<seq<T>>, n: nat)
    requires n < |blocks|
    ensures Flatten(blocks[..n + 1]) == Flatten(blocks[..n]) + blocks[n]
  {
    assert blocks[..n + 1][..n] == blocks[..n];
  }

  lemma {:induction false} FlattenEmptyIff<T>(blocks: seq<seq<T>>)
    ensures Flatten(blocks) == [] <==> forall i :: 0 <= i < |blocks| ==> blocks[i] == []
  {
    if blocks != [] {
      var front := blocks[..|blocks| - 1];
      FlattenEmptyIff(front);
      assert forall i :: 0 <= i < |front| ==> front[i] == blocks[i];
    }
  }

  lemma {:induction false} FlattenContains<T>(blocks: seq<seq<T>>, j: nat, x: T)
    requires j < |blocks| && x in blocks[j]
    ensures x in Flatten(blocks)
  {
    var n := |blocks|;
    if j < n - 1 {
      FlattenContains(blocks[..n - 1], j, x);
    }
  }

  // ------------------------------------------------------------- order

  /** Where a message sits in the form: (bag, slot, part). The customer and
      "no bags" come before every bag; within a bag the weight comes first
      (slot -2), then "no items" (slot -1), then item `i` (slot `i`), the
      product (part 0) before the quantity (part 1). */
  function BagOf(e: ValidationError): int
  {
    match e
    case MissingCustomer => -2
    case NoBags => -1
    case _ => e.bag
  }

  function SlotOf(e: ValidationError): int
  {
    match e
    case MissingWeight(_) => -2
    case WeightTooSmall(_) => -2
    case NoItems(_) => -1
    case MissingProduct(_, i) => i
    case MissingQuantity(_, i) => i
    case QuantityTooSmall(_, i) => i
    case _ => 0
  }

  function PartOf(e: ValidationError): int
  {
    if e.MissingQuantity? || e.QuantityTooSmall? then 1 else 0
  }

  predicate NotAfter(x: ValidationError, y: ValidationError)
  {
    BagOf(x) < BagOf(y)
    || (BagOf(x) == BagOf(y) && (SlotOf(x) < SlotOf(y) || (SlotOf(x) == SlotOf(y) && PartOf(x) <= PartOf(y))))
  }

  /** Messages come in form order: each one is not after the next. */
  predicate InFormOrder(errs: seq<ValidationError>)
  {
    forall k :: 0 < k < |errs| ==> NotAfter(errs[k - 1], errs[k])
  }

  /** Every message of `errs` belongs to a bag in `[lo, hi)` and a slot in `[slotLo, slotHi)`. */
  predicate KeysWithin(errs: seq<ValidationError>, lo: int, hi: int, slotLo: int, slotHi: int)
  {
    forall k :: 0 <= k < |errs| ==> lo <= BagOf(errs[k]) < hi && slotLo <= SlotOf(errs[k]) < slotHi
  }

  lemma OrderedConcat(a: seq<ValidationError>, b: seq<ValidationError>)
    requires InFormOrder(a) && InFormOrder(b)
    requires a != [] && b != [] ==> NotAfter(a[|a| - 1], b[0])
    ensures InFormOrder(a + b)
  {
    var c := a + b;
    forall k | 0 < k < |c|
      ensures NotAfter(c[k - 1], c[k])
    {
      if k < |a| {
        assert c[k - 1] == a[k - 1] && c[k] == a[k];
      } else if k > |a| {
        assert c[k - 1] == b[k - 1 - |a|] && c[k] == b[k - |a|];
      }
    }
  }

  lemma KeysConcat(a: seq<ValidationError>, b: seq<ValidationError>, lo: int, hi: int, slotLo: int, slotHi: int)
    requires KeysWithin(a, lo, hi, slotLo, slotHi) && KeysWithin(b, lo, hi, slotLo, slotHi)
    ensures KeysWithin(a + b, lo, hi, slotLo, slotHi)
  {
    var c := a + b;
    forall k | 0 <= k < |c|
      ensures lo <= BagOf(c[k]) < hi && slotLo <= SlotOf(c[k]) < slotHi
    {
      if k < |a| {
        assert c[k] == a[k];
      } else {
        assert c[k] == b[k - |a|];
      }
    }
  }

  /** The band a message falls in when blocks are bags (`byBag`) or the items
      of bag `b` (otherwise): a bag number, or an item slot within bag `b`. */
  predicate InBand(e: ValidationError, byBag: bool, b: int, lo: int, hi: int)
  {
    if byBag then lo <= BagOf(e) < hi else BagOf(e) == b && lo <= SlotOf(e) < hi
  }

  predicate AllInBand(errs: seq<ValidationError>, byBag: bool, b: int, lo: int, hi: int)
  {
    forall k :: 0 <= k < |errs| ==> InBand(errs[k], byBag, b, lo, hi)
  }

  /** Block `i` holds messages of band `i` only, each block in form order. */
  predicate Banded(blocks: seq<seq<ValidationError>>, byBag: bool, b: int)
  {
    forall i :: 0 <= i < |blocks| ==> InFormOrder(blocks[i]) && AllInBand(blocks[i], byBag, b, i, i + 1)
  }

  lemma BandConcat(a: seq<ValidationError>, c: seq<ValidationError>, byBag: bool, b: int, n: nat)
    requires n > 0
    requires InFormOrder(a) && AllInBand(a, byBag, b, 0, n - 1)
    requires InFormOrder(c) && AllInBand(c, byBag, b, n - 1, n)
    ensures InFormOrder(a + c) && AllInBand(a + c, byBag, b, 0, n)
  {
    if a != [] && c != [] {
      assert InBand(a[|a| - 1], byBag, b, 0, n - 1) && InBand(c[0], byBag, b, n - 1, n);
    }
    OrderedConcat(a, c);
    var ac := a + c;
    forall k | 0 <= k < |ac|
      ensures InBand(ac[k], byBag, b, 0, n)
    {
      if k < |a| {
        assert ac[k] == a[k];
      } else {
        assert ac[k] == c[k - |a|];
      }
    }
  }

  /** Blocks in increasing bands flatten to a list in form order. */
  lemma {:induction false} FlattenOrdered(blocks: seq<seq<ValidationError>>, byBag: bool, b: int)
    requires Banded(blocks, byBag, b)
    ensures InFormOrder(Flatten(blocks)) && AllInBand(Flatten(blocks), byBag, b, 0, |blocks|)
  {
    var n := |blocks|;
    if n > 0 {
      var front := blocks[..n - 1];
      assert forall i :: 0 <= i < |front| ==> front[i] == blocks[i];
      FlattenOrdered(front, byBag, b);
      BandConcat(Flatten(front), blocks[n - 1], byBag, b, n);
    }
  }

  lemma ItemErrorsKeys(b: nat, i: nat, item: Item)
    ensures |ItemErrors(b, i, item)| <= 2
    ensures InFormOrder(ItemErrors(b, i, item))
    ensures KeysWithin(ItemErrors(b, i, item), b, b + 1, i, i + 1)
  {
  }

  lemma ItemBlocksBanded(b: nat, items: seq<Item>)
    ensures Banded(ItemBlocks(b, items), false, b)
  {
    forall i | 0 <= i < |items|
      ensures InFormOrder(ItemBlocks(b, items)[i]) && AllInBand(ItemBlocks(b, items)[i], false, b, i, i + 1)
    {
      ItemErrorsKeys(b, i, items[i]);
    }
  }

  lemma WeightErrorsKeys(b: nat, weight: Value)
    ensures InFormOrder(WeightErrors(b, weight))
    ensures KeysWithin(WeightErrors(b, weight), b, b + 1, -2, -1)
  {
  }

  lemma ContentErrorsKeys(b: nat, bag: Bag)
    ensures InFormOrder(ContentErrors(b, bag))
    ensures KeysWithin(ContentErrors(b, bag), b, b + 1, -1, if |bag.items| == 0 then 0 else |bag.items|)
  {
    if |bag.items| > 0 {
      var blocks := ItemBlocks(b, bag.items);
      ItemBlocksBanded(b, bag.items);
      FlattenOrdered(blocks, false, b);
      var c := Flatten(blocks);
      assert AllInBand(c, false, b, 0, |blocks|);
      forall k | 0 <= k < |c|
        ensures b <= BagOf(c[k]) < b + 1 && -1 <= SlotOf(c[k]) < |bag.items|
      {
        assert InBand(c[k], false, b, 0, |blocks|);
      }
    }
  }

  lemma BagErrorsKeys(b: nat, bag: Bag)
    ensures InFormOrder(BagErrors(b, bag))
    ensures KeysWithin(BagErrors(b, bag), b, b + 1, -2, if |bag.items| == 0 then 0 else |bag.items|)
  {
    var hi := if |bag.items| == 0 then 0 else |bag.items|;
    var w := WeightErrors(b, bag.weight);
    var c := ContentErrors(b, bag);
    WeightErrorsKeys(b, bag.weight);
    ContentErrorsKeys(b, bag);
    if w != [] && c != [] {
      assert SlotOf(w[|w| - 1]) < -1 <= SlotOf(c[0]);
    }
    OrderedConcat(w, c);
    KeysConcat(w, c, b, b + 1, -2, hi);
  }

  lemma BagBlocksBanded(bags: seq<Bag>)
    ensures Banded(BagBlocks(bags), true, 0)
  {
    forall b | 0 <= b < |bags|
      ensures InFormOrder(BagBlocks(bags)[b]) && AllInBand(BagBlocks(bags)[b], true, 0, b, b + 1)
    {
      BagErrorsKeys(b, bags[b]);
    }
  }

  /** The reported messages follow the form: customer, then "no bags" or the
      bags in order, each bag's weight before its items, the items in order. */
  lemma FormErrorsInOrder(customerId: Value, bags: seq<Bag>)
    ensures InFormOrder(FormErrors(customerId, bags))
  {
    var c := CustomerErrors(customerId);
    assert InFormOrder(c);
    if |bags| == 0 {
      OrderedConcat(c, [NoBags]);
    } else {
      var tail := Flatten(BagBlocks(bags));
      BagBlocksBanded(bags);
      FlattenOrdered(BagBlocks(bags), true, 0);
      if c != [] && tail != [] {
        assert InBand(tail[0], true, 0, 0, |bags|);
        assert BagOf(c[|c| - 1]) < 0 <= BagOf(tail[0]);
      }
      OrderedConcat(c, tail);
    }
  }

  /** Being in form order between neighbours puts every pair in form order. */
  lemma {:induction false} InFormOrderPairwise(errs: seq<ValidationError>, j: nat, k: nat)
    requires InFormOrder(errs) && j <= k < |errs|
    ensures NotAfter(errs[j], errs[k])
    decreases k - j
  {
    if j < k {
      InFormOrderPairwise(errs, j, k - 1);
    }
  }

  // ------------------------------------------------------------ contents

  /** A missing customer is the first thing reported, and only then reported. */
  lemma MissingCustomerFirst(customerId: Value, bags: seq<Bag>)
    ensures !Truthy(customerId) ==> FormErrors(customerId, bags)[0] == MissingCustomer
    ensures Truthy(customerId) ==> MissingCustomer !in FormErrors(customerId, bags)
  {
    if Truthy(customerId) && |bags| > 0 {
      var tail := Flatten(BagBlocks(bags));
      BagBlocksBanded(bags);
      FlattenOrdered(BagBlocks(bags), true, 0);
      assert forall k :: 0 <= k < |tail| ==> BagOf(tail[k]) >= 0;
    }
  }

  /** Without bags the only other message is "Please add at least one bag". */
  lemma NoBagsOnly(customerId: Value)
    ensures FormErrors(customerId, []) == CustomerErrors(customerId) + [NoBags]
    ensures Render(FormErrors(customerId, [])) == Render(CustomerErrors(customerId)) + ["Please add at least one bag"]
  {
  }

  /** A bag left without items is reported, so the form cannot be submitted. */
  lemma EmptyBagReported(customerId: Value, bags: seq<Bag>, b: nat)
    requires b < |bags| && |bags[b].items| == 0
    ensures NoItems(b) in FormErrors(customerId, bags)
    ensures FormErrors(customerId, bags) != []
  {
    assert NoItems(b) in BagBlocks(bags)[b];
    FlattenContains(BagBlocks(bags), b, NoItems(b));
  }

  // ------------------------------------ an independent statement of "valid"

  predicate WeightOk(weight: Value)
  {
    Truthy(weight) && !BelowMin(weight, MinWeight)
  }

  predicate ItemOk(item: Item)
  {
    Truthy(item.productId) && Truthy(item.quantity) && !BelowMin(item.quantity, MinQuantity)
  }

  predicate BagOk(bag: Bag)
  {
    WeightOk(bag.weight) && |bag.items| > 0 && forall i :: 0 <= i < |bag.items| ==> ItemOk(bag.items[i])
  }

  /** A form `validateForm()` should accept: a customer, at least one bag, and
      every bag and item filled in within the minimums. */
  predicate FormComplete(customerId: Value, bags: seq<Bag>)
  {
    Truthy(customerId) && |bags| > 0 && forall b :: 0 <= b < |bags| ==> BagOk(bags[b])
  }

  lemma BagErrorsEmpty(b: nat, bag: Bag)
    ensures BagErrors(b, bag) == [] <==> BagOk(bag)
  {
    var blocks := ItemBlocks(b, bag.items);
    FlattenEmptyIff(blocks);
    assert forall i :: 0 <= i < |bag.items| ==> (blocks[i] == [] <==> ItemOk(bag.items[i]));
  }

  /** `validateForm()` finds no error exactly when the form is complete. */
  lemma FormErrorsEmptyIff(customerId: Value, bags: seq<Bag>)
    ensures FormErrors(customerId, bags) == [] <==> FormComplete(customerId, bags)
  {
    var blocks := BagBlocks(bags);
    FlattenEmptyIff(blocks);
    forall b | 0 <= b < |bags|
      ensures blocks[b] == [] <==> BagOk(bags[b])
    {
      BagErrorsEmpty(b, bags[b]);
    }
  }

  // ------------------------------------------------------------- counts

  /** How many messages sit at (bag, slot). */
  function CountAt(errs: seq<ValidationError>, bag: int, slot: int): nat
  {
    if errs == [] then 0
    else CountAt(errs[..|errs| - 1], bag, slot)
         + (if BagOf(errs[|errs| - 1]) == bag && SlotOf(errs[|errs| - 1]) == slot then 1 else 0)
  }

  lemma {:induction false} CountConcat(a: seq<ValidationError>, b: seq<ValidationError>, bag: int, slot: int)
    ensures CountAt(a + b, bag, slot) == CountAt(a, bag, slot) + CountAt(b, bag, slot)
  {
    if b == [] {
      assert a + b == a;
    } else {
      var c := a + b;
      var last := b[|b| - 1];
      var hit := if BagOf(last) == bag && SlotOf(last) == slot then 1 else 0;
      assert c[..|c| - 1] == a + b[..|b| - 1];
      assert c[|c| - 1] == last;
      assert CountAt(c, bag, slot) == CountAt(a + b[..|b| - 1], bag, slot) + hit;
      assert CountAt(b, bag, slot) == CountAt(b[..|b| - 1], bag, slot) + hit;
      CountConcat(a, b[..|b| - 1], bag, slot);
    }
  }

  lemma {:induction false} CountAtMost(errs: seq<ValidationError>, bag: int, slot: int)
    ensures CountAt(errs, bag, slot) <= |errs|
  {
    if errs != [] {
      CountAtMost(errs[..|errs| - 1], bag, slot);
    }
  }

  /** No message at a key outside the bag/slot bounds of the list. */
  lemma {:induction false} CountOutside(errs: seq<ValidationError>, lo: int, hi: int, slotLo: int, slotHi: int, bag: int, slot: int)
    requires KeysWithin(errs, lo, hi, slotLo, slotHi)
    requires !(lo <= bag < hi && slotLo <= slot < slotHi)
    ensures CountAt(errs, bag, slot) == 0
  {
    if errs != [] {
      CountOutside(errs[..|errs| - 1], lo, hi, slotLo, slotHi, bag, slot);
    }
  }

  /** No message at a key outside the band of the list. */
  lemma {:induction false} CountOutsideBand(errs: seq<ValidationError>, byBag: bool, b: int, lo: int, hi: int, bag: int, slot: int)
    requires AllInBand(errs, byBag, b, lo, hi)
    requires !(if byBag then lo <= bag < hi else bag == b && lo <= slot < hi)
    ensures CountAt(errs, bag, slot) == 0
  {
    if errs != [] {
      CountOutsideBand(errs[..|errs| - 1], byBag, b, lo, hi, bag, slot);
    }
  }

  /** In banded blocks, the messages at a key all come from the one block of its band. */
  lemma {:induction false} FlattenCount(blocks: seq<seq<ValidationError>>, byBag: bool, b: int, bag: int, slot: int)
    requires Banded(blocks, byBag, b)
    ensures var j := if byBag then bag else slot;
            CountAt(Flatten(blocks), bag, slot)
            == if 0 <= j < |blocks| && (byBag || bag == b) then CountAt(blocks[j], bag, slot) else 0
  {
    var n := |blocks|;
    if n > 0 {
      var j := if byBag then bag else slot;
      var front := blocks[..n - 1];
      var last := blocks[n - 1];
      assert forall i :: 0 <= i < |front| ==> front[i] == blocks[i];
      FlattenCount(front, byBag, b, bag, slot);
      CountConcat(Flatten(front), last, bag, slot);
      if !(j == n - 1 && (byBag || bag == b)) {
        CountOutsideBand(last, byBag, b, n - 1, n, bag, slot);
      }
    }
  }

  lemma WeightCount(b: nat, bag: Bag)
    ensures CountAt(BagErrors(b, bag), b, -2) <= 1
  {
    var w := WeightErrors(b, bag.weight);
    var c := ContentErrors(b, bag);
    CountConcat(w, c, b, -2);
    CountAtMost(w, b, -2);
    if |bag.items| > 0 {
      ItemBlocksBanded(b, bag.items);
      FlattenCount(ItemBlocks(b, bag.items), false, b, b, -2);
    }
  }

  lemma ItemCount(b: nat, bag: Bag, i: nat)
    ensures CountAt(BagErrors(b, bag), b, i) <= 2
  {
    var w := WeightErrors(b, bag.weight);
    var c := ContentErrors(b, bag);
    CountConcat(w, c, b, i);
    WeightErrorsKeys(b, bag.weight);
    CountOutside(w, b, b + 1, -2, -1, b, i);
    if |bag.items| == 0 {
      CountAtMost(c, b, i);
    } else {
      var blocks := ItemBlocks(b, bag.items);
      ItemBlocksBanded(b, bag.items);
      FlattenCount(blocks, false, b, b, i);
      if i < |bag.items| {
        assert blocks[i] == ItemErrors(b, i, bag.items[i]);
        ItemErrorsKeys(b, i, bag.items[i]);
        CountAtMost(blocks[i], b, i);
      }
    }
  }

  /** At most one weight message per bag and at most two messages per item. */
  lemma FormErrorsCounts(customerId: Value, bags: seq<Bag>, b: nat, i: nat)
    ensures CountAt(FormErrors(customerId, bags), b, -2) <= 1
    ensures CountAt(FormErrors(customerId, bags), b, i) <= 2
  {
    var head := CustomerErrors(customerId);
    var tail := if |bags| == 0 then [NoBags] else Flatten(BagBlocks(bags));
    CountConcat(head, tail, b, -2);
    CountConcat(head, tail, b, i);
    assert KeysWithin(head, -2, -1, 0, 1);
    CountOutside(head, -2, -1, 0, 1, b, -2);
    CountOutside(head, -2, -1, 0, 1, b, i);
    if |bags| == 0 {
      assert KeysWithin(tail, -1, 0, 0, 1);
      CountOutside(tail, -1, 0, 0, 1, b, -2);
      CountOutside(tail, -1, 0, 0, 1, b, i);
    } else {
      BagBlocksBanded(bags);
      FlattenCount(BagBlocks(bags), true, 0, b, -2);
      FlattenCount(BagBlocks(bags), true, 0, b, i);
      if b < |bags| {
        WeightCount(b, bags[b]);
        ItemCount(b, bags[b], i);
      }
    }
  }


  // ------------------------------------------------ Angular's form validity

  /** `transportForm.valid` under the validators the form groups declare:
      `required` on the customer, the weight, the product and the quantity,
      `min(0.01)` on the weight and `min(1)` on the quantity. The bag and item
      arrays themselves carry no validator. */
  predicate AngularValid(customerId: Value, bags: seq<Bag>)
    ensures |bags| == 0 ==> (AngularValid(customerId, bags) <==> IsPresent(customerId))
  {
    IsPresent(customerId)
    && forall b :: 0 <= b < |bags| ==>
         IsPresent(bags[b].weight) && !BelowMin(bags[b].weight, MinWeight)
         && forall i :: 0 <= i < |bags[b].items| ==>
              IsPresent(bags[b].items[i].productId) && IsPresent(bags[b].items[i].quantity)
              && !BelowMin(bags[b].items[i].quantity, MinQuantity)
  }

  /** What `validateForm()` accepts, Angular's validity accepts too. */
  lemma CompleteIsAngularValid(customerId: Value, bags: seq<Bag>)
    requires FormComplete(customerId, bags)
    ensures AngularValid(customerId, bags)
  {
    forall b, i | 0 <= b < |bags| && 0 <= i < |bags[b].items|
      ensures IsPresent(bags[b].items[i].productId) && IsPresent(bags[b].items[i].quantity)
    {
      assert BagOk(bags[b]);
      assert ItemOk(bags[b].items[i]);
      TruthyIsPresent(bags[b].items[i].productId);
      TruthyIsPresent(bags[b].items[i].quantity);
    }
    forall b | 0 <= b < |bags|
      ensures IsPresent(bags[b].weight)
    {
      assert BagOk(bags[b]);
      TruthyIsPresent(bags[b].weight);
    }
    TruthyIsPresent(customerId);
  }

  /** The converse fails: Angular's validity accepts a form without bags, and
      an item whose product id is the number 0, both of which `validateForm()` rejects. */
  lemma AngularValidIsWeaker()
    ensures AngularValid(Num(1.0), []) && !FormComplete(Num(1.0), [])
    ensures var bags := [Bag(Num(2.0), [Item(Num(0.0), Num(3.0), Null)])];
            AngularValid(Num(1.0), bags) && !FormComplete(Num(1.0), bags)
  {
    var bags := [Bag(Num(2.0), [Item(Num(0.0), Num(3.0), Null)])];
    FalsyZeroIsPresent();
    assert !ItemOk(bags[0].items[0]);
    assert !BagOk(bags[0]);
  }
}
