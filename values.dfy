/** JavaScript values as the components see them: form control values, JSON
    fields of a response row, request parameters. Numbers are JavaScript
    numbers, modelled as reals (NaN and infinities are not modelled). */
module Values {

  datatype Option<T> = None | Some(value: T)

  datatype Value = Null | Num(x: real) | Str(s: string)

  /** A JSON object, as sent in a request or received as a row of a page. */
  type Record = map<string, Value>

  /** A JavaScript number holding an integer. */
  function IntValue(n: int): Value
  {
    Num(n as real)
  }

  /** The control of a form group named `key`: `form.get(key)?.value`, with a
      missing control read as `null`. */
  function Field(form: Record, key: string): Value
  {
    if key in form then form[key] else Null
  }

  /** The object literal `{ ...base, ...overrides }`: every key of either,
      the later spread winning where both have one. */
  function Spread(base: Record, overrides: Record): (r: Record)
    ensures r.Keys == base.Keys + overrides.Keys
    ensures forall k :: k in overrides ==> r[k] == overrides[k]
    ensures forall k :: k in base && k !in overrides ==> r[k] == base[k]
  {
    base + overrides
  }

  /** A create or an update call made with a form's value. */
  datatype Mutation = Create(body: Record) | Update(id: Value, body: Record)

  /** JavaScript truthiness: `null`, `0` and `''` are falsy, everything else is truthy. */
  predicate Truthy(v: Value)
  {
    match v
    case Null => false
    case Num(x) => x != 0.0
    case Str(s) => s != ""
  }

  /** Angular's `Validators.required`: fails on `null` and on the empty string only. */
  predicate IsPresent(v: Value)
  {
    v != Null && v != Str("")
  }

  /** Angular's `Validators.min(m)` reports an error: a non-empty numeric value below `m`. */
  predicate BelowMin(v: Value, m: real)
    ensures BelowMin(v, m) ==> IsPresent(v)
  {
    v.Num? && v.x < m
  }

  lemma FalsyZeroIsPresent()
    ensures IsPresent(Num(0.0)) && !Truthy(Num(0.0))
  {
  }

  /** Every truthy value passes `Validators.required`. */
  lemma TruthyIsPresent(v: Value)
    ensures Truthy(v) ==> IsPresent(v)
  {
  }

  /** `form.reset()`: every control of the group becomes `null`. */
  function ResetAll(form: Record): (r: Record)
    ensures r.Keys == form.Keys
    ensures forall k :: k in r ==> r[k] == Null
  {
    map k | k in form :: Null
  }

  /** `form.reset({ [key]: value })`: that control takes `value`, every
      other control becomes `null`. */
  function ResetTo(form: Record, key: string, value: Value): (r: Record)
    ensures r.Keys == form.Keys
    ensures key in form ==> r[key] == value
    ensures forall k :: k in r && k != key ==> r[k] == Null
  {
    map k | k in form :: if k == key then value else Null
  }

  /** A toast shown to the user: `success(text)` or `error(text)`. */
  datatype Notice = Success(text: string) | Failure(text: string)

  /** One error toast per message, in order. */
  function Failures(messages: seq<string>): (r: seq<Notice>)
    ensures |r| == |messages|
    ensures forall k :: 0 <= k < |r| ==> r[k] == Failure(messages[k])
  {
    if messages == [] then [] else Failures(messages[..|messages| - 1]) + [Failure(messages[|messages| - 1])]
  }

  /** The notification text of a failed call: `message || fallback`. */
  function ErrorText(message: Option<string>, fallback: string): (r: string)
    ensures message.Some? && message.value != "" ==> r == message.value
    ensures message.None? || message.value == "" ==> r == fallback
    ensures fallback != "" ==> r != ""
    ensures r == fallback || (message.Some? && r == message.value)
  {
    if message.Some? && message.value != "" then message.value else fallback
  }
}
