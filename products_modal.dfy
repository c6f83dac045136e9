/**
 * The product form of `ProductModal`: the `formData` record, the handlers
 * that replace it field by field, the reset performed when the modal
 * opens, and the submit check on `skuFamilyId`.
 */
module ProductsModal {
  import opened Js

  /** `FormData` (and the `Product` handed to `onSave`, which has the same fields). */
  datatype ProductForm = ProductForm(
    skuFamilyId: string,
    simType: seq<string>,
    color: string,
    ram: seq<string>,
    storage: seq<string>,
    condition: string,
    price: int,
    stock: int,
    country: string,
    moq: int,
    isNegotiable: bool)

  /** The form's initial state and the reset state: empty strings, empty lists, zeros and false. */
  const EmptyForm: ProductForm := ProductForm("", [], "", [], [], "", 0, 0, "", 0, false)

  // ----- Field selectors -----

  /** The checkbox groups: `handleCheckboxChange(e, 'simType' | 'ram' | 'storage')`. */
  datatype ListField = SimType | Ram | Storage

  /** The fields edited as text: the SKU input and the three selects. */
  datatype TextField = SkuFamilyId | Color | Condition | Country

  /** The `type="number"` inputs. */
  datatype NumberField = Price | Stock | Moq

  function ListOf(f: ProductForm, field: ListField): seq<string> {
    match field
    case SimType => f.simType
    case Ram => f.ram
    case Storage => f.storage
  }

  function TextOf(f: ProductForm, field: TextField): string {
    match field
    case SkuFamilyId => f.skuFamilyId
    case Color => f.color
    case Condition => f.condition
    case Country => f.country
  }

  function NumberOf(f: ProductForm, field: NumberField): int {
    match field
    case Price => f.price
    case Stock => f.stock
    case Moq => f.moq
  }

  /** Two forms agree on every field outside the list fields. */
  predicate SameScalars(a: ProductForm, b: ProductForm) {
    && a.skuFamilyId == b.skuFamilyId && a.color == b.color && a.condition == b.condition
    && a.price == b.price && a.stock == b.stock && a.country == b.country && a.moq == b.moq
    && a.isNegotiable == b.isNegotiable
  }

  /** Two forms agree on every field outside the text fields. */
  predicate SameNonText(a: ProductForm, b: ProductForm) {
    && a.simType == b.simType && a.ram == b.ram && a.storage == b.storage
    && a.price == b.price && a.stock == b.stock && a.moq == b.moq && a.isNegotiable == b.isNegotiable
  }

  /** Two forms agree on every field outside the number fields and the negotiable flag. */
  predicate SameNonNumeric(a: ProductForm, b: ProductForm) {
    && a.skuFamilyId == b.skuFamilyId && a.color == b.color && a.condition == b.condition
    && a.country == b.country && a.simType == b.simType && a.ram == b.ram && a.storage == b.storage
  }

  // ----- The checkbox list update -----

  /** `current.filter((item) => item !== value)` */
  function Without(current: seq<string>, value: string): (r: seq<string>)
    ensures value !in r
    ensures forall x :: x in r <==> x in current && x != value
    ensures |r| <= |current|
  {
    if current == [] then []
    else if current[0] == value then Without(current[1..], value)
    else [current[0]] + Without(current[1..], value)
  }

  /** `filter` distributes over concatenation: the kept elements stay in their order. */
  lemma {:induction false} WithoutAppend(a: seq<string>, b: seq<string>, value: string)
    ensures Without(a + b, value) == Without(a, value) + Without(b, value)
    decreases |a|
  {
    if a != [] {
      assert a + b != [] && (a + b)[0] == a[0];
      assert (a + b)[1..] == a[1..] + b;
      WithoutAppend(a[1..], b, value);
      if a[0] != value {
        assert Without(a, value) == [a[0]] + Without(a[1..], value);
      }
    } else {
      assert a + b == b;
    }
  }

  /** `filter` removes every occurrence of the value and nothing else. */
  lemma {:induction false} WithoutCounts(current: seq<string>, value: string)
    ensures multiset(Without(current, value)) == multiset(current)[value := 0]
    decreases |current|
  {
    if current != [] {
      WithoutCounts(current[1..], value);
      assert current == [current[0]] + current[1..];
    }
  }

  /** Filtering out a value the list does not hold gives the list back. */
  lemma {:induction false} WithoutAbsent(current: seq<string>, value: string)
    requires value !in current
    ensures Without(current, value) == current
    decreases |current|
  {
    if current != [] {
      WithoutAbsent(current[1..], value);
      assert current == [current[0]] + current[1..];
    }
  }

  /** Checking appends the value at the end of the list; unchecking filters every copy out. */
  function Toggle(current: seq<string>, value: string, checked: bool): (r: seq<string>)
    ensures checked ==> r == current + [value]
    ensures !checked ==> r == Without(current, value)
  {
    if checked then current + [value] else Without(current, value)
  }

  /**
   * Checking a box and then unchecking it removes every copy of its value,
   * so the list is back where it was when the value was not in it before.
   */
  lemma CheckThenUncheck(current: seq<string>, value: string)
    ensures Toggle(Toggle(current, value, true), value, false) == Without(current, value)
    ensures value !in current ==> Toggle(Toggle(current, value, true), value, false) == current
  {
    WithoutAppend(current, [value], value);
    assert Without([value], value) == [];
    if value !in current {
      WithoutAbsent(current, value);
    }
  }

  // ----- The handlers -----

  function WithList(f: ProductForm, field: ListField, l: seq<string>): (r: ProductForm)
    ensures ListOf(r, field) == l
    ensures forall g :: g != field ==> ListOf(r, g) == ListOf(f, g)
    ensures SameScalars(r, f)
  {
    match field
    case SimType => f.(simType := l)
    case Ram => f.(ram := l)
    case Storage => f.(storage := l)
  }

  function WithText(f: ProductForm, field: TextField, v: string): (r: ProductForm)
    ensures TextOf(r, field) == v
    ensures forall g :: g != field ==> TextOf(r, g) == TextOf(f, g)
    ensures SameNonText(r, f)
  {
    match field
    case SkuFamilyId => f.(skuFamilyId := v)
    case Color => f.(color := v)
    case Condition => f.(condition := v)
    case Country => f.(country := v)
  }

  function WithNumber(f: ProductForm, field: NumberField, n: int): (r: ProductForm)
    ensures NumberOf(r, field) == n
    ensures forall g :: g != field ==> NumberOf(r, g) == NumberOf(f, g)
    ensures SameNonNumeric(r, f) && r.isNegotiable == f.isNegotiable
  {
    match field
    case Price => f.(price := n)
    case Stock => f.(stock := n)
    case Moq => f.(moq := n)
  }

  /** `handleCheckboxChange(e, field)`: only `field`'s list changes. */
  function CheckboxChanged(f: ProductForm, field: ListField, value: string, checked: bool): (r: ProductForm)
    ensures ListOf(r, field) == Toggle(ListOf(f, field), value, checked)
    ensures forall g :: g != field ==> ListOf(r, g) == ListOf(f, g)
    ensures SameScalars(r, f)
  {
    WithList(f, field, Toggle(ListOf(f, field), value, checked))
  }

  /** `handleSelectChange(e)`: only the named select's field changes. */
  function SelectChanged(f: ProductForm, field: TextField, value: string): (r: ProductForm)
    requires field != SkuFamilyId
    ensures TextOf(r, field) == value
    ensures forall g :: g != field ==> TextOf(r, g) == TextOf(f, g)
    ensures SameNonText(r, f)
  {
    WithText(f, field, value)
  }

  /**
   * The event `handleInputChange` sees, by the input's `type`: a text input,
   * a number input (with `parseFloat(value)`, `None` for NaN) or the checkbox.
   */
  datatype InputEvent =
    | TextInput(field: TextField, value: string)
    | NumberInput(numberField: NumberField, parsed: Option<int>)
    | CheckboxInput(checked: bool)

  /** `parseFloat(value) || 0` */
  function NumberOrZero(parsed: Option<int>): (n: int)
    ensures parsed.Some? ==> n == parsed.value
    ensures parsed.None? ==> n == 0
  {
    if parsed.Some? then parsed.value else 0
  }

  /** `handleInputChange(e)`: only the named input's field changes. */
  function InputChanged(f: ProductForm, e: InputEvent): (r: ProductForm)
    ensures e.TextInput? ==> (TextOf(r, e.field) == e.value && SameNonText(r, f)
                              && (forall g :: g != e.field ==> TextOf(r, g) == TextOf(f, g)))
    ensures e.NumberInput? ==> (NumberOf(r, e.numberField) == NumberOrZero(e.parsed) && SameNonNumeric(r, f)
                                && r.isNegotiable == f.isNegotiable
                                && (forall g :: g != e.numberField ==> NumberOf(r, g) == NumberOf(f, g)))
    ensures e.CheckboxInput? ==> r == f.(isNegotiable := e.checked)
  {
    match e
    case TextInput(field, value) => WithText(f, field, value)
    case NumberInput(field, parsed) => WithNumber(f, field, NumberOrZero(parsed))
    case CheckboxInput(checked) => f.(isNegotiable := checked)
  }

  /**
   * The reset effect: when the modal is open the form becomes a copy of
   * `editItem`, or the empty form when there is none; when closed the form
   * is kept.
   */
  function OnOpen(f: ProductForm, isOpen: bool, editItem: Option<ProductForm>): (r: ProductForm)
    ensures !isOpen ==> r == f
    ensures isOpen && editItem.None? ==> r == EmptyForm
    ensures isOpen && editItem.Some? ==> r == editItem.value
  {
    if !isOpen then f
    else if editItem.Some? then
      var e := editItem.value;
      ProductForm(e.skuFamilyId, e.simType, e.color, e.ram, e.storage, e.condition,
                  e.price, e.stock, e.country, e.moq, e.isNegotiable)
    else EmptyForm
  }

  /** What `handleSubmit` does, in order. */
  datatype Effect = Alert(message: string) | Saved(item: ProductForm) | Closed

  const MissingSkuMessage: string := "Please enter a SKU Family ID"

  /**
   * `handleSubmit`: an empty `skuFamilyId` only raises the alert; otherwise
   * `onSave` receives a copy of the form and then `onClose` runs.
   */
  function Submit(f: ProductForm): (effects: seq<Effect>)
    ensures f.skuFamilyId == "" ==> effects == [Alert(MissingSkuMessage)]
    ensures f.skuFamilyId != "" ==> effects == [Saved(f), Closed]
    ensures Closed in effects <==> f.skuFamilyId != ""
    ensures (exists item :: Saved(item) in effects) <==> f.skuFamilyId != ""
  {
    if f.skuFamilyId == "" then [Alert(MissingSkuMessage)] else [Saved(f), Closed]
  }

  /** The modal's `formData` state; each handler replaces it with the handler's result. */
  class ModalState {
    var formData: ProductForm

    constructor ()
      ensures formData == EmptyForm
    {
      formData := EmptyForm;
    }

    method HandleCheckboxChange(field: ListField, value: string, checked: bool)
      modifies this
      ensures formData == CheckboxChanged(old(formData), field, value, checked)
    {
      formData := CheckboxChanged(formData, field, value, checked);
    }

    method HandleSelectChange(field: TextField, value: string)
      requires field != SkuFamilyId
      modifies this
      ensures formData == SelectChanged(old(formData), field, value)
    {
      formData := SelectChanged(formData, field, value);
    }

    method HandleInputChange(e: InputEvent)
      modifies this
      ensures formData == InputChanged(old(formData), e)
    {
      formData := InputChanged(formData, e);
    }

    /** The effect on `[isOpen, editItem]`. */
    method ResetOnOpen(isOpen: bool, editItem: Option<ProductForm>)
      modifies this
      ensures formData == OnOpen(old(formData), isOpen, editItem)
    {
      formData := OnOpen(formData, isOpen, editItem);
    }

    method HandleSubmit() returns (effects: seq<Effect>)
      ensures effects == Submit(formData)
    {
      effects := Submit(formData);
    }
  }
}
