/** `MerchantOfferCreatePage`: the offer form, its validator and the two handlers.
    `Number(...)` is the parameter `toNumber` (None for NaN) and `new Date(...)` is
    `toDate` (None for an invalid date). */
module OfferCreate {
  import opened Wrappers
  import opened Text
  import opened Forms

  datatype OfferField =
    Title | Description | DiscountType | DiscountValue | MinPurchaseAmount
  | MaxDiscountAmount | ValidFrom | ValidUntil | ProductId | ImageUrl

  const OfferFields: set<OfferField> :=
    {Title, Description, DiscountType, DiscountValue, MinPurchaseAmount,
     MaxDiscountAmount, ValidFrom, ValidUntil, ProductId, ImageUrl}

  lemma OfferFieldListed(f: OfferField)
    ensures f in OfferFields
  {
    match f
    case Title => case Description => case DiscountType => case DiscountValue =>
    case MinPurchaseAmount => case MaxDiscountAmount => case ValidFrom => case ValidUntil =>
    case ProductId => case ImageUrl =>
  }

  /** The page's `formData`, every input kept as the string typed. */
  datatype OfferForm = OfferForm(
    title: string,
    description: string,
    discountType: string,
    discountValue: string,
    minPurchaseAmount: string,
    maxDiscountAmount: string,
    validFrom: string,
    validUntil: string,
    productId: string,
    imageUrl: string)
  {
    function Get(f: OfferField): string {
      match f
      case Title => title
      case Description => description
      case DiscountType => discountType
      case DiscountValue => discountValue
      case MinPurchaseAmount => minPurchaseAmount
      case MaxDiscountAmount => maxDiscountAmount
      case ValidFrom => validFrom
      case ValidUntil => validUntil
      case ProductId => productId
      case ImageUrl => imageUrl
    }

    /** `{ ...prev, [name]: value }` */
    function With(f: OfferField, v: string): (r: OfferForm)
      ensures r.Get(f) == v
      ensures forall g :: g != f ==> r.Get(g) == Get(g)
    {
      match f
      case Title => this.(title := v)
      case Description => this.(description := v)
      case DiscountType => this.(discountType := v)
      case DiscountValue => this.(discountValue := v)
      case MinPurchaseAmount => this.(minPurchaseAmount := v)
      case MaxDiscountAmount => this.(maxDiscountAmount := v)
      case ValidFrom => this.(validFrom := v)
      case ValidUntil => this.(validUntil := v)
      case ProductId => this.(productId := v)
      case ImageUrl => this.(imageUrl := v)
    }
  }

  const EmptyOfferForm: OfferForm := OfferForm("", "", "percentage", "", "", "", "", "", "", "")

  const TitleRequired := "Título da oferta é obrigatório"
  const DescriptionRequired := "Descrição é obrigatória"
  const PercentageRequired := "Percentual de desconto é obrigatório"
  const AmountRequired := "Valor do desconto é obrigatório"
  const NotPositive := "Valor deve ser maior que zero"
  const OverHundred := "Percentual não pode ser maior que 100%"
  const FromRequired := "Data de início é obrigatória"
  const UntilRequired := "Data de fim é obrigatória"
  const UntilNotAfter := "Data de fim deve ser posterior à data de início"
  const MinNotNumber := "Valor mínimo deve ser um número válido"
  const MaxNotNumber := "Valor máximo deve ser um número válido"

  /** The message a field ends up with after every check has run, field by field. */
  function OfferFieldError(form: OfferForm, f: OfferField, toNumber: string -> Option<real>,
                           toDate: string -> Option<int>): Option<string>
  {
    match f
    case Title => if IsBlank(form.title) then Some(TitleRequired) else None
    case Description => if IsBlank(form.description) then Some(DescriptionRequired) else None
    case DiscountValue =>
      if IsBlank(form.discountValue) then
        Some(if form.discountType == "percentage" then PercentageRequired else AmountRequired)
      else (
        match toNumber(form.discountValue)
        case None => Some(NotPositive)
        case Some(x) =>
          if form.discountType == "percentage" && x > 100.0 then Some(OverHundred)
          else if x <= 0.0 then Some(NotPositive)
          else None)
    case ValidFrom => if form.validFrom == "" then Some(FromRequired) else None
    case ValidUntil =>
      if form.validUntil == "" then Some(UntilRequired)
      else if form.validFrom != "" && toDate(form.validFrom).Some? && toDate(form.validUntil).Some?
              && toDate(form.validUntil).value <= toDate(form.validFrom).value
      then Some(UntilNotAfter)
      else None
    case MinPurchaseAmount =>
      if form.minPurchaseAmount != "" && toNumber(form.minPurchaseAmount).None? then Some(MinNotNumber) else None
    case MaxDiscountAmount =>
      if form.maxDiscountAmount != "" && toNumber(form.maxDiscountAmount).None? then Some(MaxNotNumber) else None
    case DiscountType => None
    case ProductId => None
    case ImageUrl => None
  }

  /** The entries of the error map for the given fields. */
  function OfferErrorsOn(form: OfferForm, fields: set<OfferField>, toNumber: string -> Option<real>,
                         toDate: string -> Option<int>): map<OfferField, string>
  {
    map f | f in fields && OfferFieldError(form, f, toNumber, toDate).Some? ::
      OfferFieldError(form, f, toNumber, toDate).value
  }

  /** One more field checked: its message, if any, joins the map. */
  function AddOfferError(m: map<OfferField, string>, form: OfferForm, f: OfferField,
                         toNumber: string -> Option<real>, toDate: string -> Option<int>): map<OfferField, string>
  {
    match OfferFieldError(form, f, toNumber, toDate)
    case None => m
    case Some(e) => m[f := e]
  }

  lemma ExtendOfferErrors(form: OfferForm, done: set<OfferField>, f: OfferField, m: map<OfferField, string>,
                          toNumber: string -> Option<real>, toDate: string -> Option<int>)
    requires f !in done && m == OfferErrorsOn(form, done, toNumber, toDate)
    ensures AddOfferError(m, form, f, toNumber, toDate) == OfferErrorsOn(form, done + {f}, toNumber, toDate)
  {
  }

  /** The error map `validateForm` leaves behind: one entry per field with a message. */
  function OfferErrors(form: OfferForm, toNumber: string -> Option<real>,
                       toDate: string -> Option<int>): map<OfferField, string>
  {
    OfferErrorsOn(form, OfferFields, toNumber, toDate)
  }

  /** The form is valid iff no field has a message. */
  lemma OfferValidIffNoFieldError(form: OfferForm, toNumber: string -> Option<real>, toDate: string -> Option<int>)
    ensures OfferErrors(form, toNumber, toDate) == map[] <==>
            forall f :: OfferFieldError(form, f, toNumber, toDate).None?
  {
    var e := OfferErrors(form, toNumber, toDate);
    if e == map[] {
      forall f ensures OfferFieldError(form, f, toNumber, toDate).None? {
        OfferFieldListed(f);
        assert f !in e;
      }
    }
  }

  /** The statements of `validateForm` that assign the given field's message, as written there. */
  method CheckOfferField(newErrors: map<OfferField, string>, form: OfferForm, f: OfferField,
                         toNumber: string -> Option<real>, toDate: string -> Option<int>)
    returns (r: map<OfferField, string>)
    ensures r == AddOfferError(newErrors, form, f, toNumber, toDate)
  {
    r := newErrors;
    match f
    case Title =>
      TrimEmptyIffBlank(form.title);
      if Trim(form.title) == "" { r := r[Title := TitleRequired]; }
    case Description =>
      TrimEmptyIffBlank(form.description);
      if Trim(form.description) == "" { r := r[Description := DescriptionRequired]; }
    case DiscountValue =>
      TrimEmptyIffBlank(form.discountValue);
      if Trim(form.discountValue) == "" {
        r := r[DiscountValue := if form.discountType == "percentage" then PercentageRequired else AmountRequired];
      } else {
        var value := toNumber(form.discountValue);
        if value.None? || value.value <= 0.0 {
          r := r[DiscountValue := NotPositive];
        }
        if form.discountType == "percentage" && value.Some? && value.value > 100.0 {
          r := r[DiscountValue := OverHundred];
        }
      }
    case ValidFrom =>
      if form.validFrom == "" { r := r[ValidFrom := FromRequired]; }
    case ValidUntil =>
      if form.validUntil == "" { r := r[ValidUntil := UntilRequired]; }
      if form.validFrom != "" && form.validUntil != "" {
        var startDate, endDate := toDate(form.validFrom), toDate(form.validUntil);
        if startDate.Some? && endDate.Some? && endDate.value <= startDate.value {
          r := r[ValidUntil := UntilNotAfter];
        }
      }
    case MinPurchaseAmount =>
      if form.minPurchaseAmount != "" && toNumber(form.minPurchaseAmount).None? {
        r := r[MinPurchaseAmount := MinNotNumber];
      }
    case MaxDiscountAmount =>
      if form.maxDiscountAmount != "" && toNumber(form.maxDiscountAmount).None? {
        r := r[MaxDiscountAmount := MaxNotNumber];
      }
    case DiscountType =>
    case ProductId =>
    case ImageUrl =>
  }

  /** The body of `validateForm`: the checks in source order, each assigning into `newErrors`
      (fields the page never checks are passed over and add nothing). */
  method CollectOfferErrors(form: OfferForm, toNumber: string -> Option<real>, toDate: string -> Option<int>)
    returns (newErrors: map<OfferField, string>)
    ensures newErrors == OfferErrors(form, toNumber, toDate)
  {
    newErrors := map[];
    ghost var done: set<OfferField> := {};
    ExtendOfferErrors(form, done, Title, newErrors, toNumber, toDate);
    newErrors := CheckOfferField(newErrors, form, Title, toNumber, toDate);
    done := done + {Title};
    ExtendOfferErrors(form, done, Description, newErrors, toNumber, toDate);
    newErrors := CheckOfferField(newErrors, form, Description, toNumber, toDate);
    done := done + {Description};
    ExtendOfferErrors(form, done, DiscountValue, newErrors, toNumber, toDate);
    newErrors := CheckOfferField(newErrors, form, DiscountValue, toNumber, toDate);
    done := done + {DiscountValue};
    ExtendOfferErrors(form, done, ValidFrom, newErrors, toNumber, toDate);
    newErrors := CheckOfferField(newErrors, form, ValidFrom, toNumber, toDate);
    done := done + {ValidFrom};
    ExtendOfferErrors(form, done, ValidUntil, newErrors, toNumber, toDate);
    newErrors := CheckOfferField(newErrors, form, ValidUntil, toNumber, toDate);
    done := done + {ValidUntil};
    ExtendOfferErrors(form, done, MinPurchaseAmount, newErrors, toNumber, toDate);
    newErrors := CheckOfferField(newErrors, form, MinPurchaseAmount, toNumber, toDate);
    done := done + {MinPurchaseAmount};
    ExtendOfferErrors(form, done, MaxDiscountAmount, newErrors, toNumber, toDate);
    newErrors := CheckOfferField(newErrors, form, MaxDiscountAmount, toNumber, toDate);
    done := done + {MaxDiscountAmount};
    ExtendOfferErrors(form, done, DiscountType, newErrors, toNumber, toDate);
    newErrors := CheckOfferField(newErrors, form, DiscountType, toNumber, toDate);
    done := done + {DiscountType};
    ExtendOfferErrors(form, done, ProductId, newErrors, toNumber, toDate);
    newErrors := CheckOfferField(newErrors, form, ProductId, toNumber, toDate);
    done := done + {ProductId};
    ExtendOfferErrors(form, done, ImageUrl, newErrors, toNumber, toDate);
    newErrors := CheckOfferField(newErrors, form, ImageUrl, toNumber, toDate);
    done := done + {ImageUrl};
    assert done == OfferFields;
  }

  /** A title or description made only of spaces is rejected. */
  lemma BlankTextRejected(form: OfferForm, toNumber: string -> Option<real>, toDate: string -> Option<int>)
    ensures IsBlank(form.title) ==> OfferErrors(form, toNumber, toDate)[Title] == TitleRequired
    ensures IsBlank(form.description) ==> OfferErrors(form, toNumber, toDate)[Description] == DescriptionRequired
  {
  }

  /** A percentage above 100 is rejected whatever else holds; an amount has no upper bound. */
  lemma DiscountBounds(form: OfferForm, toNumber: string -> Option<real>, toDate: string -> Option<int>, x: real)
    requires !IsBlank(form.discountValue) && toNumber(form.discountValue) == Some(x)
    ensures form.discountType == "percentage" && x > 100.0 ==>
              OfferFieldError(form, DiscountValue, toNumber, toDate) == Some(OverHundred)
    ensures form.discountType != "percentage" && x > 0.0 ==>
              OfferFieldError(form, DiscountValue, toNumber, toDate) == None
    ensures x <= 0.0 ==> OfferFieldError(form, DiscountValue, toNumber, toDate) == Some(NotPositive)
  {
  }

  /** Min purchase and max discount are optional: left empty they never produce an error,
      and any value that parses is accepted. */
  lemma OptionalAmounts(form: OfferForm, toNumber: string -> Option<real>, toDate: string -> Option<int>)
    ensures form.minPurchaseAmount == "" || toNumber(form.minPurchaseAmount).Some? ==>
              MinPurchaseAmount !in OfferErrors(form, toNumber, toDate)
    ensures form.maxDiscountAmount == "" || toNumber(form.maxDiscountAmount).Some? ==>
              MaxDiscountAmount !in OfferErrors(form, toNumber, toDate)
  {
  }

  /** Product and image are never checked; an offer needs its two dates. */
  lemma UncheckedAndDates(form: OfferForm, toNumber: string -> Option<real>, toDate: string -> Option<int>)
    ensures ProductId !in OfferErrors(form, toNumber, toDate) && ImageUrl !in OfferErrors(form, toNumber, toDate)
    ensures ValidFrom in OfferErrors(form, toNumber, toDate) <==> form.validFrom == ""
    ensures OfferErrors(form, toNumber, toDate) == map[] ==>
              form.validFrom != "" && form.validUntil != ""
              && (toDate(form.validFrom).Some? && toDate(form.validUntil).Some? ==>
                    toDate(form.validFrom).value < toDate(form.validUntil).value)
  {
    var e := OfferErrors(form, toNumber, toDate);
    assert ValidFrom in OfferFields && ValidUntil in OfferFields;
    if e == map[] {
      assert ValidFrom !in e && ValidUntil !in e;
    }
  }

  class OfferCreatePage {
    var formData: OfferForm
    var errors: map<OfferField, string>
    var loading: bool

    constructor ()
      ensures formData == EmptyOfferForm && errors == map[] && !loading
    {
      formData, errors, loading := EmptyOfferForm, map[], false;
    }

    /** `handleInputChange`: the named field takes the typed value and its message, if shown, is blanked. */
    method HandleInputChange(name: OfferField, value: string)
      modifies this
      ensures formData == old(formData).With(name, value)
      ensures errors == ClearError(old(errors), name)
      ensures loading == old(loading)
    {
      formData := formData.With(name, value);
      if name in errors && errors[name] != "" {
        errors := errors[name := ""];
      }
    }

    /** `validateForm`: replaces the error map and reports whether it is empty. */
    method ValidateForm(toNumber: string -> Option<real>, toDate: string -> Option<int>) returns (ok: bool)
      modifies this
      ensures errors == OfferErrors(formData, toNumber, toDate)
      ensures ok <==> errors == map[]
      ensures formData == old(formData) && loading == old(loading)
    {
      var newErrors := CollectOfferErrors(formData, toNumber, toDate);
      errors := newErrors;
      ok := |newErrors| == 0;
    }

    /** `handleSubmit`: an invalid form stops at once; a valid one goes back to the offer list. */
    method HandleSubmit(toNumber: string -> Option<real>, toDate: string -> Option<int>) returns (nav: Option<string>)
      modifies this
      ensures errors == OfferErrors(formData, toNumber, toDate) && formData == old(formData)
      ensures nav.Some? <==> forall f :: OfferFieldError(formData, f, toNumber, toDate).None?
      ensures nav.Some? ==> nav.value == "/merchant/offers" && !loading
      ensures nav.None? ==> loading == old(loading)
    {
      var valid := ValidateForm(toNumber, toDate);
      OfferValidIffNoFieldError(formData, toNumber, toDate);
      if !valid {
        return None;
      }
      loading := true;
      loading := false;
      nav := Some("/merchant/offers");
    }
  }
}
