/** `MerchantProductCreatePage`: the product form, its validator and the two handlers.
    `Number(...)` is the parameter `toNumber` (None for NaN). */
module ProductCreate {
  import opened Wrappers
  import opened Text
  import opened Forms

  datatype ProductField = Name | Description | Price | Category | Stock | ImageUrl

  const ProductFields: set<ProductField> := {Name, Description, Price, Category, Stock, ImageUrl}

  lemma ProductFieldListed(f: ProductField)
    ensures f in ProductFields
  {
    match f
    case Name => case Description => case Price => case Category => case Stock => case ImageUrl =>
  }

  /** The page's `formData`, every input kept as the string typed. */
  datatype ProductForm = ProductForm(
    name: string,
    description: string,
    price: string,
    category: string,
    stock: string,
    imageUrl: string)
  {
    function Get(f: ProductField): string {
      match f
      case Name => name
      case Description => description
      case Price => price
      case Category => category
      case Stock => stock
      case ImageUrl => imageUrl
    }

    /** `{ ...prev, [name]: value }` */
    function With(f: ProductField, v: string): (r: ProductForm)
      ensures r.Get(f) == v
      ensures forall g :: g != f ==> r.Get(g) == Get(g)
    {
      match f
      case Name => this.(name := v)
      case Description => this.(description := v)
      case Price => this.(price := v)
      case Category => this.(category := v)
      case Stock => this.(stock := v)
      case ImageUrl => this.(imageUrl := v)
    }
  }

  const EmptyProductForm: ProductForm := ProductForm("", "", "", "", "", "")

  const NameRequired := "Nome do produto é obrigatório"
  const DescriptionRequired := "Descrição é obrigatória"
  const PriceRequired := "Preço é obrigatório"
  const PriceInvalid := "Preço deve ser um valor válido maior que zero"
  const CategoryRequired := "Categoria é obrigatória"
  const StockRequired := "Estoque é obrigatório"
  const StockInvalid := "Estoque deve ser um número válido maior ou igual a zero"

  /** The message a field ends up with after every check has run. */
  function ProductFieldError(form: ProductForm, f: ProductField, toNumber: string -> Option<real>): Option<string>
  {
    match f
    case Name => if IsBlank(form.name) then Some(NameRequired) else None
    case Description => if IsBlank(form.description) then Some(DescriptionRequired) else None
    case Price =>
      if IsBlank(form.price) then Some(PriceRequired)
      else if toNumber(form.price).None? || toNumber(form.price).value <= 0.0 then Some(PriceInvalid)
      else None
    case Category => if form.category == "" then Some(CategoryRequired) else None
    case Stock =>
      if IsBlank(form.stock) then Some(StockRequired)
      else if toNumber(form.stock).None? || toNumber(form.stock).value < 0.0 then Some(StockInvalid)
      else None
    case ImageUrl => None
  }

  /** The entries of the error map for the given fields. */
  function ProductErrorsOn(form: ProductForm, fields: set<ProductField>,
                           toNumber: string -> Option<real>): map<ProductField, string>
  {
    map f | f in fields && ProductFieldError(form, f, toNumber).Some? :: ProductFieldError(form, f, toNumber).value
  }

  /** The error map `validateForm` leaves behind: one entry per field with a message. */
  function ProductErrors(form: ProductForm, toNumber: string -> Option<real>): map<ProductField, string>
  {
    ProductErrorsOn(form, ProductFields, toNumber)
  }

  /** One more field checked: its message, if any, joins the map. */
  function AddProductError(m: map<ProductField, string>, form: ProductForm, f: ProductField,
                           toNumber: string -> Option<real>): map<ProductField, string>
  {
    match ProductFieldError(form, f, toNumber)
    case None => m
    case Some(e) => m[f := e]
  }

  lemma ExtendProductErrors(form: ProductForm, done: set<ProductField>, f: ProductField,
                            m: map<ProductField, string>, toNumber: string -> Option<real>)
    requires f !in done && m == ProductErrorsOn(form, done, toNumber)
    ensures AddProductError(m, form, f, toNumber) == ProductErrorsOn(form, done + {f}, toNumber)
  {
  }

  /** The form is valid iff no field has a message. */
  lemma ProductValidIffNoFieldError(form: ProductForm, toNumber: string -> Option<real>)
    ensures ProductErrors(form, toNumber) == map[] <==> forall f :: ProductFieldError(form, f, toNumber).None?
  {
    var e := ProductErrors(form, toNumber);
    if e == map[] {
      forall f ensures ProductFieldError(form, f, toNumber).None? {
        ProductFieldListed(f);
        assert f !in e;
      }
    }
  }

  /** The statements of `validateForm` that assign the given field's message, as written there. */
  method CheckProductField(newErrors: map<ProductField, string>, form: ProductForm, f: ProductField,
                           toNumber: string -> Option<real>)
    returns (r: map<ProductField, string>)
    ensures r == AddProductError(newErrors, form, f, toNumber)
  {
    r := newErrors;
    match f
    case Name =>
      TrimEmptyIffBlank(form.name);
      if Trim(form.name) == "" { r := r[Name := NameRequired]; }
    case Description =>
      TrimEmptyIffBlank(form.description);
      if Trim(form.description) == "" { r := r[Description := DescriptionRequired]; }
    case Price =>
      TrimEmptyIffBlank(form.price);
      if Trim(form.price) == "" {
        r := r[Price := PriceRequired];
      } else if toNumber(form.price).None? || toNumber(form.price).value <= 0.0 {
        r := r[Price := PriceInvalid];
      }
    case Category =>
      if form.category == "" { r := r[Category := CategoryRequired]; }
    case Stock =>
      TrimEmptyIffBlank(form.stock);
      if Trim(form.stock) == "" {
        r := r[Stock := StockRequired];
      } else if toNumber(form.stock).None? || toNumber(form.stock).value < 0.0 {
        r := r[Stock := StockInvalid];
      }
    case ImageUrl =>
  }

  /** The body of `validateForm`: the checks in source order; `imageUrl` is passed over. */
  method CollectProductErrors(form: ProductForm, toNumber: string -> Option<real>)
    returns (newErrors: map<ProductField, string>)
    ensures newErrors == ProductErrors(form, toNumber)
  {
    newErrors := map[];
    ghost var done: set<ProductField> := {};
    ExtendProductErrors(form, done, Name, newErrors, toNumber);
    newErrors := CheckProductField(newErrors, form, Name, toNumber);
    done := done + {Name};
    ExtendProductErrors(form, done, Description, newErrors, toNumber);
    newErrors := CheckProductField(newErrors, form, Description, toNumber);
    done := done + {Description};
    ExtendProductErrors(form, done, Price, newErrors, toNumber);
    newErrors := CheckProductField(newErrors, form, Price, toNumber);
    done := done + {Price};
    ExtendProductErrors(form, done, Category, newErrors, toNumber);
    newErrors := CheckProductField(newErrors, form, Category, toNumber);
    done := done + {Category};
    ExtendProductErrors(form, done, Stock, newErrors, toNumber);
    newErrors := CheckProductField(newErrors, form, Stock, toNumber);
    done := done + {Stock};
    ExtendProductErrors(form, done, ImageUrl, newErrors, toNumber);
    newErrors := CheckProductField(newErrors, form, ImageUrl, toNumber);
    done := done + {ImageUrl};
    assert done == ProductFields;
  }

  /** Price must parse to a positive number; stock to a non-negative one, so zero stock and
      fractional stock are both accepted; the image URL is never checked. */
  lemma NumberRules(form: ProductForm, toNumber: string -> Option<real>)
    ensures Price !in ProductErrors(form, toNumber) <==>
              !IsBlank(form.price) && toNumber(form.price).Some? && toNumber(form.price).value > 0.0
    ensures Stock !in ProductErrors(form, toNumber) <==>
              !IsBlank(form.stock) && toNumber(form.stock).Some? && toNumber(form.stock).value >= 0.0
    ensures ImageUrl !in ProductErrors(form, toNumber)
  {
    assert Price in ProductFields && Stock in ProductFields;
  }

  /** Name and description are checked after trimming, category only for emptiness. */
  lemma TextRules(form: ProductForm, toNumber: string -> Option<real>)
    ensures Name in ProductErrors(form, toNumber) <==> IsBlank(form.name)
    ensures Description in ProductErrors(form, toNumber) <==> IsBlank(form.description)
    ensures Category in ProductErrors(form, toNumber) <==> form.category == ""
  {
    assert Name in ProductFields && Description in ProductFields && Category in ProductFields;
  }

  class ProductCreatePage {
    var formData: ProductForm
    var errors: map<ProductField, string>
    var loading: bool

    constructor ()
      ensures formData == EmptyProductForm && errors == map[] && !loading
    {
      formData, errors, loading := EmptyProductForm, map[], false;
    }

    /** `handleInputChange`: the named field takes the typed value and its message, if shown, is blanked. */
    method HandleInputChange(name: ProductField, value: string)
      modifies this
      ensures formData == old(formData).With(name, value)
      ensures errors == ClearError(old(errors), name)
      ensures loading == old(loading)
    {
      formData := formData.With(name, value);
      if name in errors && errors[name] != "" {
        errors := errors[name := ""];
      }
    }

    /** `validateForm`: replaces the error map and reports whether it is empty. */
    method ValidateForm(toNumber: string -> Option<real>) returns (ok: bool)
      modifies this
      ensures errors == ProductErrors(formData, toNumber)
      ensures ok <==> errors == map[]
      ensures formData == old(formData) && loading == old(loading)
    {
      var newErrors := CollectProductErrors(formData, toNumber);
      errors := newErrors;
      ok := |newErrors| == 0;
    }

    /** `handleSubmit`: an invalid form stops at once; a valid one goes to the product list. */
    method HandleSubmit(toNumber: string -> Option<real>) returns (nav: Option<string>)
      modifies this
      ensures errors == ProductErrors(formData, toNumber) && formData == old(formData)
      ensures nav.Some? <==> forall f :: ProductFieldError(formData, f, toNumber).None?
      ensures nav.Some? ==> nav.value == "/merchant/products" && !loading
      ensures nav.None? ==> loading == old(loading)
    {
      var valid := ValidateForm(toNumber);
      ProductValidIffNoFieldError(formData, toNumber);
      if !valid {
        return None;
      }
      loading := true;
      loading := false;
      nav := Some("/merchant/products");
    }
  }
}
