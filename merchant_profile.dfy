/** `MerchantProfilePage`: an eight-field copy of the signed-in merchant that can be edited,
    "saved" (which stores nothing) or reset. */
module MerchantProfile {
  import opened Wrappers
  import opened Types
  import opened MerchantAuth

  datatype ProfileField = Name | Email | Phone | BusinessName | Cnpj | Address | Category | Description

  datatype ProfileForm = ProfileForm(
    name: string,
    email: string,
    phone: string,
    businessName: string,
    cnpj: string,
    address: string,
    category: string,
    description: string)
  {
    function Get(f: ProfileField): string {
      match f
      case Name => name
      case Email => email
      case Phone => phone
      case BusinessName => businessName
      case Cnpj => cnpj
      case Address => address
      case Category => category
      case Description => description
    }

    /** `{ ...prev, [name]: value }` */
    function With(f: ProfileField, v: string): (r: ProfileForm)
      ensures r.Get(f) == v
      ensures forall g :: g != f ==> r.Get(g) == Get(g)
    {
      match f
      case Name => this.(name := v)
      case Email => this.(email := v)
      case Phone => this.(phone := v)
      case BusinessName => this.(businessName := v)
      case Cnpj => this.(cnpj := v)
      case Address => this.(address := v)
      case Category => this.(category := v)
      case Description => this.(description := v)
    }
  }

  /** The merchant's value of a field. */
  function FieldOf(m: Merchant, f: ProfileField): string {
    match f
    case Name => m.name
    case Email => m.email
    case Phone => m.phone
    case BusinessName => m.businessName
    case Cnpj => m.cnpj
    case Address => m.address
    case Category => m.category
    case Description => m.description
  }

  /** The placeholder shown for an empty description. */
  const NoDescription: string := "Sem descrição"

  /** What the read-only profile shows for a field: the merchant's value, except that an empty
      description is replaced by the placeholder (`merchant.description || 'Sem descrição'`). */
  function ShownValue(m: Merchant, f: ProfileField): (s: string)
    ensures f == Description ==> s != ""
    ensures f == Description && m.description != "" ==> s == m.description
    ensures f != Description ==> s == FieldOf(m, f)
    ensures s != FieldOf(m, f) <==> f == Description && m.description == ""
  {
    if f == Description && m.description == "" then NoDescription else FieldOf(m, f)
  }

  /** `merchant?.field || ''` for each of the eight fields. */
  function FormOf(m: Option<Merchant>): (form: ProfileForm)
    ensures forall f :: form.Get(f) == if m.Some? then FieldOf(m.value, f) else ""
  {
    match m
    case None => ProfileForm("", "", "", "", "", "", "", "")
    case Some(x) => ProfileForm(x.name, x.email, x.phone, x.businessName, x.cnpj, x.address, x.category, x.description)
  }

  /** What the page shows: a loading message without a merchant, otherwise the profile. */
  datatype ProfileView = Loading | Profile(editing: bool)

  class MerchantProfilePage {
    /** The merchant store the page reads. */
    const session: MerchantAuthProvider
    var formData: ProfileForm
    var isEditing: bool

    /** The form is filled once, from the merchant present when the page mounts. */
    constructor (session: MerchantAuthProvider)
      ensures this.session == session
      ensures formData == FormOf(session.merchant) && !isEditing
    {
      this.session := session;
      formData := FormOf(session.merchant);
      isEditing := false;
    }

    function View(): (v: ProfileView)
      reads this, session
      ensures v == Loading <==> session.merchant.None?
      ensures v.Profile? ==> v.editing == isEditing
    {
      if session.merchant.None? then Loading else Profile(isEditing)
    }

    /** Outside editing mode each field shows the merchant's value, with the placeholder for an
        empty description; inside, the form's raw value, placeholder-free. */
    function Displayed(f: ProfileField): (s: string)
      reads this, session
      requires session.merchant.Some?
      ensures !isEditing ==> s == ShownValue(session.merchant.value, f)
      ensures !isEditing && f == Description ==> s != ""
      ensures isEditing ==> s == formData.Get(f)
    {
      if isEditing then formData.Get(f) else ShownValue(session.merchant.value, f)
    }

    /** The "Editar Perfil" button, the only way into editing mode. */
    method Edit()
      modifies this
      ensures isEditing && formData == old(formData)
    {
      isEditing := true;
    }

    /** `handleInputChange`: only the named field changes. */
    method HandleInputChange(name: ProfileField, value: string)
      modifies this
      ensures formData == old(formData).With(name, value)
      ensures isEditing == old(isEditing)
    {
      formData := formData.With(name, value);
    }

    /** `handleSave`: leaves editing mode; the edits stay in the form but reach neither the
        merchant record nor storage, so the page shows the old values again. */
    method HandleSave()
      modifies this
      ensures !isEditing && formData == old(formData)
      ensures session.merchant == old(session.merchant) && session.stored == old(session.stored)
      ensures session.merchant.Some? ==> forall f :: Displayed(f) == ShownValue(session.merchant.value, f)
    {
      isEditing := false;
    }

    /** `handleCancel`: the form is refilled from the current merchant and editing ends. */
    method HandleCancel()
      modifies this
      ensures formData == FormOf(session.merchant) && !isEditing
      ensures session.merchant == old(session.merchant) && session.stored == old(session.stored)
    {
      formData := FormOf(session.merchant);
      isEditing := false;
    }
  }

  /** Editing a field and cancelling leaves the form as the merchant has it. */
  method EditThenCancel(page: MerchantProfilePage, f: ProfileField, v: string)
    modifies page
    ensures page.formData == FormOf(page.session.merchant) && !page.isEditing
  {
    page.Edit();
    page.HandleInputChange(f, v);
    page.HandleCancel();
  }
}
