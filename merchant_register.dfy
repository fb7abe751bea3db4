/** `MerchantRegisterPage`: the sign-up form of a merchant, its validator (with the e-mail
    pattern `\S+@\S+\.\S+`) and the submit handler that hands the form to the merchant store. */
module MerchantRegister {
  import opened Wrappers
  import opened Text
  import opened Forms
  import opened Types
  import opened MerchantAuth

  datatype RegisterField =
    Name | Email | Phone | Password | BusinessName | Cnpj | Address | Category | Description

  const RegisterFields: set<RegisterField> :=
    {Name, Email, Phone, Password, BusinessName, Cnpj, Address, Category, Description}

  lemma RegisterFieldListed(f: RegisterField)
    ensures f in RegisterFields
  {
    match f
    case Name => case Email => case Phone => case Password => case BusinessName =>
    case Cnpj => case Address => case Category => case Description =>
  }

  /** The page's `formData` is the record `register` receives. */
  function Get(d: MerchantData, f: RegisterField): string {
    match f
    case Name => d.name
    case Email => d.email
    case Phone => d.phone
    case Password => d.password
    case BusinessName => d.businessName
    case Cnpj => d.cnpj
    case Address => d.address
    case Category => d.category
    case Description => d.description
  }

  /** `{ ...prev, [name]: value }` */
  function With(d: MerchantData, f: RegisterField, v: string): (r: MerchantData)
    ensures Get(r, f) == v
    ensures forall g :: g != f ==> Get(r, g) == Get(d, g)
  {
    match f
    case Name => d.(name := v)
    case Email => d.(email := v)
    case Phone => d.(phone := v)
    case Password => d.(password := v)
    case BusinessName => d.(businessName := v)
    case Cnpj => d.(cnpj := v)
    case Address => d.(address := v)
    case Category => d.(category := v)
    case Description => d.(description := v)
  }

  const EmptyRegisterForm: MerchantData := MerchantData("", "", "", "", "", "", "", "", "")

  /** `/\S+@\S+\.\S+/.test(s)`: somewhere in `s` a non-space character, `@`, a run of
      non-space characters, `.`, and one more non-space character. The pattern is not
      anchored, so text around the match does not matter. */
  predicate MatchesEmailPattern(s: string) {
    exists p, q | 1 <= p < q < |s| :: EmailMatchAt(s, p, q)
  }

  /** The match with its `@` at `p` and its `.` at `q`. */
  predicate EmailMatchAt(s: string, p: int, q: int) {
    1 <= p && p + 1 < q && q + 1 < |s| && s[p] == '@' && s[q] == '.'
    && !IsSpace(s[p - 1]) && !IsSpace(s[q + 1])
    && forall k :: p < k < q ==> !IsSpace(s[k])
  }

  /** "a@b" has no dot after the `@`, "a@b.c" is a match. */
  lemma EmailExamples()
    ensures !MatchesEmailPattern("a@b")
    ensures MatchesEmailPattern("a@b.c")
  {
    assert EmailMatchAt("a@b.c", 1, 3);
  }

  /** Text before or after a match keeps it a match. */
  lemma EmailPatternUnanchored(s: string, before: string, after: string)
    requires MatchesEmailPattern(s)
    ensures MatchesEmailPattern(before + s + after)
  {
    var p, q :| 1 <= p < q < |s| && EmailMatchAt(s, p, q);
    var t := before + s + after;
    var n := |before|;
    assert forall i :: 0 <= i < |s| ==> t[n + i] == s[i];
    assert forall k :: p + n < k < q + n ==> !IsSpace(t[k]) by {
      forall k | p + n < k < q + n ensures !IsSpace(t[k]) {
        assert t[k] == s[k - n];
      }
    }
    assert t[p + n] == '@' && t[q + n] == '.' && t[p + n - 1] == s[p - 1] && t[q + n + 1] == s[q + 1];
    assert EmailMatchAt(t, p + n, q + n);
  }

  /** A match needs an `@`, a later `.` and at least five characters. */
  lemma EmailPatternShape(s: string)
    requires MatchesEmailPattern(s)
    ensures '@' in s && '.' in s && |s| >= 5
  {
    var p, q :| 1 <= p < q < |s| && EmailMatchAt(s, p, q);
    assert s[p] in s && s[q] in s;
  }

  const NameRequired := "Nome é obrigatório"
  const EmailRequired := "Email é obrigatório"
  const EmailInvalid := "Email inválido"
  const PhoneRequired := "Telefone é obrigatório"
  const PasswordRequired := "Senha é obrigatória"
  const PasswordShort := "Senha deve ter pelo menos 6 caracteres"
  const BusinessNameRequired := "Nome da empresa é obrigatório"
  const CnpjRequired := "CNPJ é obrigatório"
  const AddressRequired := "Endereço é obrigatório"
  const CategoryRequired := "Categoria é obrigatória"

  /** The message a field ends up with after every check has run. */
  function RegisterFieldError(d: MerchantData, f: RegisterField): Option<string> {
    match f
    case Name => if IsBlank(d.name) then Some(NameRequired) else None
    case Email =>
      if IsBlank(d.email) then Some(EmailRequired)
      else if !MatchesEmailPattern(d.email) then Some(EmailInvalid)
      else None
    case Phone => if IsBlank(d.phone) then Some(PhoneRequired) else None
    case Password =>
      if IsBlank(d.password) then Some(PasswordRequired)
      else if |d.password| < 6 then Some(PasswordShort)
      else None
    case BusinessName => if IsBlank(d.businessName) then Some(BusinessNameRequired) else None
    case Cnpj => if IsBlank(d.cnpj) then Some(CnpjRequired) else None
    case Address => if IsBlank(d.address) then Some(AddressRequired) else None
    case Category => if d.category == "" then Some(CategoryRequired) else None
    case Description => None
  }

  /** The entries of the error map for the given fields. */
  function RegisterErrorsOn(d: MerchantData, fields: set<RegisterField>): map<RegisterField, string> {
    map f | f in fields && RegisterFieldError(d, f).Some? :: RegisterFieldError(d, f).value
  }

  /** The error map `validateForm` leaves behind: one entry per field with a message. */
  function RegisterErrors(d: MerchantData): map<RegisterField, string> {
    RegisterErrorsOn(d, RegisterFields)
  }

  /** One more field checked: its message, if any, joins the map. */
  function AddRegisterError(m: map<RegisterField, string>, d: MerchantData, f: RegisterField): map<RegisterField, string> {
    match RegisterFieldError(d, f)
    case None => m
    case Some(e) => m[f := e]
  }

  lemma ExtendRegisterErrors(d: MerchantData, done: set<RegisterField>, f: RegisterField, m: map<RegisterField, string>)
    requires f !in done && m == RegisterErrorsOn(d, done)
    ensures AddRegisterError(m, d, f) == RegisterErrorsOn(d, done + {f})
  {
  }

  /** The form is valid iff no field has a message. */
  lemma RegisterValidIffNoFieldError(d: MerchantData)
    ensures RegisterErrors(d) == map[] <==> forall f :: RegisterFieldError(d, f).None?
  {
    var e := RegisterErrors(d);
    if e == map[] {
      forall f ensures RegisterFieldError(d, f).None? {
        RegisterFieldListed(f);
        assert f !in e;
      }
    }
  }

  /** The statements of `validateForm` that assign the given field's message, as written there. */
  method CheckRegisterField(newErrors: map<RegisterField, string>, d: MerchantData, f: RegisterField)
    returns (r: map<RegisterField, string>)
    ensures r == AddRegisterError(newErrors, d, f)
  {
    r := newErrors;
    match f
    case Name =>
      TrimEmptyIffBlank(d.name);
      if Trim(d.name) == "" { r := r[Name := NameRequired]; }
    case Email =>
      TrimEmptyIffBlank(d.email);
      if Trim(d.email) == "" { r := r[Email := EmailRequired]; }
      else if !MatchesEmailPattern(d.email) { r := r[Email := EmailInvalid]; }
    case Phone =>
      TrimEmptyIffBlank(d.phone);
      if Trim(d.phone) == "" { r := r[Phone := PhoneRequired]; }
    case Password =>
      TrimEmptyIffBlank(d.password);
      if Trim(d.password) == "" { r := r[Password := PasswordRequired]; }
      else if |d.password| < 6 { r := r[Password := PasswordShort]; }
    case BusinessName =>
      TrimEmptyIffBlank(d.businessName);
      if Trim(d.businessName) == "" { r := r[BusinessName := BusinessNameRequired]; }
    case Cnpj =>
      TrimEmptyIffBlank(d.cnpj);
      if Trim(d.cnpj) == "" { r := r[Cnpj := CnpjRequired]; }
    case Address =>
      TrimEmptyIffBlank(d.address);
      if Trim(d.address) == "" { r := r[Address := AddressRequired]; }
    case Category =>
      if d.category == "" { r := r[Category := CategoryRequired]; }
    case Description =>
  }

  /** The body of `validateForm`: the checks in source order; `description` is passed over. */
  method CollectRegisterErrors(d: MerchantData) returns (newErrors: map<RegisterField, string>)
    ensures newErrors == RegisterErrors(d)
  {
    newErrors := map[];
    ghost var done: set<RegisterField> := {};
    ExtendRegisterErrors(d, done, Name, newErrors);
    newErrors := CheckRegisterField(newErrors, d, Name);
    done := done + {Name};
    ExtendRegisterErrors(d, done, Email, newErrors);
    newErrors := CheckRegisterField(newErrors, d, Email);
    done := done + {Email};
    ExtendRegisterErrors(d, done, Phone, newErrors);
    newErrors := CheckRegisterField(newErrors, d, Phone);
    done := done + {Phone};
    ExtendRegisterErrors(d, done, Password, newErrors);
    newErrors := CheckRegisterField(newErrors, d, Password);
    done := done + {Password};
    ExtendRegisterErrors(d, done, BusinessName, newErrors);
    newErrors := CheckRegisterField(newErrors, d, BusinessName);
    done := done + {BusinessName};
    ExtendRegisterErrors(d, done, Cnpj, newErrors);
    newErrors := CheckRegisterField(newErrors, d, Cnpj);
    done := done + {Cnpj};
    ExtendRegisterErrors(d, done, Address, newErrors);
    newErrors := CheckRegisterField(newErrors, d, Address);
    done := done + {Address};
    ExtendRegisterErrors(d, done, Category, newErrors);
    newErrors := CheckRegisterField(newErrors, d, Category);
    done := done + {Category};
    ExtendRegisterErrors(d, done, Description, newErrors);
    newErrors := CheckRegisterField(newErrors, d, Description);
    done := done + {Description};
    assert done == RegisterFields;
  }

  /** Password rules: blank after trimming is "required"; otherwise the untrimmed length must
      reach six, so padding spaces count towards it. */
  lemma PasswordRules(d: MerchantData)
    ensures Password !in RegisterErrors(d) <==> !IsBlank(d.password) && |d.password| >= 6
    ensures Password !in RegisterErrors(d.(password := "  abcd"))
  {
    assert Password in RegisterFields;
    assert !IsSpace("  abcd"[2]);
  }

  /** CNPJ and the other text fields are checked for presence only; description is optional. */
  lemma PresenceOnly(d: MerchantData)
    ensures Cnpj in RegisterErrors(d) <==> IsBlank(d.cnpj)
    ensures Name in RegisterErrors(d) <==> IsBlank(d.name)
    ensures Phone in RegisterErrors(d) <==> IsBlank(d.phone)
    ensures BusinessName in RegisterErrors(d) <==> IsBlank(d.businessName)
    ensures Address in RegisterErrors(d) <==> IsBlank(d.address)
    ensures Category in RegisterErrors(d) <==> d.category == ""
    ensures Description !in RegisterErrors(d)
  {
    assert Cnpj in RegisterFields && Name in RegisterFields && Phone in RegisterFields;
    assert BusinessName in RegisterFields && Address in RegisterFields && Category in RegisterFields;
  }

  /** A non-blank e-mail passes iff it contains a match of the pattern. */
  lemma EmailRule(d: MerchantData)
    ensures Email !in RegisterErrors(d) <==> !IsBlank(d.email) && MatchesEmailPattern(d.email)
  {
    assert Email in RegisterFields;
  }

  class MerchantRegisterPage {
    var formData: MerchantData
    var errors: map<RegisterField, string>

    constructor ()
      ensures formData == EmptyRegisterForm && errors == map[]
    {
      formData, errors := EmptyRegisterForm, map[];
    }

    /** `handleInputChange`: the named field takes the typed value and its message, if shown, is blanked. */
    method HandleInputChange(name: RegisterField, value: string)
      modifies this
      ensures formData == With(old(formData), name, value)
      ensures errors == ClearError(old(errors), name)
    {
      formData := With(formData, name, value);
      if name in errors && errors[name] != "" {
        errors := errors[name := ""];
      }
    }

    /** `validateForm`: replaces the error map and reports whether it is empty. */
    method ValidateForm() returns (ok: bool)
      modifies this
      ensures errors == RegisterErrors(formData) && formData == old(formData)
      ensures ok <==> errors == map[]
    {
      var newErrors := CollectRegisterErrors(formData);
      errors := newErrors;
      ok := |newErrors| == 0;
    }

    /** `handleSubmit`: an invalid form never reaches `register`; a valid one signs the merchant
        in (memory and storage) and goes to the dashboard. */
    method HandleSubmit(session: MerchantAuthProvider, now: nat, createdAt: string) returns (nav: Option<string>)
      modifies this, session
      ensures errors == RegisterErrors(formData) && formData == old(formData)
      ensures nav.Some? <==> forall f :: RegisterFieldError(formData, f).None?
      ensures nav.None? ==> session.merchant == old(session.merchant) && session.stored == old(session.stored)
                            && session.loading == old(session.loading)
      ensures nav.Some? ==> nav.value == "/merchant/dashboard"
                            && session.merchant == Some(NewMerchant(formData, now, createdAt))
                            && session.Mirrored() && !session.loading
    {
      var valid := ValidateForm();
      RegisterValidIffNoFieldError(formData);
      if !valid {
        return None;
      }
      var success := session.Register(formData, now, createdAt);
      nav := if success then Some("/merchant/dashboard") else None;
    }
  }
}
