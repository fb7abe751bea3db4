/** The merchant session store (`MerchantAuthProvider`): the current merchant, `loading`,
    and the `nexprev_merchant` entry of `localStorage`. */
module MerchantAuth {
  import opened Wrappers
  import opened Text
  import opened Types

  /** What the merchant register page hands to `register`: its whole form. */
  datatype MerchantData = MerchantData(
    name: string,
    email: string,
    phone: string,
    password: string,
    businessName: string,
    cnpj: string,
    address: string,
    category: string,
    description: string)

  const LoginEmail: string := "teste1@teste.com"
  const LoginPassword: string := "123"

  /** The record a successful login installs; its email is not the one typed at login. */
  const CannedMerchant: Merchant := Merchant(
    "merchant_1", "João Silva", "lojista@teste.com", "(11) 99999-9999", "Loja do João",
    "12.345.678/0001-90", "Rua das Flores, 123 - São Paulo/SP", "Varejo",
    "Loja especializada em produtos diversos", Some(""), true, "2024-01-01")

  /** The merchant `register` builds: input fields copied, active, id `merchant_<clock>`.
      The form has no `logoUrl`, so the new merchant has none. */
  function NewMerchant(data: MerchantData, now: nat, createdAt: string): (m: Merchant)
    ensures m.name == data.name && m.email == data.email && m.phone == data.phone
    ensures m.businessName == data.businessName && m.cnpj == data.cnpj
    ensures m.address == data.address && m.category == data.category
    ensures m.description == data.description && m.logoUrl == None
    ensures m.isActive && m.createdAt == createdAt
    ensures m.id == "merchant_" + DecimalString(now)
  {
    Merchant("merchant_" + DecimalString(now), data.name, data.email, data.phone,
             data.businessName, data.cnpj, data.address, data.category, data.description,
             None, true, createdAt)
  }

  /** Registrations at different clock readings get different ids. */
  lemma DistinctClocksDistinctIds(d1: MerchantData, d2: MerchantData, now1: nat, now2: nat, createdAt: string)
    requires now1 != now2
    ensures NewMerchant(d1, now1, createdAt).id != NewMerchant(d2, now2, createdAt).id
  {
    var p := "merchant_";
    if p + DecimalString(now1) == p + DecimalString(now2) {
      assert (p + DecimalString(now1))[|p|..] == DecimalString(now1);
      assert (p + DecimalString(now2))[|p|..] == DecimalString(now2);
      DecimalStringInjective(now1, now2);
    }
  }

  /** The password typed at registration is not kept in the merchant record. */
  lemma PasswordNotStored(data: MerchantData, pw: string, now: nat, createdAt: string)
    ensures NewMerchant(data.(password := pw), now, createdAt) == NewMerchant(data, now, createdAt)
  {
  }

  class MerchantAuthProvider {
    var merchant: Option<Merchant>
    var loading: bool
    /** The `nexprev_merchant` entry of `localStorage`. */
    var stored: Option<Merchant>

    constructor (saved: Option<Merchant>)
      ensures merchant == None && loading && stored == saved
    {
      merchant, loading, stored := None, true, saved;
    }

    /** `isAuthenticated: !!merchant` */
    predicate IsAuthenticated()
      reads this
    {
      merchant.Some?
    }

    predicate Mirrored()
      reads this
    {
      stored == merchant
    }

    /** The mount effect: a saved merchant is adopted; `loading` ends false. */
    method Restore()
      modifies this
      ensures stored == old(stored) && !loading
      ensures merchant == if old(stored).Some? then old(stored) else old(merchant)
      ensures old(merchant) == None || old(Mirrored()) ==> Mirrored()
    {
      if stored.Some? {
        merchant := stored;
      }
      loading := false;
    }

    /** `login`: only the hard-coded pair is accepted, and it installs the canned merchant. */
    method Login(email: string, password: string) returns (ok: bool)
      modifies this
      ensures ok <==> email == LoginEmail && password == LoginPassword
      ensures ok ==> merchant == Some(CannedMerchant) && Mirrored()
      ensures ok ==> merchant.value.email != email
      ensures !ok ==> merchant == old(merchant) && stored == old(stored)
      ensures !loading
    {
      loading := true;
      if email == LoginEmail && password == LoginPassword {
        var mockMerchant := CannedMerchant;
        merchant := Some(mockMerchant);
        stored := Some(mockMerchant);
        loading := false;
        return true;
      }
      loading := false;
      return false;
    }

    /** `register`: no field checks; always succeeds. */
    method Register(data: MerchantData, now: nat, createdAt: string) returns (ok: bool)
      modifies this
      ensures ok
      ensures merchant == Some(NewMerchant(data, now, createdAt)) && Mirrored()
      ensures !loading
    {
      loading := true;
      var newMerchant := NewMerchant(data, now, createdAt);
      merchant := Some(newMerchant);
      stored := Some(newMerchant);
      loading := false;
      return true;
    }

    /** `logout`: clears memory and storage; a second call changes nothing. */
    method Logout()
      modifies this
      ensures merchant == None && stored == None && Mirrored()
      ensures loading == old(loading)
    {
      merchant := None;
      stored := None;
    }
  }

  /** A page reload over mirrored storage brings back the same merchant. */
  method Reload(p: MerchantAuthProvider) returns (restored: Option<Merchant>, stillLoading: bool)
    requires p.Mirrored()
    ensures restored == p.merchant && !stillLoading
  {
    var q := new MerchantAuthProvider(p.stored);
    q.Restore();
    restored, stillLoading := q.merchant, q.loading;
  }
}
