/** The customer session store (`AuthProvider`): the current user, the `loading` flag and
    the `nexprev_user` entry of `localStorage`, which every operation keeps equal to the user. */
module CustomerAuth {
  import opened Wrappers
  import opened Text

  datatype User = User(
    id: string,
    name: string,
    email: string,
    phone: string,
    cashbackBalance: real,
    totalEarned: real,
    referralCode: string)

  /** The registration form as the register page hands it to `register`. */
  datatype UserData = UserData(
    name: string,
    email: string,
    phone: string,
    password: string,
    confirmPassword: string,
    referralCode: string)

  const LoginEmail: string := "teste@teste.com"
  const LoginPassword: string := "1"

  /** The record a successful login installs. */
  const CannedUser: User := User("1", "João Silva", "teste@teste.com", "(11) 99999-9999", 245.80, 1234.56, "JOAO2025")

  /** `generateReferralCode`: the name without whitespace, upper-cased, then the current year. */
  function GenerateReferralCode(name: string, year: nat): (code: string)
    ensures |code| == |StripSpaces(name)| + |DecimalString(year)|
    ensures forall i :: 0 <= i < |StripSpaces(name)| ==> code[i] == UpperChar(StripSpaces(name)[i])
    ensures forall i :: 0 <= i < |code| ==> !IsSpace(code[i])
    ensures code[|StripSpaces(name)|..] == DecimalString(year)
  {
    Upper(StripSpaces(name)) + DecimalString(year)
  }

  /** A lower-case letter `toUpperCase` maps: ASCII or Latin-1. */
  predicate IsMappedLower(c: char) {
    'a' <= c <= 'z' || ('\U{00E0}' <= c <= '\U{00FE}' && c != '\U{00F7}')
  }

  /** No mapped lower-case letter survives in the name part of the code, and the year part
      is all digits. */
  lemma ReferralCodeUpperCase(name: string, year: nat)
    ensures forall i :: 0 <= i < |StripSpaces(name)| ==> !IsMappedLower(GenerateReferralCode(name, year)[i])
    ensures forall i :: |StripSpaces(name)| <= i < |GenerateReferralCode(name, year)| ==>
      '0' <= GenerateReferralCode(name, year)[i] <= '9'
  {
    var code := GenerateReferralCode(name, year);
    var n := |StripSpaces(name)|;
    forall i | n <= i < |code| ensures '0' <= code[i] <= '9' {
      assert code[i] == code[n..][i - n] == DecimalString(year)[i - n];
    }
  }

  /** Removing whitespace distributes over concatenation. */
  lemma {:induction false} StripSpacesAppend(a: string, b: string)
    ensures StripSpaces(a + b) == StripSpaces(a) + StripSpaces(b)
  {
    if a != [] {
      StripSpacesAppend(a[1..], b);
      assert (a + b)[1..] == a[1..] + b;
    } else {
      assert a + b == b;
    }
  }

  /** Whitespace anywhere in the name does not change the referral code. */
  lemma ReferralCodeIgnoresWhitespace(a: string, ws: string, b: string, year: nat)
    requires IsBlank(ws)
    ensures GenerateReferralCode(a + ws + b, year) == GenerateReferralCode(a + b, year)
  {
    StripSpacesAppend(a + ws, b);
    StripSpacesAppend(a, ws);
    StripSpacesAppend(a, b);
    StripBlank(ws);
  }

  lemma {:induction false} StripBlank(ws: string)
    requires IsBlank(ws)
    ensures StripSpaces(ws) == []
  {
    if ws != [] {
      assert IsSpace(ws[0]);
      StripBlank(ws[1..]);
    }
  }

  /** The code for "João Silva" registered in 2025. */
  lemma ReferralCodeExample()
    ensures GenerateReferralCode("João Silva", 2025) == "JOÃOSILVA2025"
  {
    StripExample();
    UpperExample();
    YearExample();
  }

  lemma StripExample()
    ensures StripSpaces("João Silva") == "JoãoSilva"
  {
    var first, rest := "João", " Silva";
    StripJoao();
    StripSilva();
    StripSpacesAppend(first, rest);
    assert first + rest == "João Silva";
    assert first + rest[1..] == "JoãoSilva";
  }

  lemma StripJoao()
    ensures StripSpaces("João") == "João"
  {
    var s := "João";
    assert !IsSpace(s[0]) && !IsSpace(s[1]) && !IsSpace(s[2]) && !IsSpace(s[3]);
    StripKeeps(s);
  }

  lemma StripSilva()
    ensures StripSpaces(" Silva") == " Silva"[1..]
  {
    var s := "Silva";
    assert !IsSpace(s[0]) && !IsSpace(s[1]) && !IsSpace(s[2]) && !IsSpace(s[3]) && !IsSpace(s[4]);
    StripKeeps(s);
    assert " Silva"[1..] == s;
  }

  lemma {:induction false} StripKeeps(s: string)
    requires forall i :: 0 <= i < |s| ==> !IsSpace(s[i])
    ensures StripSpaces(s) == s
  {
    if s != [] {
      StripKeeps(s[1..]);
      assert [s[0]] + s[1..] == s;
    }
  }

  lemma UpperExample()
    ensures Upper("JoãoSilva") == "JOÃOSILVA"
  {
    var up := Upper("JoãoSilva");
    assert up[0] == 'J' && up[1] == 'O' && up[2] == 'Ã' && up[3] == 'O' && up[4] == 'S';
    assert up[5] == 'I' && up[6] == 'L' && up[7] == 'V' && up[8] == 'A';
  }

  lemma YearExample()
    ensures DecimalString(2025) == "2025"
  {
    assert DecimalString(2) == "2";
    assert DecimalString(20) == "20";
    assert DecimalString(202) == "202";
  }

  /** The user `register` creates from the form data, the clock and the year. */
  function NewUser(userData: UserData, now: nat, year: nat): (u: User)
    ensures u.name == userData.name && u.email == userData.email && u.phone == userData.phone
    ensures u.cashbackBalance == 0.0 && u.totalEarned == 0.0
    ensures u.referralCode == GenerateReferralCode(userData.name, year)
    ensures u.id == DecimalString(now)
  {
    User(DecimalString(now), userData.name, userData.email, userData.phone, 0.0, 0.0,
         GenerateReferralCode(userData.name, year))
  }

  /** Registrations at different clock readings get different ids. */
  lemma DistinctClocksDistinctIds(d1: UserData, d2: UserData, now1: nat, now2: nat, year: nat)
    requires now1 != now2
    ensures NewUser(d1, now1, year).id != NewUser(d2, now2, year).id
  {
    if DecimalString(now1) == DecimalString(now2) {
      DecimalStringInjective(now1, now2);
    }
  }

  /** The referral code typed into the form never reaches the stored user. */
  lemma TypedReferralCodeIgnored(d: UserData, code: string, now: nat, year: nat)
    ensures NewUser(d.(referralCode := code), now, year) == NewUser(d, now, year)
  {
  }

  class AuthProvider {
    var user: Option<User>
    var loading: bool
    /** The `nexprev_user` entry of `localStorage`. */
    var stored: Option<User>

    /** The provider as mounted: no user, `loading` true, storage as the browser left it. */
    constructor (saved: Option<User>)
      ensures user == None && loading && stored == saved
    {
      user, loading, stored := None, true, saved;
    }

    /** `isAuthenticated: !!user` */
    predicate IsAuthenticated()
      reads this
    {
      user.Some?
    }

    /** Storage holds exactly the in-memory user. */
    predicate Mirrored()
      reads this
    {
      stored == user
    }

    /** The mount effect: a saved entry becomes the user; `loading` ends false either way. */
    method Restore()
      modifies this
      ensures stored == old(stored) && !loading
      ensures user == if old(stored).Some? then old(stored) else old(user)
      ensures old(user) == None || old(Mirrored()) ==> Mirrored()
    {
      if stored.Some? {
        user := stored;
      }
      loading := false;
    }

    /** `login`: only the one hard-coded credential pair is accepted. */
    method Login(email: string, password: string) returns (ok: bool)
      modifies this
      ensures ok <==> email == LoginEmail && password == LoginPassword
      ensures ok ==> user == Some(CannedUser) && Mirrored()
      ensures !ok ==> user == old(user) && stored == old(stored)
      ensures !loading
    {
      loading := true;
      if email == LoginEmail && password == LoginPassword {
        var mockUser := CannedUser;
        user := Some(mockUser);
        stored := Some(mockUser);
        loading := false;
        return true;
      }
      loading := false;
      return false;
    }

    /** `register`: always succeeds and makes the new user current and stored. */
    method Register(userData: UserData, now: nat, year: nat) returns (ok: bool)
      modifies this
      ensures ok
      ensures user == Some(NewUser(userData, now, year)) && Mirrored()
      ensures !loading
    {
      loading := true;
      var newUser := NewUser(userData, now, year);
      user := Some(newUser);
      stored := Some(newUser);
      loading := false;
      return true;
    }

    /** `logout`: clears memory and storage, leaves `loading` alone; the result does not
        depend on the state before, so a second logout changes nothing. */
    method Logout()
      modifies this
      ensures user == None && stored == None && Mirrored()
      ensures loading == old(loading)
    {
      user := None;
      stored := None;
    }
  }

  /** A page reload: a new provider mounts over the same storage and restores.
      When storage mirrors the user, the reload brings back the same user. */
  method Reload(p: AuthProvider) returns (restored: Option<User>, stillLoading: bool)
    requires p.Mirrored()
    ensures restored == p.user && !stillLoading
  {
    var q := new AuthProvider(p.stored);
    q.Restore();
    restored, stillLoading := q.user, q.loading;
  }
}
