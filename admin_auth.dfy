/** The admin session store (`AdminAuthProvider`). It has no `register`: the only admins it
    can ever hold are the canned one from `login` and whatever storage held when it mounted. */
module AdminAuth {
  import opened Wrappers

  datatype Role = Admin | SuperAdmin

  datatype AdminUser = AdminUser(id: string, name: string, email: string, role: Role, createdAt: string)

  const LoginEmail: string := "admin@nexprev.com"
  const LoginPassword: string := "admin123"

  const CannedAdmin: AdminUser := AdminUser("admin_1", "Administrador Geral", "admin@nexprev.com", SuperAdmin, "2024-01-01")

  class AdminAuthProvider {
    var admin: Option<AdminUser>
    var loading: bool
    /** The `nexprev_admin` entry of `localStorage`. */
    var stored: Option<AdminUser>
    /** The entry storage held when the provider mounted. */
    ghost var mountedEntry: Option<AdminUser>

    /** An admin value the store may hold: none, the canned admin, or the entry found at mount. */
    ghost predicate Known(a: Option<AdminUser>)
      reads this
    {
      a == None || a == Some(CannedAdmin) || a == mountedEntry
    }

    ghost predicate Valid()
      reads this
    {
      Known(admin) && Known(stored)
    }

    constructor (saved: Option<AdminUser>)
      ensures admin == None && loading && stored == saved
      ensures mountedEntry == saved && Valid()
    {
      admin, loading, stored := None, true, saved;
      mountedEntry := saved;
    }

    /** `isAuthenticated: !!admin` */
    predicate IsAuthenticated()
      reads this
    {
      admin.Some?
    }

    predicate Mirrored()
      reads this
    {
      stored == admin
    }

    method Restore()
      requires Valid()
      modifies this
      ensures Valid() && mountedEntry == old(mountedEntry)
      ensures stored == old(stored) && !loading
      ensures admin == if old(stored).Some? then old(stored) else old(admin)
      ensures old(admin) == None || old(Mirrored()) ==> Mirrored()
    {
      if stored.Some? {
        admin := stored;
      }
      loading := false;
    }

    /** `login`: only the hard-coded pair is accepted; it installs the super admin. */
    method Login(email: string, password: string) returns (ok: bool)
      requires Valid()
      modifies this
      ensures Valid() && mountedEntry == old(mountedEntry)
      ensures ok <==> email == LoginEmail && password == LoginPassword
      ensures ok ==> admin == Some(CannedAdmin) && Mirrored() && admin.value.role == SuperAdmin
      ensures !ok ==> admin == old(admin) && stored == old(stored)
      ensures !loading
    {
      loading := true;
      if email == LoginEmail && password == LoginPassword {
        var mockAdmin := CannedAdmin;
        admin := Some(mockAdmin);
        stored := Some(mockAdmin);
        loading := false;
        return true;
      }
      loading := false;
      return false;
    }

    method Logout()
      requires Valid()
      modifies this
      ensures Valid() && mountedEntry == old(mountedEntry)
      ensures admin == None && stored == None && Mirrored()
      ensures loading == old(loading)
    {
      admin := None;
      stored := None;
    }
  }

  /** One call a page can make on the store. */
  datatype Op = Restore | Login(email: string, password: string) | Logout

  /** Any sequence of restores, logins and logouts, in any order, on a freshly mounted store
      leaves it holding no admin, the canned admin, or the entry found at mount, and storage
      holding one of the same three. */
  method Session(saved: Option<AdminUser>, ops: seq<Op>)
    returns (held: Option<AdminUser>, kept: Option<AdminUser>)
    ensures held == None || held == Some(CannedAdmin) || held == saved
    ensures kept == None || kept == Some(CannedAdmin) || kept == saved
  {
    var p := new AdminAuthProvider(saved);
    var i := 0;
    while i < |ops|
      invariant 0 <= i <= |ops|
      invariant p.Valid() && p.mountedEntry == saved
    {
      match ops[i] {
        case Restore => p.Restore();
        case Login(email, password) => var _ := p.Login(email, password);
        case Logout => p.Logout();
      }
      i := i + 1;
    }
    held, kept := p.admin, p.stored;
  }
}
