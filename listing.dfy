/** The status filter shared by the merchant list pages: a select whose options are
    "all", "active" and "inactive", read against each record's `isActive` flag. */
module Listing {
  /** `filterStatus === 'all' || (filterStatus === 'active' && isActive) || (filterStatus === 'inactive' && !isActive)` */
  predicate StatusAdmits(status: string, isActive: bool) {
    status == "all" || (status == "active" && isActive) || (status == "inactive" && !isActive)
  }

  /** "active" and "inactive" split what "all" admits, and any other value admits nothing. */
  lemma StatusSplit(isActive: bool, status: string)
    ensures StatusAdmits("all", isActive)
    ensures StatusAdmits("active", isActive) != StatusAdmits("inactive", isActive)
    ensures StatusAdmits("active", isActive) <==> isActive
    ensures status != "all" && status != "active" && status != "inactive" ==> !StatusAdmits(status, isActive)
  {
  }
}
