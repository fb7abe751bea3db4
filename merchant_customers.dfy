/** `MerchantCustomersPage`: the customer list with search and status filters, and its counters. */
module MerchantCustomers {
  import opened Wrappers
  import opened Text
  import opened Seqs
  import opened Types
  import opened Listing

  /** The four customers the page holds in state. */
  const MockCustomers: seq<Customer> := [
    Customer("1", "Maria Silva", "maria@email.com", "(11) 99999-9999", 1250.50, "2024-01-20", 125.05, true),
    Customer("2", "João Santos", "joao@email.com", "(11) 88888-8888", 890.30, "2024-01-18", 89.03, true),
    Customer("3", "Ana Costa", "ana@email.com", "(11) 77777-7777", 2100.75, "2024-01-15", 210.08, false),
    Customer("4", "Pedro Oliveira", "pedro@email.com", "(11) 66666-6666", 450.20, "2024-01-10", 45.02, true)
  ]

  /** Name or email contains the term ignoring case, or the phone contains it as typed. */
  predicate MatchesSearch(c: Customer, searchTerm: string) {
    IncludesIgnoringCase(c.name, searchTerm) || IncludesIgnoringCase(c.email, searchTerm)
    || Includes(c.phone, searchTerm)
  }

  /** The predicate passed to `customers.filter`. */
  function KeepCustomer(searchTerm: string, filterStatus: string): Customer -> bool {
    c => MatchesSearch(c, searchTerm) && StatusAdmits(filterStatus, c.isActive)
  }

  /** `filteredCustomers`: the customers, in their order, that match search and status. */
  function FilteredCustomers(customers: seq<Customer>, searchTerm: string, filterStatus: string): (r: seq<Customer>)
    ensures IsSubsequence(r, customers)
    ensures forall c :: c in r <==> c in customers && MatchesSearch(c, searchTerm) && StatusAdmits(filterStatus, c.isActive)
  {
    var keep := KeepCustomer(searchTerm, filterStatus);
    FilterIsSubsequence(customers, keep);
    forall c ensures c in Filter(customers, keep) <==> c in customers && keep(c) {
      FilterMembership(customers, keep, c);
    }
    Filter(customers, keep)
  }

  /** An empty search with "all" keeps every customer, in order. */
  lemma NoFilterKeepsAll(customers: seq<Customer>)
    ensures FilteredCustomers(customers, "", "all") == customers
  {
    forall i | 0 <= i < |customers| ensures KeepCustomer("", "all")(customers[i]) {
      EmptyIsIncluded(customers[i].name);
    }
    FilterKeepsAll(customers, KeepCustomer("", "all"));
  }

  /** For a given search, "active" and "inactive" split the "all" result, by `isActive`. */
  lemma ActiveInactivePartition(customers: seq<Customer>, searchTerm: string)
    ensures |FilteredCustomers(customers, searchTerm, "active")| + |FilteredCustomers(customers, searchTerm, "inactive")|
            == |FilteredCustomers(customers, searchTerm, "all")|
    ensures forall c :: c in FilteredCustomers(customers, searchTerm, "active") ==> c.isActive
    ensures forall c :: c in FilteredCustomers(customers, searchTerm, "inactive") ==> !c.isActive
  {
    FilterSplit(customers, KeepCustomer(searchTerm, "active"), KeepCustomer(searchTerm, "inactive"),
                KeepCustomer(searchTerm, "all"));
  }

  /** The phone is matched as typed: a term found in the phone matches even when name and
      email do not contain it. */
  lemma PhoneMatchesAsTyped(c: Customer, searchTerm: string)
    requires Includes(c.phone, searchTerm)
    ensures KeepCustomer(searchTerm, "all")(c)
  {
  }

  /** "Clientes Ativos" */
  function ActiveCount(customers: seq<Customer>): nat {
    |Filter(customers, (c: Customer) => c.isActive)|
  }

  /** The active counter never exceeds "Total de Clientes". */
  lemma ActiveAtMostTotal(customers: seq<Customer>)
    ensures ActiveCount(customers) <= |customers|
  {
    FilterIsSubsequence(customers, (c: Customer) => c.isActive);
  }

  /** On the mock data: three active customers out of four. */
  lemma MockActiveCount()
    ensures ActiveCount(MockCustomers) == 3
  {
    var p := (c: Customer) => c.isActive;
    var m := MockCustomers;
    assert Filter(m[3..], p) == [m[3]] by { assert m[3..][1..] == []; }
    assert Filter(m[2..], p) == [m[3]] by { assert m[2..][1..] == m[3..]; }
    assert Filter(m[1..], p) == [m[1], m[3]] by { assert m[1..][1..] == m[2..]; }
  }
}
