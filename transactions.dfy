/** `TransactionsPage`: the customer's purchase history with a search box, three filter
    buttons, a status label per card and a heading with the number of cards shown. */
module Transactions {
  import opened Text
  import opened Seqs

  datatype Transaction = Transaction(
    id: nat,
    store: string,
    product: string,
    date: string,
    originalValue: real,
    discount: real,
    status: string,
    logo: string)

  /** Store or product contains the term, ignoring case. */
  predicate MatchesSearch(t: Transaction, searchTerm: string) {
    IncludesIgnoringCase(t.store, searchTerm) || IncludesIgnoringCase(t.product, searchTerm)
  }

  /** The callback of `transactions.filter`, with its early returns. */
  predicate KeepTransaction(t: Transaction, searchTerm: string, selectedFilter: string) {
    var matchesSearch := MatchesSearch(t, searchTerm);
    if selectedFilter == "all" then matchesSearch
    else if selectedFilter == "completed" then matchesSearch && t.status == "concluída"
    else if selectedFilter == "pending" then matchesSearch && t.status == "pendente"
    else matchesSearch
  }

  /** `filteredTransactions`: the transactions, in their order, that the callback keeps. */
  function FilteredTransactions(ts: seq<Transaction>, searchTerm: string, selectedFilter: string): (r: seq<Transaction>)
    ensures IsSubsequence(r, ts)
    ensures forall t :: t in r <==>
              (t in ts && MatchesSearch(t, searchTerm)
               && (selectedFilter == "completed" ==> t.status == "concluída")
               && (selectedFilter == "pending" ==> t.status == "pendente"))
  {
    var keep := (t: Transaction) => KeepTransaction(t, searchTerm, selectedFilter);
    FilterIsSubsequence(ts, keep);
    forall t ensures t in Filter(ts, keep) <==> t in ts && keep(t) {
      FilterMembership(ts, keep, t);
    }
    Filter(ts, keep)
  }

  /** "all" and any key other than "completed" and "pending" both give exactly the search matches. */
  lemma OtherKeysAreAll(ts: seq<Transaction>, searchTerm: string, selectedFilter: string)
    requires selectedFilter != "completed" && selectedFilter != "pending"
    ensures FilteredTransactions(ts, searchTerm, selectedFilter) == Filter(ts, (t: Transaction) => MatchesSearch(t, searchTerm))
    ensures FilteredTransactions(ts, searchTerm, selectedFilter) == FilteredTransactions(ts, searchTerm, "all")
  {
    FilterAgree(ts, (t: Transaction) => KeepTransaction(t, searchTerm, selectedFilter),
                (t: Transaction) => MatchesSearch(t, searchTerm));
    FilterAgree(ts, (t: Transaction) => KeepTransaction(t, searchTerm, "all"),
                (t: Transaction) => MatchesSearch(t, searchTerm));
  }

  /** "Concluídas" and "Pendentes" never share a card, and together show no more than "Todas". */
  lemma CompletedPendingDisjoint(ts: seq<Transaction>, searchTerm: string)
    ensures forall t :: !(t in FilteredTransactions(ts, searchTerm, "completed")
                          && t in FilteredTransactions(ts, searchTerm, "pending"))
    ensures |FilteredTransactions(ts, searchTerm, "completed")| + |FilteredTransactions(ts, searchTerm, "pending")|
            <= |FilteredTransactions(ts, searchTerm, "all")|
  {
    var completed := (t: Transaction) => KeepTransaction(t, searchTerm, "completed");
    var pending := (t: Transaction) => KeepTransaction(t, searchTerm, "pending");
    var all := (t: Transaction) => KeepTransaction(t, searchTerm, "all");
    var either := (t: Transaction) => completed(t) || pending(t);
    FilterSplit(ts, completed, pending, either);
    FilterMonotone(ts, either, all);
  }

  /** `getStatusText`: the three known statuses get a capital letter; anything else is shown as is. */
  function StatusText(status: string): (text: string)
    ensures status == "concluída" ==> text == "Concluída"
    ensures status == "pendente" ==> text == "Pendente"
    ensures status == "cancelada" ==> text == "Cancelada"
    ensures status != "concluída" && status != "pendente" && status != "cancelada" ==> text == status
  {
    match status
    case "concluída" => "Concluída"
    case "pendente" => "Pendente"
    case "cancelada" => "Cancelada"
    case _ => status
  }

  /** A label is already in display form: applying the mapping again changes nothing. */
  lemma StatusTextIdempotent(status: string)
    ensures StatusText(StatusText(status)) == StatusText(status)
  {
    assert "Concluída" != "concluída" && "Pendente" != "pendente" && "Cancelada" != "cancelada";
  }

  /** The heading as the page renders it: the count, " transação", then "ões" when the count is not 1. */
  function HeadingAsWritten(count: nat): string {
    DecimalString(count) + " transação" + (if count != 1 then "ões" else "")
  }

  /** The count is followed by " transação", and "ões" closes the heading exactly when the count is not 1. */
  lemma AsWrittenSuffix(count: nat)
    ensures HeadingAsWritten(count)[..|DecimalString(count)| + 10] == DecimalString(count) + " transação"
    ensures HeadingAsWritten(count)[|HeadingAsWritten(count)| - 3..] == "ões" <==> count != 1
  {
    var d := DecimalString(count);
    assert HeadingAsWritten(count)[..|d| + 10] == d + " transação";
    if count == 1 {
      assert HeadingAsWritten(count)[|HeadingAsWritten(count)| - 3..] == "ção";
    }
  }

  /** The plural is glued onto the singular, so two cards read "2 transaçãoões". */
  lemma HeadingAsWrittenMisspellsPlural()
    ensures HeadingAsWritten(2) == "2 transaçãoões"
    ensures HeadingAsWritten(2) != Heading(2)
  {
    assert DecimalString(2) == "2";
    assert |HeadingAsWritten(2)| != |Heading(2)|;
  }

  /** The heading with Portuguese number agreement: "1 transação", otherwise "n transações". */
  function Heading(count: nat): (h: string)
    ensures count == 1 ==> h == DecimalString(count) + " transação"
    ensures count != 1 ==> h == DecimalString(count) + " transações"
  {
    DecimalString(count) + (if count == 1 then " transação" else " transações")
  }

  /** The corrected heading agrees with the page for one card and differs for every other count. */
  lemma HeadingsAgreeOnlyOnOne(count: nat)
    ensures Heading(count) == HeadingAsWritten(count) <==> count == 1
  {
    if count != 1 {
      assert |Heading(count)| != |HeadingAsWritten(count)|;
    }
  }
}
