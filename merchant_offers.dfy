/** `MerchantOffersPage`: the offer list with its search and status filters, the date-aware
    status badge, the four counters and the discount shown on each card.
    `new Date(s)` is the parameter `toDate` (None for an invalid date) and the page's
    `new Date()` is `now`. */
module MerchantOffers {
  import opened Wrappers
  import opened Text
  import opened Seqs
  import opened Types
  import opened Listing

  /** The three offers the page holds in state. */
  const MockOffers: seq<MerchantOffer> := [
    MerchantOffer("1", "merchant_1", None, "Desconto de 20% em Eletrônicos",
      "Aproveite nosso desconto especial em todos os produtos da categoria eletrônicos",
      Some(20.0), None, Some(100.0), Some(200.0), "2024-01-01", "2024-01-31", true,
      Some("https://via.placeholder.com/150"), "2024-01-01"),
    MerchantOffer("2", "merchant_1", None, "R$ 50 de desconto",
      "Desconto fixo de R$ 50 em compras acima de R$ 200",
      None, Some(50.0), Some(200.0), None, "2024-01-15", "2024-02-15", true,
      Some("https://via.placeholder.com/150"), "2024-01-15"),
    MerchantOffer("3", "merchant_1", None, "Promoção de Verão",
      "Oferta especial para o verão com 15% de desconto",
      Some(15.0), None, None, None, "2023-12-01", "2023-12-31", false,
      Some("https://via.placeholder.com/150"), "2023-12-01")
  ]

  /** Title or description contains the term, ignoring case. */
  predicate MatchesSearch(o: MerchantOffer, searchTerm: string) {
    IncludesIgnoringCase(o.title, searchTerm) || IncludesIgnoringCase(o.description, searchTerm)
  }

  /** The predicate passed to `offers.filter`. */
  function KeepOffer(searchTerm: string, filterStatus: string): MerchantOffer -> bool {
    o => MatchesSearch(o, searchTerm) && StatusAdmits(filterStatus, o.isActive)
  }

  /** `filteredOffers`: the offers, in their order, that match both the search and the status. */
  function FilteredOffers(offers: seq<MerchantOffer>, searchTerm: string, filterStatus: string): (r: seq<MerchantOffer>)
    ensures IsSubsequence(r, offers)
    ensures forall o :: o in r <==> o in offers && MatchesSearch(o, searchTerm) && StatusAdmits(filterStatus, o.isActive)
  {
    var keep := KeepOffer(searchTerm, filterStatus);
    FilterIsSubsequence(offers, keep);
    forall o ensures o in Filter(offers, keep) <==> o in offers && keep(o) {
      FilterMembership(offers, keep, o);
    }
    Filter(offers, keep)
  }

  /** An empty search with "all" keeps every offer, in order. */
  lemma NoFilterKeepsAll(offers: seq<MerchantOffer>)
    ensures FilteredOffers(offers, "", "all") == offers
  {
    forall i | 0 <= i < |offers| ensures KeepOffer("", "all")(offers[i]) {
      EmptyIsIncluded(offers[i].title);
    }
    FilterKeepsAll(offers, KeepOffer("", "all"));
  }

  /** For a given search, "active" and "inactive" split the "all" result between them. */
  lemma ActiveInactivePartition(offers: seq<MerchantOffer>, searchTerm: string)
    ensures |FilteredOffers(offers, searchTerm, "active")| + |FilteredOffers(offers, searchTerm, "inactive")|
            == |FilteredOffers(offers, searchTerm, "all")|
    ensures forall o :: o in FilteredOffers(offers, searchTerm, "all") <==>
              o in FilteredOffers(offers, searchTerm, "active") || o in FilteredOffers(offers, searchTerm, "inactive")
  {
    FilterSplit(offers, KeepOffer(searchTerm, "active"), KeepOffer(searchTerm, "inactive"), KeepOffer(searchTerm, "all"));
  }

  /** A status value other than the three options selects nothing. */
  lemma UnknownStatusSelectsNothing(offers: seq<MerchantOffer>, searchTerm: string, filterStatus: string)
    requires filterStatus != "all" && filterStatus != "active" && filterStatus != "inactive"
    ensures FilteredOffers(offers, searchTerm, filterStatus) == []
  {
  }

  /** `isOfferExpired`: the end date lies before now; an invalid date never expires. */
  predicate IsOfferExpired(validUntil: string, now: int, toDate: string -> Option<int>) {
    toDate(validUntil).Some? && toDate(validUntil).value < now
  }

  /** `isOfferActive`: flagged active and now within [validFrom, validUntil]; an invalid date
      makes either comparison false. */
  predicate IsOfferActive(o: MerchantOffer, now: int, toDate: string -> Option<int>) {
    o.isActive && toDate(o.validFrom).Some? && toDate(o.validUntil).Some?
    && toDate(o.validFrom).value <= now <= toDate(o.validUntil).value
  }

  /** An offer on display is never also expired. */
  lemma ActiveIsNotExpired(o: MerchantOffer, now: int, toDate: string -> Option<int>)
    ensures IsOfferActive(o, now, toDate) ==> !IsOfferExpired(o.validUntil, now, toDate)
  {
  }

  datatype Badge = Ativa | Expirada | Inativa

  /** The label on each card: Ativa if active, else Expirada if expired, else Inativa. */
  function BadgeOf(o: MerchantOffer, now: int, toDate: string -> Option<int>): (b: Badge)
    ensures b == Ativa <==> IsOfferActive(o, now, toDate)
    ensures b == Inativa <==> !IsOfferActive(o, now, toDate) && !IsOfferExpired(o.validUntil, now, toDate)
  {
    if IsOfferActive(o, now, toDate) then Ativa
    else if IsOfferExpired(o.validUntil, now, toDate) then Expirada
    else Inativa
  }

  /** Because an active offer is never expired, "Expirada" marks exactly the expired offers. */
  lemma ExpiredBadgeIffExpired(o: MerchantOffer, now: int, toDate: string -> Option<int>)
    ensures BadgeOf(o, now, toDate) == Expirada <==> IsOfferExpired(o.validUntil, now, toDate)
  {
    ActiveIsNotExpired(o, now, toDate);
  }

  /** "Ofertas Ativas": date-aware. */
  function ActiveCount(offers: seq<MerchantOffer>, now: int, toDate: string -> Option<int>): nat {
    |Filter(offers, (o: MerchantOffer) => IsOfferActive(o, now, toDate))|
  }

  /** "Ofertas Expiradas" */
  function ExpiredCount(offers: seq<MerchantOffer>, now: int, toDate: string -> Option<int>): nat {
    |Filter(offers, (o: MerchantOffer) => IsOfferExpired(o.validUntil, now, toDate))|
  }

  /** "Ofertas Inativas": only the flag. */
  function InactiveCount(offers: seq<MerchantOffer>): nat {
    |Filter(offers, (o: MerchantOffer) => !o.isActive)|
  }

  /** The counters: flagged-inactive plus flagged-active is the total; the active and
      expired counters never overlap, and active offers are among the flagged ones. */
  lemma Counters(offers: seq<MerchantOffer>, now: int, toDate: string -> Option<int>)
    ensures InactiveCount(offers) + |Filter(offers, (o: MerchantOffer) => o.isActive)| == |offers|
    ensures ActiveCount(offers, now, toDate) + ExpiredCount(offers, now, toDate) <= |offers|
    ensures ActiveCount(offers, now, toDate) <= |Filter(offers, (o: MerchantOffer) => o.isActive)|
  {
    var flagged := (o: MerchantOffer) => o.isActive;
    var unflagged := (o: MerchantOffer) => !o.isActive;
    var active := (o: MerchantOffer) => IsOfferActive(o, now, toDate);
    var expired := (o: MerchantOffer) => IsOfferExpired(o.validUntil, now, toDate);
    FilterSplit(offers, unflagged, flagged, (o: MerchantOffer) => true);
    FilterKeepsAll(offers, (o: MerchantOffer) => true);
    FilterDisjointBound(offers, active, expired);
    FilterMonotone(offers, active, flagged);
  }

  datatype DiscountShown = Percent(percent: real) | Amount(amount: real)

  /** `offer.discountPercentage ? … : formatCurrency(offer.discountAmount || 0)` */
  function DiscountOf(o: MerchantOffer): (d: DiscountShown)
    ensures d.Percent? <==> o.discountPercentage.Some? && o.discountPercentage.value != 0.0
    ensures d.Percent? ==> d.percent == o.discountPercentage.value
    ensures d.Amount? ==> d.amount == if o.discountAmount.Some? then o.discountAmount.value else 0.0
  {
    if o.discountPercentage.Some? && o.discountPercentage.value != 0.0 then Percent(o.discountPercentage.value)
    else Amount(o.discountAmount.GetOr(0.0))
  }

  datatype EmptyHint = AdjustFilters | CreateFirst

  /** The text under "Nenhuma oferta encontrada"; the "Criar Oferta" button goes with `CreateFirst`. */
  function EmptyHintOf(searchTerm: string, filterStatus: string): (h: EmptyHint)
    ensures h == AdjustFilters <==> searchTerm != "" || filterStatus != "all"
  {
    if searchTerm != "" || filterStatus != "all" then AdjustFilters else CreateFirst
  }

  /** With no filter set, the empty state (and its "create" hint) shows only for an empty list. */
  lemma EmptyStateWithoutFilters(offers: seq<MerchantOffer>)
    ensures FilteredOffers(offers, "", "all") == [] <==> offers == []
    ensures EmptyHintOf("", "all") == CreateFirst
  {
    NoFilterKeepsAll(offers);
  }

  /** On the mock data, an empty search shows two offers under "active" and one under "inactive". */
  lemma MockStatusCounts()
    ensures |FilteredOffers(MockOffers, "", "active")| == 2
    ensures |FilteredOffers(MockOffers, "", "inactive")| == 1
  {
    NoFilterKeepsAll(MockOffers);
    ActiveInactivePartition(MockOffers, "");
    assert Filter(MockOffers, KeepOffer("", "inactive")) == [MockOffers[2]] by {
      forall i | 0 <= i < 3 ensures MatchesSearch(MockOffers[i], "") {
        EmptyIsIncluded(MockOffers[i].title);
      }
      assert MockOffers[1..][1..] == [MockOffers[2]];
    }
  }
}
