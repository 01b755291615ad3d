/** The static tables of constants.ts: the category price and tier table and the seed of the
    document library. */
module Catalog {
  import opened Domain
  import opened Lists

  /** USER_CATEGORIES, in the source's order. */
  const USER_CATEGORIES: seq<UserCategoryInfo> := [
    UserCategoryInfo(MiningDealer, "Mining Dealer", Premium, 3000, 12000),
    UserCategoryInfo(Leasee, "Leasee", Premium, 3000, 12000),
    UserCategoryInfo(GovernmentOfficial, "Government Official", Premium, 3000, 12000),
    UserCategoryInfo(Firm, "Firm", Premium, 5000, 25000),
    UserCategoryInfo(Company, "Company", Premium, 5000, 25000),
    UserCategoryInfo(Student, "Student", Academic, 1000, 6000),
    UserCategoryInfo(Researcher, "Researcher", Academic, 1000, 6000)
  ]

  function HasValue(c: UserCategory): UserCategoryInfo -> bool {
    (info: UserCategoryInfo) => info.value == c
  }

  /** Where each listed category sits in the table. */
  function CategoryIndex(c: UserCategory): (k: nat)
    requires c != Unknown
    ensures k < |USER_CATEGORIES| && USER_CATEGORIES[k].value == c
  {
    match c
    case MiningDealer => 0
    case Leasee => 1
    case GovernmentOfficial => 2
    case Firm => 3
    case Company => 4
    case Student => 5
    case Researcher => 6
  }

  /** The table has one entry per category, and no category twice. */
  lemma CategoryTableIsComplete()
    ensures |USER_CATEGORIES| == 7
    ensures forall i, j :: 0 <= i < j < |USER_CATEGORIES| ==> USER_CATEGORIES[i].value != USER_CATEGORIES[j].value
    ensures forall i :: 0 <= i < |USER_CATEGORIES| ==> USER_CATEGORIES[i].value != Unknown
  {
  }

  /** Every entry charges less for registration than for the subscription, and the academic
      tier is exactly the two academic categories. */
  lemma CategoryEntries()
    ensures forall i :: 0 <= i < |USER_CATEGORIES| ==>
      && USER_CATEGORIES[i].price < USER_CATEGORIES[i].subscriptionPrice
      && (USER_CATEGORIES[i].tier == Academic <==>
            USER_CATEGORIES[i].value == Student || USER_CATEGORIES[i].value == Researcher)
  {
  }

  /** `USER_CATEGORIES.find(c => c.value === category)`: every listed category is found, with
      its own entry, and a subscription always costs more than registration. */
  function FindCategory(c: UserCategory): (r: Option<UserCategoryInfo>)
    ensures r.Some? <==> c != Unknown
    ensures r.Some? ==> r.value == USER_CATEGORIES[CategoryIndex(c)]
    ensures r.Some? ==> r.value.value == c && r.value in USER_CATEGORIES
    ensures r.Some? ==> r.value.price < r.value.subscriptionPrice
    ensures r.Some? ==> (r.value.tier == Academic <==> c == Student || c == Researcher)
  {
    CategoryTableIsComplete();
    CategoryEntries();
    assert c != Unknown ==> HasValue(c)(USER_CATEGORIES[CategoryIndex(c)]);
    match FirstIndex(USER_CATEGORIES, HasValue(c))
    case None => None
    case Some(k) =>
      assert k == CategoryIndex(c) by {
        assert !(k < CategoryIndex(c)) && !(CategoryIndex(c) < k);
      }
      Some(USER_CATEGORIES[k])
  }

  /** The three price bands of the table. */
  lemma CategoryPrices(c: UserCategory)
    requires c != Unknown
    ensures c == MiningDealer || c == Leasee || c == GovernmentOfficial ==>
      FindCategory(c).value.price == 3000 && FindCategory(c).value.subscriptionPrice == 12000
    ensures c == Firm || c == Company ==>
      FindCategory(c).value.price == 5000 && FindCategory(c).value.subscriptionPrice == 25000
    ensures c == Student || c == Researcher ==>
      FindCategory(c).value.price == 1000 && FindCategory(c).value.subscriptionPrice == 6000
  {
    assert FindCategory(c).value == USER_CATEGORIES[CategoryIndex(c)];
  }

  /** INITIAL_LIBRARY_DATA; dates are written YYYYMMDD. */
  const INITIAL_LIBRARY_DATA: seq<LibraryDocument> := [
    LibraryDocument(
      "ba_01", BareAct,
      "The Mines and Minerals (Development and Regulation) Act, 1957",
      "An Act to provide for the development and regulation of mines and minerals under the control of the Union.",
      19571228,
      "Long text content of the MMDR Act, 1957... Section 1, Section 2, etc. This text is for viewing purposes only and cannot be downloaded or printed."),
    LibraryDocument(
      "ba_02", BareAct,
      "The Coal Mines (Nationalisation) Act, 1973",
      "An Act to provide for the acquisition and transfer of the right, title and interest of the owners of coal mines.",
      19730530,
      "Detailed content of The Coal Mines (Nationalisation) Act, 1973... This text is for viewing purposes only."),
    LibraryDocument(
      "notif_01", Notification,
      "Amendment to Mineral Concession Rules, 2021",
      "Notification regarding the revised royalty rates for certain minerals.",
      20210624,
      "G.S.R. 450(E).â€”In exercise of the powers conferred by section 13 of the Mines and Minerals (Development and Regulation) Act, 1957... Details of the notification. Downloading is disabled."),
    LibraryDocument(
      "circ_01", Circular,
      "Clarification on e-auction procedures for mining leases",
      "Circular providing guidelines to standardize the e-auction process across states.",
      20220115,
      "This circular aims to clarify ambiguities in the e-auction process as outlined in previous notifications... Full text content here. Not available for download."),
    LibraryDocument(
      "go_01", GovernmentOrder,
      "Order for establishment of District Mineral Foundation (DMF) in all districts",
      "Government order mandating the setup of DMFs as per the MMDR Amendment Act, 2015.",
      20150912,
      "By the order of the Ministry of Mines, it is hereby mandated that all state governments shall establish a District Mineral Foundation (DMF) in every district affected by mining-related operations... Full order details. Not available for download."),
    LibraryDocument(
      "judge_01", Judgement,
      "Common Cause vs. Union of India & Ors.",
      "Supreme Court judgement on illegal mining and the interpretation of the MMDR Act.",
      20170802,
      "In the Supreme Court of India, Civil Original Jurisdiction, Writ Petition (Civil) No. 114 of 2014... The court held that... Detailed judgement text. Downloading is disabled."),
    LibraryDocument(
      "judge_02", Judgement,
      "Goa Foundation vs. Union of India & Ors.",
      "Landmark Supreme Court judgement concerning the renewal of mining leases in Goa.",
      20140421,
      "This case deals with the interpretation of Section 8(3) of the MMDR Act, 1957 regarding the second renewal of mining leases... Full text of the judgement. Downloading and printing are disabled.")
  ]

  /** The seed documents have distinct ids. */
  lemma SeedIdsDistinct()
    ensures forall i, j :: 0 <= i < j < |INITIAL_LIBRARY_DATA| ==> INITIAL_LIBRARY_DATA[i].id != INITIAL_LIBRARY_DATA[j].id
  {
  }

  /** Every document type has at least one seed document. */
  lemma SeedCoversType(t: DocumentType)
    ensures exists i :: 0 <= i < |INITIAL_LIBRARY_DATA| && INITIAL_LIBRARY_DATA[i].docType == t
  {
    match t
    case BareAct => assert INITIAL_LIBRARY_DATA[0].docType == t;
    case Notification => assert INITIAL_LIBRARY_DATA[2].docType == t;
    case Circular => assert INITIAL_LIBRARY_DATA[3].docType == t;
    case GovernmentOrder => assert INITIAL_LIBRARY_DATA[4].docType == t;
    case Judgement => assert INITIAL_LIBRARY_DATA[5].docType == t;
  }
}
