/** The user dashboard of Dashboard.tsx: what it shows is a function of the signed-in user
    alone. */
module Dashboard {
  import opened Domain
  import opened Catalog
  import opened ProfileStep

  /** One line of the category details, `label: value`. */
  datatype Detail = Detail(caption: string, value: string)

  /** `detailItem`: nothing for an empty value. */
  function DetailItem(caption: string, value: string): (r: Option<Detail>)
    ensures r.None? <==> value == ""
    ensures r.Some? ==> r.value == Detail(caption, value)
  {
    if value != "" then Some(Detail(caption, value)) else None
  }

  /** The captions and fields of each group's detail block, in display order. */
  function DetailFields(c: UserCategory): seq<(string, ProfileField)> {
    if IsLeaseeType(c) then
      [("State", State), ("District", District), ("Circle", Circle), ("Mauza", Mauza),
       ("Plot No.", PlotNo), ("Area", Area), ("Revenue Thana", RevenueThanaNumber),
       ("Thana/PS", ThanaPs), ("Minerals", Minerals), ("Nature of Land", NatureOfLand),
       ("IBM Mine Code", MineCodeIbm), ("DGMS Mine Code", MineCodeDgms)]
    else if IsDealerType(c) then
      [("Licence No.", LicenceNo), ("Minerals", Minerals), ("IBM Dealer Code", DealerCodeIbm),
       ("Nature of Business", NatureOfBusiness)]
    else if IsGovernmentType(c) then
      [("Department", Department), ("Designation", Designation)]
    else if IsAcademicType(c) then
      [("College", CollegeName), ("University", UniversityName)]
    else []
  }

  /** The dashboard's grouping is the profile form's: it shows exactly the fields that category
      had to fill in. */
  lemma DetailFieldsAreRequiredFields(c: UserCategory)
    ensures |DetailFields(c)| == |RequiredFields(c)|
    ensures forall i :: 0 <= i < |DetailFields(c)| ==> DetailFields(c)[i].1 == RequiredFields(c)[i]
  {
  }

  /** The detail lines actually rendered: the items whose value is not empty. */
  function ShownDetails(fields: seq<(string, ProfileField)>, p: ProfileData): (r: seq<Detail>)
    ensures |r| <= |fields|
    ensures forall i :: 0 <= i < |r| ==> r[i].value != ""
  {
    if fields == [] then []
    else
      var head := DetailItem(fields[0].0, p.Get(fields[0].1));
      (if head.Some? then [head.value] else []) + ShownDetails(fields[1..], p)
  }

  /** Every line shows exactly when every field is filled in. */
  lemma {:induction false} AllDetailsShownIff(fields: seq<(string, ProfileField)>, p: ProfileData)
    ensures |ShownDetails(fields, p)| == |fields| <==> forall i :: 0 <= i < |fields| ==> p.Get(fields[i].1) != ""
  {
    if fields != [] {
      AllDetailsShownIff(fields[1..], p);
      assert forall i :: 1 <= i < |fields| ==> fields[i] == fields[1..][i - 1];
    }
  }

  /** A profile that passed the form's check shows its whole detail block. */
  lemma ValidProfileShowsAllDetails(u: UserData)
    requires IsFormValid(u.category, u.profile)
    ensures |ShownDetails(DetailFields(u.category), u.profile)| == |DetailFields(u.category)|
  {
    IsFormValidIff(u.category, u.profile);
    DetailFieldsAreRequiredFields(u.category);
    AllDetailsShownIff(DetailFields(u.category), u.profile);
  }

  datatype DashboardView =
    | CategoryError
    | Overview(
        premium: bool,
        consultancyAccess: bool,
        libraryAccess: bool,
        subscriptionPrice: nat,
        showOrganization: bool,
        details: Option<seq<Detail>>)

  /** The dashboard: an error for a category outside the table; otherwise the access level of
      the tier, consultancy for premium users only, the library for subscribers only, and the
      detail block of the user's group. */
  function View(u: UserData): (v: DashboardView)
    ensures v.CategoryError? <==> u.category == Unknown
    ensures v.Overview? ==>
      && (v.consultancyAccess <==> FindCategory(u.category).value.tier == Premium)
      && v.premium == v.consultancyAccess
      && (v.libraryAccess <==> u.hasActiveSubscription)
      && v.subscriptionPrice == FindCategory(u.category).value.subscriptionPrice
      && (v.showOrganization <==> u.organization != "")
      && v.details == Some(ShownDetails(DetailFields(u.category), u.profile))
  {
    match FindCategory(u.category)
    case None => CategoryError
    case Some(info) =>
      var groups := IsLeaseeType(u.category) || IsDealerType(u.category)
                    || IsGovernmentType(u.category) || IsAcademicType(u.category);
      GroupsPartition(u.category);
      Overview(info.tier == Premium, info.tier == Premium, u.hasActiveSubscription,
        info.subscriptionPrice, u.organization != "",
        if groups then Some(ShownDetails(DetailFields(u.category), u.profile)) else None)
  }

  /** Academic users never reach consultancy; every premium user does. */
  lemma ConsultancyAccessByCategory(u: UserData)
    requires u.category != Unknown
    ensures View(u).consultancyAccess <==> !(u.category == Student || u.category == Researcher)
  {
  }
}
