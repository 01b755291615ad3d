/** The profile form of ProfileStep.tsx: which fields each category must fill in, and the form
    state the inputs edit. */
module ProfileStep {
  import opened Domain

  // The four category groups, each with its own block of fields.

  predicate IsLeaseeType(c: UserCategory) {
    c == Leasee || c == Firm || c == Company
  }

  predicate IsDealerType(c: UserCategory) {
    c == MiningDealer
  }

  predicate IsGovernmentType(c: UserCategory) {
    c == GovernmentOfficial
  }

  predicate IsAcademicType(c: UserCategory) {
    c == Student || c == Researcher
  }

  /** The groups partition the seven categories: each belongs to exactly one, and a category
      outside the table belongs to none. */
  lemma GroupsPartition(c: UserCategory)
    ensures c != Unknown <==> IsLeaseeType(c) || IsDealerType(c) || IsGovernmentType(c) || IsAcademicType(c)
    ensures !(IsLeaseeType(c) && IsDealerType(c)) && !(IsLeaseeType(c) && IsGovernmentType(c))
    ensures !(IsLeaseeType(c) && IsAcademicType(c)) && !(IsDealerType(c) && IsGovernmentType(c))
    ensures !(IsDealerType(c) && IsAcademicType(c)) && !(IsGovernmentType(c) && IsAcademicType(c))
  {
  }

  /** The mine and location block of the leasee group. */
  const LEASEE_FIELDS: seq<ProfileField> :=
    [State, District, Circle, Mauza, PlotNo, Area, RevenueThanaNumber, ThanaPs,
     Minerals, NatureOfLand, MineCodeIbm, MineCodeDgms]

  const DEALER_FIELDS: seq<ProfileField> := [LicenceNo, Minerals, DealerCodeIbm, NatureOfBusiness]

  const GOVERNMENT_FIELDS: seq<ProfileField> := [Department, Designation]

  const ACADEMIC_FIELDS: seq<ProfileField> := [CollegeName, UniversityName]

  predicate Filled(p: ProfileData, f: ProfileField) {
    p.Get(f) != ""
  }

  /** `isFormValid`: address and bio, then the block of the user's group, each field checked
      for truthiness in the order the source lists them. */
  predicate IsFormValid(c: UserCategory, p: ProfileData) {
    if !Filled(p, Address) || !Filled(p, Bio) then false
    else if IsLeaseeType(c) then
      Filled(p, State) && Filled(p, District) && Filled(p, Circle) && Filled(p, Mauza)
      && Filled(p, PlotNo) && Filled(p, Area) && Filled(p, RevenueThanaNumber) && Filled(p, ThanaPs)
      && Filled(p, Minerals) && Filled(p, NatureOfLand) && Filled(p, MineCodeIbm) && Filled(p, MineCodeDgms)
    else if IsDealerType(c) then
      Filled(p, LicenceNo) && Filled(p, Minerals) && Filled(p, DealerCodeIbm) && Filled(p, NatureOfBusiness)
    else if IsGovernmentType(c) then
      Filled(p, Department) && Filled(p, Designation)
    else if IsAcademicType(c) then
      Filled(p, CollegeName) && Filled(p, UniversityName)
    else false
  }

  /** The fields a category must fill in besides address and bio. */
  function RequiredFields(c: UserCategory): seq<ProfileField> {
    if IsLeaseeType(c) then LEASEE_FIELDS
    else if IsDealerType(c) then DEALER_FIELDS
    else if IsGovernmentType(c) then GOVERNMENT_FIELDS
    else if IsAcademicType(c) then ACADEMIC_FIELDS
    else []
  }

  /** Validity means: address, bio and every field of the category's block filled in, for any
      of the seven categories; a category outside the table is never valid. */
  lemma IsFormValidIff(c: UserCategory, p: ProfileData)
    ensures c == Unknown ==> !IsFormValid(c, p)
    ensures c != Unknown ==>
      (IsFormValid(c, p) <==>
         Filled(p, Address) && Filled(p, Bio)
         && forall i :: 0 <= i < |RequiredFields(c)| ==> Filled(p, RequiredFields(c)[i]))
  {
    var req := RequiredFields(c);
    if c != Unknown && Filled(p, Address) && Filled(p, Bio) {
      if IsFormValid(c, p) {
        forall i | 0 <= i < |req| ensures Filled(p, req[i]) {
        }
      } else {
        assert exists i :: 0 <= i < |req| && !Filled(p, req[i]) by {
          if IsLeaseeType(c) {
            if !Filled(p, State) { assert req[0] == State; }
            else if !Filled(p, District) { assert req[1] == District; }
            else if !Filled(p, Circle) { assert req[2] == Circle; }
            else if !Filled(p, Mauza) { assert req[3] == Mauza; }
            else if !Filled(p, PlotNo) { assert req[4] == PlotNo; }
            else if !Filled(p, Area) { assert req[5] == Area; }
            else if !Filled(p, RevenueThanaNumber) { assert req[6] == RevenueThanaNumber; }
            else if !Filled(p, ThanaPs) { assert req[7] == ThanaPs; }
            else if !Filled(p, Minerals) { assert req[8] == Minerals; }
            else if !Filled(p, NatureOfLand) { assert req[9] == NatureOfLand; }
            else if !Filled(p, MineCodeIbm) { assert req[10] == MineCodeIbm; }
            else { assert req[11] == MineCodeDgms; }
          } else if IsDealerType(c) {
            if !Filled(p, LicenceNo) { assert req[0] == LicenceNo; }
            else if !Filled(p, Minerals) { assert req[1] == Minerals; }
            else if !Filled(p, DealerCodeIbm) { assert req[2] == DealerCodeIbm; }
            else { assert req[3] == NatureOfBusiness; }
          } else if IsGovernmentType(c) {
            if !Filled(p, Department) { assert req[0] == Department; }
            else { assert req[1] == Designation; }
          } else {
            if !Filled(p, CollegeName) { assert req[0] == CollegeName; }
            else { assert req[1] == UniversityName; }
          }
        }
      }
    }
  }

  /** Only the fields of the user's own block matter: changing a field outside it, or the
      picture, never changes validity. */
  lemma ValidityIgnoresOtherFields(c: UserCategory, p: ProfileData, f: ProfileField, v: string)
    requires f != Address && f != Bio && f !in RequiredFields(c)
    ensures IsFormValid(c, ProfileData(p.text[f := v], p.profilePicture)) == IsFormValid(c, p)
  {
    var q := ProfileData(p.text[f := v], p.profilePicture);
    var req := RequiredFields(c);
    forall i | 0 <= i < |req| ensures Filled(q, req[i]) == Filled(p, req[i]) {
      assert req[i] != f;
    }
    assert Filled(q, Address) == Filled(p, Address) && Filled(q, Bio) == Filled(p, Bio);
    IsFormValidIff(c, p);
    IsFormValidIff(c, q);
  }

  const ALL_FIELDS: seq<ProfileField> :=
    [Address, Bio, State, District, Circle, Mauza, PlotNo, Area, RevenueThanaNumber, ThanaPs,
     Minerals, NatureOfLand, MineCodeIbm, MineCodeDgms, LicenceNo, DealerCodeIbm, NatureOfBusiness,
     Department, Designation, CollegeName, UniversityName]

  /** The initial state lists every field, each with the empty string, and no picture. */
  function InitialProfile(): (p: ProfileData)
    ensures forall f :: p.Get(f) == ""
    ensures forall i :: 0 <= i < |ALL_FIELDS| ==> ALL_FIELDS[i] in p.text
    ensures p.profilePicture == None
  {
    ProfileData(map f | f in ALL_FIELDS :: "", None)
  }

  lemma EveryFieldListed(f: ProfileField)
    ensures f in ALL_FIELDS
  {
  }

  /** A fresh form is never valid. */
  lemma InitialProfileInvalid(c: UserCategory)
    ensures !IsFormValid(c, InitialProfile())
  {
  }

  /** The form state: the profile being edited and the shown name of the chosen picture. */
  class ProfileForm {
    const userCategory: UserCategory
    var profileData: ProfileData
    var fileName: string

    constructor(category: UserCategory)
      ensures userCategory == category && profileData == InitialProfile() && fileName == ""
    {
      userCategory := category;
      profileData := InitialProfile();
      fileName := "";
    }

    predicate Valid()
      reads this
    {
      IsFormValid(userCategory, profileData)
    }

    /** `handleChange`: the named field takes the new value; every other field and the picture
        keep theirs. */
    method Change(name: ProfileField, value: string)
      modifies this
      ensures profileData.Get(name) == value
      ensures forall f :: f != name ==> profileData.Get(f) == old(profileData).Get(f)
      ensures profileData.profilePicture == old(profileData).profilePicture
      ensures fileName == old(fileName)
    {
      profileData := ProfileData(profileData.text[name := value], profileData.profilePicture);
    }

    /** `handleFileChange`: a chosen file becomes the picture and its name is shown; an empty
        selection changes nothing. */
    method FileChange(file: Option<FileRef>)
      modifies this
      ensures file.None? ==> profileData == old(profileData) && fileName == old(fileName)
      ensures file.Some? ==>
        profileData == old(profileData).(profilePicture := file) && fileName == file.value.name
    {
      if file.Some? {
        profileData := profileData.(profilePicture := file);
        fileName := file.value.name;
      }
    }

    /** Submitting the form: the button is disabled until the form is valid; then
        `handleSubmit` hands the form's data over as it stands. */
    method Submit() returns (submitted: Option<ProfileData>)
      ensures submitted.Some? <==> Valid()
      ensures submitted.Some? ==> submitted.value == profileData
    {
      if Valid() {
        submitted := Some(profileData);
      } else {
        submitted := None;
      }
    }
  }
}
