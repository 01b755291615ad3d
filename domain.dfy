/** The portal's domain model: the records and enumerations of types.ts, extended with the
    fields the mock API attaches to them at run time (payments, bookmarkedDocIds, documentUrl). */
module Domain {

  datatype Option<+T> = None | Some(value: T)

  /** The seven user categories. A record can carry a category value outside the seven at run
      time (the empty draft `{}` of the application controller has none at all); `Unknown` stands
      for every such value, which no lookup in the category table finds. */
  datatype UserCategory =
    | MiningDealer | Leasee | GovernmentOfficial | Firm | Company | Student | Researcher
    | Unknown

  /** PREMIUM users may use consultancy; ACADEMIC users get the library only. */
  datatype UserType = Premium | Academic

  datatype UserCategoryInfo = UserCategoryInfo(
    value: UserCategory,
    displayName: string,     // `label` in the source
    tier: UserType,
    price: nat,              // registration fee in rupees
    subscriptionPrice: nat)  // annual library subscription in rupees

  datatype RegistrationFormData = RegistrationFormData(
    name: string, email: string, phone: string, organization: string, password: string)

  /** A browser `File`, reduced to what the code looks at: its name and its MIME type. */
  datatype FileRef = FileRef(name: string, mimeType: string)

  /** The named text inputs of the profile form (`name` attribute of each input). */
  datatype ProfileField =
    | Address | Bio
    // Leasee, Firm, Company
    | State | District | Circle | Mauza | PlotNo | Area | RevenueThanaNumber | ThanaPs
    | Minerals | NatureOfLand | MineCodeIbm | MineCodeDgms
    // Mining Dealer (minerals is shared with the leasee group)
    | LicenceNo | DealerCodeIbm | NatureOfBusiness
    // Government Official
    | Department | Designation
    // Student, Researcher
    | CollegeName | UniversityName

  /** Profile data: every text field is optional in the source, so the text fields are a map
      from field name to value, and a missing key reads as the empty string. */
  datatype ProfileData = ProfileData(text: map<ProfileField, string>, profilePicture: Option<FileRef>)
  {
    function Get(f: ProfileField): string {
      if f in text then text[f] else ""
    }
  }

  function EmptyProfile(): ProfileData {
    ProfileData(map[], None)
  }

  /** `{ ...profile, ...data }` restricted to the profile: every text field the new data holds
      overwrites the stored one, every other keeps its value; the picture is overwritten. */
  function MergeProfile(stored: ProfileData, data: ProfileData): (r: ProfileData)
    ensures forall f :: r.Get(f) == if f in data.text then data.Get(f) else stored.Get(f)
    ensures r.profilePicture == data.profilePicture
  {
    ProfileData(stored.text + data.text, data.profilePicture)
  }

  datatype PaymentRecord = PaymentRecord(
    id: string, date: int, description: string, amount: int, paymentId: string)

  datatype UserData = UserData(
    name: string,
    email: string,
    phone: string,
    organization: string,
    password: string,
    category: UserCategory,
    profile: ProfileData,
    hasActiveSubscription: bool,
    payments: seq<PaymentRecord>,
    bookmarkedDocIds: seq<string>)

  predicate EmailTaken(users: seq<UserData>, email: string) {
    exists i :: 0 <= i < |users| && users[i].email == email
  }

  /** The uniqueness of emails that registration maintains. */
  ghost predicate UniqueEmails(users: seq<UserData>) {
    forall i, j :: 0 <= i < j < |users| ==> users[i].email != users[j].email
  }

  /** The case rule every operation keeps: a case is completed only once it has been paid. */
  ghost predicate CompletedCasesPaid(cases: seq<ConsultancyCase>) {
    forall i :: 0 <= i < |cases| && cases[i].status == Completed ==> cases[i].isPaid
  }

  /** Prepending a case that keeps the rule keeps it for the list. */
  lemma PrependKeepsCompletedPaid(c: ConsultancyCase, cases: seq<ConsultancyCase>)
    requires CompletedCasesPaid(cases) && (c.status == Completed ==> c.isPaid)
    ensures CompletedCasesPaid([c] + cases)
  {
    assert forall i :: 1 <= i < |[c] + cases| ==> ([c] + cases)[i] == cases[i - 1];
  }

  /** Replacing one case by a case that keeps the rule keeps it for the list. */
  lemma UpdateKeepsCompletedPaid(cases: seq<ConsultancyCase>, i: nat, c: ConsultancyCase)
    requires i < |cases| && CompletedCasesPaid(cases) && (c.status == Completed ==> c.isPaid)
    ensures CompletedCasesPaid(cases[i := c])
  {
  }

  /** The rule speaks of each case alone, so any reordering keeps it. */
  lemma {:induction false} PermutationKeepsCompletedPaid(a: seq<ConsultancyCase>, b: seq<ConsultancyCase>)
    requires multiset(a) == multiset(b) && CompletedCasesPaid(a)
    ensures CompletedCasesPaid(b)
  {
    forall i | 0 <= i < |b| && b[i].status == Completed
      ensures b[i].isPaid
    {
      assert b[i] in multiset(b);
      assert b[i] in a;
      var j :| 0 <= j < |a| && a[j] == b[i];
    }
  }

  /** Replacing one user by a user with the same email keeps emails unique. */
  lemma SameEmailKeepsUnique(users: seq<UserData>, i: nat, u: UserData)
    requires i < |users| && u.email == users[i].email
    ensures UniqueEmails(users) ==> UniqueEmails(users[i := u])
  {
  }

  /** The partial user `{}`: every string empty, no category, no subscription, no lists. */
  function EmptyUser(): UserData {
    UserData("", "", "", "", "", Unknown, EmptyProfile(), false, [], [])
  }

  datatype DocumentType = BareAct | Notification | Circular | GovernmentOrder | Judgement

  /** A library document; `date` is the calendar date as the number YYYYMMDD, so that numeric
      order is chronological order. */
  datatype LibraryDocument = LibraryDocument(
    id: string, docType: DocumentType, title: string, description: string, date: int, content: string)

  datatype ConsultancyStatus = Pending | SolutionReady | Completed

  /** A consultancy case; `date` is a timestamp in milliseconds. The application controller fills
      `document`, the mock API fills `documentUrl`; both fill `documentName`. */
  datatype ConsultancyCase = ConsultancyCase(
    id: string,
    date: int,
    issue: string,
    document: Option<FileRef>,
    documentUrl: Option<string>,
    documentName: Option<string>,
    status: ConsultancyStatus,
    solution: Option<string>,
    solutionDocument: Option<FileRef>,
    solutionDocumentUrl: Option<string>,
    solutionDocumentName: Option<string>,
    fee: Option<int>,
    isPaid: bool,
    userName: string,
    userEmail: string)

  /** The errors the mock API throws, one per distinct message. */
  datatype ApiError =
    | InvalidCredentials      // "Invalid credentials"
    | UserAlreadyExists       // "User already exists"
    | InvalidCategory         // "Invalid user category"
    | UserNotFound            // "User not found"
    | NotAuthenticated        // "Not authenticated"
    | AuthenticationFailed    // "Authentication failed"
    | DocumentNotFound        // "Document not found"
    | CaseNotFound            // "Case not found"

  datatype Result<+T> = Ok(value: T) | Err(error: ApiError)

  /** What a view hands to the external checkout widget. */
  datatype CheckoutRequest = CheckoutRequest(amountPaise: int, currency: string, description: string)

  /** How the external checkout widget ends: its success handler, its `payment.failed` event,
      or the user closing it. */
  datatype PaymentEvent = PaymentSucceeded(paymentId: string) | PaymentFailed(reason: string) | PaymentDismissed

  // Selectors passed to find, filter and map

  function HasEmail(email: string): UserData -> bool {
    (u: UserData) => u.email == email
  }

  function HasDocId(id: string): LibraryDocument -> bool {
    (d: LibraryDocument) => d.id == id
  }

  function LacksDocId(id: string): LibraryDocument -> bool {
    (d: LibraryDocument) => d.id != id
  }

  function IsOfType(t: DocumentType): LibraryDocument -> bool {
    (d: LibraryDocument) => d.docType == t
  }

  function DocDate(d: LibraryDocument): int {
    d.date
  }

  function HasCaseId(id: string): ConsultancyCase -> bool {
    (c: ConsultancyCase) => c.id == id
  }

  function OwnedBy(email: string): ConsultancyCase -> bool {
    (c: ConsultancyCase) => c.userEmail == email
  }

  function CaseDate(c: ConsultancyCase): int {
    c.date
  }
}
