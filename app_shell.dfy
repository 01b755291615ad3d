/** The application controller of App.tsx: which screen is shown, the user being signed up or
    signed in, and the controller's own lists of users, cases and documents. It keeps these
    lists itself and never calls the mock API. */
module AppShell {
  import opened Domain
  import opened Lists
  import opened Catalog
  import opened Ids
  import opened ConsultancyPanel

  datatype AppStep =
    | Introduction | Landing | Login | Registration | Verification | Profile
    | Dashboard | Library | Consultancy | Admin

  /** The screens shown as a centred modal card. */
  predicate IsModalStep(s: AppStep) {
    s == Landing || s == Login || s == Registration || s == Verification || s == Profile
  }

  const ADMIN_EMAIL := "admin@mail.com"
  const ADMIN_PASSWORD := "admin123"

  /** The demonstration user every non-admin login signs in as. */
  function MockUser(email: string, pass: string): (u: UserData)
    ensures u.email == email && u.password == pass
    ensures u.category == Leasee && !u.hasActiveSubscription
    ensures u.profile.Get(Address) != ""
  {
    UserData("Mock Premium User", email, "123-456-7890", "Mock Industries", pass, Leasee,
      ProfileData(map[Address := "123 Mockingbird Lane",
                      Bio := "A pre-existing user for demonstration purposes."], None),
      false, [], [])
  }

  /** `{ ...prev, ...data }` with the registration form. */
  function WithRegistration(u: UserData, data: RegistrationFormData): (r: UserData)
    ensures r.name == data.name && r.email == data.email && r.phone == data.phone
    ensures r.organization == data.organization && r.password == data.password
    ensures r.category == u.category && r.profile == u.profile
    ensures r.hasActiveSubscription == u.hasActiveSubscription
    ensures r.payments == u.payments && r.bookmarkedDocIds == u.bookmarkedDocIds
  {
    u.(name := data.name, email := data.email, phone := data.phone,
       organization := data.organization, password := data.password)
  }

  /** `newCase.document?.name || 'N/A'`. */
  function AttachmentName(document: Option<FileRef>): (r: string)
    ensures r == "N/A" <==> document.None? || document.value.name == "" || document.value.name == "N/A"
  {
    if document.Some? && document.value.name != "" then document.value.name else "N/A"
  }

  /** `solutionFile?.name || ''`. */
  function SolutionName(file: Option<FileRef>): (r: string)
    ensures r == "" <==> file.None? || file.value.name == ""
    ensures r != "" ==> file.Some? && r == file.value.name
  {
    if file.Some? then file.value.name else ""
  }

  function MarkPaid(c: ConsultancyCase): ConsultancyCase {
    c.(isPaid := true, status := Completed)
  }

  function AttachSolution(solution: string, fee: int, file: Option<FileRef>): ConsultancyCase -> ConsultancyCase {
    (c: ConsultancyCase) => c.(solution := Some(solution), fee := Some(fee), solutionDocument := file,
                               solutionDocumentName := Some(SolutionName(file)), status := SolutionReady)
  }

  function Const<T, U>(v: U): T -> U {
    (x: T) => v
  }

  function ReplaceDoc(doc: LibraryDocument): LibraryDocument -> LibraryDocument {
    (d: LibraryDocument) => doc
  }

  /** Paying is the only way a case becomes paid, and it completes the case at the same time. */
  ghost predicate PaidCasesCompleted(cases: seq<ConsultancyCase>) {
    forall i :: 0 <= i < |cases| && cases[i].isPaid ==> cases[i].status == Completed
  }

  lemma NewCaseKeepsPaidCompleted(c: ConsultancyCase, cases: seq<ConsultancyCase>)
    requires PaidCasesCompleted(cases) && !c.isPaid
    ensures PaidCasesCompleted([c] + cases)
  {
    assert forall i :: 1 <= i < |[c] + cases| ==> ([c] + cases)[i] == cases[i - 1];
  }

  lemma PaymentKeepsPaidCompleted(cases: seq<ConsultancyCase>, caseId: string)
    requires PaidCasesCompleted(cases)
    ensures PaidCasesCompleted(MapWhere(cases, HasCaseId(caseId), MarkPaid))
  {
  }

  /** An answer sets the case back to solution-ready, so it keeps the rule only for a case that
      is not completed yet, which is what the case form's disabled save button ensures. */
  lemma AnswerKeepsPaidCompleted(cases: seq<ConsultancyCase>, caseId: string, solution: string,
                                 fee: int, file: Option<FileRef>)
    requires PaidCasesCompleted(cases)
    requires forall i :: 0 <= i < |cases| && cases[i].id == caseId ==> cases[i].status != Completed
    ensures PaidCasesCompleted(MapWhere(cases, HasCaseId(caseId), AttachSolution(solution, fee, file)))
  {
  }

  /** Without that guard an answer to a paid case leaves it paid but no longer completed. */
  lemma AnswerToPaidCaseReopensIt(c: ConsultancyCase, solution: string, fee: int)
    requires c.isPaid && c.status == Completed
    ensures !PaidCasesCompleted(MapWhere([c], HasCaseId(c.id), AttachSolution(solution, fee, None)))
  {
    var r := MapWhere([c], HasCaseId(c.id), AttachSolution(solution, fee, None));
    assert r[0].isPaid && r[0].status == SolutionReady;
  }

  /** The rule the consultancy details rely on: a paid case has been answered, so it is not
      pending. Unlike `PaidCasesCompleted`, every change of the case list keeps it, an answer to
      a paid case included. */
  ghost predicate PaidCasesAnswered(cases: seq<ConsultancyCase>) {
    forall i :: 0 <= i < |cases| && cases[i].isPaid ==> cases[i].status != Pending
  }

  lemma NewCaseKeepsPaidAnswered(c: ConsultancyCase, cases: seq<ConsultancyCase>)
    requires PaidCasesAnswered(cases) && !c.isPaid
    ensures PaidCasesAnswered([c] + cases)
  {
    assert forall i :: 1 <= i < |[c] + cases| ==> ([c] + cases)[i] == cases[i - 1];
  }

  lemma PaymentKeepsPaidAnswered(cases: seq<ConsultancyCase>, caseId: string)
    requires PaidCasesAnswered(cases)
    ensures PaidCasesAnswered(MapWhere(cases, HasCaseId(caseId), MarkPaid))
  {
  }

  lemma AnswerKeepsPaidAnswered(cases: seq<ConsultancyCase>, caseId: string, solution: string,
                                fee: int, file: Option<FileRef>)
    requires PaidCasesAnswered(cases)
    ensures PaidCasesAnswered(MapWhere(cases, HasCaseId(caseId), AttachSolution(solution, fee, file)))
  {
  }

  lemma PaymentKeepsCompletedPaid(cases: seq<ConsultancyCase>, caseId: string)
    requires CompletedCasesPaid(cases)
    ensures CompletedCasesPaid(MapWhere(cases, HasCaseId(caseId), MarkPaid))
  {
  }

  lemma AnswerKeepsCompletedPaid(cases: seq<ConsultancyCase>, caseId: string, solution: string,
                                 fee: int, file: Option<FileRef>)
    requires CompletedCasesPaid(cases)
    ensures CompletedCasesPaid(MapWhere(cases, HasCaseId(caseId), AttachSolution(solution, fee, file)))
  {
  }

  /** Every case of a list that keeps the rule shows exactly one block in its details. */
  lemma ListedCaseShowsOneBlock(cases: seq<ConsultancyCase>, c: ConsultancyCase)
    requires PaidCasesAnswered(cases) && c in cases
    ensures ShowsOneBlock(Section(c))
  {
    SectionShowsOneBlock(c);
  }

  /** The query's attachment line shows exactly when a file with a real name was attached. */
  lemma AttachmentShownIff(c: ConsultancyCase, document: Option<FileRef>)
    requires c.documentName == Some(AttachmentName(document))
    ensures ShowsAttachment(c) <==> document.Some? && document.value.name != "" && document.value.name != "N/A"
  {
  }

  class AppController {
    var step: AppStep
    var userData: UserData
    var allUsers: seq<UserData>
    var consultancyCases: seq<ConsultancyCase>
    var libraryData: seq<LibraryDocument>

    constructor()
      ensures step == Introduction && userData == EmptyUser()
      ensures allUsers == [] && consultancyCases == [] && libraryData == INITIAL_LIBRARY_DATA
    {
      step := Introduction;
      userData := EmptyUser();
      allUsers := [];
      consultancyCases := [];
      libraryData := INITIAL_LIBRARY_DATA;
    }

    /** `!!userData.address`: the navigation bar treats a user with an address as signed in. */
    predicate IsUserLoggedIn()
      reads this
    {
      userData.profile.Get(Address) != ""
    }

    /** The cases handed to the consultancy screen: the signed-in user's own. */
    function ConsultancyView(): (r: seq<ConsultancyCase>)
      reads this
      ensures forall i :: 0 <= i < |r| ==> r[i].userEmail == userData.email && r[i] in consultancyCases
      ensures forall i :: 0 <= i < |consultancyCases| && consultancyCases[i].userEmail == userData.email ==>
        consultancyCases[i] in r
      ensures IsSubsequence(r, consultancyCases)
      ensures forall c :: multiset(r)[c] == if c.userEmail == userData.email then multiset(consultancyCases)[c] else 0
    {
      FilterCounts(consultancyCases, OwnedBy(userData.email));
      FilterIsSubsequence(consultancyCases, OwnedBy(userData.email));
      FilterMembers(consultancyCases, OwnedBy(userData.email));
      Filter(consultancyCases, OwnedBy(userData.email))
    }

    /** `handleReset` and `handleAdminLogout` do the same: forget the user, show the introduction. */
    method Reset()
      modifies this
      ensures step == Introduction && userData == EmptyUser() && !IsUserLoggedIn()
      ensures allUsers == old(allUsers) && consultancyCases == old(consultancyCases)
      ensures libraryData == old(libraryData)
    {
      userData := EmptyUser();
      step := Introduction;
    }

    method AdminLogout()
      modifies this
      ensures step == Introduction && userData == EmptyUser()
      ensures allUsers == old(allUsers) && consultancyCases == old(consultancyCases)
      ensures libraryData == old(libraryData)
    {
      Reset();
    }

    method GoToLogin()
      modifies this`step
      ensures step == Login
    {
      step := Login;
    }

    method GetStarted()
      modifies this`step
      ensures step == Landing
    {
      step := Landing;
    }

    method AdminLoginClick()
      modifies this`step
      ensures step == Login
    {
      step := Login;
    }

    method BackToDashboard()
      modifies this`step
      ensures step == Dashboard
    {
      step := Dashboard;
    }

    method EnterConsultancy()
      modifies this`step
      ensures step == Consultancy
    {
      step := Consultancy;
    }

    method CompleteVerification()
      modifies this`step
      ensures step == Profile
    {
      step := Profile;
    }

    /** The fixed admin credentials open the admin screen and touch nothing else; any other
        pair signs in as the mock user, who is added to the user list only when the email is
        new. */
    method LoginSubmit(email: string, pass: string)
      modifies this
      ensures consultancyCases == old(consultancyCases) && libraryData == old(libraryData)
      ensures email == ADMIN_EMAIL && pass == ADMIN_PASSWORD ==>
        step == Admin && userData == old(userData) && allUsers == old(allUsers)
      ensures !(email == ADMIN_EMAIL && pass == ADMIN_PASSWORD) ==>
        && step == Dashboard
        && userData == MockUser(email, pass)
        && allUsers == (if EmailTaken(old(allUsers), email) then old(allUsers) else old(allUsers) + [userData])
        && IsUserLoggedIn()
      ensures UniqueEmails(old(allUsers)) ==> UniqueEmails(allUsers)
      ensures EmailTaken(allUsers, email) || step == Admin
    {
      if email == ADMIN_EMAIL && pass == ADMIN_PASSWORD {
        step := Admin;
        return;
      }
      var mock := MockUser(email, pass);
      userData := mock;
      if FirstIndex(allUsers, HasEmail(mock.email)).None? {
        allUsers := allUsers + [mock];
        assert allUsers[|allUsers| - 1].email == email;
      } else {
        assert EmailTaken(allUsers, email);
      }
      step := Dashboard;
    }

    /** Choosing a category starts a fresh draft `{ category }`. */
    method CategorySelect(category: UserCategory)
      modifies this
      ensures step == Registration && userData == EmptyUser().(category := category)
      ensures allUsers == old(allUsers) && consultancyCases == old(consultancyCases)
      ensures libraryData == old(libraryData)
    {
      userData := EmptyUser().(category := category);
      step := Registration;
    }

    method RegistrationSubmit(data: RegistrationFormData)
      modifies this
      ensures step == Verification && userData == WithRegistration(old(userData), data)
      ensures allUsers == old(allUsers) && consultancyCases == old(consultancyCases)
      ensures libraryData == old(libraryData)
    {
      userData := WithRegistration(userData, data);
      step := Verification;
    }

    /** The finished draft becomes the signed-in user, without a subscription, and is appended
        to the user list whether or not its email is already there. */
    method ProfileSubmit(data: ProfileData)
      modifies this
      ensures userData == old(userData).(profile := MergeProfile(old(userData).profile, data),
                                         hasActiveSubscription := false)
      ensures allUsers == old(allUsers) + [userData]
      ensures step == Dashboard
      ensures consultancyCases == old(consultancyCases) && libraryData == old(libraryData)
    {
      userData := userData.(profile := MergeProfile(userData.profile, data), hasActiveSubscription := false);
      allUsers := allUsers + [userData];
      step := Dashboard;
    }

    method BackToLanding()
      modifies this
      ensures step == Landing && userData == EmptyUser()
      ensures allUsers == old(allUsers) && consultancyCases == old(consultancyCases)
      ensures libraryData == old(libraryData)
    {
      userData := EmptyUser();
      step := Landing;
    }

    /** The library opens only for a subscriber; otherwise the screen stays as it is. */
    method EnterLibrary()
      modifies this`step
      ensures step == (if userData.hasActiveSubscription then Library else old(step))
    {
      if userData.hasActiveSubscription {
        step := Library;
      }
    }

    /** A new query goes to the front of the case list, pending and unpaid, stamped with the
        current user. */
    method NewConsultancySubmit(issue: string, document: Option<FileRef>, now: nat)
      modifies this`consultancyCases
      ensures |consultancyCases| == |old(consultancyCases)| + 1
      ensures consultancyCases[1..] == old(consultancyCases)
      ensures var c := consultancyCases[0];
        && c.id == CaseId(now) && c.date == now && c.issue == issue
        && c.document == document && c.documentName == Some(AttachmentName(document))
        && c.status == Pending && !c.isPaid
        && c.userName == userData.name && c.userEmail == userData.email
        && c.solution == None && c.fee == None && c.documentUrl == None
        && c.solutionDocument == None && c.solutionDocumentUrl == None && c.solutionDocumentName == None
      ensures PaidCasesAnswered(old(consultancyCases)) ==> PaidCasesAnswered(consultancyCases)
      ensures CompletedCasesPaid(old(consultancyCases)) ==> CompletedCasesPaid(consultancyCases)
    {
      var c := ConsultancyCase(CaseId(now), now, issue, document, None, Some(AttachmentName(document)),
        Pending, None, None, None, None, None, false, userData.name, userData.email);
      if PaidCasesAnswered(consultancyCases) {
        NewCaseKeepsPaidAnswered(c, consultancyCases);
      }
      if CompletedCasesPaid(consultancyCases) {
        PrependKeepsCompletedPaid(c, consultancyCases);
      }
      consultancyCases := [c] + consultancyCases;
    }

    /** Payment marks every case with the id paid and completed, and no other. */
    method PaymentForCase(caseId: string)
      modifies this`consultancyCases
      ensures |consultancyCases| == |old(consultancyCases)|
      ensures forall i :: 0 <= i < |consultancyCases| ==>
        consultancyCases[i] == if old(consultancyCases)[i].id == caseId
                               then old(consultancyCases)[i].(isPaid := true, status := Completed)
                               else old(consultancyCases)[i]
      ensures PaidCasesAnswered(old(consultancyCases)) ==> PaidCasesAnswered(consultancyCases)
      ensures CompletedCasesPaid(old(consultancyCases)) ==> CompletedCasesPaid(consultancyCases)
    {
      if PaidCasesAnswered(consultancyCases) {
        PaymentKeepsPaidAnswered(consultancyCases, caseId);
      }
      if CompletedCasesPaid(consultancyCases) {
        PaymentKeepsCompletedPaid(consultancyCases, caseId);
      }
      consultancyCases := MapWhere(consultancyCases, HasCaseId(caseId), MarkPaid);
    }

    /** The admin's answer goes into every case with the id, and no other. */
    method AdminUpdateCase(caseId: string, solution: string, fee: int, solutionFile: Option<FileRef>)
      modifies this`consultancyCases
      ensures |consultancyCases| == |old(consultancyCases)|
      ensures forall i :: 0 <= i < |consultancyCases| ==>
        consultancyCases[i] == if old(consultancyCases)[i].id == caseId
                               then old(consultancyCases)[i].(solution := Some(solution), fee := Some(fee),
                                      solutionDocument := solutionFile,
                                      solutionDocumentName := Some(SolutionName(solutionFile)),
                                      status := SolutionReady)
                               else old(consultancyCases)[i]
      ensures PaidCasesAnswered(old(consultancyCases)) ==> PaidCasesAnswered(consultancyCases)
      ensures CompletedCasesPaid(old(consultancyCases)) ==> CompletedCasesPaid(consultancyCases)
    {
      if PaidCasesAnswered(consultancyCases) {
        AnswerKeepsPaidAnswered(consultancyCases, caseId, solution, fee, solutionFile);
      }
      if CompletedCasesPaid(consultancyCases) {
        AnswerKeepsCompletedPaid(consultancyCases, caseId, solution, fee, solutionFile);
      }
      consultancyCases := MapWhere(consultancyCases, HasCaseId(caseId), AttachSolution(solution, fee, solutionFile));
    }

    /** The library subscription: no category entry means no checkout and no change. Otherwise
        the checkout asks for the subscription price in paise, and only its success sets the
        flag, in the current user and in every listed user with the same email. */
    method SubscribeToLibrary(outcome: PaymentEvent) returns (checkout: Option<CheckoutRequest>)
      modifies this`userData, this`allUsers
      ensures FindCategory(old(userData).category).None? ==>
        checkout == None && userData == old(userData) && allUsers == old(allUsers)
      ensures FindCategory(old(userData).category).Some? ==>
        var info := FindCategory(old(userData).category).value;
        checkout == Some(CheckoutRequest(info.subscriptionPrice * 100, "INR",
                                         "Annual subscription for " + info.displayName))
      ensures !(FindCategory(old(userData).category).Some? && outcome.PaymentSucceeded?) ==>
        userData == old(userData) && allUsers == old(allUsers)
      ensures FindCategory(old(userData).category).Some? && outcome.PaymentSucceeded? ==>
        && userData == old(userData).(hasActiveSubscription := true)
        && |allUsers| == |old(allUsers)|
        && forall i :: 0 <= i < |allUsers| ==>
             allUsers[i] == if old(allUsers)[i].email == userData.email then userData else old(allUsers)[i]
    {
      var info := FindCategory(userData.category);
      if info.None? {
        return None;
      }
      checkout := Some(CheckoutRequest(info.value.subscriptionPrice * 100, "INR",
                                       "Annual subscription for " + info.value.displayName));
      if outcome.PaymentSucceeded? {
        var updated := userData.(hasActiveSubscription := true);
        userData := updated;
        allUsers := MapWhere(allUsers, HasEmail(updated.email), Const(updated));
        assert forall i :: 0 <= i < |allUsers| && old(allUsers)[i].email == updated.email ==>
          allUsers[i] == Const<UserData, UserData>(updated)(old(allUsers)[i]);
      }
    }

    method AddDocument(doc: LibraryDocument)
      modifies this`libraryData
      ensures libraryData == [doc] + old(libraryData)
    {
      libraryData := [doc] + libraryData;
    }

    /** Every document with the id is replaced by the new version; the others stay. */
    method UpdateDocument(doc: LibraryDocument)
      modifies this`libraryData
      ensures |libraryData| == |old(libraryData)|
      ensures forall i :: 0 <= i < |libraryData| ==>
        libraryData[i] == if old(libraryData)[i].id == doc.id then doc else old(libraryData)[i]
    {
      libraryData := MapWhere(libraryData, HasDocId(doc.id), ReplaceDoc(doc));
    }

    /** Deletion happens only when the user confirms it, and then removes every copy of the id. */
    method DeleteDocument(docId: string, confirmed: bool)
      modifies this`libraryData
      ensures !confirmed ==> libraryData == old(libraryData)
      ensures confirmed ==> libraryData == Filter(old(libraryData), LacksDocId(docId))
      ensures confirmed ==> forall i :: 0 <= i < |libraryData| ==> libraryData[i].id != docId
      ensures IsSubsequence(libraryData, old(libraryData))
    {
      if confirmed {
        FilterIsSubsequence(libraryData, LacksDocId(docId));
        libraryData := Filter(libraryData, LacksDocId(docId));
      } else {
        SubsequenceOfItself(libraryData);
      }
    }

    /** The logo leads to the dashboard for a user with an address, else to the introduction. */
    method NavigateHome()
      modifies this`step
      ensures step == (if IsUserLoggedIn() then Dashboard else Introduction)
    {
      if userData.profile.Get(Address) != "" {
        step := Dashboard;
      } else {
        step := Introduction;
      }
    }
  }

  /** Right after the mock login the user has no subscription, so entering the library leaves
      the dashboard showing. */
  method MockLoginMeetsLibraryGate(app: AppController, email: string, pass: string)
    requires email != ADMIN_EMAIL
    modifies app
    ensures app.step == Dashboard && app.userData == MockUser(email, pass)
  {
    app.LoginSubmit(email, pass);
    app.EnterLibrary();
  }

  /** A leasee's subscription is charged at 12,000 rupees, and its success opens the library. */
  method SubscriptionOpensLibrary(app: AppController, paymentId: string) returns (checkout: Option<CheckoutRequest>)
    requires app.userData.category == Leasee
    modifies app
    ensures checkout.Some? && checkout.value.amountPaise == 1200000
    ensures app.step == Library && app.userData.hasActiveSubscription
  {
    CategoryPrices(Leasee);
    checkout := app.SubscribeToLibrary(PaymentSucceeded(paymentId));
    app.EnterLibrary();
  }

  /** The library gate for the mock user: refused first, opened after the subscription. */
  method LibraryGateScenario(app: AppController, email: string, pass: string)
    requires email != ADMIN_EMAIL
    modifies app
    ensures app.step == Library && app.userData.hasActiveSubscription
  {
    MockLoginMeetsLibraryGate(app, email, pass);
    var checkout := SubscriptionOpensLibrary(app, "pay_1");
  }

  /** The sign-up path adds its user without looking at the list: signing in as the mock user
      and then registering the same email leaves two entries with that email. */
  method DuplicateSignUpScenario(app: AppController, email: string, pass: string, data: RegistrationFormData)
    requires email != ADMIN_EMAIL && data.email == email && app.allUsers == []
    modifies app
    ensures !UniqueEmails(app.allUsers)
  {
    app.LoginSubmit(email, pass);
    app.BackToLanding();
    app.CategorySelect(Student);
    app.RegistrationSubmit(data);
    app.CompleteVerification();
    app.ProfileSubmit(EmptyProfile());
    assert |app.allUsers| == 2 && app.allUsers[0].email == app.allUsers[1].email;
    assert !UniqueEmails(app.allUsers);
  }
}
