# A verified model of the CMMLR legal-services portal

The portal sells access to a mining-law library and a legal consultancy service. A visitor
chooses one of seven user categories, pays that category's registration fee, fills in the
profile fields the category needs, and lands on a dashboard. Premium categories may submit
consultancy queries, which an administrator answers with a solution and a fee that the user
then pays. Any category may buy an annual library subscription.

The project models three parts of the portal:

- the mock back end `api.ts`, which keeps three in-memory tables and a session token;
- the application controller `App.tsx`, which holds the current screen, the user and its own
  copies of the user, case and document lists;
- the view components, each as the state its inputs edit and the decisions it takes:
  the profile, registration, dashboard, library, consultancy and admin screens, and the two
  admin modals.

Modules:

| module | models |
|---|---|
| `Domain` | the records and enumerations of `types.ts`, with the fields the mock API adds |
| `Text`, `Lists` | `toLowerCase`, `includes`, `trim`, `toString`, `slice`; `find`, `filter`, `map`, `sort` |
| `Catalog` | the category table and the library seed of `constants.ts` |
| `Ids` | the ids taken from the clock |
| `MockApi` | `api.ts`: the class `MockStore` holds the tables and the session |
| `AppShell` | `App.tsx`: the class `AppController` |
| `ProfileStep`, `RegistrationStep`, `Dashboard`, `LibraryView`, `ConsultancyPanel`, `AdminPanel`, `AdminCaseModal`, `DocumentFormModal` | one component each |

Conventions:

- The clock (`Date.now()`, `new Date()`) is a parameter: a timestamp in milliseconds, or a
  calendar date written as the number YYYYMMDD. A document with date `0` has no date.
- The external checkout widget is replaced by the two ends of its use. A view builds a
  `CheckoutRequest`, and the widget's outcome comes back as a `PaymentEvent`: success with a
  payment id, failure, or dismissal.
- A category value outside the table is `Unknown`.
- An error the mock API throws is an `Err` with one `ApiError` per message.

## Model

| member | source | states |
|---|---|---|
| Catalog.CategoryTableIsComplete | constants.ts:5-13 | the table has exactly seven entries, one per category, none twice and none outside the seven |
| Catalog.CategoryEntries | constants.ts:5-13 | every entry charges less for registration than for the subscription; an entry is academic exactly when its category is student or researcher |
| Catalog.FindCategory | api.ts:14-18 | the lookup finds an entry exactly for the seven categories; the entry carries the category asked for, comes from the table, and has that category's tier |
| Catalog.CategoryPrices | constants.ts:5-13 | registration and subscription prices: 3000/12000 for dealer, leasee and official; 5000/25000 for firm and company; 1000/6000 for student and researcher |
| Catalog.SeedIdsDistinct | constants.ts:15-72 | the seed library documents have pairwise distinct ids |
| Catalog.SeedCoversType | constants.ts:15-72 | every document type has at least one seed document, so no tab starts empty |
| Ids.CaseIdShape | api.ts:182 | a case id is `CASE-` followed by one to six decimal digits |
| Ids.DocumentIdShape | components/DocumentFormModal.tsx:30 | a document id is `doc-` followed by the clock's decimal digits |
| Ids.CaseIdRepeats | App.tsx:127-144 | a case id keeps only the last six digits of the clock, so two queries submitted a multiple of 1,000,000 ms apart get the same id |
| Ids.DocumentIdsDistinct | api.ts:109-114 | a document id keeps the whole clock, so documents added at different times get different ids |
| Ids.TakeLastDecimal | App.tsx:127-144 | once a number has k digits, the last k characters of its decimal form are its last k digits |
| Text.ContainsIffOccurs | components/Library.tsx:26-38 | `includes` holds exactly when the term starts at some position of the text |
| Text.DecimalRoundTrip | api.ts:109-114 | reading back the decimal form of a number gives the number, so the form is injective |
| Lists.FirstIndex | api.ts:25 | `find`/`findIndex`: the result is the first position that matches, and none is returned exactly when nothing matches |
| Lists.FilterMembers | api.ts:102-108 | `filter` keeps every element that passes and only those |
| Lists.FilterIsSubsequence | api.ts:102-108 | `filter` keeps the survivors in their original order |
| Lists.FilterMultiset | api.ts:122-125 | `filter` keeps each passing element as often as it occurs and drops every other |
| Lists.MapWhere | App.tsx:146-150 | the id-keyed `map` updates exactly the elements that match and leaves every other in place |
| Lists.SortNewestFirst | api.ts:168-176 | the newest-first sort returns a permutation of its input |
| Lists.SortNewestFirstSorted | api.ts:168-176 | the newest-first sort orders by descending date |
| Lists.SortStable | api.ts:168-176 | the sort is stable: among equal dates, the input order survives |
| MockApi.TokenRoundTrip | api.ts:27-41 | splitting a session token at its bars gives back the email and the password, when neither holds a bar |
| MockApi.TokenWithBarInEmail | api.ts:27-41 | with a bar in the email, the split no longer gives the email back |
| MockApi.SessionUser | api.ts:36-43 | `getMe` (the store's `Me`, after `ParseToken` splits the token at its bars): no token gives no user; a user it gives is stored and carries the token's email and password |
| MockApi.SessionUserNoneIff | api.ts:36-43 | a token resolves to no user exactly when no stored user carries its email and password |
| MockApi.SessionUserIsStored | api.ts:36-43 | a user that the session resolves to is a stored user, found by email |
| MockApi.LoginSessionRoundTrip | api.ts:23-43 | after a successful login, the session resolves to the user that logged in |
| MockApi.ApplyPatchMergesProfile | api.ts:83 | the spread merges the profile key by key: a named field takes the patch's value, every other keeps the stored one, and the picture changes only when the patch holds it |
| MockApi.ApplyPatchIdentity | api.ts:78-85 | merging an empty patch, or the user's own fields, changes nothing |
| MockApi.Toggle | api.ts:126-141 | the toggle removes a present id and adds an absent one; every other id keeps its membership |
| MockApi.ToggleTwiceRestores | api.ts:126-141 | toggling an absent id twice gives back the original bookmark list |
| MockApi.ToggleTwiceMovesToEnd | api.ts:126-141 | toggling a present id twice keeps the same ids, with that id moved to the end |
| MockApi.RegisteredUser | api.ts:57-63 | the new user has the form's contact data and the category, no subscription, no bookmarks and the one registration payment |
| MockApi.SubscriptionPayment | api.ts:151-159 | the subscription payment charges the category's yearly price, is described as the annual library subscription and has the id `rzp_sub_` followed by the clock, as id and payment id |
| MockApi.CasePayment | api.ts:218-225 | the case payment charges the case's fee, names the case and has the id `rzp_case_` followed by the clock, as id and payment id |
| MockApi.PaymentIdsDistinct | api.ts:151-225 | payments of one kind made at different times get different ids |
| MockApi.PaymentKindsDiffer | api.ts:151-225 | a subscription payment id never equals a case payment id |
| MockApi.NewCase | api.ts:180-190 | the stored case has the clock's id, the issue and the upload's URL and name, is pending and unpaid, carries the submitter's name and email and has no solution, fee or solution file |
| MockApi.AppendKeepsUnique | api.ts:46-66 | appending a user whose email is not stored keeps emails unique |
| MockApi.RegistrationPayment | api.ts:50-56 | the registration payment records the category's price, the checkout's payment id and "Registration Fee for" with the category's name |
| MockApi.MockStore.constructor | api.ts:6-8 | the store starts with no users, the seed library, no cases and no session |
| MockApi.MockStore.Login | api.ts:23-31 | login succeeds exactly when a stored user has that email and password, and the session then names that user; otherwise the error is invalid credentials and the session is kept |
| MockApi.MockStore.Logout | api.ts:32-35 | logout clears the session, so no user is signed in |
| MockApi.MockStore.Register | api.ts:44-67 | a taken email gives user-already-exists; otherwise an unknown category gives invalid-category; otherwise exactly the new user is appended; unique emails are preserved |
| MockApi.MockStore.CompleteProfile | api.ts:68-75 | the first user with the email gets the merged profile and is signed in; no such user gives user-not-found and changes nothing; unique emails are preserved |
| MockApi.MockStore.UpdateProfile | api.ts:78-85 | with no session, not-authenticated; otherwise the session user's row, and only it, takes the patch, each profile field the patch names taking its value and every other keeping the stored one; unique emails are preserved when the patch leaves the email alone or repeats it |
| MockApi.UpdateProfileDuplicatesEmail | api.ts:78-85 | a patch with another stored user's email stores that email twice, and the session then resolves to no one |
| MockApi.MockStore.ChangePassword | api.ts:86-94 | it fails exactly when no one is signed in or the old password is wrong; otherwise only the password changes and the session follows it |
| MockApi.MockStore.GetDocuments | api.ts:102-108 | no type gives the whole library; a type gives exactly the documents of that type, each as often as the library holds it, in library order |
| MockApi.MockStore.AddDocument | api.ts:109-114 | the document gets the clock's id and goes to the front; nothing else changes |
| MockApi.MockStore.UpdateDocument | api.ts:115-121 | the first document with the id is replaced; a missing id gives document-not-found and changes nothing |
| MockApi.MockStore.DeleteDocument | api.ts:122-125 | every document with the id is removed and the rest keep their order |
| MockApi.MockStore.ToggleBookmark | api.ts:126-141 | with a session, the session user's bookmarks are toggled and nothing else changes; otherwise not-authenticated |
| MockApi.MockStore.SubscribeToLibrary | api.ts:144-165 | an unknown email gives user-not-found; an unknown category gives invalid-category; otherwise the user is subscribed and one payment of the category's subscription price is appended |
| MockApi.MockStore.GetConsultancyCases | api.ts:168-176 | the admin call sorts the table itself, newest first, and returns it; a user call needs a session and returns that user's cases, newest first, without changing the table; the rule that only a paid case is completed is kept |
| MockApi.MockStore.SubmitConsultancyCase | api.ts:177-194 | with a session, a pending unpaid case stamped with the session user goes to the front; otherwise not-authenticated; the rule that only a paid case is completed is kept |
| MockApi.MockStore.UpdateConsultancyCase | api.ts:195-208 | the first case with the id gets the solution and the fee and becomes solution-ready, whatever its status; a missing id gives case-not-found; the rule that only a paid case is completed is kept |
| MockApi.MockStore.PayForCase | api.ts:209-234 | session, then case, then user are checked in that order; on success the case is paid and completed and the fee is appended to the user's payments; the rule that only a paid case is completed is kept |
| MockApi.RegisterOnEmptyStore | api.ts:44-67 | registering on an empty store succeeds and stores exactly the new user |
| MockApi.CompleteProfileSignsIn | api.ts:68-75 | completing the profile of the only stored user signs that user in |
| MockApi.SignUpScenario | api.ts:44-75 | registration followed by profile completion leaves the new user signed in |
| MockApi.CaseLifecycleScenario | api.ts:177-234 | submit, answer and pay all succeed, and the case ends paid and completed with the admin's solution and fee |
| AppShell.MockUser | App.tsx:61-72 | any non-admin login signs in as a leasee with that email and password, an address and no subscription |
| AppShell.WithRegistration | App.tsx:88-91 | the registration form overwrites the draft's contact fields and password and keeps everything else |
| AppShell.AttachmentName | App.tsx:127-144 | the attachment name is "N/A" exactly when there is no file, or its name is empty or "N/A" |
| AppShell.SolutionName | App.tsx:226-239 | the solution name is empty exactly when there is no file or the file has no name; a non-empty name is the file's |
| AppShell.AttachmentShownIff | App.tsx:127-144 | a new query shows its attachment line (the consultancy view's `ShowsAttachment`, components/Consultancy.tsx:180) exactly when a file with a name other than "" and "N/A" was attached |
| Domain.PrependKeepsCompletedPaid | api.ts:177-194 | prepending a case that is not completed unless paid keeps the rule that only a paid case is completed |
| Domain.UpdateKeepsCompletedPaid | api.ts:195-234 | replacing one case by one that is not completed unless paid keeps that rule |
| Domain.PermutationKeepsCompletedPaid | api.ts:168-176 | any reordering of the cases, the admin sort included, keeps that rule |
| Domain.SameEmailKeepsUnique | api.ts:68-85 | replacing a user by one with the same email keeps emails unique |
| AppShell.PaymentKeepsCompletedPaid | App.tsx:146-150 | payment keeps the rule that only a paid case is completed |
| AppShell.AnswerKeepsCompletedPaid | App.tsx:226-239 | an answer keeps the rule that only a paid case is completed |
| AppShell.NewCaseKeepsPaidCompleted | App.tsx:127-144 | a new unpaid case keeps the rule that every paid case is completed |
| AppShell.PaymentKeepsPaidCompleted | App.tsx:146-150 | payment keeps the rule that every paid case is completed |
| AppShell.AnswerKeepsPaidCompleted | App.tsx:226-239 | an answer to a case that is not completed keeps the rule that every paid case is completed |
| AppShell.AnswerToPaidCaseReopensIt | App.tsx:226-239 | an answer to a paid, completed case leaves it paid but solution-ready again |
| AppShell.NewCaseKeepsPaidAnswered | App.tsx:127-144 | a new unpaid case keeps the rule that no paid case is pending |
| AppShell.PaymentKeepsPaidAnswered | App.tsx:146-150 | payment keeps the rule that no paid case is pending |
| AppShell.AnswerKeepsPaidAnswered | App.tsx:226-239 | any answer keeps the rule that no paid case is pending |
| AppShell.ListedCaseShowsOneBlock | App.tsx:127-239 | under that rule, every listed case shows exactly one of the review notice, the pay prompt and the solution |
| AppShell.AppController.constructor | App.tsx:29-33 | the app starts on the introduction with an empty user, no users, no cases and the seed library |
| AppShell.AppController.ConsultancyView | App.tsx:285 | the consultancy screen gets exactly the signed-in user's cases, each as often as the list holds it, in list order |
| AppShell.AppController.Reset | App.tsx:35-38 | reset forgets the user and shows the introduction; the lists are kept |
| AppShell.AppController.AdminLogout | App.tsx:40-43 | admin logout does what reset does |
| AppShell.AppController.GoToLogin | App.tsx:45-47 | the login screen is shown |
| AppShell.AppController.GetStarted | App.tsx:49-51 | the landing screen is shown |
| AppShell.AppController.AdminLoginClick | App.tsx:213-215 | the login screen is shown |
| AppShell.AppController.BackToDashboard | App.tsx:119-121 | the dashboard is shown |
| AppShell.AppController.EnterConsultancy | App.tsx:123-125 | the consultancy screen is shown |
| AppShell.AppController.CompleteVerification | App.tsx:93-95 | the profile screen follows verification |
| AppShell.AppController.LoginSubmit | App.tsx:53-81 | the admin pair opens the admin screen and changes nothing else; any other pair signs in as the mock user, who is listed only when the email is new; unique emails are preserved |
| AppShell.AppController.CategorySelect | App.tsx:83-86 | choosing a category starts a fresh draft holding only that category |
| AppShell.AppController.RegistrationSubmit | App.tsx:88-91 | the form's data goes into the draft and the verification screen follows |
| AppShell.AppController.ProfileSubmit | App.tsx:97-102 | the draft with the merged profile and no subscription is signed in and appended to the user list, without a check of its email |
| AppShell.AppController.BackToLanding | App.tsx:104-107 | the user is forgotten and the landing screen is shown |
| AppShell.AppController.EnterLibrary | App.tsx:109-117 | the library opens exactly for a subscriber; otherwise the screen stays |
| AppShell.AppController.NewConsultancySubmit | App.tsx:127-144 | a pending unpaid case with the clock's id, the user's name and email and the attachment name, and no solution, fee or solution file, goes to the front; no paid case is pending afterwards if none was before, and only a paid case is completed afterwards if that held before |
| AppShell.AppController.PaymentForCase | App.tsx:146-150 | every case with the id, and no other, becomes paid and completed; no paid case is pending afterwards if none was before, and only a paid case is completed afterwards if that held before |
| AppShell.AppController.AdminUpdateCase | App.tsx:226-239 | every case with the id, and no other, gets the solution, the fee and the file and becomes solution-ready; no paid case is pending afterwards if none was before, and only a paid case is completed afterwards if that held before |
| AppShell.AppController.SubscribeToLibrary | App.tsx:152-197 | no category entry, no checkout; otherwise a checkout for the subscription price in paise, and only its success subscribes the user and every listed user with the same email |
| AppShell.AppController.AddDocument | App.tsx:199-201 | the document goes to the front of the library |
| AppShell.AppController.UpdateDocument | App.tsx:203-205 | every document with the id is replaced and the rest stay |
| AppShell.AppController.DeleteDocument | App.tsx:207-211 | only a confirmed deletion removes the documents with the id; the rest keep their order |
| AppShell.AppController.NavigateHome | App.tsx:217-224 | the logo leads to the dashboard for a signed-in user (`IsUserLoggedIn`, App.tsx:308: the user has an address), else to the introduction |
| AppShell.MockLoginMeetsLibraryGate | App.tsx:53-117 | right after the mock login the library stays closed |
| AppShell.SubscriptionOpensLibrary | App.tsx:152-197 | a leasee's subscription is charged 1,200,000 paise, and its success opens the library |
| AppShell.LibraryGateScenario | App.tsx:53-197 | the mock user is refused the library first and let in after subscribing |
| AppShell.DuplicateSignUpScenario | App.tsx:53-102 | signing in as the mock user and then signing up with the same email lists that email twice |
| ProfileStep.GroupsPartition | components/ProfileStep.tsx:57-60 | the four groups split the seven categories, each into exactly one group |
| ProfileStep.IsFormValidIff | components/ProfileStep.tsx:62-80 | `IsFormValid`, which also disables the submit button (components/ProfileStep.tsx:190): the form is valid exactly when address, bio and every field of the category's block are filled; an unknown category is never valid |
| ProfileStep.ValidityIgnoresOtherFields | components/ProfileStep.tsx:62-80 | editing a field outside the category's block never changes validity |
| ProfileStep.InitialProfile | components/ProfileStep.tsx:13-36 | the initial state lists every field with the empty value and no picture |
| ProfileStep.InitialProfileInvalid | components/ProfileStep.tsx:13-80 | a fresh form is never valid |
| ProfileStep.ProfileForm.constructor | components/ProfileStep.tsx:13-36 | the form starts from the initial profile with no file name |
| ProfileStep.ProfileForm.Change | components/ProfileStep.tsx:39-42 | an input sets its own field and no other |
| ProfileStep.ProfileForm.FileChange | components/ProfileStep.tsx:44-50 | a chosen file becomes the picture and its name is shown; an empty choice changes nothing |
| ProfileStep.ProfileForm.Submit | components/ProfileStep.tsx:52-190 | the form is submitted exactly when it is valid (the button's `disabled`, line 190), and then hands over its data as it stands |
| Dashboard.DetailItem | components/Dashboard.tsx:35-39 | a detail line shows exactly when its value is not empty |
| Dashboard.DetailFieldsAreRequiredFields | components/Dashboard.tsx:44-79 | the dashboard's detail block lists exactly the fields the profile form requires, in order |
| Dashboard.AllDetailsShownIff | components/Dashboard.tsx:35-39 | every detail line shows exactly when every field of the block is filled |
| Dashboard.ValidProfileShowsAllDetails | components/Dashboard.tsx:44-79 | a profile that passed the form's check shows its whole detail block |
| Dashboard.View | components/Dashboard.tsx:16-127 | an unknown category shows the error; otherwise consultancy access exactly for premium tiers, library access exactly for subscribers, the organization line exactly when it is set |
| Dashboard.ConsultancyAccessByCategory | components/Dashboard.tsx:22 | consultancy access is denied exactly to students and researchers |
| RegistrationStep.ContactDetails.With | components/RegistrationStep.tsx:31-34 | reading any field after an input gives the input's value for the input's own field and the old value for every other |
| RegistrationStep.OrganizationIsOptional | components/RegistrationStep.tsx:82-105 | whatever is typed into the organization, the form's validity stays as it was |
| RegistrationStep.RegistrationCheckout | components/RegistrationStep.tsx:39-42 | the checkout asks for the category's price in paise, in rupees, named after the category |
| RegistrationStep.CheckoutMatchesRecordedFee | components/RegistrationStep.tsx:39-42 | the checkout charges 100 times the amount the mock API records, with the same description |
| RegistrationStep.RegistrationForm.constructor | components/RegistrationStep.tsx:19-29 | the form starts empty, not processing, with its category's table entry |
| RegistrationStep.RegistrationForm.Change | components/RegistrationStep.tsx:31-34 | an input sets its own contact field |
| RegistrationStep.RegistrationForm.SetPassword | components/RegistrationStep.tsx:117 | typing sets the password only |
| RegistrationStep.RegistrationForm.SetConfirmPassword | components/RegistrationStep.tsx:118 | typing sets the confirmation only |
| RegistrationStep.RegistrationForm.Submit | components/RegistrationStep.tsx:72-80 | a password that differs from its confirmation stops without a checkout; otherwise processing starts with the category's checkout |
| RegistrationStep.RegistrationForm.PaymentOutcome | components/RegistrationStep.tsx:43-68 | success hands the contact details and the password on; failure or dismissal ends processing with nothing handed on |
| RegistrationStep.ValidFormReachesCheckout | components/RegistrationStep.tsx:72-123 | a form that passes `IsFormValid` (name, email, phone and password filled, and the confirmation equal to the password; line 82) always reaches its category's checkout, and then `SubmitDisabled` (line 123: invalid or processing) holds |
| LibraryView.FilteredDocuments | components/Library.tsx:26-38 | the shown documents all have the active type and keep store order |
| LibraryView.FilteredDocumentsIff | components/Library.tsx:26-38 | a document is shown exactly when it has the active type and, for a non-empty term, its title or description contains the term, ignoring case |
| LibraryView.EmptyTermShowsWholeTab | components/Library.tsx:26-38 | an empty search shows every document of the tab, in store order |
| LibraryView.SearchIgnoresCase | components/Library.tsx:26-38 | a search term and its lower-case form show the same documents |
| LibraryView.Browser.constructor | components/Library.tsx:22-24 | the browser opens on the bare-act tab with no search and no open document |
| LibraryView.Browser.TabClick | components/Library.tsx:40-43 | a tab click switches tab and clears the search, so the whole new tab shows |
| LibraryView.Browser.Search | components/Library.tsx:22-38 | typing sets the search term only |
| AdminPanel.GetUserCategoryLabel | components/Admin.tsx:50-52 | the label of a listed category is its name in the table; any other shows "N/A" |
| AdminPanel.FilteredDocs | components/Admin.tsx:61-63 | the admin table shows documents of the active tab only, newest first |
| AdminPanel.FilteredDocsExact | components/Admin.tsx:61-63 | the admin table lists each document of the tab as often as the store holds it, and nothing else |
| AdminPanel.FilteredDocsStable | components/Admin.tsx:61-63 | documents of the same date keep their store order |
| AdminPanel.Panel.constructor | components/Admin.tsx:54-59 | the panel starts on the bare-act tab with both modals closed |
| AdminPanel.Panel.SelectLibTab | components/Admin.tsx:54-63 | the tab is switched |
| AdminPanel.Panel.OpenAddDocModal | components/Admin.tsx:65-78 | the document form opens with no document to edit |
| AdminPanel.Panel.OpenEditDocModal | components/Admin.tsx:65-78 | the document form opens on the chosen document |
| AdminPanel.Panel.CloseDocModal | components/Admin.tsx:65-78 | the document form closes and forgets its document |
| AdminPanel.Panel.DocFormSubmit | components/Admin.tsx:80-87 | the form's document is an update while a document is being edited and an addition otherwise; the form closes |
| AdminPanel.Panel.OpenCaseModal | components/Admin.tsx:89-97 | the case form opens on the chosen case |
| AdminPanel.Panel.CloseCaseModal | components/Admin.tsx:89-97 | the case form closes and forgets its case |
| AdminPanel.Panel.CaseUpdate | components/Admin.tsx:99-102 | the answer goes to the application unchanged and the case form closes |
| ConsultancyPanel.CaseCheckout | components/Consultancy.tsx:57-67 | for a case with a payable fee (`HasPayableFee`: a fee that is present and not zero, the check of line 57 and the pay button's of line 195), the case checkout asks for the fee in paise, never zero, named after the case id |
| ConsultancyPanel.Section | components/Consultancy.tsx:184-227 | which blocks of a case's solution section show: the review notice only while pending, the pay prompt for an answered unpaid case, the solution once paid |
| ConsultancyPanel.SectionShowsOneBlock | components/Consultancy.tsx:184-227 | for any case that is not both paid and pending, exactly one of the review notice, the pay prompt and the solution shows, and a shown solution shows its text, its document or the processed notice |
| ConsultancyPanel.ConsultancyForm.constructor | components/Consultancy.tsx:29-33 | the form starts empty with no case open and nothing submitting |
| ConsultancyPanel.ConsultancyForm.SetIssue | components/Consultancy.tsx:29-54 | typing sets the query text |
| ConsultancyPanel.ConsultancyForm.FileChange | components/Consultancy.tsx:35-41 | a chosen file is attached and its name shown; an empty choice changes nothing |
| ConsultancyPanel.ConsultancyForm.Submit | components/Consultancy.tsx:43-54 | a blank query is ignored; otherwise the query and its attachment are handed on and submission starts; whenever the button is enabled (`SubmitDisabled`, line 131: blank query or submitting) the query goes out |
| ConsultancyPanel.ConsultancyForm.SubmitSettled | components/Consultancy.tsx:43-54 | after a submission the form is cleared and enabled again |
| ConsultancyPanel.ConsultancyForm.ViewDetails | components/Consultancy.tsx:96-98 | the case's details open |
| ConsultancyPanel.ConsultancyForm.CloseDetails | components/Consultancy.tsx:171 | the details close |
| ConsultancyPanel.ConsultancyForm.PayForSolution | components/Consultancy.tsx:56-94 | no payable fee, no checkout; otherwise the fee's checkout, and only its success reports the case paid and shows it paid and completed |
| ConsultancyPanel.PayFromDetails | components/Consultancy.tsx:56-94 | paying from the details of an answered case unlocks its solution in the same view |
| AdminCaseModal.InitialSolution | components/AdminCaseModal.tsx:20-28 | the form opens with the case's solution, or empty |
| AdminCaseModal.InitialFee | components/AdminCaseModal.tsx:20-28 | the fee input opens empty exactly when the case has no fee or a zero fee |
| AdminCaseModal.CaseForm.constructor | components/AdminCaseModal.tsx:15-18 | the form starts empty and holds no file |
| AdminCaseModal.CaseForm.Load | components/AdminCaseModal.tsx:20-30 | a case handed to the form (drawn only while `Rendered`: open and with a case, line 30) resets it to the case's solution and fee, with no file |
| AdminCaseModal.CaseForm.SetSolution | components/AdminCaseModal.tsx:15-58 | typing sets the solution text |
| AdminCaseModal.CaseForm.SetFee | components/AdminCaseModal.tsx:121 | typing sets the fee input |
| AdminCaseModal.CaseForm.FileChange | components/AdminCaseModal.tsx:32-45 | a PDF (`IsPdf`: the MIME type `application/pdf`) is taken; any other file is refused and clears the current one; only a PDF is ever held |
| AdminCaseModal.CaseForm.Submit | components/AdminCaseModal.tsx:47-123 | no fee, or a negative one (the input's `min="0"`, line 123), stops it; then a blank solution without a file stops it; otherwise the answer is forwarded, with a fee of at least zero, a PDF or no file, and a solution or a file |
| AdminCaseModal.EnabledSaveKeepsPaidCompleted | components/AdminCaseModal.tsx:141 | while the save button is enabled only for cases that are not completed (`SubmitDisabled`), a forwarded answer keeps every paid case completed |
| AdminCaseModal.ReopenAndSave | components/AdminCaseModal.tsx:20-123 | reopening an answered case with a positive fee and saving it unchanged forwards the stored solution and fee and answers the case as before; a stored negative fee is refused |
| AdminCaseModal.ZeroFeeCannotBeResaved | components/AdminCaseModal.tsx:20-58 | a case with a zero fee reopens with an empty fee and cannot be saved until a fee is typed |
| DocumentFormModal.InitialState | components/DocumentFormModal.tsx:30-37 | a new document starts with the clock's id, the tab's type and today's date; an edited one keeps each field unless it is empty |
| DocumentFormModal.EditOpensUnchanged | components/DocumentFormModal.tsx:30-37 | a document with an id and a date opens unchanged |
| DocumentFormModal.ApplyEdit | components/DocumentFormModal.tsx:49-85 | an input sets its own field; no input touches the id, and the type, whose select is disabled, is never changed |
| DocumentFormModal.EditsKeepId | components/DocumentFormModal.tsx:49-54 | after any sequence of edits the form still has the id and the type it opened with |
| DocumentFormModal.DocumentForm.constructor | components/DocumentFormModal.tsx:39 | the form starts from its initial state |
| DocumentFormModal.DocumentForm.Reinitialize | components/DocumentFormModal.tsx:41-45 | an open form starts over from its initial state; a closed one keeps its data |
| DocumentFormModal.DocumentForm.Change | components/DocumentFormModal.tsx:49-54 | an input applies its edit |
| DocumentFormModal.DocumentForm.Submit | components/DocumentFormModal.tsx:56-137 | the form is submitted exactly when title, date, description and content, the inputs marked required (lines 101, 113, 125, 137), are filled, and then hands over the form's data as it stands |
| DocumentFormModal.NewFormNotSubmittable | components/DocumentFormModal.tsx:30-137 | a new document's form cannot be submitted before its text inputs are filled |
| DocumentFormModal.FilledDocumentSubmittable | components/DocumentFormModal.tsx:30-137 | a stored document with every required field filled opens as a form that can be submitted |
| DocumentFormModal.EditAndSave | components/DocumentFormModal.tsx:30-137 | opening a document, editing a title and content and saving goes through exactly when the new title and content and the kept description are non-empty, and gives the edited document under its own id |

## Left out

- Rendering: JSX, styles, icons, animations, status texts and tab labels are not modelled. Only the decisions the views take are: which blocks show and which buttons are disabled.
- The context screens are not part of this model: `LandingStep`, `LoginStep`, `VerificationStep`, `Navbar`, `LandingPage`. Nor is `types.ts`, beyond the records it declares.
- The checkout widget (Razorpay in the source) is external code. Its use is a `CheckoutRequest` going out and a `PaymentEvent` coming back.
- Latency: the mock API's `sleep` calls and the views' `setTimeout` are left out, so each call is one step. The consultancy form's timer is the separate step `SubmitSettled`.
- Browser storage: `localStorage` is the store's `session` field.
- Browser dialogs: `console`, `alert` and `confirm` are left out. A confirmation is a boolean parameter of `DeleteDocument`.
- `toLowerCase` is modelled on ASCII letters only. `trim` removes the ASCII whitespace and the few other white-space characters listed in `Text.IsWhitespace`.
- Document dates are the numbers YYYYMMDD, so the sort by `new Date(date)` is a sort by that number. An empty date is `0`.
- The fee is a whole number of rupees. The admin form turns the input into a number with `Number(...)` and stops on `isNaN` (components/AdminCaseModal.tsx:49, 57, 121). A non-numeric input (NaN) is not modelled: the input is `Blank` or a number.
- Browser constraint validation is modelled where a form's handler can be reached without it: the document form's `required` inputs and the case form's `min="0"`. Elsewhere every `required` input is also checked by the submit button's `disabled` condition or by the handler (the profile form, the registration form, the consultancy query and the case fee). The email inputs' `type="email"` format check is not modelled: an email is any string.
- `getAllUsers` and `uploadFile` are not modelled: the mock `uploadFile` only fakes a URL from the file name. `getAllUsers` returns the table unchanged, and that table is the `users` field.
- File objects are reduced to a name and a MIME type (`FileRef`).
- A profile patch (`UserPatch`) names any subset of the profile's text fields, merged key by key as the spread of the flat user record does. A key present with the value `undefined` is not distinguished from an absent one for the text fields.
- `MergeProfile` takes the new picture even when the new data has none, as the spread of a profile that holds the key does.
- RegistrationStep.RegistrationForm.constructor: requires a category from the table, because the view casts the result of the lookup and reads its price and label without a check.
- MockApi.MockStore.UpdateProfile: checks no email, as the code does; a patch taking another stored user's email breaks the uniqueness of emails and leaves the session resolving to no one (`MockApi.UpdateProfileDuplicatesEmail`). Uniqueness is promised only for a patch that leaves the email alone or repeats it.
- UpdateConsultancyCase and AppShell.AppController.AdminUpdateCase answer a case whatever its status, as the code does. Only the admin form's disabled save button keeps completed cases from being answered again; `AppShell.AnswerToPaidCaseReopensIt` shows what happens without it.
- The application controller lists the mock user only when its email is new, but a sign-up appends its user without a check (`AppShell.DuplicateSignUpScenario`).
- Case ids repeat every 1,000,000 ms (`Ids.CaseIdRepeats`). The model keeps the source's ids and does not repair them.
- In `payForCase`, the user-not-found branch cannot be reached while the session resolves to a user (`MockApi.SessionUserIsStored`). It is still modelled.
- The session token is split at `|` (`MockApi.TokenWithBarInEmail`). An email with a bar cannot be signed back in; the model keeps that split.
- React's hooks and re-rendering are not modelled. Each `useEffect` that the model needs is a method the caller invokes, such as `Load` or `Reinitialize`.
