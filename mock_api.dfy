/** The mock data store of api.ts: three in-memory tables and the session token that stands in
    for authentication. Every operation finds a row, then changes or inserts it, and fails with one
    of the store's errors on a missing or duplicate key. Latency is left out, so each call is one
    synchronous step; ids and timestamps that the source takes from `Date.now()` are parameters. */
module MockApi {
  import opened Domain
  import opened Text
  import opened Lists
  import opened Catalog
  import opened Ids

  // ---------------------------------------------------------------------------------------
  // The session token

  /** The token stored under 'authToken': `${email}|${password}`. */
  function Token(email: string, password: string): string {
    email + "|" + password
  }

  function IsBar(c: char): bool {
    c == '|'
  }

  /** `const [email, password] = token.split('|')`: the text before the first bar, and the text
      between the first and the second bar (or the end); no bar leaves the password undefined. */
  function ParseToken(t: string): (string, Option<string>) {
    match FirstIndex(t, IsBar)
    case None => (t, None)
    case Some(i) =>
      var rest := t[i + 1..];
      match FirstIndex(rest, IsBar)
      case None => (t[..i], Some(rest))
      case Some(j) => (t[..i], Some(rest[..j]))
  }

  /** Reading back a token whose parts hold no bar gives back both parts. */
  lemma TokenRoundTrip(email: string, password: string)
    requires '|' !in email && '|' !in password
    ensures ParseToken(Token(email, password)) == (email, Some(password))
  {
    var t := Token(email, password);
    assert t[|email|] == '|';
    assert forall k :: 0 <= k < |email| ==> t[k] == email[k];
    var i := FirstIndex(t, IsBar);
    assert i == Some(|email|);
    assert t[..|email|] == email;
    assert t[|email| + 1..] == password;
    assert FirstIndex(password, IsBar) == None;
  }

  /** A bar inside the email shifts the split: the token no longer names its user. */
  lemma TokenWithBarInEmail()
    ensures ParseToken(Token("a|b", "pw")) == ("a", Some("b"))
  {
    var t := Token("a|b", "pw");
    assert t == "a|b|pw";
    assert t[1..][0] == '|';
    assert FirstIndex(t, IsBar) == Some(1);
    var rest := t[2..];
    assert rest == "b|pw" && rest[1..][0] == '|';
    assert FirstIndex(rest, IsBar) == Some(1);
    assert t[..1] == "a" && rest[..1] == "b";
  }

  function CredentialsMatch(email: string, password: Option<string>): UserData -> bool {
    (u: UserData) => u.email == email && password == Some(u.password)
  }

  /** `getMe`: no token means no user; otherwise the first stored user whose email and password
      are the token's two parts. */
  function SessionUser(users: seq<UserData>, session: Option<string>): (r: Option<UserData>)
    ensures session.None? ==> r.None?
    ensures r.Some? ==> r.value in users
    ensures r.Some? ==> ParseToken(session.value) == (r.value.email, Some(r.value.password))
  {
    match session
    case None => None
    case Some(t) =>
      var (e, p) := ParseToken(t);
      match FirstIndex(users, CredentialsMatch(e, p))
      case None => None
      case Some(i) => Some(users[i])
  }

  /** The session user is a stored row, and the row with its email can be found. */
  lemma SessionUserIsStored(users: seq<UserData>, session: Option<string>)
    requires SessionUser(users, session).Some?
    ensures SessionUser(users, session).value in users
    ensures FirstIndex(users, HasEmail(SessionUser(users, session).value.email)).Some?
  {
    var (e, p) := ParseToken(session.value);
    var i := FirstIndex(users, CredentialsMatch(e, p)).value;
    assert HasEmail(users[i].email)(users[i]);
  }

  /** A token resolves to no user exactly when no stored user carries its email and password. */
  lemma SessionUserNoneIff(users: seq<UserData>, t: string)
    ensures SessionUser(users, Some(t)).None? <==>
      forall u :: u in users ==> (u.email, Some(u.password)) != ParseToken(t)
  {
    var (e, p) := ParseToken(t);
    if SessionUser(users, Some(t)).None? {
      forall u | u in users
        ensures (u.email, Some(u.password)) != ParseToken(t)
      {
        var k :| 0 <= k < |users| && users[k] == u;
        assert !CredentialsMatch(e, p)(users[k]);
      }
    }
  }

  /** After a login whose email and password hold no bar, the session resolves to the user
      that login returned. */
  lemma LoginSessionRoundTrip(users: seq<UserData>, email: string, pass: string)
    requires '|' !in email && '|' !in pass
    requires FirstIndex(users, CredentialsMatch(email, Some(pass))).Some?
    ensures var u := users[FirstIndex(users, CredentialsMatch(email, Some(pass))).value];
            SessionUser(users, Some(Token(u.email, u.password))) == Some(u)
  {
    TokenRoundTrip(email, pass);
  }

  // ---------------------------------------------------------------------------------------
  // Pure pieces of the operations

  /** A `Partial<UserData>`: each present field overwrites the stored one. The profile fields
      are keys of the user record itself, so the patch names any subset of them
      (`profileText`), and the picture is present or absent on its own (`Some(None)` is the key
      present with no file). */
  datatype UserPatch = UserPatch(
    name: Option<string>,
    email: Option<string>,
    phone: Option<string>,
    organization: Option<string>,
    password: Option<string>,
    category: Option<UserCategory>,
    profileText: map<ProfileField, string>,
    profilePicture: Option<Option<FileRef>>,
    hasActiveSubscription: Option<bool>,
    payments: Option<seq<PaymentRecord>>,
    bookmarkedDocIds: Option<seq<string>>)

  function Pick<T>(o: Option<T>, d: T): T {
    if o.Some? then o.value else d
  }

  /** `{ ...u, ...patch }`. */
  function ApplyPatch(u: UserData, p: UserPatch): UserData {
    UserData(
      Pick(p.name, u.name), Pick(p.email, u.email), Pick(p.phone, u.phone),
      Pick(p.organization, u.organization), Pick(p.password, u.password),
      Pick(p.category, u.category),
      ProfileData(u.profile.text + p.profileText, Pick(p.profilePicture, u.profile.profilePicture)),
      Pick(p.hasActiveSubscription, u.hasActiveSubscription),
      Pick(p.payments, u.payments), Pick(p.bookmarkedDocIds, u.bookmarkedDocIds))
  }

  /** Merging a patch with no field present changes nothing; merging the user itself back in
      changes nothing either. */
  lemma ApplyPatchIdentity(u: UserData)
    ensures ApplyPatch(u, UserPatch(None, None, None, None, None, None, map[], None, None, None, None)) == u
    ensures ApplyPatch(u, UserPatch(Some(u.name), Some(u.email), Some(u.phone), Some(u.organization),
      Some(u.password), Some(u.category), u.profile.text, Some(u.profile.profilePicture),
      Some(u.hasActiveSubscription), Some(u.payments), Some(u.bookmarkedDocIds))) == u
  {
    assert u.profile.text + map[] == u.profile.text;
    assert u.profile.text + u.profile.text == u.profile.text;
  }

  /** The spread merges the profile key by key: a field the patch names takes its value, every
      other field keeps the stored one, and the picture changes only when the patch holds it. */
  lemma ApplyPatchMergesProfile(u: UserData, p: UserPatch, f: ProfileField)
    ensures ApplyPatch(u, p).profile.Get(f) == if f in p.profileText then p.profileText[f] else u.profile.Get(f)
    ensures ApplyPatch(u, p).profile.profilePicture
         == if p.profilePicture.Some? then p.profilePicture.value else u.profile.profilePicture
  {
  }

  /** The bookmark toggle: remove every copy of the id if present, otherwise append it. */
  function Toggle(ids: seq<string>, id: string): (r: seq<string>)
    ensures id in r <==> id !in ids
    ensures forall x :: x != id ==> (x in r <==> x in ids)
  {
    if id in ids then
      FilterMembers(ids, (x: string) => x != id);
      Filter(ids, (x: string) => x != id)
    else ids + [id]
  }

  /** Toggling an id that was absent, twice, gives back the original list. */
  lemma ToggleTwiceRestores(ids: seq<string>, id: string)
    requires id !in ids
    ensures Toggle(Toggle(ids, id), id) == ids
  {
    var p := (x: string) => x != id;
    assert Toggle(ids, id) == ids + [id];
    FilterAppend(ids, [id], p);
    FilterKeepsAll(ids, p);
    assert Filter([id], p) == [];
  }

  /** A present id comes back at the end of the list: toggling twice keeps the ids but not
      their order. */
  lemma ToggleTwiceMovesToEnd(ids: seq<string>, id: string)
    requires id in ids
    ensures Toggle(Toggle(ids, id), id) == Filter(ids, (x: string) => x != id) + [id]
  {
  }

  /** The row `register` stores: the form data, the category, an empty profile, no subscription,
      no bookmarks and the registration payment as the only payment. */
  function RegisteredUser(data: RegistrationFormData, category: UserCategory, payment: PaymentRecord): (u: UserData)
    ensures u.name == data.name && u.email == data.email && u.phone == data.phone
    ensures u.organization == data.organization && u.password == data.password
    ensures u.category == category && u.profile == EmptyProfile()
    ensures !u.hasActiveSubscription && u.bookmarkedDocIds == [] && u.payments == [payment]
  {
    UserData(data.name, data.email, data.phone, data.organization, data.password,
      category, EmptyProfile(), false, [payment], [])
  }

  /** Appending a user whose email is not taken keeps emails unique. */
  lemma AppendKeepsUnique(users: seq<UserData>, u: UserData)
    requires FirstIndex(users, HasEmail(u.email)).None?
    ensures UniqueEmails(users) ==> UniqueEmails(users + [u])
    ensures !EmailTaken(users, u.email)
  {
    assert forall k :: 0 <= k < |users| ==> !HasEmail(u.email)(users[k]);
  }

  /** The registration fee is the category's price, recorded under the payment id the checkout
      returned. */
  function RegistrationPayment(info: UserCategoryInfo, paymentId: string, now: int): (p: PaymentRecord)
    ensures p.amount == info.price && p.id == paymentId && p.paymentId == paymentId && p.date == now
    ensures p.description == "Registration Fee for " + info.displayName
  {
    PaymentRecord(paymentId, now, "Registration Fee for " + info.displayName, info.price, paymentId)
  }

  /** The subscription charges the category's yearly price, under a payment id taken from the
      clock. */
  function SubscriptionPayment(info: UserCategoryInfo, now: nat): (p: PaymentRecord)
    ensures p.amount == info.subscriptionPrice && p.date == now && p.id == p.paymentId
    ensures p.description == "Annual Library Subscription"
    ensures |p.id| > 8 && p.id[..8] == "rzp_sub_" && p.id[8..] == DecimalString(now)
  {
    var id := "rzp_sub_" + DecimalString(now);
    PaymentRecord(id, now, "Annual Library Subscription", info.subscriptionPrice, id)
  }

  /** A case payment charges the case's fee and names the case, under a payment id taken from
      the clock. */
  function CasePayment(caseId: string, fee: int, now: nat): (p: PaymentRecord)
    ensures p.amount == fee && p.date == now && p.id == p.paymentId
    ensures p.description == "Consultancy Fee for Case #" + caseId
    ensures |p.id| > 9 && p.id[..9] == "rzp_case_" && p.id[9..] == DecimalString(now)
  {
    var id := "rzp_case_" + DecimalString(now);
    PaymentRecord(id, now, "Consultancy Fee for Case #" + caseId, fee, id)
  }

  /** Payments of one kind made at different times get different ids. */
  lemma PaymentIdsDistinct(info: UserCategoryInfo, caseId: string, fee: int, t1: nat, t2: nat)
    requires t1 != t2
    ensures SubscriptionPayment(info, t1).id != SubscriptionPayment(info, t2).id
    ensures CasePayment(caseId, fee, t1).id != CasePayment(caseId, fee, t2).id
  {
    DecimalRoundTrip(t1);
    DecimalRoundTrip(t2);
  }

  /** A subscription id never equals a case payment id: the prefixes differ. */
  lemma PaymentKindsDiffer(info: UserCategoryInfo, caseId: string, fee: int, t1: nat, t2: nat)
    ensures SubscriptionPayment(info, t1).id != CasePayment(caseId, fee, t2).id
  {
    assert SubscriptionPayment(info, t1).id[4] == 's';
    assert CasePayment(caseId, fee, t2).id[4] == 'c';
  }

  /** The case the API stores for a new query: pending, unpaid, stamped with its submitter,
      and with no solution yet. */
  function NewCase(id: string, now: int, issue: string, documentUrl: Option<string>,
                   documentName: Option<string>, me: UserData): (c: ConsultancyCase)
    ensures c.id == id && c.date == now && c.issue == issue
    ensures c.documentUrl == documentUrl && c.documentName == documentName && c.document == None
    ensures c.status == Pending && !c.isPaid
    ensures c.userName == me.name && c.userEmail == me.email
    ensures c.solution == None && c.fee == None
    ensures c.solutionDocument == None && c.solutionDocumentUrl == None && c.solutionDocumentName == None
  {
    ConsultancyCase(id, now, issue, None, documentUrl, documentName, Pending,
      None, None, None, None, None, false, me.name, me.email)
  }

  // ---------------------------------------------------------------------------------------
  // The store

  class MockStore {
    var users: seq<UserData>             // DB_USERS
    var documents: seq<LibraryDocument>  // DB_DOCUMENTS
    var cases: seq<ConsultancyCase>      // DB_CASES
    var session: Option<string>          // localStorage 'authToken'

    constructor()
      ensures users == [] && documents == INITIAL_LIBRARY_DATA && cases == [] && session == None
    {
      users := [];
      documents := INITIAL_LIBRARY_DATA;
      cases := [];
      session := None;
    }

    /** `getMe()`. */
    function Me(): Option<UserData>
      reads this`users, this`session
    {
      SessionUser(users, session)
    }

    method Login(email: string, pass: string) returns (r: Result<UserData>)
      modifies this
      ensures users == old(users) && documents == old(documents) && cases == old(cases)
      ensures r.Ok? <==> exists i :: 0 <= i < |users| && users[i].email == email && users[i].password == pass
      ensures r.Ok? ==> r.value in users && r.value.email == email && r.value.password == pass
      ensures r.Ok? ==> session == Some(Token(email, pass))
      ensures r.Ok? && '|' !in email && '|' !in pass ==> Me() == Some(r.value)
      ensures r.Err? ==> r.error == InvalidCredentials && session == old(session)
    {
      var i := FirstIndex(users, CredentialsMatch(email, Some(pass)));
      if i.None? {
        return Err(InvalidCredentials);
      }
      var user := users[i.value];
      session := Some(Token(user.email, user.password));
      r := Ok(user);
      if '|' !in email && '|' !in pass {
        LoginSessionRoundTrip(users, email, pass);
      }
    }

    method Logout()
      modifies this
      ensures users == old(users) && documents == old(documents) && cases == old(cases)
      ensures session == None && Me() == None
    {
      session := None;
    }

    method Register(data: RegistrationFormData, category: UserCategory, paymentId: string, now: int)
      returns (r: Result<UserData>)
      modifies this`users
      ensures EmailTaken(old(users), data.email) ==> r == Err(UserAlreadyExists) && users == old(users)
      ensures !EmailTaken(old(users), data.email) && category == Unknown ==>
        r == Err(InvalidCategory) && users == old(users)
      ensures r.Ok? <==> !EmailTaken(old(users), data.email) && category != Unknown
      ensures r.Ok? ==>
        && users == old(users) + [r.value]
        && r.value == RegisteredUser(data, category, RegistrationPayment(FindCategory(category).value, paymentId, now))
      ensures UniqueEmails(old(users)) ==> UniqueEmails(users)
    {
      var found := FirstIndex(users, HasEmail(data.email));
      if found.Some? {
        assert users[found.value].email == data.email;
        return Err(UserAlreadyExists);
      }
      var info := FindCategory(category);
      if info.None? {
        return Err(InvalidCategory);
      }
      var newUser := RegisteredUser(data, category, RegistrationPayment(info.value, paymentId, now));
      AppendKeepsUnique(users, newUser);
      users := users + [newUser];
      r := Ok(newUser);
    }

    method CompleteProfile(email: string, profile: ProfileData) returns (r: Result<UserData>)
      modifies this
      ensures documents == old(documents) && cases == old(cases)
      ensures r.Ok? <==> EmailTaken(old(users), email)
      ensures r.Err? ==> r.error == UserNotFound && users == old(users) && session == old(session)
      ensures r.Ok? ==> FirstIndex(old(users), HasEmail(email)).Some?
      ensures r.Ok? ==>
        var i := FirstIndex(old(users), HasEmail(email)).value;
        && users == old(users)[i := old(users)[i].(profile := MergeProfile(old(users)[i].profile, profile))]
        && r.value == users[i]
        && session == Some(Token(email, users[i].password))
      ensures UniqueEmails(old(users)) ==> UniqueEmails(users)
    {
      var i := FirstIndex(users, HasEmail(email));
      if i.None? {
        return Err(UserNotFound);
      }
      var updated := users[i.value].(profile := MergeProfile(users[i.value].profile, profile));
      SameEmailKeepsUnique(users, i.value, updated);
      users := users[i.value := updated];
      session := Some(Token(updated.email, updated.password));
      r := Ok(updated);
    }

    method UpdateProfile(patch: UserPatch) returns (r: Result<UserData>)
      modifies this
      ensures documents == old(documents) && cases == old(cases) && session == old(session)
      ensures r.Err? <==> old(Me()).None?
      ensures r.Err? ==> r.error == NotAuthenticated && users == old(users)
      ensures r.Ok? ==> FirstIndex(old(users), HasEmail(old(Me()).value.email)).Some?
      ensures r.Ok? ==>
        var i := FirstIndex(old(users), HasEmail(old(Me()).value.email)).value;
        && users == old(users)[i := ApplyPatch(old(users)[i], patch)]
        && r.value == users[i]
        && forall f :: r.value.profile.Get(f)
             == if f in patch.profileText then patch.profileText[f] else old(users)[i].profile.Get(f)
      ensures UniqueEmails(old(users)) && (patch.email.None? || (old(Me()).Some? && patch.email == Some(old(Me()).value.email))) ==>
        UniqueEmails(users)
    {
      var me := Me();
      if me.None? {
        return Err(NotAuthenticated);
      }
      SessionUserIsStored(users, session);
      var i := FirstIndex(users, HasEmail(me.value.email)).value;
      var updated := ApplyPatch(users[i], patch);
      if patch.email.None? || patch.email == Some(me.value.email) {
        SameEmailKeepsUnique(users, i, updated);
      }
      users := users[i := updated];
      r := Ok(updated);
    }

    method ChangePassword(oldPass: string, newPass: string) returns (r: Result<UserData>)
      modifies this
      ensures documents == old(documents) && cases == old(cases)
      ensures r.Err? <==> old(Me()).None? || old(Me()).value.password != oldPass
      ensures r.Err? ==> r.error == AuthenticationFailed && users == old(users) && session == old(session)
      ensures r.Ok? ==> FirstIndex(old(users), HasEmail(old(Me()).value.email)).Some?
      ensures r.Ok? ==>
        var me := old(Me()).value;
        var i := FirstIndex(old(users), HasEmail(me.email)).value;
        && users == old(users)[i := old(users)[i].(password := newPass)]
        && r.value == users[i]
        && session == Some(Token(me.email, newPass))
    {
      var me := Me();
      if me.None? || me.value.password != oldPass {
        return Err(AuthenticationFailed);
      }
      SessionUserIsStored(users, session);
      var i := FirstIndex(users, HasEmail(me.value.email)).value;
      users := users[i := users[i].(password := newPass)];
      session := Some(Token(me.value.email, newPass));
      r := Ok(users[i]);
    }

    /** `getDocuments(type?)`: no side effect. */
    function GetDocuments(t: Option<DocumentType>): (r: seq<LibraryDocument>)
      reads this
      ensures t.None? ==> r == documents
      ensures t.Some? ==> forall i :: 0 <= i < |r| ==> r[i].docType == t.value && r[i] in documents
      ensures t.Some? ==> forall i :: 0 <= i < |documents| && documents[i].docType == t.value ==> documents[i] in r
      ensures IsSubsequence(r, documents)
      ensures t.Some? ==> forall d :: multiset(r)[d] == if d.docType == t.value then multiset(documents)[d] else 0
    {
      if t.Some? then
        FilterIsSubsequence(documents, IsOfType(t.value));
        FilterMembers(documents, IsOfType(t.value));
        FilterCounts(documents, IsOfType(t.value));
        Filter(documents, IsOfType(t.value))
      else
        SubsequenceOfItself(documents);
        documents
    }

    method AddDocument(doc: LibraryDocument, now: nat) returns (newDoc: LibraryDocument)
      modifies this
      ensures users == old(users) && cases == old(cases) && session == old(session)
      ensures newDoc == doc.(id := DocumentId(now))
      ensures documents == [newDoc] + old(documents)
    {
      newDoc := doc.(id := DocumentId(now));
      documents := [newDoc] + documents;
    }

    method UpdateDocument(doc: LibraryDocument) returns (r: Result<LibraryDocument>)
      modifies this
      ensures users == old(users) && cases == old(cases) && session == old(session)
      ensures r.Ok? <==> exists i :: 0 <= i < |old(documents)| && old(documents)[i].id == doc.id
      ensures r.Err? ==> r.error == DocumentNotFound && documents == old(documents)
      ensures r.Ok? ==> FirstIndex(old(documents), HasDocId(doc.id)).Some?
      ensures r.Ok? ==>
        var i := FirstIndex(old(documents), HasDocId(doc.id)).value;
        documents == old(documents)[i := doc] && r.value == doc
    {
      var i := FirstIndex(documents, HasDocId(doc.id));
      if i.None? {
        return Err(DocumentNotFound);
      }
      documents := documents[i.value := doc];
      r := Ok(doc);
    }

    method DeleteDocument(docId: string)
      modifies this
      ensures users == old(users) && cases == old(cases) && session == old(session)
      ensures documents == Filter(old(documents), LacksDocId(docId))
      ensures forall i :: 0 <= i < |documents| ==> documents[i].id != docId
      ensures IsSubsequence(documents, old(documents))
    {
      FilterIsSubsequence(documents, LacksDocId(docId));
      documents := Filter(documents, LacksDocId(docId));
    }

    method ToggleBookmark(docId: string) returns (r: Result<UserData>)
      modifies this
      ensures documents == old(documents) && cases == old(cases) && session == old(session)
      ensures r.Err? <==> old(Me()).None?
      ensures r.Err? ==> r.error == NotAuthenticated && users == old(users)
      ensures r.Ok? ==> FirstIndex(old(users), HasEmail(old(Me()).value.email)).Some?
      ensures r.Ok? ==>
        var i := FirstIndex(old(users), HasEmail(old(Me()).value.email)).value;
        && users == old(users)[i := old(users)[i].(bookmarkedDocIds := Toggle(old(users)[i].bookmarkedDocIds, docId))]
        && r.value == users[i]
    {
      var me := Me();
      if me.None? {
        return Err(NotAuthenticated);
      }
      SessionUserIsStored(users, session);
      var i := FirstIndex(users, HasEmail(me.value.email)).value;
      users := users[i := users[i].(bookmarkedDocIds := Toggle(users[i].bookmarkedDocIds, docId))];
      r := Ok(users[i]);
    }

    method SubscribeToLibrary(email: string, now: nat) returns (r: Result<UserData>)
      modifies this
      ensures documents == old(documents) && cases == old(cases) && session == old(session)
      ensures !EmailTaken(old(users), email) ==> r == Err(UserNotFound) && users == old(users)
      ensures FirstIndex(old(users), HasEmail(email)).Some? ==>
        var i := FirstIndex(old(users), HasEmail(email)).value;
        (r.Ok? <==> old(users)[i].category != Unknown) && (r.Err? ==> r.error == InvalidCategory)
      ensures r.Err? ==> users == old(users)
      ensures r.Ok? ==> FirstIndex(old(users), HasEmail(email)).Some?
      ensures r.Ok? ==> FindCategory(old(users)[FirstIndex(old(users), HasEmail(email)).value].category).Some?
      ensures r.Ok? ==>
        var i := FirstIndex(old(users), HasEmail(email)).value;
        var info := FindCategory(old(users)[i].category).value;
        && users == old(users)[i := old(users)[i].(hasActiveSubscription := true,
                                                   payments := old(users)[i].payments + [SubscriptionPayment(info, now)])]
        && r.value == users[i]
        && |r.value.payments| == |old(users)[i].payments| + 1
        && r.value.payments[|r.value.payments| - 1].amount == info.subscriptionPrice
    {
      var i := FirstIndex(users, HasEmail(email));
      if i.None? {
        return Err(UserNotFound);
      }
      var user := users[i.value];
      var info := FindCategory(user.category);
      if info.None? {
        return Err(InvalidCategory);
      }
      var payment := SubscriptionPayment(info.value, now);
      user := user.(hasActiveSubscription := true, payments := user.payments + [payment]);
      users := users[i.value := user];
      r := Ok(user);
    }

    /** `getConsultancyCases(isAdmin)`: the admin call sorts the table itself, newest first. */
    method GetConsultancyCases(isAdmin: bool) returns (r: Result<seq<ConsultancyCase>>)
      modifies this
      ensures users == old(users) && documents == old(documents) && session == old(session)
      ensures isAdmin ==> cases == SortNewestFirst(old(cases), CaseDate) && r == Ok(cases)
      ensures !isAdmin ==> cases == old(cases)
      ensures !isAdmin && Me().None? ==> r == Err(NotAuthenticated)
      ensures !isAdmin && Me().Some? ==>
        r == Ok(SortNewestFirst(Filter(cases, OwnedBy(Me().value.email)), CaseDate))
      ensures CompletedCasesPaid(old(cases)) ==> CompletedCasesPaid(cases)
    {
      if isAdmin {
        if CompletedCasesPaid(cases) {
          PermutationKeepsCompletedPaid(cases, SortNewestFirst(cases, CaseDate));
        }
        cases := SortNewestFirst(cases, CaseDate);
        return Ok(cases);
      }
      var me := Me();
      if me.None? {
        return Err(NotAuthenticated);
      }
      r := Ok(SortNewestFirst(Filter(cases, OwnedBy(me.value.email)), CaseDate));
    }

    method SubmitConsultancyCase(issue: string, documentUrl: Option<string>, documentName: Option<string>, now: nat)
      returns (r: Result<ConsultancyCase>)
      modifies this
      ensures users == old(users) && documents == old(documents) && session == old(session)
      ensures r.Err? <==> old(Me()).None?
      ensures r.Err? ==> r.error == NotAuthenticated && cases == old(cases)
      ensures r.Ok? ==>
        && cases == [r.value] + old(cases)
        && r.value == NewCase(CaseId(now), now, issue, documentUrl, documentName, old(Me()).value)
      ensures CompletedCasesPaid(old(cases)) ==> CompletedCasesPaid(cases)
    {
      var me := Me();
      if me.None? {
        return Err(NotAuthenticated);
      }
      var c := NewCase(CaseId(now), now, issue, documentUrl, documentName, me.value);
      if CompletedCasesPaid(cases) {
        PrependKeepsCompletedPaid(c, cases);
      }
      cases := [c] + cases;
      r := Ok(c);
    }

    /** `updateConsultancyCase`: attaches the solution and sets SOLUTION_READY whatever the
        status was before, a completed case included; no session is needed. */
    method UpdateConsultancyCase(caseId: string, solution: string, fee: int,
                                 solutionDocumentUrl: Option<string>, solutionDocumentName: Option<string>)
      returns (r: Result<ConsultancyCase>)
      modifies this
      ensures users == old(users) && documents == old(documents) && session == old(session)
      ensures r.Ok? <==> exists i :: 0 <= i < |old(cases)| && old(cases)[i].id == caseId
      ensures r.Err? ==> r.error == CaseNotFound && cases == old(cases)
      ensures r.Ok? ==> FirstIndex(old(cases), HasCaseId(caseId)).Some?
      ensures r.Ok? ==>
        var i := FirstIndex(old(cases), HasCaseId(caseId)).value;
        && cases == old(cases)[i := old(cases)[i].(solution := Some(solution), fee := Some(fee),
             solutionDocumentUrl := solutionDocumentUrl, solutionDocumentName := solutionDocumentName,
             status := SolutionReady)]
        && r.value == cases[i]
        && r.value.status == SolutionReady
      ensures CompletedCasesPaid(old(cases)) ==> CompletedCasesPaid(cases)
    {
      var i := FirstIndex(cases, HasCaseId(caseId));
      if i.None? {
        return Err(CaseNotFound);
      }
      var c := cases[i.value].(solution := Some(solution), fee := Some(fee),
        solutionDocumentUrl := solutionDocumentUrl, solutionDocumentName := solutionDocumentName,
        status := SolutionReady);
      if CompletedCasesPaid(cases) {
        UpdateKeepsCompletedPaid(cases, i.value, c);
      }
      cases := cases[i.value := c];
      r := Ok(c);
    }

    /** `payForCase`: needs a session, then the case, then the session user's row, in that
        order; records the payment and marks the case paid and completed. */
    method PayForCase(caseId: string, fee: int, now: nat) returns (r: Result<(ConsultancyCase, UserData)>)
      modifies this
      ensures documents == old(documents) && session == old(session)
      ensures old(Me()).None? ==> r == Err(NotAuthenticated)
      ensures old(Me()).Some? && FirstIndex(old(cases), HasCaseId(caseId)).None? ==> r == Err(CaseNotFound)
      ensures (old(Me()).Some? && FirstIndex(old(cases), HasCaseId(caseId)).Some?
               && FirstIndex(old(users), HasEmail(old(Me()).value.email)).None?) ==> r == Err(UserNotFound)
      ensures r.Ok? <==> old(Me()).Some? && FirstIndex(old(cases), HasCaseId(caseId)).Some?
                         && FirstIndex(old(users), HasEmail(old(Me()).value.email)).Some?
      ensures r.Err? ==> users == old(users) && cases == old(cases)
      ensures r.Ok? ==>
        var ci := FirstIndex(old(cases), HasCaseId(caseId)).value;
        var ui := FirstIndex(old(users), HasEmail(old(Me()).value.email)).value;
        && cases == old(cases)[ci := old(cases)[ci].(isPaid := true, status := Completed)]
        && users == old(users)[ui := old(users)[ui].(payments := old(users)[ui].payments + [CasePayment(caseId, fee, now)])]
        && r.value == (cases[ci], users[ui])
      ensures CompletedCasesPaid(old(cases)) ==> CompletedCasesPaid(cases)
    {
      var me := Me();
      if me.None? {
        return Err(NotAuthenticated);
      }
      var ci := FirstIndex(cases, HasCaseId(caseId));
      if ci.None? {
        return Err(CaseNotFound);
      }
      var ui := FirstIndex(users, HasEmail(me.value.email));
      if ui.None? {
        return Err(UserNotFound);
      }
      var payment := CasePayment(caseId, fee, now);
      var user := users[ui.value].(payments := users[ui.value].payments + [payment]);
      users := users[ui.value := user];
      var c := cases[ci.value].(isPaid := true, status := Completed);
      if CompletedCasesPaid(cases) {
        UpdateKeepsCompletedPaid(cases, ci.value, c);
      }
      cases := cases[ci.value := c];
      r := Ok((c, user));
    }
  }

  /** Registration on an empty store succeeds and stores exactly the new user. */
  method RegisterOnEmptyStore(store: MockStore, form: RegistrationFormData, category: UserCategory,
                              paymentId: string, now: int)
    returns (u: UserData)
    requires store.users == [] && category != Unknown
    modifies store
    ensures store.users == [u] && u.email == form.email && u.password == form.password
  {
    var reg := store.Register(form, category, paymentId, now);
    assert reg.Ok?;
    u := reg.value;
  }

  /** Completing the profile of the only stored user signs that user in. */
  /** `updateProfile` checks no email: signed in as `a`, a patch taking `b`'s email stores two
      rows with that email, and the session, which still names `a`'s old email, then resolves
      to no one. */
  method UpdateProfileDuplicatesEmail(store: MockStore, a: UserData, b: UserData)
    requires store.users == [a, b] && a.email != b.email
    requires '|' !in a.email && '|' !in a.password
    requires store.session == Some(Token(a.email, a.password))
    modifies store
    ensures UniqueEmails(old(store.users)) && !UniqueEmails(store.users)
    ensures store.Me().None?
  {
    TokenRoundTrip(a.email, a.password);
    assert CredentialsMatch(a.email, Some(a.password))(store.users[0]);
    assert FirstIndex(store.users, CredentialsMatch(a.email, Some(a.password))) == Some(0);
    assert HasEmail(a.email)(store.users[0]);
    var patch := UserPatch(None, Some(b.email), None, None, None, None, map[], None, None, None, None);
    var r := store.UpdateProfile(patch);
    assert r.Ok?;
    assert store.users[0].email == b.email && store.users[1] == b;
    assert !CredentialsMatch(a.email, Some(a.password))(store.users[0]);
    assert !CredentialsMatch(a.email, Some(a.password))(store.users[1]);
  }

  method CompleteProfileSignsIn(store: MockStore, u: UserData)
    requires store.users == [u] && '|' !in u.email && '|' !in u.password
    modifies store
    ensures store.Me().Some? && store.Me().value.email == u.email
  {
    assert HasEmail(u.email)(store.users[0]);
    var done := store.CompleteProfile(u.email, EmptyProfile());
    assert done.Ok?;
    var v := done.value;
    assert store.users == [v] && v.email == u.email && v.password == u.password;
    TokenRoundTrip(u.email, u.password);
    assert CredentialsMatch(u.email, Some(u.password))(v);
    assert FirstIndex(store.users, CredentialsMatch(u.email, Some(u.password))) == Some(0);
  }

  /** Sign-up on an empty store: registration followed by profile completion leaves the new
      user signed in. */
  method SignUpScenario(store: MockStore, form: RegistrationFormData, category: UserCategory,
                        paymentId: string, now: int)
    requires store.users == []
    requires '|' !in form.email && '|' !in form.password
    requires category != Unknown
    modifies store
    ensures store.Me().Some? && store.Me().value.email == form.email
  {
    var u := RegisterOnEmptyStore(store, form, category, paymentId, now);
    CompleteProfileSignsIn(store, u);
  }

  /** The consultancy lifecycle for a signed-in user: the query is submitted, the admin attaches
      a solution and a fee, and the user pays it. Every step succeeds, and payment leaves the case
      paid and completed with the fee recorded as the user's last payment. */
  method CaseLifecycleScenario(store: MockStore, issue: string, solution: string, fee: int, t1: nat, t2: nat)
    requires store.Me().Some?
    modifies store
    ensures |store.cases| > 0
    ensures store.cases[0].isPaid && store.cases[0].status == Completed
    ensures store.cases[0].solution == Some(solution) && store.cases[0].fee == Some(fee)
  {
    var submitted := store.SubmitConsultancyCase(issue, None, None, t1);
    var id := submitted.value.id;
    assert HasCaseId(id)(store.cases[0]);
    var solved := store.UpdateConsultancyCase(id, solution, fee, None, None);
    assert FirstIndex(store.cases, HasCaseId(id)) == Some(0);
    SessionUserIsStored(store.users, store.session);
    var paid := store.PayForCase(id, fee, t2);
    assert paid.Ok?;
    var (c, u) := paid.value;
    assert c.isPaid && c.status == Completed;
    assert u.payments[|u.payments| - 1] == CasePayment(id, fee, t2);
  }
}
