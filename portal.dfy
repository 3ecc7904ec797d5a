/**
 * The portal's global state and the operations that change it: the complaint list with
 * its submissions and status updates, the citizen and official registers, the current
 * session values and the display language. Every mutation of a list rewrites that list's
 * durable copy; the ghost `stored*` fields stand for the browser's local storage.
 */
module Portal {
  import opened Wrappers
  import opened Messages
  import opened Locale
  import opened Accounts
  import opened Complaints
  import opened Schemes

  class App {
    var currentUser: Option<SessionUser>
    var currentOfficial: Option<SessionOfficial>
    var currentLanguage: Language
    var complaints: seq<Complaint>
    var users: seq<User>
    var officials: seq<Official>
    var schemes: seq<Scheme>

    /** The durable copies under the keys `complaints`, `users`, `officials` and `preferredLanguage`. */
    ghost var storedComplaints: seq<Complaint>
    ghost var storedUsers: seq<User>
    ghost var storedOfficials: seq<Official>
    ghost var storedLanguage: Option<Language>

    /** Memory and storage agree; with no stored preference the language is English. */
    ghost predicate Persisted()
      reads this
    {
      && storedComplaints == complaints
      && storedUsers == users
      && storedOfficials == officials
      && currentLanguage == storedLanguage.GetOr(En)
    }

    /** Every complaint has one of the three statuses the dashboard counts. */
    predicate KnownStatuses()
      reads this
    {
      forall k :: 0 <= k < |complaints| ==> KnownStatus(complaints[k].status)
    }

    /**
     * `updateDashboardStats` on the portal's own list: the total is the list's length, and
     * while every status is known, pending, in-progress and resolved add up to the total.
     */
    function Dashboard(): (s: Stats)
      reads this
      ensures s.total == |complaints|
      ensures KnownStatuses() ==> s.pending + s.inProgress + s.resolved == s.total
    {
      DashboardStats(complaints)
    }

    /**
     * Start-up: the three lists are read back from storage (an absent key reads as an
     * empty list), nobody is logged in, and the language is the stored preference or English.
     */
    constructor Load(savedComplaints: seq<Complaint>, savedUsers: seq<User>, savedOfficials: seq<Official>,
                     savedLanguage: Option<Language>)
      ensures Persisted()
      ensures complaints == savedComplaints && users == savedUsers && officials == savedOfficials
      ensures storedLanguage == savedLanguage && currentLanguage == savedLanguage.GetOr(En)
      ensures currentUser == None && currentOfficial == None && schemes == []
    {
      currentUser, currentOfficial := None, None;
      complaints, users, officials, schemes := savedComplaints, savedUsers, savedOfficials, [];
      currentLanguage := savedLanguage.GetOr(En);
      storedComplaints, storedUsers, storedOfficials := savedComplaints, savedUsers, savedOfficials;
      storedLanguage := savedLanguage;
    }

    /** `loadSchemes`: installs the fixed catalogue. */
    method LoadSchemes()
      modifies this`schemes
      ensures schemes == SampleSchemes()
    {
      schemes := SampleSchemes();
    }

    /** `initializeSampleData`: seeds an empty complaint list, and leaves a non-empty one alone. */
    method InitializeSampleData(now: string, dayAgo: string, twoDaysAgo: string)
      requires Persisted()
      modifies this`complaints, this`storedComplaints
      ensures Persisted()
      ensures old(complaints) == [] ==> complaints == SampleComplaints(now, dayAgo, twoDaysAgo)
      ensures old(complaints) != [] ==> complaints == old(complaints)
      ensures old(KnownStatuses()) ==> KnownStatuses()
    {
      if |complaints| == 0 {
        SampleComplaintsFacts(now, dayAgo, twoDaysAgo);
        complaints := SampleComplaints(now, dayAgo, twoDaysAgo);
        storedComplaints := complaints;
      }
    }

    /** `toggleLanguage`: switches the display language and stores the new preference. */
    method ToggleLanguage()
      requires Persisted()
      modifies this`currentLanguage, this`storedLanguage
      ensures Persisted()
      ensures currentLanguage == Toggled(old(currentLanguage)) && storedLanguage == Some(currentLanguage)
    {
      currentLanguage := if currentLanguage == En then Hi else En;
      storedLanguage := Some(currentLanguage);
    }

    /** `loginUser`: a mock login that accepts any password once the form passes its checks. */
    method LoginUser(phone: string, password: string) returns (toast: Toast)
      modifies this`currentUser
      ensures var v := CheckUserLogin(phone, password);
        if v.Accepted? then currentUser == Some(LoggedInUser(phone, "User")) && toast == Toast(LoggedIn, Success)
        else currentUser == old(currentUser) && toast == RejectionToast(v)
    {
      var v := CheckUserLogin(phone, password);
      if v.Rejected? {
        return RejectionToast(v);
      }
      currentUser := Some(LoggedInUser(phone, "User"));
      toast := Toast(LoggedIn, Success);
    }

    /** `registerUser`: appends the new citizen, stores the register and logs the citizen in. */
    method RegisterUser(aadhaar: string, phone: string, email: string, address: string, password: string)
      returns (toast: Toast)
      requires Persisted()
      modifies this`users, this`storedUsers, this`currentUser
      ensures Persisted()
      ensures var (v, u) := (CheckUserRegistration(aadhaar, phone, email, address, password),
                             User(aadhaar, phone, email, address, password));
        if v.Accepted? then
          users == old(users) + [u] && currentUser == Some(RegisteredUser(u)) && toast == Toast(RegisteredOk, Success)
        else
          users == old(users) && currentUser == old(currentUser) && toast == RejectionToast(v)
    {
      var v := CheckUserRegistration(aadhaar, phone, email, address, password);
      if v.Rejected? {
        return RejectionToast(v);
      }
      var u := User(aadhaar, phone, email, address, password);
      users := users + [u];
      storedUsers := users;
      currentUser := Some(RegisteredUser(u));
      toast := Toast(RegisteredOk, Success);
    }

    /** `loginOfficial`: a mock login that accepts any password once both fields are filled. */
    method LoginOfficial(employeeId: string, password: string) returns (toast: Toast)
      modifies this`currentOfficial
      ensures var v := CheckOfficialLogin(employeeId, password);
        if v.Accepted? then
          currentOfficial == Some(LoggedInOfficial(employeeId, "Official", "General")) && toast == Toast(LoggedIn, Success)
        else currentOfficial == old(currentOfficial) && toast == RejectionToast(v)
    {
      var v := CheckOfficialLogin(employeeId, password);
      if v.Rejected? {
        return RejectionToast(v);
      }
      currentOfficial := Some(LoggedInOfficial(employeeId, "Official", "General"));
      toast := Toast(LoggedIn, Success);
    }

    /** `registerOfficial`: appends the new official, stores the register and logs the official in. */
    method RegisterOfficial(name: string, employeeId: string, department: string, email: string, password: string)
      returns (toast: Toast)
      requires Persisted()
      modifies this`officials, this`storedOfficials, this`currentOfficial
      ensures Persisted()
      ensures var (v, o) := (CheckOfficialRegistration(name, employeeId, department, email, password),
                             Official(name, employeeId, department, email, password));
        if v.Accepted? then
          officials == old(officials) + [o] && currentOfficial == Some(RegisteredOfficial(o))
          && toast == Toast(RegisteredOk, Success)
        else
          officials == old(officials) && currentOfficial == old(currentOfficial) && toast == RejectionToast(v)
    {
      var v := CheckOfficialRegistration(name, employeeId, department, email, password);
      if v.Rejected? {
        return RejectionToast(v);
      }
      var o := Official(name, employeeId, department, email, password);
      officials := officials + [o];
      storedOfficials := officials;
      currentOfficial := Some(RegisteredOfficial(o));
      toast := Toast(RegisteredOk, Success);
    }

    /** `logoutUser`: ends the citizen session, with a message in the display language. */
    method LogoutUser() returns (toast: Toast)
      modifies this`currentUser
      ensures currentUser == None
      ensures toast == Toast(if currentLanguage == En then LoggedOutEnglish else LoggedOutHindi, Success)
    {
      currentUser := None;
      toast := Toast(if currentLanguage == En then LoggedOutEnglish else LoggedOutHindi, Success);
    }

    /** `logoutOfficial`: ends the official session. */
    method LogoutOfficial() returns (toast: Toast)
      modifies this`currentOfficial
      ensures currentOfficial == None && toast == Toast(LoggedOutHindi, Success)
    {
      currentOfficial := None;
      toast := Toast(LoggedOutHindi, Success);
    }

    /**
     * `submitComplaint`: once subject, sector and description are filled, appends one
     * pending complaint filed by the current citizen (or `anonymous`) under a fresh draw of
     * the identifier, and stores the list. `random` is the draw of `Math.random()` and `now`
     * the submission instant.
     */
    method SubmitComplaint(subject: string, sector: string, description: string, random: real, now: string)
      returns (toast: Toast)
      requires Persisted()
      requires 0.0 <= random < 1.0
      modifies this`complaints, this`storedComplaints
      ensures Persisted()
      ensures CheckComplaint(subject, sector, description).Rejected? ==>
        complaints == old(complaints) && toast == RejectionToast(CheckComplaint(subject, sector, description))
      ensures CheckComplaint(subject, sector, description).Accepted? ==>
        var c := Complaint(ComplaintId(DrawNumber(random)), subject, sector, description, Pending, now,
                           Submitter(currentUser));
        && complaints == old(complaints) + [c]
        && IsComplaintId(c.id)
        && toast == Toast(ComplaintFiled(c.id), Success)
        && var (s, t) := (DashboardStats(old(complaints)), DashboardStats(complaints));
           t == Stats(s.total + 1, s.pending + 1, s.inProgress, s.resolved)
      ensures old(KnownStatuses()) ==> KnownStatuses()
    {
      var v := CheckComplaint(subject, sector, description);
      if v.Rejected? {
        return RejectionToast(v);
      }
      var n := DrawNumber(random);
      ComplaintIdFormat(n);
      var c := Complaint(ComplaintId(n), subject, sector, description, Pending, now, Submitter(currentUser));
      StatsAfterFiling(complaints, c);
      complaints := complaints + [c];
      storedComplaints := complaints;
      toast := Toast(ComplaintFiled(c.id), Success);
    }

    /**
     * `submitQuickComplaint`: once the description is filled, appends one pending complaint
     * in the `general` sector under the fixed quick-complaint subject, and stores the list.
     */
    method SubmitQuickComplaint(description: string, random: real, now: string) returns (toast: Toast)
      requires Persisted()
      requires 0.0 <= random < 1.0
      modifies this`complaints, this`storedComplaints
      ensures Persisted()
      ensures description == "" ==> complaints == old(complaints) && toast == Toast(DescribeComplaint, Error)
      ensures description != "" ==>
        var c := Complaint(ComplaintId(DrawNumber(random)), QuickSubject, GeneralSector, description, Pending, now,
                           Submitter(currentUser));
        && complaints == old(complaints) + [c]
        && IsComplaintId(c.id)
        && toast == Toast(QuickComplaintFiled(c.id), Success)
        && var (s, t) := (DashboardStats(old(complaints)), DashboardStats(complaints));
           t == Stats(s.total + 1, s.pending + 1, s.inProgress, s.resolved)
      ensures old(KnownStatuses()) ==> KnownStatuses()
    {
      var v := CheckQuickComplaint(description);
      if v.Rejected? {
        return RejectionToast(v);
      }
      var n := DrawNumber(random);
      ComplaintIdFormat(n);
      var c := Complaint(ComplaintId(n), QuickSubject, GeneralSector, description, Pending, now, Submitter(currentUser));
      StatsAfterFiling(complaints, c);
      complaints := complaints + [c];
      storedComplaints := complaints;
      toast := Toast(QuickComplaintFiled(c.id), Success);
    }

    /**
     * `updateComplaintStatus`: overwrites the status of the first complaint with identifier
     * `id` and stores the list; with no such complaint nothing changes and nothing is shown.
     * Any status is accepted, and the previous one is not kept.
     */
    method UpdateComplaintStatus(id: string, newStatus: string) returns (toast: Option<Toast>)
      requires Persisted()
      modifies this`complaints, this`storedComplaints
      ensures Persisted()
      ensures (forall k :: 0 <= k < |old(complaints)| ==> old(complaints)[k].id != id) ==>
        complaints == old(complaints) && toast == None
      ensures forall i :: 0 <= i < |old(complaints)| && old(complaints)[i].id == id
                          && (forall k :: 0 <= k < i ==> old(complaints)[k].id != id) ==>
        && complaints == old(complaints)[i := old(complaints)[i].(status := newStatus)]
        && toast == Some(Toast(StatusUpdated, Success))
      ensures old(KnownStatuses()) && KnownStatus(newStatus) ==> KnownStatuses()
    {
      var i := FindIndex(complaints, id);
      if i == -1 {
        return None;
      }
      complaints := complaints[i := complaints[i].(status := newStatus)];
      storedComplaints := complaints;
      toast := Some(Toast(StatusUpdated, Success));
    }
  }

  /** Seeding an empty list, then filing one complaint while nobody is logged in. */
  method FilingScenario(random: real)
    requires 0.0 <= random < 1.0
  {
    var app := new App.Load([], [], [], None);
    app.InitializeSampleData("t0", "t1", "t2");
    SampleComplaintsFacts("t0", "t1", "t2");
    assert DashboardStats(app.complaints) == Stats(3, 1, 1, 1);

    var toast := app.SubmitComplaint("Water leak", "water", "Leaking pipe", random, "t3");
    assert |app.complaints| == 4;
    assert app.complaints[3].status == Pending && app.complaints[3].userId == Anonymous;
    assert DashboardStats(app.complaints) == Stats(4, 2, 1, 1);
    assert toast.kind == Success;
  }

  /** Resolving the seeded complaint `#12345`. */
  method ResolvingScenario()
  {
    var seeded := SampleComplaints("t0", "t1", "t2");
    var app := new App.Load(seeded, [], [], None);
    SampleComplaintsFacts("t0", "t1", "t2");
    assert seeded[0].id == "#12345" && seeded[0].status == Pending;

    var updated := app.UpdateComplaintStatus("#12345", Resolved);
    assert app.complaints == seeded[0 := seeded[0].(status := Resolved)];
    StatsAfterResolving(seeded, 0);
    assert DashboardStats(app.complaints) == Stats(3, 0, 1, 2);
    assert updated.Some?;
  }

  /** Updating an identifier no seeded complaint has changes nothing and shows nothing. */
  method UnknownIdScenario()
  {
    var seeded := SampleComplaints("t0", "t1", "t2");
    var app := new App.Load(seeded, [], [], None);
    var missing := app.UpdateComplaintStatus("#99999", Resolved);
    assert app.complaints == seeded && missing == None;
  }
}
