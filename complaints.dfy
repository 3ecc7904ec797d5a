/**
 * Complaint records and the pure rules around them: the identifier drawn for a new
 * complaint, the form checks, the first-match lookup `updateComplaintStatus` performs,
 * the dashboard counts, the official dashboard's status filter and the status labels.
 */
module Complaints {
  import opened Wrappers
  import opened Strings
  import opened Sequences
  import opened Messages
  import opened Accounts

  const Pending := "pending"
  const InProgress := "in-progress"
  const Resolved := "resolved"
  /** The status filter that shows every complaint. */
  const AnyStatus := "all"
  /** `userId` of a complaint filed while nobody is logged in. */
  const Anonymous := "anonymous"
  /** Sector and subject of a quick complaint. */
  const GeneralSector := "general"
  const QuickSubject := "त्वरित शिकायत"

  datatype Complaint = Complaint(
    id: string,
    subject: string,
    sector: string,
    description: string,
    status: string,
    date: string,
    userId: string)

  predicate KnownStatus(status: string) {
    status == Pending || status == InProgress || status == Resolved
  }

  // ---------------------------------------------------------------- identifiers

  const MinNumber := 10000
  const MaxNumber := 99999

  /** `Math.floor(random * 90000 + 10000)` for a draw `random` of `Math.random()`. */
  function DrawNumber(random: real): (n: nat)
    requires 0.0 <= random < 1.0
    ensures MinNumber <= n <= MaxNumber
  {
    (random * 90000.0 + 10000.0).Floor
  }

  /** `'#' + n`: a hash sign followed by the decimal digits of `n`. */
  function ComplaintId(n: nat): (id: string)
    ensures |id| >= 2 && id[0] == '#' && AllDigits(id[1..])
  {
    "#" + Decimal(n)
  }

  /** The identifier shape the portal hands out: `#` and five digits, the first not `0`. */
  predicate IsComplaintId(id: string) {
    |id| == 6 && id[0] == '#' && AllDigits(id[1..]) && id[1] != '0'
  }

  /** The number behind an identifier of the form `#` followed by digits. */
  function ParseComplaintId(id: string): Option<nat> {
    if |id| >= 2 && id[0] == '#' && AllDigits(id[1..]) then Some(ParseDecimal(id[1..])) else None
  }

  /** Every number a draw can give yields an identifier of the portal's shape, from which it can be read back. */
  lemma ComplaintIdFormat(n: nat)
    requires MinNumber <= n <= MaxNumber
    ensures IsComplaintId(ComplaintId(n))
    ensures ParseComplaintId(ComplaintId(n)) == Some(n)
  {
    assert Pow10(4) == 10000 && Pow10(5) == 100000;
    DecimalLength(n, 4);
    DecimalLeadingDigit(n);
    ParseDecimalOfDecimal(n);
    assert ComplaintId(n)[1..] == Decimal(n);
  }

  /** Two draws give the same identifier exactly when they give the same number. */
  lemma ComplaintIdInjective(m: nat, n: nat)
    ensures ComplaintId(m) == ComplaintId(n) <==> m == n
  {
    ParseDecimalOfDecimal(m);
    ParseDecimalOfDecimal(n);
    assert ComplaintId(m)[1..] == Decimal(m);
    assert ComplaintId(n)[1..] == Decimal(n);
  }

  /** `currentUser ? currentUser.phone : 'anonymous'`. */
  function Submitter(user: Option<SessionUser>): string {
    if user.Some? then user.value.Phone() else Anonymous
  }

  // ---------------------------------------------------------------- form checks

  /** `submitComplaint` needs subject, sector and description. */
  function CheckComplaint(subject: string, sector: string, description: string): (v: Verdict)
    ensures v.Accepted? <==> subject != "" && sector != "" && description != ""
    ensures v.Rejected? ==> v.message == FillAllFields
  {
    if subject == "" || sector == "" || description == "" then Rejected(FillAllFields) else Accepted
  }

  /** `submitQuickComplaint` needs a description. */
  function CheckQuickComplaint(description: string): (v: Verdict)
    ensures v.Accepted? <==> description != ""
    ensures v.Rejected? ==> v.message == DescribeComplaint
  {
    if description == "" then Rejected(DescribeComplaint) else Accepted
  }

  // ---------------------------------------------------------------- lookup

  /** `complaints.findIndex(c => c.id === id)`: the first match, or -1. */
  function FindIndex(cs: seq<Complaint>, id: string): (r: int)
    ensures -1 <= r < |cs|
    ensures r == -1 <==> forall k :: 0 <= k < |cs| ==> cs[k].id != id
    ensures 0 <= r ==> cs[r].id == id && forall k :: 0 <= k < r ==> cs[k].id != id
  {
    if cs == [] then -1
    else if cs[0].id == id then 0
    else
      var j := FindIndex(cs[1..], id);
      if j == -1 then -1 else j + 1
  }

  // ---------------------------------------------------------------- dashboard counts

  datatype Stats = Stats(total: nat, pending: nat, inProgress: nat, resolved: nat)

  function HasStatus(status: string): Complaint -> bool {
    (c: Complaint) => c.status == status
  }

  /**
   * `complaints.filter(c => c.status === status).length`: at most the number of complaints,
   * and zero exactly when no complaint has that status.
   */
  function Count(cs: seq<Complaint>, status: string): (r: nat)
    ensures r <= |cs|
    ensures r == 0 <==> forall k :: 0 <= k < |cs| ==> cs[k].status != status
  {
    FilterEmpty(cs, HasStatus(status));
    |Filter(cs, HasStatus(status))|
  }

  /**
   * The four figures `updateDashboardStats` shows: the total is the number of complaints,
   * and the three status counts add up to at most the total, and to exactly the total when
   * every complaint has a known status.
   */
  function DashboardStats(cs: seq<Complaint>): (s: Stats)
    ensures s.total == |cs|
    ensures s.pending + s.inProgress + s.resolved <= s.total
    ensures (forall k :: 0 <= k < |cs| ==> KnownStatus(cs[k].status)) ==>
      s.pending + s.inProgress + s.resolved == s.total
  {
    StatsBalanced(cs);
    Stats(|cs|, Count(cs, Pending), Count(cs, InProgress), Count(cs, Resolved))
  }

  /** The statuses of the complaints, in order. */
  function Statuses(cs: seq<Complaint>): seq<string> {
    seq(|cs|, i requires 0 <= i < |cs| => cs[i].status)
  }

  /** A count is the number of complaints that have exactly that status. */
  lemma {:induction false} CountIsMultiplicity(cs: seq<Complaint>, status: string)
    ensures Count(cs, status) == multiset(Statuses(cs))[status]
  {
    if cs != [] {
      CountIsMultiplicity(cs[1..], status);
      assert Statuses(cs) == [cs[0].status] + Statuses(cs[1..]);
    }
  }

  /**
   * The three status counts never exceed the total, and add up to it when every
   * complaint has one of the three statuses.
   */
  lemma {:induction false} StatsBalanced(cs: seq<Complaint>)
    ensures Count(cs, Pending) + Count(cs, InProgress) + Count(cs, Resolved) <= |cs|
    ensures (forall k :: 0 <= k < |cs| ==> KnownStatus(cs[k].status)) ==>
      Count(cs, Pending) + Count(cs, InProgress) + Count(cs, Resolved) == |cs|
  {
    if cs != [] {
      StatsBalanced(cs[1..]);
      if forall k :: 0 <= k < |cs| ==> KnownStatus(cs[k].status) {
        assert KnownStatus(cs[0].status);
        assert forall k :: 0 <= k < |cs[1..]| ==> KnownStatus(cs[1..][k].status) by {
          forall k | 0 <= k < |cs[1..]| ensures KnownStatus(cs[1..][k].status) {
            assert cs[1..][k] == cs[k + 1];
          }
        }
      }
    }
  }

  /** Appending a pending complaint adds one to the total and one to the pending count. */
  lemma StatsAfterFiling(cs: seq<Complaint>, c: Complaint)
    requires c.status == Pending
    ensures var (s, t) := (DashboardStats(cs), DashboardStats(cs + [c]));
      t == Stats(s.total + 1, s.pending + 1, s.inProgress, s.resolved)
  {
    FilterAppend(cs, [c], HasStatus(Pending));
    FilterAppend(cs, [c], HasStatus(InProgress));
    FilterAppend(cs, [c], HasStatus(Resolved));
  }

  /** Changing one complaint's status moves it from the count of its old status to that of its new one. */
  lemma CountAfterStatusChange(cs: seq<Complaint>, i: nat, newStatus: string, status: string)
    requires i < |cs|
    ensures Count(cs[i := cs[i].(status := newStatus)], status)
         == Count(cs, status) - Indicator(cs[i].status == status) + Indicator(newStatus == status)
  {
    FilterUpdateCount(cs, i, cs[i].(status := newStatus), HasStatus(status));
  }

  /** Resolving a pending complaint moves one from the pending count to the resolved count. */
  lemma StatsAfterResolving(cs: seq<Complaint>, i: nat)
    requires i < |cs| && cs[i].status == Pending
    ensures var (s, t) := (DashboardStats(cs), DashboardStats(cs[i := cs[i].(status := Resolved)]));
      t.total == s.total && t.pending + 1 == s.pending && t.inProgress == s.inProgress
      && t.resolved == s.resolved + 1
  {
    CountAfterStatusChange(cs, i, Resolved, Pending);
    CountAfterStatusChange(cs, i, Resolved, InProgress);
    CountAfterStatusChange(cs, i, Resolved, Resolved);
  }

  // ---------------------------------------------------------------- official dashboard filter

  /** The visibility test of `filterComplaints` for an item whose status selector reads `itemStatus`. */
  predicate IsShown(filter: string, itemStatus: string) {
    filter == AnyStatus || itemStatus == filter
  }

  function Shown(filter: string): Complaint -> bool {
    (c: Complaint) => IsShown(filter, c.status)
  }

  /**
   * The complaints the official dashboard leaves visible under `filter`, in list order:
   * exactly those of the list that pass the visibility test.
   */
  function VisibleComplaints(cs: seq<Complaint>, filter: string): (r: seq<Complaint>)
    ensures |r| <= |cs|
    ensures forall c :: c in r <==> c in cs && IsShown(filter, c.status)
  {
    FilterMembershipAll(cs, Shown(filter));
    Filter(cs, Shown(filter))
  }

  /**
   * The filter `all` shows the whole list; any other filter shows exactly the complaints
   * with that status, in list order, as many as the dashboard counts for it.
   */
  lemma VisibleComplaintsSpec(cs: seq<Complaint>, filter: string)
    ensures filter == AnyStatus ==> VisibleComplaints(cs, filter) == cs
    ensures IsSubsequence(VisibleComplaints(cs, filter), cs)
    ensures forall c :: c in VisibleComplaints(cs, filter) <==> c in cs && (filter == AnyStatus || c.status == filter)
    ensures filter != AnyStatus ==> |VisibleComplaints(cs, filter)| == Count(cs, filter)
  {
    FilterIsSubsequence(cs, Shown(filter));
    forall c {
      FilterMembership(cs, Shown(filter), c);
    }
    if filter == AnyStatus {
      FilterAll(cs, Shown(filter));
    } else {
      FilterAgree(cs, Shown(filter), HasStatus(filter));
    }
  }

  // ---------------------------------------------------------------- labels

  const StatusLabels: map<string, string> :=
    map[Pending := "लंबित", InProgress := "प्रगति में", Resolved := "हल किया गया"]

  /** `getStatusText`: the Hindi label of a known status; any other status is shown as is. */
  function StatusText(status: string): (r: string)
    ensures KnownStatus(status) ==> r == StatusLabels[status] && r != status
    ensures !KnownStatus(status) ==> r == status
  {
    if status in StatusLabels then StatusLabels[status] else status
  }

  /** Among the known statuses, the label tells which status it was. */
  lemma StatusTextDistinguishesKnown(a: string, b: string)
    requires KnownStatus(a) && KnownStatus(b) && StatusText(a) == StatusText(b)
    ensures a == b
  {
  }

  // ---------------------------------------------------------------- sample data

  /** The three complaints `initializeSampleData` seeds an empty list with. */
  function SampleComplaints(now: string, dayAgo: string, twoDaysAgo: string): seq<Complaint> {
    [ Complaint(id := "#12345", subject := "Water supply issue in Sector 7",
                description := "No water supply for the past 3 days", sector := "water",
                status := Pending, date := now, userId := "sample"),
      Complaint(id := "#12344", subject := "Road repair request near market",
                description := "Large potholes making travel difficult", sector := "roads",
                status := Resolved, date := dayAgo, userId := "sample"),
      Complaint(id := "#12343", subject := "Electricity outage in Block B",
                description := "Power cuts lasting more than 8 hours daily", sector := "electricity",
                status := InProgress, date := twoDaysAgo, userId := "sample") ]
  }

  lemma SampleCount(cs: seq<Complaint>, status: string)
    requires |cs| == 3
    ensures Count(cs, status)
         == Indicator(cs[0].status == status) + Indicator(cs[1].status == status) + Indicator(cs[2].status == status)
  {
    assert cs == [cs[0]] + [cs[1]] + [cs[2]];
    FilterAppend([cs[0]] + [cs[1]], [cs[2]], HasStatus(status));
    FilterAppend([cs[0]], [cs[1]], HasStatus(status));
  }

  /** The seeded complaints have distinct well-formed identifiers, known statuses, one of each. */
  lemma SampleComplaintsFacts(now: string, dayAgo: string, twoDaysAgo: string)
    ensures var cs := SampleComplaints(now, dayAgo, twoDaysAgo);
      && (forall k :: 0 <= k < |cs| ==> IsComplaintId(cs[k].id) && KnownStatus(cs[k].status))
      && (forall j, k :: 0 <= j < k < |cs| ==> cs[j].id != cs[k].id)
      && DashboardStats(cs) == Stats(3, 1, 1, 1)
  {
    var cs := SampleComplaints(now, dayAgo, twoDaysAgo);
    assert cs == [cs[0]] + [cs[1]] + [cs[2]];
    SampleCount(cs, Pending);
    SampleCount(cs, InProgress);
    SampleCount(cs, Resolved);
  }
}
