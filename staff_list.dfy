/**
 * The staff list (src/components/staff/StaffList.tsx): a role badge chosen by the
 * lower-cased role, a filter combining a search on name or email with a role and a
 * status selector, the distinct roles for the role selector, the status counters,
 * and an empty-table row. The properties hold for any list of staff.
 */
module StaffList {
  import opened Wrappers
  import opened Seqs
  import opened Text

  datatype StaffStatus = Active | Inactive

  datatype Staff = Staff(id: string, name: string, email: string, phone: string, avatar: Option<string>,
                         role: string, status: StaffStatus, branch: string, lastActive: string)

  const MockStaff: seq<Staff> := [
    Staff("1", "John Smith", "john@swiftpos.com", "+1 234 567 890", None, "Admin", Active, "Main Store", "2024-01-15 09:30 AM"),
    Staff("2", "Sarah Johnson", "sarah@swiftpos.com", "+1 234 567 891", None, "Manager", Active, "Main Store", "2024-01-15 10:15 AM"),
    Staff("3", "Mike Davis", "mike@swiftpos.com", "+1 234 567 892", None, "Cashier", Active, "Branch 1", "2024-01-15 08:45 AM"),
    Staff("4", "Emily Brown", "emily@swiftpos.com", "+1 234 567 893", None, "Inventory Manager", Inactive, "Branch 2", "2024-01-10 02:30 PM"),
    Staff("5", "David Wilson", "david@swiftpos.com", "+1 234 567 894", None, "Cashier", Active, "Main Store", "2024-01-15 11:00 AM")
  ]

  function StatusName(s: StaffStatus): string
  {
    if s == Active then "active" else "inactive"
  }

  datatype BadgeVariant = Destructive | Default | Secondary | Outline

  /** `getRoleBadgeVariant`. */
  function RoleBadgeVariant(role: string): BadgeVariant
  {
    match Lower(role)
    case "admin" => Destructive
    case "manager" => Default
    case "inventory manager" => Secondary
    case _ => Outline
  }

  /**
   * The badge ignores letter case: a role and its lower-cased form get the same
   * variant, and each of the three named roles is recognised whatever its case.
   */
  lemma RoleBadgeIgnoresCase(role: string)
    ensures RoleBadgeVariant(Lower(role)) == RoleBadgeVariant(role)
    ensures RoleBadgeVariant(role) == Destructive <==> Lower(role) == "admin"
    ensures RoleBadgeVariant(role) == Default <==> Lower(role) == "manager"
    ensures RoleBadgeVariant(role) == Secondary <==> Lower(role) == "inventory manager"
  {
    LowerIdempotent(role);
  }

  /** The roles of the sample staff: "Admin" is destructive, "Cashier" falls through to outlined. */
  lemma SampleRoleBadges()
    ensures RoleBadgeVariant("Admin") == Destructive
    ensures RoleBadgeVariant("Cashier") == Outline
  {
    assert Lower("Admin") == "admin";
    assert Lower("Cashier") == "cashier";
  }

  predicate MatchesSearch(term: string, s: Staff)
  {
    Contains(Lower(s.name), Lower(term)) || Contains(Lower(s.email), Lower(term))
  }

  predicate Matches(term: string, roleFilter: string, statusFilter: string, s: Staff)
  {
    && MatchesSearch(term, s)
    && (roleFilter == "all" || s.role == roleFilter)
    && (statusFilter == "all" || StatusName(s.status) == statusFilter)
  }

  function Kept(term: string, roleFilter: string, statusFilter: string): Staff -> bool
  {
    (s: Staff) => Matches(term, roleFilter, statusFilter, s)
  }

  /** `filteredStaff`. */
  function FilteredStaff(staff: seq<Staff>, term: string, roleFilter: string, statusFilter: string): seq<Staff>
  {
    Filter(staff, Kept(term, roleFilter, statusFilter))
  }

  /**
   * The list keeps the staff order and holds exactly the members meeting all three
   * criteria; the role filter compares the role exactly, letter case included.
   */
  lemma FilteredStaffSpec(staff: seq<Staff>, term: string, roleFilter: string, statusFilter: string)
    ensures IsSubsequence(FilteredStaff(staff, term, roleFilter, statusFilter), staff)
    ensures forall k :: 0 <= k < |staff| ==>
              (staff[k] in FilteredStaff(staff, term, roleFilter, statusFilter) <==>
               Matches(term, roleFilter, statusFilter, staff[k]))
    ensures forall k :: 0 <= k < |FilteredStaff(staff, term, roleFilter, statusFilter)| ==>
              roleFilter != "all" ==> FilteredStaff(staff, term, roleFilter, statusFilter)[k].role == roleFilter
  {
    var r := FilteredStaff(staff, term, roleFilter, statusFilter);
    FilterIsSubsequence(staff, Kept(term, roleFilter, statusFilter));
    forall k | 0 <= k < |staff| && staff[k] in r
      ensures Matches(term, roleFilter, statusFilter, staff[k])
    {
      var j :| 0 <= j < |r| && r[j] == staff[k];
    }
  }

  /** No search and both selectors on "all" list everybody. */
  lemma NoFilterKeepsAll(staff: seq<Staff>)
    ensures FilteredStaff(staff, "", "all", "all") == staff
  {
    forall k | 0 <= k < |staff|
      ensures Kept("", "all", "all")(staff[k])
    {
      EmptyIsContained(Lower(staff[k].name));
    }
    FilterAll(staff, Kept("", "all", "all"));
  }

  function Role(s: Staff): string
  {
    s.role
  }

  /** `uniqueRoles`. */
  function UniqueRoles(staff: seq<Staff>): seq<string>
  {
    Distinct(Map(staff, Role))
  }

  /** Each role once, every member's role present, nothing invented, in order of first occurrence. */
  lemma UniqueRolesSpec(staff: seq<Staff>)
    ensures NoDuplicates(UniqueRoles(staff))
    ensures forall k :: 0 <= k < |staff| ==> staff[k].role in UniqueRoles(staff)
    ensures forall k :: 0 <= k < |UniqueRoles(staff)| ==> exists j :: 0 <= j < |staff| && staff[j].role == UniqueRoles(staff)[k]
    ensures forall i, j :: 0 <= i < j < |UniqueRoles(staff)| ==>
              FirstIndex(Map(staff, Role), UniqueRoles(staff)[i]) < FirstIndex(Map(staff, Role), UniqueRoles(staff)[j])
    ensures |UniqueRoles(staff)| <= |staff|
  {
    var roles := Map(staff, Role);
    assert forall k :: 0 <= k < |staff| ==> roles[k] == staff[k].role;
    DistinctFirstOccurrenceOrder(roles);
    DistinctIsShorter(roles);
  }

  lemma {:induction false} DistinctIsShorter<T>(s: seq<T>)
    ensures |Distinct(s)| <= |s|
  {
    if s != [] {
      DistinctIsShorter(s[..|s| - 1]);
    }
  }

  function HasStatus(st: StaffStatus): Staff -> bool
  {
    (s: Staff) => s.status == st
  }

  /** The Active and Inactive counters. */
  function StatusCount(staff: seq<Staff>, st: StaffStatus): nat
  {
    Count(staff, HasStatus(st))
  }

  /** Every member is active or inactive, so the two counters add up to Total Staff. */
  lemma {:induction false} StatusCountsAddUp(staff: seq<Staff>)
    ensures StatusCount(staff, Active) + StatusCount(staff, Inactive) == |staff|
  {
    if staff != [] {
      StatusCountsAddUp(staff[1..]);
    }
  }

  /** The sample staff: five members, four of them active. */
  lemma MockCounters()
    ensures |MockStaff| == 5
    ensures StatusCount(MockStaff, Active) == 4 && StatusCount(MockStaff, Inactive) == 1
  {
    StatusCountsAddUp(MockStaff);
  }

  datatype StaffRow = StaffRow(member: Staff, initials: string, roleBadge: BadgeVariant, statusBadge: BadgeVariant,
                               onEdit: Staff)

  function RowFor(s: Staff): StaffRow
  {
    StaffRow(s, WordInitials(s.name), RoleBadgeVariant(s.role), if s.status == Active then Default else Secondary, s)
  }

  /**
   * The avatar fallback: the first letter of each space-separated word of the name,
   * as written (no upper-casing); an empty word, from a doubled space, adds nothing.
   */
  lemma AvatarFallback(s: Staff)
    ensures RowFor(s).initials == Map(Filter(Split(s.name, ' '), IsNonEmpty), HeadChar)
    ensures |RowFor(s).initials| <= |Split(s.name, ' ')|
  {
    WordInitialsSpec(s.name);
  }

  datatype StaffTable = StaffTable(rows: seq<StaffRow>, noStaffFound: bool)

  /** The rows of the listed members, in order, and the "No staff members found" row exactly when there are none. */
  function RenderTable(staff: seq<Staff>, term: string, roleFilter: string, statusFilter: string): (t: StaffTable)
    ensures |t.rows| == |FilteredStaff(staff, term, roleFilter, statusFilter)|
    ensures forall k :: 0 <= k < |t.rows| ==>
              var s := FilteredStaff(staff, term, roleFilter, statusFilter)[k];
              && t.rows[k].member == s && t.rows[k].onEdit == s && t.rows[k].roleBadge == RoleBadgeVariant(s.role)
              && (t.rows[k].statusBadge == Default <==> s.status == Active)
    ensures t.noStaffFound <==> t.rows == []
  {
    var shown := FilteredStaff(staff, term, roleFilter, statusFilter);
    StaffTable(Map(shown, RowFor), |shown| == 0)
  }
}
