/**
 * The staff member form (src/components/staff/StaffForm.tsx): one form-data record
 * seeded from the member being edited, or blank for a new one, updated field by
 * field, and a submit that goes back to the list only when name, email and role are
 * filled in. Before that, the browser refuses to submit an email input whose text is
 * not an email address. The toasts are modelled as the message the submit produces.
 */
module StaffForm {
  import opened Wrappers
  import Text
  import StaffList

  /** The member handed in for editing. */
  datatype StaffDetails = StaffDetails(id: string, name: string, email: string, phone: string, role: string,
                                       status: StaffList.StaffStatus, branch: string)

  datatype StaffFormData = StaffFormData(name: string, email: string, phone: string, role: string, branch: string,
                                         status: bool, sendInvite: bool)

  const Roles: seq<string> := ["Admin", "Manager", "Cashier", "Inventory Manager"]
  const Branches: seq<string> := ["Main Store", "Branch 1", "Branch 2"]

  /**
   * The initial form data: an edited member's text fields (`staff?.name || ""`), the
   * status switch on exactly for an active member, and the invitation switched on
   * exactly for a new member.
   */
  function InitialData(staff: Option<StaffDetails>): (d: StaffFormData)
    ensures staff.None? ==> d == StaffFormData("", "", "", "", "", false, true)
    ensures staff.Some? ==>
              && d.name == staff.value.name && d.email == staff.value.email && d.phone == staff.value.phone
              && d.role == staff.value.role && d.branch == staff.value.branch
    ensures d.status <==> staff.Some? && staff.value.status == StaffList.Active
    ensures d.sendInvite <==> staff.None?
  {
    match staff
    case None => StaffFormData("", "", "", "", "", false, true)
    case Some(s) => StaffFormData(s.name, s.email, s.phone, s.role, s.branch, s.status == StaffList.Active, false)
  }

  /** The test `handleSubmit` applies before going back. */
  predicate RequiredFilled(d: StaffFormData)
  {
    d.name != "" && d.email != "" && d.role != ""
  }

  /**
   * A new member's blank form is refused until filled in; an edited member whose
   * name, email and role are set can be saved at once.
   */
  lemma InitialDataSubmission(staff: Option<StaffDetails>)
    ensures staff.None? ==> !RequiredFilled(InitialData(staff))
    ensures staff.Some? ==>
              (RequiredFilled(InitialData(staff)) <==>
               staff.value.name != "" && staff.value.email != "" && staff.value.role != "")
  {
  }

  /** A character allowed before the `@` of an email address. */
  predicate LocalChar(c: char)
  {
    || 'a' <= c <= 'z' || 'A' <= c <= 'Z' || '0' <= c <= '9'
    || c in ".!#$%&'*+/=?^_`{|}~-"
  }

  /** A domain label: 1 to 63 letters, digits or hyphens, not starting or ending with a hyphen. */
  predicate DomainLabel(l: string)
  {
    && 1 <= |l| <= 63
    && (forall i :: 0 <= i < |l| ==> 'a' <= l[i] <= 'z' || 'A' <= l[i] <= 'Z' || '0' <= l[i] <= '9' || l[i] == '-')
    && l[0] != '-' && l[|l| - 1] != '-'
  }

  /**
   * What an `<input type="email">` accepts as a valid e-mail address, as the HTML
   * standard defines it: one `@`, a non-empty local part of allowed characters
   * before it, and after it one or more domain labels separated by dots.
   */
  predicate ValidEmail(s: string)
  {
    var parts := Text.Split(s, '@');
    && |parts| == 2
    && |parts[0]| >= 1
    && (forall i :: 0 <= i < |parts[0]| ==> LocalChar(parts[0][i]))
    && (forall l :: l in Text.Split(parts[1], '.') ==> DomainLabel(l))
  }

  /** The browser blocks the submit when the email field holds text that is not an address; an empty one passes. */
  predicate EmailBlocks(email: string)
  {
    email != "" && !ValidEmail(email)
  }

  /** The shortest address: a name of one character, `@`, a one-character domain. */
  lemma ShortestEmail()
    ensures ValidEmail("a@b")
  {
    assert "a@b" == "a" + ['@'] + "b";
    Text.SplitAtFirst("a", "b", '@');
    Text.SplitWithoutSeparator("b", '@');
    Text.SplitWithoutSeparator("b", '.');
  }

  /** A name alone, or a name and `@` alone, is refused. */
  lemma EmailNeedsDomain()
    ensures !ValidEmail("ab")
    ensures !ValidEmail("a@")
  {
    Text.SplitWithoutSeparator("ab", '@');
    assert "a@" == "a" + ['@'] + "";
    Text.SplitAtFirst("a", "", '@');
    assert Text.Split("a@", '@') == ["a", ""];
    assert "" in Text.Split("", '.') && !DomainLabel("");
  }

  /** Nothing before the `@`, or an empty label between two dots, is refused. */
  lemma EmailNeedsEveryPart()
    ensures !ValidEmail("@b")
    ensures !ValidEmail("a@b..c")
  {
    assert "@b" == "" + ['@'] + "b";
    Text.SplitAtFirst("", "b", '@');
    Text.SplitWithoutSeparator("b", '@');
    assert Text.Split("@b", '@')[0] == "";
    assert "a@b..c" == "a" + ['@'] + "b..c";
    Text.SplitAtFirst("a", "b..c", '@');
    Text.SplitWithoutSeparator("b..c", '@');
    assert "b..c" == "b" + ['.'] + ".c";
    Text.SplitAtFirst("b", ".c", '.');
    assert ".c" == "" + ['.'] + "c";
    Text.SplitAtFirst("", "c", '.');
    Text.SplitWithoutSeparator("c", '.');
    assert Text.Split("a@b..c", '@')[1] == "b..c";
    assert Text.Split("b..c", '.') == ["b", "", "c"];
    assert "" in Text.Split("b..c", '.') && !DomainLabel("");
  }

  /** A name of allowed characters, `@`, and a domain whose labels are all valid make an address. */
  lemma {:induction false} AddressFromParts(local: string, domain: string)
    requires |local| >= 1 && forall i :: 0 <= i < |local| ==> LocalChar(local[i])
    requires '@' !in domain
    requires forall l :: l in Text.Split(domain, '.') ==> DomainLabel(l)
    ensures ValidEmail(local + ['@'] + domain)
  {
    assert '@' !in local by {
      forall i | 0 <= i < |local| ensures local[i] != '@' { }
    }
    Text.SplitAtFirst(local, domain, '@');
    Text.SplitWithoutSeparator(domain, '@');
  }

  /** Two valid labels joined by a dot make a domain whose every label is valid. */
  lemma {:induction false} TwoLabelDomain(x: string, y: string)
    requires DomainLabel(x) && DomainLabel(y)
    ensures forall l :: l in Text.Split(x + ['.'] + y, '.') ==> DomainLabel(l)
  {
    assert '.' !in x && '.' !in y by {
      forall i | 0 <= i < |x| ensures x[i] != '.' { }
      forall i | 0 <= i < |y| ensures y[i] != '.' { }
    }
    Text.SplitAtFirst(x, y, '.');
    Text.SplitWithoutSeparator(y, '.');
  }

  /** A lower-case name at the sample members' domain is an address. */
  lemma SwiftposAddress(name: string)
    requires |name| >= 1 && forall i :: 0 <= i < |name| ==> 'a' <= name[i] <= 'z'
    ensures ValidEmail(name + "@swiftpos.com")
  {
    var domain := "swiftpos" + ['.'] + "com";
    assert DomainLabel("swiftpos") && DomainLabel("com");
    TwoLabelDomain("swiftpos", "com");
    assert '@' !in domain;
    AddressFromParts(name, domain);
    assert name + ['@'] + domain == name + "@swiftpos.com";
  }

  datatype SubmitOutcome = Blocked | Rejected(error: string) | Accepted(success: string)

  /** The card title and the submit button caption, both chosen by whether a member is being edited. */
  function Captions(staff: Option<StaffDetails>): (r: (string, string))
    ensures r.0 == "Edit Staff Member" <==> staff.Some?
    ensures r.0 == "Add New Staff Member" <==> staff.None?
    ensures r.1 == "Update Staff" <==> staff.Some?
    ensures r.1 == "Add Staff" <==> staff.None?
  {
    if staff.Some? then ("Edit Staff Member", "Update Staff") else ("Add New Staff Member", "Add Staff")
  }

  class StaffEditor {
    const staff: Option<StaffDetails>
    var formData: StaffFormData

    constructor (staff: Option<StaffDetails>)
      ensures this.staff == staff
      ensures formData == InitialData(staff)
      ensures formData.sendInvite <==> InviteSwitchShown()
    {
      this.staff := staff;
      formData := InitialData(staff);
    }

    /** The "Send invitation email" switch is shown only when adding a member. */
    predicate InviteSwitchShown()
      reads this
      ensures InviteSwitchShown() <==> Captions(staff).1 == "Add Staff"
    {
      staff.None?
    }

    method SetName(v: string)
      modifies this
      ensures formData == old(formData).(name := v)
    {
      formData := formData.(name := v);
    }

    method SetEmail(v: string)
      modifies this
      ensures formData == old(formData).(email := v)
    {
      formData := formData.(email := v);
    }

    method SetPhone(v: string)
      modifies this
      ensures formData == old(formData).(phone := v)
    {
      formData := formData.(phone := v);
    }

    /** The role selector offers the four roles. */
    method SetRole(v: string)
      requires v in Roles
      modifies this
      ensures formData == old(formData).(role := v)
    {
      formData := formData.(role := v);
    }

    /** The branch selector offers the three branches. */
    method SetBranch(v: string)
      requires v in Branches
      modifies this
      ensures formData == old(formData).(branch := v)
    {
      formData := formData.(branch := v);
    }

    method SetStatus(checked: bool)
      modifies this
      ensures formData == old(formData).(status := checked)
    {
      formData := formData.(status := checked);
    }

    method SetSendInvite(checked: bool)
      requires InviteSwitchShown()
      modifies this
      ensures formData == old(formData).(sendInvite := checked)
    {
      formData := formData.(sendInvite := checked);
    }

    /**
     * Submit: blocked by the browser, before the handler runs, when the email text
     * is not an address; otherwise refused with "Please fill in all required fields"
     * exactly when name, email or role is empty; otherwise accepted (the list is
     * shown again) with a message that says whether a member was updated or added.
     * The form data is not changed.
     */
    method HandleSubmit() returns (outcome: SubmitOutcome)
      ensures outcome.Blocked? <==> EmailBlocks(formData.email)
      ensures outcome.Rejected? <==> !EmailBlocks(formData.email) && !RequiredFilled(formData)
      ensures outcome.Accepted? <==> RequiredFilled(formData) && ValidEmail(formData.email)
      ensures outcome.Rejected? ==> outcome.error == "Please fill in all required fields"
      ensures outcome.Accepted? ==>
                outcome.success == (if staff.Some? then "Staff member updated" else "Staff member added")
    {
      if EmailBlocks(formData.email) {
        return Blocked;
      }
      if formData.name == "" || formData.email == "" || formData.role == "" {
        return Rejected("Please fill in all required fields");
      }
      outcome := Accepted(if staff.Some? then "Staff member updated" else "Staff member added");
    }
  }
}
