/**
 * The role editor (src/components/staff/RoleForm.tsx): a role name, a description
 * and a set of permission ids, edited one permission at a time or a whole category
 * at a time, and a submit that checks the name and the permission set.
 */
module RoleForm {
  import opened Wrappers
  import opened Seqs

  datatype Permission = Permission(id: string, caption: string)

  datatype PermissionCategory = PermissionCategory(name: string, key: string, permissions: seq<Permission>)

  const PermissionCategories: seq<PermissionCategory> := [
    PermissionCategory("Point of Sale", "pos", [
      Permission("pos.view", "Access POS Terminal"), Permission("pos.discount", "Apply Discounts"),
      Permission("pos.void", "Void Transactions"), Permission("pos.refund", "Process Refunds")]),
    PermissionCategory("Products", "products", [
      Permission("products.view", "View Products"), Permission("products.create", "Create Products"),
      Permission("products.edit", "Edit Products"), Permission("products.delete", "Delete Products")]),
    PermissionCategory("Inventory", "inventory", [
      Permission("inventory.view", "View Inventory"), Permission("inventory.adjust", "Adjust Stock"),
      Permission("inventory.purchase", "Create Purchase Orders"), Permission("inventory.suppliers", "Manage Suppliers")]),
    PermissionCategory("Customers", "customers", [
      Permission("customers.view", "View Customers"), Permission("customers.create", "Create Customers"),
      Permission("customers.edit", "Edit Customers"), Permission("customers.credit", "Manage Credit")]),
    PermissionCategory("Reports & Analytics", "reports", [
      Permission("reports.sales", "View Sales Reports"), Permission("reports.inventory", "View Inventory Reports"),
      Permission("reports.profit", "View Profit Reports"), Permission("reports.export", "Export Reports")]),
    PermissionCategory("Staff Management", "staff", [
      Permission("staff.view", "View Staff"), Permission("staff.create", "Create Staff"),
      Permission("staff.edit", "Edit Staff"), Permission("staff.roles", "Manage Roles")]),
    PermissionCategory("Expenses", "expenses", [
      Permission("expenses.view", "View Expenses"), Permission("expenses.create", "Create Expenses"),
      Permission("expenses.edit", "Edit Expenses"), Permission("expenses.delete", "Delete Expenses")]),
    PermissionCategory("Settings", "settings", [
      Permission("settings.general", "General Settings"), Permission("settings.payment", "Payment Methods"),
      Permission("settings.tax", "Tax Configuration"), Permission("settings.branches", "Manage Branches")])
  ]

  function PermissionId(p: Permission): string
  {
    p.id
  }

  /** `category.permissions.map((p) => p.id)`. */
  function CategoryIds(c: PermissionCategory): seq<string>
  {
    Map(c.permissions, PermissionId)
  }

  /** The role being edited, when there is one. */
  datatype Role = Role(id: string, name: string, description: string, permissions: seq<string>)

  function Elements(ids: seq<string>): set<string>
  {
    set k | 0 <= k < |ids| :: ids[k]
  }

  /** Checking or unchecking one permission. */
  function Toggled(perms: set<string>, id: string): set<string>
  {
    if id in perms then perms - {id} else perms + {id}
  }

  /** Toggling flips the membership of exactly that id, and toggling twice restores the set. */
  lemma ToggledSpec(perms: set<string>, id: string)
    ensures id in Toggled(perms, id) <==> id !in perms
    ensures forall x :: x != id ==> (x in Toggled(perms, id) <==> x in perms)
    ensures Toggled(Toggled(perms, id), id) == perms
  {
  }

  /** `categoryPermIds.every((id) => permissions.has(id))`. */
  predicate EverySelected(perms: set<string>, ids: seq<string>)
  {
    forall k :: 0 <= k < |ids| ==> ids[k] in perms
  }

  /**
   * The `forEach` of `toggleCategory`: adds every id of the category to a copy of the
   * set, or deletes every one from it.
   */
  method ApplyCategory(perms: set<string>, ids: seq<string>, add: bool) returns (r: set<string>)
    ensures add ==> r == perms + Elements(ids)
    ensures !add ==> r == perms - Elements(ids)
  {
    r := perms;
    var i := 0;
    while i < |ids|
      invariant 0 <= i <= |ids|
      invariant add ==> r == perms + Elements(ids[..i])
      invariant !add ==> r == perms - Elements(ids[..i])
    {
      assert Elements(ids[..i + 1]) == Elements(ids[..i]) + {ids[i]} by {
        assert forall k :: 0 <= k < i ==> ids[..i + 1][k] == ids[..i][k];
      }
      if add {
        r := r + {ids[i]};
      } else {
        r := r - {ids[i]};
      }
      i := i + 1;
    }
    assert ids[..i] == ids;
  }

  /** What `toggleCategory` leaves: none of the category when all of it was selected, otherwise all of it. */
  function CategoryToggled(perms: set<string>, ids: seq<string>): set<string>
  {
    if EverySelected(perms, ids) then perms - Elements(ids) else perms + Elements(ids)
  }

  function InSet(perms: set<string>): string -> bool
  {
    (id: string) => id in perms
  }

  /** `categoryPermIds.filter((id) => permissions.has(id)).length`. */
  function SelectedCount(perms: set<string>, ids: seq<string>): nat
  {
    Count(ids, InSet(perms))
  }

  predicate AllSelected(perms: set<string>, ids: seq<string>)
  {
    SelectedCount(perms, ids) == |ids|
  }

  predicate SomeSelected(perms: set<string>, ids: seq<string>)
  {
    SelectedCount(perms, ids) > 0 && !AllSelected(perms, ids)
  }

  datatype CheckboxState = Checked | Unchecked | Indeterminate

  /** The category checkbox: indeterminate for some, checked for all, unchecked for none. */
  function CategoryCheckbox(perms: set<string>, ids: seq<string>): (r: CheckboxState)
    ensures r == Checked <==> EverySelected(perms, ids)
    ensures r == Unchecked <==> |ids| > 0 && forall k :: 0 <= k < |ids| ==> ids[k] !in perms
    ensures r == Indeterminate <==>
              (exists k :: 0 <= k < |ids| && ids[k] in perms) && (exists k :: 0 <= k < |ids| && ids[k] !in perms)
  {
    CountExtremes(ids, InSet(perms));
    if SomeSelected(perms, ids) then Indeterminate
    else if AllSelected(perms, ids) then Checked
    else Unchecked
  }

  /**
   * The count shown beside a category is at most its size; "all selected" means
   * every id of the category is in the set, and "none" means none is; "all" and
   * "some" are never both true.
   */
  lemma SelectionSummary(perms: set<string>, ids: seq<string>)
    ensures SelectedCount(perms, ids) <= |ids|
    ensures AllSelected(perms, ids) <==> EverySelected(perms, ids)
    ensures SelectedCount(perms, ids) == 0 <==> forall k :: 0 <= k < |ids| ==> ids[k] !in perms
    ensures !(AllSelected(perms, ids) && SomeSelected(perms, ids))
    ensures CategoryCheckbox(perms, ids) == Checked <==> EverySelected(perms, ids)
  {
    CountExtremes(ids, InSet(perms));
  }

  /**
   * After toggling a category, either all of it or none of it is selected, and
   * no permission outside it has changed.
   */
  lemma CategoryToggledSpec(perms: set<string>, ids: seq<string>)
    ensures EverySelected(CategoryToggled(perms, ids), ids)
            || (forall k :: 0 <= k < |ids| ==> ids[k] !in CategoryToggled(perms, ids))
    ensures EverySelected(perms, ids) ==> forall k :: 0 <= k < |ids| ==> ids[k] !in CategoryToggled(perms, ids)
    ensures !EverySelected(perms, ids) ==> EverySelected(CategoryToggled(perms, ids), ids)
    ensures forall x :: x !in Elements(ids) ==> (x in CategoryToggled(perms, ids) <==> x in perms)
  {
  }

  datatype SubmitOutcome = NameMissing | NoPermissions | Saved(updated: bool)

  /** The form's state; `role` is the role being edited, if any. */
  class RoleEditor {
    const role: Option<Role>
    var name: string
    var description: string
    var permissions: set<string>

    /** The form starts from the edited role, or empty for a new role. */
    constructor (role: Option<Role>)
      ensures this.role == role
      ensures name == (if role.Some? then role.value.name else "")
      ensures description == (if role.Some? then role.value.description else "")
      ensures permissions == (if role.Some? then Elements(role.value.permissions) else {})
    {
      this.role := role;
      name := if role.Some? then role.value.name else "";
      description := if role.Some? then role.value.description else "";
      permissions := if role.Some? then Elements(role.value.permissions) else {};
    }

    method EnterName(s: string)
      modifies this
      ensures name == s && description == old(description) && permissions == old(permissions)
    {
      name := s;
    }

    method EnterDescription(s: string)
      modifies this
      ensures description == s && name == old(name) && permissions == old(permissions)
    {
      description := s;
    }

    /** A permission's checkbox. */
    method TogglePermission(permId: string)
      modifies this
      ensures permissions == Toggled(old(permissions), permId)
      ensures name == old(name) && description == old(description)
    {
      var next := permissions;
      if permId in next {
        next := next - {permId};
      } else {
        next := next + {permId};
      }
      permissions := next;
    }

    /** A category's checkbox. */
    method ToggleCategory(category: PermissionCategory)
      modifies this
      ensures permissions == CategoryToggled(old(permissions), CategoryIds(category))
      ensures name == old(name) && description == old(description)
    {
      var ids := CategoryIds(category);
      var allSelected := EverySelected(permissions, ids);
      permissions := ApplyCategory(permissions, ids, !allSelected);
    }

    /**
     * Submit: an empty name is reported first, then an empty permission set;
     * only a named role with permissions is saved (and `onBack` called).
     */
    method HandleSubmit() returns (outcome: SubmitOutcome)
      ensures outcome == NameMissing <==> name == ""
      ensures outcome == NoPermissions <==> name != "" && |permissions| == 0
      ensures outcome.Saved? <==> name != "" && |permissions| != 0
      ensures outcome.Saved? ==> outcome.updated == role.Some?
    {
      if name == "" {
        return NameMissing;
      }
      if |permissions| == 0 {
        return NoPermissions;
      }
      outcome := Saved(role.Some?);
    }
  }
}
