/**
 * Branch management (src/components/settings/BranchManagement.tsx): a list of
 * store branches of which exactly one is the main branch, with a dialog to add or
 * edit a branch, and per-branch buttons to delete, activate or deactivate, and make
 * main. The fresh id (`Date.now()`) is a parameter; toasts are not modelled.
 */
module Branches {
  import opened Wrappers
  import opened Seqs

  datatype Branch = Branch(id: string, name: string, address: string, phone: string, hours: string,
                           isActive: bool, isMain: bool)

  /** The four text fields of the dialog. */
  datatype BranchForm = BranchForm(name: string, address: string, phone: string, hours: string)

  const EmptyForm := BranchForm("", "", "", "")

  const InitialBranches: seq<Branch> := [
    Branch("1", "Main Store", "123 Commerce Street, New York, NY 10001", "+1 (555) 123-4567",
           "Mon-Sat: 9AM-9PM, Sun: 10AM-6PM", true, true),
    Branch("2", "Downtown Branch", "456 Market Avenue, New York, NY 10002", "+1 (555) 234-5678",
           "Mon-Fri: 8AM-8PM, Sat-Sun: 10AM-6PM", true, false),
    Branch("3", "Mall Location", "789 Shopping Mall, Brooklyn, NY 11201", "+1 (555) 345-6789",
           "Mon-Sun: 10AM-9PM", false, false)
  ]

  function BranchId(b: Branch): string
  {
    b.id
  }

  function IsMain(b: Branch): bool
  {
    b.isMain
  }

  function HasId(id: string): Branch -> bool
  {
    (b: Branch) => b.id == id
  }

  function HasOtherId(id: string): Branch -> bool
  {
    (b: Branch) => b.id != id
  }

  function MainCount(bs: seq<Branch>): nat
  {
    Count(bs, IsMain)
  }

  /** The list's invariant: branch ids are unique and exactly one branch is the main one. */
  predicate Valid(bs: seq<Branch>)
  {
    UniqueBy(bs, BranchId) && MainCount(bs) == 1
  }

  predicate Present(bs: seq<Branch>, id: string)
  {
    exists k :: 0 <= k < |bs| && bs[k].id == id
  }

  /** The form for a branch: its four text fields. */
  function FormOf(b: Branch): BranchForm
  {
    BranchForm(b.name, b.address, b.phone, b.hours)
  }

  function Overwrite(id: string, f: BranchForm): Branch -> Branch
  {
    (b: Branch) => if b.id == id then b.(name := f.name, address := f.address, phone := f.phone, hours := f.hours) else b
  }

  /** Save while editing: `branches.map((b) => b.id === id ? { ...b, ...formData } : b)`. */
  function EditBranch(bs: seq<Branch>, id: string, f: BranchForm): seq<Branch>
  {
    Map(bs, Overwrite(id, f))
  }

  /** Save while adding: a new active, non-main branch at the end. */
  function AddBranch(bs: seq<Branch>, newId: string, f: BranchForm): seq<Branch>
  {
    bs + [Branch(newId, f.name, f.address, f.phone, f.hours, true, false)]
  }

  /** Delete: refused when the first branch with that id is the main one; otherwise every branch with that id goes. */
  function DeleteBranch(bs: seq<Branch>, id: string): seq<Branch>
  {
    var found := Find(bs, HasId(id));
    if found.Some? && found.value.isMain then bs else Filter(bs, HasOtherId(id))
  }

  function FlipActive(id: string): Branch -> Branch
  {
    (b: Branch) => if b.id == id then b.(isActive := !b.isActive) else b
  }

  function ToggleActive(bs: seq<Branch>, id: string): seq<Branch>
  {
    Map(bs, FlipActive(id))
  }

  function MainIf(id: string): Branch -> Branch
  {
    (b: Branch) => b.(isMain := b.id == id)
  }

  /** `branches.map((b) => ({ ...b, isMain: b.id === id }))`. */
  function SetMain(bs: seq<Branch>, id: string): seq<Branch>
  {
    Map(bs, MainIf(id))
  }

  lemma InitialValid()
    ensures Valid(InitialBranches)
  {
    CountSingle(InitialBranches, IsMain, 0);
  }

  /** Set Main makes exactly the branches with that id main, and touches nothing else. */
  lemma SetMainSpec(bs: seq<Branch>, id: string)
    ensures |SetMain(bs, id)| == |bs|
    ensures forall k :: 0 <= k < |bs| ==>
              (SetMain(bs, id)[k].isMain <==> bs[k].id == id) && SetMain(bs, id)[k] == bs[k].(isMain := bs[k].id == id)
  {
  }

  /** Setting an existing id as main keeps the invariant; an id nobody has leaves no main branch. */
  lemma SetMainPreservesValid(bs: seq<Branch>, id: string)
    requires Valid(bs)
    ensures Present(bs, id) ==> Valid(SetMain(bs, id))
    ensures !Present(bs, id) ==> MainCount(SetMain(bs, id)) == 0
  {
    SetMainCount(bs, id);
    if Present(bs, id) {
      SetMainKeepsIds(bs, id);
      var i :| 0 <= i < |bs| && bs[i].id == id;
      CountSingle(bs, HasId(id), i);
    } else {
      FilterNone(bs, HasId(id));
    }
  }

  /** After Set Main, the main branches are exactly the branches with that id. */
  lemma SetMainCount(bs: seq<Branch>, id: string)
    ensures MainCount(SetMain(bs, id)) == Count(bs, HasId(id))
  {
    CountMap(bs, MainIf(id), IsMain, HasId(id));
  }

  /** Set Main changes no id, so unique ids stay unique. */
  lemma SetMainKeepsIds(bs: seq<Branch>, id: string)
    requires UniqueBy(bs, BranchId)
    ensures UniqueBy(SetMain(bs, id), BranchId)
  {
    var r := SetMain(bs, id);
    assert forall k :: 0 <= k < |bs| ==> r[k].id == bs[k].id;
  }

  /** Deleting the main branch changes nothing; otherwise exactly the branches with that id go, in order. */
  lemma DeleteBranchSpec(bs: seq<Branch>, id: string)
    ensures (exists k :: 0 <= k < |bs| && bs[k].id == id && bs[k].isMain && forall j :: 0 <= j < k ==> bs[j].id != id)
            ==> DeleteBranch(bs, id) == bs
    ensures (forall k :: 0 <= k < |bs| && bs[k].id == id ==> !bs[k].isMain) ==>
              && IsSubsequence(DeleteBranch(bs, id), bs)
              && (forall k :: 0 <= k < |DeleteBranch(bs, id)| ==> DeleteBranch(bs, id)[k].id != id)
              && (forall k :: 0 <= k < |bs| && bs[k].id != id ==> bs[k] in DeleteBranch(bs, id))
  {
    if exists k :: 0 <= k < |bs| && bs[k].id == id && bs[k].isMain && forall j :: 0 <= j < k ==> bs[j].id != id {
      var k :| 0 <= k < |bs| && bs[k].id == id && bs[k].isMain && forall j :: 0 <= j < k ==> bs[j].id != id;
      DeleteMainRefused(bs, id, k);
    }
    FilterIsSubsequence(bs, HasOtherId(id));
  }

  /** The first branch with the id is found; when it is the main branch the delete is refused. */
  lemma DeleteMainRefused(bs: seq<Branch>, id: string, k: nat)
    requires k < |bs| && bs[k].id == id && bs[k].isMain
    requires forall j :: 0 <= j < k ==> bs[j].id != id
    ensures DeleteBranch(bs, id) == bs
  {
    var i := FindIndex(bs, HasId(id));
    assert !(i < k) && !(k < i);
  }

  /** Deleting keeps the invariant: the main branch is refused, and any other removal leaves it in place. */
  lemma DeletePreservesValid(bs: seq<Branch>, id: string)
    requires Valid(bs)
    ensures Valid(DeleteBranch(bs, id))
  {
    var found := Find(bs, HasId(id));
    if !(found.Some? && found.value.isMain) {
      forall k | 0 <= k < |bs| && !HasOtherId(id)(bs[k])
        ensures !IsMain(bs[k])
      {
        var i := FindIndex(bs, HasId(id));
        assert i != -1 && bs[i].id == id;
        assert BranchId(bs[i]) == BranchId(bs[k]);
        assert i == k;
      }
      CountFilterKeeps(bs, HasOtherId(id), IsMain);
      FilterUniqueBy(bs, HasOtherId(id), BranchId);
    }
  }

  /** Saving an edit overwrites the four text fields of that id and keeps every id and flag. */
  lemma EditBranchSpec(bs: seq<Branch>, id: string, f: BranchForm)
    ensures |EditBranch(bs, id, f)| == |bs|
    ensures forall k :: 0 <= k < |bs| ==>
              var r := EditBranch(bs, id, f)[k];
              && r.id == bs[k].id && r.isActive == bs[k].isActive && r.isMain == bs[k].isMain
              && FormOf(r) == (if bs[k].id == id then f else FormOf(bs[k]))
  {
  }

  lemma EditPreservesValid(bs: seq<Branch>, id: string, f: BranchForm)
    requires Valid(bs)
    ensures Valid(EditBranch(bs, id, f))
  {
    var r := EditBranch(bs, id, f);
    forall k | 0 <= k < |bs|
      ensures IsMain(Overwrite(id, f)(bs[k])) == IsMain(bs[k]) && BranchId(r[k]) == BranchId(bs[k])
    {
    }
    CountMap(bs, Overwrite(id, f), IsMain, IsMain);
  }

  /** Adding with an unused id keeps the invariant: the new branch is active and not main. */
  lemma AddPreservesValid(bs: seq<Branch>, newId: string, f: BranchForm)
    requires Valid(bs)
    requires !Present(bs, newId)
    ensures Valid(AddBranch(bs, newId, f))
    ensures AddBranch(bs, newId, f)[|bs|].isActive && !AddBranch(bs, newId, f)[|bs|].isMain
  {
    CountAppend(bs, Branch(newId, f.name, f.address, f.phone, f.hours, true, false), IsMain);
  }

  /** Toggling flips the active flag of that id only, keeps the invariant, and twice is no change. */
  lemma ToggleActiveSpec(bs: seq<Branch>, id: string)
    ensures |ToggleActive(bs, id)| == |bs|
    ensures forall k :: 0 <= k < |bs| ==>
              ToggleActive(bs, id)[k] == if bs[k].id == id then bs[k].(isActive := !bs[k].isActive) else bs[k]
    ensures ToggleActive(ToggleActive(bs, id), id) == bs
    ensures Valid(bs) ==> Valid(ToggleActive(bs, id))
  {
    CountMap(bs, FlipActive(id), IsMain, IsMain);
    assert ToggleActive(ToggleActive(bs, id), id) == bs;
  }

  /** The page's state: the branches and the add/edit dialog. */
  class BranchManagement {
    var branches: seq<Branch>
    var showDialog: bool
    var editingBranch: Option<Branch>
    var formData: BranchForm

    constructor ()
      ensures branches == InitialBranches && !showDialog && editingBranch == None && formData == EmptyForm
      ensures Valid(branches)
      ensures !SaveEnabled()
    {
      branches := InitialBranches;
      showDialog := false;
      editingBranch := None;
      formData := EmptyForm;
      InitialValid();
    }

    /** Save is enabled once the dialog has a name. */
    predicate SaveEnabled()
      reads this
      ensures SaveEnabled() <==> |formData.name| > 0
      ensures SaveEnabled() ==> formData != EmptyForm
    {
      formData.name != ""
    }

    /** Opens the dialog: for an existing branch with its four text fields, for a new one with an empty form. */
    method OpenDialog(branch: Option<Branch>)
      modifies this
      ensures showDialog && editingBranch == branch
      ensures formData == if branch.Some? then FormOf(branch.value) else EmptyForm
      ensures SaveEnabled() <==> branch.Some? && branch.value.name != ""
      ensures branches == old(branches)
    {
      editingBranch := branch;
      formData := if branch.Some? then FormOf(branch.value) else EmptyForm;
      showDialog := true;
    }

    /** Typing in the dialog. */
    method EditForm(f: BranchForm)
      modifies this
      ensures formData == f
      ensures branches == old(branches) && showDialog == old(showDialog) && editingBranch == old(editingBranch)
    {
      formData := f;
    }

    /**
     * Save: overwrite the edited branch, or append a new one with `newId`; the dialog closes.
     * The handler is a click on a button that is disabled until the form has a name.
     */
    method Save(newId: string)
      requires Valid(branches)
      requires SaveEnabled()
      requires editingBranch.None? ==> !Present(branches, newId)
      modifies this
      ensures branches == if old(editingBranch).Some? then EditBranch(old(branches), old(editingBranch).value.id, old(formData))
                          else AddBranch(old(branches), newId, old(formData))
      ensures !showDialog && editingBranch == old(editingBranch) && formData == old(formData)
      ensures Valid(branches)
    {
      if editingBranch.Some? {
        EditPreservesValid(branches, editingBranch.value.id, formData);
        branches := EditBranch(branches, editingBranch.value.id, formData);
      } else {
        AddPreservesValid(branches, newId, formData);
        branches := AddBranch(branches, newId, formData);
      }
      showDialog := false;
    }

    /** The dialog's `onOpenChange`, and Cancel, which closes it: only the open flag changes. */
    method SetDialogOpen(open: bool)
      modifies this
      ensures showDialog == open
      ensures branches == old(branches) && editingBranch == old(editingBranch) && formData == old(formData)
      ensures SaveEnabled() == old(SaveEnabled())
    {
      showDialog := open;
    }

    /** Delete, refused for the main branch; `refused` tells which toast is shown. */
    method Delete(id: string) returns (refused: bool)
      requires Valid(branches)
      modifies this
      ensures refused <==> (var f := Find(old(branches), HasId(id)); f.Some? && f.value.isMain)
      ensures branches == DeleteBranch(old(branches), id)
      ensures refused ==> branches == old(branches)
      ensures showDialog == old(showDialog) && editingBranch == old(editingBranch) && formData == old(formData)
      ensures Valid(branches)
    {
      var branch := Find(branches, HasId(id));
      DeletePreservesValid(branches, id);
      refused := branch.Some? && branch.value.isMain;
      branches := DeleteBranch(branches, id);
    }

    method ToggleActiveOf(id: string)
      requires Valid(branches)
      modifies this
      ensures branches == ToggleActive(old(branches), id)
      ensures showDialog == old(showDialog) && editingBranch == old(editingBranch) && formData == old(formData)
      ensures Valid(branches)
    {
      ToggleActiveSpec(branches, id);
      branches := ToggleActive(branches, id);
    }

    /** Set as Main; the invariant survives for an id that is in the list. */
    method SetMainOf(id: string)
      requires Valid(branches)
      modifies this
      ensures branches == SetMain(old(branches), id)
      ensures Present(old(branches), id) ==> Valid(branches)
      ensures showDialog == old(showDialog) && editingBranch == old(editingBranch) && formData == old(formData)
    {
      SetMainPreservesValid(branches, id);
      branches := SetMain(branches, id);
    }
  }
}
