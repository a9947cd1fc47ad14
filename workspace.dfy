/**
 * The workspace store: which dealership the session is scoped to, kept in
 * two persisted fields and reconciled against the user's role and the
 * ordered list of dealerships the server currently permits.
 *
 * The reconciliation rules are pure functions on a `Snapshot`; the store
 * itself is a class whose methods follow the source step by step and are
 * proved to produce exactly what those functions describe.
 */
module Workspace {
  import opened Wrappers

  datatype Role = Employee | Observer | Manager | Owner

  /** The two fields of the signed-in user that the store consults. */
  datatype User = User(role: Role, dealershipId: Option<int>)

  datatype Dealership = Dealership(id: int, name: string)

  /** The persisted fields of the store: what `partialize` keeps. */
  datatype Snapshot = Snapshot(selectedDealershipId: Option<int>, hasInitialized: bool)

  /** The state of a fresh store, and the state after logout. */
  const Empty := Snapshot(None, false)

  /** Managers and observers share one rule: fall back to the first permitted dealership. */
  predicate FallsBackToFirst(role: Role) {
    role.Manager? || role.Observer?
  }

  /** `availableDealerships.some(d => d.id === id)` */
  predicate Permits(ds: seq<Dealership>, id: int) {
    exists i :: 0 <= i < |ds| && ds[i].id == id
  }

  /** A selection is valid against a list when it is non-null and listed. */
  predicate IsPermitted(ds: seq<Dealership>, sel: Option<int>) {
    sel.Some? && Permits(ds, sel.value)
  }

  /** The dealership the store falls back to when a selection must be re-derived. */
  function Rederive(user: User, prior: Option<int>, ds: seq<Dealership>): (r: Option<int>)
    // an employee is always pinned to the home dealership, whatever the list says
    ensures user.role == Employee ==> r == user.dealershipId
    // an owner keeps a still-permitted choice; otherwise "all dealerships" (null)
    ensures user.role == Owner ==> (r.Some? ==> r == prior && Permits(ds, r.value))
    ensures user.role == Owner && IsPermitted(ds, prior) ==> r == prior
    // a manager or observer always ends on a permitted dealership when there is one
    ensures FallsBackToFirst(user.role) ==> (r.None? <==> ds == [])
    ensures FallsBackToFirst(user.role) && r.Some? ==> Permits(ds, r.value)
    ensures FallsBackToFirst(user.role) && IsPermitted(ds, prior) ==> r == prior
    ensures FallsBackToFirst(user.role) && !IsPermitted(ds, prior) && ds != [] ==> r == Some(ds[0].id)
  {
    match user.role
    case Employee => user.dealershipId
    case Owner => if prior.Some? && Permits(ds, prior.value) then prior else None
    case _ =>
      if |ds| > 0 then
        assert Permits(ds, ds[0].id) by { assert ds[0].id == ds[0].id; }
        if prior.Some? && Permits(ds, prior.value) then prior else Some(ds[0].id)
      else None
  }

  /** Whether an already-initialized store leaves its selection untouched on re-initialization. */
  predicate KeepsSelection(s: Snapshot, user: User, ds: seq<Dealership>) {
    s.hasInitialized && ((user.role == Owner && s.selectedDealershipId.None?) || IsPermitted(ds, s.selectedDealershipId))
  }

  /** The snapshot `initializeWorkspace(user, ds)` leaves behind. */
  function Initialize(s: Snapshot, user: User, ds: seq<Dealership>): (r: Snapshot)
    ensures r.hasInitialized
    // a still-valid selection of an initialized store is never overwritten
    ensures s.hasInitialized && IsPermitted(ds, s.selectedDealershipId) ==> r == s
    ensures s.hasInitialized && user.role == Owner && s.selectedDealershipId.None? ==> r == s
    // per-role results
    ensures user.role == Employee ==>
      r.selectedDealershipId == user.dealershipId
      || (s.hasInitialized && r.selectedDealershipId == s.selectedDealershipId && IsPermitted(ds, s.selectedDealershipId))
    ensures user.role == Owner ==> r.selectedDealershipId.None? || IsPermitted(ds, r.selectedDealershipId)
    ensures FallsBackToFirst(user.role) ==> (ds != [] <==> IsPermitted(ds, r.selectedDealershipId))
    ensures FallsBackToFirst(user.role) && ds == [] ==> r.selectedDealershipId.None?
  {
    if KeepsSelection(s, user, ds) then s
    else Snapshot(Rederive(user, s.selectedDealershipId, ds), true)
  }

  /** Whether `validateAndUpdateWorkspace` calls `set`. */
  predicate ValidateCommits(s: Snapshot, user: User, ds: seq<Dealership>) {
    if user.role == Employee then s.selectedDealershipId != user.dealershipId
    else if user.role == Owner && s.selectedDealershipId.None? then false
    else s.selectedDealershipId.Some? && !Permits(ds, s.selectedDealershipId.value) && |ds| > 0
  }

  /** The snapshot `validateAndUpdateWorkspace(user, ds)` leaves behind. */
  function Validate(s: Snapshot, user: User, ds: seq<Dealership>): (r: Snapshot)
    ensures r.hasInitialized == s.hasInitialized
    ensures user.role == Employee ==> r.selectedDealershipId == user.dealershipId
    // a non-employee keeps a null selection, keeps everything when the list is empty,
    // and keeps a permitted selection
    ensures user.role != Employee && (s.selectedDealershipId.None? || ds == [] || IsPermitted(ds, s.selectedDealershipId)) ==> r == s
    // otherwise the selection becomes the first permitted dealership
    ensures user.role != Employee && s.selectedDealershipId.Some? && ds != [] ==> IsPermitted(ds, r.selectedDealershipId)
    ensures user.role != Employee && s.selectedDealershipId.Some? && ds != [] && !IsPermitted(ds, s.selectedDealershipId) ==>
      r.selectedDealershipId == Some(ds[0].id)
  {
    if ValidateCommits(s, user, ds) then
      if user.role == Employee then s.(selectedDealershipId := user.dealershipId)
      else
        assert Permits(ds, ds[0].id) by { assert ds[0].id == ds[0].id; }
        s.(selectedDealershipId := Some(ds[0].id))
    else s
  }

  /** One call into the store, as made by the session and the screens. */
  datatype Action =
    | SetDealership(id: Option<int>)
    | InitializeWith(ds: seq<Dealership>)
    | ValidateWith(ds: seq<Dealership>)
    | Reset

  predicate IsReconciliation(a: Action) {
    a.InitializeWith? || a.ValidateWith?
  }

  function Step(s: Snapshot, user: User, a: Action): Snapshot {
    match a
    case SetDealership(id) => s.(selectedDealershipId := id)
    case InitializeWith(ds) => Initialize(s, user, ds)
    case ValidateWith(ds) => Validate(s, user, ds)
    case Reset => Empty
  }

  /** The snapshot after a sequence of calls made for one user. */
  function Run(s: Snapshot, user: User, actions: seq<Action>): Snapshot
    decreases |actions|
  {
    if actions == [] then s else Run(Step(s, user, actions[0]), user, actions[1..])
  }

  /** Calling `initializeWorkspace` twice with the same inputs leaves the same state as once. */
  lemma InitializeIdempotent(s: Snapshot, user: User, ds: seq<Dealership>)
    ensures Initialize(Initialize(s, user, ds), user, ds) == Initialize(s, user, ds)
  {
  }

  /** `validateAndUpdateWorkspace` is idempotent and, the second time, does not call `set`. */
  lemma ValidateIdempotent(s: Snapshot, user: User, ds: seq<Dealership>)
    ensures Validate(Validate(s, user, ds), user, ds) == Validate(s, user, ds)
    ensures !ValidateCommits(Validate(s, user, ds), user, ds)
  {
  }

  /** `validateAndUpdateWorkspace` calls `set` exactly when the selection changes. */
  lemma ValidateCommitsOnlyOnChange(s: Snapshot, user: User, ds: seq<Dealership>)
    ensures ValidateCommits(s, user, ds) <==> Validate(s, user, ds) != s
  {
  }

  /** After initialization with a list, validating a non-employee against the same list changes nothing. */
  lemma ValidateAfterInitialize(s: Snapshot, user: User, ds: seq<Dealership>)
    requires user.role != Employee
    ensures Validate(Initialize(s, user, ds), user, ds) == Initialize(s, user, ds)
  {
  }

  /**
   * An employee whose selection is the home dealership stays there through any
   * sequence of initializations and validations, whatever lists they see.
   */
  lemma {:induction false} EmployeeStaysHome(s: Snapshot, user: User, actions: seq<Action>)
    requires user.role == Employee
    requires s.selectedDealershipId == user.dealershipId
    requires forall i :: 0 <= i < |actions| ==> IsReconciliation(actions[i])
    ensures Run(s, user, actions).selectedDealershipId == user.dealershipId
    decreases |actions|
  {
    if actions != [] {
      EmployeeStaysHome(Step(s, user, actions[0]), user, actions[1..]);
    }
  }

  /**
   * A validation, or the first initialization of a fresh store, pins an employee
   * to the home dealership, and the reconciliations that follow keep it there.
   */
  lemma EmployeePinnedOnceReconciled(s: Snapshot, user: User, actions: seq<Action>)
    requires user.role == Employee
    requires actions != [] && (actions[0].ValidateWith? || (actions[0].InitializeWith? && !s.hasInitialized))
    requires forall i :: 0 <= i < |actions| ==> IsReconciliation(actions[i])
    ensures Run(s, user, actions).selectedDealershipId == user.dealershipId
  {
    EmployeeStaysHome(Step(s, user, actions[0]), user, actions[1..]);
  }

  /**
   * A manager or observer with a concrete selection keeps a concrete selection
   * through reconciliations against non-empty lists, and it is always one the
   * latest list permits.
   */
  lemma {:induction false} ManagerStaysPermitted(s: Snapshot, user: User, actions: seq<Action>)
    requires FallsBackToFirst(user.role)
    requires s.selectedDealershipId.Some?
    requires forall i :: 0 <= i < |actions| ==> IsReconciliation(actions[i]) && actions[i].ds != []
    ensures Run(s, user, actions).selectedDealershipId.Some?
    ensures actions != [] ==>
      var last := actions[|actions| - 1];
      IsReconciliation(last) && IsPermitted(last.ds, Run(s, user, actions).selectedDealershipId)
    decreases |actions|
  {
    if actions != [] {
      var next := Step(s, user, actions[0]);
      assert IsPermitted(actions[0].ds, next.selectedDealershipId);
      ManagerStaysPermitted(next, user, actions[1..]);
      if |actions| == 1 {
        assert actions[1..] == [];
      } else {
        assert actions[|actions| - 1] == actions[1..][|actions[1..]| - 1];
      }
    }
  }

  /** An owner's "all dealerships" choice survives any validation. */
  lemma OwnerAllDealershipsSurvives(s: Snapshot, user: User, ds: seq<Dealership>)
    requires user.role == Owner && s.selectedDealershipId.None?
    ensures Validate(s, user, ds) == s
    ensures s.hasInitialized ==> Initialize(s, user, ds) == s
  {
  }

  /** A manager whose stored 7 is no longer among [3, 9] is moved to 3. */
  lemma ManagerFallbackExample()
    ensures Validate(Snapshot(Some(7), true), User(Manager, None), [Dealership(3, "A"), Dealership(9, "B")])
         == Snapshot(Some(3), true)
  {
    var ds := [Dealership(3, "A"), Dealership(9, "B")];
    assert !Permits(ds, 7);
  }

  /**
   * Re-initializing an employee's store keeps a permitted selection even when it is
   * not the home dealership: only validation forces the home dealership.
   */
  lemma EmployeeInitializeKeepsPermittedSelection()
    ensures Initialize(Snapshot(Some(5), true), User(Employee, Some(1)), [Dealership(5, "A")]).selectedDealershipId == Some(5)
    ensures Validate(Snapshot(Some(5), true), User(Employee, Some(1)), [Dealership(5, "A")]).selectedDealershipId == Some(1)
  {
    var ds := [Dealership(5, "A")];
    assert ds[0].id == 5;
  }

  /**
   * Logout forgets the old selection: whatever follows it runs as on a fresh
   * store, and the next initialization derives the selection from scratch.
   */
  lemma ResetForgetsSelection(s: Snapshot, user: User, ds: seq<Dealership>, rest: seq<Action>)
    ensures Run(s, user, [Reset] + rest) == Run(Snapshot(None, false), user, rest)
    ensures Run(s, user, [Reset, InitializeWith(ds)]) == Snapshot(Rederive(user, None, ds), true)
  {
    assert ([Reset] + rest)[0] == Reset;
    assert ([Reset] + rest)[1..] == rest;
    var tail := [InitializeWith(ds)];
    assert [Reset, InitializeWith(ds)] == [Reset] + tail;
    assert Run(Empty, user, tail) == Run(Initialize(Empty, user, ds), user, tail[1..]);
    assert tail[1..] == [];
  }

  /**
   * The zustand store. `set` merges into these fields, notifies subscribers and
   * has the persist middleware rewrite the partialized snapshot; `writes` is
   * the log of those snapshots, one per `set` call.
   */
  class WorkspaceStore {
    var selectedDealershipId: Option<int>
    var hasInitialized: bool
    var writes: seq<Snapshot>

    constructor ()
      ensures Partialize() == Empty && writes == []
    {
      selectedDealershipId := None;
      hasInitialized := false;
      writes := [];
    }

    /** The fields the persist middleware keeps (`partialize`). */
    function Partialize(): Snapshot
      reads this
    {
      Snapshot(selectedDealershipId, hasInitialized)
    }

    /** `set(...)`: replace the fields and persist the new snapshot. */
    method Set(sel: Option<int>, initialized: bool)
      modifies this
      ensures Partialize() == Snapshot(sel, initialized)
      ensures writes == old(writes) + [Partialize()]
    {
      selectedDealershipId := sel;
      hasInitialized := initialized;
      writes := writes + [Partialize()];
    }

    method SetDealership(id: Option<int>)
      modifies this
      ensures selectedDealershipId == id && hasInitialized == old(hasInitialized)
      ensures writes == old(writes) + [Partialize()]
    {
      Set(id, hasInitialized);
    }

    method InitializeWorkspace(user: User, ds: seq<Dealership>)
      modifies this
      ensures Partialize() == Initialize(old(Partialize()), user, ds)
      ensures writes == if KeepsSelection(old(Partialize()), user, ds) then old(writes)
                        else old(writes) + [Partialize()]
    {
      if hasInitialized {
        if user.role == Owner && selectedDealershipId == None {
          return;
        }
        if selectedDealershipId != None {
          var isValid := Permits(ds, selectedDealershipId.value);
          if isValid {
            return;
          }
        }
      }

      var dealershipId: Option<int> := None;
      if user.role == Employee {
        dealershipId := user.dealershipId;
      } else if user.role == Owner {
        if selectedDealershipId != None {
          var isValid := Permits(ds, selectedDealershipId.value);
          dealershipId := if isValid then selectedDealershipId else None;
        } else {
          dealershipId := None;
        }
      } else if |ds| > 0 {
        if selectedDealershipId != None {
          var isValid := Permits(ds, selectedDealershipId.value);
          if isValid {
            dealershipId := selectedDealershipId;
          } else {
            dealershipId := Some(ds[0].id);
          }
        } else {
          dealershipId := Some(ds[0].id);
        }
      }

      Set(dealershipId, true);
    }

    method ValidateAndUpdateWorkspace(user: User, ds: seq<Dealership>)
      modifies this
      ensures Partialize() == Validate(old(Partialize()), user, ds)
      ensures writes == if ValidateCommits(old(Partialize()), user, ds) then old(writes) + [Partialize()]
                        else old(writes)
    {
      if user.role == Employee {
        if selectedDealershipId != user.dealershipId {
          Set(user.dealershipId, hasInitialized);
        }
        return;
      }

      if user.role == Owner && selectedDealershipId == None {
        return;
      }

      if selectedDealershipId != None {
        var isValid := Permits(ds, selectedDealershipId.value);
        if !isValid && |ds| > 0 {
          Set(Some(ds[0].id), hasInitialized);
        }
      }
    }

    method ResetWorkspace()
      modifies this
      ensures Partialize() == Empty
      ensures writes == old(writes) + [Empty]
    {
      Set(None, false);
    }
  }
}
