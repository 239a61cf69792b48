/** Storage accounting of one organization: the usage counter, the file records and the stored objects. */
module Storage {
  import opened Ordering
  import opened Sums

  datatype SourceType = BankTransactions | ErpInvoices | GatewaySettlements

  datatype SourceFile = SourceFile(runId: nat, sourceType: SourceType, size: nat, key: nat)

  /** `objects` gives the size of each stored object by key; `planned` are the keys a cleanup of abandoned
      uploads saw no record for and goes on to delete, one by one, in its own time. */
  datatype Store = Store(
    quota: Option<nat>,
    used: nat,
    files: map<nat, SourceFile>,
    objects: map<nat, nat>,
    planned: set<nat>)

  /** What a handler finds when it looks for the run. */
  datatype RunState = Missing | Closed | Open

  datatype Refusal =
    | RunNotFound
    | RunNotPending
    | UploadRejected
    | TypeConflict
    | QuotaExceeded
    | FileNotFound
    | AlreadyFinalized
    | MetadataMismatch
    | ValidationFailed
    | FileInUse
    | StorageUnavailable

  /** A refusal may still have removed the object it refused. */
  datatype Answer = Done(store: Store, file: Option<nat>) | Refused(store: Store, refusal: Refusal)

  function Size(f: SourceFile): nat
  {
    f.size
  }

  /** `apply_storage_delta`; None when the quota is exceeded. */
  function ApplyDelta(s: Store, delta: int): Option<Store>
  {
    var updated := if s.used + delta < 0 then 0 else s.used + delta;
    if s.quota.Some? && updated > s.quota.value then None else Some(s.(used := updated))
  }

  /** `update_storage_quota`. */
  function UpdateQuota(s: Store, quota: Option<nat>): Answer
  {
    if quota.Some? && quota.value < s.used then Refused(s, QuotaExceeded) else Done(s.(quota := quota), None)
  }

  predicate TypeTaken(files: map<nat, SourceFile>, runId: nat, sourceType: SourceType)
  {
    exists other :: other in files && files[other].runId == runId && files[other].sourceType == sourceType
  }

  /** `source_files.add` and `apply_storage_delta` in one transaction, whose failure removes the object. */
  function Register(s: Store, id: nat, f: SourceFile): Answer
  {
    if TypeTaken(s.files, f.runId, f.sourceType) then Refused(s.(objects := s.objects - {f.key}), TypeConflict)
    else
      var charged := ApplyDelta(s.(files := s.files[id := f]), f.size);
      if charged.None? then Refused(s.(objects := s.objects - {f.key}), QuotaExceeded)
      else Done(charged.value, Some(id))
  }

  /** `upload_source_file`; `size` is None when the storage rejects the upload. */
  function Upload(s: Store, id: nat, run: RunState, runId: nat, sourceType: SourceType, key: nat, size: Option<nat>): Answer
  {
    if run.Missing? then Refused(s, RunNotFound)
    else if run.Closed? then Refused(s, RunNotPending)
    else if size.None? then Refused(s, UploadRejected)
    else Register(s.(objects := s.objects[key := size.value]), id, SourceFile(runId, sourceType, size.value, key))
  }

  /** `delete_source_file`; `inUse` tells whether the run has left PENDING or its job is still alive, `owned`
      whether the key lies in the organization's namespace. */
  function Delete(s: Store, id: nat, inUse: bool, owned: bool, reachable: bool): Answer
  {
    if id !in s.files then Done(s, None)
    else if inUse then Refused(s, FileInUse)
    else if !owned then Refused(s, FileNotFound)
    else if !reachable then Refused(s, StorageUnavailable)
    else
      var f := s.files[id];
      var removed := s.(files := s.files - {id}, objects := s.objects - {f.key});
      var charged := ApplyDelta(removed, -(f.size as int));
      if charged.None? then Refused(s.(objects := s.objects - {f.key}), QuotaExceeded) else Done(charged.value, None)
  }

  /** `find_by_storage_key`. */
  ghost function Holder(files: map<nat, SourceFile>, key: nat): (holder: Option<nat>)
    ensures holder.None? ==> forall id :: id in files ==> files[id].key != key
    ensures holder.Some? ==> holder.value in files && files[holder.value].key == key
  {
    if id :| id in files && files[id].key == key then Some(id) else None
  }

  /** `finalize_direct_upload`; `claimed` is the size the client states, `matches` whether the stored content
      type and checksum agree with the client's, `sound` whether the inspected contents do. */
  ghost function FinalizeUpload(
      s: Store, id: nat, run: RunState, runId: nat, sourceType: SourceType, key: nat, owned: bool, claimed: nat,
      maximum: nat, matches: bool, sound: bool): Answer
  {
    var holder := Holder(s.files, key);
    if run.Missing? then Refused(s, RunNotFound)
    else if run.Closed? then Refused(s, RunNotPending)
    else if !owned then Refused(s, FileNotFound)
    else if holder.Some? then
      var existing := s.files[holder.value];
      if existing.runId == runId && existing.sourceType == sourceType then Done(s, holder)
      else Refused(s, AlreadyFinalized)
    else if key !in s.objects then Refused(s, FileNotFound)
    else if s.objects[key] != claimed || s.objects[key] > maximum || !matches then
      Refused(s.(objects := s.objects - {key}), MetadataMismatch)
    else if !sound then Refused(s.(objects := s.objects - {key}), ValidationFailed)
    else Register(s, id, SourceFile(runId, sourceType, claimed, key))
  }

  // What gets a record, on the records.

  /** Nothing is stored for this run and type yet, and the quota has room. */
  predicate Admits(s: Store, runId: nat, sourceType: SourceType, size: nat)
  {
    && (forall id :: id in s.files ==> s.files[id].runId != runId || s.files[id].sourceType != sourceType)
    && (s.quota.Some? ==> s.used + size <= s.quota.value)
  }

  /** Which of the two stands in the way; the file comes first. */
  ghost function TooMuch(s: Store, runId: nat, sourceType: SourceType): Refusal
  {
    if exists id :: id in s.files && s.files[id].runId == runId && s.files[id].sourceType == sourceType then TypeConflict
    else QuotaExceeded
  }

  lemma UploadOnRecords(
      s: Store, id: nat, run: RunState, runId: nat, sourceType: SourceType, key: nat, size: Option<nat>)
    requires id !in s.files && key !in s.objects
    ensures var answer := Upload(s, id, run, runId, sourceType, key, size);
      if run == Open && size.Some? && Admits(s, runId, sourceType, size.value) then
        answer == Done(s.(used := s.used + size.value, objects := s.objects[key := size.value],
                          files := s.files[id := SourceFile(runId, sourceType, size.value, key)]), Some(id))
      else answer == Refused(s,
        if run == Missing then RunNotFound else if run == Closed then RunNotPending
        else if size == None then UploadRejected else TooMuch(s, runId, sourceType))
  {
    if size.Some? {
      assert s.objects[key := size.value] - {key} == s.objects;
    }
  }

  /** The stored object is what the client says it is, and no larger than allowed. */
  predicate Verified(s: Store, key: nat, claimed: nat, maximum: nat, matches: bool, sound: bool)
  {
    key in s.objects && s.objects[key] == claimed && claimed <= maximum && matches && sound
  }

  /** A new key gets a record exactly when the object is verified and the run admits it; an object that is
      there and is refused is removed. */
  lemma FinalizeOnRecords(
      s: Store, id: nat, run: RunState, runId: nat, sourceType: SourceType, key: nat, owned: bool, claimed: nat,
      maximum: nat, matches: bool, sound: bool)
    requires forall other :: other in s.files ==> s.files[other].key != key
    ensures var answer := FinalizeUpload(s, id, run, runId, sourceType, key, owned, claimed, maximum, matches, sound);
      if run != Open || !owned then
        answer == Refused(s, if run == Missing then RunNotFound else if run == Closed then RunNotPending else FileNotFound)
      else if Verified(s, key, claimed, maximum, matches, sound) && Admits(s, runId, sourceType, claimed) then
        answer == Done(s.(used := s.used + claimed, files := s.files[id := SourceFile(runId, sourceType, claimed, key)]), Some(id))
      else answer == Refused(s.(objects := s.objects - {key}),
        if key !in s.objects then FileNotFound
        else if s.objects[key] != claimed || claimed > maximum || !matches then MetadataMismatch
        else if !sound then ValidationFailed
        else TooMuch(s, runId, sourceType))
  {
    assert key !in s.objects ==> s.objects - {key} == s.objects;
  }

  /** A file goes, with its object and its share of the counter, unless it is in use, foreign or out of reach. */
  lemma DeleteOnRecords(s: Store, id: nat, inUse: bool, owned: bool, reachable: bool)
    requires id in s.files && s.files[id].size <= s.used && (s.quota.Some? ==> s.used <= s.quota.value)
    ensures var answer := Delete(s, id, inUse, owned, reachable);
      if inUse || !owned || !reachable then
        answer == Refused(s, if inUse then FileInUse else if !owned then FileNotFound else StorageUnavailable)
      else answer == Done(s.(files := s.files - {id}, objects := s.objects - {s.files[id].key},
                             used := s.used - s.files[id].size), None)
  {
  }

  // All runs.

  datatype Action =
    | UploadStep(id: nat, run: RunState, runId: nat, sourceType: SourceType, key: nat, size: Option<nat>)
    | DeleteStep(id: nat, inUse: bool, owned: bool, reachable: bool)
    | FinalizeStep(id: nat, run: RunState, runId: nat, sourceType: SourceType, key: nat, owned: bool, claimed: nat,
                   maximum: nat, matches: bool, sound: bool)
    | ClientPutStep(key: nat, bytes: nat)
    | QuotaStep(quota: Option<nat>)
    | PlanStep(candidates: set<nat>)
    | SweepStep(key: nat)
    | RepairStep

  /** Some record is stored under the key. */
  predicate Referenced(files: map<nat, SourceFile>, key: nat)
  {
    exists id :: id in files && files[id].key == key
  }

  /** File ids and the keys of uploads are fresh; a client may put objects, even over existing ones. A cleanup
      plans to delete what no record refers to and deletes planned objects later; the integrity verifier
      does the same and resets the counter to the sum of the recorded sizes. */
  ghost function Perform(s: Store, a: Action): Store
  {
    match a
    case UploadStep(id, run, runId, sourceType, key, size) =>
      if id in s.files || key in s.objects || key in s.planned then s
      else Upload(s, id, run, runId, sourceType, key, size).store
    case DeleteStep(id, inUse, owned, reachable) => Delete(s, id, inUse, owned, reachable).store
    case FinalizeStep(id, run, runId, sourceType, key, owned, claimed, maximum, matches, sound) =>
      if id in s.files then s
      else FinalizeUpload(s, id, run, runId, sourceType, key, owned, claimed, maximum, matches, sound).store
    case ClientPutStep(key, bytes) => s.(objects := s.objects[key := bytes])
    case QuotaStep(quota) => UpdateQuota(s, quota).store
    case PlanStep(candidates) => s.(planned := s.planned + set key | key in candidates && !Referenced(s.files, key))
    case SweepStep(key) => if key in s.planned then s.(objects := s.objects - {key}) else s
    case RepairStep => s.(used := Sum(s.files, s.files.Keys, Size))
  }

  ghost function After(s: Store, actions: seq<Action>): Store
  {
    if actions == [] then s else Perform(After(s, actions[..|actions| - 1]), actions[|actions| - 1])
  }

  ghost predicate Balanced(s: Store)
  {
    s.used == Sum(s.files, s.files.Keys, Size)
  }

  /** The counter agrees with the records and the quota; no two records share a key, or a run and type; a
      record whose object is gone was in the way of a cleanup. */
  ghost predicate Inv(s: Store)
  {
    && Balanced(s)
    && (s.quota.Some? ==> s.used <= s.quota.value)
    && (forall a, b :: a in s.files && b in s.files && s.files[a].key == s.files[b].key ==> a == b)
    && (forall a, b :: a in s.files && b in s.files && SameSlot(s.files[a], s.files[b]) ==> a == b)
    && (forall id :: id in s.files ==> s.files[id].key in s.objects || s.files[id].key in s.planned)
  }

  /** Every record has its stored object. */
  ghost predicate Backed(s: Store)
  {
    forall id :: id in s.files ==> s.files[id].key in s.objects
  }

  predicate SameSlot(f: SourceFile, g: SourceFile)
  {
    f.runId == g.runId && f.sourceType == g.sourceType
  }

  lemma AddedTotal(s: Store, id: nat, f: SourceFile)
    requires id !in s.files
    ensures var files := s.files[id := f];
      Sum(files, files.Keys, Size) == Sum(s.files, s.files.Keys, Size) + f.size
  {
    var files := s.files[id := f];
    SumTakesOut(files, files.Keys, Size, id);
    assert files.Keys - {id} == s.files.Keys;
    SumOfSame(s.files, files, s.files.Keys, Size);
  }

  lemma RemovedTotal(s: Store, id: nat)
    requires id in s.files
    ensures var files := s.files - {id};
      Sum(s.files, s.files.Keys, Size) == Sum(files, files.Keys, Size) + s.files[id].size
  {
    var files := s.files - {id};
    SumTakesOut(s.files, s.files.Keys, Size, id);
    assert files.Keys == s.files.Keys - {id};
    SumOfSame(s.files, files, files.Keys, Size);
  }

  lemma RegisterKeepsInv(s: Store, id: nat, f: SourceFile)
    requires Inv(s) && id !in s.files && f.key in s.objects
    requires forall other :: other in s.files ==> s.files[other].key != f.key
    ensures Inv(Register(s, id, f).store)
    ensures Backed(s) ==> Backed(Register(s, id, f).store)
  {
    hide Sum;
    AddedTotal(s, id, f);
  }

  lemma UploadKeepsInv(s: Store, id: nat, run: RunState, runId: nat, sourceType: SourceType, key: nat, size: Option<nat>)
    requires Inv(s) && id !in s.files && key !in s.objects && key !in s.planned
    ensures var v := Upload(s, id, run, runId, sourceType, key, size).store; Inv(v) && (Backed(s) ==> Backed(v))
  {
    hide Sum, Register;
    if size.Some? {
      RegisterKeepsInv(s.(objects := s.objects[key := size.value]), id, SourceFile(runId, sourceType, size.value, key));
    }
  }

  lemma FinalizeKeepsInv(
      s: Store, id: nat, run: RunState, runId: nat, sourceType: SourceType, key: nat, owned: bool, claimed: nat,
      maximum: nat, matches: bool, sound: bool)
    requires Inv(s) && id !in s.files
    ensures var v := FinalizeUpload(s, id, run, runId, sourceType, key, owned, claimed, maximum, matches, sound).store;
      Inv(v) && (Backed(s) ==> Backed(v))
  {
    hide Sum, Register;
    if Holder(s.files, key).None? && key in s.objects {
      RegisterKeepsInv(s, id, SourceFile(runId, sourceType, claimed, key));
    }
  }

  lemma DeleteKeepsInv(s: Store, id: nat, inUse: bool, owned: bool, reachable: bool)
    requires Inv(s)
    ensures var v := Delete(s, id, inUse, owned, reachable).store; Inv(v) && (Backed(s) ==> Backed(v))
  {
    hide Sum;
    if id in s.files {
      RemovedTotal(s, id);
    }
  }

  /** This sweep deletes an object that has got a record since it was planned. */
  ghost predicate LateSweep(s: Store, a: Action)
  {
    a.SweepStep? && a.key in s.planned && Referenced(s.files, a.key)
  }

  lemma PerformKeepsInv(s: Store, a: Action)
    requires Inv(s)
    ensures Inv(Perform(s, a))
    ensures Backed(s) && !LateSweep(s, a) ==> Backed(Perform(s, a))
  {
    hide Sum, Upload, FinalizeUpload, Delete;
    match a
    case UploadStep(id, run, runId, sourceType, key, size) =>
      if id !in s.files && key !in s.objects && key !in s.planned {
        UploadKeepsInv(s, id, run, runId, sourceType, key, size);
      }
    case DeleteStep(id, inUse, owned, reachable) => DeleteKeepsInv(s, id, inUse, owned, reachable);
    case FinalizeStep(id, run, runId, sourceType, key, owned, claimed, maximum, matches, sound) =>
      if id !in s.files {
        FinalizeKeepsInv(s, id, run, runId, sourceType, key, owned, claimed, maximum, matches, sound);
      }
    case _ =>
  }

  function Empty(quota: Option<nat>): Store
  {
    Store(quota, 0, map[], map[], {})
  }

  /** No sweep of the history is late. */
  ghost predicate SweptInTime(s: Store, actions: seq<Action>)
  {
    forall i :: 0 <= i < |actions| ==> !LateSweep(After(s, actions[..i]), actions[i])
  }

  lemma {:induction false} AlwaysInv(quota: Option<nat>, actions: seq<Action>)
    ensures Inv(After(Empty(quota), actions))
    ensures SweptInTime(Empty(quota), actions) ==> Backed(After(Empty(quota), actions))
  {
    hide Perform, LateSweep, Sum;
    if actions != [] {
      var n := |actions| - 1;
      assert forall i :: 0 <= i < n ==> actions[..n][..i] == actions[..i];
      AlwaysInv(quota, actions[..n]);
      PerformKeepsInv(After(Empty(quota), actions[..n]), actions[n]);
      assert SweptInTime(Empty(quota), actions) ==> SweptInTime(Empty(quota), actions[..n]);
    } else {
      EmptyIsFine(quota);
    }
  }

  lemma EmptyIsFine(quota: Option<nat>)
    ensures Inv(Empty(quota)) && Backed(Empty(quota))
  {
  }

  /** Main result: after any history, cleanups and repairs included, the counter is the sum of the recorded
      sizes, within the quota in force, and no two records share an object; and as long as no cleanup
      deleted an object that had got its record in the meantime, no record has lost its object. */
  lemma StorageLedgerTheorem(quota: Option<nat>, actions: seq<Action>)
    ensures var s := After(Empty(quota), actions);
      && s.used == Sum(s.files, s.files.Keys, Size)
      && (s.quota.Some? ==> s.used <= s.quota.value)
      && (forall a, b :: a in s.files && b in s.files && s.files[a].key == s.files[b].key ==> a == b)
      && (SweptInTime(Empty(quota), actions) ==> forall id :: id in s.files ==> s.files[id].key in s.objects)
  {
    AlwaysInv(quota, actions);
  }

  /** Main result: one action leaves every record its object exactly when it is not a late sweep. */
  lemma SweepExactly(quota: Option<nat>, actions: seq<Action>, a: Action)
    requires Backed(After(Empty(quota), actions))
    ensures var s := After(Empty(quota), actions);
      Backed(Perform(s, a)) <==> !LateSweep(s, a)
  {
    var s := After(Empty(quota), actions);
    AlwaysInv(quota, actions);
    PerformKeepsInv(s, a);
    if LateSweep(s, a) {
      var id :| id in s.files && s.files[id].key == a.key;
      assert s.files[id].key !in Perform(s, a).objects;
    }
  }

  /** Main result: a cleanup deletes only what had no record when it looked. */
  lemma {:induction false} PlannedWasUnrecorded(quota: Option<nat>, actions: seq<Action>, key: nat)
    requires key in After(Empty(quota), actions).planned
    ensures exists i :: PlansUnrecorded(quota, actions, i, key)
  {
    hide Upload, Delete, FinalizeUpload, UpdateQuota, Sum;
    var n := |actions| - 1;
    var before := After(Empty(quota), actions[..n]);
    if key in before.planned {
      PlannedWasUnrecorded(quota, actions[..n], key);
      var i :| PlansUnrecorded(quota, actions[..n], i, key);
      assert actions[..n][..i] == actions[..i];
      assert PlansUnrecorded(quota, actions, i, key);
    } else {
      OnlyPlansPlan(before, actions[n], key);
      assert PlansUnrecorded(quota, actions, n, key);
    }
  }

  ghost predicate PlansUnrecorded(quota: Option<nat>, actions: seq<Action>, i: int, key: nat)
  {
    && 0 <= i < |actions| && actions[i].PlanStep? && key in actions[i].candidates
    && forall id :: id in After(Empty(quota), actions[..i]).files ==> After(Empty(quota), actions[..i]).files[id].key != key
  }

  lemma OnlyPlansPlan(s: Store, a: Action, key: nat)
    requires key in Perform(s, a).planned && key !in s.planned
    ensures a.PlanStep? && key in a.candidates && forall id :: id in s.files ==> s.files[id].key != key
  {
  }

  /** Late sweeps happen: an object is planned, then finalised as file 1, then swept. */
  lemma SweepsCanBeLate()
    ensures var s := After(Empty(None), [
        ClientPutStep(9, 5), PlanStep({9}), FinalizeStep(1, Open, 1, ErpInvoices, 9, true, 5, 5, true, true), SweepStep(9)]);
      1 in s.files && s.files[1].key == 9 && 9 !in s.objects
  {
    var none := Empty(None);
    var finalise := FinalizeStep(1, Open, 1, ErpInvoices, 9, true, 5, 5, true, true);
    var all := [ClientPutStep(9, 5), PlanStep({9}), finalise, SweepStep(9)];
    assert all[..3][..2] == all[..2] && all[..2][..1] == all[..1] && all[..1][..0] == [];
    assert After(none, all[..1]) == Store(None, 0, map[], map[9 := 5], {});
    assert After(none, all[..2]) == Store(None, 0, map[], map[9 := 5], {9});
    assert After(none, all[..3]) == Perform(After(none, all[..2]), finalise);
  }

  /** Main result: the repair of the counter never finds anything to repair. */
  lemma RepairChangesNothing(quota: Option<nat>, actions: seq<Action>)
    ensures After(Empty(quota), actions + [RepairStep]) == After(Empty(quota), actions)
  {
    assert (actions + [RepairStep])[..|actions|] == actions;
    AlwaysInv(quota, actions);
  }

  /** Main result: the clamp at zero is never used, and the quota never blocks a delete. */
  lemma DeleteIsNeverBlocked(quota: Option<nat>, actions: seq<Action>, id: nat)
    requires id in After(Empty(quota), actions).files
    ensures var s := After(Empty(quota), actions);
      && s.used - s.files[id].size >= 0
      && Delete(s, id, false, true, true)
         == Done(s.(files := s.files - {id}, objects := s.objects - {s.files[id].key}, used := s.used - s.files[id].size), None)
  {
    hide After, Backed, SweptInTime, Sum;
    var s := After(Empty(quota), actions);
    AlwaysInv(quota, actions);
    RemovedTotal(s, id);
  }

  /** Main result: an accepted upload to an open run without a file of that type goes through exactly
      when the recorded sizes leave room for it. */
  lemma UploadExactly(quota: Option<nat>, actions: seq<Action>, id: nat, runId: nat, sourceType: SourceType, key: nat, size: nat)
    requires var s := After(Empty(quota), actions);
      id !in s.files && key !in s.objects && !TypeTaken(s.files, runId, sourceType)
    ensures var s := After(Empty(quota), actions);
      var answer := Upload(s, id, Open, runId, sourceType, key, Some(size));
      && (answer.Done? <==> (s.quota.Some? ==> Sum(s.files, s.files.Keys, Size) + size <= s.quota.value))
      && (answer.Refused? ==> answer == Refused(s, QuotaExceeded))
  {
    hide After, Backed, SweptInTime, Sum;
    var s := After(Empty(quota), actions);
    AlwaysInv(quota, actions);
    assert s.objects[key := size] - {key} == s.objects;
  }

  /** Main result: while the file of a finalised upload exists, finalising it again answers that file and
      charges nothing. */
  lemma FinalizeChargesOnce(
      quota: Option<nat>, actions: seq<Action>, existing: nat, id: nat, claimed: nat, maximum: nat, matches: bool, sound: bool)
    requires existing in After(Empty(quota), actions).files
    ensures var s := After(Empty(quota), actions);
      var f := s.files[existing];
      FinalizeUpload(s, id, Open, f.runId, f.sourceType, f.key, true, claimed, maximum, matches, sound)
      == Done(s, Some(existing))
  {
    AlwaysInv(quota, actions);
  }
}
