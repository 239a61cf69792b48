/** The storage handlers as they run: records, counter and objects updated in place. */
module StorageService {
  import opened Ordering
  import opened Storage

  /** A refusal is answered after whatever clean-up the handler does. */
  ghost predicate Answers(answer: Answer, file: Option<nat>, refusal: Option<Refusal>, after: Store)
  {
    && after == answer.store
    && match answer
       case Done(_, f) => refusal == None && file == f
       case Refused(_, e) => refusal == Some(e) && file == None
  }

  class Service {
    var quota: Option<nat>
    var used: nat
    var files: map<nat, SourceFile>
    var objects: map<nat, nat>
    ghost var planned: set<nat>

    constructor (quota: Option<nat>)
      ensures View() == Empty(quota)
    {
      this.quota, used, files, objects, planned := quota, 0, map[], map[], {};
    }

    ghost function View(): Store
      reads this
    {
      Store(quota, used, files, objects, planned)
    }

    method ApplyDelta(delta: int) returns (ok: bool)
      modifies this`used
      ensures var charged := Storage.ApplyDelta(old(View()), delta);
        ok == charged.Some? && View() == if ok then charged.value else old(View())
      ensures used == if !ok then old(used) else if old(used) + delta < 0 then 0 else old(used) + delta
    {
      var updated := used + delta;
      if updated < 0 {
        updated := 0;
      }
      if quota.Some? && updated > quota.value {
        return false;
      }
      used := updated;
      return true;
    }

    method UpdateQuota(newQuota: Option<nat>) returns (refusal: Option<Refusal>)
      modifies this`quota
      ensures Answers(Storage.UpdateQuota(old(View()), newQuota), None, refusal, View())
      ensures refusal.None? <==> (newQuota.Some? ==> used <= newQuota.value)
      ensures quota == if refusal.None? then newQuota else old(quota)
    {
      if newQuota.Some? && newQuota.value < used {
        return Some(QuotaExceeded);
      }
      quota := newQuota;
      return None;
    }

    /** The transaction adds the record, then charges it; if either fails, it is rolled back and the object removed. */
    method Register(id: nat, f: SourceFile) returns (file: Option<nat>, refusal: Option<Refusal>)
      modifies this`used, this`files, this`objects
      ensures Answers(Storage.Register(old(View()), id, f), file, refusal, View())
      ensures file.Some? ==> file == Some(id) && files == old(files)[id := f] && used == old(used) + f.size
      ensures file.None? ==> files == old(files) && used == old(used) && objects == old(objects) - {f.key}
    {
      if TypeTaken(files, f.runId, f.sourceType) {
        objects := objects - {f.key};
        return None, Some(TypeConflict);
      }
      var before := files;
      files := files[id := f];
      var charged := ApplyDelta(f.size);
      if !charged {
        files := before;
        objects := objects - {f.key};
        return None, Some(QuotaExceeded);
      }
      return Some(id), None;
    }

    method Upload(id: nat, run: RunState, runId: nat, sourceType: SourceType, key: nat, size: Option<nat>)
        returns (file: Option<nat>, refusal: Option<Refusal>)
      modifies this`used, this`files, this`objects
      ensures Answers(Storage.Upload(old(View()), id, run, runId, sourceType, key, size), file, refusal, View())
      ensures file.Some? ==> (
        && size.Some? && used == old(used) + size.value
        && objects == old(objects)[key := size.value]
        && files == old(files)[id := SourceFile(runId, sourceType, size.value, key)])
      ensures file.None? ==> files == old(files) && used == old(used)
    {
      if run == Missing {
        return None, Some(RunNotFound);
      }
      if run == Closed {
        return None, Some(RunNotPending);
      }
      if size == None {
        return None, Some(UploadRejected);
      }
      objects := objects[key := size.value];
      file, refusal := Register(id, SourceFile(runId, sourceType, size.value, key));
    }

    method Delete(id: nat, inUse: bool, owned: bool, reachable: bool) returns (refusal: Option<Refusal>)
      modifies this`used, this`files, this`objects
      ensures Answers(Storage.Delete(old(View()), id, inUse, owned, reachable), None, refusal, View())
      ensures refusal.None? && id in old(files) ==> files == old(files) - {id} && objects == old(objects) - {old(files)[id].key}
      ensures refusal.Some? || id !in old(files) ==> files == old(files) && used == old(used)
    {
      if id !in files {
        return None;
      }
      if inUse {
        return Some(FileInUse);
      }
      if !owned {
        return Some(FileNotFound);
      }
      if !reachable {
        return Some(StorageUnavailable);
      }
      var before, record := files, files[id];
      objects := objects - {record.key};
      files := files - {id};
      var charged := ApplyDelta(-(record.size as int));
      if !charged {
        files := before;
        return Some(QuotaExceeded);
      }
      return None;
    }

    method FinalizeUpload(
        id: nat, run: RunState, runId: nat, sourceType: SourceType, key: nat, owned: bool, claimed: nat, maximum: nat,
        matches: bool, sound: bool) returns (file: Option<nat>, refusal: Option<Refusal>)
      requires Inv(View())
      modifies this`used, this`files, this`objects
      ensures Answers(
        Storage.FinalizeUpload(old(View()), id, run, runId, sourceType, key, owned, claimed, maximum, matches, sound),
        file, refusal, View())
      ensures (exists other :: other in old(files) && old(files)[other].key == key) ==> View() == old(View())
      ensures file.Some? && (forall other :: other in old(files) ==> old(files)[other].key != key) ==> (
        && file.value == id && used == old(used) + claimed
        && files == old(files)[id := SourceFile(runId, sourceType, claimed, key)])
      ensures file.None? ==> files == old(files) && used == old(used)
    {
      if run == Missing {
        return None, Some(RunNotFound);
      }
      if run == Closed {
        return None, Some(RunNotPending);
      }
      if !owned {
        return None, Some(FileNotFound);
      }
      if other :| other in files && files[other].key == key {
        if files[other].runId == runId && files[other].sourceType == sourceType {
          return Some(other), None;
        }
        return None, Some(AlreadyFinalized);
      }
      if key !in objects {
        return None, Some(FileNotFound);
      }
      if objects[key] != claimed || objects[key] > maximum || !matches {
        objects := objects - {key};
        return None, Some(MetadataMismatch);
      }
      if !sound {
        objects := objects - {key};
        return None, Some(ValidationFailed);
      }
      file, refusal := Register(id, SourceFile(runId, sourceType, claimed, key));
    }
  }
}
