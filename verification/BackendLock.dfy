// A streamer serves one object-storage plugin, and a submission one kind of backend.
module BackendLock {
  import opened Codes
  import opened Assigner

  datatype Kind = FileSystem | S3 | GCS | Azure

  datatype Lock = Unlocked | LockedTo(kind: Kind)

  // Files without ranges reach no storage, so they do not count.
  ghost predicate Uses(files: seq<FileRanges>, classify: string -> Kind, kind: Kind)
  {
    exists f :: 0 <= f < |files| && files[f].ranges != [] && classify(files[f].path) == kind
  }

  ghost predicate Homogeneous(files: seq<FileRanges>, classify: string -> Kind)
  {
    forall a: Kind, b: Kind :: Uses(files, classify, a) && Uses(files, classify, b) ==> a == b
  }

  // The plugin the lock names is the one the submission wants, if it wants any.
  ghost predicate Fits(files: seq<FileRanges>, classify: string -> Kind, locked: Lock)
  {
    forall k: Kind :: Uses(files, classify, k) && k != FileSystem && locked.LockedTo? ==> locked.kind == k
  }

  // A submission that is accepted for an object storage locks its plugin; any other leaves the lock alone.
  ghost predicate LockedFor(files: seq<FileRanges>, classify: string -> Kind, locked: Lock, now: Lock)
  {
    if Homogeneous(files, classify) && Fits(files, classify, locked) then
      && (forall k: Kind :: Uses(files, classify, k) && k != FileSystem ==> now == LockedTo(k))
      && ((forall k: Kind :: Uses(files, classify, k) ==> k == FileSystem) ==> now == locked)
    else now == locked
  }

  // Once taken, the lock stays as it is through any number of submissions, accepted or not.
  lemma {:induction false} LockStays(submissions: seq<seq<FileRanges>>, classify: string -> Kind, locks: seq<Lock>,
                                     i: nat, j: nat)
    requires |locks| == |submissions| + 1 && i <= j < |locks| && locks[i].LockedTo?
    requires forall k :: 0 <= k < |submissions| ==> LockedFor(submissions[k], classify, locks[k], locks[k + 1])
    ensures locks[j] == locks[i]
    decreases j
  {
    if i < j {
      LockStays(submissions, classify, locks, i, j - 1);
      var files := submissions[j - 1];
      assert LockedFor(files, classify, locks[j - 1], locks[j]);
    }
  }

  // Accepted exactly when all files with ranges share one backend that the lock does not exclude.
  method LockObjectPlugin(files: seq<FileRanges>, classify: string -> Kind, locked: Lock)
    returns (code: ResponseCode, now: Lock)
    ensures code ==
            if Homogeneous(files, classify) && Fits(files, classify, locked) then Success else UnsupportedBackendMix
    ensures LockedFor(files, classify, locked, now)
  {
    var found, filesystem := Unlocked, false;
    for f := 0 to |files|
      invariant filesystem <==> Uses(files[..f], classify, FileSystem)
      invariant found.LockedTo? ==> found.kind != FileSystem && Uses(files, classify, found.kind)
      invariant forall k: Kind :: k != FileSystem ==> (found == LockedTo(k) <==> Uses(files[..f], classify, k))
    {
      UsesNext(files, classify, f);
      if files[f].ranges == [] {
        continue;
      }
      var kind := classify(files[f].path);
      if kind == FileSystem {
        filesystem := true;
        continue;
      }
      assert Uses(files, classify, kind);
      if found.LockedTo? && found.kind != kind {
        return UnsupportedBackendMix, locked;
      }
      found := LockedTo(kind);
    }
    assert files[..|files|] == files;
    if found == Unlocked {
      return Success, locked;
    }
    if filesystem {
      return UnsupportedBackendMix, locked;
    }
    if locked.LockedTo? && locked.kind != found.kind {
      return UnsupportedBackendMix, locked;
    }
    return Success, found;
  }

  lemma UsesNext(files: seq<FileRanges>, classify: string -> Kind, f: nat)
    requires f < |files|
    ensures forall k: Kind :: Uses(files[..f + 1], classify, k) <==>
      (Uses(files[..f], classify, k) || (files[f].ranges != [] && classify(files[f].path) == k))
  {
    var more, less := files[..f + 1], files[..f];
    forall k: Kind ensures Uses(more, classify, k) <==>
      (Uses(less, classify, k) || (files[f].ranges != [] && classify(files[f].path) == k)) {
      if Uses(less, classify, k) {
        var g :| 0 <= g < f && less[g].ranges != [] && classify(less[g].path) == k;
        assert more[g] == less[g];
      }
      assert more[f] == files[f];
      if Uses(more, classify, k) {
        var g :| 0 <= g <= f && more[g].ranges != [] && classify(more[g].path) == k;
        assert g < f ==> less[g] == more[g];
      }
    }
  }
}
