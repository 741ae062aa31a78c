/**
 The artifact store: files that are created whole or not at all, and never
 rewritten once they are there.
 */
module Storage {
  import opened Wrappers
  import opened Numbers
  import opened Delivery

  datatype StorageError = CannotWrite | AlreadyExists | CannotRead | CannotList | TooMany

  /** Where writing a file may fail: before it is in place, or after. */
  datatype DiskFault = Fine | WriteFails | PlaceFails | SyncFails

  /** What the caller of a write can tell, and what is on disk. */
  function Ending(fault: DiskFault): Write {
    match fault
    case Fine => Written
    case SyncFails => Torn
    case _ => NotWritten
  }

  class ArtifactStore {
    var files: map<Key, Blob>

    constructor ()
      ensures files == map[]
    {
      files := map[];
    }

    /** The bytes go to a temporary file first, which is then linked (never over another
        file) or moved into place; the temporary name is gone at the end. */
    method DurableWrite(key: Key, temporary: Key, data: Blob, exclusive: bool, fault: DiskFault)
      returns (r: Result<(), StorageError>)
      requires temporary !in files && temporary != key
      modifies this
      ensures if Ending(fault) == NotWritten || (exclusive && key in old(files)) then files == old(files)
              else files == old(files)[key := data]
      ensures r.Ok? <==> fault == Fine && key in files && files[key] == data
    {
      if fault == WriteFails {
        return Err(CannotWrite);
      }
      files := files[temporary := data];
      if fault == PlaceFails {
        r := Err(CannotWrite);
      } else if exclusive && key in files {
        r := if files[key] != files[temporary] then Err(AlreadyExists)
             else if fault == SyncFails then Err(CannotWrite) else Ok(());
      } else {
        files := files[key := files[temporary]];
        r := if fault == SyncFails then Err(CannotWrite) else Ok(());
      }
      files := files - {temporary};
      assert temporary !in old(files);
    }

    /** Nothing stored before is touched, whatever is written and however it ends; success
        means these very bytes are there. */
    method PutImmutable(key: Key, temporary: Key, data: Blob, fault: DiskFault) returns (r: Result<(), StorageError>)
      requires temporary !in files && temporary != key
      modifies this
      ensures forall k :: k in old(files) ==> k in files && files[k] == old(files)[k]
      ensures r.Ok? <==> fault == Fine && key in files && files[key] == data
      ensures key !in old(files) ==>
                files == if Ending(fault) == NotWritten then old(files) else old(files)[key := data]
      ensures key in old(files) ==> files == old(files)
    {
      r := DurableWrite(key, temporary, data, true, fault);
    }

    method GetBytes(key: Key, readable: bool) returns (r: Result<Blob, StorageError>)
      ensures r == if readable && key in files then Ok(files[key]) else Err(CannotRead)
    {
      r := if readable && key in files then Ok(files[key]) else Err(CannotRead);
    }

    /** The callbacks of one attempt in the order of their names; one too many, met in
        whatever order the directory has, ends the listing. */
    method ListPrefix(jobId: string, token: string, limit: nat, readable: bool)
      returns (r: Result<seq<Artifact>, StorageError>)
      ensures r.Err? <==> !readable || |AttemptKeys(files, jobId, token)| > limit
      ensures r.Ok? ==> Listed(r.value, AttemptKeys(files, jobId, token), jobId)
    {
      if !readable {
        return Err(CannotList);
      }
      var todo := AttemptKeys(files, jobId, token);
      ghost var all := todo;
      var found: set<Key> := {};
      while todo != {}
        invariant todo !! found && todo + found == all && |found| <= limit
        decreases |todo|
      {
        var k :| k in todo;
        todo := todo - {k};
        found := found + {k};
        if |found| > limit {
          SubsetSize(found, all);
          return Err(TooMany);
        }
      }
      assert found == all;
      var names := SortedNames(found, jobId, token);
      r := Ok(names);
    }
  }

  /** The artifacts of these keys, each once, smallest name first. */
  ghost predicate Listed(names: seq<Artifact>, keys: set<Key>, jobId: string) {
    && |names| == |keys|
    && (forall i :: 0 <= i < |names| ==> names[i].Saved? && Key(jobId, names[i]) in keys)
    && (forall i, j :: 0 <= i < j < |names| ==> names[i].leaf < names[j].leaf)
  }

  method SortedNames(keys: set<Key>, jobId: string, token: string) returns (names: seq<Artifact>)
    requires forall k :: k in keys ==> IsAttemptKey(k, jobId, token)
    ensures Listed(names, keys, jobId)
  {
    names := [];
    var rest := keys;
    while rest != {}
      invariant rest <= keys && |names| + |rest| == |keys|
      invariant forall i :: 0 <= i < |names| ==> names[i].Saved? && Key(jobId, names[i]) in keys
      invariant forall i, j :: 0 <= i < j < |names| ==> names[i].leaf < names[j].leaf
      invariant forall i, k :: 0 <= i < |names| && k in rest ==> names[i].leaf < k.artifact.leaf
      decreases |rest|
    {
      FirstExists(rest);
      var k :| k in rest && forall k' :: k' in rest && k'.artifact.Saved? ==> k.artifact.leaf <= k'.artifact.leaf;
      assert forall k' :: k' in rest && k' != k ==> k.artifact.leaf < k'.artifact.leaf by {
        forall k' | k' in rest && k' != k
          ensures k.artifact.leaf < k'.artifact.leaf
        {
          assert IsAttemptKey(k', jobId, token) && IsAttemptKey(k, jobId, token);
          assert k.artifact == Saved(token, k.artifact.leaf) && k'.artifact == Saved(token, k'.artifact.leaf);
        }
      }
      names := names + [k.artifact];
      rest := rest - {k};
    }
  }

  /** The first name listed is the one a lookup takes. */
  lemma ListedFirst(names: seq<Artifact>, keys: set<Key>, jobId: string, token: string)
    requires Listed(names, keys, jobId) && keys != {}
    requires forall k :: k in keys ==> k.artifact.Saved? && IsAttemptKey(k, jobId, token)
    ensures names != [] && First(keys).artifact == names[0]
  {
    var k := First(keys);
    assert k.artifact.leaf <= names[0].leaf by {
      assert Key(jobId, names[0]) in keys;
    }
    NamesCover(names, keys, jobId, |names|);
    assert k in Covered(names, jobId, |names|);
    var i :| 0 <= i < |names| && Key(jobId, names[i]) == k;
    assert i == 0;
  }

  ghost function Covered(names: seq<Artifact>, jobId: string, n: nat): set<Key>
    requires n <= |names|
  {
    set i: nat | i < n :: Key(jobId, names[i])
  }

  /** As many names as keys, all different: every key is listed. */
  lemma {:induction false} NamesCover(names: seq<Artifact>, keys: set<Key>, jobId: string, n: nat)
    requires Listed(names, keys, jobId) && n <= |names|
    ensures Covered(names, jobId, n) <= keys && |Covered(names, jobId, n)| == n
    ensures n == |names| ==> Covered(names, jobId, n) == keys
    decreases n
  {
    if n == 0 {
      assert Covered(names, jobId, 0) == {};
    } else {
      NamesCover(names, keys, jobId, n - 1);
      var k := Key(jobId, names[n - 1]);
      assert Covered(names, jobId, n) == Covered(names, jobId, n - 1) + {k};
      assert k !in Covered(names, jobId, n - 1);
    }
    if n == |names| {
      SameSetSize(Covered(names, jobId, n), keys);
    }
  }
}
