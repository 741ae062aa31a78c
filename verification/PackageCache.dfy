/**
 The worker's package cache: entries age out, and the oldest leave when the rest
 outgrow the bound.
 */
module PackageCache {
  import opened Wrappers
  import FileNames

  datatype Stamp = Stamp(mtime: real, size: nat)

  type Files = map<string, Stamp>

  /** The digest of a URI is taken to be injective: the URI stands for it. */
  function PathFor(uri: string): string { uri + ".pkg" }

  predicate Expired(st: Stamp, now: real, ttl: real) { now - st.mtime > ttl }

  /** `now or time.time()`: an absent clock reading, or zero, means the real one. */
  function Clock(given: Option<real>, actual: real): real {
    if given.Some? && given.value != 0.0 then given.value else actual
  }

  // ---- the order of eviction --------------------------------------------

  /** Oldest first, then smallest, then by name. */
  predicate Older(files: Files, a: string, b: string)
    requires a in files && b in files
  {
    var x, y := files[a], files[b];
    x.mtime < y.mtime || (x.mtime == y.mtime && (x.size < y.size || (x.size == y.size && FileNames.Before(a, b))))
  }

  lemma OlderTotal(files: Files, a: string, b: string)
    requires a in files && b in files
    ensures Older(files, a, b) || Older(files, b, a) || a == b
    ensures !(Older(files, a, b) && Older(files, b, a)) && !Older(files, a, a)
  {
    FileNames.BeforeTotal(a, b);
    FileNames.BeforeTotal(a, a);
  }

  lemma OlderTransitive(files: Files, a: string, b: string, c: string)
    requires a in files && b in files && c in files && Older(files, a, b) && Older(files, b, c)
    ensures Older(files, a, c)
  {
    if FileNames.Before(a, b) && FileNames.Before(b, c) {
      FileNames.BeforeTransitive(a, b, c);
    }
  }

  predicate IsOldest(files: Files, n: string, names: set<string>)
    requires names <= files.Keys
  {
    n in names && forall m :: m in names && m != n ==> Older(files, n, m)
  }

  lemma {:induction false} OldestExists(files: Files, names: set<string>)
    requires names <= files.Keys && names != {}
    ensures exists n :: IsOldest(files, n, names)
    decreases |names|
  {
    var x :| x in names;
    var rest := names - {x};
    assert names == rest + {x};
    if rest == {} {
      assert IsOldest(files, x, names);
    } else {
      OldestExists(files, rest);
      var n :| IsOldest(files, n, rest);
      OlderTotal(files, x, n);
      if Older(files, x, n) {
        forall m | m in names && m != x
          ensures Older(files, x, m)
        {
          if m != n { OlderTransitive(files, x, n, m); }
        }
        assert IsOldest(files, x, names);
      } else {
        forall m | m in names && m != n
          ensures Older(files, n, m)
        {
          if m != x { assert m in rest; }
        }
        assert IsOldest(files, n, names);
      }
    }
  }

  /** The next entry in the order of eviction. */
  method Oldest(files: Files, names: set<string>) returns (n: string)
    requires names <= files.Keys && names != {}
    ensures n in names && IsOldest(files, n, names)
  {
    OldestExists(files, names);
    n :| n in names && IsOldest(files, n, names);
  }

  // ---- sizes ------------------------------------------------------------

  ghost function Pick(names: set<string>): (n: string)
    requires names != {}
    ensures n in names
  {
    var n :| n in names;
    n
  }

  ghost function Total(files: Files, names: set<string>): nat
    requires names <= files.Keys
    decreases |names|
  {
    if names == {} then 0
    else
      var n := Pick(names);
      files[n].size + Total(files, names - {n})
  }

  lemma {:induction false} TotalMinus(files: Files, names: set<string>, x: string)
    requires names <= files.Keys && x in names
    ensures Total(files, names) == files[x].size + Total(files, names - {x})
    decreases |names|
  {
    var n := Pick(names);
    if n != x {
      TotalMinus(files, names - {n}, x);
      TotalMinus(files, names - {x}, n);
      assert names - {n} - {x} == names - {x} - {n};
    }
  }

  // ---- what an eviction is ----------------------------------------------

  function Outdated(files: Files, now: real, ttl: real, stuck: set<string>): set<string> {
    set n | n in files && Expired(files[n], now, ttl) && n !in stuck
  }

  /** What was there when x was about to go: what stayed, and whatever went from x on. */
  ghost function Facing(files: Files, gone: set<string>, keep: Option<string>, x: string): (facing: set<string>)
    requires x in files
    ensures facing <= files.Keys
  {
    set y | y in files && (y !in gone || (keep != Some(y) && !Older(files, y, x)))
  }

  /** Who leaves: the kept entry exactly if it could not fit alone, and of the others the
      shortest run of the oldest that brings the rest within the bound. */
  ghost predicate Victims(files: Files, gone: set<string>, keep: Option<string>, maxBytes: int) {
    && gone <= files.Keys
    && (maxBytes <= 0 ==> gone == {})
    && (maxBytes > 0 ==>
          && (forall k :: keep == Some(k) && k in files ==> (k in gone <==> files[k].size > maxBytes))
          && (forall x, y :: x in gone && y in files && y !in gone && keep != Some(x) && keep != Some(y) ==>
                Older(files, x, y))
          && Total(files, files.Keys - gone) <= maxBytes
          && (forall x :: x in gone && keep != Some(x) ==> Total(files, Facing(files, gone, keep, x)) > maxBytes))
  }

  /** Part of the way: everything before `rest` has been dealt with. */
  ghost predicate Progress(files: Files, gone: set<string>, keep: Option<string>, maxBytes: int, rest: set<string>) {
    && gone <= files.Keys && rest <= files.Keys
    && (forall k :: keep == Some(k) && k in files ==> (k in gone <==> files[k].size > maxBytes))
    && (forall x, y :: x in files && x !in rest && y in rest ==> Older(files, x, y))
    && (forall x :: x in files && keep != Some(x) ==> (x in gone <==> x !in rest))
    && (forall x :: x in gone && keep != Some(x) ==> Total(files, Facing(files, gone, keep, x)) > maxBytes)
  }

  lemma ProgressStarts(files: Files, gone: set<string>, keep: Option<string>, maxBytes: int)
    requires gone == set k | k in files && keep == Some(k) && files[k].size > maxBytes
    ensures Progress(files, gone, keep, maxBytes, files.Keys)
  {
  }

  /** x faces everything that is still there. */
  lemma FacingNow(files: Files, gone: set<string>, keep: Option<string>, x: string)
    requires x in files && gone <= files.Keys && keep != Some(x)
    requires forall y :: y in gone && keep != Some(y) ==> Older(files, y, x)
    ensures Facing(files, gone + {x}, keep, x) == files.Keys - gone
  {
    var facing := Facing(files, gone + {x}, keep, x);
    forall y | y in files
      ensures y in facing <==> y !in gone
    {
      OlderTotal(files, x, y);
    }
  }

  /** Whoever goes later was still there for z. */
  lemma FacingThen(files: Files, gone: set<string>, keep: Option<string>, x: string, z: string)
    requires x in files && z in gone && gone <= files.Keys && x !in gone && keep != Some(x) && Older(files, z, x)
    ensures Facing(files, gone + {x}, keep, z) == Facing(files, gone, keep, z)
  {
    OlderTotal(files, x, z);
  }

  lemma ProgressGoesOn(files: Files, gone: set<string>, keep: Option<string>, maxBytes: int, rest: set<string>, x: string)
    requires Progress(files, gone, keep, maxBytes, rest) && IsOldest(files, x, rest)
    requires Total(files, files.Keys - gone) > maxBytes
    ensures keep != Some(x) ==> x !in gone
    ensures Progress(files, gone + (if keep == Some(x) then {} else {x}), keep, maxBytes, rest - {x})
  {
    hide Facing, Older, Total;
    if keep == Some(x) {
      assert gone + {} == gone;
    } else {
      var gone' := gone + {x};
      forall z | z in gone' && keep != Some(z)
        ensures Total(files, Facing(files, gone', keep, z)) > maxBytes
      {
        if z == x {
          FacingNow(files, gone, keep, x);
        } else {
          FacingThen(files, gone, keep, x, z);
        }
      }
    }
  }

  /** Taking one more entry out of what is left. */
  lemma OneMoreGone(entries: Files, gone: set<string>, stuck: set<string>, x: string)
    requires gone <= entries.Keys && x in entries && x !in gone
    ensures var refused := Refused(x, stuck);
            (entries - (gone - stuck)) - refused == entries - ((gone + {x}) - stuck)
            && |(gone + {x}) - stuck| == |gone - stuck| + |refused|
            && Total(entries, entries.Keys - gone) == entries[x].size + Total(entries, entries.Keys - (gone + {x}))
            && (x !in stuck ==> x in entries - (gone - stuck))
  {
    TotalMinus(entries, entries.Keys - gone, x);
    assert entries.Keys - gone - {x} == entries.Keys - (gone + {x});
    if x in stuck {
      assert (gone + {x}) - stuck == gone - stuck;
    } else {
      assert (gone + {x}) - stuck == (gone - stuck) + {x};
    }
  }

  lemma ProgressEnds(files: Files, gone: set<string>, keep: Option<string>, maxBytes: int, rest: set<string>)
    requires Progress(files, gone, keep, maxBytes, rest) && maxBytes > 0
    requires rest == {} || Total(files, files.Keys - gone) <= maxBytes
    ensures Victims(files, gone, keep, maxBytes)
  {
    if rest == {} {
      var left := files.Keys - gone;
      if left != {} {
        var k := Pick(left);
        assert keep == Some(k);
        assert left == {k};
        TotalMinus(files, left, k);
        assert left - {k} == {};
      }
    }
  }

  /** Where the loop stands: the entries chosen so far, the size it reckons is left, the
      files that are there, and how many it deleted. */
  ghost predicate Reached(entries: Files, files: Files, gone: set<string>, keep: Option<string>, maxBytes: int,
                          stuck: set<string>, rest: set<string>, total: int, deleted: int)
  {
    && gone <= entries.Keys && Progress(entries, gone, keep, maxBytes, rest)
    && total == Total(entries, entries.Keys - gone)
    && files == entries - (gone - stuck) && deleted == |gone - stuck|
  }

  function Refused(x: string, stuck: set<string>): set<string> { if x in stuck then {} else {x} }

  lemma ReachedStart(entries: Files, keep: Option<string>, maxBytes: int, stuck: set<string>)
    ensures if keep.Some? && keep.value in entries && entries[keep.value].size > maxBytes then
              Reached(entries, entries - Refused(keep.value, stuck), {keep.value}, keep, maxBytes, stuck, entries.Keys,
                      Total(entries, entries.Keys) - entries[keep.value].size, |Refused(keep.value, stuck)|)
            else Reached(entries, entries, {}, keep, maxBytes, stuck, entries.Keys, Total(entries, entries.Keys), 0)
  {
    var big := set k | k in entries && keep == Some(k) && entries[k].size > maxBytes;
    ProgressStarts(entries, big, keep, maxBytes);
    assert entries.Keys - {} == entries.Keys;
    assert {} - stuck == {} && entries - {} == entries;
    if keep.Some? && keep.value in entries && entries[keep.value].size > maxBytes {
      assert big == {keep.value} == {} + {keep.value};
      OneMoreGone(entries, {}, stuck, keep.value);
    } else {
      assert big == {};
    }
  }

  lemma ReachedNext(entries: Files, files: Files, gone: set<string>, keep: Option<string>, maxBytes: int,
                    stuck: set<string>, rest: set<string>, total: int, deleted: int, x: string)
    requires Reached(entries, files, gone, keep, maxBytes, stuck, rest, total, deleted)
    requires rest <= entries.Keys && IsOldest(entries, x, rest) && total > maxBytes
    ensures keep == Some(x) ==>
              Reached(entries, files, gone, keep, maxBytes, stuck, rest - {x}, total, deleted)
    ensures keep != Some(x) ==>
              Reached(entries, files - Refused(x, stuck), gone + {x}, keep, maxBytes, stuck, rest - {x},
                      total - entries[x].size, deleted + |Refused(x, stuck)|)
              && (x !in stuck ==> x in files)
  {
    hide Total, Older, Facing;
    ProgressGoesOn(entries, gone, keep, maxBytes, rest, x);
    if keep == Some(x) {
      assert gone + {} == gone;
    } else {
      OneMoreGone(entries, gone, stuck, x);
    }
  }

  /** Who leaves is no younger than who stays: older, or of the same time and smaller, or of the
      same time and size and first by name.  Only the entry just stored is outside this order. */
  lemma OldestLeaveFirst(files: Files, gone: set<string>, keep: Option<string>, maxBytes: int, x: string, y: string)
    requires Victims(files, gone, keep, maxBytes) && x in gone && y in files && y !in gone
    requires keep != Some(x) && keep != Some(y)
    ensures files[x].mtime <= files[y].mtime
    ensures files[x].mtime == files[y].mtime ==> files[x].size <= files[y].size
    ensures files[x].mtime == files[y].mtime && files[x].size == files[y].size ==> FileNames.Before(x, y)
  {
  }

  lemma FacedByTheLast(files: Files, gone: set<string>, keep: Option<string>, x: string)
    requires x in gone && gone <= files.Keys && keep != Some(x)
    requires forall y :: y in gone && y != x && keep != Some(y) ==>
               files[y].mtime < files[x].mtime || (files[y].mtime == files[x].mtime && files[y].size < files[x].size)
    ensures Facing(files, gone, keep, x) == files.Keys - gone + {x}
  {
    OlderTotal(files, x, x);
  }

  /** And nobody leaves without need: with the last of them still there, it would be too much. */
  lemma NobodyLeavesInVain(files: Files, gone: set<string>, keep: Option<string>, maxBytes: int, x: string)
    requires Victims(files, gone, keep, maxBytes) && x in gone && keep != Some(x)
    requires forall y :: y in gone && y != x && keep != Some(y) ==>
               files[y].mtime < files[x].mtime || (files[y].mtime == files[x].mtime && files[y].size < files[x].size)
    ensures Total(files, files.Keys - gone) + files[x].size > maxBytes
  {
    var left := files.Keys - gone;
    FacedByTheLast(files, gone, keep, x);
    hide Facing, Older, Total;
    TotalMinus(files, left + {x}, x);
    assert left + {x} - {x} == left;
  }

  // ---- the cache --------------------------------------------------------

  class Cache {
    const ttl: real
    const maxBytes: int
    var files: Files
    var evictions: nat

    constructor (ttl: real, maxBytes: int)
      ensures this.ttl == ttl && this.maxBytes == maxBytes && files == map[] && evictions == 0
    {
      this.ttl := ttl;
      this.maxBytes := maxBytes;
      files := map[];
      evictions := 0;
    }

    /** The cached file of a URI, if it is there and has not expired. */
    method Fresh(uri: string, given: Option<real>, actual: real) returns (path: Option<string>)
      ensures path == Some(PathFor(uri)) || path == None
      ensures path.Some? <==> PathFor(uri) in files && !Expired(files[PathFor(uri)], Clock(given, actual), ttl)
      ensures path.Some? ==>
                files[PathFor(uri)].mtime + ttl >= if given in {None, Some(0.0)} then actual else given.value
      ensures path.None? && PathFor(uri) in files ==>
                files[PathFor(uri)].mtime + ttl < if given in {None, Some(0.0)} then actual else given.value
    {
      var name := PathFor(uri);
      if name !in files {
        return None;
      }
      var age := Clock(given, actual) - files[name].mtime;
      path := if age > ttl then None else Some(name);
    }

    /** A file is removed, unless the system refuses. */
    method Unlink(name: string, stuck: set<string>) returns (removed: nat)
      requires name !in stuck ==> name in files
      modifies this`files
      ensures files == old(files) - Refused(name, stuck) && removed == |Refused(name, stuck)|
    {
      if name in stuck {
        removed := 0;
      } else {
        files := files - {name};
        removed := 1;
      }
    }

    /** Everything expired goes. */
    method Prune(now: real, stuck: set<string>) returns (removed: nat)
      modifies this`files
      ensures files == old(files) - Outdated(old(files), now, ttl, stuck)
      ensures removed == |Outdated(old(files), now, ttl, stuck)|
      ensures forall n :: n in files <==> n in old(files) && (old(files)[n].mtime + ttl >= now || n in stuck)
    {
      removed := 0;
      var todo := files.Keys;
      ghost var gone: set<string> := {};
      while todo != {}
        invariant todo <= old(files).Keys && files == old(files) - gone && removed == |gone| && gone !! todo
        invariant gone == (set n | n in old(files) && n !in todo && Expired(old(files)[n], now, ttl) && n !in stuck)
        decreases |todo|
      {
        var n :| n in todo;
        todo := todo - {n};
        if Expired(files[n], now, ttl) && n !in stuck {
          files := files - {n};
          removed := removed + 1;
          gone := gone + {n};
        }
      }
      assert gone == Outdated(old(files), now, ttl, stuck);
    }

    method TotalSize() returns (total: nat)
      ensures total == Total(files, files.Keys)
    {
      total := 0;
      var todo := files.Keys;
      while todo != {}
        invariant todo <= files.Keys && total + Total(files, todo) == Total(files, files.Keys)
        decreases |todo|
      {
        var n :| n in todo;
        TotalMinus(files, todo, n);
        total := total + files[n].size;
        todo := todo - {n};
      }
    }

    /** The oldest entries go until what is left is under the bound.  `stuck` are the
        entries the system refuses to delete; `gone` are those chosen to leave. */
    method Trim(keep: Option<string>, stuck: set<string>) returns (deleted: nat, ghost gone: set<string>)
      modifies this`files
      ensures Victims(old(files), gone, keep, maxBytes)
      ensures files == old(files) - (gone - stuck) && deleted == |gone - stuck|
    {
      hide *;
      deleted := 0;
      gone := {};
      if maxBytes <= 0 {
        NobodyLeaves(files, keep, maxBytes, stuck);
        return;
      }
      var entries := files;
      var total: int := TotalSize();
      ReachedStart(entries, keep, maxBytes, stuck);
      if keep.Some? && keep.value in entries && entries[keep.value].size > maxBytes {
        deleted := Unlink(keep.value, stuck);
        total := total - entries[keep.value].size;
        gone := {keep.value};
      }
      var rest := entries.Keys;
      while rest != {} && total > maxBytes
        invariant rest <= entries.Keys
        invariant Reached(entries, files, gone, keep, maxBytes, stuck, rest, total, deleted)
        decreases |rest|
      {
        var x := Oldest(entries, rest);
        ReachedNext(entries, files, gone, keep, maxBytes, stuck, rest, total, deleted, x);
        rest := rest - {x};
        if keep != Some(x) {
          var n := Unlink(x, stuck);
          deleted := deleted + n;
          total := total - entries[x].size;
          gone := gone + {x};
        }
      }
      ReachedEnd(entries, files, gone, keep, maxBytes, stuck, rest, total, deleted);
    }

    /** Drop expired entries, then the oldest until under the bound. */
    method Evict(keep: Option<string>, now: real, stuck: set<string>) returns (removed: nat, ghost gone: set<string>)
      modifies this`files, this`evictions
      ensures var left := old(files) - Outdated(old(files), now, ttl, stuck);
              Victims(left, gone, keep, maxBytes) && files == left - (gone - stuck)
              && removed == |Outdated(old(files), now, ttl, stuck)| + |gone - stuck|
      ensures evictions == old(evictions) + removed
    {
      hide *;
      removed := Prune(now, stuck);
      var deleted;
      deleted, gone := Trim(keep, stuck);
      removed := removed + deleted;
      evictions := evictions + removed;
    }

    /** A freshly fetched package is copied in and the cache evicted around it.  A cache
        that cannot write, or has no room for it, hands back the source. */
    method Store(uri: string, source: Stamp, writable: bool, now: real, stuck: set<string>)
      returns (cached: bool, ghost gone: set<string>)
      modifies this`files, this`evictions
      ensures !writable ==> !cached && files == old(files) && evictions == old(evictions)
      ensures writable ==>
                var held := old(files)[PathFor(uri) := source];
                var left := held - Outdated(held, now, ttl, stuck);
                Victims(left, gone, Some(PathFor(uri)), maxBytes) && files == left - (gone - stuck)
                && (cached <==> PathFor(uri) in files)
      ensures writable && maxBytes > 0 && stuck == {} ==>
                (cached <==> !Expired(source, now, ttl) && source.size <= maxBytes)
    {
      if !writable {
        return false, {};
      }
      files := files[PathFor(uri) := source];
      var removed;
      removed, gone := Evict(Some(PathFor(uri)), now, stuck);
      cached := PathFor(uri) in files;
    }
  }

  lemma ReachedEnd(entries: Files, files: Files, gone: set<string>, keep: Option<string>, maxBytes: int,
                   stuck: set<string>, rest: set<string>, total: int, deleted: int)
    requires Reached(entries, files, gone, keep, maxBytes, stuck, rest, total, deleted) && maxBytes > 0
    requires rest == {} || total <= maxBytes
    ensures Victims(entries, gone, keep, maxBytes) && files == entries - (gone - stuck) && deleted == |gone - stuck|
  {
    ProgressEnds(entries, gone, keep, maxBytes, rest);
  }

  lemma NobodyLeaves(files: Files, keep: Option<string>, maxBytes: int, stuck: set<string>)
    requires maxBytes <= 0
    ensures Victims(files, {}, keep, maxBytes) && files == files - ({} - stuck) && |{} - stuck| == 0
  {
    assert {} - stuck == {};
  }

  // ---- what that means --------------------------------------------------

  lemma {:induction false} SameTotal(files: Files, other: Files, names: set<string>)
    requires names <= files.Keys && names <= other.Keys && forall n :: n in names ==> files[n] == other[n]
    ensures Total(files, names) == Total(other, names)
    decreases |names|
  {
    if names != {} {
      SameTotal(files, other, names - {Pick(names)});
    }
  }

  /** An entry too big for the cache pushes nobody out: the others leave exactly as they
      would have without it. */
  lemma OversizedPushesNobody(files: Files, gone: set<string>, k: string, maxBytes: int)
    requires k in files && files[k].size > maxBytes > 0 && Victims(files, gone, Some(k), maxBytes)
    ensures k in gone && Victims(files - {k}, gone - {k}, None, maxBytes)
  {
    hide Total;
    var others, rest := files - {k}, gone - {k};
    assert files.Keys - gone == others.Keys - rest;
    SameTotal(files, others, files.Keys - gone);
    forall x, y | x in rest && y in others && y !in rest
      ensures Older(others, x, y)
    {
      assert Older(files, x, y);
    }
    forall x | x in rest
      ensures Total(others, Facing(others, rest, None, x)) > maxBytes
    {
      SameFacing(files, gone, k, x);
      SameTotal(files, others, Facing(files, gone, Some(k), x));
    }
  }

  lemma SameFacing(files: Files, gone: set<string>, k: string, x: string)
    requires k in files && k in gone && x in files && x != k
    ensures Facing(files, gone, Some(k), x) == Facing(files - {k}, gone - {k}, None, x)
  {
    forall y | y in files && y != k
      ensures Older(files, y, x) == Older(files - {k}, y, x)
    {
    }
  }

  /** There is only one choice: the bound, the order and keeping what fits decide it. */
  lemma VictimsAreUnique(files: Files, gone: set<string>, other: set<string>, keep: Option<string>, maxBytes: int)
    requires Victims(files, gone, keep, maxBytes) && Victims(files, other, keep, maxBytes)
    ensures gone == other
  {
    if maxBytes > 0 {
      NoMoreThan(files, gone, other, keep, maxBytes);
      NoMoreThan(files, other, gone, keep, maxBytes);
    }
  }

  lemma NoMoreThan(files: Files, gone: set<string>, other: set<string>, keep: Option<string>, maxBytes: int)
    requires maxBytes > 0 && Victims(files, gone, keep, maxBytes) && Victims(files, other, keep, maxBytes)
    ensures gone <= other
  {
    hide Total, Older;
    forall x | x in gone
      ensures x in other
    {
      if x !in other {
        assert keep != Some(x);
        forall y | y in Facing(files, gone, keep, x)
          ensures y !in other
        {
          StaysToo(files, gone, other, keep, maxBytes, x, y);
        }
        SmallerTotal(files, Facing(files, gone, keep, x), files.Keys - other);
        assert false;
      }
    }
  }

  /** Whoever faces x in one choice is left by the other, if the other leaves x. */
  lemma StaysToo(files: Files, gone: set<string>, other: set<string>, keep: Option<string>, maxBytes: int, x: string,
                 y: string)
    requires maxBytes > 0 && Victims(files, gone, keep, maxBytes) && Victims(files, other, keep, maxBytes)
    requires x in gone && x !in other && y in Facing(files, gone, keep, x)
    ensures y !in other
  {
    hide Total, Older;
    OlderTotal(files, x, y);
  }

  lemma {:induction false} SmallerTotal(files: Files, names: set<string>, more: set<string>)
    requires names <= more <= files.Keys
    ensures Total(files, names) <= Total(files, more)
    decreases |more - names|
  {
    if more - names == {} {
      assert names == more;
    } else {
      var n := Pick(more - names);
      TotalMinus(files, more, n);
      assert (more - {n}) - names == (more - names) - {n};
      SmallerTotal(files, names, more - {n});
    }
  }
}
