/**
 The filesystem spool: three directories of files, moved by renames.

 `files` is the spool as it stands on disk.  The ghost fields say what it means:
 message i was published under the stem `origins[i]`, and `msgs[i]` is its state
 in the lease queue.  Every operation is proved to move the files exactly as the
 lease queue moves that one message.
 */
module LocalQueue {
  import opened Wrappers
  import opened FileNames
  import opened LeaseQueue

  datatype File<+B> = File(body: Option<B>, mtime: real)

  datatype Path = Path(dir: Place, name: string)

  /** A lease as the worker holds it: the receipt is the in-flight file's name. */
  datatype Handle<+B> = Handle(job: B, receipt: string, attempt: nat)

  /** `Undecodable` is no queue error in the code: the file is not text, and the decoding
      error escapes from the claim. */
  datatype QueueError = InvalidTarget | CannotPublish | CannotComplete | CannotRelease | CannotClaim | Undecodable

  /** What may go wrong with one candidate of a claim. */
  datatype Fault = NoFault | LostRace | ReadFails | DecodeFails | QuarantineFails | CountFails | TouchFails

  function FaultOf(faults: map<string, Fault>, name: string): Fault {
    if name in faults then faults[name] else NoFault
  }

  /** What the reclaim at the start of a claim makes of a message. */
  function Swept<B>(m: Msg<B>, now: real, visibility: real, unmovable: bool): Msg<B> {
    if Expired(m, now, visibility) && !unmovable then Reclaimed(m) else m
  }

  /** The claim loop quarantines this candidate, or tries to. */
  predicate Parks<B>(m: Msg<B>, now: real, cap: nat, fault: Fault) {
    Offered(m, now) && fault != LostRace && fault != DecodeFails && (Poisoned(m, cap) || fault == ReadFails)
  }

  /** The claim loop goes past this candidate. */
  predicate Passes<B>(m: Msg<B>, now: real, cap: nat, fault: Fault) {
    !Offered(m, now) || fault == LostRace || (Parks(m, now, cap, fault) && fault != QuarantineFails)
  }

  function Passed<B>(m: Msg<B>, now: real, cap: nat, fault: Fault): Msg<B> {
    if Parks(m, now, cap, fault) then Quarantined(m) else m
  }

  /** What is left of the candidate the claim loop stops at. */
  function Stopped<B>(m: Msg<B>, now: real, cap: nat, fault: Fault): Msg<B> {
    if Parks(m, now, cap, fault) || fault == DecodeFails || fault == CountFails then Stuck(m, false)
    else if fault == TouchFails then Stuck(m, true)
    else Leased(m, now)
  }

  /** The error the claim loop stops with at this candidate, if it stops with one. */
  function Failure<B>(m: Msg<B>, now: real, cap: nat, fault: Fault): Option<QueueError> {
    if fault == DecodeFails then Some(Undecodable)
    else if Parks(m, now, cap, fault) || fault == CountFails || fault == TouchFails then Some(CannotClaim)
    else None
  }

  /** What the files stand for: message i, published under the stem `origins[i]`,
      is the file called `names[i]`; `owner` finds a message by its file's name. */
  datatype View<+B> = View(msgs: seq<Msg<B>>, origins: seq<string>, names: seq<string>, owner: map<string, nat>)

  ghost predicate Indexed<B>(v: View<B>) {
    && |v.names| == |v.msgs| == |v.origins|
    && (forall i :: 0 <= i < |v.names| ==> v.names[i] in v.owner && v.owner[v.names[i]] == i)
    && (forall n :: n in v.owner ==> v.owner[n] < |v.names| && v.names[v.owner[n]] == n)
  }

  /** The name of a message carries its count and its due time. */
  ghost predicate Label(origin: string, name: string, attempts: nat, due: Option<nat>) {
    Plain(origin) && name == NameOf(origin, attempts) && due == DueOf(name)
  }

  ghost predicate LabelAt<B>(v: View<B>, i: nat)
    requires i < |v.names| && i < |v.msgs| && i < |v.origins|
  {
    Label(v.origins[i], v.names[i], v.msgs[i].attempts, v.msgs[i].due)
  }

  /** Every message is labelled, and no two were published under one stem. */
  ghost predicate Labelled<B>(v: View<B>)
    requires |v.names| == |v.msgs| == |v.origins|
  {
    && (forall i :: 0 <= i < |v.names| ==> LabelAt(v, i))
    && (forall i, j :: 0 <= i < j < |v.origins| ==> v.origins[i] != v.origins[j])
  }

  /** Every message that is not done is a file, in its directory and with its content. */
  ghost predicate Present<B>(files: map<Path, File<B>>, v: View<B>)
    requires |v.names| == |v.msgs|
  {
    forall i :: 0 <= i < |v.msgs| && v.msgs[i].place != Done ==>
      var p := Path(v.msgs[i].place, v.names[i]);
      p in files && files[p] == File(v.msgs[i].body, v.msgs[i].stamp)
  }

  /** Every file is such a message. */
  ghost predicate Accounted<B>(files: map<Path, File<B>>, v: View<B>)
    requires Indexed(v)
  {
    forall p :: p in files ==> p.name in v.owner && p.dir != Done && v.msgs[v.owner[p.name]].place == p.dir
  }

  /** The files are exactly the messages that are not done. */
  ghost predicate Means<B>(files: map<Path, File<B>>, v: View<B>) {
    Indexed(v) && Present(files, v) && Accounted(files, v)
  }

  ghost function Put<B>(v: View<B>, i: nat, m: Msg<B>): View<B>
    requires i < |v.msgs|
  {
    v.(msgs := v.msgs[i := m])
  }

  ghost function Rename<B>(v: View<B>, i: nat, m: Msg<B>, name: string): View<B>
    requires i < |v.msgs| && i < |v.names|
  {
    v.(msgs := v.msgs[i := m], names := v.names[i := name], owner := (v.owner - {v.names[i]})[name := i])
  }

  lemma RenameIndexed<B>(v: View<B>, i: nat, m: Msg<B>, name: string)
    requires Indexed(v) && i < |v.msgs| && (name == v.names[i] || name !in v.owner)
    ensures Indexed(Rename(v, i, m, name))
    ensures forall j :: 0 <= j < |v.names| && j != i ==> v.names[j] != v.names[i] && v.names[j] != name
    ensures forall n :: n in v.owner && n != v.names[i] ==>
              n != name && n in Rename(v, i, m, name).owner && Rename(v, i, m, name).owner[n] == v.owner[n] != i
  {
  }

  lemma RenamePresent<B>(files: map<Path, File<B>>, v: View<B>, i: nat, m: Msg<B>, name: string)
    requires Means(files, v) && i < |v.msgs| && v.msgs[i].place != Done && m.place != Done
    requires name == v.names[i] || name !in v.owner
    ensures var src := Path(v.msgs[i].place, v.names[i]);
            Present((files - {src})[Path(m.place, name) := File(m.body, m.stamp)], Rename(v, i, m, name))
  {
    RenameIndexed(v, i, m, name);
  }

  lemma RenameAccounted<B>(files: map<Path, File<B>>, v: View<B>, i: nat, m: Msg<B>, name: string)
    requires Means(files, v) && i < |v.msgs| && v.msgs[i].place != Done && m.place != Done
    requires name == v.names[i] || name !in v.owner
    ensures Indexed(Rename(v, i, m, name))
    ensures var src := Path(v.msgs[i].place, v.names[i]);
            Accounted((files - {src})[Path(m.place, name) := File(m.body, m.stamp)], Rename(v, i, m, name))
  {
    RenameIndexed(v, i, m, name);
    var src, dst := Path(v.msgs[i].place, v.names[i]), Path(m.place, name);
    var v' := Rename(v, i, m, name);
    forall p | p in (files - {src})[dst := File(m.body, m.stamp)] && p != dst
      ensures p.name in v'.owner && p.dir != Done && v'.msgs[v'.owner[p.name]].place == p.dir
    {
      assert p in files && p != src;
      assert p.name != v.names[i];
    }
  }

  /** Moving, counting or touching one file moves one message. */
  lemma RenameMeans<B>(files: map<Path, File<B>>, v: View<B>, i: nat, m: Msg<B>, name: string)
    requires Means(files, v) && i < |v.msgs| && v.msgs[i].place != Done && m.place != Done
    requires name == v.names[i] || name !in v.owner
    ensures var src := Path(v.msgs[i].place, v.names[i]);
            Means((files - {src})[Path(m.place, name) := File(m.body, m.stamp)], Rename(v, i, m, name))
  {
    RenamePresent(files, v, i, m, name);
    RenameAccounted(files, v, i, m, name);
  }

  /** Keeping the name is a plain change of state. */
  lemma RenameToItself<B>(v: View<B>, i: nat, m: Msg<B>)
    requires Indexed(v) && i < |v.msgs|
    ensures Rename(v, i, m, v.names[i]) == Put(v, i, m)
  {
    assert v.names[i := v.names[i]] == v.names;
    assert (v.owner - {v.names[i]})[v.names[i] := i] == v.owner;
  }

  /** Each stem keeps its names to itself. */
  lemma NamesApart<B>(v: View<B>, i: nat, j: nat, k: nat)
    requires |v.names| == |v.msgs| == |v.origins| && Labelled(v) && i < |v.msgs| && j < |v.msgs|
    requires v.names[j] == NameOf(v.origins[i], k)
    ensures i == j && v.msgs[j].attempts == k
  {
    hide NameOf, DueOf, Plain, AttemptsOf, WithAttempts;
    assert LabelAt(v, i) && LabelAt(v, j);
    NameOfLaws(v.origins[i], k);
    NameOfLaws(v.origins[j], v.msgs[j].attempts);
  }

  /** Where a name of message i is found, if anywhere. */
  lemma NameFinds<B>(files: map<Path, File<B>>, v: View<B>, dir: Place, i: nat, k: nat)
    requires Means(files, v) && Labelled(v) && i < |v.msgs| && dir != Done
    ensures var p := Path(dir, NameOf(v.origins[i], k));
            (p in files <==> v.msgs[i].place == dir && v.msgs[i].attempts == k)
            && (p.name in v.owner ==> p.name == v.names[i])
  {
    hide NameOf, DueOf, Plain, AttemptsOf, WithAttempts;
    var n := NameOf(v.origins[i], k);
    assert LabelAt(v, i);
    if n in v.owner {
      NamesApart(v, i, v.owner[n], k);
    }
  }

  lemma SameLabel<B>(v: View<B>, w: View<B>, j: nat)
    requires j < |v.names| && j < |v.msgs| && j < |v.origins| && j < |w.names| && j < |w.msgs| && j < |w.origins|
    requires v.names[j] == w.names[j] && v.origins[j] == w.origins[j]
    requires v.msgs[j].attempts == w.msgs[j].attempts && v.msgs[j].due == w.msgs[j].due
    ensures LabelAt(v, j) == LabelAt(w, j)
  {
    hide NameOf, DueOf, Plain, AttemptsOf, WithAttempts;
  }

  lemma RelabelKeeps<B>(v: View<B>, i: nat, m: Msg<B>)
    requires |v.names| == |v.msgs| == |v.origins| && Labelled(v) && i < |v.msgs| && m.due == v.msgs[i].due
    ensures Labelled(Rename(v, i, m, NameOf(v.origins[i], m.attempts)))
  {
    hide NameOf, DueOf, Plain, AttemptsOf, WithAttempts;
    var v' := Rename(v, i, m, NameOf(v.origins[i], m.attempts));
    assert LabelAt(v, i);
    NameOfLaws(v.origins[i], m.attempts);
    NameOfLaws(v.origins[i], v.msgs[i].attempts);
    forall j | 0 <= j < |v'.names|
      ensures LabelAt(v', j)
    {
      if j != i { SameLabel(v, v', j); }
    }
  }

  lemma PutKeeps<B>(v: View<B>, i: nat, m: Msg<B>)
    requires |v.names| == |v.msgs| == |v.origins| && Labelled(v) && i < |v.msgs|
    requires m.due == v.msgs[i].due && m.attempts == v.msgs[i].attempts
    ensures Labelled(Put(v, i, m))
  {
    hide NameOf, DueOf, Plain, AttemptsOf, WithAttempts;
    forall j | 0 <= j < |v.names|
      ensures LabelAt(Put(v, i, m), j)
    {
      SameLabel(v, Put(v, i, m), j);
    }
  }

  ghost function Add<B>(v: View<B>, m: Msg<B>, origin: string, name: string): View<B> {
    View(v.msgs + [m], v.origins + [origin], v.names + [name], v.owner[name := |v.msgs|])
  }

  lemma FreshName<B>(v: View<B>, origin: string)
    requires Indexed(v) && Labelled(v) && Plain(origin) && origin !in v.origins
    ensures NameOf(origin, 0) !in v.owner
  {
    hide NameOf, DueOf, Plain, AttemptsOf, WithAttempts;
    var name := NameOf(origin, 0);
    NameOfLaws(origin, 0);
    if name in v.owner {
      var j := v.owner[name];
      assert LabelAt(v, j);
      NameOfLaws(v.origins[j], v.msgs[j].attempts);
    }
  }

  lemma AddLabelled<B>(v: View<B>, m: Msg<B>, origin: string)
    requires |v.names| == |v.msgs| == |v.origins| && Labelled(v) && Plain(origin) && origin !in v.origins
    requires m.attempts == 0 && m.due == DueOf(NameOf(origin, 0))
    ensures Labelled(Add(v, m, origin, NameOf(origin, 0)))
  {
    hide NameOf, DueOf, Plain, AttemptsOf, WithAttempts;
    var v' := Add(v, m, origin, NameOf(origin, 0));
    forall i | 0 <= i < |v'.names|
      ensures LabelAt(v', i)
    {
      if i < |v.names| { SameLabel(v, v', i); }
    }
  }

  lemma AddMeans<B>(files: map<Path, File<B>>, v: View<B>, m: Msg<B>, origin: string, name: string)
    requires Means(files, v) && name !in v.owner && m.place != Done
    ensures Means(files[Path(m.place, name) := File(m.body, m.stamp)], Add(v, m, origin, name))
  {
  }

  lemma PutMeans<B>(files: map<Path, File<B>>, v: View<B>, i: nat, dir: Place)
    requires Means(files, v) && i < |v.msgs| && v.msgs[i].place != Done && dir != Done
    ensures var src := Path(v.msgs[i].place, v.names[i]);
            src in files
            && Means((files - {src})[Path(dir, v.names[i]) := files[src]], Put(v, i, v.msgs[i].(place := dir)))
  {
    var m := v.msgs[i].(place := dir);
    RenameMeans(files, v, i, m, v.names[i]);
    RenameToItself(v, i, m);
  }

  lemma MapHop<K, V>(m: map<K, V>, a: K, b: K, c: K, x: V, y: V)
    requires b !in m
    ensures ((m - {a})[b := x] - {b})[c := y] == (m - {a})[c := y]
  {
  }

  /** Part way through a reclaim: the in-flight files in `rest` are still to be met. */
  ghost predicate SweptBut<B>(was: View<B>, v: View<B>, rest: set<Path>, now: real, visibility: real,
                              unmovable: set<string>)
  {
    && v.names == was.names && v.origins == was.origins && v.owner == was.owner
    && |v.msgs| == |was.msgs| == |v.names|
    && (forall i :: 0 <= i < |v.msgs| ==>
          v.msgs[i] == if Path(Inflight, v.names[i]) in rest then was.msgs[i]
                       else Swept(was.msgs[i], now, visibility, v.names[i] in unmovable))
  }

  lemma SweepOne<B>(files: map<Path, File<B>>, was: View<B>, v: View<B>, rest: set<Path>, i: nat, move: bool,
                    now: real, visibility: real, unmovable: set<string>)
    requires Means(files, v) && SweptBut(was, v, rest, now, visibility, unmovable)
    requires i < |v.msgs| && Path(Inflight, v.names[i]) in rest && v.msgs[i].place == Inflight
    requires move == (v.msgs[i].stamp <= now - visibility && v.names[i] !in unmovable)
    ensures SweptBut(was, if move then Put(v, i, v.msgs[i].(place := Pending)) else v,
                     rest - {Path(Inflight, v.names[i])}, now, visibility, unmovable)
  {
  }

  lemma StartSweep<B>(files: map<Path, File<B>>, v: View<B>, rest: set<Path>, now: real, visibility: real,
                      unmovable: set<string>)
    requires Means(files, v) && rest == set p | p in files && p.dir == Inflight
    ensures SweptBut(v, v, rest, now, visibility, unmovable)
  {
  }

  lemma AllSwept<B>(was: View<B>, v: View<B>, now: real, visibility: real, unmovable: set<string>)
    requires SweptBut(was, v, {}, now, visibility, unmovable)
    ensures v.names == was.names && v.origins == was.origins && |v.msgs| == |was.msgs| == |v.names|
    ensures forall i :: 0 <= i < |v.msgs| ==>
              v.msgs[i] == Swept(was.msgs[i], now, visibility, v.names[i] in unmovable)
  {
  }

  /** Part way through a claim's scan: the pending names in `rest` are still ahead. */
  ghost predicate ScannedBut<B>(was: View<B>, v: View<B>, rest: set<string>, now: real, cap: nat,
                                faults: map<string, Fault>)
  {
    && v.names == was.names && v.origins == was.origins && v.owner == was.owner
    && |v.msgs| == |was.msgs| == |v.names|
    && (forall i :: 0 <= i < |v.msgs| ==>
          if was.msgs[i].place != Pending || v.names[i] in rest then v.msgs[i] == was.msgs[i]
          else Passes(was.msgs[i], now, cap, FaultOf(faults, v.names[i]))
               && v.msgs[i] == Passed(was.msgs[i], now, cap, FaultOf(faults, v.names[i]))
               && (forall n :: n in rest ==> Before(v.names[i], n)))
  }

  /** What a whole scan does: every candidate ahead of the one it stops at is gone
      past, and everything behind is untouched. */
  ghost predicate Scanned<B>(was: View<B>, v: View<B>, stop: Option<nat>, now: real, cap: nat,
                             faults: map<string, Fault>)
    requires |was.msgs| == |was.names|
  {
    && |v.msgs| == |was.msgs|
    && (stop.Some? ==>
          var k := stop.value;
          k < |v.msgs| && !Passes(was.msgs[k], now, cap, FaultOf(faults, was.names[k]))
          && v.msgs[k] == Stopped(was.msgs[k], now, cap, FaultOf(faults, was.names[k])))
    && (forall i :: 0 <= i < |v.msgs| && stop != Some(i) ==>
          if stop.None? || (stop.value < |was.names| && Before(was.names[i], was.names[stop.value])) then
            Passes(was.msgs[i], now, cap, FaultOf(faults, was.names[i]))
            && v.msgs[i] == Passed(was.msgs[i], now, cap, FaultOf(faults, was.names[i]))
          else v.msgs[i] == was.msgs[i])
  }

  lemma ScanOne<B>(files: map<Path, File<B>>, was: View<B>, v: View<B>, rest: set<string>, i: nat,
                   now: real, cap: nat, faults: map<string, Fault>)
    requires Means(files, v) && ScannedBut(was, v, rest, now, cap, faults)
    requires i < |v.msgs| && IsLeast(v.names[i], rest) && was.msgs[i].place == Pending
    requires Passes(v.msgs[i], now, cap, FaultOf(faults, v.names[i]))
    ensures ScannedBut(was, Put(v, i, Passed(v.msgs[i], now, cap, FaultOf(faults, v.names[i]))),
                       rest - {v.names[i]}, now, cap, faults)
  {
  }

  lemma ScanStops<B>(files: map<Path, File<B>>, was: View<B>, v: View<B>, rest: set<string>, k: nat,
                     v': View<B>, now: real, cap: nat, faults: map<string, Fault>)
    requires Means(files, v) && ScannedBut(was, v, rest, now, cap, faults)
    requires Ahead(was, rest) && k < |v.msgs| && IsLeast(v.names[k], rest)
    requires !Passes(v.msgs[k], now, cap, FaultOf(faults, v.names[k]))
    requires v'.msgs == v.msgs[k := Stopped(v.msgs[k], now, cap, FaultOf(faults, v.names[k]))]
    ensures Scanned(was, v', Some(k), now, cap, faults)
  {
    forall i | 0 <= i < |v.msgs| && i != k && v.names[i] in rest
      ensures !Before(v.names[i], v.names[k])
    {
      BeforeTotal(v.names[i], v.names[k]);
    }
  }

  /** The names still to be scanned are names of pending messages. */
  ghost predicate Ahead<B>(was: View<B>, rest: set<string>) {
    forall n :: n in rest ==> n in was.owner && was.owner[n] < |was.msgs| && was.msgs[was.owner[n]].place == Pending
  }

  lemma AheadIsThere<B>(files: map<Path, File<B>>, was: View<B>, v: View<B>, rest: set<string>, name: string,
                        now: real, cap: nat, faults: map<string, Fault>)
    requires Means(files, v) && ScannedBut(was, v, rest, now, cap, faults) && Ahead(was, rest) && name in rest
    ensures name in v.owner && v.names[v.owner[name]] == name && Path(Pending, name) in files
    ensures v.msgs[v.owner[name]] == was.msgs[v.owner[name]] && was.msgs[v.owner[name]].place == Pending
  {
  }

  lemma StartScan<B>(files: map<Path, File<B>>, v: View<B>, rest: set<string>, now: real, cap: nat,
                     faults: map<string, Fault>)
    requires Means(files, v) && rest == set p | p in files && p.dir == Pending :: p.name
    ensures ScannedBut(v, v, rest, now, cap, faults) && Ahead(v, rest)
  {
    forall i | 0 <= i < |v.msgs| && v.msgs[i].place == Pending
      ensures v.names[i] in rest
    {
      assert Path(Pending, v.names[i]) in files;
    }
  }

  lemma DueOfName<B>(v: View<B>, i: nat)
    requires |v.names| == |v.msgs| == |v.origins| && Labelled(v) && i < |v.msgs|
    ensures DueOf(v.names[i]) == v.msgs[i].due
  {
    assert LabelAt(v, i);
  }

  /** The answer of a claim, by the candidate it stopped at. */
  ghost predicate Leases<B>(was: View<B>, v: View<B>, stop: Option<nat>, now: real, cap: nat, faults: map<string, Fault>,
                            r: Result<Option<Handle<B>>, QueueError>)
    requires |was.msgs| == |was.names|
  {
    if stop.None? then r == Ok(None)
    else
      var k := stop.value;
      k < |was.msgs|
      && var m, fault := was.msgs[k], FaultOf(faults, was.names[k]);
         if Failure(m, now, cap, fault).Some? then r == Err(Failure(m, now, cap, fault).value)
         else m.body.Some? && k < |v.names|
              && r == Ok(Some(Handle(m.body.value, v.names[k], m.attempts + 1)))
  }

  /** A claim may hand this message out: it waits, is parsed, has receives left, and its due
      millisecond has come. */
  predicate Claimable<B>(m: Msg<B>, now: real, cap: nat) {
    && m.place == Pending && m.body.Some? && m.attempts + 1 <= cap
    && (m.due.None? || m.due.value <= (now * 1000.0).Floor)
  }

  /** The first name among the messages that may be handed out. */
  ghost predicate FirstClaimable<B>(v: View<B>, k: nat, now: real, cap: nat)
    requires |v.msgs| == |v.names|
  {
    k < |v.msgs| && Claimable(v.msgs[k], now, cap)
    && forall i :: 0 <= i < |v.msgs| && Claimable(v.msgs[i], now, cap) && i != k ==> Before(v.names[k], v.names[i])
  }

  /** Where nothing goes wrong, a claim answers with the first message that may be handed out,
      and with none exactly when there is none.  Whatever goes wrong, it goes past such a
      message only if that one was lost to another worker or could not be read. */
  lemma ClaimTakesTheFirst<B>(was: View<B>, v: View<B>, stop: Option<nat>, now: real, cap: nat,
                              faults: map<string, Fault>, r: Result<Option<Handle<B>>, QueueError>)
    requires Indexed(was) && Scanned(was, v, stop, now, cap, faults) && Leases(was, v, stop, now, cap, faults, r)
    ensures faults == map[] ==>
              && r.Ok? && (r.value.None? <==> forall i :: 0 <= i < |was.msgs| ==> !Claimable(was.msgs[i], now, cap))
              && (r.value.Some? ==>
                    && stop.Some? && FirstClaimable(was, stop.value, now, cap)
                    && r.value.value.job == was.msgs[stop.value].body.value
                    && r.value.value.attempt == was.msgs[stop.value].attempts + 1)
    ensures r == Ok(None) ==>
              forall i :: 0 <= i < |was.msgs| && Claimable(was.msgs[i], now, cap) ==>
                was.names[i] in faults && faults[was.names[i]] in {LostRace, ReadFails}
  {
    if r.Ok? && r.value.Some? {
      forall i | 0 <= i < |was.msgs| && Claimable(was.msgs[i], now, cap) && i != stop.value && faults == map[]
        ensures Before(was.names[stop.value], was.names[i])
      {
        assert was.names[i] != was.names[stop.value];
        BeforeTotal(was.names[i], was.names[stop.value]);
      }
    }
  }

  /** A due file that is not text is never parked and its receive is never counted: a claim
      that gets as far as its name ends there, in an error, with the file in flight, and
      leases nothing that sorts after it. */
  lemma UndecodableIsNeverParked<B>(was: View<B>, v: View<B>, stop: Option<nat>, now: real, cap: nat,
                                    faults: map<string, Fault>, r: Result<Option<Handle<B>>, QueueError>, i: nat)
    requires |was.msgs| == |was.names| && Scanned(was, v, stop, now, cap, faults)
    requires Leases(was, v, stop, now, cap, faults, r)
    requires i < |was.msgs| && was.names[i] in faults && faults[was.names[i]] == DecodeFails
    requires was.msgs[i].place == Pending && (was.msgs[i].due.None? || was.msgs[i].due.value <= (now * 1000.0).Floor)
    ensures v.msgs[i] == if stop == Some(i) then Stuck(was.msgs[i], false) else was.msgs[i]
    ensures stop == Some(i) <==> v.msgs[i].place == Inflight
    ensures stop == Some(i) ==> r == Err(Undecodable)
    ensures stop.Some? && !Before(was.names[i], was.names[stop.value])
  {
    BeforeTotal(was.names[i], was.names[i]);
  }

  /** The receipt of a lease is its message's name, and counts its receives. */
  lemma LeaseIsIssued<B>(was: View<B>, v: View<B>, stop: Option<nat>, now: real, cap: nat, faults: map<string, Fault>,
                         r: Result<Option<Handle<B>>, QueueError>)
    requires |was.msgs| == |was.names| && Scanned(was, v, stop, now, cap, faults)
    requires Leases(was, v, stop, now, cap, faults, r) && r.Ok? && r.value.Some?
    requires |v.names| == |v.msgs| == |v.origins| && Labelled(v)
    ensures stop.Some? && stop.value < |v.msgs| && r.value.value.attempt > 0
    ensures r.value.value.receipt == NameOf(v.origins[stop.value], r.value.value.attempt)
  {
    hide NameOf, DueOf, Plain, AttemptsOf, WithAttempts;
    assert LabelAt(v, stop.value);
  }

  /** What a claim does to one due candidate, and what it answers. */
  ghost predicate Considered<B>(v: View<B>, v': View<B>, i: nat, now: real, cap: nat, fault: Fault,
                                r: Result<Option<Handle<B>>, QueueError>)
    requires i < |v.msgs| && i < |v.origins|
  {
    var m := v.msgs[i];
    if Passes(m, now, cap, fault) then v' == Put(v, i, Passed(m, now, cap, fault)) && r == Ok(None)
    else
      v'.msgs == v.msgs[i := Stopped(m, now, cap, fault)]
      && (if Failure(m, now, cap, fault).Some? then r == Err(Failure(m, now, cap, fault).value)
          else m.body.Some? && i < |v'.names|
               && r == Ok(Some(Handle(m.body.value, v'.names[i], m.attempts + 1))))
  }

  /** The state and the name a candidate ends up with, by what went wrong. */
  ghost function Outcome<B>(m: Msg<B>, name: string, counted: string, now: real, cap: nat, fault: Fault)
    : (Msg<B>, string)
  {
    if fault == DecodeFails then (m.(place := Inflight), name)
    else if m.body.None? || fault == ReadFails || m.attempts + 1 > cap then
      (m.(place := if fault == QuarantineFails then Inflight else Dead), name)
    else if fault == CountFails then (m.(place := Inflight), name)
    else (CountedBy(m.(place := Inflight), now, fault), counted)
  }

  ghost function Answer<B>(m: Msg<B>, counted: string, cap: nat, fault: Fault)
    : Result<Option<Handle<B>>, QueueError>
  {
    if fault == DecodeFails then Err(Undecodable)
    else if m.body.None? || fault == ReadFails || m.attempts + 1 > cap then
      if fault == QuarantineFails then Err(CannotClaim) else Ok(None)
    else if fault == CountFails || fault == TouchFails then Err(CannotClaim)
    else Ok(Some(Handle(m.body.value, counted, m.attempts + 1)))
  }

  lemma OutcomeIsConsidered<B>(v: View<B>, i: nat, counted: string, now: real, cap: nat, fault: Fault)
    requires Indexed(v) && i < |v.msgs| && Offered(v.msgs[i], now) && fault != LostRace
    ensures var o := Outcome(v.msgs[i], v.names[i], counted, now, cap, fault);
            Considered(v, Rename(v, i, o.0, o.1), i, now, cap, fault, Answer(v.msgs[i], counted, cap, fault))
  {
    RenameToItself(v, i, Outcome(v.msgs[i], v.names[i], counted, now, cap, fault).0);
  }

  lemma RelabelOutcome<B>(v: View<B>, i: nat, counted: string, now: real, cap: nat, fault: Fault)
    requires Indexed(v) && Labelled(v) && i < |v.msgs|
    requires counted == NameOf(v.origins[i], v.msgs[i].attempts + 1)
    ensures var o := Outcome(v.msgs[i], v.names[i], counted, now, cap, fault);
            Labelled(Rename(v, i, o.0, o.1))
  {
    hide NameOf, DueOf, Plain, AttemptsOf, WithAttempts;
    var o := Outcome(v.msgs[i], v.names[i], counted, now, cap, fault);
    assert LabelAt(v, i);
    RelabelKeeps(v, i, o.0);
  }

  lemma OutcomeMeans<B>(files: map<Path, File<B>>, v: View<B>, i: nat, counted: string, now: real, cap: nat,
                        fault: Fault)
    requires Means(files, v) && i < |v.msgs| && v.msgs[i].place == Pending
    requires counted == v.names[i] || counted !in v.owner
    ensures var o := Outcome(v.msgs[i], v.names[i], counted, now, cap, fault);
            var src := Path(Pending, v.names[i]);
            src in files && Path(Inflight, v.names[i]) !in files
            && files[src] == File(v.msgs[i].body, v.msgs[i].stamp)
            && Means((files - {src})[Path(o.0.place, o.1) := File(o.0.body, o.0.stamp)], Rename(v, i, o.0, o.1))
  {
    var o := Outcome(v.msgs[i], v.names[i], counted, now, cap, fault);
    RenameMeans(files, v, i, o.0, o.1);
  }

  /** The scan goes on past message i, or ends there. */
  ghost predicate Turned<B>(was: View<B>, v: View<B>, rest: set<string>, i: nat, now: real, cap: nat,
                            faults: map<string, Fault>, r: Result<Option<Handle<B>>, QueueError>)
    requires |was.msgs| == |was.names| == |was.origins|
  {
    if r.Ok? && r.value.None? then ScannedBut(was, v, rest, now, cap, faults)
    else Scanned(was, v, Some(i), now, cap, faults) && Leases(was, v, Some(i), now, cap, faults, r)
  }

  lemma TurnDone<B>(files: map<Path, File<B>>, was: View<B>, v: View<B>, v': View<B>, rest: set<string>, i: nat,
                    now: real, cap: nat, faults: map<string, Fault>, r: Result<Option<Handle<B>>, QueueError>)
    requires Means(files, v) && ScannedBut(was, v, rest, now, cap, faults) && Ahead(was, rest)
    requires |was.msgs| == |was.names| == |was.origins|
    requires i < |v.names| && IsLeast(v.names[i], rest) && was.msgs[i].place == Pending
    requires Considered(v, v', i, now, cap, FaultOf(faults, v.names[i]), r)
    ensures Turned(was, v', rest - {v.names[i]}, i, now, cap, faults, r)
  {
    var fault := FaultOf(faults, v.names[i]);
    if Passes(v.msgs[i], now, cap, fault) {
      ScanOne(files, was, v, rest, i, now, cap, faults);
    } else {
      ScanStops(files, was, v, rest, i, v', now, cap, faults);
      StopAnswers(was, v, v', i, now, cap, faults, r);
    }
  }

  lemma StopAnswers<B>(was: View<B>, v: View<B>, v': View<B>, i: nat, now: real, cap: nat,
                       faults: map<string, Fault>, r: Result<Option<Handle<B>>, QueueError>)
    requires |was.msgs| == |was.names| == |was.origins| && i < |was.msgs|
    requires v.origins == was.origins && v.names == was.names && |v.msgs| == |was.msgs| && v.msgs[i] == was.msgs[i]
    requires !Passes(v.msgs[i], now, cap, FaultOf(faults, v.names[i]))
    requires Considered(v, v', i, now, cap, FaultOf(faults, v.names[i]), r)
    ensures Leases(was, v', Some(i), now, cap, faults, r) && (r.Err? || r.value.Some?)
  {
  }

  lemma CountedName<B>(v: View<B>, i: nat)
    requires |v.names| == |v.msgs| == |v.origins| && Labelled(v) && i < |v.msgs|
    ensures AttemptsOf(v.names[i]) == v.msgs[i].attempts
    ensures WithAttempts(v.names[i], AttemptsOf(v.names[i]) + 1) == NameOf(v.origins[i], v.msgs[i].attempts + 1)
  {
    hide NameOf, DueOf, Plain, AttemptsOf, WithAttempts;
    assert LabelAt(v, i);
    NameOfLaws(v.origins[i], v.msgs[i].attempts);
  }

  /** What the counting rename and the touch make of a message already in flight. */
  function CountedBy<B>(m: Msg<B>, now: real, fault: Fault): Msg<B> {
    if fault == CountFails then m
    else if fault == TouchFails then m.(attempts := m.attempts + 1)
    else m.(attempts := m.attempts + 1, stamp := now)
  }

  class LocalJobQueue<B> {
    var files: map<Path, File<B>>
    const visibility: real
    const maxAttempts: nat
    ghost var view: View<B>

    constructor (visibility: real, maxAttempts: nat)
      ensures Valid() && Msgs() == [] && files == map[]
      ensures this.visibility == visibility && this.maxAttempts == maxAttempts
    {
      this.visibility := visibility;
      this.maxAttempts := maxAttempts;
      files, view := map[], View([], [], [], map[]);
    }

    ghost predicate Valid()
      reads this
    {
      Means(files, view) && Labelled(view)
    }

    /** The lease queue these files implement. */
    ghost function Msgs(): seq<Msg<B>>
      reads this
    {
      view.msgs
    }

    /** A lease that a claim of message `id` handed out. */
    ghost predicate Issued(lease: Handle<B>, id: nat)
      reads this
    {
      id < |view.msgs| && id < |view.origins| && lease.attempt > 0
      && lease.receipt == NameOf(view.origins[id], lease.attempt)
    }

    /** A rename between directories that keeps the name. */
    method Shift(src: Path, dir: Place, ghost i: nat)
      requires Valid() && i < |view.msgs| && src in files && dir != Done
      requires src == Path(view.msgs[i].place, view.names[i])
      modifies this`files, this`view
      ensures Valid()
      ensures files == (old(files) - {src})[Path(dir, src.name) := old(files)[src]]
      ensures view == Put(old(view), i, old(view).msgs[i].(place := dir))
    {
      ghost var m := view.msgs[i].(place := dir);
      PutMeans(files, view, i, dir);
      PutKeeps(view, i, m);
      var file := files[src];
      files := (files - {src})[Path(dir, src.name) := file];
      view := Put(view, i, m);
    }

    method Publish(body: Option<B>, targetTier: string, delay: int, deadLetter: bool,
                   now: real, uuid: string, write: Write)
      returns (r: Result<(), QueueError>)
      requires Valid() && now >= 0.0 && '#' !in uuid
      requires delay >= 0 ==> PublishedOrigin(Millis(now + delay as real), uuid) !in view.origins
      modifies this`files, this`view
      ensures Valid()
      ensures old(view).origins <= view.origins
      ensures var ok := targetTier in {"", "local"} && 0 <= delay <= 900;
              && (r == if !ok then Err(InvalidTarget) else if write == Written then Ok(()) else Err(CannotPublish))
              && Msgs() == (if ok && write != NotWritten
                            then old(Msgs()) + [Fresh(body, Some(Millis(now + delay as real)), deadLetter, now)]
                            else old(Msgs()))
    {
      if targetTier !in {"", "local"} || !(0 <= delay <= 900) {
        return Err(InvalidTarget);
      }
      if write == NotWritten {
        return Err(CannotPublish);
      }
      var due := Millis(now + delay as real);
      var origin := PublishedOrigin(due, uuid);
      var path := Path(if deadLetter then Dead else Pending, NameOf(origin, 0));
      PublishedOriginLaws(due, uuid);
      ghost var m := Fresh(body, Some(due), deadLetter, now);
      FreshName(view, origin);
      AddMeans(files, view, m, origin, path.name);
      AddLabelled(view, m, origin);
      files := files[path := File(body, now)];
      view := Add(view, m, origin, path.name);
      r := if write == Written then Ok(()) else Err(CannotPublish);
    }

    method Complete(lease: Handle<B>, ghost id: nat, fails: bool) returns (r: Result<(), QueueError>)
      requires Valid() && Issued(lease, id)
      modifies this`files, this`view
      ensures Valid()
      ensures r == if fails then Err(CannotComplete) else Ok(())
      ensures view == if fails then old(view)
                      else Put(old(view), id, Completed(old(view).msgs[id], lease.attempt))
    {
      if fails {
        return Err(CannotComplete);
      }
      NameFinds(files, view, Inflight, id, lease.attempt);
      PutKeeps(view, id, Completed(view.msgs[id], lease.attempt));
      files := files - {Path(Inflight, lease.receipt)};
      view := Put(view, id, Completed(view.msgs[id], lease.attempt));
      return Ok(());
    }

    method Release(lease: Handle<B>, ghost id: nat, fails: bool) returns (r: Result<(), QueueError>)
      requires Valid() && Issued(lease, id)
      modifies this`files, this`view
      ensures Valid()
      ensures r == if fails && Held(old(view).msgs[id], lease.attempt) then Err(CannotRelease) else Ok(())
      ensures Msgs() == if fails then old(Msgs())
                        else old(Msgs())[id := Released(old(Msgs())[id], lease.attempt)]
    {
      var source := Path(Inflight, lease.receipt);
      NameFinds(files, view, Inflight, id, lease.attempt);
      if source !in files {
        return Ok(());
      }
      if fails {
        return Err(CannotRelease);
      }
      assert LabelAt(view, id);
      NameOfLaws(view.origins[id], lease.attempt);
      assert WithAttempts(lease.receipt, lease.attempt) == lease.receipt;
      Shift(source, Pending, id);
      return Ok(());
    }

    /** Return in-flight files whose lease has lapsed, in whatever order they are met. */
    method ReclaimExpired(now: real, unmovable: set<string>)
      requires Valid()
      modifies this`files, this`view
      ensures Valid() && |Msgs()| == |old(Msgs())|
      ensures view.names == old(view).names && view.origins == old(view).origins
      ensures forall i :: 0 <= i < |Msgs()| ==>
                Msgs()[i] == Swept(old(Msgs())[i], now, visibility, view.names[i] in unmovable)
    {
      var cutoff := now - visibility;
      var rest := set p | p in files && p.dir == Inflight;
      ghost var was := view;
      StartSweep(files, view, rest, now, visibility, unmovable);
      hide SweptBut, Swept, LabelAt;
      while rest != {}
        invariant Valid() && SweptBut(was, view, rest, now, visibility, unmovable)
        invariant forall p :: p in rest ==> p in files && p.dir == Inflight
        decreases rest
      {
        var p :| p in rest;
        ghost var i := view.owner[p.name];
        if files[p].mtime <= cutoff && p.name !in unmovable {
          SweepOne(files, was, view, rest, i, true, now, visibility, unmovable);
          Shift(p, Pending, i);
        } else {
          SweepOne(files, was, view, rest, i, false, now, visibility, unmovable);
        }
        rest := rest - {p};
      }
      AllSwept(was, view, now, visibility, unmovable);
    }

    method NextAttempt(name: string, ghost i: nat) returns (attempt: nat, counted: string)
      requires Valid() && i < |view.msgs| && view.names[i] == name
      ensures attempt == view.msgs[i].attempts + 1
      ensures counted == name || counted !in view.owner
      ensures counted == NameOf(view.origins[i], attempt)
    {
      CountedName(view, i);
      attempt := AttemptsOf(name) + 1;
      counted := WithAttempts(name, attempt);
      NameFinds(files, view, Inflight, i, attempt);
    }

    /** What a claim does with one due candidate it has not lost to another worker. */
    method Consider(name: string, now: real, fault: Fault, ghost i: nat)
      returns (r: Result<Option<Handle<B>>, QueueError>)
      requires Valid() && i < |view.msgs| && Path(Pending, name) in files
      requires view.names[i] == name && Offered(view.msgs[i], now) && fault != LostRace
      modifies this`files, this`view
      ensures Valid() && view.origins == old(view).origins
      ensures Considered(old(view), view, i, now, maxAttempts, fault, r)
    {
      var attempt, counted := NextAttempt(name, i);
      ghost var v, before := view, files;
      OutcomeMeans(before, v, i, counted, now, maxAttempts, fault);
      OutcomeIsConsidered(v, i, counted, now, maxAttempts, fault);
      r := MoveCandidate(name, attempt, counted, now, fault, v.msgs[i]);
      ghost var o := Outcome(v.msgs[i], name, counted, now, maxAttempts, fault);
      RelabelOutcome(v, i, counted, now, maxAttempts, fault);
      view := Rename(v, i, o.0, o.1);
    }

    /** The renames and the touch behind `Consider`. */
    method MoveCandidate(name: string, attempt: nat, counted: string, now: real, fault: Fault, ghost m: Msg<B>)
      returns (r: Result<Option<Handle<B>>, QueueError>)
      requires var src := Path(Pending, name);
               src in files && Path(Inflight, name) !in files && files[src] == File(m.body, m.stamp)
      requires attempt == m.attempts + 1
      modifies this`files
      ensures r == Answer(m, counted, maxAttempts, fault)
      ensures var o := Outcome(m, name, counted, now, maxAttempts, fault);
              files == (old(files) - {Path(Pending, name)})[Path(o.0.place, o.1) := File(o.0.body, o.0.stamp)]
    {
      ghost var before := files;
      var src, target := Path(Pending, name), Path(Inflight, name);
      var file := files[src];
      files := (files - {src})[target := file];
      if fault == DecodeFails {
        return Err(Undecodable);
      }
      if file.body.None? || fault == ReadFails || attempt > maxAttempts {
        if fault == QuarantineFails {
          return Err(CannotClaim);
        }
        MapHop(before, src, target, Path(Dead, name), file, file);
        files := (files - {target})[Path(Dead, name) := file];
        return Ok(None);
      }
      if fault == CountFails {
        return Err(CannotClaim);
      }
      var receipt := Path(Inflight, counted);
      MapHop(before, src, target, receipt, file, file);
      files := (files - {target})[receipt := file];
      if fault == TouchFails {
        return Err(CannotClaim);
      }
      files := files[receipt := file.(mtime := now)];
      assert files == (before - {src})[receipt := file.(mtime := now)];
      return Ok(Some(Handle(file.body.value, counted, attempt)));
    }

    /** One turn of the claim loop. */
    method Try(name: string, now: real, faults: map<string, Fault>,
               ghost was: View<B>, ghost rest: set<string>, ghost i: nat)
      returns (r: Result<Option<Handle<B>>, QueueError>)
      requires Valid() && ScannedBut(was, view, rest, now, maxAttempts, faults) && Ahead(was, rest)
      requires IsLeast(name, rest) && i < |view.names| && view.names[i] == name && was.msgs[i].place == Pending
      modifies this`files, this`view
      ensures Valid() && view.origins == old(view).origins
      ensures Turned(was, view, rest - {name}, i, now, maxAttempts, faults, r)
    {
      var fault := FaultOf(faults, name);
      ghost var v := view;
      ghost var before := files;
      AheadIsThere(files, was, view, rest, name, now, maxAttempts, faults);
      DueOfName(view, i);
      if !IsDue(DueOf(name), Millis(now)) || fault == LostRace {
        r := Ok(None);
      } else {
        r := Consider(name, now, fault, i);
      }
      assert v.msgs[i := v.msgs[i]] == v.msgs;
      TurnDone(before, was, v, view, rest, i, now, maxAttempts, faults, r);
    }

    /** The scan behind `claim`: the due names in order, up to the first that can be leased. */
    method Scan(now: real, faults: map<string, Fault>)
      returns (r: Result<Option<Handle<B>>, QueueError>, ghost stop: Option<nat>)
      requires Valid()
      modifies this`files, this`view
      ensures Valid() && view.origins == old(view).origins
      ensures Scanned(old(view), view, stop, now, maxAttempts, faults)
      ensures Leases(old(view), view, stop, now, maxAttempts, faults, r)
    {
      var rest := set p | p in files && p.dir == Pending :: p.name;
      ghost var was := view;
      StartScan(files, view, rest, now, maxAttempts, faults);
      while rest != {}
        invariant Valid() && ScannedBut(was, view, rest, now, maxAttempts, faults) && Ahead(was, rest)
        decreases rest
      {
        LeastExists(rest);
        var name :| IsLeast(name, rest);
        AheadIsThere(files, was, view, rest, name, now, maxAttempts, faults);
        ghost var i := view.owner[name];
        r := Try(name, now, faults, was, rest, i);
        if r.Err? || r.value.Some? {
          return r, Some(i);
        }
        rest := rest - {name};
      }
      return Ok(None), None;
    }

    /** `claim`: reclaim what has lapsed, then lease the first due name that can be. */
    method Claim(now: real, unmovable: set<string>, faults: map<string, Fault>)
      returns (r: Result<Option<Handle<B>>, QueueError>, ghost swept: View<B>, ghost stop: Option<nat>)
      requires Valid()
      modifies this`files, this`view
      ensures Valid() && view.origins == old(view).origins
      ensures |swept.msgs| == |old(Msgs())| == |swept.names| && swept.names == old(view).names
      ensures swept.origins == old(view).origins
      ensures forall i :: 0 <= i < |swept.msgs| ==>
                swept.msgs[i] == Swept(old(Msgs())[i], now, visibility, swept.names[i] in unmovable)
      ensures Scanned(swept, view, stop, now, maxAttempts, faults)
      ensures Leases(swept, view, stop, now, maxAttempts, faults, r)
      ensures r.Ok? && r.value.Some? ==> Issued(r.value.value, stop.value)
      ensures faults == map[] ==>
                && r.Ok? && (r.value.None? <==>
                               forall i :: 0 <= i < |swept.msgs| ==> !Claimable(swept.msgs[i], now, maxAttempts))
                && (r.value.Some? ==> stop.Some? && FirstClaimable(swept, stop.value, now, maxAttempts))
    {
      hide Scanned, Leases, Swept, LabelAt, Claimable, FirstClaimable;
      ReclaimExpired(now, unmovable);
      swept := view;
      r, stop := Scan(now, faults);
      ClaimTakesTheFirst(swept, view, stop, now, maxAttempts, faults, r);
      if r.Ok? && r.value.Some? {
        LeaseIsIssued(swept, view, stop, now, maxAttempts, faults, r);
      }
    }
  }
}
