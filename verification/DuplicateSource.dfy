/**
 One run that uploads a callback more often than its rounds allow: the same job was
 published twice, saved on the second receive of one copy, and the other copy, received
 for the first and the second time, starts counting from 1 each time.
 */
module DuplicateSource {
  import opened Wrappers
  import opened LeaseQueue
  import opened Executor
  import opened Delivery
  import opened Protocol
  import opened BoundedDelivery

  const CONFIG := Config(true, true, false, "w", 10000.0, 1)

  const JOB := Job("j", Some("t"), false, false, "", None)

  const RESULT := JobResult("j", Some("t"), Outcome(Failed, None, None, "no source"))

  const LIMITS := Limits(5, 600.0)

  const ARTIFACT := Saved("t", 0)

  function SavedEnvelope(): Envelope { Enveloped(JOB, RESULT, CONFIG, "", 2, 600.0) }

  function Store(): map<Key, Blob> { map[Key("j", ARTIFACT) := Envelop(SavedEnvelope())] }

  function TurnAt(now: real): Turn {
    Turn(ARTIFACT, SavedEnvelope(), DeliveryState(ARTIFACT, 0, 10600.0, 1, false), 1, 1, 1, now)
  }

  /** Both copies, the pass of worker 0 if there is one, the store and the uploads. */
  ghost predicate Stands(s: State, now: real, a: Msg<Job>, b: Msg<Job>, passes: map<nat, Pass>, store: map<Key, Blob>,
                         uploads: seq<UploadEvent>)
  {
    && s.limits == LIMITS && s.now == now && s.msgs == [a, b] && s.passes == passes && s.store == store
    && s.uploads == uploads && |s.origins| == 2 && s.origins[0].tier == "" && s.origins[1].tier == ""
  }

  function Copy(place: Place, attempts: nat, stamp: real): Msg<Job> { Msg(Some(JOB), None, place, attempts, stamp) }

  function OnePass(id: nat, attempt: nat, seen: set<Key>, phase: Phase): map<nat, Pass> {
    map[0 := Pass(Lease(id, attempt), JOB, CONFIG, seen, phase)]
  }

  lemma TakesCopy(s: State, now: real, a: Msg<Job>, b: Msg<Job>, i: nat, attempts: nat, stamp: real,
                  store: map<Key, Blob>, uploads: seq<UploadEvent>)
    requires Stands(s, now, a, b, map[], store, uploads) && i < 2 && [a, b][i] == Copy(Pending, attempts, stamp)
    requires attempts < 5
    ensures var m := Copy(Inflight, attempts + 1, now);
            Stands(Step(s, Claim(0, i, CONFIG)), now, if i == 0 then m else a, if i == 1 then m else b,
                   OnePass(i, attempts + 1, store.Keys, Started), store, uploads)
  {
    assert Offered(s.msgs[i], now) && !Poisoned(s.msgs[i], 5) && ConfigOk(CONFIG);
    assert Step(s, Claim(0, i, CONFIG)) == DoClaim(s, 0, i, CONFIG);
  }

  lemma Crashes(s: State, now: real, a: Msg<Job>, b: Msg<Job>, id: nat, attempt: nat, seen: set<Key>, phase: Phase,
                store: map<Key, Blob>, uploads: seq<UploadEvent>)
    requires Stands(s, now, a, b, OnePass(id, attempt, seen, phase), store, uploads)
    ensures Stands(Step(s, Crash(0)), now, a, b, map[], store, uploads)
  {
    assert Step(s, Crash(0)).passes == map[];
  }

  /** Ten minutes later its message comes back. */
  lemma ComesBack(s: State, now: real, later: real, a: Msg<Job>, b: Msg<Job>, i: nat, attempts: nat,
                  store: map<Key, Blob>, uploads: seq<UploadEvent>)
    requires Stands(s, now, a, b, map[], store, uploads) && i < 2 && [a, b][i] == Copy(Inflight, attempts, now)
    requires later == now + 600.0
    ensures var m := Copy(Pending, attempts, now);
            Stands(Step(Step(s, Tick(later)), Reclaim(i)), later, if i == 0 then m else a, if i == 1 then m else b,
                   map[], store, uploads)
  {
    var t := Step(s, Tick(later));
    assert Stands(t, later, a, b, map[], store, uploads);
    assert Expired(t.msgs[i], later, 600.0);
  }

  lemma NothingIsSaved(s: State, a: Msg<Job>, b: Msg<Job>)
    requires Stands(s, 600.0, a, b, OnePass(0, 2, {}, Started), map[], [])
    ensures Stands(Step(s, Lookup(0, true)), 600.0, a, b, OnePass(0, 2, {}, ToExecute), map[], [])
  {
    hide DoWorld, DoClaim, DoExecute, DoPersist, DoDeliver, DoUpload, DoPublish, DoComplete, DoRelease;
    assert AttemptKeys(s.store, "j", "t") == {};
  }

  lemma Judges(s: State, a: Msg<Job>, b: Msg<Job>)
    requires Stands(s, 600.0, a, b, OnePass(0, 2, {}, ToExecute), map[], [])
    ensures Stands(Step(s, Execute(0, Unprepared("no source"), Outcome(Failed, None, None, ""))), 600.0, a, b,
                   OnePass(0, 2, {}, ToPersist(RESULT)), map[], [])
  {
    hide DoWorld, DoClaim, DoLookup, DoPersist, DoDeliver, DoUpload, DoPublish, DoComplete, DoRelease;
  }

  lemma Saves(s: State, a: Msg<Job>, b: Msg<Job>)
    requires Stands(s, 600.0, a, b, OnePass(0, 2, {}, ToPersist(RESULT)), map[], [])
    ensures Stands(Step(s, Persist(0, 0, Written)), 600.0, a, b, OnePass(0, 2, {}, ToDeliver(ARTIFACT, SavedEnvelope())),
                   Store(), [])
  {
    hide DoWorld, DoClaim, DoLookup, DoExecute, DoDeliver, DoUpload, DoPublish, DoComplete, DoRelease;
  }

  /** Judged and saved on its second receive. */
  lemma JudgesAndSaves(s: State, a: Msg<Job>, b: Msg<Job>)
    requires Stands(s, 600.0, a, b, OnePass(0, 2, {}, Started), map[], [])
    ensures var failed := Execute(0, Unprepared("no source"), Outcome(Failed, None, None, ""));
            var t := Step(Step(Step(s, Lookup(0, true)), failed), Persist(0, 0, Written));
            Stands(t, 600.0, a, b, OnePass(0, 2, {}, ToDeliver(ARTIFACT, SavedEnvelope())), Store(), [])
  {
    hide *;
    NothingIsSaved(s, a, b);
    var s1 := Step(s, Lookup(0, true));
    Judges(s1, a, b);
    Saves(Step(s1, Execute(0, Unprepared("no source"), Outcome(Failed, None, None, ""))), a, b);
  }

  lemma FindsTheCallback()
    ensures Find(Store(), JOB) == Hit(ARTIFACT, SavedEnvelope())
  {
    var key := Key("j", ARTIFACT);
    assert AttemptKeys(Store(), "j", "t") == {key};
    assert First({key}) == key;
  }

  lemma LooksUp(s: State, now: real, a: Msg<Job>, b: Msg<Job>, attempt: nat, uploads: seq<UploadEvent>)
    requires Stands(s, now, a, b, OnePass(1, attempt, Store().Keys, Started), Store(), uploads)
    ensures Stands(Step(s, Lookup(0, true)), now, a, b,
                   OnePass(1, attempt, Store().Keys, ToDeliver(ARTIFACT, SavedEnvelope())), Store(), uploads)
  {
    FindsTheCallback();
    hide Find, Store, SavedEnvelope;
    assert Step(s, Lookup(0, true)) == DoLookup(s, 0, true);
  }

  lemma Decides(s: State, now: real, a: Msg<Job>, b: Msg<Job>, attempt: nat, uploads: seq<UploadEvent>)
    requires 1 <= attempt <= 2 && now < 10600.0
    requires Stands(s, now, a, b, OnePass(1, attempt, Store().Keys, ToDeliver(ARTIFACT, SavedEnvelope())), Store(), uploads)
    ensures Stands(Step(s, Deliver(0)), now, a, b, OnePass(1, attempt, Store().Keys, Uploading(TurnAt(now))), Store(),
                   uploads)
  {
    var e := SavedEnvelope();
    assert e.sourceAttempt == 2 && e.deadline == 10600.0 && e.maxRounds == 1;
    hide SavedEnvelope, Store;
    assert StateOf(JOB, attempt, ARTIFACT, e) == Some(DeliveryState(ARTIFACT, 0, 10600.0, 1, false));
    assert Step(s, Deliver(0)) == DoDeliver(s, 0);
  }

  lemma Uploads(s: State, now: real, a: Msg<Job>, b: Msg<Job>, attempt: nat, uploads: seq<UploadEvent>)
    requires Stands(s, now, a, b, OnePass(1, attempt, Store().Keys, Uploading(TurnAt(now))), Store(), uploads)
    ensures Stands(Step(s, Upload(0, false, false)), now, a, b, OnePass(1, attempt, Store().Keys, ToPublish(TurnAt(now))),
                   Store(), uploads + [Replay(Lease(1, attempt), TurnAt(now), false)])
  {
    hide TurnAt, Store;
    assert Step(s, Upload(0, false, false)) == DoUpload(s, 0, false, false);
  }

  /** The other copy finds it, and counts from 1 on its first receive and its second. */
  lemma SendsAgain(s: State, now: real, a: Msg<Job>, b: Msg<Job>, attempt: nat, uploads: seq<UploadEvent>)
    requires 1 <= attempt <= 2 && now < 10600.0
    requires Stands(s, now, a, b, OnePass(1, attempt, Store().Keys, Started), Store(), uploads)
    ensures var t := Step(Step(Step(s, Lookup(0, true)), Deliver(0)), Upload(0, false, false));
            Stands(t, now, a, b, OnePass(1, attempt, Store().Keys, ToPublish(TurnAt(now))), Store(),
                   uploads + [Replay(Lease(1, attempt), TurnAt(now), false)])
  {
    hide *;
    LooksUp(s, now, a, b, attempt, uploads);
    Decides(Step(s, Lookup(0, true)), now, a, b, attempt, uploads);
    Uploads(Step(Step(s, Lookup(0, true)), Deliver(0)), now, a, b, attempt, uploads);
  }

  // ---- the run ----------------------------------------------------------

  lemma More(run: seq<Action>, s: State, a: Action) returns (run': seq<Action>, s': State)
    requires s == Run(Initial(LIMITS), run)
    ensures run' == run + [a] && s' == Step(s, a) && s' == Run(Initial(LIMITS), run')
  {
    run', s' := run + [a], Step(s, a);
    RunOneMore(Initial(LIMITS), run, a);
  }

  lemma Published() returns (run: seq<Action>, s: State)
    ensures s == Run(Initial(LIMITS), run)
    ensures Stands(s, 0.0, Copy(Pending, 0, 0.0), Copy(Pending, 0, 0.0), map[], map[], [])
  {
    run, s := More([], Initial(LIMITS), Submit(Some(JOB), None, ""));
    run, s := More(run, s, Submit(Some(JOB), None, ""));
  }

  /** The first copy is lost once, and then judged and saved; the worker dies before it sends. */
  lemma SavedOnSecondReceive() returns (run: seq<Action>, s: State)
    ensures s == Run(Initial(LIMITS), run)
    ensures Stands(s, 600.0, Copy(Inflight, 2, 600.0), Copy(Pending, 0, 0.0), map[], Store(), [])
  {
    hide Step, Run, Stands;
    var lost, other := Copy(Inflight, 1, 0.0), Copy(Pending, 0, 0.0);
    var empty: map<Key, Blob> := map[];
    run, s := Published();
    TakesCopy(s, 0.0, other, other, 0, 0, 0.0, map[], []);
    run, s := More(run, s, Claim(0, 0, CONFIG));
    Crashes(s, 0.0, lost, other, 0, 1, empty.Keys, Started, map[], []);
    run, s := More(run, s, Crash(0));
    ComesBack(s, 0.0, 600.0, lost, other, 0, 1, map[], []);
    run, s := More(run, s, Tick(600.0));
    run, s := More(run, s, Reclaim(0));
    TakesCopy(s, 600.0, Copy(Pending, 1, 0.0), other, 0, 1, 0.0, map[], []);
    run, s := More(run, s, Claim(0, 0, CONFIG));
    assert empty.Keys == {};
    var held := Copy(Inflight, 2, 600.0);
    JudgesAndSaves(s, held, other);
    run, s := More(run, s, Lookup(0, true));
    run, s := More(run, s, Execute(0, Unprepared("no source"), Outcome(Failed, None, None, "")));
    run, s := More(run, s, Persist(0, 0, Written));
    Crashes(s, 600.0, held, other, 0, 2, {}, ToDeliver(ARTIFACT, SavedEnvelope()), Store(), []);
    run, s := More(run, s, Crash(0));
  }

  function FirstUpload(): UploadEvent { Replay(Lease(1, 1), TurnAt(600.0), false) }

  function SecondUpload(): UploadEvent { Replay(Lease(1, 2), TurnAt(1200.0), false) }

  lemma SentTwice() returns (run: seq<Action>, s: State)
    ensures s == Run(Initial(LIMITS), run)
    ensures Stands(s, 1200.0, Copy(Inflight, 2, 600.0), Copy(Inflight, 2, 1200.0),
                   OnePass(1, 2, Store().Keys, ToPublish(TurnAt(1200.0))), Store(), [FirstUpload(), SecondUpload()])
  {
    hide Step, Run, Stands;
    run, s := SavedOnSecondReceive();
    var held, one := Copy(Inflight, 2, 600.0), [FirstUpload()];
    TakesCopy(s, 600.0, held, Copy(Pending, 0, 0.0), 1, 0, 0.0, Store(), []);
    run, s := More(run, s, Claim(0, 1, CONFIG));
    SendsAgain(s, 600.0, held, Copy(Inflight, 1, 600.0), 1, []);
    run, s := More(run, s, Lookup(0, true));
    run, s := More(run, s, Deliver(0));
    run, s := More(run, s, Upload(0, false, false));
    assert [] + [FirstUpload()] == one;
    Crashes(s, 600.0, held, Copy(Inflight, 1, 600.0), 1, 1, Store().Keys, ToPublish(TurnAt(600.0)), Store(), one);
    run, s := More(run, s, Crash(0));
    ComesBack(s, 600.0, 1200.0, held, Copy(Inflight, 1, 600.0), 1, 1, Store(), one);
    run, s := More(run, s, Tick(1200.0));
    run, s := More(run, s, Reclaim(1));
    TakesCopy(s, 1200.0, held, Copy(Pending, 1, 600.0), 1, 1, 600.0, Store(), one);
    run, s := More(run, s, Claim(0, 1, CONFIG));
    SendsAgain(s, 1200.0, held, Copy(Inflight, 2, 1200.0), 2, one);
    run, s := More(run, s, Lookup(0, true));
    run, s := More(run, s, Deliver(0));
    run, s := More(run, s, Upload(0, false, false));
    assert one + [SecondUpload()] == [FirstUpload(), SecondUpload()];
  }

  /** Two uploads on a path that allows one, by workers configured for one: the excess is
      the receive of the second copy that came before the saving one. */
  lemma APathCanExceedItsRounds() returns (run: seq<Action>, path: seq<Lease>)
    ensures var s := Run(Initial(LIMITS), run);
            && path == [Lease(1, 1), Lease(1, 2)] && Path(s, ARTIFACT, path) && Ceiling(s, ARTIFACT, path, 1)
            && Allowed(s, ARTIFACT, path[0]) == 1
            && UploadsOn(s, ARTIFACT, path) == {0, 1} && EarlyOn(s, ARTIFACT, path) == {0}
  {
    var s;
    run, s := SentTwice();
    path := [Lease(1, 1), Lease(1, 2)];
    assert Load(s.store, JOB, ARTIFACT) == Some(SavedEnvelope());
    assert OnCallback(s, ARTIFACT, path[0]) && OnCallback(s, ARTIFACT, path[1]);
    assert Path(s, ARTIFACT, path);
    assert s.uploads[0].lease == path[0] && s.uploads[1].lease == path[1];
    assert UploadsOn(s, ARTIFACT, path) == {0, 1};
  }
}
