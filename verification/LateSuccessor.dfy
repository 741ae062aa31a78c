/**
 One run in which a successor that is not dead-lettered falls due after its deadline:
 the clock is read before the upload, and the upload takes its time.
 */
module LateSuccessor {
  import opened Wrappers
  import opened LeaseQueue
  import opened Executor
  import opened Delivery
  import opened Protocol
  import opened Chains

  const LATE_CONFIG := Config(true, true, false, "w", 4.0, 8)

  const LATE_JOB := Job("j", Some("t"), false, false, "", None)

  /** Judged, saved, decided on at once, and three seconds in sending. */
  function LateRun(): (run: seq<Action>)
    ensures |run| == 9
  {
    [Submit(Some(LATE_JOB), None, "")] + [Claim(0, 0, LATE_CONFIG)] + [Lookup(0, true)]
    + [Execute(0, Unprepared("no source"), Outcome(Failed, None, None, ""))] + [Persist(0, 0, Written)]
    + [Deliver(0)] + [Tick(3.0)] + [Upload(0, false, false)] + [Publish(0, Written)]
  }

  predicate LatePass(s: State, phase: Phase) {
    && |s.msgs| == 1 && |s.origins| == 1 && s.msgs[0].body == Some(LATE_JOB) && s.origins[0].tier == ""
    && s.limits == Limits(5, 600.0)
    && s.passes == map[0 := Pass(Lease(0, 1), LATE_JOB, LATE_CONFIG, {}, phase)]
  }

  function LateResult(): JobResult { JobResult("j", Some("t"), Outcome(Failed, None, None, "no source")) }

  function LateEnvelope(): Envelope { Enveloped(LATE_JOB, LateResult(), LATE_CONFIG, "", 1, 0.0) }

  lemma LateClaim(s: State)
    requires s == Initial(Limits(5, 600.0))
    ensures var t := Step(Step(s, Submit(Some(LATE_JOB), None, "")), Claim(0, 0, LATE_CONFIG));
            LatePass(t, Started) && t.store == map[] && t.now == 0.0
  {
    var s1 := Step(s, Submit(Some(LATE_JOB), None, ""));
    assert s1.msgs == [Fresh(Some(LATE_JOB), None, false, 0.0)] && s1.passes == map[] && s1.store == map[];
    assert s1.store.Keys == {} && ConfigOk(LATE_CONFIG);
    assert Offered(s1.msgs[0], 0.0) && !Poisoned(s1.msgs[0], 5);
    var s2 := Step(s1, Claim(0, 0, LATE_CONFIG));
    assert s2 == DoClaim(s1, 0, 0, LATE_CONFIG);
  }

  lemma LateJudging(s: State)
    requires LatePass(s, Started) && s.store == map[] && s.now == 0.0
    ensures var t := Step(Step(Step(s, Lookup(0, true)),
                               Execute(0, Unprepared("no source"), Outcome(Failed, None, None, ""))),
                          Persist(0, 0, Written));
            LatePass(t, ToDeliver(Saved("t", 0), LateEnvelope())) && t.now == 0.0
  {
    assert AttemptKeys(s.store, "j", "t") == {};
    var s1 := Step(s, Lookup(0, true));
    assert LatePass(s1, ToExecute) && s1.store == map[];
    var s2 := Step(s1, Execute(0, Unprepared("no source"), Outcome(Failed, None, None, "")));
    assert LatePass(s2, ToPersist(LateResult())) && s2.store == map[];
  }

  function LateTurn(e: Envelope): Turn {
    Turn(Saved("t", 0), e, DeliveryState(Saved("t", 0), 0, 4.0, 8, false), 1, 8, 8, 0.0)
  }

  lemma LateDecision(s: State)
    requires LatePass(s, ToDeliver(Saved("t", 0), LateEnvelope())) && s.now == 0.0
    ensures var t := Step(Step(s, Deliver(0)), Tick(3.0));
            LatePass(t, Uploading(LateTurn(LateEnvelope()))) && t.now == 3.0
  {
    var s1 := Step(s, Deliver(0));
    assert LatePass(s1, Uploading(LateTurn(LateEnvelope())));
  }

  lemma LateUpload(s: State, turn: Turn)
    requires LatePass(s, Uploading(turn)) && s.now == 3.0
    ensures var t := Step(s, Upload(0, false, false)); LatePass(t, ToPublish(turn)) && t.now == 3.0
  {
    hide DoWorld, DoClaim, DoLookup, DoExecute, DoPersist, DoDeliver, DoPublish, DoComplete, DoRelease, PayloadSent;
  }

  lemma LateNext(e: Envelope)
    ensures var next := Next(LateTurn(e)); !next.exhausted && next.deadline == 4.0 && DelayOf(next) == 2
    ensures DueAt(3.0, 2) == 5000
  {
    assert Pow2(1) == 2;
    assert Millis(5.0) == 5000;
  }

  lemma LatePublication(s: State, turn: Turn)
    requires LatePass(s, ToPublish(turn)) && s.now == 3.0
    ensures var t := Step(s, Publish(0, Written));
            |t.msgs| == 2 && t.msgs[1].body == Some(Message(turn.envelope, Next(turn)))
            && t.msgs[1].due == Some(DueAt(3.0, DelayOf(Next(turn))))
  {
    hide DoWorld, DoClaim, DoLookup, DoExecute, DoPersist, DoDeliver, DoUpload, DoComplete, DoRelease, Message, Next,
         DelayOf, DueAt;
  }

  lemma LateSending(s: State)
    requires LatePass(s, Uploading(LateTurn(LateEnvelope()))) && s.now == 3.0
    ensures var t := Step(Step(s, Upload(0, false, false)), Publish(0, Written));
            |t.msgs| == 2 && IsMarker(t, 1) && !MarkerOf(t, 1).exhausted && MarkerOf(t, 1).deadline == 4.0
            && t.msgs[1].due == Some(5000)
  {
    var e := LateEnvelope();
    LateNext(e);
    hide LatePass, LateEnvelope, LateTurn, Next, DelayOf, DueAt, Step;
    LateUpload(s, LateTurn(e));
    LatePublication(Step(s, Upload(0, false, false)), LateTurn(e));
  }

  /** A successor that is not dead-lettered can fall due after its deadline: here it falls
      due at 5 seconds, and its deadline is 4. */
  lemma ASuccessorCanFallDueLate()
    ensures var s := Run(Initial(Limits(5, 600.0)), LateRun());
            |s.msgs| == 2 && IsMarker(s, 1) && !MarkerOf(s, 1).exhausted && MarkerOf(s, 1).deadline == 4.0
            && s.msgs[1].due == Some(5000)
  {
    var s, run := Initial(Limits(5, 600.0)), LateRun();
    UnrollNine(s, run);
    LateClaim(s);
    var s2 := Step(Step(s, run[0]), run[1]);
    LateJudging(s2);
    var s5 := Step(Step(Step(s2, run[2]), run[3]), run[4]);
    LateDecision(s5);
    LateSending(Step(Step(s5, run[5]), run[6]));
  }

  lemma UnrollNine(s: State, run: seq<Action>)
    requires |run| == 9
    ensures Run(s, run) == Step(Step(Step(Step(Step(Step(Step(Step(Step(s, run[0]), run[1]), run[2]), run[3]), run[4]),
                                                    run[5]), run[6]), run[7]), run[8])
  {
    hide Step;
    assert run[..9] == run && Run(s, run[..0]) == s;
    UnrollOne(s, run, 0);
    UnrollOne(s, run, 1);
    UnrollOne(s, run, 2);
    UnrollOne(s, run, 3);
    UnrollOne(s, run, 4);
    UnrollOne(s, run, 5);
    UnrollOne(s, run, 6);
    UnrollOne(s, run, 7);
    UnrollOne(s, run, 8);
  }
}
