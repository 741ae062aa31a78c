/**
 The lease queue as one message at a time sees it.

 A message is known by the number of its publication.  It is pending, in
 flight, dead-lettered or done; a delivery is the pair of its number and the
 receive count it was handed out with.
 */
module LeaseQueue {
  import opened Wrappers
  import opened FileNames

  datatype Place = Pending | Inflight | Dead | Done

  /** `body` is None when the bytes do not parse as a job; `stamp` is the file's
      modification time, which starts the visibility timeout. */
  datatype Msg<+B> = Msg(body: Option<B>, due: Option<nat>, place: Place, attempts: nat, stamp: real)

  datatype Lease = Lease(id: nat, attempt: nat)

  datatype Limits = Limits(cap: nat, visibility: real)

  /** `int(t * 1000)` for the clock readings used here, which are not negative. */
  function Millis(t: real): int { (t * 1000.0).Floor }

  // ---- what each operation does to one message --------------------------

  function Fresh<B>(body: Option<B>, due: Option<nat>, dead: bool, now: real): Msg<B> {
    Msg(body, due, if dead then Dead else Pending, 0, now)
  }

  predicate Expired<B>(m: Msg<B>, now: real, visibility: real) {
    m.place == Inflight && m.stamp <= now - visibility
  }

  function Reclaimed<B>(m: Msg<B>): Msg<B> { m.(place := Pending) }

  predicate Offered<B>(m: Msg<B>, now: real) { m.place == Pending && IsDue(m.due, Millis(now)) }

  /** What a claim always quarantines instead of handing out.  (A claim also
      quarantines a message whose file it cannot read.) */
  predicate Poisoned<B>(m: Msg<B>, cap: nat) { m.body.None? || m.attempts + 1 > cap }

  function Quarantined<B>(m: Msg<B>): Msg<B> { m.(place := Dead) }

  function Leased<B>(m: Msg<B>, now: real): Msg<B> {
    m.(place := Inflight, attempts := m.attempts + 1, stamp := now)
  }

  /** A claim that raised half way: moved, and counted or not, but never handed out. */
  function Stuck<B>(m: Msg<B>, counted: bool): Msg<B> {
    m.(place := Inflight, attempts := if counted then m.attempts + 1 else m.attempts)
  }

  /** The file a lease's receipt names is there. */
  predicate Held<B>(m: Msg<B>, attempt: nat) { m.place == Inflight && m.attempts == attempt }

  function Completed<B>(m: Msg<B>, attempt: nat): Msg<B> {
    if Held(m, attempt) then m.(place := Done) else m
  }

  function Released<B>(m: Msg<B>, attempt: nat): Msg<B> {
    if Held(m, attempt) then m.(place := Pending) else m
  }
}
