/**
 The queue of tiers: a fast lane, the main queue, the backlog, and apart from all
 three the dead letters.
 */
module SqsQueue {
  import opened Wrappers
  import opened Numbers
  import Delivery

  // ---- names ------------------------------------------------------------

  /** What `strip` takes for a space in ASCII: the blank, the five from tab to carriage return
      and the four separators. */
  predicate IsSpace(c: char) { c == ' ' || '\t' <= c <= '\r' || 28 <= c as int <= 31 }

  function DropSpaces(s: string): string
    decreases |s|
  {
    if s != "" && IsSpace(s[0]) then DropSpaces(s[1..]) else s
  }

  function DropLastSpaces(s: string): string
    decreases |s|
  {
    if s != "" && IsSpace(s[|s| - 1]) then DropLastSpaces(s[..|s| - 1]) else s
  }

  function DropSlashes(s: string): string
    decreases |s|
  {
    if s != "" && s[|s| - 1] == '/' then DropSlashes(s[..|s| - 1]) else s
  }

  /** `url.strip().rstrip("/")` */
  function Normal(url: string): string { DropSlashes(DropLastSpaces(DropSpaces(url))) }

  predicate EndsInSpace(s: string) { s != "" && IsSpace(s[|s| - 1]) }

  lemma {:induction false} SlashesLeave(s: string)
    ensures DropSlashes(s) <= s
    ensures var r := DropSlashes(s); r == "" || r[|r| - 1] != '/'
    decreases |s|
  {
    if s != "" && s[|s| - 1] == '/' {
      SlashesLeave(s[..|s| - 1]);
    }
  }

  lemma {:induction false} LastSpacesLeave(s: string)
    ensures DropLastSpaces(s) <= s
    decreases |s|
  {
    if s != "" && IsSpace(s[|s| - 1]) {
      LastSpacesLeave(s[..|s| - 1]);
    }
  }

  lemma {:induction false} SpacesLeave(s: string)
    ensures var r := DropSpaces(s); r == "" || !IsSpace(r[0])
    decreases |s|
  {
    if s != "" && IsSpace(s[0]) {
      SpacesLeave(s[1..]);
    }
  }

  /** A name that has been normalised stays as it is when normalised again exactly when it
      does not end in a space. */
  lemma NormalTwice(url: string)
    ensures Normal(Normal(url)) == Normal(url) <==> !EndsInSpace(Normal(url))
  {
    var bare := DropLastSpaces(DropSpaces(url));
    var r := Normal(url);
    SpacesLeave(url);
    LastSpacesLeave(DropSpaces(url));
    SlashesLeave(bare);
    assert DropSpaces(r) == r;
    if EndsInSpace(r) {
      LastSpacesLeave(r[..|r| - 1]);
      SlashesLeave(DropLastSpaces(r));
      assert |Normal(r)| < |r|;
    } else {
      assert DropLastSpaces(r) == r;
    }
  }

  predicate SpaceCode(c: char) { c as int in {9, 10, 11, 12, 13, 28, 29, 30, 31, 32} }

  predicate Spaces(s: string) { forall k :: 0 <= k < |s| ==> SpaceCode(s[k]) }

  lemma {:induction false} SpacesDropped(s: string) returns (i: nat)
    ensures i <= |s| && Spaces(s[..i]) && DropSpaces(s) == s[i..] && (i < |s| ==> !SpaceCode(s[i]))
    decreases |s|
  {
    i := 0;
    if s != "" && IsSpace(s[0]) {
      var j := SpacesDropped(s[1..]);
      i := j + 1;
      assert s[..i] == [s[0]] + s[1..][..j];
      assert s[1..][j..] == s[i..];
    }
  }

  lemma {:induction false} LastSpacesDropped(s: string) returns (j: nat)
    ensures j <= |s| && Spaces(s[j..]) && DropLastSpaces(s) == s[..j] && (j > 0 ==> !SpaceCode(s[j - 1]))
    decreases |s|
  {
    j := |s|;
    if s != "" && IsSpace(s[|s| - 1]) {
      var front := s[..|s| - 1];
      j := LastSpacesDropped(front);
      assert s[j..] == front[j..] + [s[|s| - 1]];
      assert front[..j] == s[..j];
    }
  }

  lemma {:induction false} SlashesDropped(s: string) returns (j: nat)
    ensures j <= |s| && (forall k :: j <= k < |s| ==> s[k] == '/') && DropSlashes(s) == s[..j]
    ensures j > 0 ==> s[j - 1] != '/'
    decreases |s|
  {
    j := |s|;
    if s != "" && s[|s| - 1] == '/' {
      var front := s[..|s| - 1];
      j := SlashesDropped(front);
      assert front[..j] == s[..j];
    }
  }

  /** A name as it is kept: all spaces are taken off both ends, and then all slashes off the
      right one. */
  lemma NormalIs(url: string) returns (i: nat, j: nat, k: nat)
    ensures i <= j <= k <= |url| && Normal(url) == url[i..j]
    ensures Spaces(url[..i]) && Spaces(url[k..]) && forall n :: j <= n < k ==> url[n] == '/'
    ensures i < k ==> !SpaceCode(url[i]) && !SpaceCode(url[k - 1])
    ensures i < j ==> url[j - 1] != '/'
  {
    i := SpacesDropped(url);
    var bare := url[i..];
    var m := LastSpacesDropped(bare);
    k := i + m;
    assert bare[..m] == url[i..k] && bare[m..] == url[k..];
    var n := SlashesDropped(bare[..m]);
    j := i + n;
    assert bare[..m][..n] == url[i..j];
  }

  // ---- backoff ----------------------------------------------------------

  function BackoffSeconds(attempt: int): nat {
    Min(2 * Delivery.Pow2(Max(0, attempt - 1)), 300)
  }

  /** A released job waits as long as a failed callback of the same attempt would: twice
      as long each time, from 2 seconds to 300. */
  lemma BackoffDoubles(attempt: nat)
    requires attempt >= 1
    ensures BackoffSeconds(attempt) == Delivery.Backoff(attempt)
    ensures 2 <= BackoffSeconds(attempt) <= 300
    ensures BackoffSeconds(attempt + 1) == Min(2 * BackoffSeconds(attempt), 300)
  {
    Delivery.BackoffIsExponential(attempt);
    Delivery.Pow2Positive(attempt - 1);
    assert Delivery.Pow2(attempt) == 2 * Delivery.Pow2(attempt - 1);
  }

  // ---- the queue --------------------------------------------------------

  datatype Error = SameAsTier | NotATier | NoDeadLetters | BadDelay | Unreachable

  /** What one tier answers: nothing, a body that does not parse, or a job with its
      receive count. */
  datatype Reply<+J> = Silent | Poison(receipt: string) | Job(job: J, receipt: string, received: nat) | Down

  datatype Lease<+J> = Lease(job: J, receipt: string, attempt: nat, url: string)

  /** The lease is the one this tier's answer grants. */
  predicate Granted<J(==)>(a: Reply<J>, url: string, l: Lease<J>) {
    a.Job? && l == Lease(a.job, a.receipt, a.received, url)
  }

  /** One request to the service. */
  datatype Request<+J> =
    | Receive(url: string, wait: nat)
    | Send(url: string, job: J, delay: int)
    | Delete(url: string, receipt: string)
    | Hide(url: string, receipt: string, seconds: nat)

  class SqsJobQueue<J(==)> {
    const primary: string
    const secondary: string
    const priority: string
    const deadLetters: string
    const waitTime: nat
    /** Every request made, oldest first. */
    var log: seq<Request<J>>

    /** The dead letters are none of the tiers. */
    predicate Apart() { deadLetters != "" ==> deadLetters !in {primary, secondary, priority} }

    constructor (primary: string, secondary: string, priority: string, deadLetters: string, waitTime: nat)
      ensures this.primary == Normal(primary) && this.secondary == Normal(secondary)
      ensures this.priority == Normal(priority) && this.deadLetters == Normal(deadLetters)
      ensures this.waitTime == waitTime && log == []
    {
      this.primary, this.secondary := Normal(primary), Normal(secondary);
      this.priority, this.deadLetters := Normal(priority), Normal(deadLetters);
      this.waitTime := waitTime;
      log := [];
    }

    /** Refuses a configuration whose dead letters would be polled. */
    static method Open(primary: string, secondary: string, priority: string, deadLetters: string, waitTime: nat)
      returns (r: Result<SqsJobQueue<J>, Error>)
      ensures r.Ok? <==>
                Normal(deadLetters) == ""
                || Normal(deadLetters) !in {Normal(primary), Normal(secondary), Normal(priority)}
      ensures r.Ok? ==> r.value.Apart() && fresh(r.value) && r.value.log == []
                        && r.value.primary == Normal(primary) && r.value.deadLetters == Normal(deadLetters)
                        && r.value.secondary == Normal(secondary) && r.value.priority == Normal(priority)
    {
      var q := new SqsJobQueue(primary, secondary, priority, deadLetters, waitTime);
      r := if q.Apart() then Ok(q) else Err(SameAsTier);
    }

    /** The tiers polled, best first. */
    function Tiers(): (tiers: seq<string>)
      ensures forall u :: u in tiers <==> u != "" && u in {primary, secondary, priority}
    {
      (if priority != "" then [priority] else []) + (if primary != "" then [primary] else [])
      + (if secondary != "" then [secondary] else [])
    }

    /** How long the k-th tier is polled: all of them briefly when there is a fast lane. */
    function WaitFor(k: nat): nat { if priority != "" || k > 0 then 0 else waitTime }

    /** The polls of the first n tiers, with the bodies thrown away on the way. */
    function Polls(reply: string -> Reply<J>, n: nat): seq<Request<J>>
      requires n <= |Tiers()|
      decreases n
    {
      if n == 0 then []
      else
        var url := Tiers()[n - 1];
        Polls(reply, n - 1) + [Receive(url, WaitFor(n - 1))]
        + (if reply(url).Poison? then [Delete(url, reply(url).receipt)] else [])
    }

    /** Nothing to claim at this address: no tier, no message, or one that is thrown away. */
    predicate Quiet(reply: string -> Reply<J>, url: string) {
      url == "" || reply(url).Silent? || reply(url).Poison?
    }

    /** The requests made of one address. */
    function Asked(reply: string -> Reply<J>, url: string, wait: nat): seq<Request<J>> {
      if url == "" then []
      else [Receive(url, wait)] + if reply(url).Poison? then [Delete(url, reply(url).receipt)] else []
    }

    /** The fast lane is asked first, then the main queue, then the backlog; the first of the
        three has the long poll, unless there is a fast lane. */
    lemma PollsByName(reply: string -> Reply<J>)
      ensures Polls(reply, |Tiers()|) ==
                Asked(reply, priority, 0) + Asked(reply, primary, if priority == "" then waitTime else 0)
                + Asked(reply, secondary, if priority == "" && primary == "" then waitTime else 0)
    {
      var one, two := if priority == "" then waitTime else 0, if priority == "" && primary == "" then waitTime else 0;
      NothingAsked(reply, 0);
      NothingAsked(reply, one);
      NothingAsked(reply, two);
      OnePoll(reply, 0);
      OnePoll(reply, 1);
      OnePoll(reply, 2);
      hide Polls, Asked;
      var tiers := Tiers();
      if priority == "" {
        assert tiers == (if primary != "" then [primary] else []) + if secondary != "" then [secondary] else [];
      }
    }

    lemma NothingAsked(reply: string -> Reply<J>, wait: nat)
      ensures Asked(reply, "", wait) == []
    {
    }

    lemma OnePoll(reply: string -> Reply<J>, n: nat)
      ensures Polls(reply, 0) == []
      ensures n < |Tiers()| ==> Polls(reply, n + 1) == Polls(reply, n) + Asked(reply, Tiers()[n], WaitFor(n))
    {
      assert n < |Tiers()| ==> Tiers()[n] in Tiers();
    }

    lemma FirstByName(reply: string -> Reply<J>, k: nat)
      requires IsFirst(reply, k) && !Quiet(reply, Tiers()[k])
      ensures Tiers()[k] == if !Quiet(reply, priority) then priority else if !Quiet(reply, primary) then primary
                            else secondary
    {
      var tiers := Tiers();
      assert k > 0 ==> Quiet(reply, tiers[0]);
      assert k > 1 ==> Quiet(reply, tiers[1]);
      assert Quiet(reply, "");
    }

    /** The best tier with an answer wins; a body that does not parse is deleted and counts
        as none.  A tier that cannot be reached ends the claim. */
    method Claim(reply: string -> Reply<J>) returns (r: Result<Option<Lease<J>>, Error>)
      modifies this`log
      ensures match r
              case Ok(None) =>
                (forall k :: 0 <= k < |Tiers()| ==> var a := reply(Tiers()[k]); a.Silent? || a.Poison?)
                && log == old(log) + Polls(reply, |Tiers()|)
              case Ok(Some(l)) =>
                (exists k :: 0 <= k < |Tiers()| && IsFirst(reply, k) && Granted(reply(Tiers()[k]), Tiers()[k], l)
                             && log == old(log) + Polls(reply, k + 1))
              case Err(e) =>
                e == Unreachable
                && (exists k :: 0 <= k < |Tiers()| && IsFirst(reply, k) && reply(Tiers()[k]).Down?
                                && log == old(log) + Polls(reply, k + 1))
      ensures var url := if !Quiet(reply, priority) then priority else if !Quiet(reply, primary) then primary else secondary;
              && (r == Ok(None) <==> Quiet(reply, priority) && Quiet(reply, primary) && Quiet(reply, secondary))
              && (r.Ok? && r.value.Some? ==>
                    reply(url).Job? && r.value.value == Lease(reply(url).job, reply(url).receipt, reply(url).received, url))
              && (r.Err? ==> reply(url).Down?)
    {
      var tiers := Tiers();
      var k := 0;
      while k < |tiers|
        invariant 0 <= k <= |tiers|
        invariant forall j :: 0 <= j < k ==> var a := reply(tiers[j]); a.Silent? || a.Poison?
        invariant log == old(log) + Polls(reply, k)
      {
        var url := tiers[k];
        log := log + [Receive(url, WaitFor(k))];
        var answer := reply(url);
        if answer.Poison? {
          log := log + [Delete(url, answer.receipt)];
        }
        assert log == old(log) + Polls(reply, k + 1);
        if answer.Down? {
          assert IsFirst(reply, k);
          FirstByName(reply, k);
          return Err(Unreachable);
        } else if answer.Job? {
          assert IsFirst(reply, k);
          FirstByName(reply, k);
          return Ok(Some(Lease(answer.job, answer.receipt, answer.received, url)));
        }
        k := k + 1;
      }
      forall url | url in {priority, primary, secondary}
        ensures Quiet(reply, url)
      {
        if url != "" {
          assert url in tiers;
        }
      }
      r := Ok(None);
    }

    /** No better tier has a job or is down. */
    predicate IsFirst(reply: string -> Reply<J>, k: nat) {
      k < |Tiers()| && forall j :: 0 <= j < k ==> var a := reply(Tiers()[j]); a.Silent? || a.Poison?
    }

    /** Where a message for this tier is sent: a nameless one is for the main queue. */
    function Target(tier: string): string { if Normal(tier) == "" then primary else Normal(tier) }

    predicate IsTier(url: string) { url in {primary, priority, secondary} }

    /** At most one message is sent, and then with a delay the service takes: to a polled tier,
        or if it is dead-lettered to the dead letters, and never where the other would go. */
    method Publish(job: J, tier: string, delay: int, dead: bool, up: bool) returns (r: Result<(), Error>)
      modifies this`log
      ensures var url := if Normal(tier) == "" then primary else Normal(tier);
              Target(tier) == url && (r == Err(NotATier) <==> url !in {primary, priority, secondary})
      ensures r == Err(NoDeadLetters) <==> IsTier(Target(tier)) && dead && deadLetters == ""
      ensures r == Err(BadDelay) <==> IsTier(Target(tier)) && !(dead && deadLetters == "") && !(0 <= delay <= 900)
      ensures log == if r.Ok? || r == Err(Unreachable) then
                       old(log) + [Send(if dead then deadLetters else Target(tier), job, delay)]
                     else old(log)
      ensures r.Ok? || r == Err(Unreachable) <==>
                IsTier(Target(tier)) && !(dead && deadLetters == "") && 0 <= delay <= 900
      ensures r.Ok? ==> up
      ensures Apart() && primary != "" && log != old(log) ==>
                var sent := log[|old(log)|];
                sent.Send? && 0 <= sent.delay <= 900
                && if dead then sent.url == deadLetters && sent.url !in Tiers()
                   else sent.url in Tiers() && sent.url != deadLetters
    {
      var target := Normal(tier);
      if target == "" {
        target := primary;
      }
      if target !in {primary, priority, secondary} {
        return Err(NotATier);
      }
      if dead {
        target := deadLetters;
        if target == "" {
          return Err(NoDeadLetters);
        }
      }
      if !(0 <= delay <= 900) {
        return Err(BadDelay);
      }
      log := log + [Send(target, job, delay)];
      r := if up then Ok(()) else Err(Unreachable);
    }

    /** A job is finished with on the queue it came from. */
    method Complete(l: Lease<J>, up: bool) returns (r: Result<(), Error>)
      modifies this`log
      ensures log == old(log) + [Delete(if l.url == "" then primary else l.url, l.receipt)] && r.Ok? == up
    {
      log := log + [Delete(if l.url == "" then primary else l.url, l.receipt)];
      r := if up then Ok(()) else Err(Unreachable);
    }

    method Release(l: Lease<J>, up: bool) returns (r: Result<(), Error>)
      modifies this`log
      ensures log == old(log) + [Hide(if l.url == "" then primary else l.url, l.receipt, BackoffSeconds(l.attempt))]
      ensures r.Ok? == up
    {
      log := log + [Hide(if l.url == "" then primary else l.url, l.receipt, BackoffSeconds(l.attempt))];
      r := if up then Ok(()) else Err(Unreachable);
    }

    /** Whatever the service answers, the dead letters are never received from, and nothing
        received is deleted from them. */
    lemma {:induction false} DeadLettersAreNeverPolled(reply: string -> Reply<J>, n: nat)
      requires Apart() && deadLetters != "" && n <= |Tiers()|
      ensures forall q :: q in Polls(reply, n) ==> !q.Send? && q.url != deadLetters
      decreases n
    {
      if n > 0 {
        DeadLettersAreNeverPolled(reply, n - 1);
        assert Tiers()[n - 1] in Tiers();
      }
    }

    /** A lease names the tier it came from.  A callback published for that tier is sent to it
        exactly when its name does not end in a space, or is the main queue's and nothing is
        left of it once it is normalised again. */
    lemma OwnTierIsTarget(url: string, configured: string)
      requires url in Tiers() && url == Normal(configured)
      ensures Target(url) == url <==> !EndsInSpace(url) || (url == primary && Normal(url) == "")
    {
      NormalTwice(configured);
    }
  }

  /** Otherwise it can even be taken, and sent to another tier: here the fast lane's name
      keeps a space, and what is meant for it goes to the backlog. */
  method ACallbackCanGoAstray() returns (own: string, log: seq<Request<string>>)
    ensures own == Normal("a /") && log == [Send("a", "callback", 0)] && own != "a"
  {
    ASpaceBeforeTheSlash();
    PlainNames();
    var queue := SqsJobQueue<string>.Open("q", "a", "a /", "", 20);
    own := queue.value.priority;
    var sent := queue.value.Publish("callback", own, 0, false, true);
    log := queue.value.log;
  }

  lemma PlainNames()
    ensures Normal("q") == "q" && Normal("a") == "a" && Normal("") == ""
  {
    assert DropSlashes("q") == "q" && DropSlashes("a") == "a";
  }

  /** Such a name exists. */
  lemma ASpaceBeforeTheSlash()
    ensures Normal("a /") == "a " && Normal(Normal("a /")) == "a"
  {
    assert "a /"[..2] == "a ";
    assert "a "[..1] == "a";
    assert DropSpaces("a /") == "a /";
    assert DropLastSpaces("a /") == "a /";
    assert DropSlashes("a /") == DropSlashes("a ");
    assert DropLastSpaces("a ") == DropLastSpaces("a");
  }
}
