/** `LambdaCloudClient.terminate_and_wait` (scripts/lambda_gpu_guard.py:275-314):
    the requests it makes, as a machine over its observations, and the polling
    loop as a method that is proved to follow that machine. */
module TerminationCall {

  datatype Status = Booting | Active | Unhealthy | Terminating | Terminated | Preempted

  /** The listing's answer for one instance id. */
  datatype Sight = Absent | Present(status: Status) {
    predicate Final() { Absent? || status.Terminated? || status.Preempted? }
  }

  datatype Listing = Listed(sight: Sight) | ListingFailed
  datatype Acknowledgement = Acknowledged | RequestFailed

  datatype Event = Got(listing: Listing) | Posted(answer: Acknowledgement) | Timed(expired: bool)

  /** `final_status` is the sight itself: "absent" or one of the terminal names. */
  datatype Termination = Termination(final: Sight, requestSent: bool)

  /** Where a call stands.  `Poll(refused)`: the request was made and its error,
      if any, is being held back until the next listing. */
  datatype Phase =
    | Lookup
    | Request
    | Poll(refused: bool)
    | Deciding
    | Returned(result: Termination)
    | Raised
    | Impossible

  function Next(p: Phase, e: Event): Phase {
    match (p, e)
    case (Lookup, Got(Listed(s))) => if s.Final() then Returned(Termination(s, false)) else Request
    case (Lookup, Got(ListingFailed)) => Raised
    case (Request, Posted(a)) => Poll(a.RequestFailed?)
    case (Poll(refused), Got(Listed(s))) =>
      if s.Final() then Returned(Termination(s, !refused))
      else if refused then Raised
      else Deciding
    case (Poll(_), Got(ListingFailed)) => Raised
    case (Deciding, Timed(expired)) => if expired then Raised else Poll(false)
    case _ => Impossible
  }

  function Run(es: seq<Event>): Phase {
    if es == [] then Lookup else Next(Run(es[..|es| - 1]), es[|es| - 1])
  }

  predicate SawFinal(e: Event) { e.Got? && e.listing.Listed? && e.listing.sight.Final() }

  /** The statuses from which an instance does not come back, and none besides. */
  lemma FinalSights(s: Sight)
    ensures s.Final() <==> s == Absent || s == Present(Terminated) || s == Present(Preempted)
  {
  }

  function PostCount(es: seq<Event>): nat {
    if es == [] then 0 else PostCount(es[..|es| - 1]) + if es[|es| - 1].Posted? then 1 else 0
  }

  /** Every call, finished or not: one POST at most, and no confirmed sighting is
      ever followed by anything, so none is lost and none is invented. */
  lemma {:induction false} CallDiscipline(es: seq<Event>)
    requires !Run(es).Impossible?
    ensures PostCount(es) <= 1
    ensures PostCount(es) == 0 <== Run(es).Lookup? || Run(es).Request?
    ensures Run(es).Poll? || Run(es).Deciding? ==> PostCount(es) == 1
    ensures Run(es).Poll? || Run(es).Deciding? ==>
      (Posted(Acknowledged) in es <==> !(Run(es).Poll? && Run(es).refused))
    ensures Run(es).Returned? <==> exists e :: e in es && SawFinal(e)
    ensures Run(es).Returned? ==>
      && es[|es| - 1] == Got(Listed(Run(es).result.final))
      && Run(es).result.final.Final()
      && (Run(es).result.requestSent <==> Posted(Acknowledged) in es)
    ensures Run(es).Lookup? || Run(es).Request? ==> Posted(Acknowledged) !in es
  {
    if es != [] {
      var init, last := es[..|es| - 1], es[|es| - 1];
      CallDiscipline(init);
      assert es == init + [last];
      assert forall e :: e in es <==> e in init || e == last;
      if Run(es).Returned? { assert SawFinal(last); }
    }
  }

  /** A failed listing or the passed deadline ends the call at once; a failed request is held back for
      one more listing; nothing else makes a call fail. */
  lemma {:induction false} WhatFailsACall(es: seq<Event>)
    requires !Run(es).Impossible?
    ensures Got(ListingFailed) in es || Timed(true) in es ==> Run(es).Raised?
    ensures Posted(RequestFailed) in es ==> Run(es) == Poll(true) || Run(es).Raised? || Run(es).Returned?
    ensures Run(es) == Poll(true) ==> es[|es| - 1] == Posted(RequestFailed)
    ensures Run(es).Raised? ==> Got(ListingFailed) in es || Timed(true) in es || Posted(RequestFailed) in es
  {
    hide Next;
    if es != [] {
      var init, last := es[..|es| - 1], es[|es| - 1];
      HowItGoesOn(Run(init), last);
      WhatFailsACall(init);
      assert es == init + [last];
      assert forall e :: e in es <==> e in init || e == last;
    }
  }

  lemma HowItGoesOn(p: Phase, e: Event)
    requires !Next(p, e).Impossible?
    ensures !p.Raised? && !p.Returned? && !p.Impossible?
    ensures e == Got(ListingFailed) || e == Timed(true) ==> Next(p, e).Raised?
    ensures Next(p, e).Raised? ==> e == Got(ListingFailed) || e == Timed(true) || p == Poll(true)
    ensures Next(p, e) == Poll(true) <==> e == Posted(RequestFailed)
    ensures p == Poll(true) ==> Next(p, e).Raised? || Next(p, e).Returned?
  {
  }

  // ---- The client, its provider and its clock ---------------------------------

  /** `max(1, poll_seconds)`. */
  function Pace(pollSeconds: nat): nat {
    if pollSeconds > 1 then pollSeconds else 1
  }

  /** The length of n waits. */
  function Waits(n: nat, each: nat): nat {
    if n == 0 then 0 else Waits(n - 1, each) + each
  }

  const SECOND: nat := 1_000_000

  datatype Outcome = Confirmed(result: Termination) | Failed

  /** The provider's answers and delays, the lag of clock readings and sleeps, and the wall clock
      are scripts fixed in advance and otherwise arbitrary; the counters say how far each was read. */
  class World {
    const listings: nat -> Listing
    const requests: nat -> Acknowledgement
    const listingDelay: nat -> nat
    const requestDelay: nat -> nat
    const lag: nat -> nat
    const walls: nat -> int
    var listed: nat
    var requested: nat
    var walled: nat
    var operations: nat
    var mono: nat
    ghost var events: seq<Event>  // those of the latest call

    constructor (listings: nat -> Listing, requests: nat -> Acknowledgement,
                 listingDelay: nat -> nat, requestDelay: nat -> nat, lag: nat -> nat, walls: nat -> int)
      ensures this.listings == listings && this.requests == requests && this.lag == lag && this.walls == walls
      ensures this.listingDelay == listingDelay && this.requestDelay == requestDelay
      ensures events == [] && mono == 0
    {
      this.listings, this.requests, this.lag, this.walls := listings, requests, lag, walls;
      this.listingDelay, this.requestDelay := listingDelay, requestDelay;
      listed, requested, walled, operations, mono := 0, 0, 0, 0, 0;
      events := [];
    }

    method Elapse(duration: nat)
      modifies this`mono, this`operations
      ensures mono == old(mono) + duration + lag(old(operations)) && operations == old(operations) + 1
    {
      mono := mono + duration + lag(operations);
      operations := operations + 1;
    }

    method Sleep(duration: nat)
      modifies this`mono, this`operations
      ensures mono == old(mono) + duration + lag(old(operations)) && operations == old(operations) + 1
    {
      Elapse(duration);
    }

    method Monotonic() returns (t: nat)
      modifies this`mono, this`operations
      ensures t == mono == old(mono) + lag(old(operations)) && operations == old(operations) + 1
    {
      Elapse(0);
      t := mono;
    }

    method WallClock() returns (t: int)
      modifies this`mono, this`operations, this`walled
      ensures t == walls(old(walled)) && walled == old(walled) + 1
      ensures mono == old(mono) + lag(old(operations)) && operations == old(operations) + 1
    {
      Elapse(0);
      t := walls(walled);
      walled := walled + 1;
    }

    method InstanceById() returns (l: Listing)
      modifies this`mono, this`listed, this`events
      ensures l == listings(old(listed)) && listed == old(listed) + 1
      ensures events == old(events) + [Got(l)] && Run(events) == Next(Run(old(events)), Got(l)) && mono >= old(mono)
    {
      mono := mono + listingDelay(listed);
      l := listings(listed);
      listed := listed + 1;
      events := events + [Got(l)];
    }

    method RequestTermination() returns (a: Acknowledgement)
      modifies this`mono, this`requested, this`events
      ensures a == requests(old(requested)) && requested == old(requested) + 1
      ensures events == old(events) + [Posted(a)] && Run(events) == Next(Run(old(events)), Posted(a)) && mono >= old(mono)
    {
      mono := mono + requestDelay(requested);
      a := requests(requested);
      requested := requested + 1;
      events := events + [Posted(a)];
    }

    /** Terminates, sends at most one POST, polls no faster than the interval and
        no longer than the timeout, and returns only what the machine returns.  It fails only for a
        failing listing or request, or after the whole timeout. */
    method TerminateAndWait(pollSeconds: nat, timeoutSeconds: nat) returns (r: Outcome)
      modifies this`mono, this`operations, this`listed, this`requested, this`events
      ensures Run(events) == if r.Confirmed? then Returned(r.result) else Raised
      ensures mono >= old(mono) && requested <= old(requested) + 1 && operations >= old(operations)
      ensures r.Failed? ==>
        Got(ListingFailed) in events || Posted(RequestFailed) in events || mono >= old(mono) + timeoutSeconds * SECOND
      ensures listed > old(listed)
      ensures listed - old(listed) > 2 ==> Waits(listed - old(listed) - 2, if pollSeconds > 1 then pollSeconds else 1) < timeoutSeconds
    {
      hide Run, Waits;
      events := [];
      EmptyTrace(Pace(pollSeconds));
      var first := InstanceById();
      if first.ListingFailed? {
        assert events[|events| - 1] == Got(ListingFailed);
        return Failed;
      }
      if first.sight.Final() {
        return Confirmed(Termination(first.sight, false));
      }
      var answer := RequestTermination();
      assert events[|events| - 1] == Posted(answer);
      r := PollUntilDecided(answer.RequestFailed?, Pace(pollSeconds), timeoutSeconds);
    }

    /** The polling loop, entered with the request made. */
    method PollUntilDecided(refused: bool, pace: nat, timeoutSeconds: nat) returns (r: Outcome)
      requires pace >= 1 && Run(events) == Poll(refused)
      modifies this`mono, this`operations, this`listed, this`events
      ensures Run(events) == if r.Confirmed? then Returned(r.result) else Raised
      ensures mono >= old(mono) && listed > old(listed) && operations >= old(operations)
      ensures old(events) <= events
      ensures r.Failed? ==> refused || Got(ListingFailed) in events || mono >= old(mono) + timeoutSeconds * SECOND
      ensures listed - old(listed) > 1 ==> Waits(listed - old(listed) - 1, pace) < timeoutSeconds
    {
      hide Run, Waits;
      var now := Monotonic();
      var deadline := now + timeoutSeconds * SECOND;
      ghost var round, waited := 0, 0;
      EmptyTrace(pace);
      while true
        invariant Run(events) == Poll(refused) && old(events) <= events
        invariant deadline >= old(mono) + timeoutSeconds * SECOND
        invariant mono >= old(mono) && listed == old(listed) + round && operations >= old(operations)
        invariant waited == Waits(round, pace)
        invariant mono + timeoutSeconds * SECOND >= deadline + waited * SECOND
        invariant round > 0 ==> waited < timeoutSeconds
        decreases deadline - mono
      {
        Sleep(pace * SECOND);
        var current := InstanceById();
        if current.ListingFailed? {
          assert events[|events| - 1] == Got(ListingFailed);
          return Failed;
        }
        if current.sight.Final() {
          return Confirmed(Termination(current.sight, !refused));
        }
        if refused {
          return Failed;
        }
        var t := Monotonic();
        ExtendTrace(events, Timed(t >= deadline));
        events := events + [Timed(t >= deadline)];
        if t >= deadline {
          return Failed;
        }
        OneMoreWait(round, pace);
        round, waited := round + 1, waited + pace;
      }
    }
  }

  lemma EmptyTrace(each: nat)
    ensures Run([]) == Lookup && Waits(0, each) == 0
  {
  }

  lemma OneMoreWait(n: nat, each: nat)
    ensures Waits(n + 1, each) == Waits(n, each) + each
  {
  }

  lemma ExtendTrace(es: seq<Event>, e: Event)
    ensures Run(es + [e]) == Next(Run(es), e)
  {
    assert (es + [e])[..|es|] == es;
  }
}
