/** The Lotus block poller: a subscription that polls the chain head and
    walks the new heights in ascending order, emitting each block to the
    observer, skipping null rounds, reporting other errors, and stopping
    cooperatively once its session token is no longer the live one.

    The awaited calls are an oracle. For each pass of the outer loop a
    `PassOracle` gives the head the node reports, the block fetch outcome
    per height, and what a concurrent caller did to the session token while
    each of those calls was in flight. */
module LotusBlockPolling {
  import opened Outcomes
  import opened LotusBlockGetter

  /** The message by which the node says that no block was produced at a height. */
  const NullRoundMessage: string := "Returned error: requested epoch was a null round"

  /** BlockProducerError.createUnknown, kept opaque. */
  datatype ProducerError = Unknown(cause: Thrown)

  /** One call made on the observer. `Next` records, besides the block, the
      loop height it was fetched for. */
  datatype Event = Next(height: int, block: Block) | ObserverError(error: ProducerError)

  /** A call to `subscribe` or `unsubscribe` made by another caller while an
      awaited call of the loop was in flight. */
  datatype Concurrent = Quiet | Unsubscribed | Resubscribed

  /** The poller's mutable fields: the live session token and the counter
      that stands in for `Date.now()`. */
  datatype Shared = Shared(pollingId: Option<nat>, clock: nat)

  /** The oracle for one pass of the outer `while` loop. */
  datatype PassOracle = PassOracle(
    latest: Result<int>,
    duringHead: Concurrent,
    fetch: int -> Result<Block>,
    duringFetch: int -> Concurrent)

  /** The state a polling loop sees: the fields, its cursor `lastBlockNumber`,
      the observer calls so far, and whether an error escaped the loop body. */
  datatype LoopState = LoopState(shared: Shared, last: int, events: seq<Event>, escaped: bool)

  /** The live token, if any, is below the clock, so a token minted from the
      clock differs from it. */
  predicate Issued(s: Shared)
  {
    s.pollingId.Some? ==> s.pollingId.value < s.clock
  }

  /** The loop of session `token` goes on: nothing escaped and its token is still the live one. */
  predicate Live(token: nat, p: LoopState)
  {
    !p.escaped && p.shared.pollingId == Some(token)
  }

  /** The effect of a concurrent `unsubscribe` or `subscribe` on the fields.
      Either one makes every token issued so far stale. */
  function Interleave(s: Shared, c: Concurrent): (r: Shared)
    ensures c == Quiet ==> r == s
    ensures s.clock <= r.clock
    ensures Issued(s) ==> Issued(r)
    ensures c != Quiet ==> (r.pollingId.Some? ==> r.pollingId.value >= s.clock)
  {
    match c
    case Quiet => s
    case Unsubscribed => s.(pollingId := None)
    case Resubscribed => Shared(Some(s.clock), s.clock + 1)
  }

  /** Observer calls appended to `evs` that respect the loop's order: every
      emitted height lies in `(lo, hi]` and emitted heights strictly increase. */
  ghost predicate InOrder(evs: seq<Event>, lo: int, hi: int)
  {
    (forall i :: 0 <= i < |evs| && evs[i].Next? ==> lo < evs[i].height <= hi) &&
    (forall i, j :: 0 <= i < j < |evs| && evs[i].Next? && evs[j].Next? ==>
       evs[i].height < evs[j].height)
  }

  /** One iteration of the inner `for` loop at height `h`: fetch the block,
      then emit it and advance the cursor if the session is still live; a
      null round advances the cursor silently; any other `Error` is reported
      without advancing; a non-`Error` throw is swallowed. The `catch` runs
      without looking at the token. */
  function Step(token: nat, p: LoopState, h: int, o: PassOracle): (r: LoopState)
    ensures Issued(p.shared) ==> Issued(r.shared)
    ensures p.shared.clock <= r.shared.clock
    ensures r.escaped == p.escaped
    ensures p.events <= r.events && |r.events| <= |p.events| + 1
    ensures p.last < h ==> p.last <= r.last <= h
    ensures forall i :: |p.events| <= i < |r.events| && r.events[i].Next? ==> r.events[i].height == h == r.last
  {
    var s := Interleave(p.shared, o.duringFetch(h));
    match o.fetch(h)
    case Success(block) =>
      if s.pollingId != Some(token) then p.(shared := s)
      else p.(shared := s, last := h, events := p.events + [Next(h, block)])
    case Failure(ErrorObject(message)) =>
      if message == NullRoundMessage then p.(shared := s, last := h)
      else p.(shared := s, events := p.events + [ObserverError(Unknown(ErrorObject(message)))])
    case Failure(NonError(_)) => p.(shared := s)
  }

  /** The inner `for` loop from height `h` while `h < until` and the session is live.
      It makes at most one observer call per height and its cursor stays below `until`. */
  function Walk(token: nat, p: LoopState, h: int, until: int, o: PassOracle): (r: LoopState)
    ensures Issued(p.shared) ==> Issued(r.shared)
    ensures p.shared.clock <= r.shared.clock
    ensures r.escaped == p.escaped
    ensures p.events <= r.events
    ensures |r.events| <= |p.events| + (if h < until then until - h else 0)
    ensures p.last < h ==> p.last <= r.last < (if h < until then until else h)
    decreases until - h
  {
    if h < until && Live(token, p) then Walk(token, Step(token, p, h, o), h + 1, until, o) else p
  }

  /** One pass of the outer `while` loop: ask for the head, sleep if there is
      nothing new (the sleep changes no state), then walk `last + 1 .. latest`.
      An error from the head query escapes the body: one observer call, and
      the loop ends. */
  function Pass(token: nat, p: LoopState, o: PassOracle): (r: LoopState)
    ensures Issued(p.shared) ==> Issued(r.shared)
    ensures p.shared.clock <= r.shared.clock
    ensures p.events <= r.events
    ensures p.last <= r.last
    ensures r.escaped <==> p.escaped || o.latest.Failure?
  {
    var s := Interleave(p.shared, o.duringHead);
    match o.latest
    case Failure(t) => p.(shared := s, events := p.events + [ObserverError(Unknown(t))], escaped := true)
    case Success(latest) =>
      Walk(token, p.(shared := s), p.last + 1, if latest <= p.last then p.last + 1 else latest + 1, o)
  }

  /** The outer `while` loop of session `token` over the given passes; it
      stops when the token is no longer live or an error escaped. */
  function Session(token: nat, p: LoopState, passes: seq<PassOracle>): (r: LoopState)
    ensures Issued(p.shared) ==> Issued(r.shared)
    ensures p.shared.clock <= r.shared.clock
    ensures p.events <= r.events
    ensures p.last <= r.last
    decreases |passes|
  {
    if passes != [] && Live(token, p) then Session(token, Pass(token, p, passes[0]), passes[1..]) else p
  }

  /** Two runs of observer calls in order, the second after the first's
      upper bound, are in order together. */
  lemma InOrderConcat(a: seq<Event>, b: seq<Event>, lo: int, mid: int, hi: int)
    requires lo <= mid <= hi
    requires InOrder(a, lo, mid) && InOrder(b, mid, hi)
    ensures InOrder(a + b, lo, hi)
  {
    var c := a + b;
    forall i, j | 0 <= i < j < |c| && c[i].Next? && c[j].Next?
      ensures c[i].height < c[j].height
    {
      if j < |a| {
        assert c[i] == a[i] && c[j] == a[j];
      } else if i < |a| {
        assert c[i] == a[i] && c[j] == b[j - |a|];
      } else {
        assert c[i] == b[i - |a|] && c[j] == b[j - |a|];
      }
    }
    forall i | 0 <= i < |c| && c[i].Next?
      ensures lo < c[i].height <= hi
    {
      if i < |a| { assert c[i] == a[i]; } else { assert c[i] == b[i - |a|]; }
    }
  }

  /** A height's observer call, if it is a `next`, is for that height, which
      then becomes the cursor. */
  lemma StepEmitsInOrder(token: nat, p: LoopState, h: int, o: PassOracle)
    requires p.last < h
    ensures var r := Step(token, p, h, o);
      InOrder(r.events[|p.events|..], p.last, r.last)
    ensures var r := Step(token, p, h, o);
      forall e :: e in r.events[|p.events|..] && e.Next? ==> e.height == h == r.last
  {
    var r := Step(token, p, h, o);
    assert |r.events[|p.events|..]| <= 1;
    assert r.events[|p.events|..] != [] && r.events[|p.events|..][0].Next? ==>
      r.events[|p.events|..][0].height == h == r.last;
  }

  /** Within one pass the emitted heights strictly increase and lie between
      the starting cursor and the final one. */
  lemma {:induction false} WalkEmitsInOrder(token: nat, p: LoopState, h: int, until: int, o: PassOracle)
    requires p.last < h
    ensures var r := Walk(token, p, h, until, o);
      InOrder(r.events[|p.events|..], p.last, r.last)
    decreases until - h
  {
    var r := Walk(token, p, h, until, o);
    if h < until && Live(token, p) {
      var q := Step(token, p, h, o);
      StepEmitsInOrder(token, p, h, o);
      WalkEmitsInOrder(token, q, h + 1, until, o);
      assert r.events[|p.events|..] == q.events[|p.events|..] + r.events[|q.events|..];
      InOrderConcat(q.events[|p.events|..], r.events[|q.events|..], p.last, q.last, r.last);
    } else {
      assert r.events[|p.events|..] == [];
    }
  }

  /** A whole pass keeps the same order. */
  lemma PassEmitsInOrder(token: nat, p: LoopState, o: PassOracle)
    ensures var r := Pass(token, p, o);
      InOrder(r.events[|p.events|..], p.last, r.last)
  {
    var r := Pass(token, p, o);
    match o.latest
    case Failure(t) =>
      assert r.events[|p.events|..] == [ObserverError(Unknown(t))];
    case Success(latest) =>
      var s := Interleave(p.shared, o.duringHead);
      WalkEmitsInOrder(token, p.(shared := s), p.last + 1,
        if latest <= p.last then p.last + 1 else latest + 1, o);
  }

  /** Within one session the emitted block numbers strictly increase, all of
      them after the starting cursor and none past the final cursor; the
      cursor never decreases. */
  lemma {:induction false} SessionEmitsInOrder(token: nat, p: LoopState, passes: seq<PassOracle>)
    ensures var r := Session(token, p, passes);
      p.last <= r.last && InOrder(r.events[|p.events|..], p.last, r.last)
    decreases |passes|
  {
    var r := Session(token, p, passes);
    if passes != [] && Live(token, p) {
      var q := Pass(token, p, passes[0]);
      PassEmitsInOrder(token, p, passes[0]);
      SessionEmitsInOrder(token, q, passes[1..]);
      assert r.events[|p.events|..] == q.events[|p.events|..] + r.events[|q.events|..];
      InOrderConcat(q.events[|p.events|..], r.events[|q.events|..], p.last, q.last, r.last);
    } else {
      assert r.events[|p.events|..] == [];
    }
  }

  /** A height moves the cursor when its fetch succeeds or is a null round. */
  predicate Advances(outcome: Result<Block>)
  {
    outcome.Success? || outcome == Failure(ErrorObject(NullRoundMessage))
  }

  /** The observer calls one height produces on its own, with nobody else
      touching the session. */
  function EventsAt(h: int, outcome: Result<Block>): (r: seq<Event>)
    ensures |r| <= 1
    ensures r != [] && r[0].Next? <==> outcome.Success?
    ensures r == [] <==> (Advances(outcome) && outcome.Failure?) || (outcome.Failure? && outcome.thrown.NonError?)
  {
    match outcome
    case Success(block) => [Next(h, block)]
    case Failure(ErrorObject(message)) =>
      if message == NullRoundMessage then [] else [ObserverError(Unknown(ErrorObject(message)))]
    case Failure(NonError(_)) => []
  }

  /** The observer calls of heights `h .. until - 1`, height by height. */
  function ExpectedEvents(o: PassOracle, h: int, until: int): (r: seq<Event>)
    decreases until - h
  {
    if h < until then EventsAt(h, o.fetch(h)) + ExpectedEvents(o, h + 1, until) else []
  }

  /** Nobody subscribes or unsubscribes while heights `h .. until - 1` are fetched. */
  ghost predicate QuietDuring(o: PassOracle, h: int, until: int)
  {
    forall k :: h <= k < until ==> o.duringFetch(k) == Quiet
  }

  /** A live step nobody interrupts makes the height's own observer calls and
      moves the cursor to the height exactly when the height advances it. */
  lemma QuietStep(token: nat, p: LoopState, h: int, o: PassOracle)
    requires Live(token, p) && o.duringFetch(h) == Quiet
    ensures var r := Step(token, p, h, o);
      && r.shared == p.shared && r.escaped == p.escaped
      && r.last == (if Advances(o.fetch(h)) then h else p.last)
      && r.events == p.events + EventsAt(h, o.fetch(h))
  {
  }

  /** A walk nobody interrupts makes exactly the per-height observer calls,
      in height order, and the session stays live. */
  lemma {:induction false} QuietWalkEvents(token: nat, p: LoopState, h: int, until: int, o: PassOracle)
    requires Live(token, p)
    requires QuietDuring(o, h, until)
    ensures var r := Walk(token, p, h, until, o);
      r.shared == p.shared && r.events == p.events + ExpectedEvents(o, h, until)
    decreases until - h
  {
    if h < until {
      assert o.duringFetch(h) == Quiet;
      var q := Step(token, p, h, o);
      QuietStep(token, p, h, o);
      assert QuietDuring(o, h + 1, until);
      QuietWalkEvents(token, q, h + 1, until, o);
      var rest := ExpectedEvents(o, h + 1, until);
      assert ExpectedEvents(o, h, until) == EventsAt(h, o.fetch(h)) + rest;
      assert (p.events + EventsAt(h, o.fetch(h))) + rest == p.events + (EventsAt(h, o.fetch(h)) + rest);
    }
  }

  /** A walk nobody interrupts leaves the cursor at the last height that
      advanced it, or where it was if none did. */
  lemma {:induction false} QuietWalkCursor(token: nat, p: LoopState, h: int, until: int, o: PassOracle)
    requires Live(token, p) && p.last < h
    requires QuietDuring(o, h, until)
    ensures var r := Walk(token, p, h, until, o);
      && (r.last == p.last || (h <= r.last < until && Advances(o.fetch(r.last))))
      && (forall k :: h <= k < until && Advances(o.fetch(k)) ==> k <= r.last)
    decreases until - h
  {
    var r := Walk(token, p, h, until, o);
    if h < until {
      var q := Step(token, p, h, o);
      QuietStep(token, p, h, o);
      assert r == Walk(token, q, h + 1, until, o);
      QuietWalkCursor(token, q, h + 1, until, o);
      forall k | h <= k < until && Advances(o.fetch(k))
        ensures k <= r.last
      {
        if k == h {
          assert q.last == h;
        }
      }
    }
  }

  /** A pass whose head query nobody interrupts, with a head above the
      cursor, is the walk of heights `last + 1 .. latest`. */
  lemma QuietPassWalks(token: nat, p: LoopState, o: PassOracle, latest: int)
    requires o.latest == Success(latest) && o.duringHead == Quiet && p.last < latest
    ensures Pass(token, p, o) == Walk(token, p, p.last + 1, latest + 1, o)
  {
    assert p.(shared := Interleave(p.shared, o.duringHead)) == p;
  }

  /** In a pass nobody interrupts, a height whose fetch fails with an error
      other than a null round is reported to the observer. */
  lemma FailedHeightReported(token: nat, p: LoopState, o: PassOracle, latest: int, h: int)
    requires Live(token, p)
    requires o.latest == Success(latest) && o.duringHead == Quiet
    requires QuietDuring(o, p.last + 1, latest + 1)
    requires p.last < h <= latest
    requires o.fetch(h).Failure? && o.fetch(h).thrown.ErrorObject?
    requires o.fetch(h).thrown.message != NullRoundMessage
    ensures var r := Pass(token, p, o);
      ObserverError(Unknown(o.fetch(h).thrown)) in r.events[|p.events|..]
  {
    QuietPassWalks(token, p, o, latest);
    QuietWalkEvents(token, p, p.last + 1, latest + 1, o);
    var r := Pass(token, p, o);
    assert r.events[|p.events|..] == ExpectedEvents(o, p.last + 1, latest + 1);
    ExpectedEventsHas(o, p.last + 1, latest + 1, h);
    assert ObserverError(Unknown(o.fetch(h).thrown)) in EventsAt(h, o.fetch(h));
  }

  /** The retry subtlety. In a pass nobody interrupts, a height whose fetch
      fails with an error other than a null round is fetched again by the
      next pass (which starts at the cursor plus one) exactly when no later
      height of this pass succeeded or was a null round; otherwise the cursor
      has moved past it and it is skipped for good. */
  lemma FailedHeightRetriedIffNoLaterAdvance(token: nat, p: LoopState, o: PassOracle, latest: int, h: int)
    requires Live(token, p)
    requires o.latest == Success(latest) && o.duringHead == Quiet
    requires QuietDuring(o, p.last + 1, latest + 1)
    requires p.last < h <= latest
    requires o.fetch(h).Failure? && o.fetch(h).thrown.ErrorObject?
    requires o.fetch(h).thrown.message != NullRoundMessage
    ensures Pass(token, p, o).last < h <==> forall k :: h < k <= latest ==> !Advances(o.fetch(k))
  {
    QuietPassWalks(token, p, o, latest);
    QuietWalkCursor(token, p, p.last + 1, latest + 1, o);
    var last := Walk(token, p, p.last + 1, latest + 1, o).last;
    assert !Advances(o.fetch(h));
    if last >= h {
      assert h < last <= latest && Advances(o.fetch(last));
    }
  }

  /** The observer calls of one height are among those of a range that contains it. */
  lemma {:induction false} ExpectedEventsHas(o: PassOracle, from: int, until: int, h: int)
    requires from <= h < until
    ensures forall e :: e in EventsAt(h, o.fetch(h)) ==> e in ExpectedEvents(o, from, until)
    decreases h - from
  {
    if from < h {
      ExpectedEventsHas(o, from + 1, until, h);
    }
  }

  /** If the head is not above the cursor, the pass (after its sleep) emits
      nothing and leaves the cursor where it was. */
  lemma IdlePass(token: nat, p: LoopState, o: PassOracle, latest: int)
    requires !p.escaped
    requires o.latest == Success(latest) && latest <= p.last
    ensures var r := Pass(token, p, o);
      r.events == p.events && r.last == p.last && !r.escaped
  {
  }

  /** A block fetched while another caller subscribed or unsubscribed is not
      emitted, the cursor does not move, and the walk ends there. */
  lemma SupersededFetchNotEmitted(token: nat, p: LoopState, h: int, until: int, o: PassOracle)
    requires Live(token, p) && Issued(p.shared) && h < until
    requires o.fetch(h).Success? && o.duringFetch(h) != Quiet
    ensures var r := Walk(token, p, h, until, o);
      r.events == p.events && r.last == p.last && !Live(token, r)
  {
    var q := Step(token, p, h, o);
    assert !Live(token, q);
  }

  /** A fetch that throws an `Error` other than a null round is reported even
      when the session was superseded while it was in flight: the `catch`
      does not look at the token. */
  lemma SupersededFailureStillReported(token: nat, p: LoopState, h: int, until: int, o: PassOracle)
    requires Live(token, p) && h < until
    requires o.fetch(h).Failure? && o.fetch(h).thrown.ErrorObject?
    requires o.fetch(h).thrown.message != NullRoundMessage
    requires o.duringFetch(h) != Quiet && Issued(p.shared)
    ensures Walk(token, p, h, until, o).events == p.events + [ObserverError(Unknown(o.fetch(h).thrown))]
  {
    var q := Step(token, p, h, o);
    assert !Live(token, q);
  }

  /** A head query during which another caller subscribed or unsubscribed
      ends the session: the walk fetches nothing, so nothing is emitted. */
  lemma InterruptedHeadEmitsNothing(token: nat, p: LoopState, o: PassOracle)
    requires Issued(p.shared) && Live(token, p)
    requires o.duringHead != Quiet && o.latest.Success?
    ensures Pass(token, p, o).events == p.events && !Live(token, Pass(token, p, o))
  {
  }

  /** Cancellation in general: a walk emits a block only if nobody subscribed
      or unsubscribed while that block or any earlier height of the walk was
      fetched. Once another caller does either, the old session emits no
      further `next`. */
  lemma {:induction false} WalkEmitsOnlyQuietFetches(token: nat, p: LoopState, h: int, until: int, o: PassOracle)
    requires Issued(p.shared)
    ensures var r := Walk(token, p, h, until, o);
      forall i :: |p.events| <= i < |r.events| && r.events[i].Next? ==>
        forall k :: h <= k <= r.events[i].height ==> o.duringFetch(k) == Quiet
    decreases until - h
  {
    var r := Walk(token, p, h, until, o);
    if h < until && Live(token, p) {
      var q := Step(token, p, h, o);
      assert r == Walk(token, q, h + 1, until, o);
      if o.duringFetch(h) != Quiet {
        assert Interleave(p.shared, o.duringFetch(h)).pollingId != Some(token);
        assert !Live(token, q) && r == q;
        assert forall i :: |p.events| <= i < |q.events| ==> !q.events[i].Next?;
      } else {
        WalkEmitsOnlyQuietFetches(token, q, h + 1, until, o);
        forall i | |p.events| <= i < |r.events| && r.events[i].Next?
          ensures forall k :: h <= k <= r.events[i].height ==> o.duringFetch(k) == Quiet
        {
          if i < |q.events| {
            assert r.events[i] == q.events[i];
            assert r.events[i].height == h;
          }
        }
      }
    }
  }

  /** A fetch that was a null round, or that threw something other than an
      `Error`, during which another caller subscribed or unsubscribed, makes
      no observer call and ends the walk: the loop condition sees the stale
      token before the next height. */
  lemma SupersededSilentFetchEndsWalk(token: nat, p: LoopState, h: int, until: int, o: PassOracle)
    requires Live(token, p) && Issued(p.shared) && h < until
    requires o.fetch(h).Failure?
    requires o.fetch(h).thrown.NonError? || o.fetch(h).thrown.message == NullRoundMessage
    requires o.duringFetch(h) != Quiet
    ensures Walk(token, p, h, until, o).events == p.events && !Live(token, Walk(token, p, h, until, o))
  {
    var q := Step(token, p, h, o);
    assert !Live(token, q);
  }

  /** A session whose token is no longer live, or whose body threw, runs no
      further pass: it makes no observer call and its cursor stays put. */
  lemma StaleSessionRunsNoPass(token: nat, p: LoopState, passes: seq<PassOracle>)
    requires !Live(token, p)
    ensures Session(token, p, passes) == p
  {
  }

  /** An error from the head query reaches the observer once and ends the
      session: later passes are never run. */
  lemma HeadFailureEndsSession(token: nat, p: LoopState, o: PassOracle, rest: seq<PassOracle>)
    requires Live(token, p) && o.latest.Failure?
    ensures var r := Session(token, p, [o] + rest);
      r.events == p.events + [ObserverError(Unknown(o.latest.thrown))] && r.last == p.last && r.escaped
  {
    assert ([o] + rest)[0] == o && ([o] + rest)[1..] == rest;
  }

  /** A scenario: the cursor is 5 (start block 6) and the head reads 5, 5, 5
      and then 8. The three idle passes emit nothing; the fourth emits blocks
      6, 7 and 8 in that order, once each, and leaves the cursor at 8. */
  lemma IdlePassesThenThreeBlocks(token: nat, p: LoopState, idle: PassOracle, busy: PassOracle)
    requires Live(token, p) && p.last == 5 && p.events == []
    requires idle.latest == Success(5) && idle.duringHead == Quiet
    requires busy.latest == Success(8) && busy.duringHead == Quiet
    requires forall h :: 6 <= h <= 8 ==> busy.fetch(h).Success? && busy.duringFetch(h) == Quiet
    ensures var r := Session(token, p, [idle, idle, idle, busy]);
      && r.events == [Next(6, busy.fetch(6).value), Next(7, busy.fetch(7).value), Next(8, busy.fetch(8).value)]
      && r.last == 8
  {
    IdlePass(token, p, idle, 5);
    assert Pass(token, p, idle) == p;
    var passes := [idle, idle, idle, busy];
    calc == {
      Session(token, p, passes);
      Session(token, p, passes[1..]);
      { assert passes[1..][1..] == [idle, busy]; }
      Session(token, p, [idle, busy]);
      { assert [idle, busy][1..] == [busy]; }
      Session(token, p, [busy]);
      Pass(token, p, busy);
    }
    QuietPassWalks(token, p, busy, 8);
    QuietWalkEvents(token, p, 6, 9, busy);
    QuietWalkCursor(token, p, 6, 9, busy);
    assert ExpectedEvents(busy, 6, 9)
        == [Next(6, busy.fetch(6).value), Next(7, busy.fetch(7).value), Next(8, busy.fetch(8).value)];
  }

  /** A scenario: heights 6, 7 and 8 are fetched in one pass and 7 is a null
      round. The observer gets blocks 6 and 8 and no error, and the next pass
      resumes at 9. */
  lemma NullRoundSkippedSilently(token: nat, shared: Shared, blocks: int -> Block)
    requires shared.pollingId == Some(token)
    ensures var o := PassOracle(Success(8), Quiet,
                                h => if h == 7 then Failure(ErrorObject(NullRoundMessage)) else Success(blocks(h)),
                                h => Quiet);
      var r := Pass(token, LoopState(shared, 5, [], false), o);
      r.events == [Next(6, blocks(6)), Next(8, blocks(8))] && r.last + 1 == 9
  {
    var o := PassOracle(Success(8), Quiet,
                        h => if h == 7 then Failure(ErrorObject(NullRoundMessage)) else Success(blocks(h)),
                        h => Quiet);
    var p := LoopState(shared, 5, [], false);
    QuietPassWalks(token, p, o, 8);
    QuietWalkEvents(token, p, 6, 9, o);
    QuietWalkCursor(token, p, 6, 9, o);
    assert ExpectedEvents(o, 6, 9) == [Next(6, blocks(6)), Next(8, blocks(8))];
  }

  /** A scenario: heights 6, 7 and 8 are fetched in one pass and 7 fails with
      another error. The observer gets block 6, one error, then block 8, and
      the cursor ends at 8: block 7 is skipped for good. */
  lemma OtherErrorSkipsBlock(token: nat, shared: Shared, blocks: int -> Block, message: string)
    requires shared.pollingId == Some(token) && message != NullRoundMessage
    ensures var o := PassOracle(Success(8), Quiet,
                                h => if h == 7 then Failure(ErrorObject(message)) else Success(blocks(h)),
                                h => Quiet);
      var r := Pass(token, LoopState(shared, 5, [], false), o);
      && r.events == [Next(6, blocks(6)), ObserverError(Unknown(ErrorObject(message))), Next(8, blocks(8))]
      && r.last == 8
  {
    var o := PassOracle(Success(8), Quiet,
                        h => if h == 7 then Failure(ErrorObject(message)) else Success(blocks(h)),
                        h => Quiet);
    var p := LoopState(shared, 5, [], false);
    QuietPassWalks(token, p, o, 8);
    QuietWalkEvents(token, p, 6, 9, o);
    QuietWalkCursor(token, p, 6, 9, o);
    assert ExpectedEvents(o, 6, 9)
        == [Next(6, blocks(6)), ObserverError(Unknown(ErrorObject(message))), Next(8, blocks(8))];
  }

  /** The poller object: the live session token, the clock that mints tokens,
      and the observer calls made so far. */
  class LotusBlockPoller {
    const blockPollingTimeout: nat
    var pollingId: Option<nat>
    var clock: nat
    var events: seq<Event>

    ghost predicate Valid()
      reads this
    {
      Issued(Shared(pollingId, clock))
    }

    function SharedState(): (s: Shared)
      reads this
    {
      Shared(pollingId, clock)
    }

    function State(last: int, escaped: bool): (s: LoopState)
      reads this
    {
      LoopState(Shared(pollingId, clock), last, events, escaped)
    }

    constructor (blockPollingTimeout: nat)
      ensures Valid() && this.blockPollingTimeout == blockPollingTimeout
      ensures pollingId == None && events == []
    {
      this.blockPollingTimeout := blockPollingTimeout;
      pollingId := None;
      clock := 0;
      events := [];
    }

    /** subscribe: mint a fresh token and make it the live one. The loop of
        the new session is then run by StartBlockPolling with this token;
        every earlier token is stale from now on. */
    method Subscribe() returns (token: nat)
      requires Valid()
      modifies this`pollingId, this`clock
      ensures Valid()
      ensures token == old(clock) && clock == old(clock) + 1 && pollingId == Some(token)
      ensures old(pollingId).Some? ==> pollingId != old(pollingId)
    {
      token := clock;
      clock := clock + 1;
      pollingId := Some(token);
    }

    /** unsubscribe: clear the live token and confirm; nothing else changes. */
    method Unsubscribe() returns (ok: bool)
      modifies this`pollingId
      ensures ok && pollingId == None
    {
      pollingId := None;
      ok := true;
    }

    /** What another caller does while an awaited call is in flight. */
    method Interleaved(c: Concurrent)
      requires Valid()
      modifies this`pollingId, this`clock
      ensures Valid() && SharedState() == Interleave(old(SharedState()), c)
    {
      match c {
        case Quiet =>
        case Unsubscribed =>
          var _ := Unsubscribe();
        case Resubscribed =>
          var _ := Subscribe();
      }
    }

    /** One pass of the `while` loop of startBlockPolling, from cursor `last`. */
    method RunPass(token: nat, last: int, o: PassOracle) returns (newLast: int, escaped: bool)
      requires Valid()
      modifies this
      ensures Valid()
      ensures State(newLast, escaped) == Pass(token, old(State(last, false)), o)
    {
      Interleaved(o.duringHead);
      match o.latest {
        case Failure(t) =>
          events := events + [ObserverError(Unknown(t))];
          return last, true;
        case Success(latestBlockNumber) =>
          // When latestBlockNumber <= last the source sleeps for
          // blockPollingTimeout milliseconds; the sleep changes no state.
          newLast := PollHeights(token, last, latestBlockNumber, o);
          return newLast, false;
      }
    }

    /** The `for` loop of one pass: heights `last + 1 .. latestBlockNumber`
        in ascending order while the session is live. */
    method PollHeights(token: nat, last: int, latestBlockNumber: int, o: PassOracle)
      returns (lastBlockNumber: int)
      requires Valid()
      modifies this
      ensures Valid()
      ensures State(lastBlockNumber, false) == Walk(token, old(State(last, false)), last + 1,
        if latestBlockNumber <= last then last + 1 else latestBlockNumber + 1, o)
    {
      ghost var until := if latestBlockNumber <= last then last + 1 else latestBlockNumber + 1;
      ghost var target := Walk(token, State(last, false), last + 1, until, o);
      lastBlockNumber := last;
      var blockNum := last + 1;
      while blockNum <= latestBlockNumber && pollingId == Some(token)
        invariant Valid()
        invariant last + 1 <= blockNum <= until
        invariant Walk(token, State(lastBlockNumber, false), blockNum, until, o) == target
        decreases until - blockNum
      {
        ghost var before := State(lastBlockNumber, false);
        Interleaved(o.duringFetch(blockNum));
        match o.fetch(blockNum) {
          case Success(block) =>
            if pollingId != Some(token) {
              // a new subscription was made while the block was fetched
              break;
            }
            events := events + [Next(blockNum, block)];
            lastBlockNumber := blockNum;
          case Failure(ErrorObject(message)) =>
            if message == NullRoundMessage {
              lastBlockNumber := blockNum;
            } else {
              events := events + [ObserverError(Unknown(ErrorObject(message)))];
            }
          case Failure(NonError(_)) =>
        }
        assert State(lastBlockNumber, false) == Step(token, before, blockNum, o);
        blockNum := blockNum + 1;
      }
    }

    /** startBlockPolling: the session loop of `token`, starting with cursor
        `startBlock - 1`, over the passes the oracle provides. */
    method StartBlockPolling(startBlock: int, token: nat, passes: seq<PassOracle>)
      requires Valid()
      modifies this
      ensures Valid()
      ensures var r := Session(token, old(State(startBlock - 1, false)), passes);
        SharedState() == r.shared && events == r.events
    {
      ghost var target := Session(token, State(startBlock - 1, false), passes);
      var lastBlockNumber := startBlock - 1;
      var escaped := false;
      var i := 0;
      while i < |passes| && pollingId == Some(token) && !escaped
        invariant Valid()
        invariant 0 <= i <= |passes|
        invariant Session(token, State(lastBlockNumber, escaped), passes[i..]) == target
        decreases |passes| - i
      {
        assert passes[i..][1..] == passes[i + 1..];
        lastBlockNumber, escaped := RunPass(token, lastBlockNumber, passes[i]);
        i := i + 1;
      }
    }
  }
}
