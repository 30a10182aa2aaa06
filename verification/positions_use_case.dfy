/**
 * `GetSatellitePositionsUseCase`: one repository call, then
 * `positions.forEach { emit(it); delay(3000) }`. The flow is modelled as the
 * trace of observable events it produces, so pacing needs no clock.
 */
module GetSatellitePositionsUseCase {
  import opened Wrappers

  /** The pause after each emission, in milliseconds. */
  const DelayMillis: nat := 3000

  /** `Fetch` is the call to `getSatellitePositions`. */
  datatype Event<P> = Fetch | Emit(position: P) | Delay(millis: nat)

  /** How a flow terminates: normally, or with the error it was collected with. */
  datatype End = Completed | Failed(error: Exception)

  datatype Run<P> = Run(events: seq<Event<P>>, end: End)

  /** The `forEach` loop: each position is emitted, then followed by a pause. */
  function Pace<P>(positions: seq<P>): (events: seq<Event<P>>)
    ensures |events| == 2 * |positions|
    ensures forall j :: 0 <= j < |events| ==> !events[j].Fetch?
  {
    if |positions| == 0 then []
    else [Emit(positions[0]), Delay(DelayMillis)] + Pace(positions[1..])
  }

  /** Position `i` sits at event `2i` of the paced trace, its pause right after it. */
  lemma {:induction false} PaceShape<P>(positions: seq<P>)
    ensures forall i :: 0 <= i < |positions| ==>
      Pace(positions)[2 * i] == Emit(positions[i]) && Pace(positions)[2 * i + 1] == Delay(DelayMillis)
  {
    if |positions| > 0 {
      PaceShape(positions[1..]);
      var events := Pace(positions);
      forall i | 1 <= i < |positions|
        ensures events[2 * i] == Emit(positions[i]) && events[2 * i + 1] == Delay(DelayMillis)
      {
        assert events[2 * i] == Pace(positions[1..])[2 * (i - 1)];
        assert events[2 * i + 1] == Pace(positions[1..])[2 * (i - 1) + 1];
      }
    }
  }

  /**
   * `invoke(satelliteId)` given the outcome of the repository call: the fetch
   * comes first and happens once; a thrown exception ends the flow before any
   * emission; otherwise position `i` is event `1 + 2i`, followed by a pause.
   */
  function Invoke<P>(fetched: Attempt<seq<P>>): (run: Run<P>)
    ensures |run.events| > 0 && run.events[0] == Fetch
    ensures forall i :: 0 < i < |run.events| ==> !run.events[i].Fetch?
    ensures fetched.Threw? ==> run == Run([Fetch], Failed(fetched.error))
    ensures fetched.Returned? ==> run.end == Completed && |run.events| == 1 + 2 * |fetched.value|
    ensures fetched.Returned? ==> forall i :: 0 <= i < |fetched.value| ==>
      run.events[1 + 2 * i] == Emit(fetched.value[i]) && run.events[2 + 2 * i] == Delay(DelayMillis)
  {
    match fetched
    case Threw(e) => Run([Fetch], Failed(e))
    case Returned(positions) =>
      PaceShape(positions);
      Run([Fetch] + Pace(positions), Completed)
  }

  /** The positions a collector receives, in order. */
  function Emitted<P>(events: seq<Event<P>>): (ps: seq<P>)
  {
    if |events| == 0 then []
    else (if events[0].Emit? then [events[0].position] else []) + Emitted(events[1..])
  }

  /** The number of pauses in a trace. */
  function Delays<P>(events: seq<Event<P>>): (n: nat)
  {
    if |events| == 0 then 0
    else (if events[0].Delay? then 1 else 0) + Delays(events[1..])
  }

  lemma {:induction false} EmittedAppend<P>(a: seq<Event<P>>, b: seq<Event<P>>)
    ensures Emitted(a + b) == Emitted(a) + Emitted(b)
    ensures Delays(a + b) == Delays(a) + Delays(b)
  {
    if |a| == 0 {
      assert a + b == b;
    } else {
      var ab := a + b;
      assert ab[0] == a[0];
      assert ab[1..] == a[1..] + b;
      EmittedAppend(a[1..], b);
    }
  }

  /** Pacing a history in two parts gives the two paced parts one after the other. */
  lemma {:induction false} PaceAppend<P>(a: seq<P>, b: seq<P>)
    ensures Pace(a + b) == Pace(a) + Pace(b)
  {
    if |a| == 0 {
      assert a + b == b;
    } else {
      assert (a + b)[1..] == a[1..] + b;
      PaceAppend(a[1..], b);
    }
  }

  /** Pacing a history hides nothing and adds one pause per position. */
  lemma {:induction false} PaceEmits<P>(positions: seq<P>)
    ensures Emitted(Pace(positions)) == positions
    ensures Delays(Pace(positions)) == |positions|
  {
    if |positions| > 0 {
      var head: seq<Event<P>> := [Emit(positions[0]), Delay(DelayMillis)];
      PaceEmits(positions[1..]);
      EmittedAppend(head, Pace(positions[1..]));
      assert head[1..][1..] == [];
      assert Emitted(head) == [positions[0]];
      assert Delays(head) == 1;
    }
  }

  /**
   * After the fetch and `i` emit-pause pairs the collector holds the first
   * `i` positions and the run has paused `i` times.
   */
  lemma RunAfterPairs<P>(positions: seq<P>, i: nat)
    requires i <= |positions|
    ensures var events := Invoke(Returned(positions)).events;
            Emitted(events[..2 * i + 1]) == positions[..i] && Delays(events[..2 * i + 1]) == i
  {
    var events := Invoke(Returned(positions)).events;
    var fetch: seq<Event<P>> := [Fetch];
    assert positions == positions[..i] + positions[i..];
    PaceAppend(positions[..i], positions[i..]);
    assert events[..2 * i + 1] == fetch + Pace(positions[..i]);
    EmittedAppend(fetch, Pace(positions[..i]));
    PaceEmits(positions[..i]);
    assert Emitted(fetch) == [] && Delays(fetch) == 0 by {
      assert fetch[1..] == [];
    }
  }

  /**
   * A run cancelled after `k` events has emitted exactly the first `k / 2`
   * positions: cancelling right after position `i` was emitted never lets
   * position `i + 1` out.
   */
  lemma CancelledRunEmitsPrefix<P>(positions: seq<P>, k: nat)
    requires k <= |Invoke(Returned(positions)).events|
    ensures Emitted(Invoke(Returned(positions)).events[..k]) == positions[..k / 2]
  {
    var events := Invoke(Returned(positions)).events;
    if k == 0 {
      assert events[..0] == [];
    } else {
      var i := (k - 1) / 2;
      if k == 2 * i + 1 {
        RunAfterPairs(positions, i);
      } else {
        assert k == 2 * i + 2 && k / 2 == i + 1;
        RunAfterPairs(positions, i);
        assert events[..k] == events[..2 * i + 1] + [events[2 * i + 1]];
        EmittedAppend(events[..2 * i + 1], [events[2 * i + 1]]);
        assert positions[..i + 1] == positions[..i] + [positions[i]];
      }
    }
  }

  /** The emitted positions are the fetched history, element for element and in order. */
  lemma EmitsHistoryInOrder<P>(positions: seq<P>)
    ensures Emitted(Invoke(Returned(positions)).events) == positions
  {
    var events := Invoke(Returned(positions)).events;
    RunAfterPairs(positions, |positions|);
    assert events[..2 * |positions| + 1] == events;
  }

  /** Every emission is followed by exactly one pause, so pauses and emissions are equal in number. */
  lemma DelaysMatchEmissions<P>(positions: seq<P>)
    ensures Delays(Invoke(Returned(positions)).events) == |positions|
  {
    var events := Invoke(Returned(positions)).events;
    RunAfterPairs(positions, |positions|);
    assert events[..2 * |positions| + 1] == events;
  }

  /** Position `i` is emitted after exactly `i` pauses; the first one immediately after the fetch. */
  lemma EmittedAfterDelays<P>(positions: seq<P>, i: nat)
    requires i < |positions|
    ensures var events := Invoke(Returned(positions)).events;
            events[1 + 2 * i] == Emit(positions[i]) && Delays(events[..1 + 2 * i]) == i
  {
    RunAfterPairs(positions, i);
  }

  /** An empty history completes with no emission and no pause. */
  lemma EmptyHistoryCompletesAtOnce<P>()
    ensures Invoke<P>(Returned([])) == Run([Fetch], Completed)
  {
  }
}
