/** The live provider's ring of observed samples (`local_player_observer_provider.c`). */
module SampleQueue {
  import opened Slots
  import opened Movement

  const CAPACITY: nat := 8

  /** The last eight samples of a history. */
  function LastEight(history: seq<Observed>): (r: seq<Observed>)
    ensures |r| == if |history| < CAPACITY then |history| else CAPACITY
  {
    if |history| < CAPACITY then history else history[|history| - CAPACITY..]
  }

  /** One more sample pushes the oldest of eight out. */
  lemma LastEightAppend(history: seq<Observed>, sample: Observed)
    ensures LastEight(history + [sample])
            == (if |history| < CAPACITY then LastEight(history) else LastEight(history)[1..]) + [sample]
  {
  }

  /** The cell `k` places after `head` in the ring. */
  function Cell(head: nat, k: nat): (r: nat)
    requires head < CAPACITY && k <= CAPACITY
    ensures r < CAPACITY && r == (head + k) % CAPACITY
  {
    if head + k < CAPACITY then head + k else head + k - CAPACITY
  }

  /** The provider; `history` is every sample accepted since it was installed. */
  class LiveProvider {
    var ring: array<Observed>
    var head: nat
    var tail: nat
    var count: nat
    var highWatermark: nat
    var dropped: nat
    var submitted: nat
    var captured: nat
    var lastState: Option<Observed>
    ghost var history: seq<Observed>

    /** The ring, read from its head, holds `samples`. */
    ghost predicate Holds(samples: seq<Observed>)
      reads this`ring, this`head, this`tail, this`count, ring
    {
      && ring.Length == CAPACITY
      && head < CAPACITY && |samples| <= CAPACITY
      && count == |samples| && tail == Cell(head, count)
      && forall k :: 0 <= k < |samples| ==> ring[Cell(head, k)] == samples[k]
    }

    ghost predicate Valid()
      reads this, ring
    {
      && Holds(LastEight(history))
      && submitted == |history| == count + dropped
      && highWatermark == count
      && lastState == if history == [] then None else Some(history[|history| - 1])
    }

    /** `lpo_live_provider_install`. */
    constructor (blank: Observed)
      ensures Valid() && history == [] && captured == 0 && fresh(ring)
    {
      ring := new Observed[CAPACITY](_ => blank);
      head, tail, count, highWatermark, dropped, submitted, captured := 0, 0, 0, 0, 0, 0, 0;
      lastState := None;
      history := [];
    }

    /** Gives up the oldest sample. */
    method DropOldest(ghost samples: seq<Observed>)
      requires Holds(samples) && count == CAPACITY
      modifies this`head, this`count, this`dropped
      ensures Holds(samples[1..]) && dropped == old(dropped) + 1
    {
      head := (head + 1) % CAPACITY;
      count := count - 1;
      dropped := dropped + 1;
      forall k | 0 <= k < |samples| - 1 ensures ring[Cell(head, k)] == samples[1..][k] {
        assert Cell(head, k) == Cell(old(head), k + 1);
      }
    }

    /** Writes behind the newest sample of a ring that is not full. */
    method Append(sample: Observed, ghost samples: seq<Observed>)
      requires Holds(samples) && count < CAPACITY
      modifies this`tail, this`count, ring
      ensures Holds(samples + [sample]) && ring == old(ring)
    {
      ring[tail] := sample;
      tail := (tail + 1) % CAPACITY;
      count := count + 1;
      forall k | 0 <= k < count ensures ring[Cell(head, k)] == (samples + [sample])[k] {
        assert k < count - 1 ==> Cell(head, k) != Cell(head, count - 1);
      }
    }

    /** `lpo_live_provider_submit`; the sample is what the adapter made of the hook's arguments, if it accepted them. */
    method Submit(sample: Option<Observed>) returns (ok: bool)
      requires Valid()
      modifies this, ring
      ensures Valid() && ring == old(ring) && captured == old(captured) && ok == sample.Some?
      ensures history == old(history) + (if ok then [sample.value] else [])
      ensures !ok ==> count == old(count) && dropped == old(dropped) && submitted == old(submitted)
    {
      ok := sample.Some?;
      if ok { Accept(sample.value); }
    }

    /** `live_queue_push` and the bookkeeping for an accepted sample. */
    method Accept(sample: Observed)
      requires Valid()
      modifies this, ring
      ensures Valid() && ring == old(ring)
      ensures history == old(history) + [sample] && captured == old(captured)
    {
      hide Holds, LastEight;
      ghost var samples := LastEight(history);
      HoldsCount(samples);
      LastEightAppend(history, sample);
      if count == CAPACITY {
        DropOldest(samples);
        samples := samples[1..];
        HoldsCount(samples);
      }
      Append(sample, samples);
      HoldsCount(samples + [sample]);
      if count > highWatermark {
        highWatermark := count;
      }
      submitted := submitted + 1;
      lastState := Some(sample);
      history := history + [sample];
    }

    lemma HoldsCount(samples: seq<Observed>)
      requires Holds(samples)
      ensures count == |samples|
    {
    }

    /** `lpo_provider_capture` with no external provider: the newest accepted sample. */
    method Capture() returns (sample: Option<Observed>)
      requires Valid()
      modifies this`lastState, this`captured
      ensures Valid()
      ensures sample == if history == [] then None else Some(history[|history| - 1])
      ensures captured == old(captured) + (if sample.Some? then 1 else 0)
    {
      if count == 0 {
        if lastState.None? { return None; }
        sample := lastState;
      } else {
        var newest := (tail + CAPACITY - 1) % CAPACITY;
        assert newest == Cell(head, count - 1);
        assert ring[Cell(head, count - 1)] == LastEight(history)[count - 1];
        sample := Some(ring[newest]);
      }
      lastState := sample;
      captured := captured + 1;
    }
  }
}
