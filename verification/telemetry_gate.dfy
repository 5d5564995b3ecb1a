/**
 * The "user_properties" telemetry of the main page: the embed-only totals
 * are reduced to coarse buckets, and an event is sent only when a bucket
 * differs from the one remembered from the previous ready evaluation.
 */
module TelemetryGate {
  import opened Options

  /**
   * A value of the bucketing function `amountToAmbiguousAverage`. Its
   * definition is not part of this model; the one thing assumed about it is
   * that it never yields the sentinel -1.
   */
  type AmbiguousAverage = b: int | b != -1 witness 0

  /** The value both remembered buckets start at, never equal to a real bucket. */
  const Sentinel: int := -1

  /** The two remembered buckets (the page's two refs). */
  datatype GateState = GateState(lastAvailable: int, lastStaked: int)

  const Initial: GateState := GateState(Sentinel, Sentinel)

  /** The selected key: its identifier and, if recorded, its key-ring type. */
  datatype KeyInfo = KeyInfo(id: string, keyRingType: Option<string>)

  datatype UserPropertiesEvent = UserPropertiesEvent(
    totalAvailableFiatAvg: int,
    totalStakedFiatAvg: int,
    id: Option<string>,
    keyType: Option<string>)

  datatype GateResult = GateResult(next: GateState, event: Option<UserPropertiesEvent>)

  /** The bucket of a total; an absent total is bucket 0 without consulting `avg`. */
  function Bucket(avg: nat -> AmbiguousAverage, total: Option<nat>): AmbiguousAverage {
    match total
    case Some(v) => avg(v)
    case None => 0
  }

  /** `selectedKeyInfo?.id` */
  function KeyId(key: Option<KeyInfo>): Option<string> {
    match key
    case Some(k) => Some(k.id)
    case None => None
  }

  /** `selectedKeyInfo?.insensitive["keyRingType"]` */
  function KeyType(key: Option<KeyInfo>): Option<string> {
    match key
    case Some(k) => k.keyRingType
    case None => None
  }

  /** One run of the effect with the current readiness, totals and key. */
  function Evaluate(
    s: GateState,
    isNotReady: bool,
    availableEmbedOnly: Option<nat>,
    stakedEmbedOnly: Option<nat>,
    key: Option<KeyInfo>,
    avg: nat -> AmbiguousAverage): (r: GateResult)
    ensures isNotReady ==> r == GateResult(s, None)
    ensures !isNotReady ==> r.next == GateState(Bucket(avg, availableEmbedOnly), Bucket(avg, stakedEmbedOnly))
    ensures !isNotReady ==> (r.event.Some? <==> r.next != s)
    ensures r.event.Some? ==> r.event.value == UserPropertiesEvent(r.next.lastAvailable, r.next.lastStaked, KeyId(key), KeyType(key))
  {
    if isNotReady then GateResult(s, None)
    else
      var availableAvg := Bucket(avg, availableEmbedOnly);
      var stakedAvg := Bucket(avg, stakedEmbedOnly);
      var event :=
        if s.lastAvailable != availableAvg || s.lastStaked != stakedAvg then
          Some(UserPropertiesEvent(availableAvg, stakedAvg, KeyId(key), KeyType(key)))
        else None;
      GateResult(GateState(availableAvg, stakedAvg), event)
  }

  /** The first ready evaluation always emits, even when both totals are absent. */
  lemma FirstReadyEvaluationEmits(availableEmbedOnly: Option<nat>, stakedEmbedOnly: Option<nat>, key: Option<KeyInfo>, avg: nat -> AmbiguousAverage)
    ensures Evaluate(Initial, false, availableEmbedOnly, stakedEmbedOnly, key, avg).event.Some?
  {
  }

  /**
   * The remembered buckets are updated whether or not an event was sent, so
   * evaluating again with the same inputs sends nothing and changes nothing.
   */
  lemma ReevaluationIsSilent(s: GateState, isNotReady: bool, availableEmbedOnly: Option<nat>, stakedEmbedOnly: Option<nat>, key: Option<KeyInfo>, avg: nat -> AmbiguousAverage)
    ensures var r := Evaluate(s, isNotReady, availableEmbedOnly, stakedEmbedOnly, key, avg);
            Evaluate(r.next, isNotReady, availableEmbedOnly, stakedEmbedOnly, key, avg) == GateResult(r.next, None)
  {
  }

  /** A missing selected key does not block the event; its fields are just absent. */
  lemma MissingKeyStillEmits(s: GateState, availableEmbedOnly: Option<nat>, stakedEmbedOnly: Option<nat>, key: KeyInfo, avg: nat -> AmbiguousAverage)
    ensures var withKey := Evaluate(s, false, availableEmbedOnly, stakedEmbedOnly, Some(key), avg);
            var without := Evaluate(s, false, availableEmbedOnly, stakedEmbedOnly, None, avg);
            && without.next == withKey.next
            && (without.event.Some? <==> withKey.event.Some?)
            && (without.event.Some? ==> without.event.value.id.None? && without.event.value.keyType.None?)
  {
  }

  // ---------------------------------------------------------------------------
  // Runs: the effect re-evaluated over a sequence of page states.
  // ---------------------------------------------------------------------------

  /** The inputs the effect sees on one run. */
  datatype Evaluation = Evaluation(
    isNotReady: bool,
    availableEmbedOnly: Option<nat>,
    stakedEmbedOnly: Option<nat>,
    key: Option<KeyInfo>)

  datatype RunResult = RunResult(last: GateState, events: seq<UserPropertiesEvent>)

  function Run(s: GateState, evals: seq<Evaluation>, avg: nat -> AmbiguousAverage): RunResult
    decreases |evals|
  {
    if evals == [] then RunResult(s, [])
    else
      var e := evals[0];
      var r := Evaluate(s, e.isNotReady, e.availableEmbedOnly, e.stakedEmbedOnly, e.key, avg);
      var rest := Run(r.next, evals[1..], avg);
      RunResult(rest.last, (if r.event.Some? then [r.event.value] else []) + rest.events)
  }

  /** The bucket pairs of the ready evaluations, in order. */
  function ReadyBuckets(evals: seq<Evaluation>, avg: nat -> AmbiguousAverage): seq<GateState>
    decreases |evals|
  {
    if evals == [] then []
    else
      var e := evals[0];
      (if e.isNotReady then [] else [GateState(Bucket(avg, e.availableEmbedOnly), Bucket(avg, e.stakedEmbedOnly))])
        + ReadyBuckets(evals[1..], avg)
  }

  /** How many pairs differ from the pair before them (`prev` before the first). */
  function Changes(prev: GateState, pairs: seq<GateState>): nat
    decreases |pairs|
  {
    if pairs == [] then 0
    else (if pairs[0] != prev then 1 else 0) + Changes(pairs[0], pairs[1..])
  }

  /** The pairs that differ from the pair before them (`prev` before the first). */
  function ChangedPairs(prev: GateState, pairs: seq<GateState>): seq<GateState>
    decreases |pairs|
  {
    if pairs == [] then []
    else (if pairs[0] != prev then [pairs[0]] else []) + ChangedPairs(pairs[0], pairs[1..])
  }

  /** The bucket pair each event carries. */
  function PairsOf(events: seq<UserPropertiesEvent>): seq<GateState> {
    if events == [] then []
    else [GateState(events[0].totalAvailableFiatAvg, events[0].totalStakedFiatAvg)] + PairsOf(events[1..])
  }

  lemma {:induction false} PairsOfAppend(a: seq<UserPropertiesEvent>, b: seq<UserPropertiesEvent>)
    ensures PairsOf(a + b) == PairsOf(a) + PairsOf(b)
    decreases |a|
  {
    if a == [] {
      assert a + b == b;
    } else {
      assert (a + b)[1..] == a[1..] + b;
      PairsOfAppend(a[1..], b);
    }
  }

  lemma {:induction false} ChangedPairsAppend(prev: GateState, a: seq<GateState>, b: seq<GateState>)
    ensures ChangedPairs(prev, a + b) == ChangedPairs(prev, a) + ChangedPairs(LastOr(a, prev), b)
    decreases |a|
  {
    if a == [] {
      assert a + b == b;
    } else {
      assert (a + b)[0] == a[0];
      assert (a + b)[1..] == a[1..] + b;
      ChangedPairsAppend(a[0], a[1..], b);
      assert LastOr(a[1..], a[0]) == LastOr(a, prev);
    }
  }

  lemma {:induction false} ChangedPairsCount(prev: GateState, pairs: seq<GateState>)
    ensures |ChangedPairs(prev, pairs)| == Changes(prev, pairs)
    decreases |pairs|
  {
    if pairs != [] {
      ChangedPairsCount(pairs[0], pairs[1..]);
    }
  }

  function LastOr(pairs: seq<GateState>, default: GateState): GateState {
    if pairs == [] then default else pairs[|pairs| - 1]
  }

  lemma {:induction false} ChangesAppend(prev: GateState, a: seq<GateState>, b: seq<GateState>)
    ensures Changes(prev, a + b) == Changes(prev, a) + Changes(LastOr(a, prev), b)
    decreases |a|
  {
    if a == [] {
      assert a + b == b;
    } else {
      assert (a + b)[0] == a[0];
      assert (a + b)[1..] == a[1..] + b;
      ChangesAppend(a[0], a[1..], b);
      assert LastOr(a[1..], a[0]) == LastOr(a, prev);
    }
  }

  /**
   * Over any sequence of evaluations, the events are exactly the ready
   * evaluations whose bucket pair differs from the previous ready pair (the
   * first ready evaluation after the start compares with the start), each
   * carrying that pair; so one event is sent per change, and the remembered
   * pair ends as the last ready evaluation's pair.
   */
  lemma {:induction false} RunEmitsOncePerChange(s: GateState, evals: seq<Evaluation>, avg: nat -> AmbiguousAverage)
    ensures PairsOf(Run(s, evals, avg).events) == ChangedPairs(s, ReadyBuckets(evals, avg))
    ensures |Run(s, evals, avg).events| == Changes(s, ReadyBuckets(evals, avg))
    ensures Run(s, evals, avg).last == LastOr(ReadyBuckets(evals, avg), s)
    decreases |evals|
  {
    if evals != [] {
      var e := evals[0];
      var r := Evaluate(s, e.isNotReady, e.availableEmbedOnly, e.stakedEmbedOnly, e.key, avg);
      RunEmitsOncePerChange(r.next, evals[1..], avg);
      var head := if e.isNotReady then [] else [r.next];
      var tail := ReadyBuckets(evals[1..], avg);
      assert ReadyBuckets(evals, avg) == head + tail;
      ChangesAppend(s, head, tail);
      ChangedPairsAppend(s, head, tail);
      var first := if r.event.Some? then [r.event.value] else [];
      var rest := Run(r.next, evals[1..], avg).events;
      PairsOfAppend(first, rest);
      assert PairsOf(first) == ChangedPairs(s, head);
      assert LastOr(head, s) == r.next;
      if tail != [] {
        assert (head + tail)[|head + tail| - 1] == tail[|tail| - 1];
      } else {
        assert head + tail == head;
      }
    }
    ChangedPairsCount(s, ReadyBuckets(evals, avg));
  }

  /** Evaluations while not ready send nothing and leave the buckets alone. */
  lemma {:induction false} NotReadyRunIsSilent(s: GateState, evals: seq<Evaluation>, avg: nat -> AmbiguousAverage)
    requires forall i :: 0 <= i < |evals| ==> evals[i].isNotReady
    ensures Run(s, evals, avg) == RunResult(s, [])
    decreases |evals|
  {
    if evals != [] {
      NotReadyRunIsSilent(s, evals[1..], avg);
    }
  }
}
