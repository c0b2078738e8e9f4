/** The endless monitor loop of `Main`, run over a finite stretch of measurements. */
module Monitor {
  import opened Types
  import opened Classifier
  import opened Notify

  /** What one iteration decides: whether to notify, and the new value of `last`. */
  datatype StepResult = StepResult(notify: bool, last: FlapState)

  /** The loop body after classification: notify on a change to a state other than Closed. */
  function Step(last: FlapState, current: FlapState): StepResult
  {
    StepResult(current != Closed && current != last, current)
  }

  /** Reading the same state twice in a row notifies at most on the first reading. */
  lemma RepeatedReadingIsQuiet(last: FlapState, current: FlapState)
    ensures !Step(Step(last, current).last, current).notify
  {
  }

  /** The value of `last` when reading `i` is classified: `Closed` before the first one. */
  function Previous(readings: seq<FlapState>, i: nat): FlapState
    requires i <= |readings|
  {
    if i == 0 then Closed else readings[i - 1]
  }

  predicate Notifies(readings: seq<FlapState>, i: nat)
    requires i < |readings|
  {
    Step(Previous(readings, i), readings[i]).notify
  }

  /** The indices of the readings that notify, in order. */
  function NotifyLog(readings: seq<FlapState>): seq<nat>
    decreases |readings|
  {
    if readings == [] then []
    else
      var n := |readings| - 1;
      NotifyLog(readings[..n]) + (if Notifies(readings, n) then [n] else [])
  }

  lemma NotifiesPrefix(readings: seq<FlapState>, n: nat, i: nat)
    requires i < n <= |readings|
    ensures Notifies(readings[..n], i) == Notifies(readings, i)
  {
  }

  /**
   * The log holds, in increasing order, exactly the readings that notify; each of them is
   * Inside or Outside and differs from the reading before it.
   */
  lemma {:induction false} NotifyLogExact(readings: seq<FlapState>)
    ensures forall i: nat :: i in NotifyLog(readings) <==> i < |readings| && Notifies(readings, i)
    ensures forall a, b :: 0 <= a < b < |NotifyLog(readings)| ==> NotifyLog(readings)[a] < NotifyLog(readings)[b]
    ensures forall k :: 0 <= k < |NotifyLog(readings)| ==>
              NotifyLog(readings)[k] < |readings|
              && readings[NotifyLog(readings)[k]] in {Inside, Outside}
              && readings[NotifyLog(readings)[k]] != Previous(readings, NotifyLog(readings)[k])
    decreases |readings|
  {
    if readings != [] {
      var n := |readings| - 1;
      var front := readings[..n];
      NotifyLogExact(front);
      forall i: nat | i < n
        ensures Notifies(front, i) == Notifies(readings, i)
      {
        NotifiesPrefix(readings, n, i);
      }
      forall k | 0 <= k < |NotifyLog(front)|
        ensures NotifyLog(front)[k] < n
      {
        assert NotifyLog(front)[k] in NotifyLog(front);
      }
    }
  }

  /** A Closed reading never notifies. */
  lemma ClosedNeverNotifies(readings: seq<FlapState>, i: nat)
    requires i < |readings| && readings[i] == Closed
    ensures !Notifies(readings, i)
  {
  }

  /**
   * A maximal run of equal readings other than Closed notifies on its first reading and on
   * none of the others.
   */
  lemma RunNotifiesOnce(readings: seq<FlapState>, i: nat, j: nat)
    requires i <= j < |readings|
    requires readings[i] != Closed
    requires forall k :: i <= k <= j ==> readings[k] == readings[i]
    requires i == 0 || readings[i - 1] != readings[i]
    ensures Notifies(readings, i)
    ensures forall k :: i < k <= j ==> !Notifies(readings, k)
  {
  }

  /**
   * Inside, Inside, Closed, Outside notifies on the first reading and the last; Closed
   * also resets `last`, so Inside, Closed, Inside notifies twice.
   */
  lemma ScenarioLogs()
    ensures NotifyLog([Inside, Inside, Closed, Outside]) == [0, 3]
    ensures NotifyLog([Inside, Closed, Inside]) == [0, 2]
  {
    var r := [Inside, Inside, Closed, Outside];
    assert r[..3] == [Inside, Inside, Closed] && r[..3][..2] == [Inside, Inside];
    assert r[..3][..2][..1] == [Inside] && r[..3][..2][..1][..0] == [];
    assert NotifyLog([Inside]) == [0];
    assert NotifyLog([Inside, Inside]) == [0];
    assert NotifyLog([Inside, Inside, Closed]) == [0];
    var q := [Inside, Closed, Inside];
    assert q[..2] == [Inside, Closed] && q[..2][..1] == [Inside];
    assert NotifyLog([Inside, Closed]) == [0];
  }

  /** The classified states of a stretch of measurements. */
  function Classifications(measurements: seq<Vector3>, refs: References, length: Vector3 -> real): seq<FlapState>
  {
    seq(|measurements|, k requires 0 <= k < |measurements| => GetFlapState(measurements[k], refs, length))
  }

  /**
   * The `while (true)` loop of `Main` over the measurements it takes: classify, `Toot` on a
   * qualifying change, set `last`. `times[k]` is the local time at iteration k. Returns the
   * iterations that notified, the texts published, and the final `last`.
   */
  method Run(measurements: seq<Vector3>, refs: References, length: Vector3 -> real, times: seq<string>)
    returns (fired: seq<nat>, posts: seq<string>, last: FlapState)
    requires |times| == |measurements|
    ensures fired == NotifyLog(Classifications(measurements, refs, length))
    ensures |posts| == |fired|
    ensures forall k :: 0 <= k < |fired| ==>
              fired[k] < |measurements|
              && TootMessage(GetFlapState(measurements[fired[k]], refs, length), times[fired[k]]) == Some(posts[k])
    ensures last == Previous(Classifications(measurements, refs, length), |measurements|)
  {
    ghost var states := Classifications(measurements, refs, length);
    fired, posts, last := [], [], Closed;
    var i := 0;
    while i < |measurements|
      invariant 0 <= i <= |measurements|
      invariant last == Previous(states, i)
      invariant fired == NotifyLog(states[..i])
      invariant |posts| == |fired|
      invariant forall k :: 0 <= k < |fired| ==>
                  fired[k] < i && TootMessage(states[fired[k]], times[fired[k]]) == Some(posts[k])
    {
      var current := GetFlapState(measurements[i], refs, length);
      var step := Step(last, current);
      assert states[..i + 1][..i] == states[..i];
      if step.notify {
        var post := TootMessage(current, times[i]);
        posts := posts + [post.value];
        fired := fired + [i];
      }
      last := step.last;
      i := i + 1;
    }
    assert states[..i] == states;
  }
}
