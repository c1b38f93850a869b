/**
  Sequences of schedule and remove calls made on the notification manager,
  and what they leave pending: per task identifier the last call that
  changed anything decides, and calls for other tasks never interfere.
 */
module PendingTraces {
  import opened Wrappers
  import opened UserNotifications
  import opened Scheduling

  /** One call on the notification manager. */
  datatype Call =
    | Schedule(task: Task, status: AuthorizationStatus)
    | Remove(task: Task)

  function Step(pending: map<string, Request>, call: Call, encode: Task -> Option<Bytes>): map<string, Request>
  {
    match call
    case Schedule(task, status) => AfterSchedule(pending, task, status, encode)
    case Remove(task) => AfterRemove(pending, task)
  }

  /** The pending requests after making the calls in order. */
  function Replay(pending: map<string, Request>, calls: seq<Call>, encode: Task -> Option<Bytes>): map<string, Request>
    decreases |calls|
  {
    if calls == [] then pending else Replay(Step(pending, calls[0], encode), calls[1..], encode)
  }

  /** No call in the sequence concerns the identifier `id`. */
  ghost predicate Untouched(calls: seq<Call>, id: string)
  {
    forall i :: 0 <= i < |calls| ==> calls[i].task.id != id
  }

  /** Whatever the calls, every pending request stays filed under its own identifier. */
  lemma {:induction false} ReplayKeepsIssued(pending: map<string, Request>, calls: seq<Call>, encode: Task -> Option<Bytes>)
    requires Issued(pending)
    ensures Issued(Replay(pending, calls, encode))
    decreases |calls|
  {
    if calls != [] {
      ReplayKeepsIssued(Step(pending, calls[0], encode), calls[1..], encode);
    }
  }

  /** Replaying two sequences one after the other is replaying their concatenation. */
  lemma {:induction false} ReplayAppend(pending: map<string, Request>, first: seq<Call>, second: seq<Call>,
                                        encode: Task -> Option<Bytes>)
    ensures Replay(pending, first + second, encode) == Replay(Replay(pending, first, encode), second, encode)
    decreases |first|
  {
    if first == [] {
      assert first + second == second;
    } else {
      assert (first + second)[0] == first[0];
      assert (first + second)[1..] == first[1..] + second;
      ReplayAppend(Step(pending, first[0], encode), first[1..], second, encode);
    }
  }

  /** Calls for other tasks leave the entry under `id` exactly as it was. */
  lemma {:induction false} ReplayUntouched(pending: map<string, Request>, calls: seq<Call>, id: string,
                                           encode: Task -> Option<Bytes>)
    requires Untouched(calls, id)
    ensures id in Replay(pending, calls, encode) <==> id in pending
    ensures id in pending ==> Replay(pending, calls, encode)[id] == pending[id]
    decreases |calls|
  {
    if calls != [] {
      assert calls[0].task.id != id;
      assert Untouched(calls[1..], id) by {
        forall i | 0 <= i < |calls[1..]| ensures calls[1..][i].task.id != id {
          assert calls[1..][i] == calls[i + 1];
        }
      }
      ReplayUntouched(Step(pending, calls[0], encode), calls[1..], id, encode);
    }
  }

  /**
    The last call for a task decides what is pending for it: after a
    removal nothing is, after a schedule that produced a request exactly
    that request is, and after a schedule that produced none whatever was
    pending before that call still is.
   */
  lemma LastCallDecides(pending: map<string, Request>, before: seq<Call>, call: Call, after: seq<Call>,
                        encode: Task -> Option<Bytes>)
    requires Untouched(after, call.task.id)
    ensures var id, mid := call.task.id, Replay(pending, before, encode);
      var final := Replay(pending, before + [call] + after, encode);
      && (call.Remove? ==> id !in final)
      && (call.Schedule? && ScheduledRequest(call.task, call.status, encode).Some? ==>
            id in final && final[id] == ScheduledRequest(call.task, call.status, encode).value)
      && (call.Schedule? && ScheduledRequest(call.task, call.status, encode).None? ==>
            (id in final <==> id in mid) && (id in mid ==> final[id] == mid[id]))
  {
    var mid := Replay(pending, before, encode);
    ReplayAppend(pending, before + [call], after, encode);
    ReplayAppend(pending, before, [call], encode);
    assert Replay(mid, [call], encode) == Step(mid, call, encode);
    ReplayUntouched(Step(mid, call, encode), after, call.task.id, encode);
  }
}
