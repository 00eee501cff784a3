/**
  The broadcast fan-out: every id of a snapshot, in order, gets one attempt
  to copy the draft; a success is counted and followed by a pause, a
  failure (any exception from the transport) is counted and the loop goes
  on. The transport is an oracle telling, per recipient, whether the copy
  goes through; the pause is an event in the trace, not a duration.
 */
module Broadcast {
  import opened Session

  /** One event of a fan-out: a copy of the draft to a recipient (`ok` when
      it raised nothing), or the pause that follows a successful copy. */
  datatype Step = Copy(recipient: int, draft: Draft, ok: bool) | Pause

  /** The events of the attempt for one recipient. */
  function Attempt(user: int, draft: Draft, deliver: int -> bool): seq<Step> {
    if deliver(user) then [Copy(user, draft, true), Pause] else [Copy(user, draft, false)]
  }

  /** The events of a whole fan-out, attempt after attempt. */
  function Trace(users: seq<int>, draft: Draft, deliver: int -> bool): seq<Step> {
    if users == [] then []
    else Trace(users[..|users| - 1], draft, deliver) + Attempt(users[|users| - 1], draft, deliver)
  }

  /** The snapshot ids the transport accepts, in order. */
  function Delivered(users: seq<int>, deliver: int -> bool): seq<int> {
    if users == [] then []
    else
      var last := users[|users| - 1];
      Delivered(users[..|users| - 1], deliver) + (if deliver(last) then [last] else [])
  }

  /** The snapshot ids the transport rejects, in order. */
  function Failed(users: seq<int>, deliver: int -> bool): seq<int> {
    if users == [] then []
    else
      var last := users[|users| - 1];
      Failed(users[..|users| - 1], deliver) + (if deliver(last) then [] else [last])
  }

  // ---- what can be observed in a trace ----

  /** The recipients of all copy attempts, in order. */
  function Attempted(trace: seq<Step>): seq<int> {
    if trace == [] then []
    else
      var last := trace[|trace| - 1];
      Attempted(trace[..|trace| - 1]) + (if last.Copy? then [last.recipient] else [])
  }

  /** The recipients that were sent a copy, in order. */
  function Received(trace: seq<Step>): seq<int> {
    if trace == [] then []
    else
      var last := trace[|trace| - 1];
      Received(trace[..|trace| - 1]) + (if last.Copy? && last.ok then [last.recipient] else [])
  }

  function PauseCount(trace: seq<Step>): nat {
    if trace == [] then 0
    else PauseCount(trace[..|trace| - 1]) + (if trace[|trace| - 1].Pause? then 1 else 0)
  }

  /** Every copy carries the given draft. */
  predicate CopiesOf(trace: seq<Step>, draft: Draft) {
    forall k :: 0 <= k < |trace| && trace[k].Copy? ==> trace[k].draft == draft
  }

  /** Pauses come exactly after successful copies. */
  predicate PausedAfterSuccess(trace: seq<Step>) {
    (forall k :: 0 <= k < |trace| && trace[k].Pause? ==> k > 0 && trace[k - 1].Copy? && trace[k - 1].ok)
    && (forall k :: 0 <= k < |trace| && trace[k].Copy? && trace[k].ok ==> k + 1 < |trace| && trace[k + 1].Pause?)
  }

  /** Appending one attempt extends each observation by that attempt alone. */
  lemma AttemptExtends(prefix: seq<Step>, user: int, draft: Draft, deliver: int -> bool)
    ensures Attempted(prefix + Attempt(user, draft, deliver)) == Attempted(prefix) + [user]
    ensures Received(prefix + Attempt(user, draft, deliver))
         == Received(prefix) + (if deliver(user) then [user] else [])
    ensures PauseCount(prefix + Attempt(user, draft, deliver))
         == PauseCount(prefix) + (if deliver(user) then 1 else 0)
  {
    var copy := prefix + [Copy(user, draft, deliver(user))];
    assert copy[..|copy| - 1] == prefix;
    if deliver(user) {
      var whole := copy + [Pause];
      assert whole == prefix + Attempt(user, draft, deliver);
      assert whole[..|whole| - 1] == copy;
    }
  }

  /** Every snapshot id is attempted exactly once and in snapshot order,
      whatever fails; exactly the accepted ids receive a copy; and there
      are as many pauses as sent copies. */
  lemma {:induction false} TraceObservations(users: seq<int>, draft: Draft, deliver: int -> bool)
    ensures Attempted(Trace(users, draft, deliver)) == users
    ensures Received(Trace(users, draft, deliver)) == Delivered(users, deliver)
    ensures PauseCount(Trace(users, draft, deliver)) == |Delivered(users, deliver)|
  {
    if users != [] {
      var earlier := users[..|users| - 1];
      var last := users[|users| - 1];
      TraceObservations(earlier, draft, deliver);
      AttemptExtends(Trace(earlier, draft, deliver), last, draft, deliver);
      assert earlier + [last] == users;
    }
  }

  /** Each snapshot id is counted once, as sent or as failed. */
  lemma {:induction false} SentPlusFailed(users: seq<int>, deliver: int -> bool)
    ensures |Delivered(users, deliver)| + |Failed(users, deliver)| == |users|
  {
    if users != [] {
      SentPlusFailed(users[..|users| - 1], deliver);
    }
  }

  /** Appending one attempt keeps both shape properties of a trace. */
  lemma AttemptKeepsShape(prefix: seq<Step>, user: int, draft: Draft, deliver: int -> bool)
    requires CopiesOf(prefix, draft) && PausedAfterSuccess(prefix)
    ensures CopiesOf(prefix + Attempt(user, draft, deliver), draft)
    ensures PausedAfterSuccess(prefix + Attempt(user, draft, deliver))
  {
  }

  /** Only the draft is ever copied, and a pause comes right after each
      successful copy and nowhere else. */
  lemma {:induction false} TraceShape(users: seq<int>, draft: Draft, deliver: int -> bool)
    ensures CopiesOf(Trace(users, draft, deliver), draft)
    ensures PausedAfterSuccess(Trace(users, draft, deliver))
  {
    if users != [] {
      var earlier := users[..|users| - 1];
      TraceShape(earlier, draft, deliver);
      AttemptKeepsShape(Trace(earlier, draft, deliver), users[|users| - 1], draft, deliver);
    }
  }

  /** The fan-out loop. `success` and `blocked` are its two counters;
      `trace` records the copies and pauses in the order they happen. */
  method RunBroadcast(users: seq<int>, draft: Draft, deliver: int -> bool)
    returns (success: nat, blocked: nat, trace: seq<Step>)
    ensures trace == Trace(users, draft, deliver)
    ensures success == |Delivered(users, deliver)| && blocked == |Failed(users, deliver)|
    ensures success + blocked == |users|
    ensures Attempted(trace) == users && Received(trace) == Delivered(users, deliver)
    ensures PauseCount(trace) == success
    ensures CopiesOf(trace, draft) && PausedAfterSuccess(trace)
  {
    success, blocked, trace := 0, 0, [];
    var i := 0;
    while i < |users|
      invariant 0 <= i <= |users|
      invariant trace == Trace(users[..i], draft, deliver)
      invariant success == |Delivered(users[..i], deliver)|
      invariant blocked == |Failed(users[..i], deliver)|
    {
      var user := users[i];
      assert users[..i + 1][..i] == users[..i];
      if deliver(user) {
        trace := trace + [Copy(user, draft, true)];
        success := success + 1;
        trace := trace + [Pause];
      } else {
        trace := trace + [Copy(user, draft, false)];
        blocked := blocked + 1;
      }
      i := i + 1;
    }
    assert users[..i] == users;
    TraceObservations(users, draft, deliver);
    SentPlusFailed(users, deliver);
    TraceShape(users, draft, deliver);
  }

  /** A failure in the middle stops nothing: with ids 1, 2, 3 and only 2
      rejected, 1 and 3 receive the draft, two are sent and one failed,
      and no pause follows the failed copy. */
  lemma MiddleFailureIsolated(draft: Draft)
    ensures Trace([1, 2, 3], draft, x => x != 2)
         == [Copy(1, draft, true), Pause, Copy(2, draft, false), Copy(3, draft, true), Pause]
    ensures Delivered([1, 2, 3], x => x != 2) == [1, 3]
    ensures |Delivered([1, 2, 3], x => x != 2)| == 2 && |Failed([1, 2, 3], x => x != 2)| == 1
  {
    var deliver := x => x != 2;
    assert [1, 2, 3][..2] == [1, 2];
    assert [1, 2][..1] == [1];
    assert [1][..0] == [];
    assert Trace([1], draft, deliver) == [Copy(1, draft, true), Pause];
    assert Trace([1, 2], draft, deliver) == [Copy(1, draft, true), Pause, Copy(2, draft, false)];
  }
}
