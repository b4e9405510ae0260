/**
 * The `char** errptr` convention: every fallible call takes an in/out slot
 * that holds NULL or an error message. Success leaves the slot as it was;
 * failure discards the old message and installs a fresh one.
 */
module ErrorChannel {
  import opened Wrappers

  /** The outcome of one call as the engine reports it. */
  datatype Status = Ok | Failure(message: string)

  /** The slot's content after one call that ended with status s. */
  function AfterCall(slot: Option<string>, s: Status): Option<string>
  {
    match s
    case Ok => slot
    case Failure(msg) => Some(msg)
  }

  /** The slot's content after a chain of calls whose results were not checked in between. */
  function AfterCalls(slot: Option<string>, calls: seq<Status>): Option<string>
    decreases |calls|
  {
    if calls == [] then slot
    else AfterCall(AfterCalls(slot, calls[..|calls| - 1]), calls[|calls| - 1])
  }

  /** The message of the last failing call of the chain, if any failed. */
  function LastFailure(calls: seq<Status>): Option<string>
    decreases |calls|
  {
    if calls == [] then None
    else if calls[|calls| - 1].Failure? then Some(calls[|calls| - 1].message)
    else LastFailure(calls[..|calls| - 1])
  }

  /**
   * Overwrite, never merge: after a chain of calls the slot holds exactly
   * the last failure's message, or what it held on entry if all succeeded.
   */
  lemma {:induction false} LastFailureWins(slot: Option<string>, calls: seq<Status>)
    ensures AfterCalls(slot, calls) == if LastFailure(calls).Some? then LastFailure(calls) else slot
    decreases |calls|
  {
    if calls != [] {
      LastFailureWins(slot, calls[..|calls| - 1]);
    }
  }

  /**
   * Starting from NULL, the slot is still NULL after the chain exactly when
   * every call succeeded: failure detection is one pointer comparison.
   */
  lemma {:induction false} NoErrorIffAllSucceeded(calls: seq<Status>)
    ensures AfterCalls(None, calls) == None <==> forall i :: 0 <= i < |calls| ==> calls[i].Ok?
    decreases |calls|
  {
    LastFailureWins(None, calls);
    if calls != [] {
      var init := calls[..|calls| - 1];
      NoErrorIffAllSucceeded(init);
      assert forall i :: 0 <= i < |init| ==> init[i] == calls[i];
    }
  }

  /** The caller's `char* err` variable, passed by address. */
  class ErrSlot {
    var message: Option<string>

    constructor ()
      ensures message == None
    {
      message := None;
    }

    /** Reports status s through the slot. */
    method Save(s: Status)
      modifies this
      ensures message == AfterCall(old(message), s)
      ensures s.Ok? ==> message == old(message)
      ensures s.Failure? ==> message == Some(s.message)
    {
      if s.Failure? {
        message := Some(s.message);
      }
    }
  }
}
