/**
 * The per-client send state machine of a ClientConnection: a response is
 * serialised once into an outbound buffer, then written out one non-blocking
 * write() at a time from a resumable offset.
 *
 * The serialiser (HTTPResponse::toString) is not part of this model: it is a
 * function handed to PrepareResponse. The result of each write() -- a byte
 * count, or -1 together with whether errno said "would block" -- is a
 * parameter of SendResponseChunk.
 */
module Connection {
  import opened Common
  import opened Http

  /** The part of the connection sendResponseChunk reads and updates. */
  datatype SendState = SendState(buffer: string, offset: nat, sending: bool)

  predicate SendOk(s: SendState) {
    s.offset <= |s.buffer|
  }

  /** write() accepts at most the bytes it was offered, or fails with -1. */
  predicate SendResultOk(s: SendState, written: int) {
    s.sending ==> -1 <= written <= |s.buffer| - s.offset
  }

  /**
   * sendResponseChunk, given that write() returned `written` (and, when that
   * is -1, whether errno was EAGAIN/EWOULDBLOCK): the new state and whether
   * the response is finished with.
   */
  function SendStep(s: SendState, written: int, wouldBlock: bool): (res: (SendState, bool))
    requires SendOk(s) && SendResultOk(s, written)
    ensures SendOk(res.0) && res.0.buffer == s.buffer
    ensures res.1 ==> !res.0.sending
    ensures !s.sending ==> res == (s, false)
    ensures s.sending && written > 0 ==>
              res.0.offset == s.offset + written && res.0.sending == !res.1 &&
              (res.1 <==> res.0.offset == |s.buffer|)
    ensures s.sending && written == -1 && !wouldBlock ==> res == (s.(sending := false), true)
    ensures s.sending && (written == 0 || (written == -1 && wouldBlock)) ==> res == (s, false)
  {
    if !s.sending then (s, false)
    else if written > 0 then
      var offset := s.offset + written;
      if offset >= |s.buffer| then (SendState(s.buffer, offset, false), true)
      else (SendState(s.buffer, offset, true), false)
    else if written == -1 && !wouldBlock then (s.(sending := false), true)
    else (s, false)
  }

  /** sendResponseChunk called once per element of `ws`, write() accepting that many bytes each time. */
  function RunSends(s: SendState, ws: seq<nat>): (res: (SendState, seq<bool>))
    requires SendOk(s) && s.offset + Sum(ws) <= |s.buffer|
    ensures |res.1| == |ws| && SendOk(res.0)
    decreases ws
  {
    if ws == [] then (s, [])
    else
      var (s', done) := SendStep(s, ws[0], false);
      var (final, dones) := RunSends(s', ws[1..]);
      (final, [done] + dones)
  }

  /**
   * Partial writes that together accept the rest of the buffer: every call but
   * the last reports "not yet complete", the last reports completion, and the
   * offset ends exactly at the buffer's length with sending cleared.
   */
  lemma {:induction false} SendsComplete(s: SendState, ws: seq<nat>)
    requires SendOk(s) && s.sending && s.offset < |s.buffer|
    requires forall i :: 0 <= i < |ws| ==> ws[i] > 0
    requires s.offset + Sum(ws) == |s.buffer|
    ensures |ws| > 0
    ensures RunSends(s, ws).0 == SendState(s.buffer, |s.buffer|, false)
    ensures RunSends(s, ws).1[|ws| - 1]
    ensures forall i :: 0 <= i < |ws| - 1 ==> !RunSends(s, ws).1[i]
    decreases ws
  {
    var (s', done) := SendStep(s, ws[0], false);
    if |ws| == 1 {
      assert Sum(ws[1..]) == 0;
    } else {
      assert s'.offset < |s.buffer| by {
        assert Sum(ws[1..]) > 0 by { assert ws[1..][0] > 0; }
      }
      SendsComplete(s', ws[1..]);
    }
  }

  /**
   * An empty serialisation never completes: a write of nothing returns 0 and
   * the connection stays in the sending state.
   */
  lemma EmptyBufferNeverCompletes(wouldBlock: bool)
    ensures SendStep(SendState([], 0, true), 0, wouldBlock) == (SendState([], 0, true), false)
    ensures SendStep(SendState([], 0, true), -1, true) == (SendState([], 0, true), false)
  {
  }

  class ClientConnection {
    var request: Option<Request>
    var response: Option<Response>
    var responseBuffer: string
    var responseOffset: nat
    var isSending: bool

    ghost predicate Valid()
      reads this
    {
      responseOffset <= |responseBuffer|
    }

    function State(): SendState
      reads this
    {
      SendState(responseBuffer, responseOffset, isSending)
    }

    /** A new connection holds neither request nor response and is not sending. */
    constructor ()
      ensures request == None && response == None
      ensures responseOffset == 0 && !isSending && responseBuffer == ""
      ensures Valid()
    {
      request := None;
      response := None;
      responseBuffer := "";
      responseOffset := 0;
      isSending := false;
    }

    method SetRequest(r: Option<Request>)
      modifies this`request
      ensures request == r
    {
      request := r;
    }

    method SetResponse(r: Option<Response>)
      modifies this`response
      ensures response == r
    {
      response := r;
    }

    /**
     * Serialises the current response, if any, into the outbound buffer and
     * starts sending it from offset 0; without a response nothing changes.
     */
    method PrepareResponse(toWire: Response -> string)
      requires Valid()
      modifies this`responseBuffer, this`responseOffset, this`isSending
      ensures Valid()
      ensures response.None? ==> State() == old(State())
      ensures response.Some? ==> State() == SendState(toWire(response.value), 0, true)
    {
      if response.Some? {
        responseBuffer := toWire(response.value);
        responseOffset := 0;
        isSending := true;
      }
    }

    /**
     * One non-blocking write of the rest of the buffer, write() having returned
     * `written` and errno having said "would block" or not. Returns whether the
     * response is finished with: fully flushed, or abandoned on a hard error.
     */
    method SendResponseChunk(written: int, wouldBlock: bool) returns (done: bool)
      requires Valid() && SendResultOk(State(), written)
      modifies this`responseOffset, this`isSending
      ensures Valid()
      ensures (State(), done) == SendStep(old(State()), written, wouldBlock)
    {
      if !isSending {
        return false;
      }
      if written > 0 {
        responseOffset := responseOffset + written;
        if responseOffset >= |responseBuffer| {
          isSending := false;
          return true;
        }
      } else if written == -1 && !wouldBlock {
        isSending := false;
        return true;
      }
      return false;
    }

    /** True exactly when no response is being sent. */
    function IsResponseComplete(): (r: bool)
      reads this
      ensures r <==> !isSending
    {
      !isSending
    }
  }
}
