/**
 * One polling round: a fresh client subscribes, the transport delivers any
 * number of messages to `on_message` during a short wait, and the round
 * returns the newest one. The network itself is not modelled: the round is
 * given the delivered texts and whether the connect/subscribe/wait block raised.
 */
module Polling {
  import opened Wrappers

  /** Whether the connect, subscribe, loop and disconnect block completed or raised. */
  datatype PollStatus = Completed | Raised

  /** The list that `on_message` appends decoded payloads to. */
  class Inbox {
    var messages: seq<string>

    constructor ()
      ensures messages == []
    {
      messages := [];
    }

    /** `on_message`: the payload, already decoded to text, is appended in delivery order. */
    method OnMessage(payload: string)
      modifies this
      ensures messages == old(messages) + [payload]
    {
      messages := messages + [payload];
    }
  }

  /** `messages[-1] if messages else None`. */
  function Latest(messages: seq<string>): (r: Option<string>)
    ensures r.None? <==> messages == []
    ensures r.Some? ==> r.value == messages[|messages| - 1]
  {
    if messages == [] then None else Some(messages[|messages| - 1])
  }

  /** The value `poll_mqtt` returns. */
  function PollResult(status: PollStatus, messages: seq<string>): (r: Option<string>)
    ensures r.Some? <==> status.Completed? && messages != []
    ensures r.Some? ==> r.value in messages
  {
    match status
    case Raised => None
    case Completed => Latest(messages)
  }

  /**
   * `poll_mqtt`: a fresh list receives every delivered payload through
   * `on_message`, in delivery order, and the round returns the newest one,
   * or nothing when the network block raised.
   */
  method PollMqtt(status: PollStatus, delivered: seq<string>) returns (r: Option<string>)
    ensures r == PollResult(status, delivered)
  {
    var inbox := new Inbox();
    var i := 0;
    while i < |delivered|
      invariant 0 <= i <= |delivered|
      invariant inbox.messages == delivered[..i]
    {
      inbox.OnMessage(delivered[i]);
      i := i + 1;
    }
    assert delivered[..i] == delivered;
    r := PollResult(status, inbox.messages);
  }

  /**
   * Only the newest delivery of a round survives: whatever arrived before it
   * is dropped, and a failed round drops everything.
   */
  lemma OnlyNewestSurvives(earlier: seq<string>, newest: string)
    ensures PollResult(Completed, earlier + [newest]) == Some(newest)
    ensures PollResult(Completed, earlier + [newest]) == PollResult(Completed, [newest])
    ensures PollResult(Raised, earlier + [newest]) == None
  {
  }
}
