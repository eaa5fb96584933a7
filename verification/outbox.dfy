/**
 The outbound side as the handler sees it: `enqueue_message(uid, body)` is an
 append of `(uid, body)` to one ordered sequence of messages. Delivery,
 rate limiting and retries happen behind this interface.
 */
module Outbox {

  /** One outbound message: destination user id and text. */
  datatype Message = Message(to: string, body: string)

  type Outbox = seq<Message>

  /** `enqueue_message(uid, body)`. */
  function Enqueue(out: Outbox, uid: string, body: string): Outbox {
    out + [Message(uid, body)]
  }

  /** Enqueue `bodies` for `uid`, one message each, in order. */
  function EnqueueAll(out: Outbox, uid: string, bodies: seq<string>): (r: Outbox)
    ensures |r| == |out| + |bodies|
    ensures r[..|out|] == out
    ensures forall i :: |out| <= i < |r| ==> r[i] == Message(uid, bodies[i - |out|])
    decreases |bodies|
  {
    if bodies == [] then out else EnqueueAll(Enqueue(out, uid, bodies[0]), uid, bodies[1..])
  }

  /** The texts of a run of messages, in order. */
  function Bodies(ms: seq<Message>): (bs: seq<string>)
    ensures |bs| == |ms|
    ensures forall i :: 0 <= i < |ms| ==> bs[i] == ms[i].body
  {
    seq(|ms|, i requires 0 <= i < |ms| => ms[i].body)
  }

  /** Every message of the run is addressed to `uid`. */
  predicate AllTo(ms: seq<Message>, uid: string) {
    forall i :: 0 <= i < |ms| ==> ms[i].to == uid
  }

  /** The messages `EnqueueAll` adds are addressed to `uid` and carry `bodies` in order. */
  lemma EnqueueAllAdds(out: Outbox, uid: string, bodies: seq<string>)
    ensures var r := EnqueueAll(out, uid, bodies);
      && AllTo(r[|out|..], uid)
      && Bodies(r[|out|..]) == bodies
  {
    var r := EnqueueAll(out, uid, bodies);
    assert forall i :: 0 <= i < |bodies| ==> r[|out|..][i] == r[|out| + i];
  }
}
