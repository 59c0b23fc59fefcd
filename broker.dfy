/**
 * The part of a RabbitMQ channel the poll cycle uses: `basicGet(obs_queue, false)`
 * (a non-blocking fetch without auto-acknowledgement) and `basicAck(tag, false)`.
 * The queue holds message bodies, already decoded to strings.
 */
module Broker {
  import opened Wrappers

  /** A GetResponse: the delivery tag of its envelope and its body as a String. */
  datatype Delivery = Delivery(tag: nat, body: string)

  /** The response of one `basicGet` and the channel's state after it. */
  datatype Fetch = Fetch(response: Option<Delivery>, rest: seq<string>, lastTag: nat)

  /**
   * `basicGet` on a queue holding `queue`, when the channel last issued the
   * delivery tag `lastTag`: the head message under the next tag, or null
   * when the queue is empty. No message is lost or invented.
   */
  function FetchNext(queue: seq<string>, lastTag: nat): (f: Fetch)
    ensures f.response.None? <==> queue == []
    ensures f.response.None? ==> f.rest == queue && f.lastTag == lastTag
    ensures f.response.Some? ==>
      && f.response.value.body == queue[0] && f.rest == queue[1..]
      && f.response.value.tag == f.lastTag == lastTag + 1
  {
    if queue == [] then Fetch(None, [], lastTag)
    else Fetch(Some(Delivery(lastTag + 1, queue[0])), queue[1..], lastTag + 1)
  }

  class Channel {
    /** The bodies ready in the bound queue, oldest first. */
    var queue: seq<string>
    /** The delivery tag most recently issued on this channel (0: none yet). */
    var lastTag: nat
    /** The delivery tags acknowledged so far, in order. */
    var acked: seq<nat>

    constructor (queue: seq<string>)
      ensures this.queue == queue && lastTag == 0 && acked == []
    {
      this.queue := queue;
      lastTag := 0;
      acked := [];
    }

    method BasicGet() returns (response: Option<Delivery>)
      modifies this
      ensures var f := FetchNext(old(queue), old(lastTag));
        response == f.response && queue == f.rest && lastTag == f.lastTag
      ensures acked == old(acked)
    {
      var f := FetchNext(queue, lastTag);
      response, queue, lastTag := f.response, f.rest, f.lastTag;
    }

    method BasicAck(tag: nat)
      modifies this
      ensures acked == old(acked) + [tag]
      ensures queue == old(queue) && lastTag == old(lastTag)
    {
      acked := acked + [tag];
    }
  }
}
