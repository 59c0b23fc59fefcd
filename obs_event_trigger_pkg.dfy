/**
 * The trigger class without logging (jenkins.plugins.ObsEventTrigger.ObsEventTrigger):
 * the same poll cycle with no log buffer and no file, and a match test on
 * `causeString` written as a reference comparison.
 */
module ObsEventTriggerPkg {
  import opened Wrappers
  import opened Json
  import opened Matcher
  import opened Broker
  import opened Host
  import opened PollCycle

  /**
   * The String object `causeString` refers to: the interned literal "" that
   * a mismatch assigns, or the String `toString(4)` returned for the event.
   */
  datatype CauseRef = EmptyLiteral | Rendering(text: Text)

  /** The characters of the referenced String. */
  function Content(c: CauseRef): string {
    match c
    case EmptyLiteral => ""
    case Rendering(text) => text
  }

  /** `causeString != ""`: true unless causeString is the literal "" itself. */
  predicate NotTheEmptyLiteral(c: CauseRef) {
    !c.EmptyLiteral?
  }

  /**
   * The reference comparison decides what a content comparison would: a
   * rendering is never the empty string, so no String the loop can hold is
   * "" by content while being a different object from the literal.
   */
  lemma ReferenceTestAgreesWithContent(c: CauseRef)
    ensures NotTheEmptyLiteral(c) <==> Content(c) != ""
  {
  }

  class Trigger {
    /** `obMatchEvent`, parsed from the `obs_event` setting; its names() are `sMatchNames`. */
    const pattern: JsonObject
    /** json-lib's `(JSONObject) JSONSerializer.toJSON(..)`. */
    const toJson: Parser
    /** The channel opened by `start()`, bound to the job's queue. */
    const channel: Channel
    const job: Job
    /** `obGotEvent`: the event most recently parsed. */
    var obGotEvent: Option<JsonObject>

    ghost predicate Valid() {
      pattern.Valid()
    }

    constructor (pattern: JsonObject, toJson: Parser, channel: Channel, job: Job)
      requires pattern.Valid()
      ensures Valid()
      ensures this.pattern == pattern && this.toJson == toJson
      ensures this.channel == channel && this.job == job
      ensures obGotEvent == None
    {
      this.pattern := pattern;
      this.toJson := toJson;
      this.channel := channel;
      this.job := job;
      obGotEvent := None;
    }

    /**
     * One poll cycle: fetch, acknowledge, parse and test each message until
     * one matches (one build, then stop) or the queue is empty. An exception
     * ends the cycle through the single catch of `run()`; here that is a `return`.
     */
    method Run()
      requires Valid()
      modifies this, channel, job
      ensures var r := PlainCycle(pattern, toJson, old(channel.queue), old(channel.lastTag), old(obGotEvent));
        && channel.queue == r.rest && channel.lastTag == r.lastTag
        && channel.acked == old(channel.acked) + Acks(r.trace)
        && job.builds == old(job.builds) + Builds(r.trace)
        && obGotEvent == r.last
    {
      // G: where the whole cycle ends, by the specification
      ghost var G := Resume(channel.acked, job.builds, Drain(pattern, toJson, 0, channel.queue, channel.lastTag, "", obGotEvent));
      // qb, tb: the queue and the tag before the latest basicGet
      ghost var qb, tb := channel.queue, channel.lastTag;
      var response := channel.BasicGet();
      while response.Some?
        invariant FetchNext(qb, tb) == Fetch(response, channel.queue, channel.lastTag)
        invariant G == Resume(channel.acked, job.builds, Drain(pattern, toJson, 0, qb, tb, "", obGotEvent))
        decreases |channel.queue| + (if response.Some? then 1 else 0)
      {
        var d := response.value;
        ghost var acked := channel.acked;
        channel.BasicAck(d.tag);
        var parsed := toJson(d.body);
        if !parsed.Object? {
          // JSONException or ClassCastException: the message stays acknowledged
          LoopFails(pattern, toJson, 0, G, acked, job.builds, qb, tb, "", obGotEvent);
          return;
        }
        var ev := parsed.obj;
        ghost var lastBefore := obGotEvent;
        obGotEvent := Some(ev);
        var causeString := Rendering(ev.text);
        var i := FindMismatch(pattern, ev);
        if i < |pattern.names| {
          causeString := EmptyLiteral;
        }
        if NotTheEmptyLiteral(causeString) {
          LoopMatches(pattern, toJson, 0, G, acked, job.builds, qb, tb, "", lastBefore, ev);
          job.ScheduleBuild(Description(Content(causeString)));
          return;
        }
        LoopPasses(pattern, toJson, 0, G, acked, job.builds, qb, tb, "", lastBefore, ev);
        qb, tb := channel.queue, channel.lastTag;
        response := channel.BasicGet();
      }
      // basicGet returned null: the queue is drained
      LoopDrained(pattern, toJson, 0, G, channel.acked, job.builds, tb, "", obGotEvent);
    }
  }
}
