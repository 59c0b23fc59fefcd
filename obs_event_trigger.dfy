/**
 * The trigger class with logging (jenkins.plugins.ObsEventTrigger): its
 * class-wide metadata table and the poll cycle `run()`.
 */
module ObsEventTrigger {
  import opened Wrappers
  import opened Json
  import opened Matcher
  import opened Broker
  import opened Host
  import opened JavaInt
  import opened PollCycle

  /**
   * The class-wide `metaData` Hashtable (a static field in the class); one
   * instance of this class stands for it.
   */
  class MetaDataTable<V> {
    var table: map<string, V>

    constructor ()
      ensures table == map[]
    {
      table := map[];
    }

    /** `getMetaData(key)`: the value stored under key, or null (None). */
    function GetMetaData(key: string): (r: Option<V>)
      reads this
      ensures r.Some? <==> key in table
      ensures r.Some? ==> r.value == table[key]
    {
      if key in table then Some(table[key]) else None
    }

    /** `addMetaData(key, value)`: stores value under key, replacing what was there. */
    method AddMetaData(key: string, value: V)
      modifies this
      ensures table == old(table)[key := value]
      ensures GetMetaData(key) == Some(value)
      ensures forall k :: k != key ==> GetMetaData(k) == old(GetMetaData(k))
    {
      table := table[key := value];
    }

    /** `removeMetaData(key)`: forgets key; other keys keep their values. */
    method RemoveMetaData(key: string)
      modifies this
      ensures table == old(table) - {key}
      ensures GetMetaData(key) == None
      ensures forall k :: k != key ==> GetMetaData(k) == old(GetMetaData(k))
    {
      table := table - {key};
    }
  }

  class Trigger {
    /** `obMatchEvent`, parsed from the `obs_event` setting; its names() are `sMatchNames`. */
    const pattern: JsonObject
    /** The `logging` setting: "0" none, "1" the latest match, "2" every received event. */
    const logging: string
    /** json-lib's `(JSONObject) JSONSerializer.toJSON(..)`. */
    const toJson: Parser
    /** The channel opened by `start()`, bound to the job's queue. */
    const channel: Channel
    const job: Job
    const fs: FileSystem
    /** `obGotEvent`: the event most recently parsed. */
    var obGotEvent: Option<JsonObject>

    ghost predicate Valid() {
      pattern.Valid()
    }

    constructor (pattern: JsonObject, logging: string, toJson: Parser, channel: Channel, job: Job, fs: FileSystem)
      requires pattern.Valid()
      ensures Valid()
      ensures this.pattern == pattern && this.logging == logging && this.toJson == toJson
      ensures this.channel == channel && this.job == job && this.fs == fs
      ensures obGotEvent == None
    {
      this.pattern := pattern;
      this.logging := logging;
      this.toJson := toJson;
      this.channel := channel;
      this.job := job;
      this.fs := fs;
      obGotEvent := None;
    }

    /**
     * One poll cycle. Every exception ends the cycle through the single catch
     * of `run()`, which only prints it; here that is a `return`.
     */
    method Run()
      requires Valid()
      modifies this, channel, job, fs
      ensures var r := LoggingCycle(pattern, toJson, logging, old(channel.queue), old(channel.lastTag), old(obGotEvent));
        && channel.queue == r.rest && channel.lastTag == r.lastTag
        && channel.acked == old(channel.acked) + Acks(r.trace)
        && job.builds == old(job.builds) + Builds(r.trace)
        && fs.files == FileAfter(old(fs.files), LogPath(job.rootDir), r.trace)
        && obGotEvent == r.last
    {
      ghost var q0, t0, last0, files0 := channel.queue, channel.lastTag, obGotEvent, fs.files;
      var response := channel.BasicGet();
      var parsedChoice := ParseInt(logging);
      if parsedChoice.None? {
        // NumberFormatException: the fetched message is never acknowledged
        InvalidLoggingEffects(pattern, toJson, logging, q0, t0, last0, files0, LogPath(job.rootDir));
        return;
      }
      var choice := parsedChoice.value;
      LoggingCycleEffects(pattern, toJson, logging, q0, t0, last0, files0, LogPath(job.rootDir));
      var logString, failed := ReceiveUntilMatch(choice, response, q0, t0);
      if failed {
        // the exception skips the write
        return;
      }
      if logString != "" {
        fs.Write(LogPath(job.rootDir), logString, choice == 2);
      }
    }

    /**
     * The loop of `run()`, from the response of a `basicGet` on a queue that
     * held `queue` when the channel's last tag was `lastTag`; `choice` is the
     * parsed logging mode. Returns the log buffer, and whether an exception
     * (a body that is not a JSON object) ended the loop. A match ends the
     * loop (the `break`), which here is a `return`.
     */
    method ReceiveUntilMatch(choice: int, first: Option<Delivery>, ghost queue: seq<string>, ghost lastTag: nat)
      returns (logString: string, failed: bool)
      requires Valid()
      requires FetchNext(queue, lastTag) == Fetch(first, channel.queue, channel.lastTag)
      modifies this, channel, job
      ensures var r := Drain(pattern, toJson, choice, queue, lastTag, "", old(obGotEvent));
        && channel.queue == r.rest && channel.lastTag == r.lastTag
        && channel.acked == old(channel.acked) + Acks(r.trace)
        && job.builds == old(job.builds) + Builds(r.trace)
        && obGotEvent == r.last && logString == r.log
        && failed == (r.halt == ParseFailed)
    {
      // G: where the whole loop ends, by the specification
      ghost var G := Resume(channel.acked, job.builds, Drain(pattern, toJson, choice, queue, lastTag, "", obGotEvent));
      var response := first;
      logString, failed := "", false;
      // qb, tb: the queue and the tag before the latest basicGet
      ghost var qb, tb := queue, lastTag;
      while response.Some?
        invariant FetchNext(qb, tb) == Fetch(response, channel.queue, channel.lastTag)
        invariant G == Resume(channel.acked, job.builds, Drain(pattern, toJson, choice, qb, tb, logString, obGotEvent))
        decreases |channel.queue| + (if response.Some? then 1 else 0)
      {
        var d := response.value;
        ghost var acked := channel.acked;
        channel.BasicAck(d.tag);
        var parsed := toJson(d.body);
        if !parsed.Object? {
          // JSONException or ClassCastException: the message stays acknowledged
          LoopFails(pattern, toJson, choice, G, acked, job.builds, qb, tb, logString, obGotEvent);
          failed := true;
          return;
        }
        var ev := parsed.obj;
        ghost var logBefore, lastBefore := logString, obGotEvent;
        obGotEvent := Some(ev);
        var causeString: string := ev.text;
        if choice == 2 {
          logString := logString + causeString + "\n";
        }
        var i := FindMismatch(pattern, ev);
        if i < |pattern.names| {
          causeString := "";
        }
        if causeString != "" {
          LoopMatches(pattern, toJson, choice, G, acked, job.builds, qb, tb, logBefore, lastBefore, ev);
          if choice == 1 {
            logString := causeString;
          }
          job.ScheduleBuild(Description(causeString));
          return;
        }
        LoopPasses(pattern, toJson, choice, G, acked, job.builds, qb, tb, logBefore, lastBefore, ev);
        qb, tb := channel.queue, channel.lastTag;
        response := channel.BasicGet();
      }
      // basicGet returned null: the queue is drained
      LoopDrained(pattern, toJson, choice, G, channel.acked, job.builds, tb, logString, obGotEvent);
    }
  }
}
