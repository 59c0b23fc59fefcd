/**
 * One poll cycle (`run()`) of either trigger, as a function of the broker's
 * queue: fetch without blocking, acknowledge, parse and remember the event,
 * test it against the pattern, and on the first match schedule one build and
 * stop; otherwise go on until the queue is empty. Any exception ends the cycle.
 *
 * The cycle's effects are recorded as a trace of Steps; the Run methods of the
 * two trigger classes are proved to leave the channel, the job, the log file
 * and `obGotEvent` as that trace determines.
 */
module PollCycle {
  import opened Wrappers
  import opened Json
  import opened Matcher
  import opened Broker
  import opened JavaInt
  import opened Host

  datatype Step =
    | Got(tag: nat, body: string)        // basicGet returned a message
    | GotNothing                         // basicGet returned null
    | Ack(tag: nat)                      // basicAck(tag, false)
    | Parse(tag: nat, ok: bool)          // toJSON and the cast to JSONObject; ok: no exception
    | Schedule(description: string)      // job.scheduleBuild
    | Write(append: bool, text: string)  // the log file opened (appending or not) and written

  function GetStep(response: Option<Delivery>): Step {
    match response
    case None => GotNothing
    case Some(d) => Got(d.tag, d.body)
  }

  /** Why the cycle ended. */
  datatype Halt = Matched | Drained | ParseFailed | LoggingInvalid

  /**
   * The result of a cycle: its trace, what is left in the queue, the channel's
   * last delivery tag, the value of `obGotEvent`, the log buffer `logString`,
   * and why it stopped.
   */
  datatype Outcome = Outcome(
    trace: seq<Step>,
    rest: seq<string>,
    lastTag: nat,
    last: Option<JsonObject>,
    log: string,
    halt: Halt)

  function After(prefix: seq<Step>, r: Outcome): Outcome {
    r.(trace := prefix + r.trace)
  }

  /** `String.format("Caused by OBS Event: \n%s\n", causeString)` */
  function Description(text: string): string {
    "Caused by OBS Event: \n" + text + "\n"
  }

  /** `job.getRootDir() + "/obsevent.txt"` */
  function LogPath(rootDir: string): string {
    rootDir + "/obsevent.txt"
  }

  /** The buffer after an event is received: mode 2 appends its rendering and a newline. */
  function Logged(choice: int, log: string, ev: JsonObject): string {
    if choice == 2 then log + ev.text + "\n" else log
  }

  /**
   * The loop of `run()` from a `basicGet` on: `choice` is the parsed logging
   * mode, `log` the buffer so far, `last` the value of `obGotEvent`.
   * Mode 2 appends every received event's rendering and a newline; mode 1
   * replaces the buffer by the matching event's rendering.
   */
  function Drain(pattern: JsonObject, toJson: Parser, choice: int,
                 queue: seq<string>, lastTag: nat, log: string, last: Option<JsonObject>): Outcome
    decreases |queue|
  {
    var f := FetchNext(queue, lastTag);
    match f.response
    case None => Outcome([GotNothing], f.rest, f.lastTag, last, log, Drained)
    case Some(d) =>
      var received := [Got(d.tag, d.body), Ack(d.tag)];
      match toJson(d.body)
      case Object(ev) =>
        var log1 := Logged(choice, log, ev);
        if Matches(pattern, ev) then
          Outcome(received + [Parse(d.tag, true), Schedule(Description(ev.text))],
                  f.rest, f.lastTag, Some(ev), if choice == 1 then ev.text else log1, Matched)
        else
          After(received + [Parse(d.tag, true)],
                Drain(pattern, toJson, choice, f.rest, f.lastTag, log1, Some(ev)))
      case _ => Outcome(received + [Parse(d.tag, false)], f.rest, f.lastTag, last, log, ParseFailed)
  }

  /**
   * `run()` of the trigger with logging: the first `basicGet`, then
   * `Integer.parseInt(logging)` (whose exception ends the cycle before any
   * acknowledgement), the loop, and the log file written when the buffer is
   * not empty, appending iff the mode is 2. An exception in the loop skips the write.
   */
  function LoggingCycle(pattern: JsonObject, toJson: Parser, logging: string,
                        queue: seq<string>, lastTag: nat, last: Option<JsonObject>): Outcome
  {
    match ParseInt(logging)
    case None =>
      var f := FetchNext(queue, lastTag);
      Outcome([GetStep(f.response)], f.rest, f.lastTag, last, "", LoggingInvalid)
    case Some(choice) =>
      var r := Drain(pattern, toJson, choice, queue, lastTag, "", last);
      if r.halt != ParseFailed && r.log != "" then r.(trace := r.trace + [Write(choice == 2, r.log)])
      else r
  }

  /**
   * `run()` of the trigger without logging: the same loop with no log
   * buffer, which is the loop above with a mode that logs nothing (0).
   */
  function PlainCycle(pattern: JsonObject, toJson: Parser,
                      queue: seq<string>, lastTag: nat, last: Option<JsonObject>): Outcome
  {
    Drain(pattern, toJson, 0, queue, lastTag, "", last)
  }

  // ---------------------------------------------------------------------
  // Reading a trace

  /** The delivery tags acknowledged in a trace, in order. */
  function Acks(tr: seq<Step>): seq<nat> {
    if tr == [] then [] else (if tr[0].Ack? then [tr[0].tag] else []) + Acks(tr[1..])
  }

  /** The descriptions of the builds scheduled in a trace, in order. */
  function Builds(tr: seq<Step>): seq<string> {
    if tr == [] then [] else (if tr[0].Schedule? then [tr[0].description] else []) + Builds(tr[1..])
  }

  lemma {:induction false} AcksAppend(a: seq<Step>, b: seq<Step>)
    ensures Acks(a + b) == Acks(a) + Acks(b)
  {
    if a != [] {
      AcksAppend(a[1..], b);
      assert (a + b)[0] == a[0] && (a + b)[1..] == a[1..] + b;
    } else {
      assert a + b == b;
    }
  }

  lemma {:induction false} BuildsAppend(a: seq<Step>, b: seq<Step>)
    ensures Builds(a + b) == Builds(a) + Builds(b)
  {
    if a != [] {
      BuildsAppend(a[1..], b);
      assert (a + b)[0] == a[0] && (a + b)[1..] == a[1..] + b;
    } else {
      assert a + b == b;
    }
  }

  /** The files after a cycle whose trace ends with the log write, if it has one. */
  function FileAfter(files: map<string, string>, path: string, tr: seq<Step>): map<string, string> {
    if tr != [] && tr[|tr| - 1].Write? then AfterWrite(files, path, tr[|tr| - 1].text, tr[|tr| - 1].append)
    else files
  }

  /** Every fetched message is acknowledged at once, and parsed only after that. */
  ghost predicate AckedOnReceipt(tr: seq<Step>) {
    && (forall i :: 0 <= i < |tr| && tr[i].Got? ==> i + 1 < |tr| && tr[i + 1] == Ack(tr[i].tag))
    && (forall i :: 0 <= i < |tr| && tr[i].Parse? ==>
          2 <= i && tr[i - 1] == Ack(tr[i].tag) && tr[i - 2].Got? && tr[i - 2].tag == tr[i].tag)
  }

  /** No step of the trace is a write of the log file. */
  ghost predicate NoWrite(tr: seq<Step>) {
    forall i :: 0 <= i < |tr| ==> !tr[i].Write?
  }

  /** `from, from + 1, ..., from + n - 1` */
  function Range(from: nat, n: nat): (r: seq<nat>)
    ensures |r| == n && forall i :: 0 <= i < n ==> r[i] == from + i
    decreases n
  {
    if n == 0 then [] else [from] + Range(from + 1, n - 1)
  }

  // ---------------------------------------------------------------------
  // Where the loop stops

  /** The message is an object that does not match: the loop fetches the next one. */
  predicate Passes(pattern: JsonObject, toJson: Parser, body: string) {
    toJson(body).Object? && !Matches(pattern, toJson(body).obj)
  }

  /** The position of the first message that matches or fails to parse; |queue| if none does. */
  function StopAt(pattern: JsonObject, toJson: Parser, queue: seq<string>): (k: nat)
    ensures k <= |queue|
    ensures forall j :: 0 <= j < k ==> Passes(pattern, toJson, queue[j])
    ensures k < |queue| ==> !Passes(pattern, toJson, queue[k])
  {
    if queue == [] || !Passes(pattern, toJson, queue[0]) then 0
    else 1 + StopAt(pattern, toJson, queue[1..])
  }

  /** The events the loop parses, in order: those before the stop, and the stopping one when it is an object (the match). */
  function Received(pattern: JsonObject, toJson: Parser, queue: seq<string>): (evs: seq<JsonObject>)
    ensures var k := StopAt(pattern, toJson, queue);
      |evs| == k + (if k < |queue| && toJson(queue[k]).Object? then 1 else 0)
    ensures forall j :: 0 <= j < |evs| ==> toJson(queue[j]) == Object(evs[j])
  {
    if queue == [] then []
    else match toJson(queue[0])
      case Object(ev) =>
        if Matches(pattern, ev) then [ev] else [ev] + Received(pattern, toJson, queue[1..])
      case _ => []
  }

  /** The renderings of the events, each followed by a newline. */
  function AllRendered(evs: seq<JsonObject>): string {
    if evs == [] then "" else evs[0].text + "\n" + AllRendered(evs[1..])
  }

  // ---------------------------------------------------------------------
  // Unfolding the loop one message at a time

  /** A message that neither matches nor fails to parse: the loop records it and fetches the next one. */
  lemma DrainPassing(pattern: JsonObject, toJson: Parser, choice: int,
                     queue: seq<string>, lastTag: nat, log: string, last: Option<JsonObject>)
    requires queue != [] && Passes(pattern, toJson, queue[0])
    ensures var ev := toJson(queue[0]).obj;
      Drain(pattern, toJson, choice, queue, lastTag, log, last)
      == After([Got(lastTag + 1, queue[0]), Ack(lastTag + 1), Parse(lastTag + 1, true)],
               Drain(pattern, toJson, choice, queue[1..], lastTag + 1, Logged(choice, log, ev), Some(ev)))
  {
  }

  /** The message on which the loop stops: a match, or a parse failure. */
  lemma DrainStopping(pattern: JsonObject, toJson: Parser, choice: int,
                      queue: seq<string>, lastTag: nat, log: string, last: Option<JsonObject>)
    requires queue != [] && !Passes(pattern, toJson, queue[0])
    ensures var r := Drain(pattern, toJson, choice, queue, lastTag, log, last);
            var t := lastTag + 1;
      && r.rest == queue[1..] && r.lastTag == t
      && (toJson(queue[0]).Object? ==>
            var ev := toJson(queue[0]).obj;
            r == Outcome([Got(t, queue[0]), Ack(t), Parse(t, true), Schedule(Description(ev.text))],
                         queue[1..], t, Some(ev), if choice == 1 then ev.text else Logged(choice, log, ev), Matched))
      && (!toJson(queue[0]).Object? ==>
            r == Outcome([Got(t, queue[0]), Ack(t), Parse(t, false)], queue[1..], t, last, log, ParseFailed))
  {
  }

  /** The message the loop stops on is a match: acknowledged, parsed, and a build scheduled. */
  lemma DrainMatching(pattern: JsonObject, toJson: Parser, choice: int,
                      queue: seq<string>, lastTag: nat, log: string, last: Option<JsonObject>, ev: JsonObject)
    requires queue != [] && toJson(queue[0]) == Object(ev) && Matches(pattern, ev)
    ensures var t := lastTag + 1;
      Drain(pattern, toJson, choice, queue, lastTag, log, last)
      == Outcome([Got(t, queue[0]), Ack(t), Parse(t, true), Schedule(Description(ev.text))],
                 queue[1..], t, Some(ev), if choice == 1 then ev.text else Logged(choice, log, ev), Matched)
  {
  }

  /** The loop on an empty queue: one `basicGet` that returns null. */
  lemma DrainEmpty(pattern: JsonObject, toJson: Parser, choice: int,
                   lastTag: nat, log: string, last: Option<JsonObject>)
    ensures Drain(pattern, toJson, choice, [], lastTag, log, last) == Outcome([GotNothing], [], lastTag, last, log, Drained)
  {
  }

  /** The loop's trace starts with a `basicGet`. */
  lemma DrainStartsWithFetch(pattern: JsonObject, toJson: Parser, choice: int,
                             queue: seq<string>, lastTag: nat, log: string, last: Option<JsonObject>)
    ensures var r := Drain(pattern, toJson, choice, queue, lastTag, log, last);
      r.trace != [] && (r.trace[0].Got? || r.trace[0].GotNothing?)
  {
    if queue != [] {
      if Passes(pattern, toJson, queue[0]) {
        DrainPassing(pattern, toJson, choice, queue, lastTag, log, last);
      } else {
        DrainStopping(pattern, toJson, choice, queue, lastTag, log, last);
      }
    }
  }

  lemma AckedOnReceiptCons(t: nat, body: string, tail: seq<Step>)
    requires AckedOnReceipt(tail)
    requires tail != [] ==> !tail[0].Parse?
    ensures AckedOnReceipt([Got(t, body), Ack(t), Parse(t, true)] + tail)
  {
    var tr := [Got(t, body), Ack(t), Parse(t, true)] + tail;
    forall i | 0 <= i < |tr| && tr[i].Got?
      ensures i + 1 < |tr| && tr[i + 1] == Ack(tr[i].tag)
    {
      if i >= 3 { assert tr[i] == tail[i - 3] && tr[i + 1] == tail[i - 2]; }
    }
    forall i | 0 <= i < |tr| && tr[i].Parse?
      ensures 2 <= i && tr[i - 1] == Ack(tr[i].tag) && tr[i - 2].Got? && tr[i - 2].tag == tr[i].tag
    {
      if i >= 3 {
        assert tr[i] == tail[i - 3];
        if i - 3 >= 2 {
          assert tr[i - 1] == tail[i - 4] && tr[i - 2] == tail[i - 5];
        }
      }
    }
  }

  /** The acknowledgements and builds among the three steps every received message starts with. */
  lemma MessageSteps(t: nat, body: string, ok: bool, extra: seq<Step>)
    ensures Acks([Got(t, body), Ack(t), Parse(t, ok)] + extra) == [t] + Acks(extra)
    ensures Builds([Got(t, body), Ack(t), Parse(t, ok)] + extra) == Builds(extra)
  {
    var s := [Got(t, body), Ack(t), Parse(t, ok)] + extra;
    assert s[1..] == [Ack(t), Parse(t, ok)] + extra;
    assert s[1..][1..] == [Parse(t, ok)] + extra;
    assert s[1..][1..][1..] == extra;
    assert Acks(s[1..][1..]) == Acks(extra) && Builds(s[1..][1..]) == Builds(extra);
    assert Acks(s[1..]) == [t] + Acks(extra) && Builds(s[1..]) == Builds(extra);
  }

  lemma SingleStep(step: Step)
    ensures Acks([step]) == (if step.Ack? then [step.tag] else [])
    ensures Builds([step]) == (if step.Schedule? then [step.description] else [])
  {
    assert [step][1..] == [];
  }

  /** One step appended to a trace. */
  lemma AppendStep(done: seq<Step>, step: Step)
    ensures Acks(done + [step]) == Acks(done) + (if step.Ack? then [step.tag] else [])
    ensures Builds(done + [step]) == Builds(done) + (if step.Schedule? then [step.description] else [])
  {
    AcksAppend(done, [step]);
    BuildsAppend(done, [step]);
    SingleStep(step);
  }

  /** The cycle of the trigger with logging, once the mode is parsed: the loop, then the write. */
  lemma LoggingCycleOfDrain(pattern: JsonObject, toJson: Parser, logging: string,
                            queue: seq<string>, lastTag: nat, last: Option<JsonObject>)
    requires ParseInt(logging).Some?
    ensures var r := Drain(pattern, toJson, ParseInt(logging).value, queue, lastTag, "", last);
      LoggingCycle(pattern, toJson, logging, queue, lastTag, last)
      == if r.halt != ParseFailed && r.log != "" then r.(trace := r.trace + [Write(ParseInt(logging).value == 2, r.log)]) else r
  {
  }

  /**
   * The cycle of the trigger with logging, once the mode is parsed: what the
   * loop leaves, and the log file written after it unless the loop failed or
   * the buffer is empty.
   */
  lemma LoggingCycleEffects(pattern: JsonObject, toJson: Parser, logging: string,
                            queue: seq<string>, lastTag: nat, last: Option<JsonObject>,
                            files: map<string, string>, path: string)
    requires ParseInt(logging).Some?
    ensures var choice := ParseInt(logging).value;
            var d := Drain(pattern, toJson, choice, queue, lastTag, "", last);
            var r := LoggingCycle(pattern, toJson, logging, queue, lastTag, last);
      && r.rest == d.rest && r.lastTag == d.lastTag && r.last == d.last
      && Acks(r.trace) == Acks(d.trace) && Builds(r.trace) == Builds(d.trace)
      && FileAfter(files, path, r.trace)
         == if d.halt != ParseFailed && d.log != "" then AfterWrite(files, path, d.log, choice == 2) else files
  {
    var choice := ParseInt(logging).value;
    var d := Drain(pattern, toJson, choice, queue, lastTag, "", last);
    LoggingCycleOfDrain(pattern, toJson, logging, queue, lastTag, last);
    DrainLastStep(pattern, toJson, choice, queue, lastTag, "", last);
    WriteEffects(d, LoggingCycle(pattern, toJson, logging, queue, lastTag, last), choice, files, path);
  }

  /** What the write after the loop adds to the loop's outcome d, when d's last step is not a write. */
  lemma WriteEffects(d: Outcome, r: Outcome, choice: int, files: map<string, string>, path: string)
    requires d.trace != [] && !d.trace[|d.trace| - 1].Write?
    requires r == if d.halt != ParseFailed && d.log != "" then d.(trace := d.trace + [Write(choice == 2, d.log)]) else d
    ensures && r.rest == d.rest && r.lastTag == d.lastTag && r.last == d.last
            && Acks(r.trace) == Acks(d.trace) && Builds(r.trace) == Builds(d.trace)
            && FileAfter(files, path, r.trace)
               == if d.halt != ParseFailed && d.log != "" then AfterWrite(files, path, d.log, choice == 2) else files
  {
    if d.halt != ParseFailed && d.log != "" {
      var w := Write(choice == 2, d.log);
      AppendStep(d.trace, w);
      assert r.trace[|r.trace| - 1] == w;
    }
  }

  /** The cycle of the trigger with logging when the mode does not parse: the first `basicGet` only. */
  lemma InvalidLoggingEffects(pattern: JsonObject, toJson: Parser, logging: string,
                              queue: seq<string>, lastTag: nat, last: Option<JsonObject>,
                              files: map<string, string>, path: string)
    requires ParseInt(logging).None?
    ensures var f := FetchNext(queue, lastTag);
            var r := LoggingCycle(pattern, toJson, logging, queue, lastTag, last);
      && r.rest == f.rest && r.lastTag == f.lastTag && r.last == last
      && Acks(r.trace) == [] && Builds(r.trace) == [] && FileAfter(files, path, r.trace) == files
  {
    SingleStep(GetStep(FetchNext(queue, lastTag).response));
  }

  /** The acknowledgement and the build among the steps of the message the loop stops on. */
  lemma StoppingSteps(pattern: JsonObject, toJson: Parser, choice: int,
                      queue: seq<string>, lastTag: nat, log: string, last: Option<JsonObject>)
    requires queue != [] && !Passes(pattern, toJson, queue[0])
    ensures var r := Drain(pattern, toJson, choice, queue, lastTag, log, last);
      && Acks(r.trace) == [lastTag + 1]
      && Builds(r.trace) == (if r.halt == Matched then [Description(toJson(queue[0]).obj.text)] else [])
  {
    var r := Drain(pattern, toJson, choice, queue, lastTag, log, last);
    var t := lastTag + 1;
    DrainStopping(pattern, toJson, choice, queue, lastTag, log, last);
    if toJson(queue[0]).Object? {
      var extra := [Schedule(Description(toJson(queue[0]).obj.text))];
      MessageSteps(t, queue[0], true, extra);
      SingleStep(extra[0]);
      assert [Got(t, queue[0]), Ack(t), Parse(t, true)] + extra == r.trace;
    } else {
      MessageSteps(t, queue[0], false, []);
      assert [Got(t, queue[0]), Ack(t), Parse(t, false)] + [] == r.trace;
    }
  }

  lemma ShiftedSteps(head: seq<Step>, tail: seq<Step>, i: nat)
    requires |head| <= i < |head + tail|
    ensures (head + tail)[i] == tail[i - |head|]
  {
  }

  // ---------------------------------------------------------------------
  // The loop as the Run methods perform it

  /**
   * Where a cycle stands as seen from the channel and the job: what is left in
   * the queue, the last delivery tag, `obGotEvent`, the log buffer, why the
   * loop stopped, and every acknowledgement and build made so far.
   */
  datatype Progress = Progress(rest: seq<string>, lastTag: nat, last: Option<JsonObject>, log: string,
                               halt: Halt, acked: seq<nat>, builds: seq<string>)

  /** The outcome r, taken after the acknowledgements `acked` and the builds `builds`. */
  function Resume(acked: seq<nat>, builds: seq<string>, r: Outcome): Progress {
    Progress(r.rest, r.lastTag, r.last, r.log, r.halt, acked + Acks(r.trace), builds + Builds(r.trace))
  }

  // The four cases of one iteration, for a loop whose whole result is g.

  /** An event that does not match: acknowledged, and the loop goes on with the rest of the queue. */
  lemma LoopPasses(pattern: JsonObject, toJson: Parser, choice: int, g: Progress, acked: seq<nat>, builds: seq<string>,
                   queue: seq<string>, lastTag: nat, log: string, last: Option<JsonObject>, ev: JsonObject)
    requires g == Resume(acked, builds, Drain(pattern, toJson, choice, queue, lastTag, log, last))
    requires queue != [] && toJson(queue[0]) == Object(ev) && !Matches(pattern, ev)
    ensures g == Resume(acked + [lastTag + 1], builds,
                        Drain(pattern, toJson, choice, queue[1..], lastTag + 1, Logged(choice, log, ev), Some(ev)))
  {
    var t := lastTag + 1;
    var tail := Drain(pattern, toJson, choice, queue[1..], t, Logged(choice, log, ev), Some(ev));
    DrainPassing(pattern, toJson, choice, queue, lastTag, log, last);
    MessageSteps(t, queue[0], true, tail.trace);
    assert acked + ([t] + Acks(tail.trace)) == (acked + [t]) + Acks(tail.trace);
  }

  /** A matching event: acknowledged, one build scheduled, and the loop stops. */
  lemma LoopMatches(pattern: JsonObject, toJson: Parser, choice: int, g: Progress, acked: seq<nat>, builds: seq<string>,
                    queue: seq<string>, lastTag: nat, log: string, last: Option<JsonObject>, ev: JsonObject)
    requires g == Resume(acked, builds, Drain(pattern, toJson, choice, queue, lastTag, log, last))
    requires queue != [] && toJson(queue[0]) == Object(ev) && Matches(pattern, ev)
    ensures g == Progress(queue[1..], lastTag + 1, Some(ev),
                          if choice == 1 then ev.text else Logged(choice, log, ev), Matched,
                          acked + [lastTag + 1], builds + [Description(ev.text)])
  {
    DrainMatching(pattern, toJson, choice, queue, lastTag, log, last, ev);
    StoppingSteps(pattern, toJson, choice, queue, lastTag, log, last);
  }

  /** A body that is not a JSON object: acknowledged, and the exception ends the loop. */
  lemma LoopFails(pattern: JsonObject, toJson: Parser, choice: int, g: Progress, acked: seq<nat>, builds: seq<string>,
                  queue: seq<string>, lastTag: nat, log: string, last: Option<JsonObject>)
    requires g == Resume(acked, builds, Drain(pattern, toJson, choice, queue, lastTag, log, last))
    requires queue != [] && !toJson(queue[0]).Object?
    ensures g == Progress(queue[1..], lastTag + 1, last, log, ParseFailed, acked + [lastTag + 1], builds)
  {
    DrainStopping(pattern, toJson, choice, queue, lastTag, log, last);
    StoppingSteps(pattern, toJson, choice, queue, lastTag, log, last);
  }

  /** `basicGet` returned null: the loop ends with nothing more acknowledged or built. */
  lemma LoopDrained(pattern: JsonObject, toJson: Parser, choice: int, g: Progress, acked: seq<nat>, builds: seq<string>,
                    lastTag: nat, log: string, last: Option<JsonObject>)
    requires g == Resume(acked, builds, Drain(pattern, toJson, choice, [], lastTag, log, last))
    ensures g == Progress([], lastTag, last, log, Drained, acked, builds)
  {
    DrainEmpty(pattern, toJson, choice, lastTag, log, last);
    SingleStep(GotNothing);
  }

  // ---------------------------------------------------------------------
  // Properties of the loop

  /** The loop consumes the queue up to and including the stopping message, and nothing beyond it. */
  lemma {:induction false} DrainStopsAt(pattern: JsonObject, toJson: Parser, choice: int,
                                        queue: seq<string>, lastTag: nat, log: string, last: Option<JsonObject>)
    ensures var r := Drain(pattern, toJson, choice, queue, lastTag, log, last);
            var k := StopAt(pattern, toJson, queue);
      && r.rest == (if k < |queue| then queue[k + 1..] else [])
      && r.lastTag == lastTag + (if k < |queue| then k + 1 else |queue|)
      && r.halt == (if k == |queue| then Drained
                    else if toJson(queue[k]).Object? then Matched else ParseFailed)
    decreases |queue|
  {
    if queue == [] {
      DrainEmpty(pattern, toJson, choice, lastTag, log, last);
    } else if Passes(pattern, toJson, queue[0]) {
      var ev := toJson(queue[0]).obj;
      DrainPassing(pattern, toJson, choice, queue, lastTag, log, last);
      DrainStopsAt(pattern, toJson, choice, queue[1..], lastTag + 1, Logged(choice, log, ev), Some(ev));
      var k' := StopAt(pattern, toJson, queue[1..]);
      if k' < |queue[1..]| {
        assert queue[1..][k' + 1..] == queue[k' + 2..];
      }
    } else {
      DrainStopping(pattern, toJson, choice, queue, lastTag, log, last);
    }
  }

  /** The acknowledgements of a passing message put in front of the rest of the loop. */
  lemma AcksPassing(lastTag: nat, body: string, tail: Outcome, r: Outcome)
    requires r == After([Got(lastTag + 1, body), Ack(lastTag + 1), Parse(lastTag + 1, true)], tail)
    requires lastTag + 1 <= tail.lastTag
    requires Acks(tail.trace) == Range(lastTag + 2, tail.lastTag - (lastTag + 1))
    ensures lastTag <= r.lastTag
    ensures Acks(r.trace) == Range(lastTag + 1, r.lastTag - lastTag)
  {
    var t := lastTag + 1;
    MessageSteps(t, body, true, tail.trace);
    assert Range(t, r.lastTag - lastTag) == [t] + Range(t + 1, r.lastTag - t);
  }

  lemma OneTag(t: nat)
    ensures Range(t, 1) == [t]
  {
    assert Range(t, 1) == [t] + Range(t + 1, 0);
  }

  /** The loop acknowledges exactly the messages it fetches, in fetch order: tags lastTag + 1 up to its last tag. */
  lemma {:induction false} DrainAcksEveryFetch(pattern: JsonObject, toJson: Parser, choice: int,
                                               queue: seq<string>, lastTag: nat, log: string, last: Option<JsonObject>)
    ensures var r := Drain(pattern, toJson, choice, queue, lastTag, log, last);
      && lastTag <= r.lastTag
      && Acks(r.trace) == Range(lastTag + 1, r.lastTag - lastTag)
    decreases |queue|
  {
    var r := Drain(pattern, toJson, choice, queue, lastTag, log, last);
    if queue == [] {
      DrainEmpty(pattern, toJson, choice, lastTag, log, last);
      SingleStep(GotNothing);
    } else if Passes(pattern, toJson, queue[0]) {
      var ev := toJson(queue[0]).obj;
      var tail := Drain(pattern, toJson, choice, queue[1..], lastTag + 1, Logged(choice, log, ev), Some(ev));
      DrainPassing(pattern, toJson, choice, queue, lastTag, log, last);
      DrainAcksEveryFetch(pattern, toJson, choice, queue[1..], lastTag + 1, Logged(choice, log, ev), Some(ev));
      AcksPassing(lastTag, queue[0], tail, r);
    } else {
      DrainStopping(pattern, toJson, choice, queue, lastTag, log, last);
      StoppingSteps(pattern, toJson, choice, queue, lastTag, log, last);
      OneTag(lastTag + 1);
    }
  }

  /** The steps of the message the loop stops on. */
  lemma AckedStopping(t: nat, body: string, ok: bool, extra: seq<Step>)
    requires |extra| <= 1 && forall i :: 0 <= i < |extra| ==> extra[i].Schedule?
    ensures AckedOnReceipt([Got(t, body), Ack(t), Parse(t, ok)] + extra)
  {
  }

  /** Every message the loop fetches is acknowledged at once, before it is parsed. */
  lemma {:induction false} DrainAcksOnReceipt(pattern: JsonObject, toJson: Parser, choice: int,
                                              queue: seq<string>, lastTag: nat, log: string, last: Option<JsonObject>)
    ensures var r := Drain(pattern, toJson, choice, queue, lastTag, log, last);
      AckedOnReceipt(r.trace)
    decreases |queue|
  {
    var r := Drain(pattern, toJson, choice, queue, lastTag, log, last);
    var t := lastTag + 1;
    if queue == [] {
      DrainEmpty(pattern, toJson, choice, lastTag, log, last);
    } else if Passes(pattern, toJson, queue[0]) {
      var ev := toJson(queue[0]).obj;
      var tail := Drain(pattern, toJson, choice, queue[1..], t, Logged(choice, log, ev), Some(ev));
      DrainPassing(pattern, toJson, choice, queue, lastTag, log, last);
      DrainAcksOnReceipt(pattern, toJson, choice, queue[1..], t, Logged(choice, log, ev), Some(ev));
      DrainStartsWithFetch(pattern, toJson, choice, queue[1..], t, Logged(choice, log, ev), Some(ev));
      AckedOnReceiptCons(t, queue[0], tail.trace);
    } else {
      DrainStopping(pattern, toJson, choice, queue, lastTag, log, last);
      if toJson(queue[0]).Object? {
        AckedStopping(t, queue[0], true, [Schedule(Description(toJson(queue[0]).obj.text))]);
      } else {
        AckedStopping(t, queue[0], false, []);
        assert [Got(t, queue[0]), Ack(t), Parse(t, false)] + [] == r.trace;
      }
    }
  }

  /** The builds of a passing message put in front of the rest of the loop: none. */
  lemma BuildsPassing(t: nat, body: string, tail: Outcome, r: Outcome)
    requires r == After([Got(t, body), Ack(t), Parse(t, true)], tail)
    requires tail.halt == Matched ==> tail.last.Some?
    requires Builds(tail.trace) == (if tail.halt == Matched then [Description(tail.last.value.text)] else [])
    ensures r.halt == Matched ==> r.last.Some?
    ensures Builds(r.trace) == (if r.halt == Matched then [Description(r.last.value.text)] else [])
  {
    MessageSteps(t, body, true, tail.trace);
  }

  /**
   * At most one build per cycle: one exactly when the loop stopped on a match,
   * with the matching event's rendering in its description.
   */
  lemma {:induction false} DrainBuildsAtMostOnce(pattern: JsonObject, toJson: Parser, choice: int,
                                                 queue: seq<string>, lastTag: nat, log: string, last: Option<JsonObject>)
    ensures var r := Drain(pattern, toJson, choice, queue, lastTag, log, last);
      && (r.halt == Matched ==> r.last.Some?)
      && Builds(r.trace) == (if r.halt == Matched then [Description(r.last.value.text)] else [])
    decreases |queue|
  {
    var r := Drain(pattern, toJson, choice, queue, lastTag, log, last);
    var t := lastTag + 1;
    if queue == [] {
      DrainEmpty(pattern, toJson, choice, lastTag, log, last);
      SingleStep(GotNothing);
    } else if Passes(pattern, toJson, queue[0]) {
      var ev := toJson(queue[0]).obj;
      var tail := Drain(pattern, toJson, choice, queue[1..], t, Logged(choice, log, ev), Some(ev));
      DrainPassing(pattern, toJson, choice, queue, lastTag, log, last);
      DrainBuildsAtMostOnce(pattern, toJson, choice, queue[1..], t, Logged(choice, log, ev), Some(ev));
      BuildsPassing(t, queue[0], tail, r);
    } else {
      DrainStopping(pattern, toJson, choice, queue, lastTag, log, last);
      StoppingSteps(pattern, toJson, choice, queue, lastTag, log, last);
    }
  }

  /** A passing message's steps put in front of the rest of the loop: still no schedule before the end, and no write. */
  lemma SchedulesPassing(t: nat, body: string, tail: Outcome, r: Outcome)
    requires r == After([Got(t, body), Ack(t), Parse(t, true)], tail)
    requires forall i :: 0 <= i < |tail.trace| - 1 ==> !tail.trace[i].Schedule?
    requires NoWrite(tail.trace)
    ensures forall i :: 0 <= i < |r.trace| - 1 ==> !r.trace[i].Schedule?
    ensures NoWrite(r.trace)
  {
    var head := [Got(t, body), Ack(t), Parse(t, true)];
    forall i | 0 <= i < |r.trace|
      ensures (i < |r.trace| - 1 ==> !r.trace[i].Schedule?) && !r.trace[i].Write?
    {
      if i >= 3 { ShiftedSteps(head, tail.trace, i); }
    }
  }

  /**
   * A build can only be the last step of the loop, so no fetch follows it;
   * the loop never writes the log file.
   */
  lemma {:induction false} DrainScheduleEndsLoop(pattern: JsonObject, toJson: Parser, choice: int,
                                                 queue: seq<string>, lastTag: nat, log: string, last: Option<JsonObject>)
    ensures var r := Drain(pattern, toJson, choice, queue, lastTag, log, last);
      && (forall i :: 0 <= i < |r.trace| - 1 ==> !r.trace[i].Schedule?)
      && NoWrite(r.trace)
    decreases |queue|
  {
    var r := Drain(pattern, toJson, choice, queue, lastTag, log, last);
    var t := lastTag + 1;
    if queue == [] {
      DrainEmpty(pattern, toJson, choice, lastTag, log, last);
    } else if Passes(pattern, toJson, queue[0]) {
      var ev := toJson(queue[0]).obj;
      var tail := Drain(pattern, toJson, choice, queue[1..], t, Logged(choice, log, ev), Some(ev));
      DrainPassing(pattern, toJson, choice, queue, lastTag, log, last);
      DrainScheduleEndsLoop(pattern, toJson, choice, queue[1..], t, Logged(choice, log, ev), Some(ev));
      SchedulesPassing(t, queue[0], tail, r);
    } else {
      DrainStopping(pattern, toJson, choice, queue, lastTag, log, last);
    }
  }

  /** After the loop `obGotEvent` holds the last event parsed, or what it held before when none was. */
  lemma {:induction false} DrainRemembersLastReceived(pattern: JsonObject, toJson: Parser, choice: int,
                                                      queue: seq<string>, lastTag: nat, log: string, last: Option<JsonObject>)
    ensures var r := Drain(pattern, toJson, choice, queue, lastTag, log, last);
            var evs := Received(pattern, toJson, queue);
      r.last == if evs == [] then last else Some(evs[|evs| - 1])
    decreases |queue|
  {
    if queue == [] {
      DrainEmpty(pattern, toJson, choice, lastTag, log, last);
    } else if Passes(pattern, toJson, queue[0]) {
      var ev := toJson(queue[0]).obj;
      DrainPassing(pattern, toJson, choice, queue, lastTag, log, last);
      DrainRemembersLastReceived(pattern, toJson, choice, queue[1..], lastTag + 1, Logged(choice, log, ev), Some(ev));
    } else {
      DrainStopping(pattern, toJson, choice, queue, lastTag, log, last);
    }
  }

  lemma RenderedCons(log: string, ev: JsonObject, evs: seq<JsonObject>)
    ensures Logged(2, log, ev) + AllRendered(evs) == log + AllRendered([ev] + evs)
  {
    assert ([ev] + evs)[1..] == evs;
    assert AllRendered([ev] + evs) == ev.text + "\n" + AllRendered(evs);
    assert Logged(2, log, ev) + AllRendered(evs) == log + (ev.text + "\n" + AllRendered(evs));
  }

  /** Mode 2: the buffer gains every received event's rendering and a newline, in order, the match included. */
  lemma {:induction false} DrainLogsAllReceived(pattern: JsonObject, toJson: Parser,
                                                queue: seq<string>, lastTag: nat, log: string, last: Option<JsonObject>)
    ensures Drain(pattern, toJson, 2, queue, lastTag, log, last).log
            == log + AllRendered(Received(pattern, toJson, queue))
    decreases |queue|
  {
    if queue == [] {
      DrainEmpty(pattern, toJson, 2, lastTag, log, last);
    } else if Passes(pattern, toJson, queue[0]) {
      var ev := toJson(queue[0]).obj;
      var evs := Received(pattern, toJson, queue[1..]);
      DrainPassing(pattern, toJson, 2, queue, lastTag, log, last);
      DrainLogsAllReceived(pattern, toJson, queue[1..], lastTag + 1, Logged(2, log, ev), Some(ev));
      assert Received(pattern, toJson, queue) == [ev] + evs;
      RenderedCons(log, ev, evs);
    } else {
      DrainStopping(pattern, toJson, 2, queue, lastTag, log, last);
      if toJson(queue[0]).Object? {
        var ev := toJson(queue[0]).obj;
        assert Received(pattern, toJson, queue) == [ev];
        assert AllRendered([ev]) == ev.text + "\n" + AllRendered([]);
      }
    }
  }

  /** Mode 1: the buffer is the matching event's rendering alone, or unchanged when nothing matched. */
  lemma {:induction false} DrainLogsLatestMatch(pattern: JsonObject, toJson: Parser,
                                                queue: seq<string>, lastTag: nat, log: string, last: Option<JsonObject>)
    ensures var r := Drain(pattern, toJson, 1, queue, lastTag, log, last);
      && (r.halt == Matched ==> r.last.Some? && r.log == r.last.value.text)
      && (r.halt != Matched ==> r.log == log)
    decreases |queue|
  {
    if queue == [] {
      DrainEmpty(pattern, toJson, 1, lastTag, log, last);
    } else if Passes(pattern, toJson, queue[0]) {
      var ev := toJson(queue[0]).obj;
      DrainPassing(pattern, toJson, 1, queue, lastTag, log, last);
      DrainLogsLatestMatch(pattern, toJson, queue[1..], lastTag + 1, log, Some(ev));
    } else {
      DrainStopping(pattern, toJson, 1, queue, lastTag, log, last);
    }
  }

  /** Any other mode: the buffer is never touched. */
  lemma {:induction false} DrainLogsNothing(pattern: JsonObject, toJson: Parser, choice: int,
                                            queue: seq<string>, lastTag: nat, log: string, last: Option<JsonObject>)
    requires choice != 1 && choice != 2
    ensures Drain(pattern, toJson, choice, queue, lastTag, log, last).log == log
    decreases |queue|
  {
    if queue == [] {
      DrainEmpty(pattern, toJson, choice, lastTag, log, last);
    } else if Passes(pattern, toJson, queue[0]) {
      var ev := toJson(queue[0]).obj;
      DrainPassing(pattern, toJson, choice, queue, lastTag, log, last);
      DrainLogsNothing(pattern, toJson, choice, queue[1..], lastTag + 1, log, Some(ev));
    } else {
      DrainStopping(pattern, toJson, choice, queue, lastTag, log, last);
    }
  }

  /** The last step of the loop says why it stopped: `basicGet` returned null, a build was scheduled, or a parse failed. */
  lemma {:induction false} DrainLastStep(pattern: JsonObject, toJson: Parser, choice: int,
                                         queue: seq<string>, lastTag: nat, log: string, last: Option<JsonObject>)
    ensures var r := Drain(pattern, toJson, choice, queue, lastTag, log, last);
      && r.trace != []
      && (r.halt == Drained ==> r.trace[|r.trace| - 1] == GotNothing)
      && (r.halt == Matched ==> r.trace[|r.trace| - 1].Schedule?)
      && (r.halt == ParseFailed ==> r.trace[|r.trace| - 1] == Parse(r.lastTag, false))
      && r.halt != LoggingInvalid
    decreases |queue|
  {
    if queue == [] {
      DrainEmpty(pattern, toJson, choice, lastTag, log, last);
    } else if Passes(pattern, toJson, queue[0]) {
      var t := lastTag + 1;
      var ev := toJson(queue[0]).obj;
      var tail := Drain(pattern, toJson, choice, queue[1..], t, Logged(choice, log, ev), Some(ev));
      DrainPassing(pattern, toJson, choice, queue, lastTag, log, last);
      DrainLastStep(pattern, toJson, choice, queue[1..], t, Logged(choice, log, ev), Some(ev));
      ShiftedSteps([Got(t, queue[0]), Ack(t), Parse(t, true)], tail.trace, 3 + |tail.trace| - 1);
    } else {
      DrainStopping(pattern, toJson, choice, queue, lastTag, log, last);
    }
  }

  // ---------------------------------------------------------------------
  // How a cycle ends

  /** The loop stops at the k-th message when it is the first that does not pass; what it has received by then. */
  lemma StopsAtFirst(pattern: JsonObject, toJson: Parser, queue: seq<string>, k: nat)
    requires k < |queue| && !Passes(pattern, toJson, queue[k])
    requires forall j :: 0 <= j < k ==> Passes(pattern, toJson, queue[j])
    ensures StopAt(pattern, toJson, queue) == k
    ensures var evs := Received(pattern, toJson, queue);
      && |evs| == k + (if toJson(queue[k]).Object? then 1 else 0)
      && (toJson(queue[k]).Object? ==> evs[k] == toJson(queue[k]).obj)
      && (k > 0 ==> toJson(queue[k - 1]) == Object(evs[k - 1]))
  {
    var evs := Received(pattern, toJson, queue);
    if toJson(queue[k]).Object? {
      assert toJson(queue[k]) == Object(evs[k]);
    }
  }

  /**
   * The k-th message (from 0) is the first match and every one before it is
   * an object that does not match: the cycle fetches and acknowledges
   * exactly k + 1 messages, schedules one build described by the k-th
   * message, leaves the rest queued, and remembers the k-th as `obGotEvent`.
   */
  lemma FirstMatchSchedulesOneBuild(pattern: JsonObject, toJson: Parser, choice: int,
                                    queue: seq<string>, lastTag: nat, log: string, last: Option<JsonObject>, k: nat)
    requires k < |queue|
    requires forall j :: 0 <= j < k ==> Passes(pattern, toJson, queue[j])
    requires toJson(queue[k]).Object? && Matches(pattern, toJson(queue[k]).obj)
    ensures var r := Drain(pattern, toJson, choice, queue, lastTag, log, last);
      && r.halt == Matched
      && Acks(r.trace) == Range(lastTag + 1, k + 1)
      && Builds(r.trace) == [Description(toJson(queue[k]).obj.text)]
      && r.rest == queue[k + 1..]
      && r.last == Some(toJson(queue[k]).obj)
  {
    StopsAtFirst(pattern, toJson, queue, k);
    DrainStopsAt(pattern, toJson, choice, queue, lastTag, log, last);
    DrainAcksEveryFetch(pattern, toJson, choice, queue, lastTag, log, last);
    DrainRemembersLastReceived(pattern, toJson, choice, queue, lastTag, log, last);
    DrainBuildsAtMostOnce(pattern, toJson, choice, queue, lastTag, log, last);
  }

  /**
   * No message matches and all parse: the cycle fetches until `basicGet`
   * returns null, acknowledges every message, and schedules no build.
   */
  lemma NoMatchDrainsQueue(pattern: JsonObject, toJson: Parser, choice: int,
                           queue: seq<string>, lastTag: nat, log: string, last: Option<JsonObject>)
    requires forall j :: 0 <= j < |queue| ==> Passes(pattern, toJson, queue[j])
    ensures var r := Drain(pattern, toJson, choice, queue, lastTag, log, last);
      && r.halt == Drained
      && r.rest == []
      && r.trace[|r.trace| - 1] == GotNothing
      && Acks(r.trace) == Range(lastTag + 1, |queue|)
      && Builds(r.trace) == []
  {
    assert StopAt(pattern, toJson, queue) == |queue|;
    DrainStopsAt(pattern, toJson, choice, queue, lastTag, log, last);
    DrainAcksEveryFetch(pattern, toJson, choice, queue, lastTag, log, last);
    DrainBuildsAtMostOnce(pattern, toJson, choice, queue, lastTag, log, last);
    DrainLastStep(pattern, toJson, choice, queue, lastTag, log, last);
  }

  /**
   * The k-th message is the first that is not a JSON object: it has been
   * acknowledged, so it is lost; no build is scheduled, nothing after it is
   * fetched, and `obGotEvent` keeps the last event that did parse.
   */
  lemma ParseFailureLosesMessage(pattern: JsonObject, toJson: Parser, choice: int,
                                 queue: seq<string>, lastTag: nat, log: string, last: Option<JsonObject>, k: nat)
    requires k < |queue|
    requires forall j :: 0 <= j < k ==> Passes(pattern, toJson, queue[j])
    requires !toJson(queue[k]).Object?
    ensures var r := Drain(pattern, toJson, choice, queue, lastTag, log, last);
      && r.halt == ParseFailed
      && Acks(r.trace) == Range(lastTag + 1, k + 1)
      && r.trace[|r.trace| - 1] == Parse(lastTag + k + 1, false)
      && Builds(r.trace) == []
      && r.rest == queue[k + 1..]
  {
    StopsAtFirst(pattern, toJson, queue, k);
    DrainStopsAt(pattern, toJson, choice, queue, lastTag, log, last);
    DrainAcksEveryFetch(pattern, toJson, choice, queue, lastTag, log, last);
    DrainBuildsAtMostOnce(pattern, toJson, choice, queue, lastTag, log, last);
    DrainLastStep(pattern, toJson, choice, queue, lastTag, log, last);
  }

  /** After a parse failure at the k-th message, `obGotEvent` holds the event parsed from the message before it, if any. */
  lemma ParseFailureKeepsLastParsed(pattern: JsonObject, toJson: Parser, choice: int,
                                    queue: seq<string>, lastTag: nat, log: string, last: Option<JsonObject>, k: nat)
    requires k < |queue|
    requires forall j :: 0 <= j < k ==> Passes(pattern, toJson, queue[j])
    requires !toJson(queue[k]).Object?
    ensures var r := Drain(pattern, toJson, choice, queue, lastTag, log, last);
      && (k == 0 ==> r.last == last)
      && (k > 0 ==> r.last.Some? && toJson(queue[k - 1]) == Object(r.last.value))
  {
    StopsAtFirst(pattern, toJson, queue, k);
    DrainRemembersLastReceived(pattern, toJson, choice, queue, lastTag, log, last);
  }

  // ---------------------------------------------------------------------
  // The cycle of the trigger with logging

  /**
   * A `logging` value parseInt rejects ends the cycle after the first
   * `basicGet`: that message is taken from the queue and never acknowledged,
   * and nothing else happens.
   */
  lemma InvalidLoggingLeavesFetchUnacked(pattern: JsonObject, toJson: Parser, logging: string,
                                         queue: seq<string>, lastTag: nat, last: Option<JsonObject>)
    requires ParseInt(logging) == None
    ensures var r := LoggingCycle(pattern, toJson, logging, queue, lastTag, last);
      && r.halt == LoggingInvalid
      && r.trace == [if queue == [] then GotNothing else Got(lastTag + 1, queue[0])]
      && Acks(r.trace) == [] && Builds(r.trace) == []
      && r.rest == (if queue == [] then [] else queue[1..])
      && r.last == last
  {
    var r := LoggingCycle(pattern, toJson, logging, queue, lastTag, last);
    SingleStep(r.trace[0]);
  }

  /**
   * The log file is written at most once, as the last step, exactly when the
   * cycle ended normally with a non-empty buffer; it is opened for appending
   * iff the mode is 2, and receives the whole buffer.
   */
  lemma {:induction false} LogWrittenOnlyAtEnd(pattern: JsonObject, toJson: Parser, logging: string,
                                               queue: seq<string>, lastTag: nat, last: Option<JsonObject>)
    ensures var r := LoggingCycle(pattern, toJson, logging, queue, lastTag, last);
      && r.trace != []
      && (forall i :: 0 <= i < |r.trace| - 1 ==> !r.trace[i].Write?)
      && (r.trace[|r.trace| - 1].Write? <==> (r.halt == Matched || r.halt == Drained) && r.log != "")
      && (r.trace[|r.trace| - 1].Write? ==> r.trace[|r.trace| - 1] == Write(ParseInt(logging) == Some(2), r.log))
  {
    match ParseInt(logging)
    case None =>
    case Some(choice) =>
      DrainScheduleEndsLoop(pattern, toJson, choice, queue, lastTag, "", last);
      DrainLastStep(pattern, toJson, choice, queue, lastTag, "", last);
  }

  /**
   * Mode 2: a cycle that ends normally after receiving events appends all
   * their renderings, each with a newline, to the log file; a cycle that
   * fails to parse a message writes nothing, whatever it had buffered.
   */
  lemma Mode2AppendsEveryReceivedEvent(pattern: JsonObject, toJson: Parser, logging: string,
                                       queue: seq<string>, lastTag: nat, last: Option<JsonObject>)
    requires ParseInt(logging) == Some(2)
    ensures var r := LoggingCycle(pattern, toJson, logging, queue, lastTag, last);
            var evs := Received(pattern, toJson, queue);
      && (r.halt != ParseFailed && evs != [] ==> r.trace[|r.trace| - 1] == Write(true, AllRendered(evs)))
      && (r.halt == ParseFailed || evs == [] ==> NoWrite(r.trace))
  {
    var evs := Received(pattern, toJson, queue);
    DrainLogsAllReceived(pattern, toJson, queue, lastTag, "", last);
    DrainScheduleEndsLoop(pattern, toJson, 2, queue, lastTag, "", last);
    DrainLastStep(pattern, toJson, 2, queue, lastTag, "", last);
    if evs != [] {
      assert AllRendered(evs) != "" by {
        assert AllRendered(evs)[0] == evs[0].text[0];
      }
    }
    assert "" + AllRendered(evs) == AllRendered(evs);
  }

  /**
   * Mode 1: a cycle that ends on a match overwrites the log file with the
   * matching event's rendering alone; any other cycle writes nothing.
   */
  lemma Mode1OverwritesWithMatch(pattern: JsonObject, toJson: Parser, logging: string,
                                 queue: seq<string>, lastTag: nat, last: Option<JsonObject>)
    requires ParseInt(logging) == Some(1)
    ensures var r := LoggingCycle(pattern, toJson, logging, queue, lastTag, last);
      && (r.halt == Matched ==> r.last.Some? && r.trace[|r.trace| - 1] == Write(false, r.last.value.text))
      && (r.halt != Matched ==> NoWrite(r.trace))
  {
    DrainLogsLatestMatch(pattern, toJson, queue, lastTag, "", last);
    DrainScheduleEndsLoop(pattern, toJson, 1, queue, lastTag, "", last);
  }

  /** Any mode other than 1 and 2: nothing is buffered and the log file is never written. */
  lemma OtherModesNeverWrite(pattern: JsonObject, toJson: Parser, logging: string,
                             queue: seq<string>, lastTag: nat, last: Option<JsonObject>)
    requires ParseInt(logging).Some? && ParseInt(logging).value != 1 && ParseInt(logging).value != 2
    ensures var r := LoggingCycle(pattern, toJson, logging, queue, lastTag, last);
      r.log == "" && NoWrite(r.trace)
  {
    var choice := ParseInt(logging).value;
    DrainLogsNothing(pattern, toJson, choice, queue, lastTag, "", last);
    DrainScheduleEndsLoop(pattern, toJson, choice, queue, lastTag, "", last);
  }

  /** The trigger without logging never buffers text and never writes a file. */
  lemma PlainCycleNeverLogs(pattern: JsonObject, toJson: Parser,
                            queue: seq<string>, lastTag: nat, last: Option<JsonObject>)
    ensures var r := PlainCycle(pattern, toJson, queue, lastTag, last);
      r.log == "" && NoWrite(r.trace)
  {
    DrainLogsNothing(pattern, toJson, 0, queue, lastTag, "", last);
    DrainScheduleEndsLoop(pattern, toJson, 0, queue, lastTag, "", last);
  }
}
