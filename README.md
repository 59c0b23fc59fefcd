# OBS event trigger: a Dafny model of the poll-and-match engine

This Jenkins plugin starts a build when a matching event arrives on an AMQP
queue. Two near-identical trigger classes exist:

- `jenkins.plugins.ObsEventTrigger`, which has a logging mode;
- `jenkins.plugins.ObsEventTrigger.ObsEventTrigger`, which has none.

On every poll, `run()` does the following:

1. It fetches a message without blocking (`basicGet`).
2. It acknowledges the message (`basicAck`).
3. It parses the message into `obGotEvent`.
4. It tests the event against the configured pattern. The pattern is a JSON object: every key it names must be present in the event with an equal string value.
5. On the first match it schedules one build and stops. Otherwise it fetches the next message, until the queue is empty.

The first class also collects a log buffer, according to its `logging` setting:

- "2" collects every received event;
- "1" keeps the matching event;
- anything else collects nothing.

After the loop, that class writes the buffer to `<rootDir>/obsevent.txt` when the buffer is not empty. Any exception ends the cycle through one catch-all.

The model is made of these files:

- `json.dfy`: the json-lib objects the triggers see. These are `names()`, `getString` as a map, and `toString(4)`, which is a non-empty `Text`. Parsing is a parameter of type `Parser`, whose outcomes are an object, a JSON value of another kind, or malformed text.
- `broker.dfy`: the channel as a class. It holds the queue of bodies, the last delivery tag and the acknowledged tags.
- `host.dfy`: the job, as a class that records the builds scheduled so far, and the file system, as a map from paths to contents.
- `matcher.dfy`: the match rule and the inner key loop of `run()`.
- `java_int.dfy`: `Integer.parseInt` over ASCII, with its 32-bit range.
- `poll_cycle.dfy`: the specification of one cycle as a function of the queue. `Drain` is the loop; `LoggingCycle` and `PlainCycle` are the `run()` of each class. The lemmas there state what a cycle does. Each cycle yields a trace of steps: fetch, acknowledge, parse, schedule, write.
- `obs_event_trigger.dfy`: the first class. It has the class-wide metadata table, and a `Run` method with a loop, proved against `LoggingCycle`.
- `obs_event_trigger_pkg.dfy`: the second class. Its `Run` is proved against `PlainCycle`, and its `causeString != ""` reference test is modelled as written.
- `form_check.dfy`: `doCheckObs_event`, which is the same in both classes.

The log file is opened with `choice == 2` as the append flag of the `FileWriter` (src/main/java/jenkins/plugins/ObsEventTrigger.java:191), so mode 1 truncates the file and overwrites it with the matching event (`Mode1OverwritesWithMatch`).

The one-step unfolding lemmas of `poll_cycle.dfy` (`DrainPassing`, `DrainStopping`, `DrainMatching`, `DrainEmpty`, `DrainStartsWithFetch`, `LoggingCycleOfDrain`, and `LoopPasses`, `LoopMatches`, `LoopFails`, `LoopDrained`, which the loop invariants of the `Run` methods use) are proof helpers: each states one case of the definition of `Drain` or `LoggingCycle`, and the table below lists only the properties.

## Model

| member | source | states |
|---|---|---|
| Matcher.FindMismatch | src/main/java/jenkins/plugins/ObsEventTrigger.java:172-179 | walks `sMatchNames` in order and returns the first key the event lacks or disagrees on; every earlier key agrees; it runs to the end exactly when the event matches |
| Matcher.MatchesIsSubmap | src/main/java/jenkins/plugins/ObsEventTrigger.java:172-179 | an event matches iff the pattern's key/value pairs are among the event's |
| Matcher.ExtraEventKeysIgnored | src/main/java/jenkins/plugins/ObsEventTrigger/ObsEventTrigger.java:125-132 | adding a key the pattern does not name never changes the outcome |
| Matcher.MissingKeyRejects | src/main/java/jenkins/plugins/ObsEventTrigger.java:175 | an event without one of the pattern's keys does not match (`!obGotEvent.has(key)`) |
| Matcher.EmptyPatternMatchesAll | src/main/java/jenkins/plugins/ObsEventTrigger/ObsEventTrigger.java:125-126 | a pattern with no keys matches every event |
| Broker.FetchNext | src/main/java/jenkins/plugins/ObsEventTrigger.java:156 | `basicGet` returns null iff the queue is empty; otherwise it returns the head under the next delivery tag, and the rest stays queued |
| Broker.Channel.BasicGet | src/main/java/jenkins/plugins/ObsEventTrigger.java:156 | the channel's queue and tag advance as FetchNext says; acknowledgements are untouched |
| Broker.Channel.BasicAck | src/main/java/jenkins/plugins/ObsEventTrigger.java:163 | the tag is appended to the acknowledged tags; the queue and tag are unchanged |
| Host.Job.ScheduleBuild | src/main/java/jenkins/plugins/ObsEventTrigger.java:184 | one build with the given cause description is added after the earlier ones |
| Host.AfterWrite | src/main/java/jenkins/plugins/ObsEventTrigger.java:191-194 | an appending FileWriter adds the text after the old contents; a non-appending one replaces them; other files are untouched |
| Host.FileSystem.Write | src/main/java/jenkins/plugins/ObsEventTrigger.java:191-194 | the files become AfterWrite of the old files |
| JavaInt.ParseInt | src/main/java/jenkins/plugins/ObsEventTrigger.java:158 | an accepted value lies in the 32-bit range, and the string holds a digit |
| JavaInt.ParseIntOfIntToString | src/main/java/jenkins/plugins/ObsEventTrigger.java:158 | parseInt reads back every 32-bit value written by Integer.toString, including "0", "1" and "2" |
| JavaInt.ParseIntRejectsNonDigit | src/main/java/jenkins/plugins/ObsEventTrigger.java:158 | a non-digit after the optional sign makes parseInt throw |
| FormCheck.CheckObsEventAsWritten | src/main/java/jenkins/plugins/ObsEventTrigger.java:266-275 | a value without a trailing ';' gets "Please end the String with a ;."; otherwise the result is ok iff the value parses to an object, malformed text gets "Please input a valid JSON String.", and other JSON escapes as an exception |
| FormCheck.CheckObsEvent | src/main/java/jenkins/plugins/ObsEventTrigger/ObsEventTrigger.java:203-212 | the corrected check: ok iff the value ends with ';' and parses to an object; every other value gets one of the two error messages and nothing escapes |
| FormCheck.ArrayValueEscapesCheck | src/main/java/jenkins/plugins/ObsEventTrigger.java:270-273 | "[1];" escapes the check as written with ClassCastException; the corrected check reports it as invalid JSON |
| FormCheck.CheckAgreesExceptOnNonObjects | src/main/java/jenkins/plugins/ObsEventTrigger/ObsEventTrigger.java:206-211 | the written and the corrected check agree wherever the written one does not throw |
| FormCheck.UnterminatedRejectedBeforeParsing | src/main/java/jenkins/plugins/ObsEventTrigger.java:267-268 | without a trailing ';' the result does not depend on the parser: the value is never parsed |
| PollCycle.LoggingCycleEffects | src/main/java/jenkins/plugins/ObsEventTrigger.java:190-195 | the write adds no acknowledgement or build; the file is written, appended iff the mode is 2, exactly when the loop ended normally with a non-empty buffer |
| PollCycle.InvalidLoggingEffects | src/main/java/jenkins/plugins/ObsEventTrigger.java:156-158 | a rejected mode ends the cycle after one `basicGet`, with no acknowledgement, build or write |
| PollCycle.DrainStopsAt | src/main/java/jenkins/plugins/ObsEventTrigger.java:159-188 | the loop consumes the queue up to and including the first message that matches or fails to parse, and nothing after it; why it halted follows from that message |
| PollCycle.DrainAcksEveryFetch | src/main/java/jenkins/plugins/ObsEventTrigger.java:156-163 | the acknowledged tags are exactly the tags of the fetched messages, in fetch order |
| PollCycle.DrainAcksOnReceipt | src/main/java/jenkins/plugins/ObsEventTrigger/ObsEventTrigger.java:113-120 | each fetched message is acknowledged right after it is fetched, and before it is parsed |
| PollCycle.DrainBuildsAtMostOnce | src/main/java/jenkins/plugins/ObsEventTrigger.java:180-185 | a cycle schedules one build exactly when it stops on a match, described by the matching event's rendering, and no build otherwise |
| PollCycle.DrainScheduleEndsLoop | src/main/java/jenkins/plugins/ObsEventTrigger.java:184-185 | a build is always the last step of the loop, so no fetch follows it; the loop itself never writes the file |
| PollCycle.DrainRemembersLastReceived | src/main/java/jenkins/plugins/ObsEventTrigger/ObsEventTrigger.java:120 | after the loop, `obGotEvent` is the last event parsed, or the old value when none was |
| PollCycle.DrainLogsAllReceived | src/main/java/jenkins/plugins/ObsEventTrigger.java:169-170 | in mode 2 the buffer gains every received event's rendering plus a newline, in order, including the matching one |
| PollCycle.DrainLogsLatestMatch | src/main/java/jenkins/plugins/ObsEventTrigger.java:181-182 | in mode 1 the buffer is the matching event's rendering, or unchanged when nothing matched |
| PollCycle.DrainLogsNothing | src/main/java/jenkins/plugins/ObsEventTrigger.java:157 | in any other mode the buffer stays as it was |
| PollCycle.DrainLastStep | src/main/java/jenkins/plugins/ObsEventTrigger.java:159-188 | the loop's last step is the null fetch, the build, or the failed parse, according to why it stopped |
| PollCycle.FirstMatchSchedulesOneBuild | src/main/java/jenkins/plugins/ObsEventTrigger.java:180-188 | when the k-th message is the first match, exactly k + 1 messages are fetched and acknowledged, one build describes the k-th, and the rest stay queued |
| PollCycle.NoMatchDrainsQueue | src/main/java/jenkins/plugins/ObsEventTrigger/ObsEventTrigger.java:114-139 | when no message matches and all parse, the loop empties the queue, acknowledges every message and schedules no build |
| PollCycle.ParseFailureLosesMessage | src/main/java/jenkins/plugins/ObsEventTrigger/ObsEventTrigger.java:118-120 | a message that is not an object has already been acknowledged when the exception ends the cycle; there is no build and nothing after it is fetched |
| PollCycle.ParseFailureKeepsLastParsed | src/main/java/jenkins/plugins/ObsEventTrigger/ObsEventTrigger.java:120 | after a parse failure, `obGotEvent` holds the event before the bad message, or its old value |
| PollCycle.InvalidLoggingLeavesFetchUnacked | src/main/java/jenkins/plugins/ObsEventTrigger.java:156-158 | a non-numeric `logging` throws after the first `basicGet` and before any `basicAck`, so that message is taken and never acknowledged |
| PollCycle.LogWrittenOnlyAtEnd | src/main/java/jenkins/plugins/ObsEventTrigger.java:190-199 | the file is written at most once, as the cycle's last step, exactly when the cycle ended normally with a non-empty buffer, and it receives the whole buffer |
| PollCycle.Mode2AppendsEveryReceivedEvent | src/main/java/jenkins/plugins/ObsEventTrigger.java:169-170 | in mode 2 a normal cycle that received events appends all their renderings; a cycle that threw writes nothing |
| PollCycle.Mode1OverwritesWithMatch | src/main/java/jenkins/plugins/ObsEventTrigger.java:191 | in mode 1 a cycle ending on a match overwrites the file with that event's rendering; otherwise nothing is written |
| PollCycle.OtherModesNeverWrite | src/main/java/jenkins/plugins/ObsEventTrigger.java:190 | in modes other than 1 and 2 the buffer stays empty and the file is never written |
| PollCycle.PlainCycleNeverLogs | src/main/java/jenkins/plugins/ObsEventTrigger/ObsEventTrigger.java:111-145 | the class without logging never buffers text and never writes a file |
| ObsEventTrigger.MetaDataTable.constructor | src/main/java/jenkins/plugins/ObsEventTrigger.java:37 | the table starts empty |
| ObsEventTrigger.MetaDataTable.GetMetaData | src/main/java/jenkins/plugins/ObsEventTrigger.java:41-43 | the stored value, or null (None) exactly when the key is absent |
| ObsEventTrigger.MetaDataTable.AddMetaData | src/main/java/jenkins/plugins/ObsEventTrigger.java:38-40 | afterwards getMetaData(key) returns the value, and every other key keeps its value |
| ObsEventTrigger.MetaDataTable.RemoveMetaData | src/main/java/jenkins/plugins/ObsEventTrigger.java:44-46 | afterwards getMetaData(key) returns null, and every other key keeps its value |
| ObsEventTrigger.Trigger.constructor | src/main/java/jenkins/plugins/ObsEventTrigger.java:74-81 | the trigger holds the parsed pattern and the `logging` setting, and no event has been seen yet |
| ObsEventTrigger.Trigger.Run | src/main/java/jenkins/plugins/ObsEventTrigger.java:154-200 | the queue, tag, acknowledgements, builds, log file and `obGotEvent` after `run()` are those LoggingCycle gives for the old state |
| ObsEventTrigger.Trigger.ReceiveUntilMatch | src/main/java/jenkins/plugins/ObsEventTrigger.java:159-189 | the loop leaves the channel, the builds, `obGotEvent` and the buffer as Drain says, and reports whether an exception ended it |
| ObsEventTriggerPkg.ReferenceTestAgreesWithContent | src/main/java/jenkins/plugins/ObsEventTrigger/ObsEventTrigger.java:121-133 | `causeString != ""` by reference holds exactly when the string is not empty by content: a rendering is never empty, and a mismatch assigns the literal itself |
| ObsEventTriggerPkg.Trigger.constructor | src/main/java/jenkins/plugins/ObsEventTrigger/ObsEventTrigger.java:48-55 | the trigger holds the parsed pattern, and no event has been seen yet |
| ObsEventTriggerPkg.Trigger.Run | src/main/java/jenkins/plugins/ObsEventTrigger/ObsEventTrigger.java:111-145 | the queue, tag, acknowledgements, builds and `obGotEvent` after `run()` are those PlainCycle gives for the old state |

## Left out

- Failures of the broker calls are not modelled: `basicGet` and `basicAck` never throw here, and the channel is never null. In the source, an IOException from either call, or the NullPointerException of a channel that `start()` failed to open, ends the cycle through the catch-all (src/main/java/jenkins/plugins/ObsEventTrigger.java:196-199, src/main/java/jenkins/plugins/ObsEventTrigger/ObsEventTrigger.java:141-144). Such a failure can leave a fetched message unacknowledged, and in the first class it skips the log write. The only exception exits the model has are a body that is not a JSON object and a `logging` setting that does not parse.
- Message bodies are already-decoded strings. The platform-charset decoding of `new String(response.getBody())` is not modelled.
- Broker session setup and teardown are not modelled: `start`, `stop`, `_stop`, `queueDeclare`, `queueBind`, `queueDelete` and `channel.close`. They are calls into the RabbitMQ client. The channel is a constructor argument of each trigger, and its queue starts as a sequence of message bodies.
- `doCheckAmqp_server` is not modelled, because it opens a network connection.
- The `Cleaner` shutdown thread and `finalize()` are not modelled. They concern process exit and garbage collection.
- json-lib is a parameter. `JSONSerializer.toJSON` with the cast to `JSONObject` is a function `Parser` that the caller supplies. `toString(4)` is the object's `text`, assumed non-empty, as json-lib renders an empty object as "{}". `names()` is assumed to list exactly the object's keys (`JsonObject.Valid`).
- The constructors take the pattern already parsed. A pattern string that is not a JSON object makes the Java constructor throw, and no trigger exists then.
- `Integer.parseInt` is modelled for ASCII digits only. Java also accepts other Unicode decimal digits.
- Console output (`System.out.println`, `printStackTrace`) and `ObsEventCause` are not modelled. A build's cause is recorded as its description string.
- The file write is modelled as one operation on a map of file contents. I/O exceptions from `FileWriter` and `BufferedWriter` are not modelled, and neither is a failure between opening the file and writing to it.
- The metadata table is a plain map owned by one `MetaDataTable` object, which stands for the static field. `Hashtable`'s synchronisation and its rejection of null keys and values are not modelled.
- The order of the cycle's effects is stated on a specification trace. The methods do not keep that trace as state: their postconditions give the acknowledgements, builds, queue and files that the trace determines.
- The getters, `toString`, `isApplicable`, `getDisplayName`, `doFillLoggingItems` and the `Trigger` superclass are not modelled.

## Findings

| source | as written | input that shows it | evidently intended | confidence | as-written member | corrected member |
|---|---|---|---|---|---|---|
| src/main/java/jenkins/plugins/ObsEventTrigger.java:269-274 | only `JSONException` is caught around `(JSONObject) JSONSerializer.toJSON(value)` (the same at src/main/java/jenkins/plugins/ObsEventTrigger/ObsEventTrigger.java:206-211) | `[1];`, which parses to a JSON array, so the cast throws a ClassCastException that escapes the form check | every value ending in ';' that is not a JSON object gets "Please input a valid JSON String." | medium, not executed (depends on json-lib accepting the trailing ';' after an array) | FormCheck.ArrayValueEscapesCheck | FormCheck.CheckObsEvent |
