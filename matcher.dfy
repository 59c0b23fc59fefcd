/**
 * The pattern test both triggers run on each received event: every key of the
 * configured pattern (`obMatchEvent`, keys `sMatchNames`) must be present in
 * the event (`has`) with the same `getString` value. Keys of the event that
 * the pattern does not name are ignored.
 */
module Matcher {
  import opened Json

  /** `obGotEvent.has(key) && obGotEvent.getString(key).equals(obMatchEvent.getString(key))` */
  predicate Agrees(pattern: JsonObject, event: JsonObject, key: string) {
    key in pattern.fields && key in event.fields && event.fields[key] == pattern.fields[key]
  }

  /** The event carries every field of the pattern with an equal string value. */
  predicate Matches(pattern: JsonObject, event: JsonObject) {
    forall k :: k in pattern.fields ==> Agrees(pattern, event, k)
  }

  /**
   * The key loop of `run()`: walks `sMatchNames` in order and stops at the
   * first key the event lacks or disagrees on (where `run()` sets
   * `causeString` to "" and breaks). `i == |names|` means the loop ran out.
   */
  method FindMismatch(pattern: JsonObject, event: JsonObject) returns (i: nat)
    requires pattern.Valid()
    ensures i <= |pattern.names|
    ensures forall j :: 0 <= j < i ==> Agrees(pattern, event, pattern.names[j])
    ensures i < |pattern.names| ==> !Agrees(pattern, event, pattern.names[i])
    ensures i == |pattern.names| <==> Matches(pattern, event)
  {
    i := 0;
    while i < |pattern.names|
      invariant i <= |pattern.names|
      invariant forall j :: 0 <= j < i ==> Agrees(pattern, event, pattern.names[j])
    {
      var key := pattern.names[i];
      if !(key in event.fields) || event.fields[key] != pattern.fields[key] {
        return;
      }
      i := i + 1;
    }
    forall k | k in pattern.fields
      ensures Agrees(pattern, event, k)
    {
      var j :| 0 <= j < |pattern.names| && pattern.names[j] == k;
    }
  }

  /** The match is the sub-map order: the pattern's entries are among the event's. */
  lemma MatchesIsSubmap(pattern: JsonObject, event: JsonObject)
    ensures Matches(pattern, event) <==> pattern.fields.Items <= event.fields.Items
  {
    if Matches(pattern, event) {
      forall e | e in pattern.fields.Items
        ensures e in event.fields.Items
      {
        assert Agrees(pattern, event, e.0);
      }
    } else {
      var k :| k in pattern.fields && !Agrees(pattern, event, k);
      assert (k, pattern.fields[k]) in pattern.fields.Items;
      assert (k, pattern.fields[k]) !in event.fields.Items;
    }
  }

  /** Extra keys in the event never change the outcome (superset match). */
  lemma ExtraEventKeysIgnored(pattern: JsonObject, event: JsonObject, key: string, value: string)
    requires key !in pattern.fields
    ensures Matches(pattern, event.(fields := event.fields[key := value])) == Matches(pattern, event)
  {
    var wider := event.(fields := event.fields[key := value]);
    forall k | k in pattern.fields
      ensures Agrees(pattern, wider, k) == Agrees(pattern, event, k)
    {
      assert k != key;
    }
  }

  /** An event that lacks one of the pattern's keys does not match. */
  lemma MissingKeyRejects(pattern: JsonObject, event: JsonObject, key: string)
    requires key in pattern.fields && key !in event.fields
    ensures !Matches(pattern, event)
  {
    assert !Agrees(pattern, event, key);
  }

  /** An empty pattern matches every event. */
  lemma EmptyPatternMatchesAll(pattern: JsonObject, event: JsonObject)
    requires pattern.fields == map[]
    ensures Matches(pattern, event)
  {
  }
}
