// app/harness/termination.py: the stall detector.
module StallSpec {
  import opened Wrappers
  import opened Contracts

  const HISTORY_LIMIT := 8

  // The canonical JSON value stands for its SHA-256 fingerprint.
  function ActionFingerprint(call: ToolCall): Json {
    JObj(map["name" := JStr(call.name), "arguments" := JObj(call.arguments)])
  }

  function ObservationFingerprint(observation: Obj): Json {
    if "result" in observation then observation["result"] else JObj(observation)
  }

  function Window(history: seq<Json>): seq<Json> {
    if |history| <= HISTORY_LIMIT then history else history[|history| - HISTORY_LIMIT..]
  }

  function ActionAlarm(prints: seq<Json>): Option<StallReason> {
    var n := |prints|;
    if n >= 2 && prints[n - 1] == prints[n - 2] then Some(REPEATED_ACTION)
    else if n >= 4 && prints[n - 4] == prints[n - 2] && prints[n - 3] == prints[n - 1] then Some(ACTION_OSCILLATION)
    else None
  }

  function ObservationAlarm(prints: seq<Json>): Option<StallReason> {
    var n := |prints|;
    if n >= 2 && prints[n - 1] == prints[n - 2] then Some(NO_NEW_EVIDENCE) else None
  }
}

module StallDetection {
  import opened Wrappers
  import opened Contracts
  import opened StallSpec

  // The two fingerprint lists of a runtime state, appended to and truncated in place.
  class StallDetector {
    var actions: seq<Json>
    var observations: seq<Json>

    constructor ()
      ensures actions == [] && observations == []
    {
      actions, observations := [], [];
    }

    method RecordAction(call: ToolCall) returns (alarm: Option<StallReason>)
      modifies this`actions
      ensures actions == Window(old(actions) + [ActionFingerprint(call)])
      ensures alarm == ActionAlarm(actions)
    {
      actions := actions + [ActionFingerprint(call)];
      if |actions| > HISTORY_LIMIT {
        actions := actions[|actions| - HISTORY_LIMIT..];
      }
      var n := |actions|;
      if n >= 2 && actions[n - 1] == actions[n - 2] {
        return Some(REPEATED_ACTION);
      }
      if n >= 4 && actions[n - 4] == actions[n - 2] && actions[n - 3] == actions[n - 1] {
        if actions[n - 1] != actions[n - 2] {
          return Some(ACTION_OSCILLATION);
        }
      }
      alarm := None;
    }

    method RecordObservation(observation: Obj) returns (alarm: Option<StallReason>)
      modifies this`observations
      ensures observations == Window(old(observations) + [ObservationFingerprint(observation)])
      ensures alarm == ObservationAlarm(observations)
    {
      observations := observations + [ObservationFingerprint(observation)];
      if |observations| > HISTORY_LIMIT {
        observations := observations[|observations| - HISTORY_LIMIT..];
      }
      var n := |observations|;
      alarm := if n >= 2 && observations[n - 1] == observations[n - 2] then Some(NO_NEW_EVIDENCE) else None;
    }
  }

  // The alarms of the bounded detector on a stream of fingerprints.
  function BoundedAlarms(window: seq<Json>, prints: seq<Json>,
      alarm: seq<Json> -> Option<StallReason>): seq<Option<StallReason>>
    decreases |prints|
  {
    if prints == [] then []
    else var w := Window(window + [prints[0]]); [alarm(w)] + BoundedAlarms(w, prints[1..], alarm)
  }

  // The alarms of a detector that keeps everything.
  function FullAlarms(history: seq<Json>, prints: seq<Json>,
      alarm: seq<Json> -> Option<StallReason>): seq<Option<StallReason>>
    decreases |prints|
  {
    if prints == [] then []
    else var h := history + [prints[0]]; [alarm(h)] + FullAlarms(h, prints[1..], alarm)
  }

  lemma {:induction false} BoundedMatchesFrom(history: seq<Json>, prints: seq<Json>)
    ensures BoundedAlarms(Window(history), prints, ActionAlarm) == FullAlarms(history, prints, ActionAlarm)
    ensures BoundedAlarms(Window(history), prints, ObservationAlarm) == FullAlarms(history, prints, ObservationAlarm)
    decreases |prints|
  {
    if prints != [] {
      var h := history + [prints[0]];
      assert Window(Window(history) + [prints[0]]) == Window(h);
      BoundedMatchesFrom(h, prints[1..]);
    }
  }

  // Eight remembered fingerprints raise exactly the alarms of the whole history.
  lemma {:induction false} WindowLosesNoAlarm(prints: seq<Json>)
    ensures BoundedAlarms([], prints, ActionAlarm) == FullAlarms([], prints, ActionAlarm)
    ensures BoundedAlarms([], prints, ObservationAlarm) == FullAlarms([], prints, ObservationAlarm)
  {
    BoundedMatchesFrom([], prints);
  }

  predicate NoImmediateRepeat(s: seq<Json>) { forall i | 0 < i < |s| :: s[i - 1] != s[i] }

  predicate NoAlternation(s: seq<Json>) {
    forall i | 3 <= i < |s| :: !Alternates(s, i)
  }

  predicate AllQuiet(alarms: seq<Option<StallReason>>) { forall i | 0 <= i < |alarms| :: alarms[i].None? }

  predicate LoopFree(s: seq<Json>) { NoImmediateRepeat(s) && NoAlternation(s) }

  lemma {:induction false} RepeatAtTheEnd(history: seq<Json>, latest: Json)
    ensures NoImmediateRepeat(history + [latest])
            <==> NoImmediateRepeat(history) && (history != [] ==> history[|history| - 1] != latest)
  {
    var h := history + [latest];
    assert forall i | 0 <= i < |history| :: h[i] == history[i];
    if NoImmediateRepeat(h) && history != [] { assert h[|history| - 1] != h[|history|]; }
  }

  predicate Alternates(s: seq<Json>, i: nat)
    requires 3 <= i < |s|
  {
    s[i - 3] == s[i - 1] && s[i - 2] == s[i] && s[i - 1] != s[i]
  }

  lemma {:induction false} AlternationAtTheEnd(history: seq<Json>, latest: Json)
    ensures NoAlternation(history + [latest])
            <==> NoAlternation(history) && (|history| >= 3 ==> !Alternates(history + [latest], |history|))
  {
    var h := history + [latest];
    assert forall i | 0 <= i < |history| :: h[i] == history[i];
    if NoAlternation(h) {
      forall i | 3 <= i < |history| ensures !Alternates(history, i) { assert !Alternates(h, i); }
    }
    if NoAlternation(history) && (|history| >= 3 ==> !Alternates(h, |history|)) {
      forall i | 3 <= i < |h| ensures !Alternates(h, i) {
        if i < |history| { assert !Alternates(history, i); }
      }
    }
  }

  lemma {:induction false} OneMorePrint(history: seq<Json>, latest: Json)
    requires LoopFree(history)
    ensures ActionAlarm(history + [latest]).None? <==> LoopFree(history + [latest])
  {
    RepeatAtTheEnd(history, latest);
    AlternationAtTheEnd(history, latest);
  }

  lemma {:induction false} LoopFreePrefix(s: seq<Json>, t: seq<Json>)
    requires LoopFree(s + t)
    ensures LoopFree(s)
  {
    assert forall i | 0 <= i < |s| :: (s + t)[i] == s[i];
    forall i | 3 <= i < |s| ensures !Alternates(s, i) { assert !Alternates(s + t, i); }
  }

  lemma {:induction false} QuietFrom(history: seq<Json>, prints: seq<Json>)
    requires LoopFree(history)
    ensures AllQuiet(FullAlarms(history, prints, ActionAlarm)) <==> LoopFree(history + prints)
    decreases |prints|
  {
    if prints == [] {
      assert history + prints == history;
    } else {
      var h := history + [prints[0]];
      var rest := FullAlarms(h, prints[1..], ActionAlarm);
      var alarms := FullAlarms(history, prints, ActionAlarm);
      assert h + prints[1..] == history + prints;
      assert alarms == [ActionAlarm(h)] + rest;
      assert alarms[1..] == rest;
      OneMorePrint(history, prints[0]);
      if LoopFree(h) {
        QuietFrom(h, prints[1..]);
        assert alarms[0].None?;
        assert AllQuiet(rest) ==> AllQuiet(alarms);
        assert AllQuiet(alarms) ==> AllQuiet(rest) by {
          assert forall i | 0 <= i < |rest| :: rest[i] == alarms[i + 1];
        }
      } else {
        assert alarms[0].Some?;
        if LoopFree(history + prints) { LoopFreePrefix(h, prints[1..]); }
      }
    }
  }

  // A stream of actions raises no alarm exactly when it has no immediate repeat and no block xyxy.
  lemma {:induction false} QuietMeansNoLoop(prints: seq<Json>)
    ensures AllQuiet(BoundedAlarms([], prints, ActionAlarm)) <==> LoopFree(prints)
  {
    WindowLosesNoAlarm(prints);
    QuietFrom([], prints);
    assert [] + prints == prints;
  }

  lemma {:induction false} AlarmOfPrefix(history: seq<Json>, prints: seq<Json>,
      alarm: seq<Json> -> Option<StallReason>, i: nat)
    requires i < |prints|
    ensures |FullAlarms(history, prints, alarm)| == |prints|
    ensures FullAlarms(history, prints, alarm)[i] == alarm(history + prints[..i + 1])
    decreases |prints|
  {
    var h := history + [prints[0]];
    if i > 0 {
      AlarmOfPrefix(h, prints[1..], alarm, i - 1);
      assert h + prints[1..][..i] == history + prints[..i + 1];
    } else {
      if |prints| > 1 { AlarmOfPrefix(h, prints[1..], alarm, 0); }
      assert history + prints[..1] == h;
    }
  }

  // Each alarm says what has just happened: the same action again, two actions in turn for the second time, or the
  // same observation again.
  lemma {:induction false} AlarmsSayWhatHappened(prints: seq<Json>, i: nat)
    requires i < |prints|
    ensures |BoundedAlarms([], prints, ActionAlarm)| == |BoundedAlarms([], prints, ObservationAlarm)| == |prints|
    ensures BoundedAlarms([], prints, ActionAlarm)[i] ==
              if i >= 1 && prints[i] == prints[i - 1] then Some(REPEATED_ACTION)
              else if i >= 3 && prints[i] == prints[i - 2] && prints[i - 1] == prints[i - 3] then Some(ACTION_OSCILLATION)
              else None
    ensures BoundedAlarms([], prints, ObservationAlarm)[i] ==
              if i >= 1 && prints[i] == prints[i - 1] then Some(NO_NEW_EVIDENCE) else None
  {
    WindowLosesNoAlarm(prints);
    AlarmOfPrefix([], prints, ActionAlarm, i);
    AlarmOfPrefix([], prints, ObservationAlarm, i);
    assert [] + prints[..i + 1] == prints[..i + 1];
  }
}
