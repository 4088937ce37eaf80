/**
 The AppImage update poller. Starting it asks the underlying update library to
 begin; while the library works, a repeating timer checks it, forwarding
 progress until the library reports that it is done, at which point the poller
 records the outcome, emits `finished` and the timer stops.

 The update library is an oracle: its answer to `start` is a parameter of
 `Start`, and its answers during one timer tick form a `Reading`. Timer
 intervals are not modelled; ticks are discrete steps.
 */
module AppImageUpdater {
  import opened Wrappers
  import opened Sequences

  /** A progress reading as the library reports it. The library's value is a floating-point
      fraction that the poller forwards untouched; it is kept as an uninterpreted number. */
  type Progress = int

  /** What the poller emits. */
  datatype Event = UpdateProgress(id: string, progress: Progress) | Finished

  /** `polling` is whether a timer is running; every timer is stopped by `finished`. */
  datatype Updater = Updater(
    id: string,
    path: string,
    finishedWithNoError: bool,
    errorString: string,
    polling: bool,
    events: seq<Event>)

  /** The library's answers during one tick: whether it is done, whether it failed, its
      progress if it can report one, and the status messages queued for the poller. */
  datatype Reading = Reading(done: bool, hasError: bool, progress: Option<Progress>, messages: seq<string>)

  /** A new poller for the AppImage at `path`: not finished, no error text, not polling. */
  function Create(id: string, path: string): (u: Updater)
    ensures u.id == id && u.path == path
    ensures !u.finishedWithNoError && u.errorString == ""
    ensures !u.polling && u.events == []
  {
    Updater(id, path, false, "", false, [])
  }

  /** The outcome fields are reset before the library is asked to start. If it refuses,
      `finished` is emitted at once (stopping any timer); otherwise a timer starts. */
  function Start(u: Updater, accepted: bool): (r: Updater)
    ensures r.id == u.id && r.path == u.path
    ensures !r.finishedWithNoError && r.errorString == ""
    ensures accepted ==> r.polling && r.events == u.events
    ensures !accepted ==> !r.polling && r.events == u.events + [Finished]
  {
    var reset := u.(finishedWithNoError := false, errorString := "");
    if accepted then reset.(polling := true)
    else reset.(polling := false, events := u.events + [Finished])
  }

  /** The status messages as the error text records them: each one followed by a newline. */
  function Joined(messages: seq<string>): string
  {
    if messages == [] then "" else messages[0] + "\n" + Joined(messages[1..])
  }

  lemma {:induction false} JoinedAppend(messages: seq<string>, m: string)
    ensures Joined(messages + [m]) == Joined(messages) + m + "\n"
  {
    if messages == [] {
      assert messages + [m] == [m];
    } else {
      assert (messages + [m])[1..] == messages[1..] + [m];
      JoinedAppend(messages[1..], m);
    }
  }

  /** The drain loop: take status messages from the queue until it is empty, appending each,
      followed by a newline, to the error text. */
  method DrainStatusMessages(errorString: string, queue: seq<string>) returns (r: string)
    ensures r == errorString + Joined(queue)
  {
    r := errorString;
    var i := 0;
    while i < |queue|
      invariant 0 <= i <= |queue|
      invariant r == errorString + Joined(queue[..i])
    {
      assert queue[..i + 1] == queue[..i] + [queue[i]];
      JoinedAppend(queue[..i], queue[i]);
      r := r + queue[i] + "\n";
      i := i + 1;
    }
    assert queue[..|queue|] == queue;
  }

  /** One timer tick. Without a running timer nothing happens. While the library is not done,
      only its progress (if any) is forwarded. When it is done with an error, every queued
      status message is appended to the error text and `finished` is emitted; when it is done
      without error, success is recorded and `finished` is emitted. */
  function CheckProgress(u: Updater, reading: Reading): (r: Updater)
    ensures r.id == u.id && r.path == u.path
    ensures !u.polling ==> r == u
    ensures u.polling && !reading.done ==>
              && r.polling
              && r.finishedWithNoError == u.finishedWithNoError && r.errorString == u.errorString
              && r.events == u.events + (match reading.progress
                                         case Some(p) => [UpdateProgress(u.id, p)]
                                         case None => [])
    ensures u.polling && reading.done && reading.hasError ==>
              && !r.polling
              && r.finishedWithNoError == u.finishedWithNoError
              && r.errorString == u.errorString + Joined(reading.messages)
              && r.events == u.events + [Finished]
    ensures u.polling && reading.done && !reading.hasError ==>
              && !r.polling
              && r.finishedWithNoError && r.errorString == u.errorString
              && r.events == u.events + [Finished]
  {
    if !u.polling then u
    else if !reading.done then
      match reading.progress
      case Some(p) => u.(events := u.events + [UpdateProgress(u.id, p)])
      case None => u
    else if reading.hasError then
      u.(errorString := u.errorString + Joined(reading.messages), polling := false, events := u.events + [Finished])
    else
      u.(finishedWithNoError := true, polling := false, events := u.events + [Finished])
  }

  /** The timer firing once per reading. */
  function Run(u: Updater, readings: seq<Reading>): Updater
    decreases readings
  {
    if readings == [] then u else Run(CheckProgress(u, readings[0]), readings[1..])
  }

  /** The first reading at which the library reports done, or the number of readings. */
  function FirstDone(readings: seq<Reading>): (k: nat)
    ensures k <= |readings|
    ensures forall j :: 0 <= j < k ==> !readings[j].done
    ensures k < |readings| ==> readings[k].done
  {
    if readings == [] then 0
    else if readings[0].done then 0
    else 1 + FirstDone(readings[1..])
  }

  /** The progress events a run of not-done readings forwards, in order. */
  function ProgressEvents(id: string, readings: seq<Reading>): seq<Event>
  {
    if readings == [] then []
    else
      (match readings[0].progress
       case Some(p) => [UpdateProgress(id, p)]
       case None => []) + ProgressEvents(id, readings[1..])
  }

  /** Once no timer runs, ticks change nothing: no progress, no second `finished`. */
  lemma {:induction false} NoTicksAfterFinished(u: Updater, readings: seq<Reading>)
    requires !u.polling
    ensures Run(u, readings) == u
    decreases readings
  {
    if readings != [] {
      NoTicksAfterFinished(CheckProgress(u, readings[0]), readings[1..]);
    }
  }

  /** What a polling run produces, in terms of the readings alone: progress for every reading
      before the first done one, then exactly one `finished`, after which the timer is stopped;
      the outcome is decided by that done reading. */
  lemma {:induction false} RunOutcome(u: Updater, readings: seq<Reading>)
    requires u.polling
    ensures var r := Run(u, readings);
            var k := FirstDone(readings);
            && r.id == u.id && r.path == u.path
            && (r.polling <==> k == |readings|)
            && r.events == u.events + ProgressEvents(u.id, readings[..k]) + (if k < |readings| then [Finished] else [])
            && (k == |readings| ==> r.finishedWithNoError == u.finishedWithNoError && r.errorString == u.errorString)
            && (k < |readings| && readings[k].hasError ==>
                  r.finishedWithNoError == u.finishedWithNoError
                  && r.errorString == u.errorString + Joined(readings[k].messages))
            && (k < |readings| && !readings[k].hasError ==>
                  r.finishedWithNoError && r.errorString == u.errorString)
    decreases readings
  {
    if readings == [] {
      assert readings[..0] == [];
    } else {
      var next := CheckProgress(u, readings[0]);
      if readings[0].done {
        NoTicksAfterFinished(next, readings[1..]);
        assert readings[..0] == [];
      } else {
        var rest := readings[1..];
        RunOutcome(next, rest);
        var k := FirstDone(readings);
        assert k == 1 + FirstDone(rest);
        assert readings[..k] == [readings[0]] + rest[..k - 1];
        assert ([readings[0]] + rest[..k - 1])[1..] == rest[..k - 1];
      }
    }
  }

  /** The outcome fields agree with the timer: while polling nothing is decided yet, and a
      success never carries error text. */
  predicate Consistent(u: Updater)
  {
    && (u.polling ==> !u.finishedWithNoError && u.errorString == "")
    && (u.finishedWithNoError ==> u.errorString == "")
  }

  /** Construction establishes the consistency of the outcome fields, and starting and ticking
      keep it. */
  lemma StepsKeepConsistent(u: Updater, accepted: bool, reading: Reading, id: string, path: string)
    ensures Consistent(Create(id, path))
    ensures Consistent(Start(u, accepted))
    ensures Consistent(u) ==> Consistent(CheckProgress(u, reading))
  {
  }

  /** A refused start emits `finished` exactly once and no tick ever follows. */
  lemma {:induction false} RefusedStartNeverPolls(u: Updater, readings: seq<Reading>)
    ensures var r := Run(Start(u, false), readings);
            && r.events == u.events + [Finished]
            && !r.finishedWithNoError && r.errorString == ""
  {
    NoTicksAfterFinished(Start(u, false), readings);
  }

  /** After an accepted start, a run that finishes records success exactly when the library
      reported no error; a success carries no error text, and a failure carries exactly the
      status messages drained at the end. */
  lemma {:induction false} AcceptedStartOutcome(u: Updater, readings: seq<Reading>)
    requires FirstDone(readings) < |readings|
    ensures var r := Run(Start(u, true), readings);
            var last := readings[FirstDone(readings)];
            && !r.polling
            && (r.finishedWithNoError <==> !last.hasError)
            && (r.finishedWithNoError ==> r.errorString == "")
            && (!r.finishedWithNoError ==> r.errorString == Joined(last.messages))
  {
    RunOutcome(Start(u, true), readings);
  }

  /** Progress readings never produce `finished`. */
  lemma {:induction false} ProgressEventsAreProgress(id: string, readings: seq<Reading>)
    ensures Occurrences(ProgressEvents(id, readings), Finished) == 0
    ensures forall e :: e in ProgressEvents(id, readings) ==> e.UpdateProgress? && e.id == id
  {
    if readings != [] {
      ProgressEventsAreProgress(id, readings[1..]);
      var head := match readings[0].progress
        case Some(p) => [UpdateProgress(id, p)]
        case None => [];
      OccurrencesConcat(head, ProgressEvents(id, readings[1..]), Finished);
    }
  }

  /** A polling run emits `finished` at most once: once if the library reported done, and
      never otherwise. Everything else it emits is progress for this poller's id. */
  lemma {:induction false} FinishedAtMostOnce(u: Updater, readings: seq<Reading>)
    requires u.polling
    ensures var r := Run(u, readings);
            && |u.events| <= |r.events| && r.events[..|u.events|] == u.events
            && Occurrences(r.events[|u.events|..], Finished) == (if r.polling then 0 else 1)
            && forall e :: e in r.events[|u.events|..] && e != Finished ==> e.UpdateProgress? && e.id == u.id
  {
    RunOutcome(u, readings);
    var r := Run(u, readings);
    var k := FirstDone(readings);
    var progress := ProgressEvents(u.id, readings[..k]);
    var tail := if k < |readings| then [Finished] else [];
    assert r.events[|u.events|..] == progress + tail;
    ProgressEventsAreProgress(u.id, readings[..k]);
    OccurrencesConcat(progress, tail, Finished);
  }

  /** Splits a text into its newline-terminated lines; a trailing fragment without a
      newline is a last line of its own. */
  function Lines(text: string): seq<string>
  {
    if text == [] then []
    else if text[0] == '\n' then [""] + Lines(text[1..])
    else
      var rest := Lines(text[1..]);
      if rest == [] then [[text[0]]] else [[text[0]] + rest[0]] + rest[1..]
  }

  lemma {:induction false} LinesOfLine(m: string, text: string)
    requires '\n' !in m
    ensures Lines(m + "\n" + text) == [m] + Lines(text)
  {
    if m == [] {
      assert m + "\n" + text == ['\n'] + text;
    } else {
      assert (m + "\n" + text)[0] == m[0];
      assert (m + "\n" + text)[1..] == m[1..] + "\n" + text;
      LinesOfLine(m[1..], text);
      assert [m[0]] + m[1..] == m;
    }
  }

  /** The error text loses nothing: when no status message contains a newline, its lines are
      exactly the drained messages, in the order the library queued them. */
  lemma {:induction false} ErrorTextKeepsEveryMessage(messages: seq<string>)
    requires forall i :: 0 <= i < |messages| ==> '\n' !in messages[i]
    ensures Lines(Joined(messages)) == messages
  {
    if messages != [] {
      ErrorTextKeepsEveryMessage(messages[1..]);
      LinesOfLine(messages[0], Joined(messages[1..]));
    }
  }
}
