/**
 The session monitor of the mock server (OPCUAMock/Program.cs): the
 heartbeat that every poll reports all sessions once the last report or
 lifecycle event is more than 6000 ms old (`StatusThreadAsync`), and the
 lifecycle handler that reports one session and restarts that quiet period
 (`EventStatus`). Both share the one timestamp `m_lastEventTime`.

 The clock is integer milliseconds since the default `DateTime` (the
 earliest instant, `MinTime`), handed in by the caller, and the console is
 a sequence of lines. `Apply` and `Run` give the behaviour of
 one step and of an interleaved trace of steps as values; the class
 `StatusMonitor` does the same in place and is proved against them. The
 trace functions take the line format as a parameter, so the timing
 properties below hold whatever the lines look like; the class uses
 `FormatStatus`.
 */
module Heartbeat {
  import opened StatusLine

  /** How long after the last report a poll stays silent. */
  const QuietPeriodMillis: int := 6000
  /** The reason printed on heartbeat lines. */
  const StatusReason: string := "-Status-"
  /** The timestamp before any event: the default `DateTime`, the origin
      of the clock. */
  const MinTime: int := 0

  /** The lifecycle notifications the handler is subscribed to. */
  datatype SessionEventReason = Created | Activated | Closing

  /** The name the reason prints as. */
  function ReasonName(reason: SessionEventReason): string {
    match reason
    case Created => "Created"
    case Activated => "Activated"
    case Closing => "Closing"
  }

  /** A poll of the heartbeat loop at clock reading `now`, seeing the live
      `sessions` and reading the clock again as `doneAt` once it has
      reported; or a lifecycle notification for one session at `now`. */
  datatype Step =
    | Poll(now: int, sessions: seq<Session>, doneAt: int)
    | Event(now: int, session: Session, reason: SessionEventReason)

  /** How a status line is written from a session, a reason and the
      last-contact switch; the monitor uses `FormatStatus`. */
  type Format = (Session, string, bool) -> string

  datatype MonitorState = MonitorState(lastEventTime: int, console: seq<string>)

  const Initial: MonitorState := MonitorState(MinTime, [])

  /** A poll reports only when strictly more than the quiet period has
      passed since the timestamp. */
  predicate QuietPeriodOver(lastEventTime: int, now: int) {
    now - lastEventTime > QuietPeriodMillis
  }

  /** The heartbeat report: one last-contact line per session, in the
      order the sessions are listed. */
  function HeartbeatLines(format: Format, sessions: seq<Session>): (lines: seq<string>)
    ensures |lines| == |sessions|
    ensures forall i :: 0 <= i < |sessions| ==>
      lines[i] == format(sessions[i], StatusReason, true)
  {
    if sessions == [] then []
    else HeartbeatLines(format, sessions[..|sessions| - 1])
         + [format(sessions[|sessions| - 1], StatusReason, true)]
  }

  /** The line a lifecycle notification prints: identity mode, with the
      reason's name. */
  function EventLine(format: Format, session: Session, reason: SessionEventReason): string {
    format(session, ReasonName(reason), false)
  }

  /** One step. */
  function Apply(format: Format, st: MonitorState, step: Step): MonitorState {
    match step
    case Poll(now, sessions, doneAt) =>
      if QuietPeriodOver(st.lastEventTime, now)
      then MonitorState(doneAt, st.console + HeartbeatLines(format, sessions))
      else st
    case Event(now, session, reason) =>
      MonitorState(now, st.console + [EventLine(format, session, reason)])
  }

  /** A trace of steps, in the order they happen. */
  function Run(format: Format, st: MonitorState, steps: seq<Step>): MonitorState
    decreases |steps|
  {
    if steps == [] then st else Run(format, Apply(format, st, steps[0]), steps[1..])
  }

  /** The lines a step prints when it is a lifecycle notification. */
  function NotificationLines(format: Format, step: Step): seq<string> {
    match step
    case Event(_, session, reason) => [EventLine(format, session, reason)]
    case Poll(_, _, _) => []
  }

  /** The lines the lifecycle notifications of a trace print. */
  function EventLines(format: Format, steps: seq<Step>): seq<string>
    decreases |steps|
  {
    if steps == [] then [] else NotificationLines(format, steps[0]) + EventLines(format, steps[1..])
  }

  lemma {:induction false} RunAppend(format: Format, st: MonitorState, a: seq<Step>, b: seq<Step>)
    ensures Run(format, st, a + b) == Run(format, Run(format, st, a), b)
    decreases |a|
  {
    if a == [] {
      assert a + b == b;
    } else {
      assert (a + b)[0] == a[0] && (a + b)[1..] == a[1..] + b;
      RunAppend(format, Apply(format, st, a[0]), a[1..], b);
    }
  }

  /** The console only grows: no step takes back a line. */
  lemma {:induction false} RunExtendsConsole(format: Format, st: MonitorState, steps: seq<Step>)
    ensures st.console <= Run(format, st, steps).console
    decreases |steps|
  {
    if steps != [] {
      RunExtendsConsole(format, Apply(format, st, steps[0]), steps[1..]);
    }
  }

  /** A step within the quiet period that starts at `t`: a poll at most
      6000 ms after `t`, or a notification no earlier than `t` (the clock
      does not go back). */
  predicate StepWithinQuietPeriod(step: Step, t: int) {
    match step
    case Poll(now, _, _) => now - t <= QuietPeriodMillis
    case Event(now, _, _) => now >= t
  }

  predicate WithinQuietPeriod(steps: seq<Step>, t: int)
    decreases |steps|
  {
    steps == [] || (StepWithinQuietPeriod(steps[0], t) && WithinQuietPeriod(steps[1..], t))
  }

  /** One step within the quiet period prints only if it is a
      notification, and leaves the timestamp at `t` or later. */
  lemma QuietStep(format: Format, st: MonitorState, step: Step, t: int)
    requires st.lastEventTime >= t && StepWithinQuietPeriod(step, t)
    ensures Apply(format, st, step).console == st.console + NotificationLines(format, step)
    ensures Apply(format, st, step).lastEventTime >= t
  {
  }

  /** A trace within the quiet period after `t` never produces a heartbeat
      report once the timestamp is at `t` or later: the console gets
      exactly the lines of the notifications. */
  lemma {:induction false} QuietPeriodSuppresses(format: Format, st: MonitorState, steps: seq<Step>, t: int)
    requires st.lastEventTime >= t
    requires WithinQuietPeriod(steps, t)
    ensures Run(format, st, steps).console == st.console + EventLines(format, steps)
    ensures Run(format, st, steps).lastEventTime >= t
    decreases |steps|
  {
    if steps == [] {
      assert st.console + [] == st.console;
    } else {
      var next := Apply(format, st, steps[0]);
      QuietStep(format, st, steps[0], t);
      QuietPeriodSuppresses(format, next, steps[1..], t);
      assert st.console + NotificationLines(format, steps[0]) + EventLines(format, steps[1..])
        == st.console + (NotificationLines(format, steps[0]) + EventLines(format, steps[1..]));
    }
  }

  /** After a lifecycle notification at `t`, no poll up to `t + 6000` ms
      reports, as long as the clock does not go back before `t`. */
  lemma NoHeartbeatWithinQuietPeriod(format: Format, st: MonitorState, t: int, session: Session,
                                     reason: SessionEventReason, rest: seq<Step>)
    requires WithinQuietPeriod(rest, t)
    ensures Run(format, st, [Event(t, session, reason)] + rest).console
      == st.console + [EventLine(format, session, reason)] + EventLines(format, rest)
  {
    var steps := [Event(t, session, reason)] + rest;
    assert steps[0] == Event(t, session, reason) && steps[1..] == rest;
    QuietPeriodSuppresses(format, Apply(format, st, steps[0]), rest, t);
  }

  /** After a lifecycle notification at `t` followed only by polls within
      the quiet period, the first poll later than `t + 6000` ms reports
      every live session and moves the timestamp to its second clock
      reading. */
  lemma HeartbeatAfterQuietPeriod(format: Format, st: MonitorState, t: int, session: Session,
                                  reason: SessionEventReason, polls: seq<Step>,
                                  now: int, sessions: seq<Session>, doneAt: int)
    requires forall i :: 0 <= i < |polls| ==> polls[i].Poll? && polls[i].now - t <= QuietPeriodMillis
    requires now - t > QuietPeriodMillis
    ensures Run(format, st, [Event(t, session, reason)] + polls + [Poll(now, sessions, doneAt)])
      == MonitorState(doneAt, st.console + [EventLine(format, session, reason)] + HeartbeatLines(format, sessions))
  {
    var first := [Event(t, session, reason)] + polls;
    var afterEvent := Apply(format, st, Event(t, session, reason));
    assert first[0] == Event(t, session, reason) && first[1..] == polls;
    PollsKeepTimestamp(format, afterEvent, polls);
    var mid := Run(format, st, first);
    assert mid == MonitorState(t, st.console + [EventLine(format, session, reason)]);
    RunAppend(format, st, first, [Poll(now, sessions, doneAt)]);
    assert Run(format, mid, [Poll(now, sessions, doneAt)]) == Apply(format, mid, Poll(now, sessions, doneAt));
  }

  /** The timestamp starts at the origin of the clock, so the first poll
      made later than 6000 ms after it (every real clock reading) reports
      every live session. */
  lemma FirstPollReports(format: Format, now: int, sessions: seq<Session>, doneAt: int)
    requires now - MinTime > QuietPeriodMillis
    ensures Apply(format, Initial, Poll(now, sessions, doneAt))
      == MonitorState(doneAt, HeartbeatLines(format, sessions))
  {
  }

  /** Polls that find the quiet period running change nothing. */
  lemma {:induction false} PollsKeepTimestamp(format: Format, st: MonitorState, polls: seq<Step>)
    requires forall i :: 0 <= i < |polls| ==> polls[i].Poll? && !QuietPeriodOver(st.lastEventTime, polls[i].now)
    ensures Run(format, st, polls) == st
    decreases |polls|
  {
    if polls != [] {
      assert Apply(format, st, polls[0]) == st;
      PollsKeepTimestamp(format, st, polls[1..]);
    }
  }

  /** The static state of the program: the timestamp of the last report or
      lifecycle event, and the console the reports go to. */
  class StatusMonitor {
    var lastEventTime: int
    var console: seq<string>

    function State(): MonitorState
      reads this
    {
      MonitorState(lastEventTime, console)
    }

    constructor ()
      ensures State() == Initial
    {
      lastEventTime := MinTime;
      console := [];
    }

    /** `PrintSessionStatus`: one status line onto the console. */
    method PrintSessionStatus(session: Session, reason: string, lastContact: bool)
      modifies this
      ensures lastEventTime == old(lastEventTime)
      ensures console == old(console) + [FormatStatus(session, reason, lastContact)]
    {
      var line := BuildStatusLine(session, reason, lastContact);
      console := console + [line];
    }

    /** One pass of the heartbeat loop. */
    method StatusTick(now: int, sessions: seq<Session>, doneAt: int) returns (reported: bool)
      modifies this
      ensures reported == QuietPeriodOver(old(lastEventTime), now)
      ensures State() == Apply(FormatStatus, old(State()), Poll(now, sessions, doneAt))
    {
      reported := now - lastEventTime > QuietPeriodMillis;
      if reported {
        for ii := 0 to |sessions|
          invariant lastEventTime == old(lastEventTime)
          invariant console == old(console) + HeartbeatLines(FormatStatus, sessions[..ii])
        {
          PrintSessionStatus(sessions[ii], StatusReason, true);
          assert sessions[..ii + 1][..ii] == sessions[..ii];
        }
        assert sessions[..|sessions|] == sessions;
        lastEventTime := doneAt;
      }
    }

    /** `EventStatus`: restart the quiet period and report the session. */
    method EventStatus(now: int, session: Session, reason: SessionEventReason)
      modifies this
      ensures State() == Apply(FormatStatus, old(State()), Event(now, session, reason))
    {
      lastEventTime := now;
      PrintSessionStatus(session, ReasonName(reason), false);
    }
  }
}
