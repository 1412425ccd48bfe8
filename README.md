# OPC UA mock server: session monitor and certificate trust gate

A model of the logic in `OPCUAMock/Program.cs`. That file wraps a reference
OPC UA server library. Three pieces of its own logic are modelled:

- **Certificate trust gate** (`CertificateGate`). This is the handler the
  library calls when a client certificate fails validation. It accepts only
  when the error is `BadCertificateUntrusted` and `AutoAccept` is on. Every
  call writes exactly one line to the security trace. The same line goes to
  the console when `LogConsole` is off. `Accept` is set only on the accept
  path. On the reject path the flag keeps whatever value it had.
- **Status line** (`StatusLine`, over the alignment helpers in `Text`). This
  is the line `PrintSessionStatus` builds with `{0,9}:{1,20}:`. In
  last-contact mode it continues with `Last Event:HH:mm:ss`. Otherwise it
  continues with `:{identity,20}` when the session has an identity, and
  always with `:{id}`. Right alignment pads on the left and never
  truncates. `ParseStatusLine` reads a line back. The round trip shows that
  every field survives.
- **Heartbeat and lifecycle relay** (`Heartbeat`). The program's static
  state is the timestamp `m_lastEventTime` plus the console, held by the
  class `StatusMonitor`:
  - `StatusTick` is one pass of the `StatusThreadAsync` loop. It reports
    every session, in list order, only when strictly more than 6000 ms have
    passed since the timestamp. It then moves the timestamp to a second
    clock reading.
  - `EventStatus` moves the timestamp to now and prints one identity-mode
    line.

  `Apply`/`Run` give the same steps as values, over an interleaved trace
  of polls and notifications. The timing lemmas are proved about them:
  - no heartbeat within 6000 ms of a notification;
  - a report at the first poll after that;
  - polls inside the quiet period change nothing;
  - the console only grows.

Behaviour of the code worth noting:
- The quiet-period test is strict (`> 6000 ms`), so a poll exactly 6000 ms
  after an event stays silent.
- `m_lastEventTime` starts at the default `DateTime`, the earliest instant.
  Clock readings are counted in milliseconds from that instant (`MinTime`),
  so the first poll after start-up reports (`Heartbeat.FirstPollReports`).
- Session enumeration has no exception handler.
- Lifecycle lines carry the enum names `Created`, `Activated` and
  `Closing`.

Abstractions:
- Clock readings are integer milliseconds since the default `DateTime`,
  passed in by the caller. `DateTime` counts 100 ns ticks, so the model
  decides the 6000 ms boundary at whole-millisecond resolution: a gap of
  6000.3 ms reports in the source but cannot be written in the model.
  `StatusTick` takes two readings, `now` and `doneAt`, because the source
  reads `DateTime.UtcNow` once for the test and once for the reset.
- The last-contact time is given already converted to local time, as
  milliseconds since the default `DateTime` on the local clock.
- Console and trace output are sequences of lines.
- .NET prints a null string as empty text. The model's callers pass `""`
  for a null session name or display name.
- Dafny evaluates functions the same way every time, so `Validate` is
  idempotent by construction.

## Model

| member | source | states |
|---|---|---|
| `Text.AlignRight` | OPCUAMock/Program.cs:106 | a field `{0,w}` is exactly max(w, \|s\|) characters wide |
| `Text.AlignRightShape` | OPCUAMock/Program.cs:106 | the aligned field is blanks followed by the whole value: padding on the left, never truncation |
| `Text.TrimAlignRight` | OPCUAMock/Program.cs:115 | removing the leading blanks of an aligned field gives back any value that does not start with a blank, whatever the width |
| `Text.TwoDigits` | OPCUAMock/Program.cs:109 | `HH`/`mm`/`ss` are two decimal digits, zero-padded, whose value is the number formatted |
| `StatusLine.Prefix` | OPCUAMock/Program.cs:106 | defines the `{0,9}:{1,20}:` prefix; its layout is stated by `StatusLine.PrefixLayout` |
| `StatusLine.IdentityTail` | OPCUAMock/Program.cs:111-118 | defines the identity-mode tail, `:{identity,20}` when there is an identity, then `:{id}`; stated by `StatusLine.FormatStatusLayout` and `StatusLine.ParseIdentityLine` |
| `StatusLine.FormatStatus` | OPCUAMock/Program.cs:105-118 | defines the line `PrintSessionStatus` writes; its layout and its round trip are stated by `StatusLine.FormatStatusLayout` and `StatusLine.ParseFormatStatus` |
| `StatusLine.PrefixLayout` | OPCUAMock/Program.cs:106 | the line starts with the reason right-aligned to max(9, \|reason\|), a colon, the name right-aligned to max(20, \|name\|), a colon |
| `StatusLine.SecondOfDay` | OPCUAMock/Program.cs:109 | the time of day shown is below 86400 s: the date and the fraction of a second are dropped |
| `StatusLine.ClockText` | OPCUAMock/Program.cs:109 | `HH:mm:ss` is 8 characters with colons at positions 2 and 5 |
| `StatusLine.ParseClockText` | OPCUAMock/Program.cs:109 | the clock text splits into three fields of two decimal digits, hours below 24 and minutes and seconds below 60, that together denote the local second of the day |
| `StatusLine.FormatStatusLayout` | OPCUAMock/Program.cs:106-118 | a status line is its prefix, then in last-contact mode exactly 19 characters starting `Last Event:`, else text that always ends in `:` + id and is only that without an identity |
| `StatusLine.BuildStatusLine` | OPCUAMock/Program.cs:105-118 | the successive `AppendFormat` calls produce exactly `FormatStatus` |
| `StatusLine.ParseLastContactLine` | OPCUAMock/Program.cs:106-110 | a last-contact line reads back as its reason, name and local second of the day |
| `StatusLine.ParseIdentityLine` | OPCUAMock/Program.cs:111-118 | an identity-mode line reads back as its reason, name, optional identity and id |
| `StatusLine.ParseFormatStatus` | OPCUAMock/Program.cs:101-121 | round trip: parsing any status line gives back every field it was built from, for values free of colons and leading blanks |
| `CertificateGate.Trusts` | OPCUAMock/Program.cs:125-127 | defines the policy: the status is `BadCertificateUntrusted` and `AutoAccept` is on; `CertificateGate.Validate` states that it decides `Accept` |
| `CertificateGate.AcceptedLine` | OPCUAMock/Program.cs:131-133 | defines `Accepted Certificate: {subject}`; `CertificateGate.TraceLineTellsDecision` states its label and subject |
| `CertificateGate.RejectedLine` | OPCUAMock/Program.cs:140-142 | defines `Rejected Certificate: {error} {subject}`; `CertificateGate.TraceLineTellsDecision` states its label and subject |
| `CertificateGate.Validate` | OPCUAMock/Program.cs:123-143 | `Accept` ends true iff it was already true or (status is `BadCertificateUntrusted` and auto-accept is on); on reject it is left as it was; exactly one trace line (accept or reject text); the console gets the same line iff `LogConsole` is off |
| `CertificateGate.TraceLineTellsDecision` | OPCUAMock/Program.cs:131-142 | the trace line starts with `Accepted Certificate: ` iff the certificate was trusted, and ends with the subject either way |
| `Heartbeat.ReasonName` | OPCUAMock/Program.cs:148 | defines `reason.ToString()`: the enum member's name |
| `Heartbeat.Apply` | OPCUAMock/Program.cs:87-96 | defines one poll (the tick body) or one lifecycle notification (lines 147-148) as a state change; `StatusTick` and `EventStatus` are proved equal to it |
| `Heartbeat.Run` | OPCUAMock/Program.cs:85-98 | defines an interleaved trace of polls and notifications, step by step; the timing lemmas below are stated over it |
| `Heartbeat.QuietPeriodOver` | OPCUAMock/Program.cs:87 | defines the strict test `now - m_lastEventTime > 6000 ms`; `StatusTick` states that it decides whether a poll reports |
| `Heartbeat.EventLine` | OPCUAMock/Program.cs:148 | defines the line a notification prints: identity mode with the reason's name; `EventStatus` and `NoHeartbeatWithinQuietPeriod` are stated with it |
| `Heartbeat.FirstPollReports` | OPCUAMock/Program.cs:18 | from the initial timestamp, the default `DateTime`, the first poll more than 6000 ms after it reports every session and moves the timestamp to the second clock reading |
| `Heartbeat.HeartbeatLines` | OPCUAMock/Program.cs:89-94 | one heartbeat line per session, in list order, each `-Status-` in last-contact mode |
| `Heartbeat.QuietStep` | OPCUAMock/Program.cs:87 | one step inside the quiet period prints only if it is a notification, and keeps the timestamp at or after its start |
| `Heartbeat.QuietPeriodSuppresses` | OPCUAMock/Program.cs:85-97 | while every poll is within 6000 ms of `t` and the clock does not go back before `t`, no heartbeat fires: the console gets only the notification lines |
| `Heartbeat.NoHeartbeatWithinQuietPeriod` | OPCUAMock/Program.cs:145-149 | after a lifecycle event at `t`, no poll at or before `t + 6000` reports |
| `Heartbeat.HeartbeatAfterQuietPeriod` | OPCUAMock/Program.cs:87-96 | after an event at `t` and silent polls, the first poll later than `t + 6000` reports every session and resets the timestamp |
| `Heartbeat.PollsKeepTimestamp` | OPCUAMock/Program.cs:87 | polls that find the quiet period still running change neither the timestamp nor the console |
| `Heartbeat.RunAppend` | OPCUAMock/Program.cs:85-98 | running two traces in turn is running their concatenation |
| `Heartbeat.RunExtendsConsole` | OPCUAMock/Program.cs:119 | no step removes console output: the console only grows |
| `Heartbeat.StatusMonitor.constructor` | OPCUAMock/Program.cs:18 | the timestamp starts at the origin of the clock, the default `DateTime`, and the console is empty |
| `Heartbeat.StatusMonitor.PrintSessionStatus` | OPCUAMock/Program.cs:101-121 | appends exactly one line, the formatted status, and leaves the timestamp alone |
| `Heartbeat.StatusMonitor.StatusTick` | OPCUAMock/Program.cs:87-96 | reports iff now − timestamp > 6000; the new state is `Apply` of the poll: every session's line appended in order and the timestamp moved to the second clock reading, or nothing changed |
| `Heartbeat.StatusMonitor.EventStatus` | OPCUAMock/Program.cs:145-149 | the timestamp becomes now and exactly one identity-mode line with the reason's name is appended |

## Left out

- `Main` (OPCUAMock/Program.cs:23-81) is left out: configuration loading, the application-certificate check, Serilog setup, server start, printing endpoints, subscribing the handlers and the idle loop. All of it is I/O or calls into the server library. The trust gate is registered only when the library's own `AutoAcceptUntrustedCertificates` is off (lines 52-55). The model covers the handler itself.
- `AppSettings.Load` (OPCUAMock/Settings/AppSettings.cs) is left out. It only reads a file and deserialises JSON.
- Scheduling is left out: `Task.Run`, `async`, and `Task.Delay(1000)` between polls. The model has single polls, not the 1000 ms pacing. The loop condition `m_server != null` always holds once the server is started, so the loop's end is not modelled.
- Concurrency is left out. The model does not cover the `DiagnosticsLock` around formatting or the unsynchronised sharing of `m_lastEventTime` between the poll task and the event callbacks. Notifications and polls are modelled as one interleaved sequential trace, so a torn or lost update cannot be expressed.
- The clock and time zones are left out. `DateTime.UtcNow` becomes integer parameters and `ToLocalTime()` becomes an input.
- Library types become abstract records and enums: `Session`, `NodeId`, `ServiceResult` and the numeric status codes. A session id is its printed text, and a validation error carries the text it prints as. Only `BadCertificateUntrusted` is distinguished among the status codes.
- `CertificateGate.Validate`: `Utils.Trace` with the security mask writes only when the configured trace mask enables security tracing. The model takes that mask as enabled, so every call produces exactly one trace line. Console lines and trace lines are kept as two separate lists.
- An exception from `GetSessions` or from formatting is not modelled. The source does not catch it.
- `StatusLine.ParseFormatStatus`: the round trip is stated only for values without colons and without leading blanks. For other values the printed line is ambiguous, which is a property of the format.
- `StatusLine.ClockText`: the separator in `HH:mm:ss` is written as `:`. .NET prints the current culture's time separator there, because no format provider is passed and nothing sets a culture. The model assumes a culture whose time separator is `:`.
- `Text.AlignRight`: the field width is counted in Unicode characters. .NET pads to `String.Length`, which counts UTF-16 code units, so a value with characters outside the Basic Multilingual Plane gets fewer blanks in .NET than in the model.
