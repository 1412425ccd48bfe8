/**
 The status line the mock server prints for a session (`PrintSessionStatus`
 in OPCUAMock/Program.cs). The line starts with the reason right-aligned
 in 9 columns and the session name right-aligned in 20, each followed by a
 colon. In last-contact mode (heartbeat reports) it goes on with
 `Last Event:HH:mm:ss`; otherwise (lifecycle events) with the identity's
 display name in 20 columns when the session has an identity, and always
 with a colon and the session id.

 `ParseStatusLine` reads such a line back; the round trip
 `ParseFormatStatus` shows that the format keeps every field recoverable.
 */
module StatusLine {
  import opened Text

  datatype Option<T> = None | Some(value: T)

  /** What the reporter reads of a session under its diagnostics lock.
      `lastContactLocal` is the client's last contact on the local wall
      clock, in milliseconds since the default `DateTime` (a local
      midnight), so that its remainder modulo a day is the time of day;
      `identity` is the display name of the
      connected user identity, when there is one. */
  datatype Session = Session(
    id: string,
    name: string,
    lastContactLocal: nat,
    identity: Option<string>)

  const ReasonWidth: nat := 9
  const NameWidth: nat := 20
  const IdentityWidth: nat := 20
  const LastEventLabel: string := "Last Event"
  const MillisPerSecond: nat := 1000
  const SecondsPerDay: nat := 86400

  /** `{0,9}:{1,20}:` */
  function Prefix(reason: string, name: string): string
  {
    AlignRight(reason, ReasonWidth) + ":" + AlignRight(name, NameWidth) + ":"
  }

  /** Whole seconds since local midnight; the `HH:mm:ss` format drops the
      fraction of a second and the date. */
  function SecondOfDay(localMillis: nat): (r: nat)
    ensures r < SecondsPerDay
  {
    (localMillis / MillisPerSecond) % SecondsPerDay
  }

  /** `{0:HH:mm:ss}` of a local time. */
  function ClockText(localMillis: nat): (r: string)
    ensures |r| == 8 && r[2] == ':' && r[5] == ':'
  {
    var s := SecondOfDay(localMillis);
    TwoDigits(s / 3600) + ":" + TwoDigits(s / 60 % 60) + ":" + TwoDigits(s % 60)
  }

  /** The part after the prefix when the line is not in last-contact mode. */
  function IdentityTail(session: Session): string {
    (match session.identity
     case Some(displayName) => ":" + AlignRight(displayName, IdentityWidth)
     case None => "")
    + ":" + session.id
  }

  /** The line `PrintSessionStatus(session, reason, lastContact)` writes. */
  function FormatStatus(session: Session, reason: string, lastContact: bool): string {
    Prefix(reason, session.name)
    + if lastContact then LastEventLabel + ":" + ClockText(session.lastContactLocal)
      else IdentityTail(session)
  }

  /** The prefix holds the reason in a field of at least 9 columns and the
      name in one of at least 20, each followed by a colon. */
  lemma PrefixLayout(reason: string, name: string)
    ensures var p := Prefix(reason, name);
      var w := Max(|reason|, ReasonWidth);
      |p| == w + Max(|name|, NameWidth) + 2
      && p[..w] == AlignRight(reason, ReasonWidth) && p[w] == ':'
      && p[w + 1..|p| - 1] == AlignRight(name, NameWidth) && p[|p| - 1] == ':'
  {
  }

  /** A status line is its prefix followed, in last-contact mode, by the 19
      characters `Last Event:HH:mm:ss`, and otherwise by text that ends with
      a colon and the session id and is nothing more when the session has
      no identity. */
  lemma FormatStatusLayout(session: Session, reason: string, lastContact: bool)
    ensures var line := FormatStatus(session, reason, lastContact);
      var p := |Prefix(reason, session.name)|;
      |line| >= p && line[..p] == Prefix(reason, session.name)
      && (lastContact ==> |line| == p + 19 && line[p..p + 11] == LastEventLabel + ":")
      && (!lastContact ==>
            |line| >= p + |session.id| + 1
            && line[|line| - |session.id| - 1..] == ":" + session.id
            && (session.identity.None? ==> |line| == p + |session.id| + 1))
  {
  }

  /** The line built as `PrintSessionStatus` builds it, one `AppendFormat`
      after another. */
  method BuildStatusLine(session: Session, reason: string, lastContact: bool) returns (line: string)
    ensures line == FormatStatus(session, reason, lastContact)
  {
    var prefix := AlignRight(reason, ReasonWidth) + ":" + AlignRight(session.name, NameWidth) + ":";
    line := prefix;
    if lastContact {
      var clock := ClockText(session.lastContactLocal);
      line := line + LastEventLabel + ":" + clock;
      assert line == prefix + (LastEventLabel + ":" + clock);
    } else {
      var identityField := "";
      if session.identity.Some? {
        identityField := ":" + AlignRight(session.identity.value, IdentityWidth);
        line := line + identityField;
      }
      line := line + ":" + session.id;
      assert identityField + ":" + session.id == IdentityTail(session);
      assert line == prefix + (identityField + ":" + session.id);
    }
  }

  /** The fields of a status line, as read back. */
  datatype Report =
    | LastContactReport(reason: string, name: string, secondOfDay: int)
    | IdentityReport(reason: string, name: string, identity: Option<string>, id: string)

  function TwoDigitValue(field: string): int
    requires |field| == 2
  {
    DigitValue(field[0]) * 10 + DigitValue(field[1])
  }

  /** The seconds since midnight that `HH`, `mm` and `ss` fields denote. */
  function ClockSeconds(hh: string, mm: string, ss: string): int
    requires |hh| == 2 && |mm| == 2 && |ss| == 2
  {
    TwoDigitValue(hh) * 3600 + TwoDigitValue(mm) * 60 + TwoDigitValue(ss)
  }

  /** Reads a status line back into its fields; `None` for text of
      another shape. */
  function ParseStatusLine(line: string): Option<Report> {
    ParseFields(Split(line, ':'))
  }

  function ParseFields(f: seq<string>): Option<Report> {
    if |f| == 6 && f[2] == LastEventLabel && |f[3]| == 2 && |f[4]| == 2 && |f[5]| == 2 then
      Some(LastContactReport(TrimStart(f[0]), TrimStart(f[1]),
        ClockSeconds(f[3], f[4], f[5])))
    else if |f| == 5 && f[2] == [] then
      Some(IdentityReport(TrimStart(f[0]), TrimStart(f[1]), Some(TrimStart(f[3])), f[4]))
    else if |f| == 4 && f[2] == [] then
      Some(IdentityReport(TrimStart(f[0]), TrimStart(f[1]), None, f[3]))
    else None
  }

  /** A value that survives the format unchanged: no colon, which separates
      the fields, and no leading blank, which the padding would swallow. */
  predicate Plain(s: string) {
    Avoids(s, ':') && (s == [] || s[0] != ' ')
  }

  lemma SplitClockText(localMillis: nat)
    ensures var s := SecondOfDay(localMillis);
      Split(ClockText(localMillis), ':')
        == [TwoDigits(s / 3600), TwoDigits(s / 60 % 60), TwoDigits(s % 60)]
  {
    var s := SecondOfDay(localMillis);
    var hh, mm, ss := TwoDigits(s / 3600), TwoDigits(s / 60 % 60), TwoDigits(s % 60);
    assert ClockText(localMillis) == hh + [':'] + (mm + [':'] + ss);
    SplitField(hh, mm + [':'] + ss, ':');
    SplitField(mm, ss, ':');
    SplitWhole(ss, ':');
  }

  lemma ClockDigits(s: nat)
    requires s < SecondsPerDay
    ensures ClockSeconds(TwoDigits(s / 3600), TwoDigits(s / 60 % 60), TwoDigits(s % 60)) == s
  {
  }

  /** The time of day reads back from its text: three two-digit fields,
      hours below 24 and minutes and seconds below 60, that denote the
      seconds since midnight. */
  lemma ParseClockText(localMillis: nat)
    ensures var f := Split(ClockText(localMillis), ':');
      |f| == 3 && |f[0]| == 2 && |f[1]| == 2 && |f[2]| == 2
      && IsDigit(f[0][0]) && IsDigit(f[0][1]) && IsDigit(f[1][0]) && IsDigit(f[1][1])
      && IsDigit(f[2][0]) && IsDigit(f[2][1])
      && TwoDigitValue(f[0]) < 24 && TwoDigitValue(f[1]) < 60 && TwoDigitValue(f[2]) < 60
      && ClockSeconds(f[0], f[1], f[2]) == SecondOfDay(localMillis)
  {
    SplitClockText(localMillis);
    ClockDigits(SecondOfDay(localMillis));
  }

  lemma SplitPrefix(reason: string, name: string, tail: string)
    requires Avoids(reason, ':') && Avoids(name, ':')
    ensures Split(Prefix(reason, name) + tail, ':')
      == [AlignRight(reason, ReasonWidth), AlignRight(name, NameWidth)] + Split(tail, ':')
  {
    var a := AlignRight(reason, ReasonWidth);
    var b := AlignRight(name, NameWidth);
    AlignRightAvoids(reason, ReasonWidth, ':');
    AlignRightAvoids(name, NameWidth, ':');
    assert Prefix(reason, name) + tail == a + [':'] + (b + [':'] + tail);
    SplitField(a, b + [':'] + tail, ':');
    SplitField(b, tail, ':');
  }

  lemma SplitLastContactTail(localMillis: nat)
    ensures Split(LastEventLabel + ":" + ClockText(localMillis), ':')
      == [LastEventLabel] + Split(ClockText(localMillis), ':')
  {
    SplitField(LastEventLabel, ClockText(localMillis), ':');
  }

  lemma SplitIdentityTail(session: Session)
    requires Avoids(session.id, ':')
    requires session.identity.Some? ==> Avoids(session.identity.value, ':')
    ensures Split(IdentityTail(session), ':') ==
      match session.identity
      case Some(displayName) => [[], AlignRight(displayName, IdentityWidth), session.id]
      case None => [[], session.id]
  {
    var tail := IdentityTail(session);
    SplitWhole(session.id, ':');
    match session.identity
    case Some(displayName) =>
      var d := AlignRight(displayName, IdentityWidth);
      AlignRightAvoids(displayName, IdentityWidth, ':');
      assert tail == [] + [':'] + (d + [':'] + session.id);
      SplitField([], d + [':'] + session.id, ':');
      SplitField(d, session.id, ':');
    case None =>
      assert tail == [] + [':'] + session.id;
      SplitField([], session.id, ':');
  }

  lemma ParseLastContactLine(reason: string, name: string, localMillis: nat)
    requires Plain(reason) && Plain(name)
    ensures ParseStatusLine(Prefix(reason, name) + (LastEventLabel + ":" + ClockText(localMillis))) ==
      Some(LastContactReport(reason, name, SecondOfDay(localMillis)))
  {
    var tail := LastEventLabel + ":" + ClockText(localMillis);
    var c := Split(ClockText(localMillis), ':');
    var f := [AlignRight(reason, ReasonWidth), AlignRight(name, NameWidth)] + ([LastEventLabel] + c);
    assert Split(Prefix(reason, name) + tail, ':') == f by {
      SplitPrefix(reason, name, tail);
      SplitLastContactTail(localMillis);
    }
    ParseClockText(localMillis);
    TrimAlignRight(reason, ReasonWidth);
    TrimAlignRight(name, NameWidth);
    assert f[2] == LastEventLabel && f[3..] == c;
  }

  lemma ParseIdentityLine(reason: string, session: Session)
    requires Plain(reason) && Plain(session.name) && Avoids(session.id, ':')
    requires session.identity.Some? ==> Plain(session.identity.value)
    ensures ParseStatusLine(Prefix(reason, session.name) + IdentityTail(session)) ==
      Some(IdentityReport(reason, session.name, session.identity, session.id))
  {
    var tail := IdentityTail(session);
    var f := [AlignRight(reason, ReasonWidth), AlignRight(session.name, NameWidth)] + Split(tail, ':');
    assert Split(Prefix(reason, session.name) + tail, ':') == f by {
      SplitPrefix(reason, session.name, tail);
    }
    SplitIdentityTail(session);
    TrimAlignRight(reason, ReasonWidth);
    TrimAlignRight(session.name, NameWidth);
    if session.identity.Some? {
      TrimAlignRight(session.identity.value, IdentityWidth);
    }
  }

  /** Every status line reads back as the reason, the session name and
      either the local time of day of the last contact or the identity and
      the id the session had, provided those values are `Plain` (the id
      only needs to be free of colons). */
  lemma ParseFormatStatus(session: Session, reason: string, lastContact: bool)
    requires Plain(reason) && Plain(session.name)
    requires !lastContact ==> Avoids(session.id, ':')
    requires !lastContact && session.identity.Some? ==> Plain(session.identity.value)
    ensures ParseStatusLine(FormatStatus(session, reason, lastContact)) ==
      if lastContact then
        Some(LastContactReport(reason, session.name, SecondOfDay(session.lastContactLocal)))
      else
        Some(IdentityReport(reason, session.name, session.identity, session.id))
  {
    if lastContact {
      ParseLastContactLine(reason, session.name, session.lastContactLocal);
    } else {
      ParseIdentityLine(reason, session);
    }
  }
}
