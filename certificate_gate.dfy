/**
 The certificate trust decision of the mock server
 (`CertificateValidator_CertificateValidation` in OPCUAMock/Program.cs).
 The server library calls it for a client certificate that failed its own
 validation, handing over the validation error and an `Accept` flag to set.
 The handler accepts only a certificate whose validation error is
 `BadCertificateUntrusted`, and only when auto-accept is on; it writes one trace line for
 every call and the same line to the console unless console logging is on.
 */
module CertificateGate {

  /** The status code of the validation error. The handler singles out
      `BadCertificateUntrusted`; every other code, carried by its number,
      is treated alike. `OtherStatus` never carries the number of
      `BadCertificateUntrusted` (0x801A0000): that code is always written
      as `BadCertificateUntrusted`. */
  datatype StatusCode = BadCertificateUntrusted | OtherStatus(code: nat)

  /** The validation error: its status code and the text it prints as. */
  datatype ValidationError = ValidationError(status: StatusCode, text: string)

  /** The event arguments: the certificate's subject, the error and the
      `Accept` flag as the handler finds it. */
  datatype ValidationEvent = ValidationEvent(subject: string, error: ValidationError, accept: bool)

  /** What a call leaves behind: the `Accept` flag afterwards, the lines
      written to the console and the lines written to the security trace. */
  datatype Outcome = Outcome(accept: bool, console: seq<string>, trace: seq<string>)

  const AcceptedLabel: string := "Accepted Certificate: "
  const RejectedLabel: string := "Rejected Certificate: "

  /** The policy: auto-accept overrides an untrusted certificate and
      nothing else. */
  predicate Trusts(status: StatusCode, autoAccept: bool) {
    status == BadCertificateUntrusted && autoAccept
  }

  function AcceptedLine(subject: string): string {
    AcceptedLabel + subject
  }

  function RejectedLine(error: ValidationError, subject: string): string {
    RejectedLabel + error.text + " " + subject
  }

  /** One call of the handler with the switches `AutoAccept` and
      `LogConsole` as given. */
  function Validate(e: ValidationEvent, autoAccept: bool, logConsole: bool): (out: Outcome)
    ensures out.accept == (e.accept || Trusts(e.error.status, autoAccept))
    ensures |out.trace| == 1
    ensures out.trace[0] ==
      if Trusts(e.error.status, autoAccept) then AcceptedLine(e.subject)
      else RejectedLine(e.error, e.subject)
    ensures out.console == if logConsole then [] else out.trace
  {
    if e.error.status == BadCertificateUntrusted && autoAccept then
      var line := AcceptedLine(e.subject);
      Outcome(true, if !logConsole then [line] else [], [line])
    else
      var line := RejectedLine(e.error, e.subject);
      Outcome(e.accept, if !logConsole then [line] else [], [line])
  }

  /** The decision can be read off the single trace line: it begins with
      the accept label exactly when the certificate was trusted, and the
      subject ends the line either way. */
  lemma TraceLineTellsDecision(e: ValidationEvent, autoAccept: bool, logConsole: bool)
    ensures var line := Validate(e, autoAccept, logConsole).trace[0];
      |AcceptedLabel| <= |line|
      && (line[..|AcceptedLabel|] == AcceptedLabel <==> Trusts(e.error.status, autoAccept))
      && |e.subject| <= |line| && line[|line| - |e.subject|..] == e.subject
  {
  }
}
