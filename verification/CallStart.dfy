/**
 * How a call starts, and what happens when it cannot (apps/voice-agent/src/call-start.ts):
 * which plan a caller gets, and which numbers are ever dialed for them. A missing phone
 * number is the empty string.
 */
module CallStart {
  import opened Options
  import opened Dialing
  import PhoneNumbers

  // ---- Numbers to hand a caller to ----

  function HandOffNumber(phone: string, agentLines: seq<string>): Option<string> {
    var number := PhoneNumbers.NormalizeE164(phone);
    if number.None? then None
    else if PhoneNumbers.RefuseToDial(number.value, agentLines).Some? then None
    else number
  }

  /**
   * A number is handed on exactly when it is safe to dial. It is then in normal form, and
   * handing it on once more changes nothing.
   */
  lemma HandOffIsSafe(phone: string, agentLines: seq<string>)
    ensures
      var r := HandOffNumber(phone, agentLines);
      && (r.Some? <==> PhoneNumbers.SafeToDial(phone, agentLines))
      && (r.Some? ==>
            && r == PhoneNumbers.NormalizeE164(phone) && PhoneNumbers.SafeToDial(r.value, agentLines)
            && HandOffNumber(r.value, agentLines) == r)
  {
    PhoneNumbers.NormalFormsAreFixed(phone);
    var number := PhoneNumbers.NormalizeE164(phone);
    if number.Some? {
      PhoneNumbers.DialedExactlyWhenSafe(number.value, agentLines);
      PhoneNumbers.DialedExactlyWhenSafe(phone, agentLines);
      assert PhoneNumbers.NormalizeE164(number.value) == number;
    }
    hide PhoneNumbers.NormalizeE164, PhoneNumbers.IsUsOrCanadaNumber, PhoneNumbers.RefuseToDial;
  }

  // ---- Plans ----

  datatype BlockedReason = FromAgentLine | FromBusinessLine

  datatype FallbackReason = PassedThrough | ConfigUnavailable | StartFailed

  datatype Plan =
    | Agent(callId: string)
    | Fallback(reason: FallbackReason, phone: Option<string>, agentLines: seq<string>)
    | Blocked(why: BlockedReason, logged: Option<string>)

  /** What loading the configuration gave. `fits` says whether this worker can run the config. */
  datatype Load =
    | LoadFailed
    | Passthrough(phone: string, agentLines: seq<string>)
    | Config(fallbackPhone: string, agentLines: seq<string>, fits: bool)

  /** A caller from one of the business's own lines; the agent's own only if it is the number called. */
  function WhyBlocked(callerPhone: string, agentLines: seq<string>, calledNumber: string): Option<BlockedReason> {
    if !PhoneNumbers.IsAgentLine(callerPhone, agentLines) then None
    else if calledNumber != "" && PhoneNumbers.IsAgentLine(callerPhone, [calledNumber]) then Some(FromAgentLine)
    else Some(FromBusinessLine)
  }

  /** The agent calls itself exactly when caller and called number have one normal form. */
  lemma LoopsAreRecognized(callerPhone: string, agentLines: seq<string>, calledNumber: string)
    ensures
      WhyBlocked(callerPhone, agentLines, calledNumber) == Some(FromAgentLine) <==>
      && PhoneNumbers.IsAgentLine(callerPhone, agentLines)
      && calledNumber != "" && PhoneNumbers.NormalizeE164(callerPhone) == PhoneNumbers.NormalizeE164(calledNumber)
  {
    hide PhoneNumbers.NormalizeE164;
    assert [calledNumber][0] == calledNumber;
    if PhoneNumbers.IsAgentLine(callerPhone, [calledNumber]) {
      var i :| 0 <= i < 1 && PhoneNumbers.NormalizeE164([calledNumber][i]) == PhoneNumbers.NormalizeE164(callerPhone);
    }
  }

  function LinesOf(load: Load): seq<string> {
    if load.LoadFailed? then [] else load.agentLines
  }

  function PhoneOf(load: Load): string {
    match load
    case LoadFailed => ""
    case Passthrough(phone, _) => phone
    case Config(phone, _, _) => phone
  }

  /** A planned number is the one that will be dialed. */
  predicate WellPlanned(plan: Plan) {
    plan.Fallback? && plan.phone.Some? ==>
      && PhoneNumbers.SafeToDial(plan.phone.value, plan.agentLines)
      && HandOffNumber(plan.phone.value, plan.agentLines) == plan.phone
  }

  /**
   * Chooses the plan. `startCall` is what opening the call log would give: the call's id, or
   * None when it fails; `starts` counts how often it is opened.
   */
  method PrepareCall(calledNumber: string, load: Load, startCall: Option<string>, callerPhone: string)
    returns (plan: Plan, starts: nat)
    ensures WellPlanned(plan)
    ensures plan.Fallback? ==> plan.agentLines == LinesOf(load)
    ensures plan.Fallback? ==> plan.phone == HandOffNumber(PhoneOf(load), LinesOf(load))
    ensures starts == if load.Config? && load.fits then 1 else 0
    ensures plan.Blocked? <==> WhyBlocked(callerPhone, LinesOf(load), calledNumber).Some?
    ensures plan.Blocked? ==>
              && WhyBlocked(callerPhone, LinesOf(load), calledNumber) == Some(plan.why)
              && plan.logged == if starts == 1 then startCall else None
    ensures plan.Agent? <==>
            starts == 1 && startCall.Some? && !PhoneNumbers.IsAgentLine(callerPhone, load.agentLines)
    ensures plan.Agent? ==> startCall == Some(plan.callId)
    ensures plan.Fallback? ==>
              plan.reason == if load.Passthrough? then PassedThrough
                             else if load.Config? && load.fits then StartFailed else ConfigUnavailable
  {
    hide HandOffNumber, PhoneNumbers.IsAgentLine, PhoneNumbers.SafeToDial;
    starts := 0;
    HandOffIsSafe(PhoneOf(load), LinesOf(load));
    NothingToHandOn();
    match load
    case LoadFailed =>
      plan := Fallback(ConfigUnavailable, None, []);
    case Passthrough(phone, agentLines) =>
      var blocked := WhyBlocked(callerPhone, agentLines, calledNumber);
      if blocked.Some? { return Blocked(blocked.value, None), starts; }
      plan := Fallback(PassedThrough, HandOffNumber(phone, agentLines), agentLines);
    case Config(fallbackPhone, agentLines, fits) =>
      var blocked := WhyBlocked(callerPhone, agentLines, calledNumber);
      if !fits {
        if blocked.Some? { return Blocked(blocked.value, None), starts; }
        return Fallback(ConfigUnavailable, HandOffNumber(fallbackPhone, agentLines), agentLines), starts;
      }
      starts := starts + 1;
      if startCall.Some? {
        if blocked.Some? { return Blocked(blocked.value, startCall), starts; }
        return Agent(startCall.value), starts;
      }
      if blocked.Some? { return Blocked(blocked.value, None), starts; }
      plan := Fallback(StartFailed, HandOffNumber(fallbackPhone, agentLines), agentLines);
  }

  lemma NothingToHandOn()
    ensures HandOffNumber("", []) == None && !PhoneNumbers.IsAgentLine("", [])
    ensures forall phone :: !PhoneNumbers.IsAgentLine(phone, [])
  {
  }

  // ---- Handing the caller over ----

  /** What was done for the caller: the numbers dialed, and how often the room was closed or left. */
  datatype Done = Done(dialed: seq<string>, hangUps: nat, leaves: nat)

  /**
   * `dialer` is what the dialer would answer, None when there is none; a dialer that throws
   * answers NoAnswer.
   */
  method RunFallbackCall(plan: Plan, dialer: Option<DialResult>) returns (handedOff: bool, done: Done)
    requires plan.Fallback?
    ensures forall k :: 0 <= k < |done.dialed| ==> PhoneNumbers.SafeToDial(done.dialed[k], plan.agentLines)
    ensures done.dialed ==
            if plan.phone.None? || dialer.None? || HandOffNumber(plan.phone.value, plan.agentLines).None? then []
            else [HandOffNumber(plan.phone.value, plan.agentLines).value]
    ensures WellPlanned(plan) && plan.phone.Some? && dialer.Some? ==> done.dialed == [plan.phone.value]
    ensures handedOff <==> done.dialed != [] && dialer.value != NoAnswer
    ensures done.hangUps == if handedOff then 0 else 1
    ensures done.leaves == if done.dialed != [] && dialer.value == Answered then 1 else 0
  {
    hide PhoneNumbers.SafeToDial, HandOffNumber;
    done := Done([], 0, 0);
    var phone := if plan.phone.Some? then HandOffNumber(plan.phone.value, plan.agentLines) else None;
    if phone.Some? && dialer.Some? {
      HandOffIsSafe(plan.phone.value, plan.agentLines);
      done := done.(dialed := done.dialed + [phone.value]);
      if dialer.value == Answered { return true, done.(leaves := done.leaves + 1); }
      if dialer.value == Referred { return true, done; }
    }
    return false, done.(hangUps := done.hangUps + 1);
  }

  /** The call log is told what happened before the room is closed. */
  method RecoverFromOutage(phone: string, agentLines: seq<string>, referDialer: Option<DialResult>)
    returns (handedOff: bool, logged: bool, done: Done)
    ensures done.dialed == if referDialer.Some? && HandOffNumber(phone, agentLines).Some?
                           then [HandOffNumber(phone, agentLines).value] else []
    ensures forall k :: 0 <= k < |done.dialed| ==> PhoneNumbers.SafeToDial(done.dialed[k], agentLines)
    ensures handedOff <==> done.dialed != [] && referDialer.value != NoAnswer
    ensures logged == handedOff && done.hangUps == (if handedOff then 0 else 1) && done.leaves == 0
  {
    hide PhoneNumbers.SafeToDial, HandOffNumber;
    done := Done([], 0, 0);
    HandOffIsSafe(phone, agentLines);
    var target := if referDialer.Some? then HandOffNumber(phone, agentLines) else None;
    handedOff := false;
    if target.Some? && referDialer.Some? {
      done := done.(dialed := done.dialed + [target.value]);
      handedOff := referDialer.value != NoAnswer;
    }
    logged := handedOff;
    if !handedOff { done := done.(hangUps := done.hangUps + 1); }
  }

  /** Nothing of this depends on how numbers are written, only on their normal forms. */
  lemma OnlyNormalFormsMatter(phone: string, phone': string, lines: seq<string>, lines': seq<string>)
    requires PhoneNumbers.NormalizeE164(phone) == PhoneNumbers.NormalizeE164(phone')
    requires PhoneNumbers.NormalForms(lines) == PhoneNumbers.NormalForms(lines')
    ensures HandOffNumber(phone, lines) == HandOffNumber(phone', lines')
  {
    hide PhoneNumbers.NormalizeE164, PhoneNumbers.RefuseToDial, PhoneNumbers.NormalForms;
    var number := PhoneNumbers.NormalizeE164(phone);
    if number.Some? { PhoneNumbers.AgentLineByNormalForm(number.value, number.value, lines, lines'); }
  }
}
