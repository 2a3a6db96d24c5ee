/** The Sensibo client: a baseline snapshot and a working copy of the
    device, the tolerance-aware comparison of SmartMode configurations, and
    the selective push of whatever changed. The remote service is not
    modelled; each remote call's reply is a parameter, and every push the
    client attempts is recorded in a log. */
module Sensibo {
  import opened GoMath
  import opened SensiboTypes

  /** floatEq: two thresholds are the same if they are less than 0.01 apart. */
  function FloatEq(a: real, b: real): (r: bool)
    ensures r <==> a - 0.01 < b < a + 0.01
  {
    Abs(a - b) < 0.01
  }

  /** SmartMode.Equivalent: thresholds compared with FloatEq, the two
      threshold states compared field by field. Enabled, DeviceUID and Type
      take no part. */
  function Equivalent(sm: SmartMode, other: SmartMode): bool
  {
    if !FloatEq(sm.LowTemperatureThreshold, other.LowTemperatureThreshold) then false
    else if !FloatEq(sm.HighTemperatureThreshold, other.HighTemperatureThreshold) then false
    else if sm.HighTemperatureState != other.HighTemperatureState then false
    else if sm.LowTemperatureState != other.LowTemperatureState then false
    else true
  }

  lemma FloatEqReflexiveSymmetric(a: real, b: real)
    ensures FloatEq(a, a)
    ensures FloatEq(a, b) == FloatEq(b, a)
  {
  }

  lemma EquivalentReflexive(sm: SmartMode)
    ensures Equivalent(sm, sm)
  {
  }

  lemma EquivalentSymmetric(sm: SmartMode, other: SmartMode)
    ensures Equivalent(sm, other) == Equivalent(other, sm)
  {
    FloatEqReflexiveSymmetric(sm.LowTemperatureThreshold, other.LowTemperatureThreshold);
    FloatEqReflexiveSymmetric(sm.HighTemperatureThreshold, other.HighTemperatureThreshold);
  }

  /** Two configurations differ exactly when a threshold moved by 0.01 or
      more, or some field of either threshold state differs. */
  lemma EquivalentMeans(sm: SmartMode, other: SmartMode)
    ensures !Equivalent(sm, other) <==>
      || Abs(sm.LowTemperatureThreshold - other.LowTemperatureThreshold) >= 0.01
      || Abs(sm.HighTemperatureThreshold - other.HighTemperatureThreshold) >= 0.01
      || sm.HighTemperatureState.On != other.HighTemperatureState.On
      || sm.HighTemperatureState.FanLevel != other.HighTemperatureState.FanLevel
      || sm.HighTemperatureState.TemperatureUnit != other.HighTemperatureState.TemperatureUnit
      || sm.HighTemperatureState.TargetTemperature != other.HighTemperatureState.TargetTemperature
      || sm.HighTemperatureState.Mode != other.HighTemperatureState.Mode
      || sm.LowTemperatureState.On != other.LowTemperatureState.On
      || sm.LowTemperatureState.FanLevel != other.LowTemperatureState.FanLevel
      || sm.LowTemperatureState.TemperatureUnit != other.LowTemperatureState.TemperatureUnit
      || sm.LowTemperatureState.TargetTemperature != other.LowTemperatureState.TargetTemperature
      || sm.LowTemperatureState.Mode != other.LowTemperatureState.Mode
  {
  }

  /** Changing only Enabled, DeviceUID or Type never makes two
      configurations differ. */
  lemma EquivalentIgnoresFlags(sm: SmartMode, other: SmartMode, enabled: bool, uid: string, kind: string)
    ensures Equivalent(sm.(Enabled := enabled, DeviceUID := uid, Type := kind), other) == Equivalent(sm, other)
    ensures Equivalent(sm, sm.(Enabled := enabled, DeviceUID := uid, Type := kind))
  {
    EquivalentReflexive(sm);
  }

  /** The tolerance makes Equivalent a non-transitive relation: thresholds
      20.0 and 20.006 match, 20.006 and 20.012 match, 20.0 and 20.012 do not. */
  lemma EquivalentNotTransitive()
    ensures exists a, b, c :: Equivalent(a, b) && Equivalent(b, c) && !Equivalent(a, c)
  {
    var sm := ZeroPod.SmartMode;
    var a := sm.(LowTemperatureThreshold := 20.0);
    var b := sm.(LowTemperatureThreshold := 20.006);
    var c := sm.(LowTemperatureThreshold := 20.012);
    assert Equivalent(a, b) && Equivalent(b, c) && !Equivalent(a, c);
  }

  /** One call to the Sensibo API that writes a resource, with its payload. */
  datatype Push = SmartModePush(smartMode: SmartMode) | AcStatePush(acState: AcState)

  /** The pushes PushState attempts for working copy `state` against the
      baseline `orig`: SmartMode first if it is not equivalent, then AcState
      if it differs, unless the SmartMode push failed. */
  function PushPlan(state: Pod, orig: Pod, smartModeReply: Option<Error>): seq<Push>
  {
    var smartModeChanged := !Equivalent(state.SmartMode, orig.SmartMode);
    var first := if smartModeChanged then [SmartModePush(state.SmartMode)] else [];
    if smartModeChanged && smartModeReply.Some? then first
    else if state.AcState != orig.AcState then first + [AcStatePush(state.AcState)]
    else first
  }

  /** The error PushState returns: the first failing push's, if any. */
  function PushResult(state: Pod, orig: Pod, smartModeReply: Option<Error>, acStateReply: Option<Error>): Option<Error>
  {
    if !Equivalent(state.SmartMode, orig.SmartMode) && smartModeReply.Some? then smartModeReply
    else if state.AcState != orig.AcState then acStateReply
    else None
  }

  /** An unchanged working copy causes no push and no error. */
  lemma NoChangeNoPush(pod: Pod, smartModeReply: Option<Error>, acStateReply: Option<Error>)
    ensures PushPlan(pod, pod, smartModeReply) == []
    ensures PushResult(pod, pod, smartModeReply, acStateReply) == None
  {
    EquivalentReflexive(pod.SmartMode);
  }

  /** Which resources are pushed: SmartMode iff it is not equivalent to the
      baseline; AcState iff it differs from the baseline and no SmartMode
      push failed before it. Each payload is the working copy's. */
  lemma PushPlanContents(state: Pod, orig: Pod, smartModeReply: Option<Error>)
    ensures SmartModePush(state.SmartMode) in PushPlan(state, orig, smartModeReply)
            <==> !Equivalent(state.SmartMode, orig.SmartMode)
    ensures AcStatePush(state.AcState) in PushPlan(state, orig, smartModeReply)
            <==> state.AcState != orig.AcState
                 && (Equivalent(state.SmartMode, orig.SmartMode) || smartModeReply.None?)
    ensures forall p | p in PushPlan(state, orig, smartModeReply) ::
              p == SmartModePush(state.SmartMode) || p == AcStatePush(state.AcState)
  {
  }

  /** At most one push per resource, and SmartMode always goes first. */
  lemma PushOrder(state: Pod, orig: Pod, smartModeReply: Option<Error>)
    ensures var plan := PushPlan(state, orig, smartModeReply);
            |plan| <= 2 && (|plan| == 2 ==> plan[0].SmartModePush? && plan[1].AcStatePush?)
  {
  }

  /** A failed SmartMode push is returned and stops the sync: AcState is
      never attempted after it. */
  lemma FailedSmartModeStops(state: Pod, orig: Pod, smartModeReply: Option<Error>, acStateReply: Option<Error>)
    requires !Equivalent(state.SmartMode, orig.SmartMode) && smartModeReply.Some?
    ensures PushResult(state, orig, smartModeReply, acStateReply) == smartModeReply
    ensures PushPlan(state, orig, smartModeReply) == [SmartModePush(state.SmartMode)]
  {
  }

  /** A sync that reports no error pushed every resource that changed, and
      every push it made succeeded. */
  lemma SuccessMeansSynced(state: Pod, orig: Pod, smartModeReply: Option<Error>, acStateReply: Option<Error>)
    requires PushResult(state, orig, smartModeReply, acStateReply) == None
    ensures !Equivalent(state.SmartMode, orig.SmartMode) ==>
              smartModeReply == None && SmartModePush(state.SmartMode) in PushPlan(state, orig, smartModeReply)
    ensures state.AcState != orig.AcState ==>
              acStateReply == None && AcStatePush(state.AcState) in PushPlan(state, orig, smartModeReply)
  {
  }

  /** The client's two copies of the device, and the log of pushes made.
      Transport, base URL and API key are not modelled. */
  class Client {
    /** The working copy the policy edits. */
    var State: Pod
    /** The baseline captured at load time, only ever read by PushState. */
    var origState: Pod
    /** Every push attempted so far, in order. */
    var pushes: seq<Push>

    /** NewClient: no state is loaded yet, so both copies are Go zero values. */
    constructor ()
      ensures State == ZeroPod && origState == ZeroPod
      ensures pushes == []
    {
      State := ZeroPod;
      origState := ZeroPod;
      pushes := [];
    }

    /** LoadState, given the reply to the pod-list request. On success both
        copies become the first pod (the API's pod list must not be empty:
        the Go code indexes it unchecked); on failure nothing changes. */
    method LoadState(reply: Result<seq<Pod>>) returns (err: Option<Error>)
      requires reply.Success? ==> |reply.value| > 0
      modifies this`State, this`origState
      ensures reply.Success? ==> err == None && State == origState == reply.value[0]
      ensures reply.Failure? ==> err == Some(reply.error) && State == old(State) && origState == old(origState)
    {
      match reply
      case Failure(e) =>
        err := Some(e);
      case Success(pods) =>
        State := pods[0];
        origState := pods[0];
        err := None;
    }

    /** updateSmartMode: sends the working copy's SmartMode; `reply` is the
        service's answer. */
    method UpdateSmartMode(reply: Option<Error>) returns (err: Option<Error>)
      modifies this`pushes
      ensures pushes == old(pushes) + [SmartModePush(State.SmartMode)]
      ensures err == reply
    {
      pushes := pushes + [SmartModePush(State.SmartMode)];
      err := reply;
    }

    /** updateAcState: sends the working copy's AcState; `reply` is the
        service's answer. */
    method UpdateAcState(reply: Option<Error>) returns (err: Option<Error>)
      modifies this`pushes
      ensures pushes == old(pushes) + [AcStatePush(State.AcState)]
      ensures err == reply
    {
      pushes := pushes + [AcStatePush(State.AcState)];
      err := reply;
    }

    /** PushState: pushes SmartMode if it is not equivalent to the baseline,
        then AcState if it differs, returning the first error. Neither copy
        changes, so the baseline stays the loaded state. */
    method PushState(smartModeReply: Option<Error>, acStateReply: Option<Error>) returns (err: Option<Error>)
      modifies this`pushes
      ensures State == old(State) && origState == old(origState)
      ensures pushes == old(pushes) + PushPlan(State, origState, smartModeReply)
      ensures err == PushResult(State, origState, smartModeReply, acStateReply)
    {
      if !Equivalent(State.SmartMode, origState.SmartMode) {
        err := UpdateSmartMode(smartModeReply);
        if err.Some? {
          return;
        }
      }
      if State.AcState != origState.AcState {
        err := UpdateAcState(acStateReply);
        if err.Some? {
          return;
        }
      }
      err := None;
    }
  }
}
