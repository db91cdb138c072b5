// The root-package FahChannel: which kind of actuator a channel is, decided
// from its function's FID name or function id, the asBlind/asDimmer/asScene/
// asSwitch guards built on that, and its own data point cache.

module FahChannelRules {
  import opened Wrappers
  import opened JavaLang
  import opened Project

  const FidSwitchingActuator: string := "FID_SwitchingActuator"
  const FidDimmingActuator: string := "FID_DimmingActuator"
  const FidBlindActuator: string := "FID_BlindActuator"
  const FidShutterActuator: string := "FID_ShutterActuator"
  const SceneFunctionId: int := 0x4800

  /** The four views a channel can be taken as. */
  datatype Role = BlindRole | DimmerRole | SceneRole | SwitchRole

  /** The word assertFunction puts in its message. */
  function RoleName(role: Role): string {
    match role
    case BlindRole => "blind"
    case DimmerRole => "dimmer"
    case SceneRole => "scene"
    case SwitchRole => "switch"
  }

  /** Whether a function qualifies for a role: blinds and shutters are blinds, dimmers are also switches. */
  predicate Qualifies(f: FahFunction, role: Role) {
    match role
    case BlindRole => f.fidName == Some(FidBlindActuator) || f.fidName == Some(FidShutterActuator)
    case DimmerRole => f.fidName == Some(FidDimmingActuator)
    case SceneRole => f.functionId == SceneFunctionId
    case SwitchRole => f.fidName == Some(FidSwitchingActuator) || f.fidName == Some(FidDimmingActuator)
  }

  /** Every dimmer is a switch. */
  lemma DimmerIsSwitch(f: FahFunction)
    requires Qualifies(f, DimmerRole)
    ensures Qualifies(f, SwitchRole)
  {
  }

  /** No function is both a blind and a switch. */
  lemma BlindIsNotSwitch(f: FahFunction)
    ensures !(Qualifies(f, BlindRole) && Qualifies(f, SwitchRole))
  {
  }

  /** "Not a <type>: <name> (<fidName>/<functionId>)" */
  function NotAMessage(role: Role, name: Option<string>, f: FahFunction): string {
    "Not a " + RoleName(role) + ": " + NullableText(name) + " (" + NullableText(f.fidName) + "/"
      + IntToString(f.functionId) + ")"
  }

  /** de.hasait.fathome.FahChannel */
  class FahChannel {
    const i: string
    var fahFunction: Option<FahFunction>
    var name: Option<string>
    var dataPointValueByI: map<string, string>

    constructor (i: string)
      ensures this.i == i && fahFunction == None && name == None && dataPointValueByI == map[]
    {
      this.i := i;
      fahFunction := None;
      name := None;
      dataPointValueByI := map[];
    }

    /**
     * isBlind / isDimmer / isScene / isSwitch: a channel without a function
     * throws NullPointerException; otherwise whether its function qualifies.
     */
    function Is(role: Role): (r: Outcome<bool>)
      reads this
      ensures fahFunction.None? <==> r == Throws(NullPointerException)
      ensures fahFunction.Some? ==> r.Ok? && (r.value <==> Qualifies(fahFunction.value, role))
    {
      match fahFunction
      case None => Throws(NullPointerException)
      case Some(f) => Ok(Qualifies(f, role))
    }

    /**
     * asBlind / asDimmer / asScene / asSwitch: the view when the predicate
     * holds, a RuntimeException naming the channel and its function when it
     * does not.
     */
    function As(role: Role): (r: Outcome<Role>)
      reads this
      ensures fahFunction.None? ==> r == Throws(NullPointerException)
      ensures fahFunction.Some? ==> (r.Ok? <==> Qualifies(fahFunction.value, role))
      ensures r.Ok? ==> r.value == role
      ensures fahFunction.Some? && !Qualifies(fahFunction.value, role) ==>
        r == Throws(RuntimeException(NotAMessage(role, name, fahFunction.value)))
    {
      match Is(role)
      case Throws(e) => Throws(e)
      case Ok(holds) =>
        if holds then Ok(role) else Throws(RuntimeException(NotAMessage(role, name, fahFunction.value)))
    }

    /** getDataPointValue */
    function DataPointValue(dataPointI: string): (r: Option<string>)
      reads this
      ensures r.Some? <==> dataPointI in dataPointValueByI
      ensures r.Some? ==> r.value == dataPointValueByI[dataPointI]
    {
      if dataPointI in dataPointValueByI then Some(dataPointValueByI[dataPointI]) else None
    }

    /** setDataPoint: a value is stored, null removes, other data points stay. */
    method SetDataPoint(dataPointI: string, value: Option<string>)
      modifies this`dataPointValueByI
      ensures dataPointValueByI == PutOrRemove(old(dataPointValueByI), dataPointI, value)
      ensures DataPointValue(dataPointI) == value
    {
      dataPointValueByI := PutOrRemove(dataPointValueByI, dataPointI, value);
    }
  }

  /** A channel that can be taken as a dimmer can be taken as a switch. */
  lemma AsDimmerImpliesAsSwitch(c: FahChannel)
    requires c.As(DimmerRole).Ok?
    ensures c.As(SwitchRole) == Ok(SwitchRole)
  {
  }
}
