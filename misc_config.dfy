/**
 * MiscConfig: the sensor-head settings that are single device registers
 * rather than item lists. The device is a register bank keyed by (device
 * type, device command), reached through a DeviceCommunication object whose
 * set_int16 / set_int32 calls are recorded in a log. The qtec and
 * focus_position setters check their argument before the one register write
 * they make; the getters read a register; autofocus writes one.
 */
module MiscConfig {

  datatype DeviceType = SensorHead | QTecModule

  datatype DeviceCommand = Autofocus | AutofocusResult | SignalLevel | QTecOn | FocusPosition

  type Register = (DeviceType, DeviceCommand)

  /** The integer width of a set_int16 / set_int32 call. */
  datatype Width = Int16 | Int32

  /** The signed range of a width. */
  predicate Fits(w: Width, v: int) {
    match w
    case Int16 => -0x8000 <= v < 0x8000
    case Int32 => -0x8000_0000 <= v < 0x8000_0000
  }

  /** One register write made through the device communication. */
  datatype Access = Set(width: Width, register: Register, value: int)

  /** The exceptions raised by the modelled code. */
  datatype ConfigError =
    | ValueError(message: string)
    | AttributeError(attribute: string)    // the connection was never stored

  datatype Result<T> = Ok(value: T) | Err(error: ConfigError)

  datatype Outcome = Done | Raised(error: ConfigError)

  /** A Python argument as the setters see it: an int or something else. */
  datatype PyValue = PyInt(n: int) | PyFloat(x: real) | PyStr(s: string) | PyNone

  /** The private attribute the constructor leaves unset without init_connection. */
  const CommunicationAttribute: string := "_MiscConfig__communication"

  const NotInteger: string := "Value has to be integer."
  const NotSwitch: string := "Value has to be 0 or 1."
  const OutOfFocusRange: string := "Value has to be between 0 and 1835."

  /** The largest focus position the sensor head accepts. */
  const MaxFocusPosition: int := 1835

  // ---------------------------------------------------------------- the device

  class DeviceCommunication {
    /** The value each register reports. */
    var registers: map<Register, int>
    /** The writes made so far, oldest first. */
    var log: seq<Access>

    /** The device has every register. */
    predicate Valid()
      reads this
    {
      forall t: DeviceType, c: DeviceCommand :: (t, c) in registers
    }

    constructor (registers: map<Register, int>)
      requires forall t: DeviceType, c: DeviceCommand :: (t, c) in registers
      ensures Valid() && this.registers == registers && log == []
    {
      this.registers := registers;
      log := [];
    }

    /** get_int16 / get_int32: what the register holds. */
    function Get(t: DeviceType, c: DeviceCommand): int
      requires Valid()
      reads this
    {
      registers[(t, c)]
    }

    /** set_int16 / set_int32: the register takes the value and the write is logged. */
    method SetInt(w: Width, t: DeviceType, c: DeviceCommand, v: int)
      requires Valid()
      modifies this
      ensures Valid()
      ensures registers == old(registers)[(t, c) := v]
      ensures log == old(log) + [Set(w, (t, c), v)]
    {
      registers := registers[(t, c) := v];
      log := log + [Set(w, (t, c), v)];
    }
  }

  // ---------------------------------------------------------------- argument checks

  /** The qtec setter's check: an int that is 0 or 1. */
  function QtecCheck(val: PyValue): (r: Result<int>)
    ensures r.Ok? <==> val.PyInt? && (val.n == 0 || val.n == 1)
    ensures r.Ok? ==> r.value == val.n && Fits(Int32, r.value)
    ensures !val.PyInt? ==> r == Err(ValueError(NotInteger))
    ensures val.PyInt? && val.n != 0 && val.n != 1 ==> r == Err(ValueError(NotSwitch))
  {
    if !val.PyInt? then Err(ValueError(NotInteger))
    else if val.n != 0 && val.n != 1 then Err(ValueError(NotSwitch))
    else Ok(val.n)
  }

  /** The focus_position setter's check: an int between 0 and 1835. */
  function FocusPositionCheck(val: PyValue): (r: Result<int>)
    ensures r.Ok? <==> val.PyInt? && 0 <= val.n <= MaxFocusPosition
    ensures r.Ok? ==> r.value == val.n && Fits(Int16, r.value)
    ensures !val.PyInt? ==> r == Err(ValueError(NotInteger))
    ensures val.PyInt? && (val.n < 0 || val.n > MaxFocusPosition) ==> r == Err(ValueError(OutOfFocusRange))
  {
    if !val.PyInt? then Err(ValueError(NotInteger))
    else if val.n < 0 || val.n > MaxFocusPosition then Err(ValueError(OutOfFocusRange))
    else Ok(val.n)
  }

  // ---------------------------------------------------------------- the settings

  class MiscConfig {
    /** self.__communication; null when the constructor did not store it. */
    var communication: DeviceCommunication?

    predicate Valid()
      reads this, communication
    {
      communication != null ==> communication.Valid()
    }

    /** Stores the device communication only when init_connection is set. */
    constructor (deviceCommunication: DeviceCommunication, initConnection: bool)
      requires deviceCommunication.Valid()
      ensures Valid()
      ensures communication == if initConnection then deviceCommunication else null
    {
      communication := if initConnection then deviceCommunication else null;
    }

    /** A register read through self.__communication. */
    function Read(t: DeviceType, c: DeviceCommand): (r: Result<int>)
      requires Valid()
      reads this, communication
      ensures r.Err? <==> communication == null
      ensures r.Err? ==> r.error == AttributeError(CommunicationAttribute)
      ensures r.Ok? ==> r.value == communication.registers[(t, c)]
    {
      if communication == null then Err(AttributeError(CommunicationAttribute))
      else Ok(communication.Get(t, c))
    }

    /** af_status: the autofocus result register, 0 while busy and 1 when done. */
    function AfStatus(): (r: Result<int>)
      requires Valid()
      reads this, communication
      ensures r.Err? <==> communication == null
      ensures r.Ok? ==> r.value == communication.registers[(SensorHead, AutofocusResult)]
    {
      Read(SensorHead, AutofocusResult)
    }

    /** signal_level: the signal level register. */
    function SignalLevelValue(): (r: Result<int>)
      requires Valid()
      reads this, communication
      ensures r.Err? <==> communication == null
      ensures r.Ok? ==> r.value == communication.registers[(SensorHead, SignalLevel)]
    {
      Read(SensorHead, SignalLevel)
    }

    /** qtec: the QTec switch register, 1 on and 0 off. */
    function Qtec(): (r: Result<int>)
      requires Valid()
      reads this, communication
      ensures r.Err? <==> communication == null
      ensures r.Ok? ==> r.value == communication.registers[(QTecModule, QTecOn)]
    {
      Read(QTecModule, QTecOn)
    }

    /** focus_position: the focus position register. */
    function FocusPositionValue(): (r: Result<int>)
      requires Valid()
      reads this, communication
      ensures r.Err? <==> communication == null
      ensures r.Ok? ==> r.value == communication.registers[(SensorHead, FocusPosition)]
    {
      Read(SensorHead, FocusPosition)
    }

    /** The one register write a setter or autofocus makes, once its argument
        is accepted: it fails without a stored connection, and otherwise
        changes that register and nothing else. */
    method Write(w: Width, t: DeviceType, c: DeviceCommand, v: int) returns (r: Outcome)
      requires Valid()
      modifies communication
      ensures Valid()
      ensures communication == null ==> r == Raised(AttributeError(CommunicationAttribute))
      ensures communication != null ==>
        && r == Done
        && communication.registers == old(communication.registers)[(t, c) := v]
        && communication.log == old(communication.log) + [Set(w, (t, c), v)]
      ensures r == Done ==> Read(t, c) == Ok(v)
    {
      if communication == null {
        r := Raised(AttributeError(CommunicationAttribute));
      } else {
        communication.SetInt(w, t, c, v);
        r := Done;
      }
    }

    /** autofocus(block=False): asks the sensor head to focus, a single
        int16 write of 1 to the autofocus register. */
    method StartAutofocus() returns (r: Outcome)
      requires Valid()
      modifies communication
      ensures Valid()
      ensures communication == null ==> r == Raised(AttributeError(CommunicationAttribute))
      ensures communication != null ==>
        && r == Done
        && communication.registers == old(communication.registers)[(SensorHead, Autofocus) := 1]
        && communication.log == old(communication.log) + [Set(Int16, (SensorHead, Autofocus), 1)]
    {
      r := Write(Int16, SensorHead, Autofocus, 1);
    }

    /** The qtec setter: a rejected argument raises ValueError before the
        connection is touched; an accepted one is written as int32 to the
        QTec switch register. */
    method SetQtec(val: PyValue) returns (r: Outcome)
      requires Valid()
      modifies communication
      ensures Valid()
      ensures QtecCheck(val).Err? ==>
        r == Raised(QtecCheck(val).error) && (communication != null ==> unchanged(communication))
      ensures QtecCheck(val).Ok? && communication == null ==> r == Raised(AttributeError(CommunicationAttribute))
      ensures QtecCheck(val).Ok? && communication != null ==>
        && r == Done
        && communication.registers == old(communication.registers)[(QTecModule, QTecOn) := val.n]
        && communication.log == old(communication.log) + [Set(Int32, (QTecModule, QTecOn), val.n)]
      ensures r == Done ==> Qtec() == Ok(val.n)
    {
      var check := QtecCheck(val);
      if check.Err? {
        return Raised(check.error);
      }
      r := Write(Int32, QTecModule, QTecOn, check.value);
    }

    /** The focus_position setter: a rejected argument raises ValueError
        before the connection is touched; an accepted one is written as int16
        to the focus position register. */
    method SetFocusPosition(val: PyValue) returns (r: Outcome)
      requires Valid()
      modifies communication
      ensures Valid()
      ensures FocusPositionCheck(val).Err? ==>
        r == Raised(FocusPositionCheck(val).error) && (communication != null ==> unchanged(communication))
      ensures FocusPositionCheck(val).Ok? && communication == null ==>
        r == Raised(AttributeError(CommunicationAttribute))
      ensures FocusPositionCheck(val).Ok? && communication != null ==>
        && r == Done
        && communication.registers == old(communication.registers)[(SensorHead, FocusPosition) := val.n]
        && communication.log == old(communication.log) + [Set(Int16, (SensorHead, FocusPosition), val.n)]
      ensures r == Done ==> FocusPositionValue() == Ok(val.n)
    {
      var check := FocusPositionCheck(val);
      if check.Err? {
        return Raised(check.error);
      }
      r := Write(Int16, SensorHead, FocusPosition, check.value);
    }
  }
}
