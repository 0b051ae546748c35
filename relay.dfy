/**
 * The GPIO relay of gpio/relay.go. The relay is active-low: writing Low to
 * the pin switches the printer on, High switches it off. The relay does not
 * read the pin back; it remembers the last level it wrote successfully.
 * Whether a pin write succeeds is decided by the hardware, so every writing
 * method takes that outcome as a parameter.
 */
module Gpio {
  import opened Wrappers

  datatype Level = Low | High

  datatype RelayError = TurnOnFailed | TurnOffFailed

  class Relay {
    /** The level most recently written with success. */
    var lastState: Level
    /** Every level written to the pin, in order, whether or not the write succeeded. */
    ghost var writes: seq<Level>

    /** NewRelay after host and pin lookup: nothing written yet, the relay reads as off. */
    constructor ()
      ensures lastState == High && writes == []
      ensures !GetState()
    {
      lastState := High;
      writes := [];
    }

    /** On exactly when the last successful write was Low. */
    function GetState(): (on: bool)
      reads this
      ensures on <==> lastState == Low
      ensures !on <==> lastState == High
    {
      lastState == Low
    }

    /** Writes Low; the remembered state becomes on only if the write succeeded. */
    method TurnOn(pinOk: bool) returns (err: Option<RelayError>)
      modifies this
      ensures writes == old(writes) + [Low]
      ensures err == if pinOk then None else Some(TurnOnFailed)
      ensures lastState == if pinOk then Low else old(lastState)
      ensures pinOk ==> GetState()
    {
      writes := writes + [Low];
      if !pinOk {
        return Some(TurnOnFailed);
      }
      lastState := Low;
      return None;
    }

    /** Writes High; the remembered state becomes off only if the write succeeded. */
    method TurnOff(pinOk: bool) returns (err: Option<RelayError>)
      modifies this
      ensures writes == old(writes) + [High]
      ensures err == if pinOk then None else Some(TurnOffFailed)
      ensures lastState == if pinOk then High else old(lastState)
      ensures pinOk ==> !GetState()
    {
      writes := writes + [High];
      if !pinOk {
        return Some(TurnOffFailed);
      }
      lastState := High;
      return None;
    }

    /** Turns off when on and on when off; a successful toggle negates the state. */
    method Toggle(pinOk: bool) returns (err: Option<RelayError>)
      modifies this
      ensures writes == old(writes) + [if old(lastState) == Low then High else Low]
      ensures err.None? <==> pinOk
      ensures pinOk ==> GetState() == !old(GetState())
      ensures !pinOk ==> lastState == old(lastState)
    {
      if lastState == Low {
        err := TurnOff(pinOk);
      } else {
        err := TurnOn(pinOk);
      }
    }

    /** Writes High and reports success even when the write fails (the failure is only logged). */
    method Close(pinOk: bool) returns (err: Option<RelayError>)
      modifies this
      ensures writes == old(writes) + [High]
      ensures err == None
      ensures lastState == if pinOk then High else old(lastState)
    {
      var ignored := TurnOff(pinOk);
      return None;
    }
  }
}
