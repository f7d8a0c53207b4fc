/**
 * Polls and writes interleaved on one shared coordinator. Every entity of a
 * config entry holds the same coordinator object, so the data map is the
 * last word of whichever step last succeeded: a write patches its keys, a
 * poll replaces the whole map, and a failed step changes nothing.
 */
module Scenarios {
  import opened Wrappers
  import opened JsonValue
  import opened Http
  import opened UpdateCoordinator
  import SwitchPlatform
  import NumberPlatform

  /** Two switches on the same key: the later successful write is what both read. */
  method LastWriterWins(a: SwitchPlatform.SunlitSwitch, b: SwitchPlatform.SunlitSwitch,
                        x: bool, y: bool, first: Exchange, second: Exchange)
    requires a.coordinator == b.coordinator && a.key == b.key
    modifies a.coordinator
    ensures WriteResult(second).Pass? ==> forall pi :: a.IsOn(pi) == Some(y) && b.IsOn(pi) == Some(y)
    ensures WriteResult(first).Pass? && WriteResult(second).Fail? ==> forall pi :: a.IsOn(pi) == Some(x)
    ensures WriteResult(first).Fail? && WriteResult(second).Fail? ==> a.coordinator.data == old(a.coordinator.data)
  {
    var _, _ := a.WriteSwitch(x, first);
    var _, _ := b.WriteSwitch(y, second);
  }

  /**
   * A number write followed by a poll: a successful poll overwrites the
   * written value with whatever the device reported, a failed one keeps it.
   */
  method WriteThenPoll(n: NumberPlatform.SunlitNumber, value: real, write: Exchange, poll: Exchange, now: Time)
    requires n.Valid()
    modifies n.coordinator
    ensures ClassifyRead(poll).Success? ==>
      n.coordinator.data == ClassifyRead(poll).value && n.coordinator.lastSuccess == Some(now)
    ensures ClassifyRead(poll).Failure? && WriteResult(write).Pass? ==>
      forall pf :: n.NativeValue(pf) == Some(NumberPlatform.ClampToInt(value, n.bounds) as real)
    ensures ClassifyRead(poll).Failure? ==> n.coordinator.lastSuccess == old(n.coordinator.lastSuccess)
  {
    var _, _ := n.SetNativeValue(value, write);
    var _ := n.coordinator.Refresh(poll, now);
  }
}
