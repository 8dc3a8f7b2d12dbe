/** Client scenarios of the plugin, verified from the methods' contracts alone. */
module HueScenarios {
  import opened JsValues
  import opened HuePlugin

  /** A signal to turn light "L3" on issues one `setLightState` on address "3"; the
      broadcast follows the acknowledgement, not the signal. */
  method SignalScenario()
  {
    var plugin := new Plugin();
    plugin.OnSignalReceived("L3", Str("on"));
    assert plugin.calls == [HardwareCall("L3", SetLightState(On), "3")];
    assert plugin.broadcasts == [];
    plugin.Resolve(0, Undefined);
    assert plugin.broadcasts == [Broadcast("L3", On)];
  }

  /** Signals with an unrecognised identifier or state issue nothing. */
  method IgnoredSignalScenario()
  {
    assert SignalCalls("X9", Str("on")) == [];
    assert "dim"[0] != "on"[0] && "dim"[0] != "off"[0];
    assert SignalCalls("L3", Str("dim")) == [];
    assert SignalCalls("G3", Bool(true)) == [];
    var plugin := new Plugin();
    plugin.OnSignalReceived("X9", Str("on"));
    plugin.OnSignalReceived("L3", Str("dim"));
    plugin.OnSignalReceived("G3", Bool(true));
    assert plugin.calls == [] && plugin.broadcasts == [];
  }

  /** A rejected command to group "G1" broadcasts nothing, even if a resolution is
      reported afterwards. */
  method RejectedScenario()
  {
    var plugin := new Plugin();
    plugin.OnSignalReceived("G1", Str("off"));
    assert plugin.calls == [HardwareCall("G1", SetGroupLightState(Off), "1")];
    plugin.Reject(0);
    plugin.Resolve(0, Undefined);
    assert plugin.broadcasts == [];
  }

  /** Refreshing a light, an unrecognised device and a group issues two queries, in
      device order; the group's query carries its tagged identifier. */
  method RefreshScenario()
  {
    var plugin := new Plugin();
    var devices := ["L1", "S7", "G2"];
    assert devices[..2] == ["L1", "S7"] && devices[..2][..1] == ["L1"];
    assert StatusQuery("S7") == [];
    assert RefreshCalls(devices[..2][..1]) == [LightQuery("L1")];
    assert RefreshCalls(devices[..2]) == [LightQuery("L1")];
    assert devices[2] == "G2" && StatusQuery("G2") == [GroupQuery("G2")];
    assert RefreshCalls(devices) == [LightQuery("L1"), GroupQuery("G2")];
    plugin.RefreshStatus(devices);
    assert plugin.calls == [LightQuery("L1"), GroupQuery("G2")];
    assert plugin.calls[1].address == "G2";
  }

  /** A group's reply reports its `lastAction.on`; a light's reply of 0 reports 'off';
      a group reply without `lastAction` broadcasts nothing. */
  method CompletionScenario()
  {
    var group := GroupQuery("G2");
    var on := Obj(map["on" := Bool(true)]);
    assert Completion(group, Obj(map["lastAction" := on])) == Some(Broadcast("G2", On));
    assert Completion(group, Obj(map[])) == None;
    assert Completion(LightQuery("L1"), Num(0)) == Some(Broadcast("L1", Off));
  }
}
