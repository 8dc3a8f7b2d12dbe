/** The Philips Hue plugin: inbound signals become hardware commands, registered devices
    are polled for their status, and every hardware acknowledgement becomes a broadcast
    of the device's on/off state. The hardware client is modelled by the log of calls
    issued to it; the completion of a call's promise is an explicit event. */
module HuePlugin {
  import opened JsValues
  import opened DeviceIds

  /** The two states a device can be commanded to or reported in. */
  datatype Power = On | Off

  /** The payload string of a state: `'on'` or `'off'`. */
  function Name(p: Power): string
  {
    match p
    case On => "on"
    case Off => "off"
  }

  /** The desired state of a signal's `state` value, compared with `===`:
      only the strings 'on' and 'off' are recognised. */
  function DesiredPower(state: JsValue): (r: Option<Power>)
    ensures r.Some? ==> state == Str(Name(r.value))
    ensures r.None? <==> state != Str("on") && state != Str("off")
  {
    if state == Str("on") then Some(On)
    else if state == Str("off") then Some(Off)
    else None
  }

  /** The state a status reply reports: 'on' exactly when the value is truthy. */
  function Reported(v: JsValue): (p: Power)
    ensures p == On <==> Truthy(v)
  {
    if Truthy(v) then On else Off
  }

  /** The operations of the hardware client the plugin uses. */
  datatype Operation =
    | SetLightState(command: Power)
    | SetGroupLightState(command: Power)
    | LightStatus
    | GetGroup
  {
    function Kind(): Kind
    {
      match this
      case SetLightState(_) => Light
      case LightStatus => Light
      case SetGroupLightState(_) => Group
      case GetGroup => Group
    }
  }

  /** One call to the hardware client: the device it was issued for (the identifier its
      completion callback reports under), the operation and the address passed to it. */
  datatype HardwareCall = HardwareCall(deviceId: string, op: Operation, address: string)

  /** A broadcast on the bus: `{ deviceId, data: { state } }`. */
  datatype Broadcast = Broadcast(deviceId: string, state: Power)

  function Optional<T>(o: Option<T>): (s: seq<T>)
    ensures |s| <= 1
    ensures o.Some? ==> s == [o.value]
    ensures o.None? ==> s == []
  {
    if o.Some? then [o.value] else []
  }

  // ---------------------------------------------------------------------------
  // The calls each entry point issues

  /** `setLightStatus(lightId, state)`: one `setLightState` call, on the stripped
      identifier, for 'on' or 'off'; nothing for any other state. */
  function SetLightCalls(lightId: string, state: JsValue): (cs: seq<HardwareCall>)
    ensures |cs| <= 1
    ensures |cs| == 1 <==> state == Str("on") || state == Str("off")
    ensures forall c :: c in cs ==>
      c.deviceId == lightId && c.address == Address(lightId) &&
      c.op.SetLightState? && state == Str(Name(c.op.command))
  {
    match DesiredPower(state)
    case None => []
    case Some(p) => [HardwareCall(lightId, SetLightState(p), Address(lightId))]
  }

  /** `setGroupStatus(groupId, state)`: one `setGroupLightState` call, on the stripped
      identifier, for 'on' or 'off'; nothing for any other state. */
  function SetGroupCalls(groupId: string, state: JsValue): (cs: seq<HardwareCall>)
    ensures |cs| <= 1
    ensures |cs| == 1 <==> state == Str("on") || state == Str("off")
    ensures forall c :: c in cs ==>
      c.deviceId == groupId && c.address == Address(groupId) &&
      c.op.SetGroupLightState? && state == Str(Name(c.op.command))
  {
    match DesiredPower(state)
    case None => []
    case Some(p) => [HardwareCall(groupId, SetGroupLightState(p), Address(groupId))]
  }

  /** `onSignalReceivedForPlugin`: the calls a signal causes, routed by the identifier. */
  function SignalCalls(deviceId: string, state: JsValue): (cs: seq<HardwareCall>)
    ensures IsLight(deviceId) ==> cs == SetLightCalls(deviceId, state)
    ensures IsGroup(deviceId) ==> cs == SetGroupCalls(deviceId, state)
    ensures !IsLight(deviceId) && !IsGroup(deviceId) ==> cs == []
  {
    if IsLight(deviceId) then SetLightCalls(deviceId, state)
    else if IsGroup(deviceId) then SetGroupCalls(deviceId, state)
    else []
  }

  /** `getLightStatus(lightId)`: a `lightStatus` query on the stripped identifier. */
  function LightQuery(lightId: string): (c: HardwareCall)
    ensures c.op == LightStatus && c.deviceId == lightId && c.address == Address(lightId)
  {
    HardwareCall(lightId, LightStatus, Address(lightId))
  }

  /** `getGroupStatus(groupId)`: a `getGroup` query. The identifier is passed with its
      tag, unlike every other call. */
  function GroupQuery(groupId: string): (c: HardwareCall)
    ensures c.op == GetGroup && c.deviceId == groupId && c.address == groupId
  {
    HardwareCall(groupId, GetGroup, groupId)
  }

  /** The status query a registered device gets during a refresh, if any: one query of
      the identifier's own kind for a light or a group, none for any other device. */
  function StatusQuery(deviceId: string): (cs: seq<HardwareCall>)
    ensures |cs| <= 1
    ensures cs == [] <==> Classify(deviceId) == None
    ensures cs != [] ==>
      cs[0].deviceId == deviceId && (cs[0].op == LightStatus || cs[0].op == GetGroup) &&
      Classify(deviceId).Some? && cs[0].op.Kind() == Classify(deviceId).value.kind
    ensures IsLight(deviceId) ==> cs == [LightQuery(deviceId)]
    ensures IsGroup(deviceId) ==> cs == [GroupQuery(deviceId)]
  {
    if IsLight(deviceId) then [LightQuery(deviceId)]
    else if IsGroup(deviceId) then [GroupQuery(deviceId)]
    else []
  }

  /** `refreshPhilipsHueStatus`: the queries for the devices, in order: as many as there
      are lights and groups among them, so at most one per device. */
  function RefreshCalls(devices: seq<string>): (cs: seq<HardwareCall>)
    ensures |cs| == |Classifiable(devices)| <= |devices|
  {
    if devices == [] then []
    else
      var init, last := devices[..|devices| - 1], devices[|devices| - 1];
      assert devices == init + [last];
      ClassifiableAppend(init, last);
      RefreshCalls(init) + StatusQuery(last)
  }

  /** One more device adds its own status query to the refresh. */
  lemma RefreshCallsStep(devices: seq<string>, n: nat)
    requires n < |devices|
    ensures RefreshCalls(devices[..n + 1]) == RefreshCalls(devices[..n]) + StatusQuery(devices[n])
  {
    assert devices[..n + 1][..n] == devices[..n];
  }

  /** The devices that are lights or groups, in order. */
  function Classifiable(devices: seq<string>): (ds: seq<string>)
    ensures |ds| <= |devices|
  {
    if devices == [] then []
    else if IsLight(devices[0]) || IsGroup(devices[0]) then [devices[0]] + Classifiable(devices[1..])
    else Classifiable(devices[1..])
  }

  function DeviceIdsOf(cs: seq<HardwareCall>): (ids: seq<string>)
    ensures |ids| == |cs|
    ensures forall k :: 0 <= k < |cs| ==> ids[k] == cs[k].deviceId
  {
    seq(|cs|, k requires 0 <= k < |cs| => cs[k].deviceId)
  }

  // ---------------------------------------------------------------------------
  // What a completed call broadcasts

  /** The `.then` callback of a call, given the value its promise resolved to: the
      commands echo the requested state; a light query reports the truthiness of the
      reply; a group query reports `lastAction.on` of the reply, and its callback
      throws (so broadcasts nothing) when the reply or its `lastAction` is undefined
      or null. */
  function Completion(call: HardwareCall, reply: JsValue): (b: Option<Broadcast>)
    ensures b.Some? ==> b.value.deviceId == call.deviceId
    ensures (call.op.SetLightState? || call.op.SetGroupLightState?) ==>
      b == Some(Broadcast(call.deviceId, call.op.command))
    ensures call.op == LightStatus ==>
      b.Some? && (b.value.state == On <==> Truthy(reply))
    ensures call.op == GetGroup ==>
      (b.Some? <==> Property(reply, "lastAction").Some? &&
                    Property(Property(reply, "lastAction").value, "on").Some?)
    ensures call.op == GetGroup && b.Some? ==>
      (b.value.state == On <==> Truthy(Property(Property(reply, "lastAction").value, "on").value))
  {
    match call.op
    case SetLightState(p) => Some(Broadcast(call.deviceId, p))
    case SetGroupLightState(p) => Some(Broadcast(call.deviceId, p))
    case LightStatus => Some(Broadcast(call.deviceId, Reported(reply)))
    case GetGroup =>
      match Property(reply, "lastAction")
      case None => None
      case Some(lastAction) =>
        match Property(lastAction, "on")
        case None => None
        case Some(on) => Some(Broadcast(call.deviceId, Reported(on)))
  }

  // ---------------------------------------------------------------------------
  // Properties of dispatch and refresh

  /** A signal for a light reaches only the light operation, one for a group only the
      group operation, and any other identifier or any state other than 'on' and 'off'
      issues nothing. The one call issued targets the identifier's classification. */
  lemma SignalRouting(deviceId: string, state: JsValue)
    ensures var cs := SignalCalls(deviceId, state);
      (|cs| == 1 <==> Classify(deviceId).Some? && DesiredPower(state).Some?) &&
      |cs| <= 1 &&
      forall c :: c in cs ==>
        Classify(deviceId) == Some(Target(c.op.Kind(), c.address)) &&
        (c.op.SetLightState? || c.op.SetGroupLightState?) &&
        DesiredPower(state) == Some(c.op.command)
  {
  }

  /** Acknowledging the call a signal issued broadcasts the signal's own identifier
      and the state it asked for, whatever the hardware replied. */
  lemma SignalEcho(deviceId: string, state: JsValue, reply: JsValue)
    ensures forall c :: c in SignalCalls(deviceId, state) ==>
      Completion(c, reply) == Some(Broadcast(deviceId, DesiredPower(state).value)) &&
      state == Str(Name(DesiredPower(state).value))
  {
  }

  lemma {:induction false} ClassifiableAppend(devices: seq<string>, d: string)
    ensures Classifiable(devices + [d]) ==
      Classifiable(devices) + (if IsLight(d) || IsGroup(d) then [d] else [])
    decreases |devices|
  {
    if devices == [] {
      assert [] + [d] == [d];
    } else {
      assert (devices + [d])[1..] == devices[1..] + [d];
      ClassifiableAppend(devices[1..], d);
    }
  }

  lemma DeviceIdsOfAppend(a: seq<HardwareCall>, b: seq<HardwareCall>)
    ensures DeviceIdsOf(a + b) == DeviceIdsOf(a) + DeviceIdsOf(b)
  {
  }

  /** The queried devices are the lights and groups, in order. */
  lemma {:induction false} RefreshCallsIds(devices: seq<string>)
    ensures DeviceIdsOf(RefreshCalls(devices)) == Classifiable(devices)
    decreases |devices|
  {
    if devices != [] {
      var init, last := devices[..|devices| - 1], devices[|devices| - 1];
      assert devices == init + [last];
      RefreshCallsIds(init);
      ClassifiableAppend(init, last);
      assert RefreshCalls(devices) == RefreshCalls(init) + StatusQuery(last);
      DeviceIdsOfAppend(RefreshCalls(init), StatusQuery(last));
    }
  }

  /** Every query of a refresh is its device's own status query. */
  lemma {:induction false} RefreshCallsAreStatusQueries(devices: seq<string>)
    ensures forall c :: c in RefreshCalls(devices) ==> [c] == StatusQuery(c.deviceId)
    decreases |devices|
  {
    if devices != [] {
      var init, last := devices[..|devices| - 1], devices[|devices| - 1];
      RefreshCallsAreStatusQueries(init);
      var before, query := RefreshCalls(init), StatusQuery(last);
      assert RefreshCalls(devices) == before + query;
      forall c: HardwareCall | c in before + query ensures [c] == StatusQuery(c.deviceId) {
        if c !in before { assert query == [c]; }
      }
    }
  }

  /** A refresh queries exactly the devices that are lights or groups, in order, each
      with its own status query; the other devices get none. */
  lemma RefreshQueriesClassifiable(devices: seq<string>)
    ensures DeviceIdsOf(RefreshCalls(devices)) == Classifiable(devices)
    ensures forall c :: c in RefreshCalls(devices) ==> [c] == StatusQuery(c.deviceId)
  {
    RefreshCallsIds(devices);
    RefreshCallsAreStatusQueries(devices);
  }

  // ---------------------------------------------------------------------------
  // The plugin object

  /** How a call's promise settled. */
  datatype Settlement = Resolved(reply: JsValue) | Rejected

  /** The plugin: the calls it has issued to the hardware client, in order, how each
      settled so far, and the broadcasts it has made, in order. */
  class Plugin {
    var calls: seq<HardwareCall>
    var settled: map<nat, Settlement>
    var broadcasts: seq<Broadcast>
    /** For each broadcast, the index of the call whose completion made it. */
    ghost var sources: seq<nat>

    /** Every broadcast was made by the completion of a distinct resolved call, and every
        resolved call whose callback broadcasts has made its broadcast. In particular no
        rejected or pending call has a broadcast. */
    ghost predicate Valid()
      reads this
      ensures Valid() ==> forall i :: i in sources ==> i in settled && settled[i].Resolved?
    {
      (forall i :: i in settled ==> i < |calls|) &&
      |sources| == |broadcasts| &&
      (forall j :: 0 <= j < |sources| ==>
        sources[j] in settled && settled[sources[j]].Resolved? &&
        Completion(calls[sources[j]], settled[sources[j]].reply) == Some(broadcasts[j])) &&
      (forall j, k :: 0 <= j < k < |sources| ==> sources[j] != sources[k]) &&
      (forall i ::
        (i in settled && settled[i].Resolved? && Completion(calls[i], settled[i].reply).Some?)
        ==> i in sources)
    }

    /** A call that has been issued and has not settled yet. */
    predicate Pending(i: nat)
      reads this
    {
      i < |calls| && i !in settled
    }

    constructor ()
      ensures Valid()
      ensures calls == [] && settled == map[] && broadcasts == []
    {
      calls, settled, broadcasts := [], map[], [];
      sources := [];
    }

    /** Appends calls to the log; nothing else changes. */
    method Issue(cs: seq<HardwareCall>)
      requires Valid()
      modifies this
      ensures Valid()
      ensures calls == old(calls) + cs
      ensures settled == old(settled) && broadcasts == old(broadcasts) && sources == old(sources)
    {
      calls := calls + cs;
    }

    /** `setLightStatus` */
    method SetLightStatus(lightId: string, state: JsValue)
      requires Valid()
      modifies this
      ensures Valid()
      ensures calls == old(calls) + SetLightCalls(lightId, state)
      ensures settled == old(settled) && broadcasts == old(broadcasts)
    {
      if state == Str("on") {
        Issue([HardwareCall(lightId, SetLightState(On), Substr(lightId, 1))]);
      } else if state == Str("off") {
        Issue([HardwareCall(lightId, SetLightState(Off), Substr(lightId, 1))]);
      }
    }

    /** `setGroupStatus` */
    method SetGroupStatus(groupId: string, state: JsValue)
      requires Valid()
      modifies this
      ensures Valid()
      ensures calls == old(calls) + SetGroupCalls(groupId, state)
      ensures settled == old(settled) && broadcasts == old(broadcasts)
    {
      if state == Str("on") {
        Issue([HardwareCall(groupId, SetGroupLightState(On), Substr(groupId, 1))]);
      } else if state == Str("off") {
        Issue([HardwareCall(groupId, SetGroupLightState(Off), Substr(groupId, 1))]);
      }
    }

    /** `onSignalReceivedForPlugin`: the signal's identifier and its `data['state']`. */
    method OnSignalReceived(deviceId: string, state: JsValue)
      requires Valid()
      modifies this
      ensures Valid()
      ensures calls == old(calls) + SignalCalls(deviceId, state)
      ensures settled == old(settled) && broadcasts == old(broadcasts)
    {
      if IsLight(deviceId) {
        SetLightStatus(deviceId, state);
      } else if IsGroup(deviceId) {
        SetGroupStatus(deviceId, state);
      }
    }

    /** `getLightStatus` */
    method GetLightStatus(lightId: string)
      requires Valid()
      modifies this
      ensures Valid()
      ensures calls == old(calls) + [LightQuery(lightId)]
      ensures settled == old(settled) && broadcasts == old(broadcasts)
    {
      Issue([HardwareCall(lightId, LightStatus, Substr(lightId, 1))]);
    }

    /** `getGroupStatus`: the identifier goes to `getGroup` with its tag. */
    method GetGroupStatus(groupId: string)
      requires Valid()
      modifies this
      ensures Valid()
      ensures calls == old(calls) + [GroupQuery(groupId)]
      ensures settled == old(settled) && broadcasts == old(broadcasts)
    {
      Issue([HardwareCall(groupId, GetGroup, groupId)]);
    }

    /** `refreshPhilipsHueStatus`, over the identifiers of the devices registered for
        the plugin. */
    method RefreshStatus(devices: seq<string>)
      requires Valid()
      modifies this
      ensures Valid()
      ensures calls == old(calls) + RefreshCalls(devices)
      ensures settled == old(settled) && broadcasts == old(broadcasts)
    {
      for n := 0 to |devices|
        invariant Valid()
        invariant calls == old(calls) + RefreshCalls(devices[..n])
        invariant settled == old(settled) && broadcasts == old(broadcasts)
      {
        RefreshCallsStep(devices, n);
        RefreshDevice(devices[n]);
      }
      assert devices[..|devices|] == devices;
    }

    /** The body of the refresh loop: query one device if it is a light or a group. */
    method RefreshDevice(deviceId: string)
      requires Valid()
      modifies this
      ensures Valid()
      ensures calls == old(calls) + StatusQuery(deviceId)
      ensures settled == old(settled) && broadcasts == old(broadcasts)
    {
      if IsLight(deviceId) {
        GetLightStatus(deviceId);
      } else if IsGroup(deviceId) {
        GetGroupStatus(deviceId);
      }
    }

    /** The promise of call `i` resolves with `reply` and its `.then` callback runs.
        A call settles once: for a call that is not pending nothing happens. */
    method Resolve(i: nat, reply: JsValue)
      requires Valid()
      modifies this
      ensures Valid()
      ensures calls == old(calls)
      ensures old(Pending(i)) ==>
        settled == old(settled)[i := Resolved(reply)] &&
        broadcasts == old(broadcasts) + Optional(Completion(calls[i], reply))
      ensures !old(Pending(i)) ==> settled == old(settled) && broadcasts == old(broadcasts)
    {
      if i < |calls| && i !in settled {
        assert i !in sources;
        settled := settled[i := Resolved(reply)];
        var b := Completion(calls[i], reply);
        if b.Some? {
          broadcasts := broadcasts + [b.value];
          sources := sources + [i];
        }
      }
    }

    /** The promise of call `i` is rejected. There is no rejection handler, so nothing is
        broadcast, now or later. */
    method Reject(i: nat)
      requires Valid()
      modifies this
      ensures Valid()
      ensures calls == old(calls) && broadcasts == old(broadcasts)
      ensures old(Pending(i)) ==> settled == old(settled)[i := Rejected]
      ensures !old(Pending(i)) ==> settled == old(settled)
    {
      if i < |calls| && i !in settled {
        assert i !in sources;
        settled := settled[i := Rejected];
      }
    }
  }
}
