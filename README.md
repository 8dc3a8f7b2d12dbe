# Philips Hue plugin for DOMUSTO: identifier routing and state synchronisation

This project models the decision logic of the DOMUSTO Philips Hue plugin (`index.ts`).
The plugin sits between the DOMUSTO signal bus and the `node-hue-api` hardware client.

- **Identifiers.** A device identifier starts with a tag: `L` for a light, `G` for a group.
  The hardware address is the identifier without its tag (`substr(1)`).
  One quirk is kept as written: `getGroupStatus` passes the *tagged* identifier to `getGroup`.
- **Commands.** An inbound signal is routed by its tag. A hardware command is issued only
  when `data.state` is strictly equal (`===`) to the string `'on'` or `'off'`.
  The confirming broadcast is made in the promise's `.then` callback.
  It echoes the requested state under the signal's identifier.
- **Status refresh.** The refresh loops over the registered devices in order.
  It issues one status query per light or group and skips every other device.
  A light's completion broadcasts `'on'` when the reply is truthy.
  A group's completion broadcasts `'on'` when the reply's `lastAction.on` is truthy.
- **The `ip` setting.** The pattern `^(?!0)(?!.*\.$)((1?\d?\d|25[0-5]|2[0-4]\d)(\.|$)){4}$`
  is modelled as written: both lookaheads, the three alternatives and backtracking over
  the octet length. It is proved to accept exactly four dot-separated octets.
  Each octet is one to three digits with value at most 255, and a three-digit octet
  does not start with `0`. The first octet does not start with `0`.
  Two-digit octets such as `00` or `07` are accepted after the first position.

Modules:

- `JsValues` (`JsValues.dfy`): JavaScript values, truthiness and property reads.
  Signal payloads and hardware replies are JavaScript values, so `===` and `? :` are
  explicit.
- `DeviceIds` (`DeviceIds.dfy`): `isLight`, `isGroup`, the address, and a classification
  with its inverse.
- `Ipv4Setting` (`Ipv4Setting.dfy`): the regular expression as written next to a
  split-at-dots definition. The lemma `IpPatternIsDottedQuad` shows they agree.
- `HuePlugin` (`HuePlugin.dfy`): the hardware calls each entry point issues, as
  functions. The broadcast each completion makes is a function too. The class
  `Plugin` holds the log of issued calls, how each call's promise settled, and the log
  of broadcasts. Its methods are proved against those functions. `Valid()` says every
  broadcast comes from a distinct resolved call. It also says every resolved call whose
  callback broadcasts has made its broadcast. A resolved group query whose callback
  throws has none. So a rejected or pending call never has a broadcast.
- `HueScenarios` (`Scenarios.dfy`): client scenarios of the plugin, verified from the
  methods' contracts alone.

A resolution is the event `Resolve(i, reply)`. A rejection is `Reject(i)`. The source has
no rejection handler, so a rejected call never broadcasts. Each promise settles once:
later events for the same call change nothing.

## Model

| member | source | states |
|---|---|---|
| DeviceIds.IsLight | index.ts:169-171 | an identifier is a light iff it is non-empty and its first character is 'L' |
| DeviceIds.IsGroup | index.ts:173-175 | an identifier is a group iff it is non-empty and its first character is 'G' |
| DeviceIds.LightAndGroupDisjoint | index.ts:169-175 | no identifier is both a light and a group; the empty identifier is neither |
| DeviceIds.Address | index.ts:150 | the address is the identifier minus its first character: tag followed by address gives back the identifier; the empty identifier has the empty address |
| DeviceIds.Classify | index.ts:82-86 | an identifier resolves to a light target, to a group target, or to nothing, exactly as isLight/isGroup say, with the stripped address |
| DeviceIds.ClassifyRoundTrip | index.ts:169-175 | classifying the identifier built from a target (tag then address) gives that target, and a classified identifier is rebuilt exactly from its target |
| JsValues.Truthy | index.ts:152 | the values the `? :` test treats as false are exactly undefined, null, false, 0 and the empty string |
| JsValues.Property | index.ts:164 | reading a property throws exactly on undefined or null; on an object it gives the own property's value, or undefined when the property is absent; on any other value it gives undefined |
| Ipv4Setting.OctetAlternativeIsOctet | index.ts:46 | the octet alternation (`1?\d?\d`, `25[0-5]` or `2[0-4]\d`) accepts exactly the one-to-three-digit strings of value at most 255 whose three-digit forms do not begin with '0' |
| Ipv4Setting.RepeatsChars | index.ts:46 | what the repeated group matches consists only of digits and dots |
| Ipv4Setting.RepeatsAreOctetFields | index.ts:46 | on a string not ending in '.', n repetitions of an octet followed by a dot or the end match iff the string splits at its dots into exactly n octets |
| Ipv4Setting.PatternHasNoTrailingDot | index.ts:46 | nothing the pattern accepts ends with '.' |
| Ipv4Setting.IpPattern | index.ts:46 | the pattern as written, with both lookaheads; what it accepts is at least seven characters of digits and dots, beginning with a digit other than '0' and ending with a digit |
| Ipv4Setting.RepeatsShape | index.ts:46 | n repetitions of the group match at least 2n - 1 characters, the first of them a digit |
| Ipv4Setting.IpPatternIsDottedQuad | index.ts:46 | the `ip` pattern accepts a string iff it is four dot-separated octets whose first does not begin with '0' |
| Ipv4Setting.AcceptsPrivateAddress | index.ts:46 | "192.168.1.10" is accepted |
| Ipv4Setting.RejectsOctetAbove255 | index.ts:46 | "256.1.1.1" is refused |
| HuePlugin.DesiredPower | index.ts:110-116 | a state is recognised only when it is the string 'on' or the string 'off', and the recognised state is named by that string |
| HuePlugin.Reported | index.ts:152 | a status value reports 'on' iff it is truthy |
| HuePlugin.SetLightCalls | index.ts:106-124 | setLightStatus issues at most one call, exactly when the state is 'on' or 'off': a setLightState for the same device on the stripped identifier, carrying the requested state |
| HuePlugin.SetGroupCalls | index.ts:126-144 | setGroupStatus issues at most one call, exactly when the state is 'on' or 'off': a setGroupLightState for the same device on the stripped identifier, carrying the requested state |
| HuePlugin.SignalCalls | index.ts:80-88 | a light's signal issues what setLightStatus issues, a group's what setGroupStatus issues, and any other identifier's signal issues nothing |
| HuePlugin.LightQuery | index.ts:146-156 | a light's status query is a lightStatus call on the identifier minus its tag |
| HuePlugin.GroupQuery | index.ts:158-167 | a group's status query is a getGroup call on the full, tagged identifier |
| HuePlugin.StatusQuery | index.ts:96-100 | a refreshed device gets no query iff it is neither a light nor a group; a light gets a lightStatus query on its stripped identifier, a group a getGroup query on its full, tagged identifier |
| HuePlugin.RefreshCalls | index.ts:94-102 | the refresh issues as many queries as there are lights and groups among the devices, so at most one per device |
| HuePlugin.Completion | index.ts:110-166 | a completion broadcasts under the call's device identifier; a command echoes its requested state; a light query broadcasts 'on' iff the reply is truthy; a group query broadcasts iff reading `lastAction.on` does not throw, and then 'on' iff that value is truthy |
| HuePlugin.SignalRouting | index.ts:80-88 | a signal issues exactly one call iff its identifier is a light or group and its state is 'on' or 'off'; otherwise none; the call is a command of the identifier's kind on its stripped address, carrying the requested state |
| HuePlugin.SignalEcho | index.ts:110-141 | acknowledging the call a signal issued broadcasts the signal's identifier and the requested state, whatever the reply |
| HuePlugin.RefreshQueriesClassifiable | index.ts:94-102 | a refresh queries exactly the light and group devices, in device order, each with its own kind's status query; other devices get none |
| HuePlugin.Plugin.Valid | index.ts:111-115 | no broadcast comes from a pending or rejected call: every broadcast's source call has settled as resolved |
| HuePlugin.Plugin.SetLightStatus | index.ts:106-124 | appends setLightStatus's calls to the log; settlements and broadcasts are unchanged |
| HuePlugin.Plugin.SetGroupStatus | index.ts:126-144 | appends setGroupStatus's calls to the log; settlements and broadcasts are unchanged |
| HuePlugin.Plugin.OnSignalReceived | index.ts:80-88 | appends the signal's calls to the log; nothing is broadcast at dispatch |
| HuePlugin.Plugin.GetLightStatus | index.ts:146-156 | appends the light's status query; nothing is broadcast yet |
| HuePlugin.Plugin.GetGroupStatus | index.ts:158-167 | appends the group's status query, with the tagged identifier; nothing is broadcast yet |
| HuePlugin.Plugin.RefreshDevice | index.ts:96-100 | appends the device's status query, if it is a light or a group; nothing is broadcast yet |
| HuePlugin.Plugin.RefreshStatus | index.ts:90-104 | the loop appends the refresh's queries in device order and broadcasts nothing |
| HuePlugin.Plugin.Resolve | index.ts:111-115 | resolving a pending call settles it and appends its completion's broadcast, if any; resolving a settled or unknown call changes nothing; every broadcast still comes from a distinct resolved call |
| HuePlugin.Plugin.Reject | index.ts:111-115 | rejecting a pending call settles it and broadcasts nothing; the call can never broadcast afterwards |

## Left out

- The constructor (index.ts:31-72) is left out. It validates the settings (`validateConfigurationAttributes` is not part of this model), creates the `HueApi` client and schedules the first refresh with a 100 ms `setTimeout`. Only the language of the `ip` pattern is modelled, not how the base class applies it.
- The `lightState.create().on()/off()` builders are foreign library objects. A command is modelled as its on/off tag.
- Promise scheduling, interleaving and timing are left out. A completion is an explicit `Resolve` or `Reject` event, in whatever order the caller chooses.
- `DomustoDevicesManager.getDevicesByPluginId` is not part of this model. The refresh takes the registered devices' identifiers as a sequence.
- `this.console` logging, the plugin metadata passed to `super`, and delivery of broadcasts on the bus are left out. A broadcast is an entry appended to a log.
- The model assumes a valid configuration, so a hardware client exists. When validation fails (index.ts:43-54), `hardwareInstance` is never set and every hardware call at index.ts:111, 117, 131, 137, 150 and 162 throws a TypeError before anything is issued; that path is not modelled.
- The model assumes every signal carries a `data` object. `signal.data['state']` at index.ts:83 and 85 throws when `data` is missing; `Plugin.OnSignalReceived` takes the state value directly, so that path is not modelled.
- Unhandled promise rejections are not modelled. These come from calls without a `.catch` and from a group callback that throws (index.ts:164). The model only records that no broadcast happens; how the runtime reacts to the rejection is left out.
- Strings are Dafny sequences of Unicode scalar values, not JavaScript's UTF-16 code units. For an identifier whose first character lies outside the Basic Multilingual Plane, `substr(1)` in JavaScript leaves a lone surrogate, while `Address` drops the whole character. Only direct calls of `setLightStatus`, `setGroupStatus` or `getLightStatus` can see such an identifier; dispatch and refresh pass only identifiers beginning with 'L' or 'G'.
- The hardware client's own behaviour is left out. Its replies are the values passed to `Resolve`.
- JsValues.Truthy: numbers are integers only, so NaN, -0 and fractions are not modelled.
- JsValues.Property: properties inherited through prototypes are not modelled; a primitive's property reads as undefined.
- Ipv4Setting.IpPattern: the input is assumed to be a string; non-string settings are not modelled.
