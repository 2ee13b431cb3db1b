# Smappee to D-Bus meter bridge, modelled in Dafny

`dbus_smappee.py` listens to the MQTT messages of a Smappee energy monitor. It
republishes them as Victron-style meter services on D-Bus.

A `channelConfig` message lists the monitor's current-transformer inputs ("cts"),
each with a phase and a type.

- The bridge groups these channels into three phase buckets.
- It pairs the buckets by position into three-phase meters: at most one
  consumption meter at DeviceInstance 50, then any number of production meters
  from 51.

A `realtime` message carries the voltage of each phase and a reading for each ct.

- Every meter copies its three readings into `/Ac/L1..L3/*` and its totals into
  `/Ac/Power` and `/Ac/Energy/*`.
- Then every meter gets the message's firmware version and serial number.
- `set_path` writes a value only when it differs from the one the path holds.

The project has five modules:

- `Wrappers` (wrappers.dfy): `Option`, `Result` and `Outcome`. They stand for
  return values and for the exceptions the handlers raise.
- `DbusService` (service.dfy): a meter's service as a map from `Path` to `Value`.
  A run of `set_path` requests is described by two functions:
  - `ApplyAll` gives the resulting store;
  - `Performed` gives the writes actually sent.

  The lemmas cover write suppression: a replay sends nothing, and exactly the
  changed values are sent.
- `Channels` (channels.dfy): the `groupby` grouping as a loop (`GroupPhases`) and
  the closed form `AllocPlan` of `_allocate_meters`. Lemmas cover the allocation's
  shape, the numbering and the phases, and when it fails.
- `SmappeeMeter` (meter.dfy): class `Meter`. Its fields are the store and the log
  of sent writes. It has `SetPath` and `Update`. `Update` is proved to make
  exactly the requests of the pure `UpdatePlan`, and lemmas describe what
  `UpdatePlan` leaves at each path.
- `SmappeeBridge` (bridge.dfy): class `Bridge`.
  - Its methods are `AllocateMeters`, `OnChannelConfig`, `OnRealtime` and
    `OnMessage`.
  - The invariant `Valid` says every meter is valid and the instances run
    consecutively.
  - The meter list after a configuration is the pure `ConfigPlan`.
  - The requests each meter sees in a realtime message are the pure
    `RealtimeStage`.

Exceptions are modelled as results.

- `_on_message` raises `KeyError` for a missing key or a missing reading, and
  `TypeError` for a padded pairing slot. Each becomes a `Fail` outcome whose
  error names the cause.
- The state left behind is exactly the partial state Python leaves. Writes made
  before the `KeyError` in `update` stay. The meters after the one that raised are
  not updated. Firmware and serial are written only when no meter raised. A failed
  production allocation leaves the consumption meter in place.

## Behaviour on edge inputs

- **Uneven phase buckets.** `izip_longest` pads the shorter buckets with `None`,
  and `x['ctInput']` on that pad raises `TypeError` (dbus_smappee.py:129-135). So
  allocation fails with `PaddedSlot` at the first pairing index some bucket lacks;
  no partial meter is built. `Channels.AllocUnevenBucketsFail` shows this for
  buckets of sizes 3, 2 and 1.
- **Missing readings.** `powers[ct]` raises `KeyError` for a ct without a reading
  (:91). The lines before that ct have been written; the rest of this meter's
  update, the remaining meters and the firmware/serial loop do not run.
- **Missing voltages.** `voltages.get(phase, None)` writes `None` to the line's
  voltage when its phase has no entry (:97).
- **Unknown phases.** `phases[phase]` raises `KeyError` for a phase other than 0,
  1 and 2 (:127).
- **Propagation.** `_on_message` catches only the `ValueError` of `json.loads`
  (:142-146). Every `KeyError` and `TypeError` above, and a missing
  `inputChannels`, `voltages` or `channelPowers` key, propagates out of it.

## Model

| member | source | states |
|---|---|---|
| Channels.Bucket | dbus_smappee.py:125-127 | a phase bucket holds only input channels on that phase, and is no longer than the input |
| Channels.FirstUnknownPhase | dbus_smappee.py:126-127 | none exactly when every phase is 0, 1 or 2; otherwise a phase outside them that some channel has |
| Channels.OfType | dbus_smappee.py:152-155 | the comprehension keeps exactly the channels of the requested type |
| Channels.PaddedSlots | dbus_smappee.py:129-135 | no bucket pads index `c` exactly when `c` is below the shortest bucket, and then the slots hold the `c`-th channel of each bucket |
| Channels.RunEnd | dbus_smappee.py:126 | a `groupby` group is the maximal run of equal phase starting at `i` |
| Channels.GroupPhases | dbus_smappee.py:125-127 | raises exactly when some phase is unknown, naming the first one; otherwise the keys are 0, 1 and 2, and each bucket is the channels on that phase in input order |
| Channels.RunStep | dbus_smappee.py:126-127 | extending with one group appends it to its own phase's bucket and to no other |
| Channels.BucketConcat | dbus_smappee.py:126-127 | bucketing the concatenation of two channel lists concatenates their buckets |
| Channels.BucketOfRun | dbus_smappee.py:126-127 | a group on phase `q` is its own bucket for `q` and leaves the other buckets empty |
| Channels.FirstUnknownAfterRun | dbus_smappee.py:126-127 | a group on a known phase does not change the first unknown phase |
| Channels.BucketsPartition | dbus_smappee.py:125-127 | with known phases, the three buckets together are a permutation of the channels |
| Channels.AllocPlanOk | dbus_smappee.py:129-139 | the pairing loop's normal exit, with meter `k` built from the `k`-th channel of each bucket, is the closed form's result |
| Channels.AllocPlanPadded | dbus_smappee.py:129-135 | reaching an index some bucket pads is the closed form's `PaddedSlot` error at that index |
| Channels.AllocSucceedsIff | dbus_smappee.py:125-135 | allocation succeeds exactly when every phase is known and every bucket reaches every index the loop visits |
| Channels.AllocShape | dbus_smappee.py:129-137 | gives `min(n, longest bucket)` meters; meter `c` has instance `c + offset` and three cts, slot `s` from the `c`-th channel on phase `s` |
| Channels.AllocInstancesIncrease | dbus_smappee.py:137 | instances lie in `[offset, offset + count)` and strictly increase |
| Channels.AllocCtsOnTheirPhase | dbus_smappee.py:129-135 | every ct in slot `s` is the ct input of an input channel on phase `s` |
| Channels.CtInputsPartition | dbus_smappee.py:125-127 | with known phases, the ct inputs of the three buckets together are those of the channels, each as often |
| Channels.SlotsOfBuckets | dbus_smappee.py:129-135 | meters built slot by slot from three equal buckets hold, across their slots, exactly the buckets' ct inputs |
| Channels.UnboundedAllocUsesEveryChannel | dbus_smappee.py:129-139 | without a cap, success means three equal buckets of a third of the channels each, and the ct inputs across all meter slots are the channels' ct inputs, each as often as it occurs |
| Channels.AllocEmpty | dbus_smappee.py:124-139 | no channels, or a cap of zero with known phases, give no meters |
| Channels.AllocThreePhaseScenario | dbus_smappee.py:121-139 | cts 1, 2, 3 on phases 0, 1, 2 with cap 1 and offset 50 give the single meter 50 over [1, 2, 3] |
| Channels.AllocUnevenBucketsFail | dbus_smappee.py:129-135 | buckets of 3, 2 and 1 raise at pairing index 1 instead of giving partial meters |
| DbusService.Performed | dbus_smappee.py:83-85 | a run of requests sends no more writes than were requested, and only requested ones |
| DbusService.ApplyAllConcat | dbus_smappee.py:83-85 | two runs of requests, one after the other, act like their concatenation on both the store and the writes sent |
| DbusService.ApplyAllUntouched | dbus_smappee.py:83-85 | a path no request addresses keeps its value |
| DbusService.NotAddedUnlessWritten | dbus_smappee.py:83-85 | a path the store lacks and no request addresses stays absent |
| DbusService.ApplyAllWritten | dbus_smappee.py:83-85 | with distinct paths, every requested path ends up holding its requested value |
| DbusService.SettledWritesNothing | dbus_smappee.py:83-85 | requests that match what is stored send nothing and change nothing |
| DbusService.ReplayWritesNothing | dbus_smappee.py:83-85 | repeating requests on distinct paths sends nothing and leaves the store as it was |
| DbusService.PerformedIsChanged | dbus_smappee.py:83-85 | for distinct paths, exactly the requests whose value differs from the stored one are sent |
| DbusService.DistinctConcat | dbus_smappee.py:92-106 | two request lists with distinct and disjoint paths concatenate to one with distinct paths |
| DbusService.StepsNone | dbus_smappee.py:83-85 | no requests leave the store and the writes sent unchanged |
| DbusService.StepsSnoc | dbus_smappee.py:83-85 | one more request yields the store with that value and one more write exactly when it differs |
| DbusService.StepsConcat | dbus_smappee.py:83-85 | two runs of requests compose into the run of their concatenation |
| SmappeeMeter.ToKWh | dbus_smappee.py:94-95 | floor division by 3600000: the result in kWh times 3600000 is within one kWh below the joules |
| SmappeeMeter.RegisteredAreListed | dbus_smappee.py:46-81 | every path the model's meters can address is one the constructor registers |
| SmappeeMeter.RegisteredGroups | dbus_smappee.py:46-81 | the registered paths are the identity and debug items, the three totals and three lines of five items |
| SmappeeMeter.RegisteredCount | dbus_smappee.py:46-81 | the 28 `add_path` calls register 28 distinct paths |
| SmappeeMeter.ListedAreAddressable | dbus_smappee.py:46-81 | every registered path is a fixed item or an item of lines 1 to 3 |
| SmappeeMeter.InitialServiceKeys | dbus_smappee.py:46-81 | a new service has 28 paths, and a path is in it exactly when it is a fixed item or an item of lines 1 to 3 |
| SmappeeMeter.InitialServiceEmpty | dbus_smappee.py:61-78 | every line and total item starts as `None` |
| SmappeeMeter.InitialServiceRegisters | dbus_smappee.py:46-81 | a new service holds every line, total and identity path |
| SmappeeMeter.FirstMissing | dbus_smappee.py:89-91 | the first slot whose ct has no reading: all before it have one, it has none |
| SmappeeMeter.MissingCt | dbus_smappee.py:91 | the `KeyError` key is one of the meter's cts and has no reading |
| SmappeeMeter.FirstMissingIffAllRead | dbus_smappee.py:89-91 | no slot is missing exactly when every ct has a reading |
| SmappeeMeter.SlotWritesPaths | dbus_smappee.py:92-97 | the five requests of a slot address that slot's five items, each once |
| SmappeeMeter.SlotWriteAt | dbus_smappee.py:93-97 | item `f` of a slot is requested with the value its reading and voltage give |
| SmappeeMeter.LinesPlanLength | dbus_smappee.py:89-97 | five requests per processed slot |
| SmappeeMeter.LinesPlanPaths | dbus_smappee.py:89-97 | the line requests of the first `k` slots have distinct paths, all lines below `k` |
| SmappeeMeter.LinesPlanAt | dbus_smappee.py:89-97 | item `f` of slot `i` is requested at position `5i + index(f)` with its reading's value |
| SmappeeMeter.UpdateOkIffAllRead | dbus_smappee.py:87-106 | `update` returns normally exactly when every ct has a reading |
| SmappeeMeter.UpdatePlanPaths | dbus_smappee.py:87-106 | one `update` addresses no path twice, and no line at or after the first missing ct |
| SmappeeMeter.UpdateLineValue | dbus_smappee.py:89-97 | after `update`, each item of every line before the first missing ct holds its reading's value; a voltage with no entry holds `None` |
| SmappeeMeter.UpdateVoltage | dbus_smappee.py:97 | a processed line's voltage is its phase's entry, or `None` when the phase has none |
| SmappeeMeter.UpdateLeavesLaterLines | dbus_smappee.py:89-91 | lines from the first missing ct on keep their values |
| SmappeeMeter.UpdateTotals | dbus_smappee.py:99-106 | with every reading present, `/Ac/Power` holds the sum of powers and the energy totals the conversion of the summed joules |
| SmappeeMeter.UpdateFailureKeepsTotals | dbus_smappee.py:87-106 | when a reading is missing, the three totals keep their values |
| SmappeeMeter.UpdateLeavesOtherPaths | dbus_smappee.py:87-106 | `update` changes no identity, firmware or serial path |
| SmappeeMeter.UpdateTwiceWritesNothing | dbus_smappee.py:83-106 | a second identical `update` sends nothing and leaves the store as the first left it |
| SmappeeMeter.UpdateSendsOnlyChanges | dbus_smappee.py:83-106 | an `update` sends exactly the items whose value changed |
| SmappeeMeter.Meter.constructor | dbus_smappee.py:39-81 | a new meter keeps its instance and cts, holds the registered paths at their initial values, and has sent nothing |
| SmappeeMeter.Meter.SetPath | dbus_smappee.py:83-85 | the path holds the value afterwards; a write is sent only when the value differs |
| SmappeeMeter.Meter.PublishLine | dbus_smappee.py:92-97 | the five `set_path` calls of a slot are that slot's five requests, applied in order |
| SmappeeMeter.Meter.PublishTotals | dbus_smappee.py:104-106 | the three totals calls are the total requests, applied in order |
| SmappeeMeter.Meter.PublishSlot | dbus_smappee.py:89-97 | one loop pass extends the line requests made so far by the slot's five |
| SmappeeMeter.Meter.Update | dbus_smappee.py:87-106 | returns normally exactly when every ct has a reading; store and writes sent are those of `UpdatePlan`, a partial run up to the missing ct when it raises |
| SmappeeBridge.IndexKeys | dbus_smappee.py:170-171 | the keys of `dict(pairs)` are exactly the keys the entries carry |
| SmappeeBridge.IndexLastWins | dbus_smappee.py:170-171 | in `dict(pairs)` the last entry for a key gives its value |
| SmappeeBridge.RealtimeIndexes | dbus_smappee.py:170-171 | a ct, or a phase, is a key exactly when some entry names it, and the last reading for a ct is its value |
| SmappeeBridge.SuffixesExclusive | dbus_smappee.py:149-166 | no topic ends in both `/channelConfig` and `/realtime` |
| SmappeeBridge.TypedRoles | dbus_smappee.py:152-162 | meters allocated from one channel type are numbered from their offset and have three cts from channels of that type on their phase |
| SmappeeBridge.CappedAllocCount | dbus_smappee.py:158-159 | the consumption allocation with cap 1 gives one meter exactly when there is a consumption channel |
| SmappeeBridge.ConfigRoles | dbus_smappee.py:148-164 | the list after a configuration is the consumption meter at 50 (if any), then production meters from 51, each over channels of its type; only the consumption part when production raised; instances increase |
| SmappeeBridge.ConfigsOfConcat | dbus_smappee.py:160-162 | `extend` appends the new meters' configurations |
| SmappeeBridge.ConsecutiveConcat | dbus_smappee.py:157-162 | a run numbered consecutively from 50, followed by one from 51, stays consecutive |
| SmappeeBridge.FirstFailure | dbus_smappee.py:172-173 | the first meter whose update raises: all before it have all their readings, it lacks one |
| SmappeeBridge.FirstFailureIs | dbus_smappee.py:172-173 | the loop's exit index is that first failure |
| SmappeeBridge.UpdatePlans | dbus_smappee.py:172-173 | one request list per meter |
| SmappeeBridge.UpdatePlansAt | dbus_smappee.py:172-173 | meter `j`'s request list is its `update`'s |
| SmappeeBridge.RealtimeWritesDistinct | dbus_smappee.py:172-178 | no meter sees two requests for the same path in one realtime message |
| SmappeeBridge.UpdateWritesOnlyMeterValues | dbus_smappee.py:87-106 | `update` addresses only line and total paths, never firmware or serial |
| SmappeeBridge.RealtimeSetsDeviceInfo | dbus_smappee.py:176-178 | when no meter raised, every meter holds the message's firmware version and serial |
| SmappeeBridge.RealtimeLineValue | dbus_smappee.py:172-173 | every meter up to and including the one that raised holds its readings' values on the lines before its missing ct |
| SmappeeBridge.RealtimeSkipsLaterMeters | dbus_smappee.py:172-173 | meters after the one that raised are neither written nor changed |
| SmappeeBridge.RealtimeFailureKeepsDeviceInfo | dbus_smappee.py:172-178 | when a meter raises, no meter's firmware version or serial changes |
| SmappeeBridge.RealtimeReplayWritesNothing | dbus_smappee.py:166-178 | handling the same realtime message twice sends nothing the second time |
| SmappeeBridge.FailureStage | dbus_smappee.py:172-178 | when meter `f` raises, each meter up to `f` sees exactly its update's requests, and later meters none |
| SmappeeBridge.SuccessStage | dbus_smappee.py:172-178 | when none raises, each meter sees its update's requests and then firmware and serial |
| SmappeeBridge.Bridge.constructor | dbus_smappee.py:115-119 | a new bridge keeps the host and has no meters |
| SmappeeBridge.Bridge.AllocateMeters | dbus_smappee.py:121-139 | succeeds and fails exactly as `AllocPlan`, with its error; the meters are fresh, registered, carry its configurations and are numbered from the offset |
| SmappeeBridge.Bridge.PairMeters | dbus_smappee.py:129-139 | raises exactly when the shortest bucket is shorter than the visit count, at that index; otherwise meter `k` from the `k`-th channel of each bucket, numbered `k + offset` |
| SmappeeBridge.UpdateAt | dbus_smappee.py:173 | one `meter.update` returns as `AllRead` says, makes its plan's requests, and touches no other meter |
| SmappeeBridge.UpdateMeters | dbus_smappee.py:172-173 | stops at the first meter that raises; the meters up to it made their updates' requests, those after it are unchanged |
| SmappeeBridge.SetDeviceAt | dbus_smappee.py:177-178 | one meter gets the firmware and serial requests, and no other meter changes |
| SmappeeBridge.SetDeviceInfo | dbus_smappee.py:176-178 | every meter gets the firmware and serial requests |
| SmappeeBridge.HandleRealtime | dbus_smappee.py:172-178 | returns the first failure; every meter went through exactly its `RealtimeStage` requests |
| SmappeeBridge.Bridge.OnChannelConfig | dbus_smappee.py:149-164 | the resulting list and outcome are `ConfigPlan`'s: kept on a consumption raise, consumption only on a production raise; new meters are fresh and registered with their role's name |
| SmappeeBridge.Bridge.OnRealtime | dbus_smappee.py:166-178 | raises `KeyError` on the first missing ct of the first failing meter, else passes; every meter went through its `RealtimeStage` requests; the list and invariant are kept |
| SmappeeBridge.Bridge.OnMessage | dbus_smappee.py:141-178 | a malformed payload or another topic changes nothing; a missing key raises it; otherwise it does what the configuration or realtime handler does |

## Left out

- dbus-pzem.py is not part of this model. It is a separate program.
- D-Bus plumbing is not modelled:
  - the `SystemBus`/`SessionBus` classes and `dbusconnection` (:25-34);
  - service naming from `base`, `base2` and the instance (:42-43, :137);
  - the `gettextcallback` formatters (:56-59);
  - `__repr__` and `__del__` (:108-112).

  A service is modelled as its store of path values, plus the log of writes it
  sent.
- The MQTT client, `_on_connect` subscriptions (:180-182) and `main` (:184-198)
  are I/O.
- `json.loads` is not modelled. A payload is either `Malformed` (logged and
  ignored) or a decoded `Document` with the fields the bridge reads. Values of
  the wrong JSON type are not modelled, and neither are these missing keys: a
  channel without `phase` or `inputChannelType` (:126, :153-155) or without
  `ctInput` (:135); a reading without `current`, `importEnergy`, `exportEnergy` or
  `power` (:93-101); a voltage entry without `phaseId` or `voltage` (:170); a
  reading without `ctInput` (:171).
- SmappeeMeter.ToKWh: integer joules only. Float readings and `round(..., 1)` to
  one decimal are not modelled, because Dafny has no floating point here. With
  integer input under Python 2, `x/3600000` is floor division, which is what is
  modelled.
- `__file__` is the constant `dbus_smappee.py`, because the script's install path
  is not known.
- Meter objects created before an allocation raises are discarded, and their
  D-Bus registrations are not modelled.
- SmappeeMeter.Meter.constructor: requires at most three cts. Only `/Ac/L1..L3`
  exist, and allocation always gives exactly three.
- The log of writes sent is a model artifact. It stands for the traffic a
  `VeDbusService` assignment emits.
