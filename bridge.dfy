/**
 * The bridge (class `Bridge` in dbus_smappee.py): allocation of meter objects from the
 * input channels of a `channelConfig` message, and the dispatch of `realtime`
 * messages to every meter.
 */
module SmappeeBridge {
  import opened Wrappers
  import opened Channels
  import opened DbusService
  import opened SmappeeMeter

  /** DeviceInstance of the consumption meter; production meters follow from 51. */
  const ConsumptionOffset := 50
  const ProductionOffset := 51

  /** What `_on_message` raises. */
  datatype HandlerError =
    | MissingKey(key: string)    // `data[key]` on a document without that key
    | Alloc(error: AllocError)   // raised by `_allocate_meters`
    | MissingReading(ct: int)    // `powers[ct]` in `Meter.update`

  /** One entry of a realtime message's `voltages` list. */
  datatype VoltageEntry = VoltageEntry(phaseId: int, voltage: int)

  /** The fields of a decoded message the bridge looks at; an absent key is `None`. */
  datatype Document = Document(
    inputChannels: Option<seq<Channel>>,
    voltages: Option<seq<VoltageEntry>>,
    channelPowers: Option<seq<Reading>>,
    firmwareVersion: Value,
    serialNr: Value)

  /** An MQTT payload: text `json.loads` rejects, or a decoded document. */
  datatype Payload = Malformed | Json(doc: Document)

  predicate EndsWith(s: string, suffix: string) {
    |suffix| <= |s| && s[|s| - |suffix|..] == suffix
  }

  /** No request later in `pairs` than `i` has the key of entry `i`. */
  predicate LastFor<K(==), V>(pairs: seq<(K, V)>, i: nat)
    requires i < |pairs|
  {
    forall j :: i < j < |pairs| ==> pairs[j].0 != pairs[i].0
  }

  /** `dict(pairs)`: each entry in turn sets its key to its value. */
  function Index<K(==), V>(pairs: seq<(K, V)>): map<K, V>
    decreases |pairs|
  {
    if pairs == [] then map[] else Index(pairs[..|pairs| - 1])[pairs[|pairs| - 1].0 := pairs[|pairs| - 1].1]
  }

  /** The keys of `dict(pairs)` are exactly the keys the entries carry. */
  lemma {:induction false} IndexKeys<K, V>(pairs: seq<(K, V)>, k: K)
    ensures k in Index(pairs) <==> exists i :: 0 <= i < |pairs| && pairs[i].0 == k
    decreases |pairs|
  {
    if pairs != [] {
      var init := pairs[..|pairs| - 1];
      IndexKeys(init, k);
      if k in Index(pairs) {
        if k == pairs[|pairs| - 1].0 {
          assert pairs[|pairs| - 1].0 == k;
        } else {
          var i :| 0 <= i < |init| && init[i].0 == k;
          assert pairs[i] == init[i];
        }
      } else {
        forall i | 0 <= i < |pairs| ensures pairs[i].0 != k {
          if i < |init| {
            assert pairs[i] == init[i];
          }
        }
      }
    }
  }

  /** In `dict(pairs)` the last entry for a key wins. */
  lemma {:induction false} IndexLastWins<K, V>(pairs: seq<(K, V)>, i: nat)
    requires i < |pairs| && LastFor(pairs, i)
    ensures pairs[i].0 in Index(pairs) && Index(pairs)[pairs[i].0] == pairs[i].1
    decreases |pairs|
  {
    if i < |pairs| - 1 {
      var init := pairs[..|pairs| - 1];
      assert init[i] == pairs[i];
      assert LastFor(init, i) by {
        forall j | i < j < |init| ensures init[j].0 != init[i].0 {
          assert init[j] == pairs[j];
        }
      }
      IndexLastWins(init, i);
    }
  }

  /** The voltage of each `phaseId`. */
  function VoltagePairs(entries: seq<VoltageEntry>): seq<(int, int)>
  {
    seq(|entries|, i requires 0 <= i < |entries| => (entries[i].phaseId, entries[i].voltage))
  }

  /** The whole reading of each `ctInput`. */
  function PowerPairs(entries: seq<Reading>): seq<(int, Reading)>
  {
    seq(|entries|, i requires 0 <= i < |entries| => (entries[i].ctInput, entries[i]))
  }

  /** A topic cannot end in both suffixes, so the order of the two tests does not matter. */
  lemma SuffixesExclusive(topic: string)
    ensures !(EndsWith(topic, "/channelConfig") && EndsWith(topic, "/realtime"))
  {
    if EndsWith(topic, "/channelConfig") {
      assert topic[|topic| - 1] == topic[|topic| - 14..][13] == 'g';
    }
  }

  /** The meter list `_on_message` leaves for a `channelConfig` message. */
  datatype ConfigOutcome =
    | Kept(error: AllocError)                                // consumption allocation raised
    | Replaced(configs: seq<MeterConfig>, raised: Option<AllocError>)

  /**
   * `self.meters` becomes at most one consumption meter from instance 50; then the
   * production meters from 51 are appended. A raise in the first allocation leaves
   * the list as it was; one in the second leaves just the consumption meter.
   */
  function ConfigPlan(channels: seq<Channel>): ConfigOutcome {
    match AllocPlan(OfType(channels, Consumption), Some(1), ConsumptionOffset)
    case Err(e) => Kept(e)
    case Ok(cons) =>
      match AllocPlan(OfType(channels, Production), None, ProductionOffset)
      case Err(e) => Replaced(cons, Some(e))
      case Ok(prod) => Replaced(cons + prod, None)
  }

  /** How many consumption meters a successful configuration has. */
  function ConsumptionCount(channels: seq<Channel>): nat {
    if OfType(channels, Consumption) == [] then 0 else 1
  }

  /** Every ct in slot `s` of `cfg` is the ct input of a channel of type `t` on phase `s`. */
  predicate FromChannels(cfg: MeterConfig, channels: seq<Channel>, t: ChannelType) {
    forall s :: 0 <= s < |cfg.cts| ==>
      exists x :: x in channels && x.channelType == t && x.phase == s && x.ctInput == cfg.cts[s]
  }

  /**
   * The meters allocated over the channels of one type: meter `c` is numbered
   * `c + offset` and has three cts, each from a channel of that type on its phase.
   */
  lemma TypedRoles(channels: seq<Channel>, t: ChannelType, n: Option<nat>, offset: int)
    requires AllocPlan(OfType(channels, t), n, offset).Ok?
    ensures var r := AllocPlan(OfType(channels, t), n, offset).value;
            forall c :: 0 <= c < |r| ==>
              r[c].instance == c + offset && |r[c].cts| == 3 && FromChannels(r[c], channels, t)
  {
    var typed := OfType(channels, t);
    AllocShape(typed, n, offset);
    AllocCtsOnTheirPhase(typed, n, offset);
  }

  /** With its phases known, one allocation capped at one meter gives a meter iff it has a channel. */
  lemma {:induction false} CappedAllocCount(channels: seq<Channel>, offset: int)
    requires AllocPlan(channels, Some(1), offset).Ok?
    ensures |AllocPlan(channels, Some(1), offset).value| == if channels == [] then 0 else 1
  {
    BucketsPartition(channels);
    AllocShape(channels, Some(1), offset);
  }

  /**
   * The meters of a configuration that does not leave the list alone: every meter
   * has three cts; the first (if there is a consumption channel) is the consumption
   * meter at instance 50 over consumption channels, and the rest are production
   * meters numbered from 51 over production channels — none when that allocation
   * raised. Instances therefore strictly increase.
   */
  lemma ConfigRoles(channels: seq<Channel>)
    requires ConfigPlan(channels).Replaced?
    ensures var cfgs := ConfigPlan(channels).configs;
            var k := ConsumptionCount(channels);
            k <= |cfgs| &&
            (ConfigPlan(channels).raised.Some? ==> |cfgs| == k) &&
            (forall i :: 0 <= i < |cfgs| ==> |cfgs[i].cts| == 3) &&
            (forall i :: 0 <= i < k ==> cfgs[i].instance == ConsumptionOffset && FromChannels(cfgs[i], channels, Consumption)) &&
            (forall i :: k <= i < |cfgs| ==>
               cfgs[i].instance == ProductionOffset + (i - k) && FromChannels(cfgs[i], channels, Production)) &&
            forall i, j :: 0 <= i < j < |cfgs| ==> cfgs[i].instance < cfgs[j].instance
  {
    var consCh := OfType(channels, Consumption);
    var cons := AllocPlan(consCh, Some(1), ConsumptionOffset).value;
    var prodPlan := AllocPlan(OfType(channels, Production), None, ProductionOffset);
    if prodPlan.Ok? {
      var prod := prodPlan.value;
      var cfgs := cons + prod;
      assert forall i :: |cons| <= i < |cfgs| ==> cfgs[i] == prod[i - |cons|];
      TypedRoles(channels, Production, None, ProductionOffset);
    }
    CappedAllocCount(consCh, ConsumptionOffset);
    TypedRoles(channels, Consumption, Some(1), ConsumptionOffset);
  }

  /** The configurations of a list of meters. */
  function ConfigsOf(ms: seq<Meter>): seq<MeterConfig>
  {
    seq(|ms|, i requires 0 <= i < |ms| => MeterConfig(ms[i].instance, ms[i].cts))
  }

  /**
   * The meters' instances run consecutively from the first one: 50, 51, ... with a
   * consumption meter, 51, 52, ... without. In particular no meter occurs twice.
   */
  predicate Consecutive(ms: seq<Meter>) {
    forall i :: 0 <= i < |ms| ==> ms[i].instance == ms[0].instance + i
  }

  lemma ConfigsOfConcat(a: seq<Meter>, b: seq<Meter>)
    ensures ConfigsOf(a + b) == ConfigsOf(a) + ConfigsOf(b)
  {
    assert forall i :: 0 <= i < |a + b| ==> ConfigsOf(a + b)[i] == (ConfigsOf(a) + ConfigsOf(b))[i];
  }

  /** A run of meters followed by the run that continues its numbering. */
  lemma ConsecutiveConcat(a: seq<Meter>, b: seq<Meter>)
    requires Consecutive(a) && Consecutive(b)
    requires |a| > 0 && |b| > 0 ==> b[0].instance == a[0].instance + |a|
    ensures Consecutive(a + b)
  {
    forall i | 0 <= i < |a + b| ensures (a + b)[i].instance == (a + b)[0].instance + i {
      if i >= |a| {
        assert (a + b)[i] == b[i - |a|];
      }
    }
  }

  /** The cts of every meter, in list order. */
  function CtsOf(ms: seq<Meter>): seq<seq<int>>
  {
    seq(|ms|, i requires 0 <= i < |ms| => ms[i].cts)
  }

  /** The index of the first meter whose `update` raises, or the number of meters. */
  function FirstFailure(ctsList: seq<seq<int>>, powers: map<int, Reading>): (f: nat)
    ensures f <= |ctsList|
    ensures forall j :: 0 <= j < f ==> AllRead(ctsList[j], powers)
    ensures f < |ctsList| ==> !AllRead(ctsList[f], powers)
    decreases |ctsList|
  {
    if ctsList == [] || !AllRead(ctsList[0], powers) then 0
    else 1 + FirstFailure(ctsList[1..], powers)
  }

  /** The firmware and serial requests made of every meter once all updates returned. */
  function DeviceWrites(firmware: Value, serial: Value): seq<Write> {
    [Write(FirmwareVersion, firmware), Write(Serial, serial)]
  }

  /** The requests the update of each meter makes. */
  function UpdatePlans(ctsList: seq<seq<int>>, voltages: map<int, int>, powers: map<int, Reading>): (r: seq<seq<Write>>)
    ensures |r| == |ctsList|
    decreases |ctsList|
  {
    if ctsList == [] then []
    else UpdatePlans(ctsList[..|ctsList| - 1], voltages, powers) + [UpdatePlan(ctsList[|ctsList| - 1], voltages, powers).writes]
  }

  lemma {:induction false} UpdatePlansAt(ctsList: seq<seq<int>>, voltages: map<int, int>, powers: map<int, Reading>, j: nat)
    requires j < |ctsList|
    ensures UpdatePlans(ctsList, voltages, powers)[j] == UpdatePlan(ctsList[j], voltages, powers).writes
    decreases |ctsList|
  {
    if j < |ctsList| - 1 {
      UpdatePlansAt(ctsList[..|ctsList| - 1], voltages, powers, j);
    }
  }

  /**
   * The requests a realtime message makes of meter `j`: all of its update up to the
   * first meter that raises, whose update stops at its missing ct; nothing for the
   * meters after it; firmware and serial only when no meter raised.
   */
  function RealtimeWrites(ctsList: seq<seq<int>>, j: nat, voltages: map<int, int>, powers: map<int, Reading>,
                          firmware: Value, serial: Value): seq<Write>
    requires j < |ctsList|
  {
    var f := FirstFailure(ctsList, powers);
    if j > f then []
    else UpdatePlans(ctsList, voltages, powers)[j] + (if f == |ctsList| then DeviceWrites(firmware, serial) else [])
  }

  lemma RealtimeWritesDistinct(ctsList: seq<seq<int>>, j: nat, voltages: map<int, int>, powers: map<int, Reading>,
                               firmware: Value, serial: Value)
    requires j < |ctsList|
    ensures DistinctPaths(RealtimeWrites(ctsList, j, voltages, powers, firmware, serial))
  {
    var f := FirstFailure(ctsList, powers);
    if j <= f {
      var a := UpdatePlan(ctsList[j], voltages, powers).writes;
      UpdatePlansAt(ctsList, voltages, powers, j);
      UpdatePlanPaths(ctsList[j], voltages, powers);
      if f == |ctsList| {
        var b := DeviceWrites(firmware, serial);
        forall x, y | 0 <= x < |a| && 0 <= y < |b| ensures a[x].path != b[y].path {
          UpdateWritesOnlyMeterValues(ctsList[j], voltages, powers, x);
        }
        DistinctConcat(a, b);
      } else {
        assert a + [] == a;
      }
    }
  }

  /** `update` addresses only line and total paths. */
  lemma UpdateWritesOnlyMeterValues(cts: seq<int>, voltages: map<int, int>, powers: map<int, Reading>, x: nat)
    requires x < |UpdatePlan(cts, voltages, powers).writes|
    ensures var p := UpdatePlan(cts, voltages, powers).writes[x].path;
            p.Line? || p == Power || p == EnergyForward || p == EnergyReverse
  {
    var m := FirstMissing(cts, powers);
    LinesPlanPaths(cts, voltages, powers, m);
    LinesPlanLength(cts, voltages, powers, m);
    if x < 5 * m {
      assert UpdatePlan(cts, voltages, powers).writes[x] == LinesPlan(cts, voltages, powers, m)[x];
    }
  }

  /**
   * After a realtime message in which no meter raised, every meter holds the firmware
   * version and serial number of the message.
   */
  lemma RealtimeSetsDeviceInfo(svc: Store, ctsList: seq<seq<int>>, j: nat, voltages: map<int, int>,
                               powers: map<int, Reading>, firmware: Value, serial: Value)
    requires j < |ctsList| && FirstFailure(ctsList, powers) == |ctsList|
    ensures var after := ApplyAll(svc, RealtimeWrites(ctsList, j, voltages, powers, firmware, serial));
            FirmwareVersion in after && Serial in after &&
            after[FirmwareVersion] == firmware && after[Serial] == serial
  {
    var ws := RealtimeWrites(ctsList, j, voltages, powers, firmware, serial);
    var n := |UpdatePlan(ctsList[j], voltages, powers).writes|;
    UpdatePlansAt(ctsList, voltages, powers, j);
    RealtimeWritesDistinct(ctsList, j, voltages, powers, firmware, serial);
    ApplyAllWritten(svc, ws, n);
    ApplyAllWritten(svc, ws, n + 1);
  }

  /**
   * A meter the message reaches, including the one whose update raises, holds the
   * values of every line before its first missing ct.
   */
  lemma RealtimeLineValue(svc: Store, ctsList: seq<seq<int>>, j: nat, voltages: map<int, int>,
                          powers: map<int, Reading>, firmware: Value, serial: Value, i: nat, f: LineField)
    requires j < |ctsList| && j <= FirstFailure(ctsList, powers)
    requires i < FirstMissing(ctsList[j], powers)
    ensures var after := ApplyAll(svc, RealtimeWrites(ctsList, j, voltages, powers, firmware, serial));
            Line(i, f) in after && after[Line(i, f)] == LineValue(powers[ctsList[j][i]], voltages, i, f)
  {
    var cts := ctsList[j];
    var ws := RealtimeWrites(ctsList, j, voltages, powers, firmware, serial);
    var plan := UpdatePlan(cts, voltages, powers).writes;
    var m := FirstMissing(cts, powers);
    LinesPlanAt(cts, voltages, powers, m, i, f);
    var k := 5 * i + FieldIndex(f);
    UpdatePlansAt(ctsList, voltages, powers, j);
    assert plan[k] == LinesPlan(cts, voltages, powers, m)[k];
    assert ws[k] == plan[k];
    RealtimeWritesDistinct(ctsList, j, voltages, powers, firmware, serial);
    ApplyAllWritten(svc, ws, k);
  }

  /** The meters after the first one that raises are left exactly as they were. */
  lemma RealtimeSkipsLaterMeters(svc: Store, ctsList: seq<seq<int>>, j: nat, voltages: map<int, int>,
                                 powers: map<int, Reading>, firmware: Value, serial: Value)
    requires FirstFailure(ctsList, powers) < j < |ctsList|
    ensures var ws := RealtimeWrites(ctsList, j, voltages, powers, firmware, serial);
            ApplyAll(svc, ws) == svc && Performed(svc, ws) == []
  {
  }

  /** When a meter raises, no meter's firmware version or serial number changes. */
  lemma RealtimeFailureKeepsDeviceInfo(svc: Store, ctsList: seq<seq<int>>, j: nat, voltages: map<int, int>,
                                       powers: map<int, Reading>, firmware: Value, serial: Value, p: Path)
    requires j < |ctsList| && FirstFailure(ctsList, powers) < |ctsList|
    requires p in svc && (p == FirmwareVersion || p == Serial)
    ensures var after := ApplyAll(svc, RealtimeWrites(ctsList, j, voltages, powers, firmware, serial));
            p in after && after[p] == svc[p]
  {
    var ws := RealtimeWrites(ctsList, j, voltages, powers, firmware, serial);
    if j <= FirstFailure(ctsList, powers) {
      UpdatePlansAt(ctsList, voltages, powers, j);
      assert ws == UpdatePlan(ctsList[j], voltages, powers).writes;
      UpdateLeavesOtherPaths(svc, ctsList[j], voltages, powers, p);
    } else {
      assert ws == [];
    }
  }

  /** Handling the same realtime message a second time sends no write to any meter. */
  lemma RealtimeReplayWritesNothing(svc: Store, ctsList: seq<seq<int>>, j: nat, voltages: map<int, int>,
                                    powers: map<int, Reading>, firmware: Value, serial: Value)
    requires j < |ctsList|
    ensures var ws := RealtimeWrites(ctsList, j, voltages, powers, firmware, serial);
            Performed(ApplyAll(svc, ws), ws) == [] && ApplyAll(ApplyAll(svc, ws), ws) == ApplyAll(svc, ws)
  {
    RealtimeWritesDistinct(ctsList, j, voltages, powers, firmware, serial);
    ReplayWritesNothing(svc, RealtimeWrites(ctsList, j, voltages, powers, firmware, serial));
  }

  /** What a realtime message requests of each meter. */
  function RealtimeStage(ctsList: seq<seq<int>>, voltages: map<int, int>, powers: map<int, Reading>,
                         firmware: Value, serial: Value): (r: seq<seq<Write>>)
    ensures |r| == |ctsList|
  {
    seq(|ctsList|, j requires 0 <= j < |ctsList| => RealtimeWrites(ctsList, j, voltages, powers, firmware, serial))
  }

  /** What `_on_message` does with a message: the route its tests take. */
  datatype Route =
    | Drop                                   // malformed payload: logged and ignored
    | Config(channels: seq<Channel>)
    | Realtime(voltages: map<int, int>, powers: map<int, Reading>, firmware: Value, serial: Value)
    | Missing(key: string)                   // a key the route needs is absent
    | Ignore                                 // any other topic

  function RouteOf(topic: string, payload: Payload): Route {
    match payload
    case Malformed => Drop
    case Json(doc) =>
      if EndsWith(topic, "/channelConfig") then
        if doc.inputChannels.None? then Missing("inputChannels") else Config(doc.inputChannels.value)
      else if EndsWith(topic, "/realtime") then
        if doc.voltages.None? then Missing("voltages")
        else if doc.channelPowers.None? then Missing("channelPowers")
        else Realtime(Index(VoltagePairs(doc.voltages.value)), Index(PowerPairs(doc.channelPowers.value)),
                      doc.firmwareVersion, doc.serialNr)
      else Ignore
  }

  /** The realtime dictionaries: each phase's latest voltage and each ct's latest reading. */
  lemma RealtimeIndexes(entries: seq<VoltageEntry>, readings: seq<Reading>, ct: int, phase: int)
    ensures ct in Index(PowerPairs(readings)) <==> exists i :: 0 <= i < |readings| && readings[i].ctInput == ct
    ensures phase in Index(VoltagePairs(entries)) <==> exists i :: 0 <= i < |entries| && entries[i].phaseId == phase
    ensures forall i :: 0 <= i < |readings| && LastFor(PowerPairs(readings), i) ==>
              readings[i].ctInput in Index(PowerPairs(readings)) && Index(PowerPairs(readings))[readings[i].ctInput] == readings[i]
  {
    var pp := PowerPairs(readings);
    var vp := VoltagePairs(entries);
    IndexKeys(pp, ct);
    IndexKeys(vp, phase);
    assert |pp| == |readings| && |vp| == |entries|;
    assert forall i :: 0 <= i < |readings| ==> pp[i].0 == readings[i].ctInput;
    assert forall i :: 0 <= i < |entries| ==> vp[i].0 == entries[i].phaseId;
    forall i | 0 <= i < |readings| && LastFor(pp, i)
      ensures readings[i].ctInput in Index(pp) && Index(pp)[readings[i].ctInput] == readings[i]
    {
      IndexLastWins(pp, i);
      assert pp[i] == (readings[i].ctInput, readings[i]);
    }
  }

  class Bridge {
    const host: string
    var meters: seq<Meter>

    ghost predicate Valid()
      reads this, meters
    {
      AllValid(meters) && Consecutive(meters)
    }

    constructor (host: string)
      ensures Valid() && this.host == host && meters == []
    {
      this.host := host;
      meters := [];
    }

    /**
     * Allocates up to `n` meters from `channels`, one channel per phase each: meter
     * `c` gets instance `c + offset`. The result is the closed form `AllocPlan`, every
     * meter a freshly registered service.
     */
    method AllocateMeters(name: string, channels: seq<Channel>, n: Option<nat>, offset: int)
      returns (r: Result<seq<Meter>, AllocError>)
      ensures r.Ok? <==> AllocPlan(channels, n, offset).Ok?
      ensures r.Err? ==> r.error == AllocPlan(channels, n, offset).error
      ensures r.Ok? ==> ConfigsOf(r.value) == AllocPlan(channels, n, offset).value
      ensures r.Ok? ==> forall i :: 0 <= i < |r.value| ==> fresh(r.value[i]) && r.value[i].Pristine(name, host)
      ensures r.Ok? ==> forall i :: 0 <= i < |r.value| ==> r.value[i].instance == offset + i
    {
      var grouped := GroupPhases(channels);
      if grouped.Err? {
        return Err(grouped.error);
      }
      r := PairMeters(name, grouped.value[0], grouped.value[1], grouped.value[2], n, offset);
      if r.Err? {
        AllocPlanPadded(channels, n, offset, r.error.index);
      } else {
        AllocPlanOk(channels, n, offset, ConfigsOf(r.value));
      }
    }

    /**
     * The pairing loop over the three phase buckets: meter `c` from the `c`-th
     * channel of each, until the cap `n` or the longest bucket is reached, raising
     * at the first index some bucket pads with `None`.
     */
    method PairMeters(name: string, b0: seq<Channel>, b1: seq<Channel>, b2: seq<Channel>, n: Option<nat>, offset: int)
      returns (r: Result<seq<Meter>, AllocError>)
      ensures var longest := Max3(|b0|, |b1|, |b2|);
              var count := if n.Some? && n.value < longest then n.value else longest;
              var complete := Min3(|b0|, |b1|, |b2|);
              (r.Err? <==> complete < count) && (r.Err? ==> r.error == PaddedSlot(complete)) &&
              (r.Ok? ==> |r.value| == count && complete >= count)
      ensures r.Ok? ==> forall k :: 0 <= k < |r.value| ==>
                k < |b0| && k < |b1| && k < |b2| &&
                MeterConfig(r.value[k].instance, r.value[k].cts) == MeterConfig(k + offset, [b0[k].ctInput, b1[k].ctInput, b2[k].ctInput])
      ensures r.Ok? ==> forall i :: 0 <= i < |r.value| ==> fresh(r.value[i]) && r.value[i].Pristine(name, host)
    {
      var longest := Max3(|b0|, |b1|, |b2|);
      var ms: seq<Meter> := [];
      var c := 0;
      while c < longest
        invariant c <= longest && c <= Min3(|b0|, |b1|, |b2|) && (n.Some? ==> c <= n.value)
        invariant |ms| == c
        invariant forall k :: 0 <= k < c ==>
                    MeterConfig(ms[k].instance, ms[k].cts) == MeterConfig(k + offset, [b0[k].ctInput, b1[k].ctInput, b2[k].ctInput])
        invariant forall k :: 0 <= k < c ==> fresh(ms[k]) && ms[k].Pristine(name, host)
      {
        if n.Some? && c >= n.value {
          break;
        }
        var x0, x1, x2 := Padded(b0, c), Padded(b1, c), Padded(b2, c);
        PaddedSlots(b0, b1, b2, c);
        if x0.None? || x1.None? || x2.None? {
          return Err(PaddedSlot(c));
        }
        var ids := [x0.value.ctInput, x1.value.ctInput, x2.value.ctInput];
        var m := new Meter(name, host, c + offset, ids);
        ms := ms + [m];
        c := c + 1;
      }
      r := Ok(ms);
    }

    /** The state `_on_message` leaves for a `channelConfig` message, and what it raises. */
    twostate predicate ConfigApplied(channels: seq<Channel>, new r: Outcome<HandlerError>)
      reads this, meters
    {
      match ConfigPlan(channels)
      case Kept(e) => r == Fail(Alloc(e)) && meters == old(meters)
      case Replaced(cfgs, raised) =>
        r == (if raised.Some? then Fail(Alloc(raised.value)) else Pass) &&
        ConfigsOf(meters) == cfgs &&
        forall i :: 0 <= i < |meters| ==>
          fresh(meters[i]) &&
          meters[i].Pristine(if i < ConsumptionCount(channels) then "Consumption" else "Production", host)
    }

    method OnChannelConfig(channels: seq<Channel>) returns (r: Outcome<HandlerError>)
      requires Valid()
      modifies this
      ensures Valid()
      ensures ConfigApplied(channels, r)
    {
      var consCh := OfType(channels, Consumption);
      var prodCh := OfType(channels, Production);
      var cons := AllocateMeters("Consumption", consCh, Some(1), ConsumptionOffset);
      if cons.Err? {
        return Fail(Alloc(cons.error));
      }
      CappedAllocCount(consCh, ConsumptionOffset);
      meters := cons.value;
      var prod := AllocateMeters("Production", prodCh, None, ProductionOffset);
      if prod.Err? {
        return Fail(Alloc(prod.error));
      }
      ConfigsOfConcat(cons.value, prod.value);
      ConsecutiveConcat(cons.value, prod.value);
      meters := meters + prod.value;
      r := Pass;
    }

    /** The state of every meter after a realtime message, and what it raises. */
    twostate predicate RealtimeApplied(voltages: map<int, int>, powers: map<int, Reading>,
                                       firmware: Value, serial: Value, new r: Outcome<HandlerError>)
      reads this, meters
    {
      var ctsList := CtsOf(meters);
      var f := FirstFailure(ctsList, powers);
      r == (if f < |meters| then Fail(MissingReading(MissingCt(ctsList[f], powers))) else Pass) &&
      Applied(RealtimeStage(ctsList, voltages, powers, firmware, serial))
    }

    /** Every meter `j` went from its state on entry through the requests `plans[j]`. */
    twostate predicate Applied(plans: seq<seq<Write>>)
      reads this, meters
    {
      |plans| == |meters| &&
      forall j :: 0 <= j < |meters| ==>
        var m := meters[j];
        old(allocated(m)) && Steps(old(m.service), old(m.log), plans[j], m.service, m.log)
    }

    /**
     * Handles a realtime message: every meter is updated in turn, stopping at the
     * first that raises; when none does, every meter gets the firmware version and
     * serial number.
     */
    method OnRealtime(voltages: map<int, int>, powers: map<int, Reading>, firmware: Value, serial: Value)
      returns (r: Outcome<HandlerError>)
      requires Valid()
      modifies meters
      ensures Valid()
      ensures RealtimeApplied(voltages, powers, firmware, serial, r)
    {
      var ms := meters;
      ghost var ctsList := CtsOf(ms);
      var failed := HandleRealtime(ms, voltages, powers, firmware, serial, ctsList,
                                   RealtimeStage(ctsList, voltages, powers, firmware, serial));
      if failed < |ms| {
        return Fail(MissingReading(MissingCt(ms[failed].cts, powers)));
      }
      r := Pass;
    }

    /** `_on_message`: decode, route by topic suffix, and handle. */
    method OnMessage(topic: string, payload: Payload) returns (r: Outcome<HandlerError>)
      requires Valid()
      modifies this, meters
      ensures Valid()
      ensures match RouteOf(topic, payload)
              case Drop => r == Pass && meters == old(meters) && unchanged(old(meters))
              case Ignore => r == Pass && meters == old(meters) && unchanged(old(meters))
              case Missing(key) => r == Fail(MissingKey(key)) && meters == old(meters) && unchanged(old(meters))
              case Config(channels) => ConfigApplied(channels, r) && unchanged(old(meters))
              case Realtime(voltages, powers, firmware, serial) =>
                meters == old(meters) && RealtimeApplied(voltages, powers, firmware, serial, r)
    {
      var route := RouteOf(topic, payload);
      match route
      case Drop => r := Pass;
      case Ignore => r := Pass;
      case Missing(key) => r := Fail(MissingKey(key));
      case Config(channels) => r := OnChannelConfig(channels);
      case Realtime(voltages, powers, firmware, serial) => r := OnRealtime(voltages, powers, firmware, serial);
    }
  }

  /** Every meter of `ms` is valid. */
  ghost predicate AllValid(ms: seq<Meter>)
    reads ms
  {
    forall j :: 0 <= j < |ms| ==> ms[j].Valid()
  }

  /**
   * The first loop of the realtime handler: `meter.update` for each meter until one
   * raises. `plans[j]` names the requests the update of meter `j` makes.
   */
  method UpdateMeters(ms: seq<Meter>, voltages: map<int, int>, powers: map<int, Reading>,
                      ghost ctsList: seq<seq<int>>, ghost plans: seq<seq<Write>>)
    returns (failed: nat)
    requires AllValid(ms) && Consecutive(ms)
    requires ctsList == CtsOf(ms) && plans == UpdatePlans(ctsList, voltages, powers)
    modifies ms
    ensures AllValid(ms)
    ensures failed == FirstFailure(ctsList, powers)
    ensures forall j :: 0 <= j <= failed && j < |ms| ==>
              Steps(old(ms[j].service), old(ms[j].log), plans[j], ms[j].service, ms[j].log)
    ensures forall j :: failed < j < |ms| ==> ms[j].service == old(ms[j].service) && ms[j].log == old(ms[j].log)
  {
    var i := 0;
    while i < |ms|
      invariant 0 <= i <= |ms|
      invariant AllValid(ms)
      invariant forall j :: 0 <= j < i ==> AllRead(ctsList[j], powers)
      invariant forall j :: 0 <= j < i ==> Steps(old(ms[j].service), old(ms[j].log), plans[j], ms[j].service, ms[j].log)
      invariant forall j :: i <= j < |ms| ==> ms[j].service == old(ms[j].service) && ms[j].log == old(ms[j].log)
    {
      var ok := UpdateAt(ms, i, voltages, powers, ctsList, plans);
      if !ok {
        FirstFailureIs(ctsList, powers, i);
        return i;
      }
      i := i + 1;
    }
    FirstFailureIs(ctsList, powers, i);
    return i;
  }

  /** One iteration of the first loop: `ms[i].update`, which touches no other meter. */
  method UpdateAt(ms: seq<Meter>, i: nat, voltages: map<int, int>, powers: map<int, Reading>,
                  ghost ctsList: seq<seq<int>>, ghost plans: seq<seq<Write>>)
    returns (ok: bool)
    requires i < |ms| && AllValid(ms) && Consecutive(ms)
    requires ctsList == CtsOf(ms) && plans == UpdatePlans(ctsList, voltages, powers)
    modifies ms[i]
    ensures AllValid(ms)
    ensures ok == AllRead(ctsList[i], powers)
    ensures Steps(old(ms[i].service), old(ms[i].log), plans[i], ms[i].service, ms[i].log)
    ensures forall j :: 0 <= j < |ms| && j != i ==> ms[j].service == old(ms[j].service) && ms[j].log == old(ms[j].log)
  {
    var m := ms[i];
    assert forall j :: 0 <= j < |ms| && j != i ==> ms[j] != m;
    ok := m.Update(voltages, powers);
    UpdatePlansAt(ctsList, voltages, powers, i);
  }

  /** One iteration of the second loop: firmware version and serial of `ms[i]` alone. */
  method SetDeviceAt(ms: seq<Meter>, i: nat, firmware: Value, serial: Value)
    requires i < |ms| && AllValid(ms) && Consecutive(ms)
    modifies ms[i]
    ensures AllValid(ms)
    ensures Steps(old(ms[i].service), old(ms[i].log), DeviceWrites(firmware, serial), ms[i].service, ms[i].log)
    ensures forall j :: 0 <= j < |ms| && j != i ==> ms[j].service == old(ms[j].service) && ms[j].log == old(ms[j].log)
  {
    var m := ms[i];
    assert forall j :: 0 <= j < |ms| && j != i ==> ms[j] != m;
    var ws := DeviceWrites(firmware, serial);
    assert ws[..0] == [];
    StepsNone(m.service, m.log);
    m.SetPathStep(ws, 0, old(m.service), old(m.log));
    m.SetPathStep(ws, 1, old(m.service), old(m.log));
    assert ws[..2] == ws;
  }

  /** The second loop of the realtime handler: firmware version and serial on every meter. */
  method SetDeviceInfo(ms: seq<Meter>, firmware: Value, serial: Value)
    requires AllValid(ms) && Consecutive(ms)
    modifies ms
    ensures AllValid(ms)
    ensures forall j :: 0 <= j < |ms| ==>
              Steps(old(ms[j].service), old(ms[j].log), DeviceWrites(firmware, serial), ms[j].service, ms[j].log)
  {
    var i := 0;
    while i < |ms|
      invariant 0 <= i <= |ms|
      invariant AllValid(ms)
      invariant forall j :: 0 <= j < i ==>
                  Steps(old(ms[j].service), old(ms[j].log), DeviceWrites(firmware, serial), ms[j].service, ms[j].log)
      invariant forall j :: i <= j < |ms| ==> ms[j].service == old(ms[j].service) && ms[j].log == old(ms[j].log)
    {
      SetDeviceAt(ms, i, firmware, serial);
      i := i + 1;
    }
  }

  /**
   * The two loops of the realtime handler over the meters `ms`: the index of the
   * meter that raised (or the number of meters), and every meter's requests.
   */
  method HandleRealtime(ms: seq<Meter>, voltages: map<int, int>, powers: map<int, Reading>,
                        firmware: Value, serial: Value, ghost ctsList: seq<seq<int>>, ghost stage: seq<seq<Write>>)
    returns (failed: nat)
    requires AllValid(ms) && Consecutive(ms)
    requires ctsList == CtsOf(ms) && stage == RealtimeStage(ctsList, voltages, powers, firmware, serial)
    modifies ms
    ensures AllValid(ms)
    ensures failed == FirstFailure(ctsList, powers)
    ensures forall j :: 0 <= j < |ms| ==> Steps(old(ms[j].service), old(ms[j].log), stage[j], ms[j].service, ms[j].log)
  {
    ghost var plans := UpdatePlans(ctsList, voltages, powers);
    failed := UpdateMeters(ms, voltages, powers, ctsList, plans);
    if failed < |ms| {
      FailureStage(ctsList, voltages, powers, firmware, serial);
      forall j | 0 <= j < |ms|
        ensures Steps(old(ms[j].service), old(ms[j].log), stage[j], ms[j].service, ms[j].log)
      {
        if failed < j {
          StepsNone(ms[j].service, ms[j].log);
        }
      }
      return;
    }
    SuccessStage(ctsList, voltages, powers, firmware, serial);
    label Updated:
    SetDeviceInfo(ms, firmware, serial);
    forall j | 0 <= j < |ms|
      ensures Steps(old(ms[j].service), old(ms[j].log), stage[j], ms[j].service, ms[j].log)
    {
      var m := ms[j];
      StepsConcat(old(m.service), old(m.log), plans[j], old@Updated(m.service), old@Updated(m.log),
                  DeviceWrites(firmware, serial), m.service, m.log);
    }
  }

  /** When a meter raises: its requests and those before it are their updates, none after it. */
  lemma FailureStage(ctsList: seq<seq<int>>, voltages: map<int, int>, powers: map<int, Reading>,
                     firmware: Value, serial: Value)
    requires FirstFailure(ctsList, powers) < |ctsList|
    ensures var stage, plans := RealtimeStage(ctsList, voltages, powers, firmware, serial), UpdatePlans(ctsList, voltages, powers);
            var f := FirstFailure(ctsList, powers);
            (forall j :: 0 <= j <= f ==> stage[j] == plans[j]) &&
            (forall j :: f < j < |ctsList| ==> stage[j] == [])
  {
    var stage, plans := RealtimeStage(ctsList, voltages, powers, firmware, serial), UpdatePlans(ctsList, voltages, powers);
    forall j | 0 <= j <= FirstFailure(ctsList, powers) ensures stage[j] == plans[j] {
      assert stage[j] == plans[j] + [];
    }
  }

  /** When no meter raises: every meter's requests are its update and then the device info. */
  lemma SuccessStage(ctsList: seq<seq<int>>, voltages: map<int, int>, powers: map<int, Reading>,
                     firmware: Value, serial: Value)
    requires FirstFailure(ctsList, powers) == |ctsList|
    ensures var stage, plans := RealtimeStage(ctsList, voltages, powers, firmware, serial), UpdatePlans(ctsList, voltages, powers);
            forall j :: 0 <= j < |ctsList| ==> stage[j] == plans[j] + DeviceWrites(firmware, serial)
  {
  }

  /** The first failure is the first index whose meter lacks a reading. */
  lemma {:induction false} FirstFailureIs(ctsList: seq<seq<int>>, powers: map<int, Reading>, i: nat)
    requires i <= |ctsList|
    requires forall j :: 0 <= j < i ==> AllRead(ctsList[j], powers)
    requires i < |ctsList| ==> !AllRead(ctsList[i], powers)
    ensures FirstFailure(ctsList, powers) == i
  {
    if i > 0 {
      assert forall j :: 0 <= j < i - 1 ==> ctsList[1..][j] == ctsList[j + 1];
      FirstFailureIs(ctsList[1..], powers, i - 1);
    }
  }
}
