/**
 * One meter object on D-Bus (class `Meter` in dbus_smappee.py): the paths it
 * registers, `set_path`, and `update`, which publishes the per-line and total
 * values of a realtime message for the meter's three ct inputs.
 */
module SmappeeMeter {
  import opened DbusService

  const Version := "0.1"
  /** `__file__`, the script's own path, taken here as its file name. */
  const ScriptPath := "dbus_smappee.py"
  const UnknownProductId := 0xFFFF
  const JoulesPerKWh := 3600000

  /** One entry of a realtime message's `channelPowers`. */
  datatype Reading = Reading(ctInput: int, current: int, power: int, importEnergy: int, exportEnergy: int)

  /**
   * `round(j / 3600000, 1)` on integer joules: Python 2 `/` on integers floors, and
   * Dafny's `/` by a positive divisor floors too; rounding an integer changes nothing.
   */
  function ToKWh(joules: int): (kwh: int)
    ensures kwh * JoulesPerKWh <= joules < (kwh + 1) * JoulesPerKWh
  {
    joules / JoulesPerKWh
  }

  /** The identity and debug items the constructor registers. */
  const DeviceItems: set<Path> := {
    ProcessName, ProcessVersion, Connection, DeviceInstance, ProductId, ProductName,
    FirmwareVersion, Serial, Connected, DebugCts
  }

  /** The meter-wide totals. */
  const TotalItems: set<Path> := {EnergyForward, EnergyReverse, Power}

  /** The five items of one line. */
  function LineItems(slot: nat): set<Path> {
    {Line(slot, Current), Line(slot, LineEnergyForward), Line(slot, LineEnergyReverse),
     Line(slot, LinePower), Line(slot, Voltage)}
  }

  /** Every path the constructor registers with `add_path`. */
  const Registered: set<Path> := {
    ProcessName, ProcessVersion, Connection, DeviceInstance, ProductId, ProductName,
    FirmwareVersion, Serial, Connected, EnergyForward, EnergyReverse,
    Line(0, Current), Line(0, LineEnergyForward), Line(0, LineEnergyReverse), Line(0, LinePower), Line(0, Voltage),
    Line(1, Current), Line(1, LineEnergyForward), Line(1, LineEnergyReverse), Line(1, LinePower), Line(1, Voltage),
    Line(2, Current), Line(2, LineEnergyForward), Line(2, LineEnergyReverse), Line(2, LinePower), Line(2, Voltage),
    Power, DebugCts
  }

  /** The registered paths are the fixed items and three lines of five. */
  lemma RegisteredGroups()
    ensures Registered == DeviceItems + TotalItems + LineItems(0) + LineItems(1) + LineItems(2)
  {
    var groups := DeviceItems + TotalItems + LineItems(0) + LineItems(1) + LineItems(2);
    forall p | p in groups ensures p in Registered {
    }
    forall p | p in Registered ensures p in groups {
    }
  }

  /** The store has every path `update` and the bridge may address. */
  ghost predicate Registers(svc: Store) {
    forall p :: Addressable(p) ==> p in svc
  }

  /** The paths `update` may address: three lines, the totals and the fixed items. */
  predicate Addressable(p: Path) {
    !p.Line? || p.slot < 3
  }

  lemma RegisteredAreListed(p: Path)
    requires Addressable(p)
    ensures p in Registered
  {
    RegisteredGroups();
    match p
    case Line(slot, f) =>
      assert p in LineItems(slot) by {
        match f
        case Current =>
        case LineEnergyForward =>
        case LineEnergyReverse =>
        case LinePower =>
        case Voltage =>
      }
      var lines := LineItems(0) + LineItems(1) + LineItems(2);
      assert p in lines by {
        if slot == 0 {
        } else if slot == 1 {
        } else {
          assert slot == 2;
        }
      }
      assert lines <= Registered;
    case _ =>
      assert p in DeviceItems + TotalItems;
  }

  function Digit(d: nat): char
    requires d < 10
  {
    "0123456789"[d]
  }

  function NatText(n: nat): string
    decreases n
  {
    if n < 10 then [Digit(n)] else NatText(n / 10) + [Digit(n % 10)]
  }

  /** Python's `str` of an integer. */
  function IntText(i: int): string {
    if i < 0 then "-" + NatText(-i) else NatText(i)
  }

  /** `','.join(str(c) for c in cts)`. */
  function JoinCts(cts: seq<int>): string
    decreases |cts|
  {
    if cts == [] then ""
    else if |cts| == 1 then IntText(cts[0])
    else IntText(cts[0]) + "," + JoinCts(cts[1..])
  }

  /** The value `add_path` gives each registered path. */
  function InitialValue(p: Path, name: string, host: string, instance: int, cts: seq<int>): Value {
    match p
    case ProcessName => Str(ScriptPath)
    case ProcessVersion => Str(Version)
    case Connection => Str(host)
    case DeviceInstance => Int(instance)
    case ProductId => Int(UnknownProductId)
    case ProductName => Str("Smappee - " + name)
    case Connected => Int(1)
    case DebugCts => Str(JoinCts(cts))
    case _ => Null
  }

  function InitialService(name: string, host: string, instance: int, cts: seq<int>): Store {
    map p | p in Registered :: InitialValue(p, name, host, instance, cts)
  }

  /**
   * The constructor makes 28 `add_path` calls on distinct paths, and they are exactly the
   * paths the model's meters can address: the fixed items and three lines of five.
   */
  lemma InitialServiceKeys(name: string, host: string, instance: int, cts: seq<int>)
    ensures |InitialService(name, host, instance, cts)| == 28
    ensures forall p :: p in InitialService(name, host, instance, cts) <==> Addressable(p)
  {
    var svc := InitialService(name, host, instance, cts);
    assert svc.Keys == Registered;
    RegisteredCount();
    InitialServiceRegisters(name, host, instance, cts);
    forall p | p in svc ensures Addressable(p) {
      ListedAreAddressable(p);
    }
  }

  /** Every line and total item is registered as `None` until the first `update`. */
  lemma InitialServiceEmpty(name: string, host: string, instance: int, cts: seq<int>)
    ensures var svc := InitialService(name, host, instance, cts);
            forall p :: p in svc && (p.Line? || p in TotalItems) ==> svc[p] == Null
  {
    var svc := InitialService(name, host, instance, cts);
    forall p | p in svc && (p.Line? || p in TotalItems) ensures svc[p] == Null {
      assert svc[p] == InitialValue(p, name, host, instance, cts);
      if !p.Line? {
        assert p == Power || p == EnergyForward || p == EnergyReverse;
      }
    }
  }

  /** Conversely, every registered path is one the model's meters can address. */
  lemma ListedAreAddressable(p: Path)
    requires p in Registered
    ensures Addressable(p)
  {
    RegisteredGroups();
    FixedItemsCount();
    LineItemsCount(0);
    LineItemsCount(1);
    LineItemsCount(2);
  }

  /** The 28 registered paths are distinct. */
  lemma RegisteredCount()
    ensures |Registered| == 28
  {
    RegisteredGroups();
    FixedItemsCount();
    LineItemsCount(0);
    LineItemsCount(1);
    LineItemsCount(2);
    var lines := LineItems(0) + LineItems(1) + LineItems(2);
    assert |lines| == 15;
    assert (DeviceItems + TotalItems) !! lines;
  }

  lemma FixedItemsCount()
    ensures |DeviceItems| == 10 && |TotalItems| == 3 && DeviceItems !! TotalItems
    ensures forall p :: p in DeviceItems + TotalItems ==> !p.Line?
  {
  }

  lemma LineItemsCount(slot: nat)
    ensures |LineItems(slot)| == 5 && forall p :: p in LineItems(slot) ==> p.Line? && p.slot == slot
  {
  }

  lemma InitialServiceRegisters(name: string, host: string, instance: int, cts: seq<int>)
    ensures forall p :: Addressable(p) ==> p in InitialService(name, host, instance, cts)
  {
    forall p | Addressable(p) ensures p in InitialService(name, host, instance, cts) {
      RegisteredAreListed(p);
    }
  }

  /** `voltages.get(slot, None)`. */
  function VoltageAt(voltages: map<int, int>, slot: nat): Value
  {
    if slot in voltages then Int(voltages[slot]) else Null
  }

  /** The value `update` publishes for item `f` of line `slot` from reading `d`. */
  function LineValue(d: Reading, voltages: map<int, int>, slot: nat, f: LineField): Value {
    match f
    case Current => Int(d.current)
    case LineEnergyForward => Int(ToKWh(d.importEnergy))
    case LineEnergyReverse => Int(ToKWh(d.exportEnergy))
    case LinePower => Int(d.power)
    case Voltage => VoltageAt(voltages, slot)
  }

  /** The five `set_path` requests for one slot, in the order `update` makes them. */
  function SlotWrites(slot: nat, d: Reading, voltages: map<int, int>): seq<Write>
  {
    [Write(Line(slot, Current), LineValue(d, voltages, slot, Current)),
     Write(Line(slot, LineEnergyForward), LineValue(d, voltages, slot, LineEnergyForward)),
     Write(Line(slot, LineEnergyReverse), LineValue(d, voltages, slot, LineEnergyReverse)),
     Write(Line(slot, LinePower), LineValue(d, voltages, slot, LinePower)),
     Write(Line(slot, Voltage), LineValue(d, voltages, slot, Voltage))]
  }

  /** Every ct has a reading, so `powers[ct]` does not raise. */
  predicate AllRead(cts: seq<int>, powers: map<int, Reading>) {
    forall k :: 0 <= k < |cts| ==> cts[k] in powers
  }

  /** The slot at which `powers[ct]` first raises, or `|cts|` when none does. */
  function FirstMissing(cts: seq<int>, powers: map<int, Reading>): (m: nat)
    ensures m <= |cts|
    ensures forall k :: 0 <= k < m ==> cts[k] in powers
    ensures m < |cts| ==> cts[m] !in powers
    decreases |cts|
  {
    if cts == [] || cts[0] !in powers then 0 else 1 + FirstMissing(cts[1..], powers)
  }

  /** The key of the KeyError `update` raises: the first ct without a reading. */
  function MissingCt(cts: seq<int>, powers: map<int, Reading>): (ct: int)
    requires !AllRead(cts, powers)
    ensures ct in cts && ct !in powers
  {
    FirstMissingIffAllRead(cts, powers);
    cts[FirstMissing(cts, powers)]
  }

  lemma FirstMissingIffAllRead(cts: seq<int>, powers: map<int, Reading>)
    ensures FirstMissing(cts, powers) == |cts| <==> AllRead(cts, powers)
  {
  }

  /** The per-line requests of the first `k` slots. */
  function LinesPlan(cts: seq<int>, voltages: map<int, int>, powers: map<int, Reading>, k: nat): seq<Write>
    requires k <= |cts| && forall j :: 0 <= j < k ==> cts[j] in powers
    decreases k
  {
    if k == 0 then [] else LinesPlan(cts, voltages, powers, k - 1) + SlotWrites(k - 1, powers[cts[k - 1]], voltages)
  }

  datatype Quantity = ActivePower | Imported | Exported

  function Amount(d: Reading, q: Quantity): int {
    match q
    case ActivePower => d.power
    case Imported => d.importEnergy
    case Exported => d.exportEnergy
  }

  /** The sum of one quantity over the readings of the first `k` cts. */
  function Total(cts: seq<int>, powers: map<int, Reading>, q: Quantity, k: nat): int
    requires k <= |cts| && forall j :: 0 <= j < k ==> cts[j] in powers
    decreases k
  {
    if k == 0 then 0 else Total(cts, powers, q, k - 1) + Amount(powers[cts[k - 1]], q)
  }

  /** The three requests for the meter totals; energies convert the summed joules. */
  function TotalWrites(power: int, forward: int, reverse: int): seq<Write> {
    [Write(Power, Int(power)), Write(EnergyForward, Int(ToKWh(forward))), Write(EnergyReverse, Int(ToKWh(reverse)))]
  }

  /** The requests one `update` makes, and whether it returns normally. */
  datatype Plan = Plan(writes: seq<Write>, ok: bool)

  /**
   * The requests `update` makes: the lines of every slot up to the first ct without
   * a reading, where the KeyError stops it; the totals only when no ct is missing.
   */
  function UpdatePlan(cts: seq<int>, voltages: map<int, int>, powers: map<int, Reading>): Plan {
    var m := FirstMissing(cts, powers);
    if m < |cts| then Plan(LinesPlan(cts, voltages, powers, m), false)
    else Plan(LinesPlan(cts, voltages, powers, |cts|) +
              TotalWrites(Total(cts, powers, ActivePower, |cts|), Total(cts, powers, Imported, |cts|),
                          Total(cts, powers, Exported, |cts|)),
              true)
  }

  /** The position of an item in the five requests of a slot. */
  function FieldIndex(f: LineField): (k: nat)
    ensures k < 5
  {
    match f
    case Current => 0
    case LineEnergyForward => 1
    case LineEnergyReverse => 2
    case LinePower => 3
    case Voltage => 4
  }

  /** The five requests of a slot address its five items, each once. */
  lemma SlotWritesPaths(slot: nat, d: Reading, voltages: map<int, int>)
    ensures var ws := SlotWrites(slot, d, voltages);
            |ws| == 5 && DistinctPaths(ws) &&
            forall k :: 0 <= k < |ws| ==> ws[k].path.Line? && ws[k].path.slot == slot
  {
  }

  /** Item `f` of a slot is requested at position `FieldIndex(f)`. */
  lemma SlotWriteAt(slot: nat, d: Reading, voltages: map<int, int>, f: LineField)
    ensures SlotWrites(slot, d, voltages)[FieldIndex(f)] == Write(Line(slot, f), LineValue(d, voltages, slot, f))
  {
    match f
    case Current =>
    case LineEnergyForward =>
    case LineEnergyReverse =>
    case LinePower =>
    case Voltage =>
  }

  lemma {:induction false} LinesPlanLength(cts: seq<int>, voltages: map<int, int>, powers: map<int, Reading>, k: nat)
    requires k <= |cts| && forall j :: 0 <= j < k ==> cts[j] in powers
    ensures |LinesPlan(cts, voltages, powers, k)| == 5 * k
    decreases k
  {
    if k > 0 {
      LinesPlanLength(cts, voltages, powers, k - 1);
    }
  }

  /** The per-line requests of the first `k` slots address lines below `k`, each once. */
  lemma {:induction false} LinesPlanPaths(cts: seq<int>, voltages: map<int, int>, powers: map<int, Reading>, k: nat)
    requires k <= |cts| && forall j :: 0 <= j < k ==> cts[j] in powers
    ensures var ws := LinesPlan(cts, voltages, powers, k);
            DistinctPaths(ws) && forall j :: 0 <= j < |ws| ==> ws[j].path.Line? && ws[j].path.slot < k
    decreases k
  {
    if k > 0 {
      LinesPlanPaths(cts, voltages, powers, k - 1);
      var a := LinesPlan(cts, voltages, powers, k - 1);
      var b := SlotWrites(k - 1, powers[cts[k - 1]], voltages);
      SlotWritesPaths(k - 1, powers[cts[k - 1]], voltages);
      DistinctConcat(a, b);
      assert LinesPlan(cts, voltages, powers, k) == a + b;
      forall j | 0 <= j < |a + b| ensures (a + b)[j].path.Line? && (a + b)[j].path.slot < k {
        if j < |a| {
          assert (a + b)[j] == a[j];
        } else {
          assert (a + b)[j] == b[j - |a|];
        }
      }
    }
  }

  /** Item `f` of slot `i` is requested at position `5 * i + FieldIndex(f)`. */
  lemma {:induction false} LinesPlanAt(cts: seq<int>, voltages: map<int, int>, powers: map<int, Reading>, k: nat,
                                       i: nat, f: LineField)
    requires k <= |cts| && forall j :: 0 <= j < k ==> cts[j] in powers
    requires i < k
    ensures 5 * i + FieldIndex(f) < |LinesPlan(cts, voltages, powers, k)|
    ensures LinesPlan(cts, voltages, powers, k)[5 * i + FieldIndex(f)] ==
            Write(Line(i, f), LineValue(powers[cts[i]], voltages, i, f))
    decreases k
  {
    LinesPlanLength(cts, voltages, powers, k - 1);
    var a := LinesPlan(cts, voltages, powers, k - 1);
    var b := SlotWrites(k - 1, powers[cts[k - 1]], voltages);
    assert LinesPlan(cts, voltages, powers, k) == a + b;
    var n := 5 * i + FieldIndex(f);
    if i < k - 1 {
      LinesPlanAt(cts, voltages, powers, k - 1, i, f);
      assert (a + b)[n] == a[n];
    } else {
      SlotWriteAt(k - 1, powers[cts[k - 1]], voltages, f);
      assert (a + b)[n] == b[FieldIndex(f)];
    }
  }

  /** `update` returns normally exactly when every ct of the meter has a reading. */
  lemma UpdateOkIffAllRead(cts: seq<int>, voltages: map<int, int>, powers: map<int, Reading>)
    ensures UpdatePlan(cts, voltages, powers).ok <==> AllRead(cts, powers)
  {
  }

  /** One `update` addresses no path twice, and no line at or after the first missing reading. */
  lemma UpdatePlanPaths(cts: seq<int>, voltages: map<int, int>, powers: map<int, Reading>)
    ensures var ws := UpdatePlan(cts, voltages, powers).writes;
            DistinctPaths(ws) &&
            forall j :: 0 <= j < |ws| ==> (ws[j].path.Line? ==> ws[j].path.slot < FirstMissing(cts, powers))
  {
    var m := FirstMissing(cts, powers);
    LinesPlanPaths(cts, voltages, powers, m);
    if m == |cts| {
      var a := LinesPlan(cts, voltages, powers, m);
      var b := TotalWrites(Total(cts, powers, ActivePower, m), Total(cts, powers, Imported, m),
                           Total(cts, powers, Exported, m));
      DistinctConcat(a, b);
      var ws := a + b;
      forall j | 0 <= j < |ws| ensures ws[j].path.Line? ==> ws[j].path.slot < m {
        if j < |a| {
          assert ws[j] == a[j];
        }
      }
    }
  }

  /**
   * After `update`, every line up to the first missing reading holds what its reading
   * and the voltage of its phase give; `None` for the voltage of a phase without one.
   */
  lemma UpdateLineValue(svc: Store, cts: seq<int>, voltages: map<int, int>, powers: map<int, Reading>,
                        i: nat, f: LineField)
    requires i < FirstMissing(cts, powers)
    ensures var after := ApplyAll(svc, UpdatePlan(cts, voltages, powers).writes);
            Line(i, f) in after && after[Line(i, f)] == LineValue(powers[cts[i]], voltages, i, f)
  {
    var m := FirstMissing(cts, powers);
    var ws := UpdatePlan(cts, voltages, powers).writes;
    LinesPlanAt(cts, voltages, powers, m, i, f);
    UpdatePlanPaths(cts, voltages, powers);
    var k := 5 * i + FieldIndex(f);
    assert ws[k] == LinesPlan(cts, voltages, powers, m)[k];
    ApplyAllWritten(svc, ws, k);
  }

  /** `voltages.get(phase, None)`: a line's voltage is its phase's voltage, or `None` without one. */
  lemma UpdateVoltage(svc: Store, cts: seq<int>, voltages: map<int, int>, powers: map<int, Reading>, i: nat)
    requires i < FirstMissing(cts, powers)
    ensures var after := ApplyAll(svc, UpdatePlan(cts, voltages, powers).writes);
            Line(i, Voltage) in after &&
            (i in voltages ==> after[Line(i, Voltage)] == Int(voltages[i])) &&
            (i !in voltages ==> after[Line(i, Voltage)] == Null)
  {
    UpdateLineValue(svc, cts, voltages, powers, i, Voltage);
  }

  /** Lines from the first missing reading on keep the value they had. */
  lemma UpdateLeavesLaterLines(svc: Store, cts: seq<int>, voltages: map<int, int>, powers: map<int, Reading>,
                               i: nat, f: LineField)
    requires FirstMissing(cts, powers) <= i && Line(i, f) in svc
    ensures var after := ApplyAll(svc, UpdatePlan(cts, voltages, powers).writes);
            Line(i, f) in after && after[Line(i, f)] == svc[Line(i, f)]
  {
    UpdatePlanPaths(cts, voltages, powers);
    ApplyAllUntouched(svc, UpdatePlan(cts, voltages, powers).writes, Line(i, f));
  }

  /**
   * When every ct has a reading, `/Ac/Power` holds the sum of their powers and the
   * total energies hold the conversion of the summed raw energies.
   */
  lemma UpdateTotals(svc: Store, cts: seq<int>, voltages: map<int, int>, powers: map<int, Reading>)
    requires AllRead(cts, powers)
    ensures var after := ApplyAll(svc, UpdatePlan(cts, voltages, powers).writes);
            Power in after && EnergyForward in after && EnergyReverse in after &&
            after[Power] == Int(Total(cts, powers, ActivePower, |cts|)) &&
            after[EnergyForward] == Int(ToKWh(Total(cts, powers, Imported, |cts|))) &&
            after[EnergyReverse] == Int(ToKWh(Total(cts, powers, Exported, |cts|)))
  {
    var ws := UpdatePlan(cts, voltages, powers).writes;
    LinesPlanLength(cts, voltages, powers, |cts|);
    UpdatePlanPaths(cts, voltages, powers);
    var n := 5 * |cts|;
    ApplyAllWritten(svc, ws, n);
    ApplyAllWritten(svc, ws, n + 1);
    ApplyAllWritten(svc, ws, n + 2);
  }

  /** A ct without a reading leaves the totals as they were. */
  lemma UpdateFailureKeepsTotals(svc: Store, cts: seq<int>, voltages: map<int, int>, powers: map<int, Reading>, p: Path)
    requires !AllRead(cts, powers)
    requires p in svc && (p == Power || p == EnergyForward || p == EnergyReverse)
    ensures var after := ApplyAll(svc, UpdatePlan(cts, voltages, powers).writes);
            p in after && after[p] == svc[p]
  {
    LinesPlanPaths(cts, voltages, powers, FirstMissing(cts, powers));
    ApplyAllUntouched(svc, UpdatePlan(cts, voltages, powers).writes, p);
  }

  /** `update` touches only line and total paths: identity, firmware and serial stay. */
  lemma UpdateLeavesOtherPaths(svc: Store, cts: seq<int>, voltages: map<int, int>, powers: map<int, Reading>, p: Path)
    requires p in svc && !p.Line? && p != Power && p != EnergyForward && p != EnergyReverse
    ensures var after := ApplyAll(svc, UpdatePlan(cts, voltages, powers).writes);
            p in after && after[p] == svc[p]
  {
    var m := FirstMissing(cts, powers);
    LinesPlanPaths(cts, voltages, powers, m);
    LinesPlanLength(cts, voltages, powers, m);
    var ws := UpdatePlan(cts, voltages, powers).writes;
    forall k | 0 <= k < |ws| ensures ws[k].path != p {
      if k < 5 * m {
        assert ws[k] == LinesPlan(cts, voltages, powers, m)[k];
      }
    }
    ApplyAllUntouched(svc, ws, p);
  }

  /** Repeating an `update` with the same voltages and readings sends no write. */
  lemma UpdateTwiceWritesNothing(svc: Store, cts: seq<int>, voltages: map<int, int>, powers: map<int, Reading>)
    ensures var ws := UpdatePlan(cts, voltages, powers).writes;
            Performed(ApplyAll(svc, ws), ws) == [] && ApplyAll(ApplyAll(svc, ws), ws) == ApplyAll(svc, ws)
  {
    UpdatePlanPaths(cts, voltages, powers);
    ReplayWritesNothing(svc, UpdatePlan(cts, voltages, powers).writes);
  }

  /** An `update` sends exactly the requests whose value differs from the stored one. */
  lemma UpdateSendsOnlyChanges(svc: Store, cts: seq<int>, voltages: map<int, int>, powers: map<int, Reading>)
    ensures var ws := UpdatePlan(cts, voltages, powers).writes;
            Performed(svc, ws) == Changed(svc, ws)
  {
    UpdatePlanPaths(cts, voltages, powers);
    PerformedIsChanged(svc, UpdatePlan(cts, voltages, powers).writes);
  }

  class Meter {
    const instance: int
    const cts: seq<int>
    /** The values currently held at the service's paths. */
    var service: Store
    /** Every write sent to the bus through `SetPath`, in order. */
    var log: seq<Write>

    ghost predicate Valid()
      reads this
    {
      Registers(service) && |cts| <= 3
    }

    /** Just constructed: valid, nothing sent, the registered paths at their initial values. */
    ghost predicate Pristine(name: string, host: string)
      reads this
    {
      Valid() && log == [] && service == InitialService(name, host, instance, cts)
    }

    /** Registers the service paths; three slots are all the paths provide for. */
    constructor (name: string, host: string, instance: int, cts: seq<int>)
      requires |cts| <= 3
      ensures Valid() && Pristine(name, host)
      ensures this.instance == instance && this.cts == cts
      ensures service == InitialService(name, host, instance, cts) && log == []
    {
      InitialServiceRegisters(name, host, instance, cts);
      this.instance := instance;
      this.cts := cts;
      service := InitialService(name, host, instance, cts);
      log := [];
    }

    /** Writes `value` at `path` unless the path already holds it. */
    method SetPath(path: Path, value: Value)
      requires path in service
      modifies this
      ensures service == Put(old(service), Write(path, value))
      ensures log == old(log) + Logged(old(service), Write(path, value))
    {
      if service[path] != value {
        service := service[path := value];
        log := log + [Write(path, value)];
      }
    }

    /** `set_path` for the `k`-th of the requests `ws`, after those before it. */
    method SetPathStep(ws: seq<Write>, k: nat, ghost s0: Store, ghost l0: seq<Write>)
      requires Valid() && k < |ws| && Addressable(ws[k].path)
      requires Steps(s0, l0, ws[..k], service, log)
      modifies this
      ensures Valid()
      ensures Steps(s0, l0, ws[..k + 1], service, log)
    {
      StepsSnoc(s0, l0, ws[..k], service, log, ws[k]);
      assert ws[..k] + [ws[k]] == ws[..k + 1];
      SetPath(ws[k].path, ws[k].value);
    }

    /** The five `set_path` calls that fill in line `slot` from reading `d`. */
    method PublishLine(slot: nat, d: Reading, voltages: map<int, int>)
      requires Valid() && slot < 3
      modifies this
      ensures Valid()
      ensures Steps(old(service), old(log), SlotWrites(slot, d, voltages), service, log)
    {
      var ws := [Write(Line(slot, Current), Int(d.current)),
                 Write(Line(slot, LineEnergyForward), Int(ToKWh(d.importEnergy))),
                 Write(Line(slot, LineEnergyReverse), Int(ToKWh(d.exportEnergy))),
                 Write(Line(slot, LinePower), Int(d.power)),
                 Write(Line(slot, Voltage), VoltageAt(voltages, slot))];
      assert ws == SlotWrites(slot, d, voltages);
      assert ws[..0] == [];
      StepsNone(service, log);
      SetPathStep(ws, 0, old(service), old(log));
      SetPathStep(ws, 1, old(service), old(log));
      SetPathStep(ws, 2, old(service), old(log));
      SetPathStep(ws, 3, old(service), old(log));
      SetPathStep(ws, 4, old(service), old(log));
      assert ws[..5] == ws;
    }

    /** The three `set_path` calls for the meter totals. */
    method PublishTotals(power: int, forward: int, reverse: int)
      requires Valid()
      modifies this
      ensures Valid()
      ensures Steps(old(service), old(log), TotalWrites(power, forward, reverse), service, log)
    {
      var ws := TotalWrites(power, forward, reverse);
      assert ws[..0] == [];
      StepsNone(service, log);
      SetPathStep(ws, 0, old(service), old(log));
      SetPathStep(ws, 1, old(service), old(log));
      SetPathStep(ws, 2, old(service), old(log));
      assert ws[..3] == ws;
    }

    /** One pass of the loop in `update`: the lines of slot `i`, after those before it. */
    method PublishSlot(i: nat, voltages: map<int, int>, powers: map<int, Reading>, ghost s0: Store, ghost l0: seq<Write>)
      requires Valid() && i < |cts| && forall j :: 0 <= j <= i ==> cts[j] in powers
      requires Steps(s0, l0, LinesPlan(cts, voltages, powers, i), service, log)
      modifies this
      ensures Valid()
      ensures Steps(s0, l0, LinesPlan(cts, voltages, powers, i + 1), service, log)
    {
      ghost var s1, l1 := service, log;
      PublishLine(i, powers[cts[i]], voltages);
      StepsConcat(s0, l0, LinesPlan(cts, voltages, powers, i), s1, l1,
                  SlotWrites(i, powers[cts[i]], voltages), service, log);
    }

    /**
     * Publishes the lines and totals of one realtime message. Returns false where
     * the source raises KeyError, leaving in place the writes made before it.
     */
    method Update(voltages: map<int, int>, powers: map<int, Reading>) returns (ok: bool)
      requires Valid()
      modifies this
      ensures Valid()
      ensures ok == AllRead(cts, powers)
      ensures Steps(old(service), old(log), UpdatePlan(cts, voltages, powers).writes, service, log)
    {
      var totalPower, totalForward, totalReverse := 0, 0, 0;
      StepsNone(service, log);
      var i := 0;
      while i < |cts|
        invariant 0 <= i <= |cts|
        invariant Valid()
        invariant forall j :: 0 <= j < i ==> cts[j] in powers
        invariant Steps(old(service), old(log), LinesPlan(cts, voltages, powers, i), service, log)
        invariant totalPower == Total(cts, powers, ActivePower, i)
        invariant totalForward == Total(cts, powers, Imported, i)
        invariant totalReverse == Total(cts, powers, Exported, i)
      {
        if cts[i] !in powers {
          return false;
        }
        var d := powers[cts[i]];
        PublishSlot(i, voltages, powers, old(service), old(log));
        totalPower := totalPower + d.power;
        totalForward := totalForward + d.importEnergy;
        totalReverse := totalReverse + d.exportEnergy;
        i := i + 1;
      }
      ghost var s1, l1 := service, log;
      PublishTotals(totalPower, totalForward, totalReverse);
      StepsConcat(old(service), old(log), LinesPlan(cts, voltages, powers, i), s1, l1,
                  TotalWrites(totalPower, totalForward, totalReverse), service, log);
      ok := true;
    }
  }
}
