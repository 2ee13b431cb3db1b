/**
 * The channel records of a `channelConfig` message, their partition into the three
 * phase buckets, and the positional pairing of those buckets into meters
 * (`Bridge._allocate_meters` in dbus_smappee.py).
 */
module Channels {
  import opened Wrappers

  /** The `inputChannelType` of a channel; any other string is kept as `Other`. */
  datatype ChannelType = Consumption | Production | Other(name: string)

  /** One entry of the `inputChannels` list. */
  datatype Channel = Channel(ctInput: int, phase: int, channelType: ChannelType)

  /** What a meter is built from: its DeviceInstance and the ct inputs of its three slots. */
  datatype MeterConfig = MeterConfig(instance: int, cts: seq<int>)

  /**
   * The two ways allocation raises: a phase that is not a key of the phase
   * dictionary (KeyError), and dereferencing the `None` that `izip_longest`
   * pads a short bucket with (TypeError) at pairing index `index`.
   */
  datatype AllocError = UnknownPhase(phase: int) | PaddedSlot(index: nat)

  /** The keys the phase dictionary is seeded with. */
  predicate IsPhase(p: int) {
    0 <= p < 3
  }

  /** The channels on phase `p`, in input order. */
  function Bucket(channels: seq<Channel>, p: int): (b: seq<Channel>)
    ensures |b| <= |channels|
    ensures forall x :: x in b ==> x in channels && x.phase == p
  {
    if channels == [] then []
    else if channels[0].phase == p then [channels[0]] + Bucket(channels[1..], p)
    else Bucket(channels[1..], p)
  }

  /** The phase of the first channel, in input order, whose phase is not 0, 1 or 2. */
  function FirstUnknownPhase(channels: seq<Channel>): (r: Option<int>)
    ensures r.None? <==> forall k :: 0 <= k < |channels| ==> IsPhase(channels[k].phase)
    ensures r.Some? ==> !IsPhase(r.value) && exists x :: x in channels && x.phase == r.value
  {
    if channels == [] then None
    else if !IsPhase(channels[0].phase) then Some(channels[0].phase)
    else FirstUnknownPhase(channels[1..])
  }

  /** The channels whose `inputChannelType` is `t`, in input order (a list comprehension). */
  function OfType(channels: seq<Channel>, t: ChannelType): (r: seq<Channel>)
    ensures forall x :: x in r <==> x in channels && x.channelType == t
  {
    if channels == [] then []
    else if channels[0].channelType == t then [channels[0]] + OfType(channels[1..], t)
    else OfType(channels[1..], t)
  }

  function Max3(a: nat, b: nat, c: nat): nat {
    if a >= b && a >= c then a else if b >= c then b else c
  }

  function Min3(a: nat, b: nat, c: nat): nat {
    if a <= b && a <= c then a else if b <= c then b else c
  }

  /** How many pairing indices the loop reaches before `izip_longest` runs out or the cap `n` stops it. */
  function MeterCount(channels: seq<Channel>, n: Option<nat>): nat {
    var longest := Max3(|Bucket(channels, 0)|, |Bucket(channels, 1)|, |Bucket(channels, 2)|);
    if n.Some? && n.value < longest then n.value else longest
  }

  /** How many pairing indices have a channel in every bucket. */
  function CompleteCount(channels: seq<Channel>): nat {
    Min3(|Bucket(channels, 0)|, |Bucket(channels, 1)|, |Bucket(channels, 2)|)
  }

  /**
   * The meters allocation builds, stated in closed form: grouping fails on the first
   * unknown phase; otherwise meter `c`, for every index the loop reaches, takes
   * instance `c + offset` and the ct inputs of the `c`-th channel of each bucket, and
   * the first reached index at which some bucket is exhausted is an error.
   */
  function AllocPlan(channels: seq<Channel>, n: Option<nat>, offset: int): Result<seq<MeterConfig>, AllocError> {
    match FirstUnknownPhase(channels)
    case Some(p) => Err(UnknownPhase(p))
    case None =>
      var b0, b1, b2 := Bucket(channels, 0), Bucket(channels, 1), Bucket(channels, 2);
      var count, complete := MeterCount(channels, n), CompleteCount(channels);
      if complete < count then Err(PaddedSlot(complete))
      else Ok(seq(count, c requires 0 <= c < count && c < complete => PairAt(channels, c, offset)))
  }

  /** Meter `c`: instance `c + offset` over the `c`-th channel of each phase. */
  function PairAt(channels: seq<Channel>, c: nat, offset: int): MeterConfig
    requires c < CompleteCount(channels)
  {
    MeterConfig(c + offset, [Bucket(channels, 0)[c].ctInput, Bucket(channels, 1)[c].ctInput, Bucket(channels, 2)[c].ctInput])
  }

  /** The allocation loop's two exits, stated against the closed form. */
  lemma AllocPlanOk(channels: seq<Channel>, n: Option<nat>, offset: int, cfgs: seq<MeterConfig>)
    requires FirstUnknownPhase(channels).None? && MeterCount(channels, n) <= CompleteCount(channels)
    requires |cfgs| == MeterCount(channels, n)
    requires forall k :: 0 <= k < |cfgs| ==> cfgs[k] == PairAt(channels, k, offset)
    ensures AllocPlan(channels, n, offset) == Ok(cfgs)
  {
    var r := AllocPlan(channels, n, offset);
    assert r.Ok? && |r.value| == |cfgs|;
    forall k | 0 <= k < |cfgs| ensures r.value[k] == cfgs[k] {
    }
    assert r.value == cfgs;
  }

  lemma AllocPlanPadded(channels: seq<Channel>, n: Option<nat>, offset: int, c: nat)
    requires FirstUnknownPhase(channels).None? && c == CompleteCount(channels) < MeterCount(channels, n)
    ensures AllocPlan(channels, n, offset) == Err(PaddedSlot(c))
  {
  }

  /** What `izip_longest` yields for one bucket at index `c`: the channel, or the `None` padding. */
  function Padded(bucket: seq<Channel>, c: nat): Option<Channel>
  {
    if c < |bucket| then Some(bucket[c]) else None
  }

  /**
   * `izip_longest` pads slot `c` in none of the three buckets exactly when `c` is below
   * the shortest bucket, and then slot `c` holds the `c`-th channel of each.
   */
  lemma PaddedSlots(b0: seq<Channel>, b1: seq<Channel>, b2: seq<Channel>, c: nat)
    ensures (Padded(b0, c).Some? && Padded(b1, c).Some? && Padded(b2, c).Some?) <==> c < Min3(|b0|, |b1|, |b2|)
    ensures c < Min3(|b0|, |b1|, |b2|) ==>
              Padded(b0, c).value == b0[c] && Padded(b1, c).value == b1[c] && Padded(b2, c).value == b2[c]
  {
  }

  lemma {:induction false} BucketConcat(a: seq<Channel>, b: seq<Channel>, p: int)
    ensures Bucket(a + b, p) == Bucket(a, p) + Bucket(b, p)
  {
    if a == [] {
      assert a + b == b;
    } else {
      assert (a + b)[0] == a[0];
      assert (a + b)[1..] == a[1..] + b;
      BucketConcat(a[1..], b, p);
    }
  }

  /** A run of channels that share phase `q` lands entirely in bucket `q`. */
  lemma {:induction false} BucketOfRun(run: seq<Channel>, q: int, p: int)
    requires forall k :: 0 <= k < |run| ==> run[k].phase == q
    ensures Bucket(run, p) == if p == q then run else []
  {
    if run != [] {
      BucketOfRun(run[1..], q, p);
    }
  }

  /** Skipping a run of channels on a known phase does not change the first unknown phase. */
  lemma {:induction false} FirstUnknownAfterRun(s: seq<Channel>, len: nat, q: int)
    requires len <= |s| && IsPhase(q)
    requires forall k :: 0 <= k < len ==> s[k].phase == q
    ensures FirstUnknownPhase(s) == FirstUnknownPhase(s[len..])
  {
    if len > 0 {
      FirstUnknownAfterRun(s[1..], len - 1, q);
      assert s[1..][len - 1..] == s[len..];
    }
  }

  /**
   * Where the `groupby` group starting at index `i` ends: the maximal run of
   * consecutive channels that share the phase of `channels[i]`.
   */
  method RunEnd(channels: seq<Channel>, i: nat) returns (j: nat)
    requires i < |channels|
    ensures i < j <= |channels|
    ensures forall k :: i <= k < j ==> channels[k].phase == channels[i].phase
    ensures j == |channels| || channels[j].phase != channels[i].phase
  {
    j := i + 1;
    while j < |channels| && channels[j].phase == channels[i].phase
      invariant i < j <= |channels|
      invariant forall k :: i <= k < j ==> channels[k].phase == channels[i].phase
    {
      j := j + 1;
    }
  }

  /**
   * `groupby` over consecutive runs of equal phase, each run `extend`ed into the bucket
   * its phase keys in a dictionary seeded with the keys 0, 1 and 2. The net effect is
   * a stable partition, or the KeyError of the first run whose phase is not a key.
   */
  method GroupPhases(channels: seq<Channel>) returns (r: Result<map<int, seq<Channel>>, AllocError>)
    ensures r.Err? <==> FirstUnknownPhase(channels).Some?
    ensures r.Err? ==> r.error == UnknownPhase(FirstUnknownPhase(channels).value)
    ensures r.Ok? ==> r.value.Keys == {0, 1, 2}
    ensures r.Ok? ==> forall p :: p in r.value ==> r.value[p] == Bucket(channels, p)
  {
    var phases: map<int, seq<Channel>> := map[0 := [], 1 := [], 2 := []];
    var i := 0;
    while i < |channels|
      invariant 0 <= i <= |channels|
      invariant phases.Keys == {0, 1, 2}
      invariant forall p :: p in phases ==> phases[p] == Bucket(channels[..i], p)
      invariant FirstUnknownPhase(channels) == FirstUnknownPhase(channels[i..])
    {
      var phase := channels[i].phase;
      var j := RunEnd(channels, i);
      if phase !in phases {
        assert !IsPhase(phase) && channels[i..][0] == channels[i];
        return Err(UnknownPhase(phase));
      }
      RunStep(channels, i, j, phase);
      phases := phases[phase := phases[phase] + channels[i..j]];
      i := j;
    }
    assert channels[..i] == channels;
    return Ok(phases);
  }

  /** Extending the buckets by one run of channels on a known phase `q`. */
  lemma RunStep(channels: seq<Channel>, i: nat, j: nat, q: int)
    requires i <= j <= |channels| && IsPhase(q)
    requires forall k :: i <= k < j ==> channels[k].phase == q
    ensures forall p :: Bucket(channels[..j], p) == Bucket(channels[..i], p) + (if p == q then channels[i..j] else [])
    ensures FirstUnknownPhase(channels[i..]) == FirstUnknownPhase(channels[j..])
  {
    var run := channels[i..j];
    assert channels[..j] == channels[..i] + run;
    forall p
      ensures Bucket(channels[..j], p) == Bucket(channels[..i], p) + (if p == q then run else [])
    {
      BucketConcat(channels[..i], run, p);
      BucketOfRun(run, q, p);
    }
    FirstUnknownAfterRun(channels[i..], j - i, q);
    assert channels[i..][j - i..] == channels[j..];
  }

  /** With every phase known, the three buckets together hold every channel exactly once. */
  lemma {:induction false} BucketsPartition(channels: seq<Channel>)
    requires FirstUnknownPhase(channels).None?
    ensures multiset(Bucket(channels, 0)) + multiset(Bucket(channels, 1)) + multiset(Bucket(channels, 2))
            == multiset(channels)
    ensures |Bucket(channels, 0)| + |Bucket(channels, 1)| + |Bucket(channels, 2)| == |channels|
  {
    if channels != [] {
      BucketsPartition(channels[1..]);
      assert channels == [channels[0]] + channels[1..];
    }
  }

  /** Allocation fails exactly on an unknown phase or on a reached index some bucket lacks. */
  lemma AllocSucceedsIff(channels: seq<Channel>, n: Option<nat>, offset: int)
    ensures AllocPlan(channels, n, offset).Ok? <==>
              (forall k :: 0 <= k < |channels| ==> IsPhase(channels[k].phase)) &&
              MeterCount(channels, n) <= |Bucket(channels, 0)| &&
              MeterCount(channels, n) <= |Bucket(channels, 1)| &&
              MeterCount(channels, n) <= |Bucket(channels, 2)|
  {
  }

  /**
   * The shape of a successful allocation: `min(n, longest bucket)` meters (all of the
   * longest bucket when `n` is absent), meter `c` numbered `c + offset`, and the
   * slot `s` of meter `c` holding the ct input of the `c`-th channel on phase `s`.
   */
  lemma AllocShape(channels: seq<Channel>, n: Option<nat>, offset: int)
    requires AllocPlan(channels, n, offset).Ok?
    ensures var r := AllocPlan(channels, n, offset).value;
            var longest := Max3(|Bucket(channels, 0)|, |Bucket(channels, 1)|, |Bucket(channels, 2)|);
            |r| == (if n.Some? && n.value < longest then n.value else longest) &&
            forall c :: 0 <= c < |r| ==>
              r[c].instance == c + offset && |r[c].cts| == 3 &&
              forall s :: 0 <= s < 3 ==> c < |Bucket(channels, s)| && r[c].cts[s] == Bucket(channels, s)[c].ctInput
  {
  }

  /** Instances are consecutive from `offset`, hence strictly increasing and distinct. */
  lemma AllocInstancesIncrease(channels: seq<Channel>, n: Option<nat>, offset: int)
    requires AllocPlan(channels, n, offset).Ok?
    ensures var r := AllocPlan(channels, n, offset).value;
            (forall c :: 0 <= c < |r| ==> offset <= r[c].instance < offset + |r|) &&
            forall i, j :: 0 <= i < j < |r| ==> r[i].instance < r[j].instance
  {
  }

  /** Every ct in slot `s` of an allocated meter is the ct input of an input channel on phase `s`. */
  lemma AllocCtsOnTheirPhase(channels: seq<Channel>, n: Option<nat>, offset: int)
    requires AllocPlan(channels, n, offset).Ok?
    ensures var r := AllocPlan(channels, n, offset).value;
            forall c, s :: 0 <= c < |r| && 0 <= s < |r[c].cts| ==>
              exists x :: x in channels && x.phase == s && x.ctInput == r[c].cts[s]
  {
    var r := AllocPlan(channels, n, offset).value;
    forall c, s | 0 <= c < |r| && 0 <= s < |r[c].cts|
      ensures exists x :: x in channels && x.phase == s && x.ctInput == r[c].cts[s]
    {
      var x := Bucket(channels, s)[c];
      assert x in Bucket(channels, s);
    }
  }

  /** The ct inputs of some channels, in order. */
  function CtInputs(chs: seq<Channel>): seq<int> {
    if chs == [] then [] else [chs[0].ctInput] + CtInputs(chs[1..])
  }

  /** The ct inputs in all slots of some meters, meter by meter. */
  function Slots(r: seq<MeterConfig>): seq<int> {
    if r == [] then [] else r[0].cts + Slots(r[1..])
  }

  /** Splitting channels into the three phase buckets keeps every ct input, as often as it occurs. */
  lemma {:induction false} CtInputsPartition(channels: seq<Channel>)
    requires FirstUnknownPhase(channels).None?
    ensures multiset(CtInputs(Bucket(channels, 0))) + multiset(CtInputs(Bucket(channels, 1))) +
            multiset(CtInputs(Bucket(channels, 2))) == multiset(CtInputs(channels))
  {
    if channels != [] {
      CtInputsPartition(channels[1..]);
    }
  }

  /** Meters whose slot `s` holds the ct of the `c`-th channel of bucket `s` hold all the buckets' cts. */
  lemma {:induction false} SlotsOfBuckets(r: seq<MeterConfig>, b0: seq<Channel>, b1: seq<Channel>, b2: seq<Channel>)
    requires |r| == |b0| == |b1| == |b2|
    requires forall c :: 0 <= c < |r| ==> r[c].cts == [b0[c].ctInput, b1[c].ctInput, b2[c].ctInput]
    ensures multiset(Slots(r)) == multiset(CtInputs(b0)) + multiset(CtInputs(b1)) + multiset(CtInputs(b2))
  {
    if r != [] {
      SlotsOfBuckets(r[1..], b0[1..], b1[1..], b2[1..]);
    }
  }

  /**
   * Without a cap, allocation succeeds only when every phase has the same number of
   * channels, and then every input channel fills exactly one meter slot: the ct inputs
   * across all slots are those of the input channels, each as often as it occurs.
   */
  lemma {:induction false} UnboundedAllocUsesEveryChannel(channels: seq<Channel>, offset: int)
    requires AllocPlan(channels, None, offset).Ok?
    ensures var r := AllocPlan(channels, None, offset).value;
            |Bucket(channels, 0)| == |Bucket(channels, 1)| == |Bucket(channels, 2)| == |r| &&
            3 * |r| == |channels|
    ensures multiset(Slots(AllocPlan(channels, None, offset).value)) == multiset(CtInputs(channels))
  {
    var r := AllocPlan(channels, None, offset).value;
    var b0, b1, b2 := Bucket(channels, 0), Bucket(channels, 1), Bucket(channels, 2);
    BucketsPartition(channels);
    AllocShape(channels, None, offset);
    forall c | 0 <= c < |r|
      ensures r[c].cts == [b0[c].ctInput, b1[c].ctInput, b2[c].ctInput]
    {
      assert r[c].cts[0] == b0[c].ctInput && r[c].cts[1] == b1[c].ctInput && r[c].cts[2] == b2[c].ctInput;
    }
    SlotsOfBuckets(r, b0, b1, b2);
    CtInputsPartition(channels);
  }

  /** No channels, or a cap of zero, allocate no meters (once the phases are known). */
  lemma AllocEmpty(channels: seq<Channel>, n: Option<nat>, offset: int)
    requires channels == [] || (n == Some(0) && FirstUnknownPhase(channels).None?)
    ensures AllocPlan(channels, n, offset) == Ok([])
  {
    assert MeterCount(channels, n) == 0;
    assert AllocPlan(channels, n, offset).Ok?;
    assert |AllocPlan(channels, n, offset).value| == 0;
  }

  /** One channel on each phase, capped at one meter from 50: meter 50 over cts 1, 2, 3. */
  lemma AllocThreePhaseScenario()
    ensures AllocPlan([Channel(1, 0, Consumption), Channel(2, 1, Consumption), Channel(3, 2, Consumption)], Some(1), 50)
            == Ok([MeterConfig(50, [1, 2, 3])])
  {
    var chs := [Channel(1, 0, Consumption), Channel(2, 1, Consumption), Channel(3, 2, Consumption)];
    assert chs[1..][1..][1..] == [];
    assert Bucket(chs, 0) == [chs[0]];
    assert Bucket(chs, 1) == [chs[1]];
    assert Bucket(chs, 2) == [chs[2]];
    assert FirstUnknownPhase(chs) == None;
    var r := AllocPlan(chs, Some(1), 50);
    assert r.Ok? && |r.value| == 1 && r.value[0] == MeterConfig(50, [1, 2, 3]);
    assert r.value == [MeterConfig(50, [1, 2, 3])];
  }

  /**
   * Buckets of lengths 3, 2 and 1 do not give three partial meters: the pairing
   * index 1 meets the padding of phase 2, and allocation raises there.
   */
  lemma AllocUnevenBucketsFail(channels: seq<Channel>, offset: int)
    requires FirstUnknownPhase(channels).None?
    requires |Bucket(channels, 0)| == 3 && |Bucket(channels, 1)| == 2 && |Bucket(channels, 2)| == 1
    ensures AllocPlan(channels, None, offset) == Err(PaddedSlot(1))
  {
  }
}
