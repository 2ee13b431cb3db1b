/**
 * The D-Bus service a meter publishes through, seen as a store from path to value,
 * and the compare-before-write discipline of `Meter.set_path` (dbus_smappee.py) over
 * a sequence of requested writes.
 */
module DbusService {

  /** A value held at a path: Python's None, an integer or a string. */
  datatype Value = Null | Int(i: int) | Str(s: string)

  /** The five per-line items under `/Ac/L{n}/`. */
  datatype LineField = Current | LineEnergyForward | LineEnergyReverse | LinePower | Voltage

  /**
   * The paths a meter registers. `Line(slot, field)` is `/Ac/L{slot+1}/...`;
   * `EnergyForward`, `EnergyReverse` and `Power` are the meter totals under `/Ac/`.
   */
  datatype Path =
    | ProcessName | ProcessVersion | Connection | DeviceInstance | ProductId | ProductName
    | FirmwareVersion | Serial | Connected
    | EnergyForward | EnergyReverse | Line(slot: nat, field: LineField) | Power
    | DebugCts

  /** One `set_path(path, value)` request. */
  datatype Write = Write(path: Path, value: Value)

  type Store = map<Path, Value>

  /** The store after one request: the path holds the value whether or not it was sent. */
  function Put(svc: Store, w: Write): Store
  {
    svc[w.path := w.value]
  }

  /** What one request sends to the bus: nothing when the path already holds the value. */
  function Logged(svc: Store, w: Write): seq<Write>
  {
    if w.path in svc && svc[w.path] == w.value then [] else [w]
  }

  /** The store after the requests `ws`, in order. */
  function ApplyAll(svc: Store, ws: seq<Write>): Store
    decreases |ws|
  {
    if ws == [] then svc else Put(ApplyAll(svc, ws[..|ws| - 1]), ws[|ws| - 1])
  }

  /** The writes the requests `ws` actually send, in order. */
  function Performed(svc: Store, ws: seq<Write>): (r: seq<Write>)
    ensures |r| <= |ws|
    ensures forall w :: w in r ==> w in ws
    decreases |ws|
  {
    if ws == [] then []
    else Performed(svc, ws[..|ws| - 1]) + Logged(ApplyAll(svc, ws[..|ws| - 1]), ws[|ws| - 1])
  }

  /** The requests in `ws` whose value differs from what `svc` holds at their path. */
  function Changed(svc: Store, ws: seq<Write>): (r: seq<Write>)
    decreases |ws|
  {
    if ws == [] then []
    else Changed(svc, ws[..|ws| - 1]) + Logged(svc, ws[|ws| - 1])
  }

  /** No two requests address the same path. */
  predicate DistinctPaths(ws: seq<Write>) {
    forall i, j :: 0 <= i < j < |ws| ==> ws[i].path != ws[j].path
  }

  /** No request addresses `p`. */
  predicate Untouched(ws: seq<Write>, p: Path) {
    forall k :: 0 <= k < |ws| ==> ws[k].path != p
  }

  lemma {:induction false} ApplyAllConcat(svc: Store, a: seq<Write>, b: seq<Write>)
    ensures ApplyAll(svc, a + b) == ApplyAll(ApplyAll(svc, a), b)
    ensures Performed(svc, a + b) == Performed(svc, a) + Performed(ApplyAll(svc, a), b)
    decreases |b|
  {
    if b == [] {
      assert a + b == a;
    } else {
      var b' := b[..|b| - 1];
      assert (a + b)[..|a + b| - 1] == a + b';
      assert (a + b)[|a + b| - 1] == b[|b| - 1];
      ApplyAllConcat(svc, a, b');
    }
  }

  /** A path no request addresses keeps its value. */
  lemma {:induction false} ApplyAllUntouched(svc: Store, ws: seq<Write>, p: Path)
    requires p in svc && Untouched(ws, p)
    ensures p in ApplyAll(svc, ws) && ApplyAll(svc, ws)[p] == svc[p]
    decreases |ws|
  {
    if ws != [] {
      ApplyAllUntouched(svc, ws[..|ws| - 1], p);
    }
  }

  /** When no path is addressed twice, every path ends up holding the value requested for it. */
  lemma {:induction false} ApplyAllWritten(svc: Store, ws: seq<Write>, k: nat)
    requires DistinctPaths(ws) && k < |ws|
    ensures ws[k].path in ApplyAll(svc, ws) && ApplyAll(svc, ws)[ws[k].path] == ws[k].value
    decreases |ws|
  {
    if k < |ws| - 1 {
      ApplyAllWritten(svc, ws[..|ws| - 1], k);
    }
  }

  /** Requests that all match what the store holds send nothing and change nothing. */
  lemma {:induction false} SettledWritesNothing(svc: Store, ws: seq<Write>)
    requires forall k :: 0 <= k < |ws| ==> ws[k].path in svc && svc[ws[k].path] == ws[k].value
    ensures Performed(svc, ws) == [] && ApplyAll(svc, ws) == svc
    decreases |ws|
  {
    if ws != [] {
      SettledWritesNothing(svc, ws[..|ws| - 1]);
    }
  }

  /**
   * Write suppression: repeating requests that address distinct paths sends nothing
   * the second time and leaves the store as the first time left it.
   */
  lemma ReplayWritesNothing(svc: Store, ws: seq<Write>)
    requires DistinctPaths(ws)
    ensures Performed(ApplyAll(svc, ws), ws) == []
    ensures ApplyAll(ApplyAll(svc, ws), ws) == ApplyAll(svc, ws)
  {
    forall k | 0 <= k < |ws|
      ensures ws[k].path in ApplyAll(svc, ws) && ApplyAll(svc, ws)[ws[k].path] == ws[k].value
    {
      ApplyAllWritten(svc, ws, k);
    }
    SettledWritesNothing(ApplyAll(svc, ws), ws);
  }

  /**
   * For requests on distinct paths, what is sent is exactly the requests whose value
   * differs from the one stored before the first of them.
   */
  lemma {:induction false} PerformedIsChanged(svc: Store, ws: seq<Write>)
    requires DistinctPaths(ws)
    ensures Performed(svc, ws) == Changed(svc, ws)
    decreases |ws|
  {
    if ws != [] {
      var init, last := ws[..|ws| - 1], ws[|ws| - 1];
      PerformedIsChanged(svc, init);
      if last.path in svc {
        ApplyAllUntouched(svc, init, last.path);
      } else {
        NotAddedUnlessWritten(svc, init, last.path);
      }
    }
  }

  /** A path the store lacks and no request addresses stays absent. */
  lemma {:induction false} NotAddedUnlessWritten(svc: Store, ws: seq<Write>, p: Path)
    requires p !in svc && Untouched(ws, p)
    ensures p !in ApplyAll(svc, ws)
    decreases |ws|
  {
    if ws != [] {
      NotAddedUnlessWritten(svc, ws[..|ws| - 1], p);
    }
  }

  /** Joining two request lists that address distinct paths, and no path in common. */
  lemma DistinctConcat(a: seq<Write>, b: seq<Write>)
    requires DistinctPaths(a) && DistinctPaths(b)
    requires forall i, j :: 0 <= i < |a| && 0 <= j < |b| ==> a[i].path != b[j].path
    ensures DistinctPaths(a + b)
  {
    forall i, j | 0 <= i < j < |a + b| ensures (a + b)[i].path != (a + b)[j].path {
      if j < |a| {
      } else if i < |a| {
        assert (a + b)[j] == b[j - |a|];
      } else {
        assert (a + b)[i] == b[i - |a|] && (a + b)[j] == b[j - |a|];
      }
    }
  }

  /**
   * Starting from store `s0` with `l0` already sent, the requests `ws` leave store
   * `s1` with `l1` sent.
   */
  predicate Steps(s0: Store, l0: seq<Write>, ws: seq<Write>, s1: Store, l1: seq<Write>) {
    s1 == ApplyAll(s0, ws) && l1 == l0 + Performed(s0, ws)
  }

  lemma StepsNone(s0: Store, l0: seq<Write>)
    ensures Steps(s0, l0, [], s0, l0)
  {
    assert l0 + [] == l0;
  }

  /** A run of requests followed by one more request. */
  lemma StepsSnoc(s0: Store, l0: seq<Write>, ws: seq<Write>, s1: Store, l1: seq<Write>, w: Write)
    requires Steps(s0, l0, ws, s1, l1)
    ensures Steps(s0, l0, ws + [w], Put(s1, w), l1 + Logged(s1, w))
  {
    assert (ws + [w])[..|ws|] == ws;
  }

  /** Two runs of requests, one after the other, are the run of their concatenation. */
  lemma StepsConcat(s0: Store, l0: seq<Write>, a: seq<Write>, s1: Store, l1: seq<Write>,
                    b: seq<Write>, s2: Store, l2: seq<Write>)
    requires Steps(s0, l0, a, s1, l1) && Steps(s1, l1, b, s2, l2)
    ensures Steps(s0, l0, a + b, s2, l2)
  {
    ApplyAllConcat(s0, a, b);
  }
}
