/** Per-device fault history: append-only, with statistics folded over the whole list. */
module FaultHistory {
  import opened Enums
  import opened Records

  /** The value of `static_cast<int>` applied to an unsigned 32-bit quantity. */
  function AsInt32(n: nat): (i: int)
    ensures n < 0x8000_0000 ==> i == n
  {
    var m := n % UINT32;
    if m < 0x8000_0000 then m else m - UINT32
  }

  /** The cast keeps the value modulo 2^32 and lands in the signed range. */
  lemma AsInt32Exactly(n: nat)
    ensures -0x8000_0000 <= AsInt32(n) < 0x8000_0000
    ensures AsInt32(n) == n % UINT32 || AsInt32(n) == n % UINT32 - UINT32
  {
  }

  datatype Stats = Stats(
    total: U32,
    criticalFatalOpen: U32,
    consecutiveLatest: U32,
    hasOpenFatal: bool,
    hasOpenCritical: bool)

  predicate IsOpenFatal(f: Fault) {
    f.resolution == Open && (f.fatal || f.severity == SEVERITY_FATAL)
  }

  predicate IsOpenCritical(f: Fault) {
    f.resolution == Open && f.severity >= SEVERITY_CRITICAL
  }

  predicate HasOpenFatal(fs: seq<Fault>) {
    exists i :: 0 <= i < |fs| && IsOpenFatal(fs[i])
  }

  predicate HasOpenCritical(fs: seq<Fault>) {
    exists i :: 0 <= i < |fs| && IsOpenCritical(fs[i])
  }

  function CriticalCount(fs: seq<Fault>): nat {
    if fs == [] then 0
    else CriticalCount(fs[..|fs| - 1]) + if IsOpenCritical(fs[|fs| - 1]) then 1 else 0
  }

  /** Length of the run of faults of type `t` at the end of the history. */
  function TrailingRun(fs: seq<Fault>, t: FaultType): (n: nat)
    ensures n <= |fs|
  {
    if fs == [] || fs[|fs| - 1].kind != t then 0
    else 1 + TrailingRun(fs[..|fs| - 1], t)
  }

  function ConsecutiveLatest(fs: seq<Fault>): nat {
    if fs == [] then 0 else TrailingRun(fs, fs[|fs| - 1].kind)
  }

  function StatsOf(fs: seq<Fault>): Stats {
    Stats(|fs| % UINT32, CriticalCount(fs) % UINT32, ConsecutiveLatest(fs) % UINT32,
          HasOpenFatal(fs), HasOpenCritical(fs))
  }

  predicate HasId(fs: seq<Fault>, id: Id) {
    exists i :: 0 <= i < |fs| && fs[i].id == id
  }

  predicate UniqueIds(fs: seq<Fault>) {
    forall i, j :: 0 <= i < j < |fs| ==> fs[i].id != fs[j].id
  }

  /** `n` is the length of the longest suffix made of faults of type `t` only. */
  ghost predicate IsLongestSuffix(fs: seq<Fault>, t: FaultType, n: nat) {
    && n <= |fs|
    && (forall i :: |fs| - n <= i < |fs| ==> fs[i].kind == t)
    && (n < |fs| ==> fs[|fs| - n - 1].kind != t)
  }

  lemma {:induction false} TrailingRunIsLongestSuffix(fs: seq<Fault>, t: FaultType)
    ensures IsLongestSuffix(fs, t, TrailingRun(fs, t))
  {
    if fs != [] && fs[|fs| - 1].kind == t {
      var init := fs[..|fs| - 1];
      TrailingRunIsLongestSuffix(init, t);
      assert forall i :: 0 <= i < |init| ==> init[i] == fs[i];
    }
  }

  lemma StatsAfterRecord(fs: seq<Fault>, f: Fault)
    ensures HasOpenFatal(fs + [f]) <==> HasOpenFatal(fs) || IsOpenFatal(f)
    ensures HasOpenCritical(fs + [f]) <==> HasOpenCritical(fs) || IsOpenCritical(f)
    ensures ConsecutiveLatest(fs + [f]) == 1 + TrailingRun(fs, f.kind)
    ensures CriticalCount(fs + [f]) == CriticalCount(fs) + if IsOpenCritical(f) then 1 else 0
  {
    var gs := fs + [f];
    assert gs[..|gs| - 1] == fs;
    assert gs[|gs| - 1] == f;
    assert forall i :: 0 <= i < |fs| ==> gs[i] == fs[i];
  }

  /** One pass over the history, as the runtime computes the statistics. */
  method ComputeStats(fs: seq<Fault>) returns (s: Stats)
    ensures s == StatsOf(fs)
  {
    var fatal, critical, count := false, false, 0;
    for i := 0 to |fs|
      invariant fatal <==> HasOpenFatal(fs[..i])
      invariant critical <==> HasOpenCritical(fs[..i])
      invariant count == CriticalCount(fs[..i])
    {
      assert fs[..i + 1] == fs[..i] + [fs[i]];
      StatsAfterRecord(fs[..i], fs[i]);
      if fs[i].resolution == Open {
        if fs[i].fatal || fs[i].severity == SEVERITY_FATAL {
          fatal := true;
        }
        if fs[i].severity >= SEVERITY_CRITICAL {
          critical := true;
          count := count + 1;
        }
      }
    }
    assert fs[..|fs|] == fs;
    var run := 0;
    if fs != [] {
      run := ConsecutiveOfType(fs, fs[|fs| - 1].kind);
    }
    s := Stats(|fs| % UINT32, count % UINT32, run % UINT32, fatal, critical);
  }

  method ConsecutiveOfType(fs: seq<Fault>, t: FaultType) returns (n: nat)
    ensures n == TrailingRun(fs, t)
    ensures IsLongestSuffix(fs, t, n)
  {
    n := 0;
    var i := |fs|;
    assert fs[..i] == fs;
    while i > 0 && fs[i - 1].kind == t
      invariant 0 <= i <= |fs|
      invariant n + i == |fs|
      invariant n + TrailingRun(fs[..i], t) == TrailingRun(fs, t)
      decreases i
    {
      assert fs[..i][..i - 1] == fs[..i - 1];
      n, i := n + 1, i - 1;
    }
    TrailingRunIsLongestSuffix(fs, t);
  }
}
