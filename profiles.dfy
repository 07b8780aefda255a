/** Complexity profiles of the asteroids field: a fixed table of ten rows,
    indexed by complexity level, giving the workload size of the field. */
module Profiles {

  /** The source's `uint32_t`. */
  newtype uint32 = x: int | 0 <= x < 0x1_0000_0000

  const MAX_COMPLEXITY: uint32 := 9

  /** One row of the profile table. `scaleRatio` is a C++ `float`; it is
      modelled as an exact `real`. */
  datatype MutableParameters = MutableParameters(
    instancesCount: nat,
    uniqueMeshCount: nat,
    texturesCount: nat,
    scaleRatio: real)

  /** The ten rows, level 0 first. */
  const PROFILES: seq<MutableParameters> := [
    MutableParameters(1000, 35, 10, 0.6),
    MutableParameters(2000, 50, 10, 0.5),
    MutableParameters(3000, 75, 20, 0.45),
    MutableParameters(4000, 100, 20, 0.4),
    MutableParameters(5000, 200, 30, 0.33),
    MutableParameters(10000, 300, 30, 0.3),
    MutableParameters(15000, 400, 40, 0.27),
    MutableParameters(20000, 500, 40, 0.23),
    MutableParameters(35000, 750, 50, 0.2),
    MutableParameters(50000, 1000, 50, 0.17)
  ]

  /** `std::min(complexity, g_max_complexity)`. */
  function ClampComplexity(complexity: uint32): (r: uint32)
    ensures r <= MAX_COMPLEXITY
    ensures r <= complexity
    ensures r == complexity || r == MAX_COMPLEXITY
  {
    if complexity < MAX_COMPLEXITY then complexity else MAX_COMPLEXITY
  }

  /** The profile row of a level; every level above the maximum reads the
      last row. */
  function GetMutableParameters(complexity: uint32): (p: MutableParameters)
    ensures complexity <= MAX_COMPLEXITY ==> p == PROFILES[complexity]
    ensures complexity > MAX_COMPLEXITY ==> p == MutableParameters(50000, 1000, 50, 0.17)
  {
    PROFILES[ClampComplexity(complexity)]
  }

  // ---------------------------------------------------------------------
  // Shape of the table

  function InstancesCounts(): seq<int> { seq(|PROFILES|, i requires 0 <= i < |PROFILES| => PROFILES[i].instancesCount) }
  function UniqueMeshCounts(): seq<int> { seq(|PROFILES|, i requires 0 <= i < |PROFILES| => PROFILES[i].uniqueMeshCount) }
  function TexturesCounts(): seq<int> { seq(|PROFILES|, i requires 0 <= i < |PROFILES| => PROFILES[i].texturesCount) }
  function ScaleRatios(): seq<real> { seq(|PROFILES|, i requires 0 <= i < |PROFILES| => PROFILES[i].scaleRatio) }

  ghost predicate StrictlyIncreasing(s: seq<int>) {
    forall i, j :: 0 <= i < j < |s| ==> s[i] < s[j]
  }

  ghost predicate NonDecreasing(s: seq<int>) {
    forall i, j :: 0 <= i < j < |s| ==> s[i] <= s[j]
  }

  ghost predicate StrictlyDecreasing(s: seq<real>) {
    forall i, j :: 0 <= i < j < |s| ==> s[i] > s[j]
  }

  /** Comparing neighbours is enough for a strict increase. */
  lemma {:induction false} IncreasingFromNeighbours(s: seq<int>)
    requires forall k :: 0 <= k < |s| - 1 ==> s[k] < s[k + 1]
    ensures StrictlyIncreasing(s)
  {
    if |s| > 1 {
      IncreasingFromNeighbours(s[1..]);
      forall j | 1 < j < |s| ensures s[0] < s[j] {
        assert s[1..][0] < s[1..][j - 1];
      }
    }
  }

  /** Comparing neighbours is enough for a non-strict increase. */
  lemma {:induction false} NonDecreasingFromNeighbours(s: seq<int>)
    requires forall k :: 0 <= k < |s| - 1 ==> s[k] <= s[k + 1]
    ensures NonDecreasing(s)
  {
    if |s| > 1 {
      NonDecreasingFromNeighbours(s[1..]);
      forall j | 1 < j < |s| ensures s[0] <= s[j] {
        assert s[1..][0] <= s[1..][j - 1];
      }
    }
  }

  /** Comparing neighbours is enough for a strict decrease. */
  lemma {:induction false} DecreasingFromNeighbours(s: seq<real>)
    requires forall k :: 0 <= k < |s| - 1 ==> s[k] > s[k + 1]
    ensures StrictlyDecreasing(s)
  {
    if |s| > 1 {
      DecreasingFromNeighbours(s[1..]);
      forall j | 1 < j < |s| ensures s[0] > s[j] {
        assert s[1..][0] > s[1..][j - 1];
      }
    }
  }

  /** A higher level never means less work: more instances, more distinct
      meshes, at least as many textures, and smaller asteroids. */
  lemma WorkloadGrowsWithLevel()
    ensures StrictlyIncreasing(InstancesCounts())
    ensures StrictlyIncreasing(UniqueMeshCounts())
    ensures NonDecreasing(TexturesCounts())
    ensures StrictlyDecreasing(ScaleRatios())
  {
    IncreasingFromNeighbours(InstancesCounts());
    IncreasingFromNeighbours(UniqueMeshCounts());
    NonDecreasingFromNeighbours(TexturesCounts());
    DecreasingFromNeighbours(ScaleRatios());
  }

  /** The two ends of the table. */
  lemma ProfileEnds()
    ensures GetMutableParameters(0) == MutableParameters(1000, 35, 10, 0.6)
    ensures forall c: uint32 :: c >= MAX_COMPLEXITY ==> GetMutableParameters(c) == MutableParameters(50000, 1000, 50, 0.17)
  {
  }

  // ---------------------------------------------------------------------
  // Default complexity

  /** `GetDefaultComplexity()` as written: 1 in a debug build, otherwise half
      the hardware thread count, with no clamp to the table. */
  function DefaultComplexityAsWritten(debugBuild: bool, hardwareConcurrency: uint32): (c: uint32)
    ensures debugBuild ==> c == 1
    ensures !debugBuild ==> 2 * (c as int) <= hardwareConcurrency as int < 2 * (c as int) + 2
  {
    if debugBuild then 1 else hardwareConcurrency / 2
  }

  /** On a machine with 20 hardware threads the starting level is 10, outside
      [0..9]; a request for level 9 is then taken as a change of level, and so
      drains the GPU and rebuilds the field, although the profile row stays
      the same. */
  lemma DefaultComplexityLeavesRange()
    ensures DefaultComplexityAsWritten(false, 20) == 10 > MAX_COMPLEXITY
    ensures ClampComplexity(9) != DefaultComplexityAsWritten(false, 20)
    ensures GetMutableParameters(9) == GetMutableParameters(DefaultComplexityAsWritten(false, 20))
  {
  }

  /** The starting level, clamped to the table. It selects the same profile
      row as the unclamped value, so only the recorded level differs. */
  function DefaultComplexity(debugBuild: bool, hardwareConcurrency: uint32): (c: uint32)
    ensures c <= MAX_COMPLEXITY
    ensures GetMutableParameters(c) == GetMutableParameters(DefaultComplexityAsWritten(debugBuild, hardwareConcurrency))
    ensures DefaultComplexityAsWritten(debugBuild, hardwareConcurrency) <= MAX_COMPLEXITY ==>
              c == DefaultComplexityAsWritten(debugBuild, hardwareConcurrency)
  {
    ClampComplexity(DefaultComplexityAsWritten(debugBuild, hardwareConcurrency))
  }
}
