/**
 * The economic-health grid: a 20x20 torus of cells in [0,1], stored row-major
 * in a flat array of 400 cells. Once per round every cell moves by the round's
 * tariff and retaliation impact, scaled by the bloc the cell lies in, plus a
 * tenth of the mean health of its eight Moore neighbours, and is clamped to
 * [0,1]. All new values are computed from the grid as it was before the
 * round and committed together.
 */
module GridModel {
  import opened Wrappers
  import opened Agents
  import Accumulation

  const GridSize: nat := 20
  const CellCount: nat := GridSize * GridSize

  /** Row-major index of cell (i, j). */
  function Idx(i: int, j: int): (k: int)
    requires 0 <= i < GridSize && 0 <= j < GridSize
    ensures 0 <= k < CellCount
  {
    i * GridSize + j
  }

  /**
   * Row-major indexing is a bijection between the cells and [0, CellCount):
   * every flat index is the index of its row and column, and every cell's
   * row and column are recovered from its index.
   */
  lemma IdxOfRowColumn(k: int)
    requires 0 <= k < CellCount
    ensures 0 <= k / GridSize < GridSize && 0 <= k % GridSize < GridSize
    ensures Idx(k / GridSize, k % GridSize) == k
    ensures forall i, j :: 0 <= i < GridSize && 0 <= j < GridSize ==> Idx(i, j) / GridSize == i && Idx(i, j) % GridSize == j
  {
  }

  // The neighbourhood.

  const NeighborOffsets: seq<(int, int)> := [(-1, -1), (-1, 0), (-1, 1), (0, -1), (0, 1), (1, -1), (1, 0), (1, 1)]

  predicate IsMooreOffset(o: (int, int)) {
    -1 <= o.0 <= 1 && -1 <= o.1 <= 1 && o != (0, 0)
  }

  /** Exactly the eight offsets in {-1,0,1}^2 other than (0,0), each once. */
  ghost predicate IsMooreNeighborhood(offs: seq<(int, int)>) {
    && |offs| == 8
    && (forall k :: 0 <= k < |offs| ==> IsMooreOffset(offs[k]))
    && (forall di, dj :: IsMooreOffset((di, dj)) ==> (di, dj) in offs)
    && (forall k, m :: 0 <= k < m < |offs| ==> offs[k] != offs[m])
  }

  /** Offsets whose components lie in {-1,0,1}. */
  ghost predicate UnitOffsets(offs: seq<(int, int)>) {
    forall k :: 0 <= k < |offs| ==> -1 <= offs[k].0 <= 1 && -1 <= offs[k].1 <= 1
  }

  lemma NeighborOffsetsAreUnit()
    ensures UnitOffsets(NeighborOffsets)
  {
  }

  lemma NeighborOffsetsAreMoore()
    ensures IsMooreNeighborhood(NeighborOffsets)
  {
    forall di, dj | IsMooreOffset((di, dj)) ensures (di, dj) in NeighborOffsets {
      if di == -1 {
        assert (di, dj) == NeighborOffsets[dj + 1];
      } else if di == 0 {
        assert (di, dj) == NeighborOffsets[if dj < 0 then 3 else 4];
      } else {
        assert (di, dj) == NeighborOffsets[dj + 6];
      }
    }
  }

  /** Number of offsets pushed before the nested loops reach (di, dj). */
  function PushedBefore(di: int, dj: int): int {
    3 * (di + 1) + (dj + 1) - (if di > 0 || (di == 0 && dj > 0) then 1 else 0)
  }

  /** The loops that fill the offset table: every (di, dj) in {-1,0,1}^2 but (0,0), row by row. */
  method BuildNeighborOffsets() returns (offs: seq<(int, int)>)
    ensures offs == NeighborOffsets
  {
    offs := [];
    var di := -1;
    while di <= 1
      invariant -1 <= di <= 2
      invariant offs == NeighborOffsets[..PushedBefore(di, -1)]
    {
      var dj := -1;
      while dj <= 1
        invariant -1 <= dj <= 2
        invariant offs == NeighborOffsets[..PushedBefore(di, dj)]
      {
        if !(di == 0 && dj == 0) {
          assert NeighborOffsets[PushedBefore(di, dj)] == (di, dj);
          offs := offs + [(di, dj)];
        }
        dj := dj + 1;
      }
      di := di + 1;
    }
  }

  /** `(x + d + GRID_SIZE) % GRID_SIZE`; the left operand is never negative, so JavaScript's `%` agrees with Dafny's. */
  function Wrap(x: int, d: int): (r: int)
    requires 0 <= x < GridSize && -1 <= d <= 1
    ensures 0 <= r < GridSize
    ensures r == if x + d < 0 then GridSize - 1 else if x + d == GridSize then 0 else x + d
  {
    (x + d + GridSize) % GridSize
  }

  /** Sum of the cells at the given offsets from (i, j), wrapped around the torus, added in order. */
  function NeighborSum(g: seq<real>, i: int, j: int, offs: seq<(int, int)>): real
    requires |g| == CellCount && 0 <= i < GridSize && 0 <= j < GridSize && UnitOffsets(offs)
  {
    if offs == [] then 0.0
    else
      var o := offs[|offs| - 1];
      NeighborSum(g, i, j, offs[..|offs| - 1]) + g[Idx(Wrap(i, o.0), Wrap(j, o.1))]
  }

  /** Mean health of the eight neighbours of (i, j). */
  function NeighborHealth(g: seq<real>, i: int, j: int): real
    requires |g| == CellCount && 0 <= i < GridSize && 0 <= j < GridSize
  {
    NeighborOffsetsAreUnit();
    NeighborSum(g, i, j, NeighborOffsets) / 8.0
  }

  // Blocs.

  /** An inclusive rectangle of cells, from `lo` to `hi`, with its tariff multiplier. */
  datatype Bloc = Bloc(lo: (int, int), hi: (int, int), tariffFactor: real)

  const Blocs: seq<Bloc> := [
    Bloc((0, 0), (5, 5), 0.5),      // USMCA
    Bloc((10, 10), (15, 15), 1.5)   // BRICS
  ]

  predicate InBloc(b: Bloc, i: int, j: int) {
    b.lo.0 <= i <= b.hi.0 && b.lo.1 <= j <= b.hi.1
  }

  /** `blocs.find(...)`: the first bloc containing (i, j), if any. */
  function FindBloc(bs: seq<Bloc>, i: int, j: int): (r: Option<Bloc>)
    ensures r.None? <==> forall k :: 0 <= k < |bs| ==> !InBloc(bs[k], i, j)
    ensures forall k :: 0 <= k < |bs| && InBloc(bs[k], i, j) && (forall m :: 0 <= m < k ==> !InBloc(bs[m], i, j)) ==> r == Some(bs[k])
  {
    if bs == [] then None
    else if InBloc(bs[0], i, j) then Some(bs[0])
    else FindBloc(bs[1..], i, j)
  }

  /** `find(...)?.tariffFactor || 1`. */
  function BlocFactor(i: int, j: int): real {
    match FindBloc(Blocs, i, j)
    case Some(b) => if b.tariffFactor != 0.0 then b.tariffFactor else 1.0
    case None => 1.0
  }

  /** Rows and columns 0..5 weigh tariffs by 0.5, rows and columns 10..15 by 1.5, every other cell by 1. */
  lemma BlocFactorRegions(i: int, j: int)
    ensures BlocFactor(i, j) ==
      if 0 <= i <= 5 && 0 <= j <= 5 then 0.5
      else if 10 <= i <= 15 && 10 <= j <= 15 then 1.5
      else 1.0
  {
    if InBloc(Blocs[0], i, j) {
      assert FindBloc(Blocs, i, j) == Some(Blocs[0]);
    } else if InBloc(Blocs[1], i, j) {
      assert FindBloc(Blocs, i, j) == Some(Blocs[1]);
    }
  }

  // The update rule.

  /** `Math.max(0, Math.min(1, x))`. */
  function Clamp(x: real): (r: real)
    ensures 0.0 <= r <= 1.0
    ensures 0.0 <= x <= 1.0 ==> r == x
    ensures x < 0.0 ==> r == 0.0
    ensures x > 1.0 ==> r == 1.0
  {
    var low := if 1.0 < x then 1.0 else x;
    if 0.0 > low then 0.0 else low
  }

  /** The actions a grid update reads: the trade authority's, the monetary union's and the manufacturer's. */
  ghost predicate RoundActions(actions: map<Agent, Action>) {
    US in actions && EU in actions && China in actions && ValidPrior(actions)
  }

  /** Mean of the trade authority's tariff rates. */
  function TariffImpact(actions: map<Agent, Action>): real
    requires RoundActions(actions)
  {
    Accumulation.Sum(actions[US].tariffs.value.rates) / 3.0
  }

  /** The monetary union's plus the manufacturer's counter-tariffs. */
  function RetaliationImpact(actions: map<Agent, Action>): real
    requires RoundActions(actions)
  {
    OrZero(actions[EU].counterTariffs) + OrZero(actions[China].counterTariffs)
  }

  /** The update rule of one cell: its health minus the weighted tariff impact and the retaliation, plus a tenth of its neighbours' mean, clamped. */
  function CellRule(health: real, tariffImpact: real, blocFactor: real, retaliationImpact: real, neighborHealth: real): real {
    Clamp(health - tariffImpact * blocFactor - retaliationImpact + neighborHealth * 0.1)
  }

  /** The new value of cell (i, j), read from the pre-update grid `g` alone. */
  function NewCell(g: seq<real>, i: int, j: int, tariffImpact: real, retaliationImpact: real): real
    requires |g| == CellCount && 0 <= i < GridSize && 0 <= j < GridSize
  {
    CellRule(g[Idx(i, j)], tariffImpact, BlocFactor(i, j), retaliationImpact, NeighborHealth(g, i, j))
  }

  ghost predicate InUnitRange(g: seq<real>) {
    forall k :: 0 <= k < |g| ==> 0.0 <= g[k] <= 1.0
  }

  /** The grid after one round: every cell recomputed from `g`; every value lies in [0,1] whatever `g` held. */
  function NextGrid(g: seq<real>, tariffImpact: real, retaliationImpact: real): (r: seq<real>)
    requires |g| == CellCount
    ensures |r| == CellCount && InUnitRange(r)
  {
    seq(CellCount, k requires 0 <= k < CellCount =>
      IdxOfRowColumn(k); NewCell(g, k / GridSize, k % GridSize, tariffImpact, retaliationImpact))
  }

  /** Cell (i, j) of the next grid is the new value of (i, j). */
  lemma NextGridAt(g: seq<real>, tariffImpact: real, retaliationImpact: real, i: int, j: int)
    requires |g| == CellCount && 0 <= i < GridSize && 0 <= j < GridSize
    ensures NextGrid(g, tariffImpact, retaliationImpact)[Idx(i, j)] == NewCell(g, i, j, tariffImpact, retaliationImpact)
  {
    var k := Idx(i, j);
    assert k / GridSize == i && k % GridSize == j;
  }

  function Uniform(v: real): (g: seq<real>)
    ensures |g| == CellCount && forall k :: 0 <= k < CellCount ==> g[k] == v
  {
    seq(CellCount, _ => v)
  }

  // Properties of the update rule.

  lemma {:induction false} NeighborSumUniform(v: real, i: int, j: int, offs: seq<(int, int)>)
    requires 0 <= i < GridSize && 0 <= j < GridSize && UnitOffsets(offs)
    ensures NeighborSum(Uniform(v), i, j, offs) == |offs| as real * v
  {
    if offs != [] {
      NeighborSumUniform(v, i, j, offs[..|offs| - 1]);
    }
  }

  /** With no tariffs and no retaliation a grid in full health stays in full health: 1 - 0 - 0 + 0.1 clamps to 1. */
  lemma FullHealthIsFixedPoint()
    ensures NextGrid(Uniform(1.0), 0.0, 0.0) == Uniform(1.0)
  {
    NeighborOffsetsAreUnit();
    var next := NextGrid(Uniform(1.0), 0.0, 0.0);
    forall k | 0 <= k < CellCount ensures next[k] == 1.0 {
      IdxOfRowColumn(k);
      var i, j := k / GridSize, k % GridSize;
      NeighborSumUniform(1.0, i, j, NeighborOffsets);
      NextGridAt(Uniform(1.0), 0.0, 0.0, i, j);
    }
  }

  lemma {:induction false} NeighborSumBounds(g: seq<real>, i: int, j: int, offs: seq<(int, int)>)
    requires |g| == CellCount && InUnitRange(g)
    requires 0 <= i < GridSize && 0 <= j < GridSize && UnitOffsets(offs)
    ensures 0.0 <= NeighborSum(g, i, j, offs) <= |offs| as real
  {
    if offs != [] {
      NeighborSumBounds(g, i, j, offs[..|offs| - 1]);
    }
  }

  /** The neighbour health of a grid in [0,1] is a mean of eight values in [0,1]. */
  lemma NeighborHealthInRange(g: seq<real>, i: int, j: int)
    requires |g| == CellCount && InUnitRange(g)
    requires 0 <= i < GridSize && 0 <= j < GridSize
    ensures 0.0 <= NeighborHealth(g, i, j) <= 1.0
  {
    NeighborOffsetsAreUnit();
    NeighborSumBounds(g, i, j, NeighborOffsets);
  }

  /** Flat index of the neighbour of (i, j) at offset `o`. */
  function NeighborIdx(i: int, j: int, o: (int, int)): (k: int)
    requires 0 <= i < GridSize && 0 <= j < GridSize && -1 <= o.0 <= 1 && -1 <= o.1 <= 1
    ensures 0 <= k < CellCount
  {
    Idx(Wrap(i, o.0), Wrap(j, o.1))
  }

  lemma {:induction false} NeighborSumLocal(g1: seq<real>, g2: seq<real>, i: int, j: int, offs: seq<(int, int)>)
    requires |g1| == CellCount && |g2| == CellCount
    requires 0 <= i < GridSize && 0 <= j < GridSize && UnitOffsets(offs)
    requires forall k :: 0 <= k < |offs| ==> g1[NeighborIdx(i, j, offs[k])] == g2[NeighborIdx(i, j, offs[k])]
    ensures NeighborSum(g1, i, j, offs) == NeighborSum(g2, i, j, offs)
  {
    if offs != [] {
      var init := offs[..|offs| - 1];
      assert forall k :: 0 <= k < |init| ==> init[k] == offs[k];
      NeighborSumLocal(g1, g2, i, j, init);
      assert g1[NeighborIdx(i, j, offs[|offs| - 1])] == g2[NeighborIdx(i, j, offs[|offs| - 1])];
    }
  }

  /**
   * The stencil: the new value of (i, j) depends only on the old value of
   * (i, j) and of its eight torus neighbours.
   */
  lemma NewCellLocal(g1: seq<real>, g2: seq<real>, i: int, j: int, tariffImpact: real, retaliationImpact: real)
    requires |g1| == CellCount && |g2| == CellCount
    requires 0 <= i < GridSize && 0 <= j < GridSize
    requires g1[Idx(i, j)] == g2[Idx(i, j)]
    requires forall di, dj :: -1 <= di <= 1 && -1 <= dj <= 1 ==> g1[NeighborIdx(i, j, (di, dj))] == g2[NeighborIdx(i, j, (di, dj))]
    ensures NewCell(g1, i, j, tariffImpact, retaliationImpact) == NewCell(g2, i, j, tariffImpact, retaliationImpact)
  {
    NeighborOffsetsAreUnit();
    NeighborSumLocal(g1, g2, i, j, NeighborOffsets);
  }

  /** The tariff impact of a round, by the trade authority's strategy. */
  lemma TariffImpactOfProfile(p: map<Agent, Strategy>)
    requires IsProfile(p) && US in p && EU in p && China in p
    ensures RoundActions(Play(p))
    ensures TariffImpact(Play(p)) ==
      match p[US].us case Escalate => 0.28 case Moderate => 0.25 case Negotiate => 0.0
  {
    PlayIsValidPrior(p);
    match p[US]
    case UsPlays(u) =>
      match u
      case Escalate => Accumulation.SumOfThree(0.1, 0.54, 0.2);
      case Moderate => Accumulation.SumOfThree(0.25, 0.25, 0.25);
      case Negotiate => Accumulation.SumOfThree(0.0, 0.0, 0.0);
  }

  /** The retaliation impact of a round: 0.2 if the monetary union retaliated, plus 0.34 if the manufacturer did. */
  lemma RetaliationImpactOfProfile(p: map<Agent, Strategy>)
    requires IsProfile(p) && US in p && EU in p && China in p
    ensures RoundActions(Play(p))
    ensures RetaliationImpact(Play(p)) ==
      (if p[EU] == EuPlays(EuStrategy.Retaliate) then 0.2 else 0.0)
      + (if p[China] == ChinaPlays(ChinaStrategy.Retaliate) then 0.34 else 0.0)
  {
    PlayIsValidPrior(p);
    var actions := Play(p);
    assert OrZero(actions[EU].counterTariffs) == if p[EU] == EuPlays(EuStrategy.Retaliate) then 0.2 else 0.0 by {
      match p[EU] case EuPlays(e) =>
    }
    assert OrZero(actions[China].counterTariffs) == if p[China] == ChinaPlays(ChinaStrategy.Retaliate) then 0.34 else 0.0 by {
      match p[China] case ChinaPlays(c) =>
    }
  }

  /**
   * When the trade authority negotiates and neither the monetary union nor
   * the manufacturer retaliates, a grid in full health stays in full health.
   */
  lemma PeaceKeepsFullHealth(p: map<Agent, Strategy>)
    requires IsProfile(p) && US in p && EU in p && China in p
    requires p[US] == UsPlays(Negotiate)
    requires p[EU] != EuPlays(EuStrategy.Retaliate) && p[China] != ChinaPlays(ChinaStrategy.Retaliate)
    ensures RoundActions(Play(p))
    ensures NextGrid(Uniform(1.0), TariffImpact(Play(p)), RetaliationImpact(Play(p))) == Uniform(1.0)
  {
    TariffImpactOfProfile(p);
    RetaliationImpactOfProfile(p);
    FullHealthIsFixedPoint();
  }

  class Grid {
    const cells: array<real>

    ghost predicate Valid()
      reads this, cells
    {
      cells.Length == CellCount && InUnitRange(cells[..])
    }

    /** `new Float32Array(GRID_SIZE * GRID_SIZE).fill(1)`. */
    constructor ()
      ensures Valid() && fresh(cells)
      ensures cells[..] == Uniform(1.0)
    {
      cells := new real[CellCount](_ => 1.0);
    }

    /** The inner loop of the sweep's body: the eight neighbours of (i, j) summed in offset order. */
    method SumNeighbors(i: int, j: int) returns (neighborSum: real)
      requires cells.Length == CellCount
      requires 0 <= i < GridSize && 0 <= j < GridSize
      ensures neighborSum == NeighborSum(cells[..], i, j, NeighborOffsets)
    {
      NeighborOffsetsAreUnit();
      neighborSum := 0.0;
      for n := 0 to |NeighborOffsets|
        invariant neighborSum == NeighborSum(cells[..], i, j, NeighborOffsets[..n])
      {
        var (di, dj) := NeighborOffsets[n];
        var ni := (i + di + GridSize) % GridSize;
        var nj := (j + dj + GridSize) % GridSize;
        assert NeighborOffsets[..n + 1][..n] == NeighborOffsets[..n];
        neighborSum := neighborSum + cells[Idx(ni, nj)];
      }
      assert NeighborOffsets[..|NeighborOffsets|] == NeighborOffsets;
    }

    /** One pass of the sweep's body: the new value of cell (i, j), read from the current cells. */
    method ComputeCell(i: int, j: int, tariffImpact: real, retaliationImpact: real) returns (v: real)
      requires cells.Length == CellCount
      requires 0 <= i < GridSize && 0 <= j < GridSize
      ensures v == NewCell(cells[..], i, j, tariffImpact, retaliationImpact)
    {
      var idx := Idx(i, j);
      var neighborSum := SumNeighbors(i, j);
      var neighborHealth := neighborSum / 8.0;
      assert neighborHealth == NeighborHealth(cells[..], i, j);
      assert cells[idx] == cells[..][Idx(i, j)];
      var blocFactor := BlocFactor(i, j);
      v := CellRule(cells[idx], tariffImpact, blocFactor, retaliationImpact, neighborHealth);
    }

    /** The nested sweep: every cell of a fresh copy computed from the current cells, which it leaves alone. */
    method Sweep(tariffImpact: real, retaliationImpact: real) returns (newGrid: array<real>)
      requires cells.Length == CellCount
      ensures fresh(newGrid)
      ensures newGrid[..] == NextGrid(cells[..], tariffImpact, retaliationImpact)
    {
      ghost var next := NextGrid(cells[..], tariffImpact, retaliationImpact);
      newGrid := new real[CellCount](k requires 0 <= k < CellCount reads cells => cells[k]);
      for i := 0 to GridSize
        modifies newGrid
        invariant forall k :: 0 <= k < i * GridSize ==> newGrid[k] == next[k]
      {
        for j := 0 to GridSize
          modifies newGrid
          invariant forall k :: 0 <= k < i * GridSize + j ==> newGrid[k] == next[k]
        {
          var v := ComputeCell(i, j, tariffImpact, retaliationImpact);
          NextGridAt(cells[..], tariffImpact, retaliationImpact, i, j);
          newGrid[Idx(i, j)] := v;
        }
      }
    }

    /** `updateGrid`: sweep into a copy of the old grid, then commit the copy; returns the new snapshot. */
    method Update(actions: map<Agent, Action>) returns (snapshot: seq<real>)
      requires Valid() && RoundActions(actions)
      modifies cells
      ensures Valid()
      ensures cells[..] == NextGrid(old(cells[..]), TariffImpact(actions), RetaliationImpact(actions))
      ensures snapshot == cells[..]
    {
      var newGrid := Sweep(TariffImpact(actions), RetaliationImpact(actions));
      forall k | 0 <= k < CellCount {
        cells[k] := newGrid[k];
      }
      assert cells[..] == newGrid[..];
      snapshot := cells[..];
    }
  }
}
