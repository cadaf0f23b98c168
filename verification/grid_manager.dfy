/** The plot table (src/GridManager.ts): a dictionary from island key to a dictionary
    from local key to plot, keys built by `fromCoord`. */
module PlotTable {
  import opened GameTypes
  import opened CoordKeys
  import opened Plots

  /** A local coordinate inside an island's 3 x 3 block. */
  predicate InIsland(c: Coord)
  {
    0 <= c.x < GRID_PER_ISLAND_SIDE && 0 <= c.y < GRID_PER_ISLAND_SIDE
  }

  /** The result of `get`: `null` when the island was never created, `undefined` when
      the island exists but holds no plot under the local key, otherwise the plot. */
  datatype Lookup = Null | Undefined | Found(grid: Grid)

  class GridManager {
    var grids: map<string, map<string, Grid>>

    /** Every island entry holds exactly the plots of its 3 x 3 block, each filed under
        the keys of its own island and local coordinates. */
    ghost predicate Valid()
      reads this
    {
      && (forall k, l :: k in grids && l in grids[k] ==>
            && FromCoord(grids[k][l].islandCoord) == k
            && FromCoord(grids[k][l].coord) == l
            && InIsland(grids[k][l].coord))
      && (forall k, c {:trigger FromCoord(c) in grids[k]} :: k in grids && InIsland(c) ==> FromCoord(c) in grids[k])
    }

    constructor()
      ensures Valid() && grids == map[]
    {
      grids := map[];
    }

    /** getIslandGrids: the island's dictionary, or `undefined`. */
    function GetIslandGrids(islandCoord: Coord): (r: Option<map<string, Grid>>)
      reads this
      ensures r.Some? <==> FromCoord(islandCoord) in grids
      ensures r.Some? ==> r.value == grids[FromCoord(islandCoord)]
    {
      var key := FromCoord(islandCoord);
      if key in grids then Some(grids[key]) else None
    }

    /** get: `null` for an island never created; for a created island the plot filed
        under the local key, which exists exactly for local coordinates in 0..2 and
        carries the coordinates that were asked for. */
    function Get(islandCoord: Coord, coord: Coord): (r: Lookup)
      requires Valid()
      reads this
      ensures r == Null <==> FromCoord(islandCoord) !in grids
      ensures FromCoord(islandCoord) in grids ==> (r.Found? <==> InIsland(coord))
      ensures r.Found? ==> r.grid.islandCoord == islandCoord && r.grid.coord == coord
      ensures r.Found? ==> r.grid == grids[FromCoord(islandCoord)][FromCoord(coord)]
    {
      match GetIslandGrids(islandCoord)
      case None => Null
      case Some(islandGrids) =>
        var key := FromCoord(coord);
        if key in islandGrids then
          var g := islandGrids[key];
          FromCoordInjective(g.coord, coord);
          FromCoordInjective(g.islandCoord, islandCoord);
          Found(g)
        else
          Undefined
    }

    /** createIslandGrids: files a fresh virgin plot for every (i, j) with 0 <= i, j < 3
        under the island's key, replacing whatever the island held before; other islands
        keep their entries. */
    method CreateIslandGrids(islandCoord: Coord)
      requires Valid()
      modifies this
      ensures Valid()
      ensures var key := FromCoord(islandCoord);
        && grids.Keys == old(grids).Keys + {key}
        && (forall k :: k in old(grids) && k != key ==> grids[k] == old(grids)[k])
        && (forall l :: l in grids[key] ==>
              && fresh(grids[key][l])
              && grids[key][l].islandCoord == islandCoord
              && grids[key][l].State() == FreshPlot
              && grids[key][l].deprecatedCalls == 0)
        && (forall c :: InIsland(c) ==> FromCoord(c) in grids[key] && grids[key][FromCoord(c)].coord == c)
    {
      var key := FromCoord(islandCoord);
      var islandGrids := NewIslandGrids(islandCoord);
      grids := grids[key := islandGrids];
      assert grids[key] == islandGrids;
    }

    /** The nested loop of createIslandGrids: one fresh plot per local coordinate of the
        3 x 3 block, filed under the local coordinate's key. */
    static method NewIslandGrids(islandCoord: Coord) returns (islandGrids: map<string, Grid>)
      ensures forall l :: l in islandGrids ==>
        && fresh(islandGrids[l])
        && islandGrids[l].islandCoord == islandCoord
        && FromCoord(islandGrids[l].coord) == l
        && InIsland(islandGrids[l].coord)
        && islandGrids[l].State() == FreshPlot && islandGrids[l].deprecatedCalls == 0
      ensures forall c :: InIsland(c) ==> FromCoord(c) in islandGrids && islandGrids[FromCoord(c)].coord == c
    {
      islandGrids := map[];
      var i := 0;
      while i < GRID_PER_ISLAND_SIDE
        invariant 0 <= i <= GRID_PER_ISLAND_SIDE
        invariant forall l :: l in islandGrids ==>
          && fresh(islandGrids[l])
          && islandGrids[l].islandCoord == islandCoord
          && FromCoord(islandGrids[l].coord) == l
          && InIsland(islandGrids[l].coord)
          && islandGrids[l].State() == FreshPlot && islandGrids[l].deprecatedCalls == 0
        invariant forall c :: InIsland(c) && c.x < i ==> FromCoord(c) in islandGrids
      {
        var j := 0;
        while j < GRID_PER_ISLAND_SIDE
          invariant 0 <= j <= GRID_PER_ISLAND_SIDE
          invariant forall l :: l in islandGrids ==>
            && fresh(islandGrids[l])
            && islandGrids[l].islandCoord == islandCoord
            && FromCoord(islandGrids[l].coord) == l
            && InIsland(islandGrids[l].coord)
            && islandGrids[l].State() == FreshPlot && islandGrids[l].deprecatedCalls == 0
          invariant forall c :: InIsland(c) && (c.x < i || (c.x == i && c.y < j)) ==> FromCoord(c) in islandGrids
        {
          var local := Coord(i, j);
          var g := new Grid(islandCoord, local);
          islandGrids := islandGrids[FromCoord(local) := g];
          j := j + 1;
        }
        i := i + 1;
      }
      forall c | InIsland(c)
        ensures islandGrids[FromCoord(c)].coord == c
      {
        FromCoordInjective(islandGrids[FromCoord(c)].coord, c);
      }
    }

    /** deprecateIslandGrids: invokes `beDeprected` once on every plot of the island and
        on no other plot. `Object.values(undefined)` throws for an island never created:
        `threw` is then true and nothing changes. */
    method DeprecateIslandGrids(islandCoord: Coord) returns (threw: bool)
      requires Valid()
      modifies if FromCoord(islandCoord) in grids then grids[FromCoord(islandCoord)].Values else {}
      ensures threw <==> FromCoord(islandCoord) !in grids
      ensures Valid() && grids == old(grids)
      ensures !threw ==> forall g :: g in grids[FromCoord(islandCoord)].Values ==>
        g.deprecatedCalls == old(g.deprecatedCalls) + 1
      ensures forall k, l :: k in grids && l in grids[k] && k != FromCoord(islandCoord) ==>
        grids[k][l].deprecatedCalls == old(grids[k][l].deprecatedCalls)
        && grids[k][l].State() == old(grids[k][l].State())
    {
      var key := FromCoord(islandCoord);
      if key !in grids {
        return true;
      }
      threw := false;
      var plots := grids[key].Values;
      DeprecateEach(plots);
    }

    /** The `forEach` over the island's plots: `beDeprected` once on each. */
    static method DeprecateEach(plots: set<Grid>)
      modifies plots
      ensures forall g :: g in plots ==> g.deprecatedCalls == old(g.deprecatedCalls) + 1
    {
      var todo := plots;
      while todo != {}
        invariant todo <= plots
        invariant forall g :: g in plots - todo ==> g.deprecatedCalls == old(g.deprecatedCalls) + 1
        invariant forall g :: g in todo ==> g.deprecatedCalls == old(g.deprecatedCalls)
        decreases todo
      {
        var g :| g in todo;
        g.BeDeprecated();
        todo := todo - {g};
      }
    }
  }
}
