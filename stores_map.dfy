/** The floor-map view of the directory (src/components/stores/StoresMap.tsx):
    the floor tab, the stores on the selected floor and the grid part of each
    marker's position. */
module StoresMap {
  import opened JsBuiltins
  import opened StoresStore

  /** The canvas and its grid. */
  const Width: int := 600
  const Height: int := 400
  const StoresPerRow: int := 3

  /** `storesByFloor`: the stores on the selected floor, in the order given. */
  function StoresByFloor(stores: seq<Store>, activeFloor: int): (r: seq<Store>)
    ensures IsSubsequence(r, stores)
    ensures forall x :: x in r <==> x in stores && x.floor == activeFloor
  {
    Filter(stores, (x: Store) => x.floor == activeFloor)
  }

  /** The grid cell of the marker with the given index. */
  datatype Slot = Slot(row: nat, col: nat)

  function GridSlot(index: nat): (s: Slot)
    ensures s.col < StoresPerRow
    ensures index == s.row * StoresPerRow + s.col
  {
    Slot(index / StoresPerRow, index % StoresPerRow)
  }

  datatype Point = Point(x: int, y: int)

  /** The part of `getStorePosition` before the offset: the cell widths
      600 / (3 + 1) and 400 / 4 are whole numbers, so this is exact. */
  function BasePosition(index: nat): (p: Point)
    ensures p.x == 150 || p.x == 300 || p.x == 450
    ensures 0 < p.x < Width
    ensures 0 < p.y && (p.y < Height <==> index < 9)
  {
    var slot := GridSlot(index);
    Point((slot.col + 1) * (Width / (StoresPerRow + 1)), (slot.row + 1) * (Height / 4))
  }

  /** Different indices are placed in different cells. */
  lemma BasePositionInjective(i: nat, j: nat)
    requires i != j
    ensures BasePosition(i) != BasePosition(j)
  {
  }

  /** The base positions of the markers of one floor, by index in `storesByFloor`:
      one per store, no two alike. */
  function BaseLayout(stores: seq<Store>, activeFloor: int): (ps: seq<Point>)
    ensures |ps| == |StoresByFloor(stores, activeFloor)|
    ensures forall i, j :: 0 <= i < j < |ps| ==> ps[i] != ps[j]
  {
    var ps := seq(|StoresByFloor(stores, activeFloor)|, (i: int) requires 0 <= i => BasePosition(i));
    assert forall i, j :: 0 <= i < j < |ps| ==> ps[i] != ps[j] by {
      forall i, j | 0 <= i < j < |ps| ensures ps[i] != ps[j] {
        BasePositionInjective(i, j);
      }
    }
    ps
  }

  // ---------------------------------------------------------------------------
  // The floor tabs

  /** The value of the tab for a floor: `activeFloor.toString()`. */
  function TabValue(floor: FloorNumber): string {
    [('0' as int + floor) as char]
  }

  predicate IsTabValue(value: string) {
    value == "1" || value == "2" || value == "3"
  }

  /** `parseInt(value)` on the value of one of the three tabs. */
  function ParseTabValue(value: string): (floor: FloorNumber)
    requires IsTabValue(value)
    ensures TabValue(floor) == value
  {
    value[0] as int - '0' as int
  }

  /** Every floor's tab value is a tab value, and parsing it gives the floor back. */
  lemma TabValueRoundTrip(floor: FloorNumber)
    ensures IsTabValue(TabValue(floor))
    ensures ParseTabValue(TabValue(floor)) == floor
  {
  }

  /** The component's `activeFloor` state. */
  class FloorMap {
    var activeFloor: int

    /** The map opens on the first floor. */
    constructor ()
      ensures activeFloor == 1
    {
      activeFloor := 1;
    }

    /** Selecting a tab replaces the floor by the tab's number. */
    method SelectTab(value: string)
      requires IsTabValue(value)
      modifies this
      ensures 1 <= activeFloor <= 3 && TabValue(activeFloor) == value
    {
      activeFloor := ParseTabValue(value);
    }
  }
}
