/**
 * The category grid of src/screens/CategoriesScreen.tsx: the list is padded
 * with blank tiles to fill the last row, and each tile is coloured by its
 * position.
 */
module Categories {

  /** A grid entry: a category, or a blank `{ id: 'blank-<slot>', empty: true }`. */
  datatype Tile = Category(id: string, title: string) | Blank(slot: nat) {
    /** The list key: a category's own id, or `blank-` followed by the slot's numeral. */
    function Id(): (r: string)
      ensures Category? ==> r == id
      ensures Blank? ==> |r| > 6 && r[..6] == "blank-" && forall i :: 6 <= i < |r| ==> '0' <= r[i] <= '9'
    {
      match this
      case Category(id, _) => id
      case Blank(slot) => "blank-" + Decimal(slot)
    }
  }

  function Digit(d: nat): (c: char)
    requires d < 10
    ensures '0' <= c <= '9'
  {
    ('0' as int + d) as char
  }

  /** The decimal numeral of n, as a template literal writes it. */
  function Decimal(n: nat): (s: string)
    ensures |s| >= 1
    ensures forall i :: 0 <= i < |s| ==> '0' <= s[i] <= '9'
    decreases n
  {
    if n < 10 then [Digit(n)] else Decimal(n / 10) + [Digit(n % 10)]
  }

  /** Different numbers have different numerals, so blank tiles have different ids. */
  lemma {:induction false} DecimalInjective(a: nat, b: nat)
    requires Decimal(a) == Decimal(b)
    ensures a == b
    decreases a
  {
    if a >= 10 && b >= 10 {
      var da, db := Decimal(a), Decimal(b);
      assert da[|da| - 1] == Digit(a % 10) && db[|db| - 1] == Digit(b % 10);
      assert Decimal(a / 10) == da[..|da| - 1] == db[..|db| - 1] == Decimal(b / 10);
      DecimalInjective(a / 10, b / 10);
    } else if a < 10 && b < 10 {
      assert Decimal(a)[0] == Digit(a) && Decimal(b)[0] == Digit(b);
    }
  }

  lemma BlankIdsDistinct(k1: nat, k2: nat)
    requires k1 != k2
    ensures Blank(k1).Id() != Blank(k2).Id()
  {
    if Blank(k1).Id() == Blank(k2).Id() {
      var p := "blank-";
      assert Blank(k1).Id()[|p|..] == Decimal(k1);
      assert Blank(k2).Id()[|p|..] == Decimal(k2);
      DecimalInjective(k1, k2);
    }
  }

  /** The blanks with slots from..to-1, in order. */
  function Blanks(from: nat, to: nat): (r: seq<Tile>)
    requires from <= to
    ensures |r| == to - from
    ensures forall k :: 0 <= k < |r| ==> r[k] == Blank(from + k)
  {
    seq(to - from, k requires 0 <= k < to - from => Blank(from + k))
  }

  /** What `formatData(data, columns)` returns, in closed form. */
  function Padded(data: seq<Tile>, columns: nat): (r: seq<Tile>)
    requires columns > 0
    ensures |data| <= |r| < |data| + columns && r[..|data|] == data
  {
    var r := |data| % columns;
    if r == 0 then data else data + Blanks(r, columns)
  }

  /**
   * The padded grid is the shortest list of whole rows that starts with the
   * data: its length is the least multiple of columns not below |data|.
   */
  lemma PaddedShape(data: seq<Tile>, columns: nat)
    requires columns > 0
    ensures var p := Padded(data, columns);
      && |p| % columns == 0
      && |data| <= |p| < |data| + columns
      && p[..|data|] == data
      && (|data| % columns == 0 <==> p == data)
      && forall k :: |data| <= k < |p| ==> p[k] == Blank(|data| % columns + (k - |data|))
  {
    var r := |data| % columns;
    if r != 0 {
      var q := |data| / columns;
      assert |Padded(data, columns)| == (q + 1) * columns by {
        DivMod(|data|, columns);
      }
      MultipleHasNoRemainder(q + 1, columns);
    }
  }

  lemma MultipleHasNoRemainder(m: nat, columns: nat)
    requires columns > 0
    ensures (m * columns) % columns == 0
  {
    var n := m * columns;
    var q, r := n / columns, n % columns;
    DivMod(n, columns);
    var k := m - q;
    assert k * columns == r by {
      assert m * columns - q * columns == r;
    }
    if k >= 1 {
      MulAtLeast(k, columns);
    } else if k <= -1 {
      MulAtLeast(-k, columns);
    }
  }

  lemma MulAtLeast(k: int, c: int)
    requires k >= 1 && c > 0
    ensures k * c >= c
  {
  }

  lemma DivMod(n: nat, c: nat)
    requires c > 0
    ensures n == (n / c) * c + n % c && 0 <= n % c < c
  {
  }

  /**
   * `formatData`: copies the list and pushes blanks, numbered from the
   * length of the last row, until that row is full.
   */
  method FormatData(data: seq<Tile>, columns: nat) returns (dataCopy: seq<Tile>)
    requires columns > 0
    ensures dataCopy == Padded(data, columns)
    ensures |dataCopy| % columns == 0 && |data| <= |dataCopy| < |data| + columns
    ensures dataCopy[..|data|] == data
    ensures forall k :: |data| <= k < |dataCopy| ==> dataCopy[k].Blank?
  {
    dataCopy := data;
    var numberOfFullRows := |dataCopy| / columns;
    var numberOfElementsLastRow := |dataCopy| - numberOfFullRows * columns;
    ghost var r := numberOfElementsLastRow;
    while numberOfElementsLastRow != columns && numberOfElementsLastRow != 0
      invariant r == |data| % columns
      invariant r <= numberOfElementsLastRow <= columns
      invariant r == 0 ==> numberOfElementsLastRow == 0
      invariant dataCopy == data + Blanks(r, numberOfElementsLastRow)
      decreases columns - numberOfElementsLastRow
    {
      dataCopy := dataCopy + [Blank(numberOfElementsLastRow)];
      numberOfElementsLastRow := numberOfElementsLastRow + 1;
    }
    if r == 0 {
      assert dataCopy == data;
    }
    PaddedShape(data, columns);
  }

  const CategoryColors := ["#FF6B6B", "#FFD166", "#06D6A0", "#118AB2", "#6E44FF"]

  const NumColumns := 3

  const CategoryData := [
    Category("1", "Energiczne poranki"),
    Category("2", "Spokojne wieczory"),
    Category("3", "Do zabawy"),
    Category("4", "Do nauki"),
    Category("5", "Podróżne hity")]

  /** The colour of the tile at position index. */
  function TileColor(index: nat): (c: string)
    ensures c in CategoryColors
  {
    CategoryColors[index % |CategoryColors|]
  }

  /** Colours repeat every five tiles, and neighbouring tiles never share one. */
  lemma TileColorCycle(index: nat)
    ensures TileColor(index + 5) == TileColor(index)
    ensures TileColor(index + 1) != TileColor(index)
  {
    assert (index + 5) % 5 == index % 5;
    var k := index % 5;
    assert (index + 1) % 5 == if k == 4 then 0 else k + 1;
  }

  /** A rendered grid cell. */
  datatype Cell = EmptyCell | ColoredCell(title: string, color: string)

  /** `CategoryItem` at position index: blanks render empty, categories in the position's colour. */
  function RenderTile(item: Tile, index: nat): (cell: Cell)
    ensures cell.EmptyCell? <==> item.Blank?
    ensures item.Category? ==> cell == ColoredCell(item.title, CategoryColors[index % 5])
  {
    if item.Blank? then EmptyCell else ColoredCell(item.title, TileColor(index))
  }

  /** The screen's own grid: five categories in three columns give six tiles, the sixth the blank `blank-2`. */
  lemma ScreenGrid()
    ensures var p := Padded(CategoryData, NumColumns);
      && |p| == 6 && p[..5] == CategoryData && p[5] == Blank(2) && p[5].Id() == "blank-2"
  {
    assert Decimal(2) == "2";
  }
}
