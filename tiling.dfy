/** Where draw::tiled puts its copies of a texture: a row-major grid of texture-sized
    tiles that starts at the destination's corner (or, when centred, at a corner shifted
    so the grid is centred) and reaches the destination's right and bottom edges, with
    mirror flips that alternate from column to column and from row to row. A centred
    texture two or more pixels larger than the destination starts inside it. */
module Tiling {
  import opened Geometry

  /** One copy of the texture: where it goes and how it is flipped. */
  datatype Tile = Tile(rect: Rect, hflip: bool, vflip: bool)

  /** The inner loop: columns from x while x < xEnd, stepping by w, toggling hf. */
  function RowTiles(x: int, xEnd: int, y: int, w: int, h: int, hf: bool, vf: bool): seq<Tile>
    requires w > 0
    decreases if x < xEnd then xEnd - x else 0
  {
    if x < xEnd then [Tile(Rect(x, y, w, h), hf, vf)] + RowTiles(x + w, xEnd, y, w, h, !hf, vf)
    else []
  }

  /** The outer loop: rows from y while y < yEnd, stepping by h, toggling vf; every row
      starts again at column x0 with hf false. */
  function GridTiles(x0: int, xEnd: int, y: int, yEnd: int, w: int, h: int, vf: bool): seq<Tile>
    requires w > 0 && h > 0
    decreases if y < yEnd then yEnd - y else 0
  {
    if y < yEnd then RowTiles(x0, xEnd, y, w, h, false, vf) + GridTiles(x0, xEnd, y + h, yEnd, w, h, !vf)
    else []
  }

  /** How far the grid starts before the destination: half the spare room, rounded as C
      rounds (toward zero), when centred; nothing otherwise. */
  function Offset(centered: bool, extent: int, size: int): int
  {
    if centered then CDiv(extent - size, 2) else 0
  }

  /** The tiles draw::tiled copies for a tw x th texture into dst. */
  function TilePlan(dst: Rect, tw: int, th: int, centered: bool): seq<Tile>
    requires tw > 0 && th > 0
  {
    GridTiles(dst.x - Offset(centered, dst.w, tw), dst.x + dst.w,
              dst.y - Offset(centered, dst.h, th), dst.y + dst.h, tw, th, false)
  }

  /** The number of steps of size w from x before reaching xEnd. */
  function Steps(x: int, xEnd: int, w: int): nat
    requires w > 0
    decreases if x < xEnd then xEnd - x else 0
  {
    if x < xEnd then 1 + Steps(x + w, xEnd, w) else 0
  }

  /** The steps cover [x, xEnd) exactly: the last one starts before xEnd and the next
      would start at or after it. */
  lemma {:induction false} StepsCover(x: int, xEnd: int, w: int)
    requires w > 0
    ensures Steps(x, xEnd, w) == 0 <==> x >= xEnd
    ensures Steps(x, xEnd, w) > 0 ==>
      x + (Steps(x, xEnd, w) - 1) * w < xEnd <= x + Steps(x, xEnd, w) * w
    decreases if x < xEnd then xEnd - x else 0
  {
    if x < xEnd {
      StepsCover(x + w, xEnd, w);
      var n := Steps(x, xEnd, w);
      MulStep(n, w);
      MulStep(n - 1, w);
    }
  }

  /** A row has one tile per step. */
  lemma {:induction false} RowTilesCount(x: int, xEnd: int, y: int, w: int, h: int, hf: bool, vf: bool)
    requires w > 0
    ensures |RowTiles(x, xEnd, y, w, h, hf, vf)| == Steps(x, xEnd, w)
    decreases if x < xEnd then xEnd - x else 0
  {
    if x < xEnd {
      RowTilesCount(x + w, xEnd, y, w, h, !hf, vf);
    }
  }

  /** Column i of the row from x is column i - 1 of the row from x + w, whose flip
      starts the other way. */
  lemma ColumnShift(x: int, w: int, hf: bool, i: int)
    requires i > 0
    ensures (x + w) + (i - 1) * w == x + i * w
    ensures (!hf != ((i - 1) % 2 == 1)) == (hf != (i % 2 == 1))
  {
    MulStep(i, w);
  }

  /** Column i of a row starts at x + i*w, has the texture's size, and its horizontal
      flip is hf toggled i times. */
  lemma {:induction false} RowTilesAt(x: int, xEnd: int, y: int, w: int, h: int, hf: bool, vf: bool)
    requires w > 0
    ensures |RowTiles(x, xEnd, y, w, h, hf, vf)| == Steps(x, xEnd, w)
    ensures forall i :: 0 <= i < |RowTiles(x, xEnd, y, w, h, hf, vf)| ==>
      RowTiles(x, xEnd, y, w, h, hf, vf)[i] == Tile(Rect(x + i * w, y, w, h), hf != (i % 2 == 1), vf)
    decreases if x < xEnd then xEnd - x else 0
  {
    RowTilesCount(x, xEnd, y, w, h, hf, vf);
    if x < xEnd {
      RowTilesAt(x + w, xEnd, y, w, h, !hf, vf);
      var rest := RowTiles(x + w, xEnd, y, w, h, !hf, vf);
      var row := [Tile(Rect(x, y, w, h), hf, vf)] + rest;
      forall i | 0 <= i < |row|
        ensures row[i] == Tile(Rect(x + i * w, y, w, h), hf != (i % 2 == 1), vf)
      {
        if i > 0 {
          ColumnShift(x, w, hf, i);
        }
      }
    }
  }

  lemma MulMono(n: int, d: int)
    requires n > 0 && d >= 1
    ensures n * d >= n
  {
    if d > 1 {
      MulMono(n, d - 1);
      assert n * d == n * (d - 1) + n;
    }
  }

  /** Euclidean division is unique. */
  lemma DivModUnique(a: int, n: int, q: int, r: int)
    requires n > 0 && 0 <= r < n && a == n * q + r
    ensures a / n == q && a % n == r
  {
    var q0, r0 := a / n, a % n;
    assert n * q0 + r0 == n * q + r;
    if q0 > q {
      assert n * (q0 - q) == n * q0 - n * q;
      MulMono(n, q0 - q);
    } else if q > q0 {
      assert n * (q - q0) == n * q - n * q0;
      MulMono(n, q - q0);
    }
  }

  lemma DivModStep(k: int, n: int)
    requires n > 0 && k >= n
    ensures (k - n) % n == k % n && (k - n) / n == k / n - 1
  {
    var q, r := k / n, k % n;
    assert n * (q - 1) == n * q - n;
    DivModUnique(k - n, n, q - 1, r);
  }

  /** The tile of GridTiles at index k, where it sits: column k % n and row k / n. */
  predicate AtGridIndex(t: Tile, k: int, n: int, x0: int, y: int, w: int, h: int, vf: bool)
    requires n > 0
  {
    t == Tile(Rect(x0 + (k % n) * w, y + (k / n) * h, w, h), (k % n) % 2 == 1, vf != ((k / n) % 2 == 1))
  }

  /** One step of the induction below: the first row, then the rows after it. */
  lemma GridIndexStep(t: Tile, k: int, n: int, x0: int, y: int, w: int, h: int, vf: bool)
    requires n > 0 && 0 <= k
    requires k < n ==> t == Tile(Rect(x0 + k * w, y, w, h), k % 2 == 1, vf)
    requires k >= n ==> AtGridIndex(t, k - n, n, x0, y + h, w, h, !vf)
    ensures AtGridIndex(t, k, n, x0, y, w, h, vf)
  {
    if k < n {
      DivModUnique(k, n, 0, k);
    } else {
      DivModStep(k, n);
      var j := k / n;
      MulStep(j, h);
      assert (j - 1) % 2 == 1 <==> j % 2 == 0;
    }
  }

  /** The grid in row-major order: tile k sits in column k % n and row k / n, where n is
      the number of columns; its horizontal flip alternates by column and starts false in
      every row, its vertical flip alternates by row. */
  lemma {:induction false} GridTilesAt(x0: int, xEnd: int, y: int, yEnd: int, w: int, h: int, vf: bool)
    requires w > 0 && h > 0
    ensures var n := Steps(x0, xEnd, w);
      |GridTiles(x0, xEnd, y, yEnd, w, h, vf)| == Steps(y, yEnd, h) * n
    ensures var n := Steps(x0, xEnd, w);
      n > 0 ==> forall k :: 0 <= k < |GridTiles(x0, xEnd, y, yEnd, w, h, vf)| ==>
        AtGridIndex(GridTiles(x0, xEnd, y, yEnd, w, h, vf)[k], k, n, x0, y, w, h, vf)
    decreases if y < yEnd then yEnd - y else 0
  {
    var n := Steps(x0, xEnd, w);
    if y < yEnd {
      GridTilesAt(x0, xEnd, y + h, yEnd, w, h, !vf);
      RowTilesAt(x0, xEnd, y, w, h, false, vf);
      var grid := GridTiles(x0, xEnd, y, yEnd, w, h, vf);
      var row := RowTiles(x0, xEnd, y, w, h, false, vf);
      var rest := GridTiles(x0, xEnd, y + h, yEnd, w, h, !vf);
      assert grid == row + rest;
      MulStep(Steps(y, yEnd, h), n);
      if n > 0 {
        forall k | 0 <= k < |grid|
          ensures AtGridIndex(grid[k], k, n, x0, y, w, h, vf)
        {
          if k < n {
            assert grid[k] == row[k];
          } else {
            assert grid[k] == rest[k - n];
          }
          GridIndexStep(grid[k], k, n, x0, y, w, h, vf);
        }
      }
    }
  }

  /** The whole layout of draw::tiled: columns start at dst.x - xoff and advance by the
      texture width, the last one starting before the destination's right edge and the
      grid reaching it; rows likewise; xoff and yoff are zero unless centred; the first
      column starts at or left of the destination unless a centred texture is two or more
      pixels wider, and likewise for rows; every tile has the texture's size; flips
      alternate by column and by row. */
  lemma TilePlanLayout(dst: Rect, tw: int, th: int, centered: bool)
    requires tw > 0 && th > 0
    ensures var xoff, yoff := Offset(centered, dst.w, tw), Offset(centered, dst.h, th);
      var x0, y0 := dst.x - xoff, dst.y - yoff;
      var cols, rows := Steps(x0, dst.x + dst.w, tw), Steps(y0, dst.y + dst.h, th);
      var plan := TilePlan(dst, tw, th, centered);
      && (!centered ==> xoff == 0 && yoff == 0)
      && (x0 <= dst.x <==> !(centered && tw - dst.w >= 2))
      && (y0 <= dst.y <==> !(centered && th - dst.h >= 2))
      && |plan| == rows * cols
      && (cols > 0 ==> x0 + (cols - 1) * tw < dst.x + dst.w <= x0 + cols * tw)
      && (rows > 0 ==> y0 + (rows - 1) * th < dst.y + dst.h <= y0 + rows * th)
      && (cols > 0 ==> forall k :: 0 <= k < |plan| ==>
            plan[k] == Tile(Rect(x0 + (k % cols) * tw, y0 + (k / cols) * th, tw, th),
                            (k % cols) % 2 == 1, (k / cols) % 2 == 1))
  {
    var x0 := dst.x - Offset(centered, dst.w, tw);
    var y0 := dst.y - Offset(centered, dst.h, th);
    StepsCover(x0, dst.x + dst.w, tw);
    StepsCover(y0, dst.y + dst.h, th);
    GridTilesAt(x0, dst.x + dst.w, y0, dst.y + dst.h, tw, th, false);
  }

  /** A centred texture two or more pixels larger than the destination starts inside it:
      a 20 x 20 texture centred on a 10 x 10 destination at the origin is one copy at
      (5, 5), which leaves the strips left of x = 5 and above y = 5 uncovered. */
  lemma CenteredLargerTextureLeavesStrip()
    ensures TilePlan(Rect(0, 0, 10, 10), 20, 20, true) == [Tile(Rect(5, 5, 20, 20), false, false)]
  {
    assert Offset(true, 10, 20) == -5;
    assert RowTiles(25, 10, 5, 20, 20, true, false) == [];
    assert GridTiles(5, 10, 25, 10, 20, 20, true) == [];
  }
}
