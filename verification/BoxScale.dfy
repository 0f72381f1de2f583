/** The box filter that makes the derived tiers: each destination pixel averages one cell of the
    source, and the cells partition it. */
module BoxScale {

  type Channel16 = x: int | 0 <= x < 0x1_0000
  type Channel8 = x: int | 0 <= x < 0x100

  datatype Pixel = Pixel(r: Channel16, g: Channel16, b: Channel16, a: Channel16)
  datatype Rgba = Rgba(r: Channel8, g: Channel8, b: Channel8, a: Channel8)

  /** A decoded image: bounds that need not start at the origin, and its rows. */
  datatype Image = Image(minX: int, minY: int, rows: seq<seq<Pixel>>) {
    ghost predicate Valid() {
      |rows| > 0 && |rows[0]| > 0 && forall y :: 0 <= y < |rows| ==> |rows[y]| == |rows[0]|
    }

    function Width(): int
      requires |rows| > 0
    {
      |rows[0]|
    }

    function Height(): int {
      |rows|
    }

    predicate Has(x: int, y: int)
      requires |rows| > 0
    {
      minX <= x < minX + Width() && minY <= y < minY + Height()
    }

    function At(x: int, y: int): Pixel
      requires Valid() && Has(x, y)
    {
      rows[y - minY][x - minX]
    }
  }

  // --- Cells ------------------------------------------------------------------------------------

  /** Where cell i of n begins, over `size` source pixels. */
  function Edge(i: int, size: int, n: int): int
    requires n > 0
  {
    i * size / n
  }

  lemma Floor(a: int, n: int)
    requires n > 0
    ensures a / n * n <= a < (a / n + 1) * n
  {
  }

  lemma Distribute(a: int, b: int, c: int)
    ensures a * c + b * c == (a + b) * c
  {
  }

  lemma MulMono(a: int, b: int, c: int)
    requires c >= 0
    ensures a <= b ==> a * c <= b * c
  {
  }

  lemma AtLeast(q: int, a: int, n: int)
    requires n > 0 && q * n <= a
    ensures q <= a / n
  {
    Floor(a, n);
    MulMono(a / n + 1, q, n);
  }

  lemma Below(q: int, a: int, n: int)
    requires n > 0 && a < q * n
    ensures a / n < q
  {
    Floor(a, n);
    MulMono(q, a / n, n);
  }

  /** When there are no more cells than pixels, every cell has a pixel, and the cells tile the range. */
  lemma EdgesTile(i: int, size: int, n: int)
    requires 0 < n <= size && 0 <= i < n
    ensures Edge(0, size, n) == 0 && Edge(n, size, n) == size
    ensures 0 <= Edge(i, size, n) < Edge(i + 1, size, n) <= size
  {
    EdgeEnds(size, n);
    EdgeStep(i, size, n);
    EdgeBounds(i + 1, size, n);
    MulMono(0, i, size);
    AtLeast(0, i * size, n);
  }

  lemma EdgeEnds(size: int, n: int)
    requires 0 < n <= size
    ensures Edge(0, size, n) == 0 && Edge(n, size, n) == size
  {
    Distribute(size, 1, n);
    AtLeast(size, n * size, n);
    Below(size + 1, n * size, n);
  }

  /** A cell is at least one pixel wide, since n <= size. */
  lemma EdgeStep(i: int, size: int, n: int)
    requires 0 < n <= size
    ensures Edge(i, size, n) < Edge(i + 1, size, n)
  {
    var e := Edge(i, size, n);
    Floor(i * size, n);
    Distribute(i, 1, size);
    Distribute(e, 1, n);
    AtLeast(e + 1, (i + 1) * size, n);
  }

  lemma EdgeBounds(j: int, size: int, n: int)
    requires 0 < n <= size && j <= n
    ensures Edge(j, size, n) <= size
  {
    MulMono(j, n, size);
    Distribute(size, 1, n);
    Below(size + 1, j * size, n);
  }

  lemma {:induction false} EdgesGrow(i: int, j: int, size: int, n: int)
    requires 0 < n <= size && 0 <= i <= j <= n
    ensures 0 <= Edge(i, size, n) <= Edge(j, size, n) <= size
    decreases j - i
  {
    if i == j {
      if i < n {
        EdgesTile(i, size, n);
      } else {
        EdgesTile(0, size, n);
      }
    } else {
      EdgesTile(i, size, n);
      EdgesGrow(i + 1, j, size, n);
    }
  }

  /** The cell of a source pixel. */
  function CellOf(x: int, size: int, n: int): int
    requires size > 0
  {
    ((x + 1) * n - 1) / size
  }

  predicate InCell(x: int, i: int, size: int, n: int)
    requires n > 0
  {
    Edge(i, size, n) <= x < Edge(i + 1, size, n)
  }

  lemma CellHolds(x: int, size: int, n: int)
    requires 0 < n <= size && 0 <= x < size
    ensures 0 <= CellOf(x, size, n) < n && InCell(x, CellOf(x, size, n), size, n)
  {
    var m, c := (x + 1) * n - 1, CellOf(x, size, n);
    Floor(m, size);
    MulMono(1, x + 1, n);
    MulMono(x + 1, size, n);
    AtLeast(0, m, size);
    Below(n, m, size);
    Below(x + 1, c * size, n);
    AtLeast(x + 1, (c + 1) * size, n);
  }

  lemma CellsDisjoint(x: int, i: int, j: int, size: int, n: int)
    requires 0 < n <= size && 0 <= i < j < n
    ensures !(InCell(x, i, size, n) && InCell(x, j, size, n))
  {
    EdgesGrow(i + 1, j, size, n);
  }

  /** Every source pixel lies in one cell and no other. */
  lemma ExactlyOneCell(x: int, size: int, n: int)
    requires 0 < n <= size && 0 <= x < size
    ensures 0 <= CellOf(x, size, n) < n
    ensures forall i :: 0 <= i < n ==> (InCell(x, i, size, n) <==> i == CellOf(x, size, n))
  {
    hide InCell, CellOf;
    CellHolds(x, size, n);
    var c := CellOf(x, size, n);
    forall i | 0 <= i < n
      ensures InCell(x, i, size, n) <==> i == c
    {
      if i < c {
        CellsDisjoint(x, i, c, size, n);
      } else if i > c {
        CellsDisjoint(x, c, i, size, n);
      }
    }
  }

  // --- Areas ------------------------------------------------------------------------------------

  function CellArea(dx: int, dy: int, w: int, h: int, nw: int, nh: int): int
    requires nw > 0 && nh > 0
  {
    (Edge(dx + 1, w, nw) - Edge(dx, w, nw)) * (Edge(dy + 1, h, nh) - Edge(dy, h, nh))
  }

  /** The area of the first k cells of row dy. */
  function RowArea(k: nat, dy: int, w: int, h: int, nw: int, nh: int): int
    requires nw > 0 && nh > 0
  {
    if k == 0 then 0 else RowArea(k - 1, dy, w, h, nw, nh) + CellArea(k - 1, dy, w, h, nw, nh)
  }

  /** The area of the first k rows of cells. */
  function TotalArea(k: nat, w: int, h: int, nw: int, nh: int): int
    requires nw > 0 && nh > 0
  {
    if k == 0 then 0 else TotalArea(k - 1, w, h, nw, nh) + RowArea(nw, k - 1, w, h, nw, nh)
  }

  lemma {:induction false} RowTelescopes(k: nat, dy: int, w: int, h: int, nw: int, nh: int)
    requires nw > 0 && nh > 0
    ensures RowArea(k, dy, w, h, nw, nh)
         == (Edge(k, w, nw) - Edge(0, w, nw)) * (Edge(dy + 1, h, nh) - Edge(dy, h, nh))
  {
    if k > 0 {
      RowTelescopes(k - 1, dy, w, h, nw, nh);
      hide Edge;
      Distribute(Edge(k - 1, w, nw) - Edge(0, w, nw), Edge(k, w, nw) - Edge(k - 1, w, nw),
                 Edge(dy + 1, h, nh) - Edge(dy, h, nh));
    }
  }

  lemma {:induction false} RowsTelescope(k: nat, w: int, h: int, nw: int, nh: int)
    requires 0 < nw <= w && nh > 0
    ensures TotalArea(k, w, h, nw, nh) == w * (Edge(k, h, nh) - Edge(0, h, nh))
  {
    if k == 0 {
      assert w * 0 == 0;
    } else {
      hide Edge;
      RowsTelescope(k - 1, w, h, nw, nh);
      EdgesTile(0, w, nw);
      RowTelescopes(nw, k - 1, w, h, nw, nh);
      OneMoreRow(w, Edge(0, h, nh), Edge(k - 1, h, nh), Edge(k, h, nh));
    }
  }

  lemma OneMoreRow(w: int, origin: int, a: int, b: int)
    ensures w * (a - origin) + w * (b - a) == w * (b - origin)
  {
  }

  /** The cells have the area of the source between them. */
  lemma AreasSum(w: int, h: int, nw: int, nh: int)
    requires 0 < nw <= w && 0 < nh <= h
    ensures TotalArea(nh, w, h, nw, nh) == w * h
  {
    RowsTelescope(nh, w, h, nw, nh);
    EdgesTile(0, h, nh);
  }

  // --- Averages ---------------------------------------------------------------------------------

  type Selector = Pixel -> Channel16

  /** Every pixel of the half-open rectangle is in the image. */
  ghost predicate Within(img: Image, x0: int, y0: int, x1: int, y1: int) {
    img.Valid() && forall x, y :: x0 <= x < x1 && y0 <= y < y1 ==> img.Has(x, y)
  }

  function LineSum(img: Image, c: Selector, x0: int, x1: int, y: int): nat
    requires x0 <= x1 && Within(img, x0, y, x1, y + 1)
    decreases x1 - x0
  {
    if x0 == x1 then 0 else
      assert img.Has(x1 - 1, y);
      LineSum(img, c, x0, x1 - 1, y) + c(img.At(x1 - 1, y))
  }

  function RegionSum(img: Image, c: Selector, x0: int, y0: int, x1: int, y1: int): nat
    requires x0 <= x1 && y0 <= y1 && Within(img, x0, y0, x1, y1)
    decreases y1 - y0
  {
    if y0 == y1 then 0 else RegionSum(img, c, x0, y0, x1, y1 - 1) + LineSum(img, c, x0, x1, y1 - 1)
  }

  /** All the pixels of the rectangle have this channel between lo and hi. */
  ghost predicate Ranges(img: Image, c: Selector, x0: int, y0: int, x1: int, y1: int, lo: int, hi: int)
    requires Within(img, x0, y0, x1, y1)
  {
    forall x, y :: x0 <= x < x1 && y0 <= y < y1 ==> lo <= c(img.At(x, y)) <= hi
  }

  lemma {:induction false} LineSumRange(img: Image, c: Selector, x0: int, x1: int, y: int, lo: int, hi: int)
    requires x0 <= x1 && Within(img, x0, y, x1, y + 1) && Ranges(img, c, x0, y, x1, y + 1, lo, hi)
    ensures lo * (x1 - x0) <= LineSum(img, c, x0, x1, y) <= hi * (x1 - x0)
    decreases x1 - x0
  {
    if x0 < x1 {
      hide RegionSum;
      LineSumRange(img, c, x0, x1 - 1, y, lo, hi);
      OneMoreRow(lo, x0, x1 - 1, x1);
      OneMoreRow(hi, x0, x1 - 1, x1);
    }
  }

  lemma {:induction false} RegionSumRange(img: Image, c: Selector, x0: int, y0: int, x1: int, y1: int, lo: int, hi: int)
    requires x0 <= x1 && y0 <= y1 && Within(img, x0, y0, x1, y1) && Ranges(img, c, x0, y0, x1, y1, lo, hi)
    ensures lo * ((x1 - x0) * (y1 - y0)) <= RegionSum(img, c, x0, y0, x1, y1) <= hi * ((x1 - x0) * (y1 - y0))
    decreases y1 - y0
  {
    if y0 == y1 {
      assert (x1 - x0) * (y1 - y0) == 0;
    } else {
      RegionSumRange(img, c, x0, y0, x1, y1 - 1, lo, hi);
      LineSumRange(img, c, x0, x1, y1 - 1, lo, hi);
      hide RegionSum, LineSum, Within, Ranges;
      OneMoreLine(x1 - x0, y1 - y0, lo, hi, RegionSum(img, c, x0, y0, x1, y1 - 1), LineSum(img, c, x0, x1, y1 - 1));
      SumSplits(img, c, x0, y0, x1, y1);
    }
  }

  lemma SumSplits(img: Image, c: Selector, x0: int, y0: int, x1: int, y1: int)
    requires x0 <= x1 && y0 < y1 && Within(img, x0, y0, x1, y1)
    ensures Within(img, x0, y0, x1, y1 - 1) && Within(img, x0, y1 - 1, x1, y1)
    ensures RegionSum(img, c, x0, y0, x1, y1) == RegionSum(img, c, x0, y0, x1, y1 - 1) + LineSum(img, c, x0, x1, y1 - 1)
  {
  }

  lemma OneMoreLine(width: int, height: int, lo: int, hi: int, above: int, line: int)
    requires lo * (width * (height - 1)) <= above <= hi * (width * (height - 1))
    requires lo * width <= line <= hi * width
    ensures lo * (width * height) <= above + line <= hi * (width * height)
  {
    assert width * height == width * (height - 1) + width;
    Distribute(width * (height - 1), width, lo);
    Distribute(width * (height - 1), width, hi);
  }

  /** The mean of a channel over a nonempty rectangle, narrowed to 8 bits. */
  function Mean(img: Image, c: Selector, x0: int, y0: int, x1: int, y1: int): (m: Channel8)
    requires x0 < x1 && y0 < y1 && Within(img, x0, y0, x1, y1)
  {
    AreaPositive(x1 - x0, y1 - y0);
    MeanRange(img, c, x0, y0, x1, y1, 0, 0xffff);
    RegionSum(img, c, x0, y0, x1, y1) / ((x1 - x0) * (y1 - y0)) / 256
  }

  lemma AreaPositive(a: int, b: int)
    requires a > 0 && b > 0
    ensures a * b > 0
  {
  }

  /** Whatever bounds hold for every pixel hold for the mean, once narrowed: it lies between the
      region's least and greatest values. */
  lemma MeanRange(img: Image, c: Selector, x0: int, y0: int, x1: int, y1: int, lo: int, hi: int)
    requires x0 < x1 && y0 < y1 && Within(img, x0, y0, x1, y1) && Ranges(img, c, x0, y0, x1, y1, lo, hi)
    ensures (x1 - x0) * (y1 - y0) > 0
    ensures lo / 256 <= RegionSum(img, c, x0, y0, x1, y1) / ((x1 - x0) * (y1 - y0)) / 256 <= hi / 256
  {
    AreaPositive(x1 - x0, y1 - y0);
    RegionSumRange(img, c, x0, y0, x1, y1, lo, hi);
    var n, s := (x1 - x0) * (y1 - y0), RegionSum(img, c, x0, y0, x1, y1);
    AtLeast(lo, s, n);
    assert s < (hi + 1) * n by { Distribute(hi, 1, n); }
    Below(hi + 1, s, n);
  }

  function Average(img: Image, x0: int, y0: int, x1: int, y1: int): Rgba
    requires x0 < x1 && y0 < y1 && Within(img, x0, y0, x1, y1)
  {
    Rgba(Mean(img, RED, x0, y0, x1, y1), Mean(img, GREEN, x0, y0, x1, y1),
         Mean(img, BLUE, x0, y0, x1, y1), Mean(img, ALPHA, x0, y0, x1, y1))
  }

  const RED: Selector := (p: Pixel) => p.r
  const GREEN: Selector := (p: Pixel) => p.g
  const BLUE: Selector := (p: Pixel) => p.b
  const ALPHA: Selector := (p: Pixel) => p.a

  lemma NarrowIsMean(img: Image, c: Selector, x0: int, y0: int, x1: int, y1: int)
    requires x0 < x1 && y0 < y1 && Within(img, x0, y0, x1, y1)
    ensures (x1 - x0) * (y1 - y0) > 0
    ensures RegionSum(img, c, x0, y0, x1, y1) / ((x1 - x0) * (y1 - y0)) / 256 == Mean(img, c, x0, y0, x1, y1)
  {
    AreaPositive(x1 - x0, y1 - y0);
  }

  /** The cell of destination pixel (dx, dy) is nonempty and inside the image. */
  lemma CellWithin(img: Image, dx: int, dy: int, nw: int, nh: int)
    requires img.Valid() && 0 <= dx < nw <= img.Width() && 0 <= dy < nh <= img.Height()
    ensures var x0, x1 := img.minX + Edge(dx, img.Width(), nw), img.minX + Edge(dx + 1, img.Width(), nw);
            var y0, y1 := img.minY + Edge(dy, img.Height(), nh), img.minY + Edge(dy + 1, img.Height(), nh);
            x0 < x1 && y0 < y1 && Within(img, x0, y0, x1, y1)
  {
    EdgesTile(dx, img.Width(), nw);
    EdgesTile(dy, img.Height(), nh);
    hide Edge;
  }

  /** The average of that cell. */
  function CellAverage(img: Image, dx: int, dy: int, nw: int, nh: int): Rgba
    requires img.Valid() && 0 <= dx < nw <= img.Width() && 0 <= dy < nh <= img.Height()
  {
    CellWithin(img, dx, dy, nw, nh);
    Average(img, img.minX + Edge(dx, img.Width(), nw), img.minY + Edge(dy, img.Height(), nh),
            img.minX + Edge(dx + 1, img.Width(), nw), img.minY + Edge(dy + 1, img.Height(), nh))
  }

  lemma CellAverageIs(img: Image, dx: int, dy: int, nw: int, nh: int)
    requires img.Valid() && 0 <= dx < nw <= img.Width() && 0 <= dy < nh <= img.Height()
    ensures var x0, x1 := img.minX + Edge(dx, img.Width(), nw), img.minX + Edge(dx + 1, img.Width(), nw);
            var y0, y1 := img.minY + Edge(dy, img.Height(), nh), img.minY + Edge(dy + 1, img.Height(), nh);
            && x0 < x1 && y0 < y1 && Within(img, x0, y0, x1, y1)
            && CellAverage(img, dx, dy, nw, nh) == Average(img, x0, y0, x1, y1)
  {
    hide Edge, Average;
    CellWithin(img, dx, dy, nw, nh);
  }

  // --- What the averages are --------------------------------------------------------------------

  /** Each channel is summed on its own. */
  lemma ChannelsAre(p: Pixel)
    ensures RED(p) == p.r && GREEN(p) == p.g && BLUE(p) == p.b && ALPHA(p) == p.a
  {
  }

  /** The sum over one pixel is its channel; the sum over a rectangle is that of its parts, cut either way. */
  lemma {:induction false} SumsSplit(img: Image, c: Selector, x0: int, y0: int, x: int, y: int, x1: int, y1: int)
    requires x0 <= x <= x1 && y0 <= y <= y1 && Within(img, x0, y0, x1, y1)
    ensures RegionSum(img, c, x0, y0, x1, y1) == RegionSum(img, c, x0, y0, x, y1) + RegionSum(img, c, x, y0, x1, y1)
    ensures RegionSum(img, c, x0, y0, x1, y1) == RegionSum(img, c, x0, y0, x1, y) + RegionSum(img, c, x0, y, x1, y1)
    ensures x1 == x0 + 1 && y1 == y0 + 1 ==>
              img.Has(x0, y0) && RegionSum(img, c, x0, y0, x1, y1) == c(img.At(x0, y0))
  {
    hide RegionSum, LineSum;
    CutColumns(img, c, x0, y0, x, x1, y1);
    CutRows(img, c, x0, y0, y, x1, y1);
    if x1 == x0 + 1 && y1 == y0 + 1 {
      OnePixel(img, c, x0, y0);
    }
  }

  lemma OnePixel(img: Image, c: Selector, x: int, y: int)
    requires Within(img, x, y, x + 1, y + 1)
    ensures img.Has(x, y) && RegionSum(img, c, x, y, x + 1, y + 1) == c(img.At(x, y))
  {
    assert img.Has(x, y);
    assert LineSum(img, c, x, x, y) == 0;
  }

  lemma {:induction false} CutLine(img: Image, c: Selector, x0: int, x: int, x1: int, y: int)
    requires x0 <= x <= x1 && Within(img, x0, y, x1, y + 1)
    ensures LineSum(img, c, x0, x1, y) == LineSum(img, c, x0, x, y) + LineSum(img, c, x, x1, y)
    decreases x1 - x
  {
    if x < x1 {
      CutLine(img, c, x0, x, x1 - 1, y);
    }
  }

  lemma {:induction false} CutColumns(img: Image, c: Selector, x0: int, y0: int, x: int, x1: int, y1: int)
    requires x0 <= x <= x1 && y0 <= y1 && Within(img, x0, y0, x1, y1)
    ensures RegionSum(img, c, x0, y0, x1, y1) == RegionSum(img, c, x0, y0, x, y1) + RegionSum(img, c, x, y0, x1, y1)
    decreases y1 - y0
  {
    if y0 < y1 {
      CutColumns(img, c, x0, y0, x, x1, y1 - 1);
      CutLine(img, c, x0, x, x1, y1 - 1);
      hide LineSum;
    }
  }

  lemma {:induction false} CutRows(img: Image, c: Selector, x0: int, y0: int, y: int, x1: int, y1: int)
    requires x0 <= x1 && y0 <= y <= y1 && Within(img, x0, y0, x1, y1)
    ensures RegionSum(img, c, x0, y0, x1, y1) == RegionSum(img, c, x0, y0, x1, y) + RegionSum(img, c, x0, y, x1, y1)
    decreases y1 - y
  {
    hide LineSum;
    if y < y1 {
      CutRows(img, c, x0, y0, y, x1, y1 - 1);
    }
  }

  /** The source pixels of destination pixel (dx, dy). */
  predicate OfCell(img: Image, dx: int, dy: int, nw: int, nh: int, x: int, y: int)
    requires img.Valid() && nw > 0 && nh > 0
  {
    && img.minX + dx * |img.rows[0]| / nw <= x < img.minX + (dx + 1) * |img.rows[0]| / nw
    && img.minY + dy * |img.rows| / nh <= y < img.minY + (dy + 1) * |img.rows| / nh
  }

  ghost predicate RedWithin(img: Image, dx: int, dy: int, nw: int, nh: int, lo: int, hi: int)
    requires img.Valid() && nw > 0 && nh > 0
  {
    forall x, y :: img.Has(x, y) && OfCell(img, dx, dy, nw, nh, x, y) ==> lo <= img.At(x, y).r <= hi
  }

  ghost predicate GreenWithin(img: Image, dx: int, dy: int, nw: int, nh: int, lo: int, hi: int)
    requires img.Valid() && nw > 0 && nh > 0
  {
    forall x, y :: img.Has(x, y) && OfCell(img, dx, dy, nw, nh, x, y) ==> lo <= img.At(x, y).g <= hi
  }

  ghost predicate BlueWithin(img: Image, dx: int, dy: int, nw: int, nh: int, lo: int, hi: int)
    requires img.Valid() && nw > 0 && nh > 0
  {
    forall x, y :: img.Has(x, y) && OfCell(img, dx, dy, nw, nh, x, y) ==> lo <= img.At(x, y).b <= hi
  }

  ghost predicate AlphaWithin(img: Image, dx: int, dy: int, nw: int, nh: int, lo: int, hi: int)
    requires img.Valid() && nw > 0 && nh > 0
  {
    forall x, y :: img.Has(x, y) && OfCell(img, dx, dy, nw, nh, x, y) ==> lo <= img.At(x, y).a <= hi
  }

  /** The average of a cell lies, channel by channel, between whatever bounds hold for its pixels, and is
      the sum of that channel over the cell divided by the number of its pixels and by 256. */
  lemma CellBounds(img: Image, dx: int, dy: int, nw: int, nh: int)
    requires img.Valid() && 0 <= dx < nw <= |img.rows[0]| && 0 <= dy < nh <= |img.rows|
    ensures var v := CellAverage(img, dx, dy, nw, nh);
            && (forall lo, hi :: RedWithin(img, dx, dy, nw, nh, lo, hi) ==> lo / 256 <= v.r <= hi / 256)
            && (forall lo, hi :: GreenWithin(img, dx, dy, nw, nh, lo, hi) ==> lo / 256 <= v.g <= hi / 256)
            && (forall lo, hi :: BlueWithin(img, dx, dy, nw, nh, lo, hi) ==> lo / 256 <= v.b <= hi / 256)
            && (forall lo, hi :: AlphaWithin(img, dx, dy, nw, nh, lo, hi) ==> lo / 256 <= v.a <= hi / 256)
    ensures var v := CellAverage(img, dx, dy, nw, nh);
            var x0, x1 := img.minX + dx * |img.rows[0]| / nw, img.minX + (dx + 1) * |img.rows[0]| / nw;
            var y0, y1 := img.minY + dy * |img.rows| / nh, img.minY + (dy + 1) * |img.rows| / nh;
            var n := (x1 - x0) * (y1 - y0);
            && x0 < x1 && y0 < y1 && Within(img, x0, y0, x1, y1) && n > 0
            && v.r == RegionSum(img, RED, x0, y0, x1, y1) / n / 256
            && v.g == RegionSum(img, GREEN, x0, y0, x1, y1) / n / 256
            && v.b == RegionSum(img, BLUE, x0, y0, x1, y1) / n / 256
            && v.a == RegionSum(img, ALPHA, x0, y0, x1, y1) / n / 256
  {
    hide Within, RegionSum, Ranges, RedWithin, GreenWithin, BlueWithin, AlphaWithin;
    CellWithin(img, dx, dy, nw, nh);
    var x0, x1 := img.minX + Edge(dx, img.Width(), nw), img.minX + Edge(dx + 1, img.Width(), nw);
    var y0, y1 := img.minY + Edge(dy, img.Height(), nh), img.minY + Edge(dy + 1, img.Height(), nh);
    AreaPositive(x1 - x0, y1 - y0);
    var v := CellAverage(img, dx, dy, nw, nh);
    assert v == Average(img, x0, y0, x1, y1);
    hide Edge, CellAverage, Average;
    forall lo, hi
      ensures RedWithin(img, dx, dy, nw, nh, lo, hi) ==> lo / 256 <= v.r <= hi / 256
      ensures GreenWithin(img, dx, dy, nw, nh, lo, hi) ==> lo / 256 <= v.g <= hi / 256
      ensures BlueWithin(img, dx, dy, nw, nh, lo, hi) ==> lo / 256 <= v.b <= hi / 256
      ensures AlphaWithin(img, dx, dy, nw, nh, lo, hi) ==> lo / 256 <= v.a <= hi / 256
    {
      CellRanges(img, dx, dy, nw, nh, lo, hi);
      AverageRange(img, x0, y0, x1, y1, lo, hi);
    }
    AverageMeans(img, x0, y0, x1, y1);
  }

  lemma CellRanges(img: Image, dx: int, dy: int, nw: int, nh: int, lo: int, hi: int)
    requires img.Valid() && 0 <= dx < nw <= |img.rows[0]| && 0 <= dy < nh <= |img.rows|
    ensures var x0, x1 := img.minX + Edge(dx, img.Width(), nw), img.minX + Edge(dx + 1, img.Width(), nw);
            var y0, y1 := img.minY + Edge(dy, img.Height(), nh), img.minY + Edge(dy + 1, img.Height(), nh);
            && Within(img, x0, y0, x1, y1)
            && (RedWithin(img, dx, dy, nw, nh, lo, hi) ==> Ranges(img, RED, x0, y0, x1, y1, lo, hi))
            && (GreenWithin(img, dx, dy, nw, nh, lo, hi) ==> Ranges(img, GREEN, x0, y0, x1, y1, lo, hi))
            && (BlueWithin(img, dx, dy, nw, nh, lo, hi) ==> Ranges(img, BLUE, x0, y0, x1, y1, lo, hi))
            && (AlphaWithin(img, dx, dy, nw, nh, lo, hi) ==> Ranges(img, ALPHA, x0, y0, x1, y1, lo, hi))
  {
    CellWithin(img, dx, dy, nw, nh);
    CellIs(img, dx, dy, nw, nh);
    hide Edge, OfCell;
  }

  lemma CellIs(img: Image, dx: int, dy: int, nw: int, nh: int)
    requires img.Valid() && nw > 0 && nh > 0
    ensures forall x, y ::
              OfCell(img, dx, dy, nw, nh, x, y) <==>
                && img.minX + Edge(dx, img.Width(), nw) <= x < img.minX + Edge(dx + 1, img.Width(), nw)
                && img.minY + Edge(dy, img.Height(), nh) <= y < img.minY + Edge(dy + 1, img.Height(), nh)
  {
  }

  lemma AverageRange(img: Image, x0: int, y0: int, x1: int, y1: int, lo: int, hi: int)
    requires x0 < x1 && y0 < y1 && Within(img, x0, y0, x1, y1)
    ensures var v := Average(img, x0, y0, x1, y1);
            && (Ranges(img, RED, x0, y0, x1, y1, lo, hi) ==> lo / 256 <= v.r <= hi / 256)
            && (Ranges(img, GREEN, x0, y0, x1, y1, lo, hi) ==> lo / 256 <= v.g <= hi / 256)
            && (Ranges(img, BLUE, x0, y0, x1, y1, lo, hi) ==> lo / 256 <= v.b <= hi / 256)
            && (Ranges(img, ALPHA, x0, y0, x1, y1, lo, hi) ==> lo / 256 <= v.a <= hi / 256)
  {
    hide Within, Ranges, Mean;
    NarrowedRange(img, RED, x0, y0, x1, y1, lo, hi);
    NarrowedRange(img, GREEN, x0, y0, x1, y1, lo, hi);
    NarrowedRange(img, BLUE, x0, y0, x1, y1, lo, hi);
    NarrowedRange(img, ALPHA, x0, y0, x1, y1, lo, hi);
  }

  lemma NarrowedRange(img: Image, c: Selector, x0: int, y0: int, x1: int, y1: int, lo: int, hi: int)
    requires x0 < x1 && y0 < y1 && Within(img, x0, y0, x1, y1)
    ensures Ranges(img, c, x0, y0, x1, y1, lo, hi) ==> lo / 256 <= Mean(img, c, x0, y0, x1, y1) <= hi / 256
  {
    hide Within, Ranges, RegionSum;
    if Ranges(img, c, x0, y0, x1, y1, lo, hi) {
      MeanRange(img, c, x0, y0, x1, y1, lo, hi);
    }
  }

  lemma AverageMeans(img: Image, x0: int, y0: int, x1: int, y1: int)
    requires x0 < x1 && y0 < y1 && Within(img, x0, y0, x1, y1)
    ensures (x1 - x0) * (y1 - y0) > 0
    ensures var v, n := Average(img, x0, y0, x1, y1), (x1 - x0) * (y1 - y0);
            && v.r == RegionSum(img, RED, x0, y0, x1, y1) / n / 256
            && v.g == RegionSum(img, GREEN, x0, y0, x1, y1) / n / 256
            && v.b == RegionSum(img, BLUE, x0, y0, x1, y1) / n / 256
            && v.a == RegionSum(img, ALPHA, x0, y0, x1, y1) / n / 256
  {
    hide Within, RegionSum, Mean;
    NarrowIsMean(img, RED, x0, y0, x1, y1);
    NarrowIsMean(img, GREEN, x0, y0, x1, y1);
    NarrowIsMean(img, BLUE, x0, y0, x1, y1);
    NarrowIsMean(img, ALPHA, x0, y0, x1, y1);
  }

  // --- The filter as it runs --------------------------------------------------------------------

  /** Sums each channel over the rectangle, row by row, and divides by the number of pixels. */
  method AverageRegion(img: Image, x0: int, y0: int, x1: int, y1: int) returns (average: Rgba)
    requires x0 < x1 && y0 < y1 && Within(img, x0, y0, x1, y1)
    ensures average == Average(img, x0, y0, x1, y1)
    ensures var n := (x1 - x0) * (y1 - y0);
            && n > 0
            && average.r == RegionSum(img, RED, x0, y0, x1, y1) / n / 256
            && average.g == RegionSum(img, GREEN, x0, y0, x1, y1) / n / 256
            && average.b == RegionSum(img, BLUE, x0, y0, x1, y1) / n / 256
            && average.a == RegionSum(img, ALPHA, x0, y0, x1, y1) / n / 256
  {
    AverageMeans(img, x0, y0, x1, y1);
    var rSum, gSum, bSum, aSum, n := 0, 0, 0, 0, 0;
    for y := y0 to y1
      invariant rSum == RegionSum(img, RED, x0, y0, x1, y) && gSum == RegionSum(img, GREEN, x0, y0, x1, y)
      invariant bSum == RegionSum(img, BLUE, x0, y0, x1, y) && aSum == RegionSum(img, ALPHA, x0, y0, x1, y)
      invariant n == (x1 - x0) * (y - y0)
    {
      ghost var r0, g0, b0, a0, n0 := rSum, gSum, bSum, aSum, n;
      for x := x0 to x1
        invariant rSum == r0 + LineSum(img, RED, x0, x, y) && gSum == g0 + LineSum(img, GREEN, x0, x, y)
        invariant bSum == b0 + LineSum(img, BLUE, x0, x, y) && aSum == a0 + LineSum(img, ALPHA, x0, x, y)
        invariant n == n0 + (x - x0)
      {
        assert img.Has(x, y);
        var p := img.At(x, y);
        rSum := rSum + p.r;
        gSum := gSum + p.g;
        bSum := bSum + p.b;
        aSum := aSum + p.a;
        n := n + 1;
      }
      assert (x1 - x0) * (y + 1 - y0) == (x1 - x0) * (y - y0) + (x1 - x0);
    }
    AreaPositive(x1 - x0, y1 - y0);
    NarrowIsMean(img, RED, x0, y0, x1, y1);
    NarrowIsMean(img, GREEN, x0, y0, x1, y1);
    NarrowIsMean(img, BLUE, x0, y0, x1, y1);
    NarrowIsMean(img, ALPHA, x0, y0, x1, y1);
    average := Rgba(rSum / n / 256, gSum / n / 256, bSum / n / 256, aSum / n / 256);
  }

  /** Every destination pixel is the average of its own cell; the guards that widen an empty cell
      never act. */
  method BoxDownscale(img: Image, nw: int, nh: int) returns (dst: array2<Rgba>)
    requires img.Valid() && 0 < nw <= img.Width() && 0 < nh <= img.Height()
    ensures fresh(dst) && dst.Length0 == nw && dst.Length1 == nh
    ensures forall dx, dy :: 0 <= dx < nw && 0 <= dy < nh ==> dst[dx, dy] == CellAverage(img, dx, dy, nw, nh)
    ensures forall dx, dy, lo, hi :: 0 <= dx < nw && 0 <= dy < nh && RedWithin(img, dx, dy, nw, nh, lo, hi) ==>
              lo / 256 <= dst[dx, dy].r <= hi / 256
    ensures forall dx, dy, lo, hi :: 0 <= dx < nw && 0 <= dy < nh && GreenWithin(img, dx, dy, nw, nh, lo, hi) ==>
              lo / 256 <= dst[dx, dy].g <= hi / 256
    ensures forall dx, dy, lo, hi :: 0 <= dx < nw && 0 <= dy < nh && BlueWithin(img, dx, dy, nw, nh, lo, hi) ==>
              lo / 256 <= dst[dx, dy].b <= hi / 256
    ensures forall dx, dy, lo, hi :: 0 <= dx < nw && 0 <= dy < nh && AlphaWithin(img, dx, dy, nw, nh, lo, hi) ==>
              lo / 256 <= dst[dx, dy].a <= hi / 256
  {
    hide Average, Edge, CellAverage, RedWithin, GreenWithin, BlueWithin, AlphaWithin;
    var w, h := img.Width(), img.Height();
    dst := new Rgba[nw, nh]((_, _) => Rgba(0, 0, 0, 0));
    for dy := 0 to nh
      invariant forall x, y :: 0 <= x < nw && 0 <= y < dy ==> dst[x, y] == CellAverage(img, x, y, nw, nh)
    {
      var sy0 := img.minY + Edge(dy, h, nh);
      var sy1 := img.minY + Edge(dy + 1, h, nh);
      EdgesTile(dy, h, nh);
      assert sy0 < sy1;
      if sy1 <= sy0 {
        sy1 := sy0 + 1;
      }
      for dx := 0 to nw
        invariant forall x, y :: 0 <= x < nw && 0 <= y < dy ==> dst[x, y] == CellAverage(img, x, y, nw, nh)
        invariant forall x :: 0 <= x < dx ==> dst[x, dy] == CellAverage(img, x, dy, nw, nh)
      {
        var sx0 := img.minX + Edge(dx, w, nw);
        var sx1 := img.minX + Edge(dx + 1, w, nw);
        CellWithin(img, dx, dy, nw, nh);
        if sx1 <= sx0 {
          sx1 := sx0 + 1;
        }
        dst[dx, dy] := AverageRegion(img, sx0, sy0, sx1, sy1);
        CellAverageIs(img, dx, dy, nw, nh);
      }
    }
    forall dx, dy | 0 <= dx < nw && 0 <= dy < nh
      ensures forall lo, hi :: RedWithin(img, dx, dy, nw, nh, lo, hi) ==> lo / 256 <= dst[dx, dy].r <= hi / 256
      ensures forall lo, hi :: GreenWithin(img, dx, dy, nw, nh, lo, hi) ==> lo / 256 <= dst[dx, dy].g <= hi / 256
      ensures forall lo, hi :: BlueWithin(img, dx, dy, nw, nh, lo, hi) ==> lo / 256 <= dst[dx, dy].b <= hi / 256
      ensures forall lo, hi :: AlphaWithin(img, dx, dy, nw, nh, lo, hi) ==> lo / 256 <= dst[dx, dy].a <= hi / 256
    {
      CellBounds(img, dx, dy, nw, nh);
    }
  }

  // --- Target dimensions ------------------------------------------------------------------------

  function Longest(w: int, h: int): int {
    if h > w then h else w
  }

  function AtLeastOne(n: int): int {
    if n < 1 then 1 else n
  }

  /** Half a unit in the last place of a 64-bit float. */
  const ULP: real := 1.0 / 9007199254740992.0

  /** Rounding of a product or quotient to the nearest 64-bit float. */
  ghost predicate Rounds(rnd: real -> real) {
    forall x: real :: x >= 0.0 ==> RoundsTo(x, rnd(x))
  }

  predicate RoundsTo(x: real, y: real) {
    x * (1.0 - ULP) <= y <= x * (1.0 + ULP)
  }

  /** n is e * maxEdge / longest rounded down, or one below it if that division leaves no rest; at least 1. */
  predicate NearlyScaled(n: int, e: int, longest: int, maxEdge: int)
    requires longest > 0
  {
    var exact := e * maxEdge / longest;
    n == AtLeastOne(exact) || (e * maxEdge % longest == 0 && n == AtLeastOne(exact - 1))
  }

  function Quot(a: real, b: real): real
    requires b > 0.0
  {
    a / b
  }

  function Prod(a: real, b: real): real {
    a * b
  }

  /** float64(maxEdge) / float64(longest). */
  function Ratio(maxEdge: real, longest: real, rnd: real -> real): real
    requires longest > 0.0
  {
    rnd(Quot(maxEdge, longest))
  }

  /** float64(e) * ratio. */
  function Times(e: real, ratio: real, rnd: real -> real): real {
    rnd(Prod(e, ratio))
  }

  /** The ratio and each scaled edge are 64-bit floats. Below 2^51 for longest * maxEdge, which is above any
      image that decodes, rounding loses at most one pixel, and only where the exact edge is a whole
      number; it never adds one. */
  method ScaledDims(w: int, h: int, maxEdge: int, rnd: real -> real) returns (nw: int, nh: int)
    requires w > 0 && h > 0 && Rounds(rnd)
    ensures maxEdge <= 0 || Longest(w, h) <= maxEdge ==> (nw, nh) == (w, h)
    ensures maxEdge <= 0 || (w <= maxEdge && h <= maxEdge) ==> nw == w && nh == h
    ensures 0 < nw && 0 < nh
    ensures 0 < maxEdge && (maxEdge < w || maxEdge < h) && w * maxEdge < 0x8_0000_0000_0000 && h * maxEdge < 0x8_0000_0000_0000 ==>
              && nw <= maxEdge && nh <= maxEdge
              && (w >= h ==> nw >= maxEdge - 1) && (h >= w ==> nh >= maxEdge - 1)
    ensures 0 < maxEdge < Longest(w, h) && Small(Longest(w, h), maxEdge) ==>
              && nw <= w && nh <= h && maxEdge - 1 <= Longest(nw, nh) <= maxEdge
              && NearlyScaled(nw, w, Longest(w, h), maxEdge) && NearlyScaled(nh, h, Longest(w, h), maxEdge)
  {
    hide Rounds, Small, NearlyScaled, Ratio, Times;
    var longest := w;
    if h > longest {
      longest := h;
    }
    if maxEdge <= 0 || longest <= maxEdge {
      return w, h;
    }
    var ratio := Ratio(maxEdge as real, longest as real, rnd);
    nw := Times(w as real, ratio, rnd).Floor;
    nh := Times(h as real, ratio, rnd).Floor;
    SmallIs(longest, maxEdge);
    if Small(longest, maxEdge) {
      RoundedEdge(w, longest, maxEdge, rnd);
      RoundedEdge(h, longest, maxEdge, rnd);
    }
    if nw < 1 {
      nw := 1;
    }
    if nh < 1 {
      nh := 1;
    }
  }

  lemma MulLe(a: real, b: real, c: real)
    requires a <= b && c >= 0.0
    ensures a * c <= b * c
  {
  }

  lemma Regroup(a: real, b: real, c: real, d: real)
    ensures a * b * c * d == b * d * (a * c)
  {
  }

  lemma Quotient(a: real, b: real, c: real)
    requires b > 0.0
    ensures a / b * c * b == a * c
  {
    assert a / b * b == a;
    assert a / b * c * b == a / b * b * c;
  }

  /** Two roundings of e * (m / n), each within the factors lo and hi. */
  lemma TwoRoundings(e: real, m: real, n: real, r: real, y: real, lo: real, hi: real)
    requires e > 0.0 && m > 0.0 && n > 0.0 && lo > 0.0 && hi > 0.0
    requires m / n * lo <= r <= m / n * hi && e * r * lo <= y <= e * r * hi
    ensures m * lo * (e * lo) <= y * n <= m * hi * (e * hi)
  {
    Quotient(m, n, lo);
    Quotient(m, n, hi);
    MulLe(m / n * lo, r, n);
    MulLe(r, m / n * hi, n);
    MulLe(m * lo, r * n, e * lo);
    MulLe(r * n, m * hi, e * hi);
    MulLe(e * r * lo, y, n);
    MulLe(y, e * r * hi, n);
    Regroup(e, r, lo, n);
    Regroup(e, r, hi, n);
  }

  /** Squared factors stay within one unit of any product below 2^51. */
  lemma WithinOne(m: real, e: real)
    requires 0.0 < m * e < 2251799813685248.0
    ensures m * e - 1.0 < m * (1.0 - ULP) * (e * (1.0 - ULP))
    ensures m * (1.0 + ULP) * (e * (1.0 + ULP)) < m * e + 1.0
  {
    var p := m * e;
    assert m * (1.0 - ULP) * (e * (1.0 - ULP)) == p * ((1.0 - ULP) * (1.0 - ULP));
    assert m * (1.0 + ULP) * (e * (1.0 + ULP)) == p * ((1.0 + ULP) * (1.0 + ULP));
  }

  lemma ScaledCompare(y: real, k: int, n: int)
    requires n > 0
    ensures y >= k as real <==> y * n as real >= (k * n) as real
  {
    var c, d := n as real, k as real;
    assert (k * n) as real == d * c;
    if y >= d {
      MulLe(d, y, c);
    } else {
      assert (d - y) * c > 0.0;
    }
  }

  /** A value within one unit of p / n rounds down to p / n, or to one less if p / n is whole. */
  lemma FloorNear(p: int, n: int, y: real)
    requires n > 0 && p >= 0 && NearQuotient(y, p, n)
    ensures y.Floor == p / n || (p % n == 0 && y.Floor == p / n - 1)
  {
    var q := p / n;
    Floor(p, n);
    assert p == q * n + p % n && 0 <= p % n < n;
    ScaledCompare(y, q - 1, n);
    ScaledCompare(y, q, n);
    ScaledCompare(y, q + 1, n);
    assert (q - 1) * n == q * n - n && (q + 1) * n == q * n + n;
    FloorBetween(y, q, p % n == 0);
  }

  lemma FloorBetween(y: real, q: int, whole: bool)
    requires (q - 1) as real <= y < (q + 1) as real && (!whole ==> y >= q as real)
    ensures y.Floor == q || (whole && y.Floor == q - 1)
  {
  }

  lemma RoundedProduct(e: real, m: real, n: real, r: real, y: real)
    requires e > 0.0 && m > 0.0 && n > 0.0 && m * e < 2251799813685248.0
    requires RoundsTo(Quot(m, n), r) && RoundsTo(Prod(e, r), y)
    ensures m * e - 1.0 < y * n < m * e + 1.0
  {
    TwoRoundings(e, m, n, r, y, 1.0 - ULP, 1.0 + ULP);
    WithinOne(m, e);
  }

  lemma RoundsAt(rnd: real -> real, x: real)
    requires Rounds(rnd) && x > 0.0
    ensures RoundsTo(x, rnd(x)) && rnd(x) > 0.0
  {
  }

  lemma Positive(a: real, b: real)
    requires a > 0.0 && b > 0.0
    ensures Prod(a, b) > 0.0 && Quot(a, b) > 0.0
  {
    if a / b <= 0.0 {
      MulLe(a / b, 0.0, b);
    }
  }

  /** The product of the two edges is small enough for 64-bit floats. */
  predicate Small(longest: int, maxEdge: int) {
    longest * maxEdge < 0x8_0000_0000_0000
  }

  lemma SmallIs(longest: int, maxEdge: int)
    ensures Small(longest, maxEdge) <==> longest * maxEdge < 0x8_0000_0000_0000
  {
  }

  lemma SmallProduct(e: int, longest: int, maxEdge: int)
    requires 0 < e <= longest && 0 < maxEdge && Small(longest, maxEdge)
    ensures e * maxEdge < 0x8_0000_0000_0000
  {
    MulMono(e, longest, maxEdge);
  }

  lemma RealProduct(a: int, b: int, p: int)
    requires p == a * b
    ensures p as real == b as real * a as real
  {
  }

  /** y is within one unit of p / n. */
  predicate NearQuotient(y: real, p: int, n: int) {
    p as real - 1.0 < y * n as real < p as real + 1.0
  }

  lemma RoundedTwice(e: real, m: real, n: real, rnd: real -> real)
    requires e > 0.0 && m > 0.0 && n > 0.0 && m * e < 2251799813685248.0 && Rounds(rnd)
    ensures m * e - 1.0 < Times(e, Ratio(m, n, rnd), rnd) * n < m * e + 1.0
  {
    hide Rounds, RoundsTo, Quot, Prod;
    var r := Ratio(m, n, rnd);
    Positive(m, n);
    RoundsAt(rnd, Quot(m, n));
    Positive(e, r);
    RoundsAt(rnd, Prod(e, r));
    RoundedProduct(e, m, n, r, Times(e, r, rnd));
  }

  lemma RoundedNear(e: int, longest: int, maxEdge: int, p: int, rnd: real -> real)
    requires e > 0 && longest > 0 && maxEdge > 0 && Rounds(rnd)
    requires p as real == maxEdge as real * e as real && p < 0x8_0000_0000_0000
    ensures NearQuotient(Times(e as real, Ratio(maxEdge as real, longest as real, rnd), rnd), p, longest)
  {
    hide Rounds, Times, Ratio;
    RoundedTwice(e as real, maxEdge as real, longest as real, rnd);
  }

  lemma RoundedEdge(e: int, longest: int, maxEdge: int, rnd: real -> real)
    requires 0 < e <= longest && 0 < maxEdge < longest && Small(longest, maxEdge) && Rounds(rnd)
    ensures var n := AtLeastOne(Times(e as real, Ratio(maxEdge as real, longest as real, rnd), rnd).Floor);
            NearlyScaled(n, e, longest, maxEdge) && n <= maxEdge && n <= e && (e == longest ==> n >= maxEdge - 1)
  {
    hide Rounds, Small, Ratio, Times, NearQuotient;
    var p := e * maxEdge;
    SmallProduct(e, longest, maxEdge);
    RealProduct(e, maxEdge, p);
    AreaPositive(e, maxEdge);
    RoundedNear(e, longest, maxEdge, p, rnd);
    ScaledEdge(e, longest, maxEdge);
    FloorNear(p, longest, Times(e as real, Ratio(maxEdge as real, longest as real, rnd), rnd));
  }

  lemma ScaledEdge(e: int, longest: int, maxEdge: int)
    requires 0 < e <= longest && 0 < maxEdge < longest
    ensures var n := e * maxEdge / longest;
            && 0 <= n <= maxEdge && n < e && (e == longest ==> n == maxEdge)
            && n * longest <= e * maxEdge < (n + 1) * longest
  {
    var p := e * maxEdge;
    MulMono(e, longest, maxEdge);
    AreaPositive(e, maxEdge);
    AreaPositive(e, longest - maxEdge);
    assert p < e * longest by { Distribute(maxEdge, longest - maxEdge, e); }
    assert p < (maxEdge + 1) * longest by { Distribute(maxEdge, 1, longest); }
    hide Longest;
    ScaledProduct(p, e, longest, maxEdge);
  }

  lemma ScaledProduct(p: int, e: int, longest: int, maxEdge: int)
    requires longest > 0 && 0 <= p < e * longest && p < (maxEdge + 1) * longest
    requires e == longest ==> p >= maxEdge * longest
    ensures var n := p / longest;
            && 0 <= n <= maxEdge && n < e && (e == longest ==> n == maxEdge)
            && n * longest <= p < (n + 1) * longest
  {
    Floor(p, longest);
    AtLeast(0, p, longest);
    Below(e, p, longest);
    Below(maxEdge + 1, p, longest);
    if e == longest {
      AtLeast(maxEdge, p, longest);
    }
  }
}
