/**
 * The terminal display's operation buffer: one pending operation per
 * character cell (nothing, copy from another cell, or set a character),
 * the 256-entry palette and the colours used for the next glyph, and the
 * three flush passes that turn pending operations into drawing requests.
 *
 * The buffer, a row-major array of width x height operations in the source,
 * is a two-dimensional array indexed [row, column]. Drawing requests to the
 * surface layer are recorded, in cell units, as a trace.
 */
module TerminalDisplay {
  import opened Common

  /** guac_terminal_color: a palette index (or pseudo-index) and its RGB value. */
  datatype Color = Color(paletteIndex: int, red: byte, green: byte, blue: byte)

  /** The guac_terminal_attributes fields the display reads. */
  datatype Attributes = Attributes(bold: bool, halfBright: bool, reverse: bool, cursor: bool,
                                   foreground: Color, background: Color)

  /** guac_terminal_char: a codepoint, its attributes and its width in columns. */
  datatype TermChar = TermChar(value: int, attributes: Attributes, width: int)

  datatype OperationType = Nop | Copy | Set

  /**
   * guac_terminal_operation: for Copy, (row, column) is the source cell; for
   * Set, `character` is what to draw.
   */
  datatype Operation = Operation(kind: OperationType, character: TermChar, row: int, column: int)

  /** What the display asks of the surface layer, in character cells. */
  datatype Draw =
    | CopyRect(srcRow: int, srcColumn: int, width: int, height: int, dstRow: int, dstColumn: int)
    | FillRect(row: int, column: int, width: int, height: int, color: Color)
    | Glyph(row: int, column: int, codepoint: int, foreground: Color, background: Color)
    | Resized(width: int, height: int)

  /**
   * Values of the terminal headers, which are not part of this model: the
   * two pseudo palette indices, the dark range and the offset of its intense
   * counterparts, and the largest display.
   */
  datatype TerminalConstants = TerminalConstants(colorForeground: int, colorBackground: int,
                                                 firstDark: int, lastDark: int, intenseOffset: int,
                                                 maxColumns: int, maxRows: int)

  predicate ValidConstants(k: TerminalConstants) {
    && k.colorForeground != k.colorBackground
    && (k.colorForeground < 0 || k.colorForeground > 255)
    && (k.colorBackground < 0 || k.colorBackground > 255)
    && 0 <= k.firstDark <= k.lastDark && 0 <= k.intenseOffset && k.lastDark + k.intenseOffset <= 255
    && 0 <= k.maxColumns && 0 <= k.maxRows
  }

  /** __guac_terminal_hash_codepoint: a byte maps to itself, anything above to 256 + its low byte. */
  function HashCodepoint(codepoint: int): (h: int)
    ensures codepoint <= 0xFF ==> h == codepoint
    ensures codepoint > 0xFF ==> 0x100 <= h <= 0x1FF && h % 0x100 == codepoint % 0x100
    ensures codepoint >= 0 ==> 0 <= h <= 0x1FF
  {
    if codepoint <= 0xFF then codepoint else codepoint % 0x100 + 0x100
  }

  /** Codepoints above a byte collide exactly when their low bytes agree, and never with a byte. */
  lemma HashCodepointCollisions(a: int, b: int)
    requires 0 <= a && 0xFF < b
    ensures a <= 0xFF ==> HashCodepoint(a) != HashCodepoint(b)
    ensures a > 0xFF ==> (HashCodepoint(a) == HashCodepoint(b) <==> a % 0x100 == b % 0x100)
  {
  }

  /** A copy marker: a cell with nothing pending records where its new contents came from. */
  function MarkCopy(op: Operation, row: int, column: int): Operation {
    if op.kind == Nop then op.(kind := Copy, row := row, column := column) else op
  }

  /** The operation a flushed cell is left with. */
  function Retired(op: Operation): Operation {
    op.(kind := Nop)
  }

  /** The colour used for filling and for a glyph's background: reverse video swaps the pair. */
  function ShownBackground(a: Attributes): Color {
    if a.reverse != a.cursor then a.foreground else a.background
  }

  function HalfIntensity(c: Color): Color {
    c.(red := c.red / 2, green := c.green / 2, blue := c.blue / 2)
  }

  /**
   * The extent copy_columns and copy_rows operate on: the requested start and
   * end, fitted (as guac_terminal_fit_to_range does) so that both the source
   * and the destination, `offset` away, lie inside [0, size).
   */
  function Extent(start: int, end: int, offset: int, size: int): (r: (int, int))
    requires -size < offset < size
    ensures 0 <= r.0 <= r.1 < size && 0 <= r.0 + offset && r.1 + offset < size
    ensures 0 <= start && 0 <= start + offset && start <= end && end < size && end + offset < size ==> r == (start, end)
  {
    if offset >= 0 then
      var s := Clamp(start, 0, size - offset - 1);
      (s, Clamp(end, s, size - offset - 1))
    else
      var s := Clamp(start, -offset, size - 1);
      (s, Clamp(end, s, size - 1))
  }

  /** Columns reachable from `start` in steps of `step`. */
  predicate OnGrid(c: int, start: int, step: int)
    requires step > 0
    decreases c - start
  {
    c == start || (c > start && OnGrid(c - step, start, step))
  }

  /** The columns set_columns visits: from `start`, every `step` columns, up to `end`. */
  predicate Visited(c: int, start: int, end: int, step: int)
    requires step > 0
  {
    start <= c <= end && OnGrid(c, start, step)
  }

  /** Between two visited columns no other column is visited. */
  lemma {:induction false} BetweenVisits(start: int, col: int, step: int, c: int)
    requires step > 0 && OnGrid(col, start, step) && col < c < col + step
    ensures !OnGrid(c, start, step)
    decreases col - start
  {
    if col > start {
      BetweenVisits(start, col - step, step, c - step);
    }
  }

  class Display {
    const k: TerminalConstants
    /** guac_terminal_has_glyph, which is not part of this model. */
    const hasGlyph: int -> bool
    /** guac_terminal_colorcmp(a, b) == 0, which is not part of this model. */
    const sameColor: (Color, Color) -> bool
    const palette: array<Color>
    var defaultForeground: Color
    var defaultBackground: Color
    var glyphForeground: Color
    var glyphBackground: Color
    var width: int
    var height: int
    var operations: array2<Operation>
    var unflushedSet: bool
    var draws: seq<Draw>

    ghost predicate Valid()
      reads this`width, this`height, this`operations
    {
      && ValidConstants(k)
      && palette.Length == 256
      && 0 <= width && 0 <= height
      && operations.Length0 == height && operations.Length1 == width
    }

    /** A display of no cells whose palette is `initial`. */
    constructor (k: TerminalConstants, hasGlyph: int -> bool, sameColor: (Color, Color) -> bool,
                 initial: seq<Color>, foreground: Color, background: Color)
      requires ValidConstants(k) && |initial| == 256
      ensures Valid() && fresh(palette) && fresh(operations)
      ensures palette[..] == initial && width == 0 && height == 0
      ensures defaultForeground == foreground && defaultBackground == background
      ensures !unflushedSet && draws == []
    {
      this.k := k;
      this.hasGlyph := hasGlyph;
      this.sameColor := sameColor;
      palette := new Color[256](i requires 0 <= i < 256 => initial[i]);
      defaultForeground, defaultBackground := foreground, background;
      glyphForeground, glyphBackground := foreground, background;
      width, height := 0, 0;
      operations := new Operation[0, 0];
      unflushedSet := false;
      draws := [];
    }

    /**
     * guac_terminal_display_lookup_color: the pseudo-indices give the default
     * colours, other indices outside the palette fail (None), and the rest
     * give their palette entry.
     */
    function LookupColor(index: int): (r: Option<Color>)
      reads this`width, this`height, this`operations, this`defaultForeground, this`defaultBackground, palette
      requires Valid()
      ensures index == k.colorForeground ==> r == Some(defaultForeground)
      ensures index == k.colorBackground ==> r == Some(defaultBackground)
      ensures r.None? <==> index != k.colorForeground && index != k.colorBackground && !(0 <= index <= 255)
      ensures 0 <= index <= 255 ==> r == Some(palette[index])
    {
      if index == k.colorForeground then Some(defaultForeground)
      else if index == k.colorBackground then Some(defaultBackground)
      else if index < 0 || index > 255 then None
      else Some(palette[index])
    }

    /** The colour lookup_color leaves in `color`: the lookup's result, or `color` when it fails. */
    function Looked(color: Color): Color
      reads this`width, this`height, this`operations, this`defaultForeground, this`defaultBackground, palette
      requires Valid()
    {
      match LookupColor(color.paletteIndex)
      case Some(c) => c
      case None => color
    }

    /**
     * guac_terminal_display_assign_color: fails with 1 and changes nothing
     * outside the palette; otherwise copies the RGB value into that entry
     * (its palette index is kept) and returns 0.
     */
    method AssignColor(index: int, color: Color) returns (status: int)
      requires Valid()
      modifies palette
      ensures status == 1 <==> !(0 <= index <= 255)
      ensures status == 0 <==> 0 <= index <= 255
      ensures status == 1 ==> palette[..] == old(palette[..])
      ensures status == 0 ==>
        palette[..] == old(palette[..])[index := old(palette[index]).(red := color.red, green := color.green, blue := color.blue)]
      ensures status == 0 ==> var c := LookupColor(index).value;
        c.red == color.red && c.green == color.green && c.blue == color.blue
    {
      if index < 0 || index > 255 {
        return 1;
      }
      palette[index] := palette[index].(red := color.red, green := color.green, blue := color.blue);
      return 0;
    }

    /**
     * The colours __guac_terminal_set_colors selects for `a`: reverse video
     * (reverse differing from cursor) swaps foreground and background; bold
     * without half-bright takes a dark foreground's intense counterpart; each
     * colour is then resolved through lookup_color; half-bright without bold
     * halves the foreground's components.
     */
    function GlyphColors(a: Attributes): (r: (Color, Color))
      reads this`width, this`height, this`operations, this`defaultForeground, this`defaultBackground, palette
      requires Valid()
      ensures r.1 == Looked(ShownBackground(a))
    {
      var fg := if a.reverse != a.cursor then a.background else a.foreground;
      var fg' := if a.bold && !a.halfBright && k.firstDark <= fg.paletteIndex <= k.lastDark
                 then palette[fg.paletteIndex + k.intenseOffset] else fg;
      var looked := Looked(fg');
      (if a.halfBright && !a.bold then HalfIntensity(looked) else looked, Looked(ShownBackground(a)))
    }

    /** With neither bold nor half-bright, toggling reverse video exchanges the two colours. */
    lemma ReverseSwapsColors(a: Attributes)
      requires Valid() && !a.bold && !a.halfBright
      ensures GlyphColors(a.(reverse := !a.reverse)) == (GlyphColors(a).1, GlyphColors(a).0)
      ensures GlyphColors(a.(cursor := !a.cursor)) == (GlyphColors(a).1, GlyphColors(a).0)
    {
    }

    /** Half-bright without bold halves each component of the plain foreground. */
    lemma HalfBrightHalves(a: Attributes)
      requires Valid() && a.halfBright && !a.bold
      ensures GlyphColors(a).0 == HalfIntensity(GlyphColors(a.(halfBright := false)).0)
      ensures GlyphColors(a).1 == GlyphColors(a.(halfBright := false)).1
    {
    }

    /** Bold without half-bright draws a dark foreground in its intense counterpart. */
    lemma BoldUsesIntense(a: Attributes)
      requires Valid() && a.bold && !a.halfBright
      requires var fg := if a.reverse != a.cursor then a.background else a.foreground;
        k.firstDark <= fg.paletteIndex <= k.lastDark
      ensures var fg := if a.reverse != a.cursor then a.background else a.foreground;
        GlyphColors(a).0 == Looked(palette[fg.paletteIndex + k.intenseOffset])
    {
    }

    /** __guac_terminal_set_colors: stores GlyphColors(attributes) as the glyph colours. */
    method SetColors(attributes: Attributes) returns (status: int)
      requires Valid()
      modifies this`glyphForeground, this`glyphBackground
      ensures status == 0
      ensures (glyphForeground, glyphBackground) == GlyphColors(attributes)
    {
      var background: Color;
      var foreground: Color;
      if attributes.reverse != attributes.cursor {
        background := attributes.foreground;
        foreground := attributes.background;
      } else {
        foreground := attributes.foreground;
        background := attributes.background;
      }
      if attributes.bold && !attributes.halfBright
         && k.firstDark <= foreground.paletteIndex <= k.lastDark {
        foreground := palette[foreground.paletteIndex + k.intenseOffset];
      }
      glyphForeground := foreground;
      var found := LookupColor(foreground.paletteIndex);
      if found.Some? {
        glyphForeground := found.value;
      }
      glyphBackground := background;
      found := LookupColor(background.paletteIndex);
      if found.Some? {
        glyphBackground := found.value;
      }
      if attributes.halfBright && !attributes.bold {
        glyphForeground := glyphForeground.(red := glyphForeground.red / 2);
        glyphForeground := glyphForeground.(green := glyphForeground.green / 2);
        glyphForeground := glyphForeground.(blue := glyphForeground.blue / 2);
      }
      return 0;
    }

    /** The character resize writes into new cells: a blank in the default background. */
    function Fill(): TermChar
      reads this`defaultBackground
    {
      TermChar(0, Attributes(false, false, false, false, defaultBackground, defaultBackground), 1)
    }

    /**
     * guac_terminal_display_resize: nothing changes when the size is the same.
     * Otherwise a new buffer of the new size has nothing pending in the cells
     * the old size covered, and a set of the blank fill character everywhere
     * else; the new size is recorded and sent.
     */
    method Resize(newWidth: int, newHeight: int)
      requires Valid()
      requires newWidth != width || newHeight != height ==>
        0 <= newWidth <= k.maxColumns && 0 <= newHeight <= k.maxRows
      modifies this`operations, this`width, this`height, this`draws
      ensures Valid()
      ensures newWidth == old(width) && newHeight == old(height) ==>
        operations == old(operations) && draws == old(draws) && width == old(width) && height == old(height)
      ensures newWidth != old(width) || newHeight != old(height) ==>
        && fresh(operations) && width == newWidth && height == newHeight
        && draws == old(draws) + [Resized(newWidth, newHeight)]
        && (forall y, x :: 0 <= y < newHeight && 0 <= x < newWidth ==>
              if x < old(width) && y < old(height) then operations[y, x].kind == Nop
              else operations[y, x] == Operation(Set, Fill(), 0, 0))
    {
      if newWidth == width && newHeight == height {
        return;
      }
      var fill := Fill();
      var buffer := new Operation[newHeight, newWidth]((_, _) => Operation(Nop, fill, 0, 0));
      var y := 0;
      while y < newHeight
        modifies buffer
        invariant 0 <= y <= newHeight
        invariant forall r, c :: 0 <= r < y && 0 <= c < newWidth ==>
          if c < width && r < height then buffer[r, c].kind == Nop else buffer[r, c] == Operation(Set, fill, 0, 0)
      {
        var x := 0;
        while x < newWidth
          modifies buffer
          invariant 0 <= x <= newWidth
          invariant forall r, c :: 0 <= r < y && 0 <= c < newWidth ==>
            if c < width && r < height then buffer[r, c].kind == Nop else buffer[r, c] == Operation(Set, fill, 0, 0)
          invariant forall c :: 0 <= c < x ==>
            if c < width && y < height then buffer[y, c].kind == Nop else buffer[y, c] == Operation(Set, fill, 0, 0)
        {
          if x < width && y < height {
            buffer[y, x] := buffer[y, x].(kind := Nop);
          } else {
            buffer[y, x] := Operation(Set, fill, 0, 0);
          }
          x := x + 1;
        }
        y := y + 1;
      }
      operations := buffer;
      width, height := newWidth, newHeight;
      draws := draws + [Resized(newWidth, newHeight)];
    }

    /** A cell holding a copy from (srcRow, srcColumn). */
    static predicate CopiesFrom(op: Operation, srcRow: int, srcColumn: int) {
      op.kind == Copy && op.row == srcRow && op.column == srcColumn
    }

    /** A cell a clear rectangle of `color` absorbs: a glyph-less set shown on that colour. */
    predicate Clears(op: Operation, color: Color) {
      op.kind == Set && !hasGlyph(op.character.value) && sameColor(ShownBackground(op.character.attributes), color)
    }

    /** What the copy pass does to one cell. */
    static predicate CopyFlushed(before: Operation, after: Operation) {
      after == if before.kind == Copy then Retired(before) else before
    }

    /**
     * The rectangle search of __guac_terminal_display_flush_copy, from the copy
     * at (row, col): rows are added while their run of copies from the
     * continuing source cells is at least as wide as the first row's.
     */
    method CopyRectangle(row: int, col: int) returns (rectWidth: int, rectHeight: int)
      requires Valid() && 0 <= row < height && 0 <= col < width && operations[row, col].kind == Copy
      ensures 1 <= rectWidth <= width - col && 1 <= rectHeight <= height - row
      ensures forall r, c :: row <= r < row + rectHeight && col <= c < col + rectWidth ==>
        CopiesFrom(operations[r, c], operations[row, col].row + (r - row), operations[row, col].column + (c - col))
    {
      var start := operations[row, col];
      var detectedRight := -1;
      var detectedBottom := row;
      var rectRow := row;
      var expectedRow := start.row;
      while rectRow < height
        invariant row <= rectRow <= height
        invariant expectedRow == start.row + (rectRow - row)
        invariant rectRow == row ==> detectedRight == -1
        invariant rectRow > row ==> col <= detectedRight < width && detectedBottom == rectRow - 1
        invariant forall r, c :: row <= r < rectRow && col <= c <= detectedRight ==>
          CopiesFrom(operations[r, c], start.row + (r - row), start.column + (c - col))
      {
        var rectCol := col;
        var expectedCol := start.column;
        while rectCol < width && CopiesFrom(operations[rectRow, rectCol], expectedRow, expectedCol)
          invariant col <= rectCol <= width
          invariant expectedCol == start.column + (rectCol - col)
          invariant forall c :: col <= c < rectCol ==>
            CopiesFrom(operations[rectRow, c], expectedRow, start.column + (c - col))
        {
          rectCol := rectCol + 1;
          expectedCol := expectedCol + 1;
        }
        if rectCol - 1 < detectedRight {
          break;
        }
        detectedBottom := rectRow;
        if detectedRight == -1 {
          detectedRight := rectCol - 1;
        }
        rectRow := rectRow + 1;
        expectedRow := expectedRow + 1;
      }
      rectWidth := detectedRight - col + 1;
      rectHeight := detectedBottom - row + 1;
    }

    /** Marks the copies of a found rectangle, from the continuing source cells, as handled. */
    method RetireCopyRectangle(row: int, col: int, rectWidth: int, rectHeight: int, srcRow: int, srcColumn: int)
      requires Valid() && 0 <= row && 0 <= col && 0 <= rectWidth && 0 <= rectHeight
      requires row + rectHeight <= height && col + rectWidth <= width
      modifies operations
      ensures forall r, c :: 0 <= r < height && 0 <= c < width ==>
        operations[r, c] ==
          if row <= r < row + rectHeight && col <= c < col + rectWidth
             && CopiesFrom(old(operations[r, c]), srcRow + (r - row), srcColumn + (c - col))
          then Retired(old(operations[r, c])) else old(operations[r, c])
    {
      var rectRow := 0;
      while rectRow < rectHeight
        invariant 0 <= rectRow <= rectHeight
        invariant forall r, c :: 0 <= r < height && 0 <= c < width ==>
          operations[r, c] ==
            if row <= r < row + rectRow && col <= c < col + rectWidth
               && CopiesFrom(old(operations[r, c]), srcRow + (r - row), srcColumn + (c - col))
            then Retired(old(operations[r, c])) else old(operations[r, c])
      {
        var rectCol := 0;
        while rectCol < rectWidth
          invariant 0 <= rectCol <= rectWidth
          invariant forall r, c :: 0 <= r < height && 0 <= c < width ==>
            operations[r, c] ==
              if ((row <= r < row + rectRow && col <= c < col + rectWidth)
                  || (r == row + rectRow && col <= c < col + rectCol))
                 && CopiesFrom(old(operations[r, c]), srcRow + (r - row), srcColumn + (c - col))
              then Retired(old(operations[r, c])) else old(operations[r, c])
        {
          var current := operations[row + rectRow, col + rectCol];
          if CopiesFrom(current, srcRow + rectRow, srcColumn + rectCol) {
            operations[row + rectRow, col + rectCol] := current.(kind := Nop);
          }
          rectCol := rectCol + 1;
        }
        rectRow := rectRow + 1;
      }
    }

    /** Whether (r, c) lies in the destination of the copy request `d`. */
    static predicate InDestination(d: Draw, r: int, c: int) {
      d.CopyRect? && d.dstRow <= r < d.dstRow + d.height && d.dstColumn <= c < d.dstColumn + d.width
    }

    /** A copy request that reproduces `op`, the pending copy of cell (r, c), from its recorded source. */
    static predicate CopyCovers(d: Draw, r: int, c: int, op: Operation) {
      InDestination(d, r, c) && CopiesFrom(op, d.srcRow + (r - d.dstRow), d.srcColumn + (c - d.dstColumn))
    }

    /** A copy request of at least one cell whose destination lies inside the display. */
    predicate CopyInside(d: Draw)
      reads this`width, this`height
    {
      && d.CopyRect? && 1 <= d.width && 1 <= d.height
      && 0 <= d.dstRow && d.dstRow + d.height <= height
      && 0 <= d.dstColumn && d.dstColumn + d.width <= width
    }

    /**
     * The copy pass over the buffer g has reached (row, col): each cell is as
     * in g or is a copy of g marked handled, no cell before (row, col) holds a
     * pending copy, each new request is a copy inside the display reproducing
     * every cell of its destination as g has it, and every handled copy lies
     * in such a request.
     */
    predicate CopiedUpTo(g: seq<seq<Operation>>, base: int, row: int, col: int)
      reads this`width, this`height, this`operations, this`draws, operations
      requires Valid() && IsGrid(g, width, height)
    {
      && (forall r, c :: 0 <= r < height && 0 <= c < width ==>
            operations[r, c] == g[r][c] || (g[r][c].kind == Copy && operations[r, c] == Retired(g[r][c])))
      && (forall r, c :: 0 <= r < height && 0 <= c < width && (r < row || (r == row && c < col)) ==> operations[r, c].kind != Copy)
      && 0 <= base <= |draws|
      && (forall i :: base <= i < |draws| ==> CopyInside(draws[i]))
      && (forall i, r, c :: base <= i < |draws| && 0 <= r < height && 0 <= c < width && InDestination(draws[i], r, c) ==>
            CopyCovers(draws[i], r, c, g[r][c]))
      && (forall r, c :: 0 <= r < height && 0 <= c < width && g[r][c].kind == Copy && operations[r, c].kind != Copy ==>
            exists i :: base <= i < |draws| && CopyCovers(draws[i], r, c, g[r][c]))
    }

    /** One cell of the copy pass: a pending copy at (row, col) starts a copy; any other cell is passed over. */
    method FlushCopyAt(row: int, col: int, ghost g: seq<seq<Operation>>, ghost base: int)
      requires Valid() && 0 <= row < height && 0 <= col < width && IsGrid(g, width, height)
      requires CopiedUpTo(g, base, row, col)
      modifies this`draws, operations
      ensures CopiedUpTo(g, base, row, col + 1)
      ensures |old(draws)| <= |draws| && draws[..|old(draws)|] == old(draws)
    {
      var current := operations[row, col];
      if current.kind == Copy {
        FlushCopyFrom(row, col);
        forall r, c | 0 <= r < height && 0 <= c < width && g[r][c].kind == Copy && operations[r, c].kind != Copy
          ensures exists i :: base <= i < |draws| && CopyCovers(draws[i], r, c, g[r][c])
        {
          if old(operations[r, c]).kind != Copy {
            var i :| base <= i < |old(draws)| && CopyCovers(old(draws)[i], r, c, g[r][c]);
            assert draws[i] == old(draws)[i];
          } else {
            assert CopyCovers(draws[|old(draws)|], r, c, g[r][c]);
          }
        }
        forall i | base <= i < |draws|
          ensures CopyInside(draws[i])
        {
          if i < |old(draws)| {
            assert draws[i] == old(draws)[i];
          }
        }
      }
    }

    /**
     * __guac_terminal_display_flush_copy over the buffer g, which it leaves as
     * g': every pending copy is marked handled and nothing else changes. Each
     * new request is a rectangle copy inside the display whose every
     * destination cell was a copy from the matching source cell, and every
     * pending copy lies in such a request.
     */
    method FlushCopy(ghost g: seq<seq<Operation>>) returns (ghost g': seq<seq<Operation>>)
      requires Valid() && IsGrid(g, width, height)
      requires forall r, c :: 0 <= r < height && 0 <= c < width ==> operations[r, c] == g[r][c]
      modifies this`draws, operations
      ensures Valid() && IsGrid(g', width, height)
      ensures forall r, c :: 0 <= r < height && 0 <= c < width ==> operations[r, c] == g'[r][c] && CopyFlushed(g[r][c], g'[r][c])
      ensures |old(draws)| <= |draws| && draws[..|old(draws)|] == old(draws)
      ensures CopyPassMade(draws, |old(draws)|, g)
    {
      ghost var base := |draws|;
      var row := 0;
      while row < height
        invariant 0 <= row <= height
        invariant CopiedUpTo(g, base, row, 0)
        invariant base <= |draws| && draws[..base] == old(draws)
      {
        var col := 0;
        while col < width
          invariant 0 <= col <= width
          invariant CopiedUpTo(g, base, row, col)
          invariant base <= |draws| && draws[..base] == old(draws)
        {
          FlushCopyAt(row, col, g, base);
          col := col + 1;
        }
        row := row + 1;
      }
      g' := Cells();
    }

    /**
     * The copy started at the pending copy at (row, col): its rectangle is
     * found, the matching copies are marked handled, and it is copied in one
     * request.
     */
    method FlushCopyFrom(row: int, col: int)
      requires Valid() && 0 <= row < height && 0 <= col < width && operations[row, col].kind == Copy
      modifies this`draws, operations
      ensures forall r, c :: 0 <= r < height && 0 <= c < width ==>
        operations[r, c] == old(operations[r, c]) || (old(operations[r, c]).kind == Copy && operations[r, c] == Retired(old(operations[r, c])))
      ensures operations[row, col].kind != Copy
      ensures |draws| == |old(draws)| + 1 && draws[..|old(draws)|] == old(draws)
      ensures var d := draws[|old(draws)|];
        && CopyInside(d)
        && (forall r, c :: 0 <= r < height && 0 <= c < width && InDestination(d, r, c) ==> CopyCovers(d, r, c, old(operations[r, c])))
        && (forall r, c :: 0 <= r < height && 0 <= c < width && old(operations[r, c]).kind == Copy && operations[r, c].kind != Copy ==>
              CopyCovers(d, r, c, old(operations[r, c])))
    {
      var current := operations[row, col];
      var rectWidth, rectHeight := CopyRectangle(row, col);
      RetireCopyRectangle(row, col, rectWidth, rectHeight, current.row, current.column);
      draws := draws + [CopyRect(current.row, current.column, rectWidth, rectHeight, row, col)];
    }

    /**
     * The rectangle search of __guac_terminal_display_flush_clear, from
     * (row, col), for cells `color` absorbs. The first row is always taken.
     * When the first cell is absorbed, so is every cell of the rectangle.
     * Otherwise the first row's run is empty: away from the left edge the
     * rectangle is then zero columns wide, but at the left edge the width is
     * still unset and the first later row with a run decides it, so rows
     * whose first cell is not absorbed may lie in the rectangle. A row whose
     * first cell is absorbed is absorbed across the whole rectangle.
     */
    method ClearRectangle(row: int, col: int, color: Color) returns (rectWidth: int, rectHeight: int)
      requires Valid() && 0 <= row < height && 0 <= col < width
      ensures 0 <= rectWidth <= width - col && 1 <= rectHeight <= height - row
      ensures Clears(operations[row, col], color) ==> 1 <= rectWidth
      ensures !Clears(operations[row, col], color) && col > 0 ==> rectWidth == 0
      ensures Clears(operations[row, col], color) ==>
        forall r, c :: row <= r < row + rectHeight && col <= c < col + rectWidth ==> Clears(operations[r, c], color)
      ensures forall r, c :: row <= r < row + rectHeight && col <= c < col + rectWidth && Clears(operations[r, col], color) ==>
        Clears(operations[r, c], color)
    {
      var detectedRight := -1;
      var detectedBottom := row;
      var rectRow := row;
      while rectRow < height
        invariant row <= rectRow <= height
        invariant rectRow == row ==> detectedRight == -1
        invariant rectRow > row ==> col - 1 <= detectedRight < width && detectedBottom == rectRow - 1
        invariant rectRow > row && Clears(operations[row, col], color) ==> col <= detectedRight
        invariant rectRow > row && !Clears(operations[row, col], color) && col > 0 ==> detectedRight == col - 1
        invariant Clears(operations[row, col], color) ==>
          forall r, c :: row <= r < rectRow && col <= c <= detectedRight ==> Clears(operations[r, c], color)
        invariant forall r, c :: row <= r < rectRow && col <= c <= detectedRight && Clears(operations[r, col], color) ==>
          Clears(operations[r, c], color)
        invariant detectedRight == -1 ==> forall r :: row <= r < rectRow ==> !Clears(operations[r, col], color)
      {
        var rectCol := col;
        while rectCol < width && Clears(operations[rectRow, rectCol], color)
          invariant col <= rectCol <= width
          invariant forall c :: col <= c < rectCol ==> Clears(operations[rectRow, c], color)
        {
          rectCol := rectCol + 1;
        }
        if rectCol - 1 < detectedRight {
          break;
        }
        detectedBottom := rectRow;
        if detectedRight == -1 {
          detectedRight := rectCol - 1;
        }
        rectRow := rectRow + 1;
      }
      rectWidth := detectedRight - col + 1;
      rectHeight := detectedBottom - row + 1;
    }

    /** Marks the cells of a found clear rectangle that `color` absorbs as handled. */
    method RetireClearRectangle(row: int, col: int, rectWidth: int, rectHeight: int, color: Color)
      requires Valid() && 0 <= row && 0 <= col && 0 <= rectWidth && 0 <= rectHeight
      requires row + rectHeight <= height && col + rectWidth <= width
      modifies operations
      ensures forall r, c :: 0 <= r < height && 0 <= c < width ==>
        operations[r, c] ==
          if row <= r < row + rectHeight && col <= c < col + rectWidth && Clears(old(operations[r, c]), color)
          then Retired(old(operations[r, c])) else old(operations[r, c])
    {
      var rectRow := 0;
      while rectRow < rectHeight
        invariant 0 <= rectRow <= rectHeight
        invariant forall r, c :: 0 <= r < height && 0 <= c < width ==>
          operations[r, c] ==
            if row <= r < row + rectRow && col <= c < col + rectWidth && Clears(old(operations[r, c]), color)
            then Retired(old(operations[r, c])) else old(operations[r, c])
      {
        var rectCol := 0;
        while rectCol < rectWidth
          invariant 0 <= rectCol <= rectWidth
          invariant forall r, c :: 0 <= r < height && 0 <= c < width ==>
            operations[r, c] ==
              if ((row <= r < row + rectRow && col <= c < col + rectWidth)
                  || (r == row + rectRow && col <= c < col + rectCol))
                 && Clears(old(operations[r, c]), color)
              then Retired(old(operations[r, c])) else old(operations[r, c])
        {
          var current := operations[row + rectRow, col + rectCol];
          if Clears(current, color) {
            operations[row + rectRow, col + rectCol] := current.(kind := Nop);
          }
          rectCol := rectCol + 1;
        }
        rectRow := rectRow + 1;
      }
    }

    /** What the clear pass may do to one cell: handle a glyph-less set, or leave it. */
    predicate ClearFlushed(before: Operation, after: Operation) {
      after == before || (before.kind == Set && !hasGlyph(before.character.value) && after == Retired(before))
    }

    /** Whether (r, c) lies in the fill request `d`. */
    static predicate InFill(d: Draw, r: int, c: int) {
      d.FillRect? && d.row <= r < d.row + d.height && d.column <= c < d.column + d.width
    }

    /** A fill request that absorbs `op`, the pending set of cell (r, c). */
    predicate FillCovers(d: Draw, r: int, c: int, op: Operation) {
      InFill(d, r, c) && Clears(op, d.color)
    }

    /** A glyph-less set shown on a colour that compares equal to its looked-up colour: it absorbs itself. */
    predicate SelfClearing(op: Operation)
      reads this`width, this`height, this`operations, this`defaultForeground, this`defaultBackground, palette
      requires Valid()
    {
      Clears(op, Looked(ShownBackground(op.character.attributes)))
    }

    /** A `width` x `height` grid of cells, row by row. */
    static predicate IsGrid(g: seq<seq<Operation>>, width: int, height: int) {
      |g| == height && forall r :: 0 <= r < height ==> |g[r]| == width
    }

    /** The cells of the buffer, row by row. */
    ghost function Cells(): (g: seq<seq<Operation>>)
      reads this`width, this`height, this`operations, operations
      requires Valid()
      ensures IsGrid(g, width, height)
      ensures forall r, c {:trigger g[r][c]} :: 0 <= r < height && 0 <= c < width ==> g[r][c] == operations[r, c]
    {
      var ops, h, w := operations, height, width;
      seq(h, r requires 0 <= r < h && r < ops.Length0 reads ops =>
        seq(w, c requires 0 <= c < w && c < ops.Length1 reads ops => ops[r, c]))
    }

    /**
     * A fill request inside the display, started at a glyph-less set of `g`
     * and in the looked-up colour that set is shown on; when that set absorbs
     * itself, every cell of the fill is absorbed.
     */
    predicate FillFrom(d: Draw, g: seq<seq<Operation>>)
      reads this`width, this`height, this`operations, this`defaultForeground, this`defaultBackground, palette
      requires Valid() && IsGrid(g, width, height)
    {
      && d.FillRect? && 0 <= d.width && 1 <= d.height
      && 0 <= d.row && d.row + d.height <= height
      && 0 <= d.column < width && d.column + d.width <= width
      && var corner := g[d.row][d.column];
         && corner.kind == Set && !hasGlyph(corner.character.value)
         && d.color == Looked(ShownBackground(corner.character.attributes))
         && (SelfClearing(corner) ==>
               forall r, c :: d.row <= r < d.row + d.height && d.column <= c < d.column + d.width ==> Clears(g[r][c], d.color))
    }

    /**
     * The clear pass has visited the cells before (row, col), in row-major
     * order, of the buffer that was `g`, adding requests from index `base`
     * on: only glyph-less sets are handled, every visited set that absorbs
     * itself is, each new request is a fill from `g`, and every handled cell
     * lies in a new fill that absorbs it.
     */
    predicate ClearedUpTo(g: seq<seq<Operation>>, base: int, row: int, col: int)
      reads this, operations, palette
      requires Valid() && IsGrid(g, width, height)
    {
      && (forall r, c :: 0 <= r < height && 0 <= c < width ==> ClearFlushed(g[r][c], operations[r, c]))
      && (forall r, c :: 0 <= r < height && 0 <= c < width && (r < row || (r == row && c < col)) && SelfClearing(g[r][c]) ==>
            operations[r, c].kind == Nop)
      && 0 <= base <= |draws|
      && (forall i :: base <= i < |draws| ==> FillFrom(draws[i], g))
      && (forall r, c :: 0 <= r < height && 0 <= c < width && operations[r, c] != g[r][c] ==>
            exists i :: base <= i < |draws| && FillCovers(draws[i], r, c, g[r][c]))
    }

    /**
     * The fill started at the glyph-less set at (row, col): the rectangle in
     * the set's looked-up colour is found, its absorbed cells are marked
     * handled, and it is filled in one request. `g` is the buffer before the
     * pass.
     */
    method FillAt(row: int, col: int, ghost g: seq<seq<Operation>>, ghost base: int)
      requires Valid() && 0 <= row < height && 0 <= col < width && IsGrid(g, width, height)
      requires 0 <= base <= |draws| && forall i :: base <= i < |draws| ==> FillFrom(draws[i], g)
      requires forall r, c :: 0 <= r < height && 0 <= c < width ==> ClearFlushed(g[r][c], operations[r, c])
      requires operations[row, col].kind == Set && !hasGlyph(operations[row, col].character.value)
      modifies this`draws, operations
      ensures forall r, c {:trigger operations[r, c]} :: 0 <= r < height && 0 <= c < width ==> ClearFlushed(old(operations[r, c]), operations[r, c])
      ensures SelfClearing(old(operations[row, col])) ==> operations[row, col].kind == Nop
      ensures |draws| == |old(draws)| + 1 && draws[..|old(draws)|] == old(draws)
      ensures forall i :: base <= i < |draws| ==> FillFrom(draws[i], g)
      ensures forall r, c {:trigger operations[r, c]} :: 0 <= r < height && 0 <= c < width && operations[r, c] != old(operations[r, c]) ==>
        FillCovers(draws[|old(draws)|], r, c, old(operations[r, c]))
    {
      var current := operations[row, col];
      var color := Looked(ShownBackground(current.character.attributes));
      var rectWidth, rectHeight := ClearRectangle(row, col, color);
      RetireClearRectangle(row, col, rectWidth, rectHeight, color);
      var d := FillRect(row, col, rectWidth, rectHeight, color);
      assert FillFrom(d, g);
      draws := draws + [d];
    }

    /** A glyph-less set at (row, col), not handled yet, starts a fill: the pass moves past it. */
    method FlushClearFrom(row: int, col: int, ghost g: seq<seq<Operation>>, ghost base: int)
      requires Valid() && 0 <= row < height && 0 <= col < width && IsGrid(g, width, height)
      requires ClearedUpTo(g, base, row, col)
      requires operations[row, col].kind == Set && !hasGlyph(operations[row, col].character.value)
      modifies this`draws, operations
      ensures ClearedUpTo(g, base, row, col + 1)
      ensures |old(draws)| <= |draws| && draws[..|old(draws)|] == old(draws)
    {
      FillAt(row, col, g, base);
      forall r, c | 0 <= r < height && 0 <= c < width
        ensures ClearFlushed(g[r][c], operations[r, c])
      {
        assert ClearFlushed(g[r][c], old(operations[r, c]));
      }
      forall r, c | 0 <= r < height && 0 <= c < width && (r < row || (r == row && c < col + 1)) && SelfClearing(g[r][c])
        ensures operations[r, c].kind == Nop
      {
        if r != row || c != col {
          assert old(operations[r, c]).kind == Nop;
        }
      }
      forall r, c | 0 <= r < height && 0 <= c < width && operations[r, c] != g[r][c]
        ensures exists i :: base <= i < |draws| && FillCovers(draws[i], r, c, g[r][c])
      {
        if old(operations[r, c]) != g[r][c] {
          var i :| base <= i < |old(draws)| && FillCovers(old(draws)[i], r, c, g[r][c]);
          assert draws[i] == old(draws)[i];
        } else {
          assert FillCovers(draws[|old(draws)|], r, c, g[r][c]);
        }
      }
    }

    /**
     * One cell of the clear pass: a glyph-less set at (row, col) not handled
     * yet starts a fill; any other cell is passed over.
     */
    method FlushClearAt(row: int, col: int, ghost g: seq<seq<Operation>>, ghost base: int)
      requires Valid() && 0 <= row < height && 0 <= col < width && IsGrid(g, width, height)
      requires ClearedUpTo(g, base, row, col)
      modifies this`draws, operations
      ensures ClearedUpTo(g, base, row, col + 1)
      ensures |old(draws)| <= |draws| && draws[..|old(draws)|] == old(draws)
    {
      var current := operations[row, col];
      if current.kind == Set && !hasGlyph(current.character.value) {
        FlushClearFrom(row, col, g, base);
      }
    }

    /**
     * __guac_terminal_display_flush_clear: only glyph-less sets are marked
     * handled, and every one that absorbs itself is. Each new request is a
     * fill inside the display, started at a glyph-less set and in the colour
     * it is shown on; when that set absorbs itself, every cell of the fill is
     * absorbed. Every handled cell lies in a fill that absorbs it.
     */
    method FlushClear(ghost g: seq<seq<Operation>>) returns (ghost g': seq<seq<Operation>>)
      requires Valid() && IsGrid(g, width, height)
      requires forall r, c :: 0 <= r < height && 0 <= c < width ==> operations[r, c] == g[r][c]
      modifies this`draws, operations
      ensures Valid() && IsGrid(g', width, height)
      ensures forall r, c :: 0 <= r < height && 0 <= c < width ==> operations[r, c] == g'[r][c] && ClearFlushed(g[r][c], g'[r][c])
      ensures forall r, c :: 0 <= r < height && 0 <= c < width && SelfClearing(g[r][c]) ==> g'[r][c].kind == Nop
      ensures |old(draws)| <= |draws| && draws[..|old(draws)|] == old(draws)
      ensures FillPassMade(draws, |old(draws)|, g, g')
    {
      ghost var base := |draws|;
      var row := 0;
      while row < height
        invariant 0 <= row <= height
        invariant ClearedUpTo(g, base, row, 0)
        invariant base <= |draws| && draws[..base] == old(draws)
      {
        var col := 0;
        while col < width
          invariant 0 <= col <= width
          invariant ClearedUpTo(g, base, row, col)
          invariant base <= |draws| && draws[..base] == old(draws)
        {
          FlushClearAt(row, col, g, base);
          col := col + 1;
        }
        row := row + 1;
      }
      g' := Cells();
    }

    /** The codepoint a set cell is drawn with: a space when it has no glyph. */
    function DrawnCodepoint(value: int): int {
      if hasGlyph(value) then value else ' ' as int
    }

    /** A glyph request for a set cell whose operation was `op`, in the colours of its attributes. */
    predicate GlyphFor(d: Draw, op: Operation)
      reads this`width, this`height, this`operations, this`defaultForeground, this`defaultBackground, palette
      requires Valid() && d.Glyph?
    {
      && op.kind == Set && d.codepoint == DrawnCodepoint(op.character.value)
      && (d.foreground, d.background) == GlyphColors(op.character.attributes)
    }

    /** The cells of the first n columns of row `row` of the grid g that hold a set, left to right. */
    static function RowSetCells(g: seq<seq<Operation>>, row: int, n: int): seq<(int, int)>
      requires 0 <= row < |g| && 0 <= n <= |g[row]|
      decreases n
    {
      if n == 0 then []
      else RowSetCells(g, row, n - 1) + if g[row][n - 1].kind == Set then [(row, n - 1)] else []
    }

    /** The cells of the first n rows of the grid g that hold a set, in row-major order. */
    static function SetCells(g: seq<seq<Operation>>, n: int): seq<(int, int)>
      requires 0 <= n <= |g|
      decreases n
    {
      if n == 0 then [] else SetCells(g, n - 1) + RowSetCells(g, n - 1, |g[n - 1]|)
    }

    /** Row-major order of two cells. */
    static predicate RowMajorBefore(p: (int, int), q: (int, int)) {
      p.0 < q.0 || (p.0 == q.0 && p.1 < q.1)
    }

    /** Each cell of a row prefix lies in that prefix and holds a set. */
    static lemma {:induction false} RowSetCellsSound(g: seq<seq<Operation>>, row: int, n: int)
      requires 0 <= row < |g| && 0 <= n <= |g[row]|
      ensures forall i :: 0 <= i < |RowSetCells(g, row, n)| ==>
        RowSetCells(g, row, n)[i].0 == row && 0 <= RowSetCells(g, row, n)[i].1 < n &&
        g[row][RowSetCells(g, row, n)[i].1].kind == Set
      decreases n
    {
      if n > 0 {
        RowSetCellsSound(g, row, n - 1);
      }
    }

    /** Every set cell of a row prefix is listed. */
    static lemma {:induction false} RowSetCellsComplete(g: seq<seq<Operation>>, row: int, n: int)
      requires 0 <= row < |g| && 0 <= n <= |g[row]|
      ensures forall c :: 0 <= c < n && g[row][c].kind == Set ==> (row, c) in RowSetCells(g, row, n)
      decreases n
    {
      if n > 0 {
        RowSetCellsComplete(g, row, n - 1);
      }
    }

    /** The cells of a row prefix run left to right. */
    static lemma {:induction false} RowSetCellsOrdered(g: seq<seq<Operation>>, row: int, n: int)
      requires 0 <= row < |g| && 0 <= n <= |g[row]|
      ensures forall i, j :: 0 <= i < j < |RowSetCells(g, row, n)| ==>
        RowMajorBefore(RowSetCells(g, row, n)[i], RowSetCells(g, row, n)[j])
      decreases n
    {
      if n > 0 {
        RowSetCellsOrdered(g, row, n - 1);
        RowSetCellsSound(g, row, n - 1);
      }
    }

    /** Each cell of the first n rows that the set pass lists lies in those rows and holds a set. */
    static lemma {:induction false} SetCellsSound(g: seq<seq<Operation>>, n: int)
      requires 0 <= n <= |g|
      ensures forall i :: 0 <= i < |SetCells(g, n)| ==> var p := SetCells(g, n)[i];
        0 <= p.0 < n && 0 <= p.1 < |g[p.0]| && g[p.0][p.1].kind == Set
      decreases n
    {
      if n > 0 {
        SetCellsSound(g, n - 1);
        RowSetCellsSound(g, n - 1, |g[n - 1]|);
        var prefix := SetCells(g, n - 1);
        var last := RowSetCells(g, n - 1, |g[n - 1]|);
        assert SetCells(g, n) == prefix + last;
        forall i | 0 <= i < |SetCells(g, n)|
          ensures var p := SetCells(g, n)[i]; 0 <= p.0 < n && 0 <= p.1 < |g[p.0]| && g[p.0][p.1].kind == Set
        {
          if i >= |prefix| {
            assert SetCells(g, n)[i] == last[i - |prefix|];
          }
        }
      }
    }

    /** Every set cell of the first n rows is listed. */
    static lemma {:induction false} SetCellsComplete(g: seq<seq<Operation>>, n: int)
      requires 0 <= n <= |g|
      ensures forall r, c :: 0 <= r < n && 0 <= c < |g[r]| && g[r][c].kind == Set ==> (r, c) in SetCells(g, n)
      decreases n
    {
      if n > 0 {
        SetCellsComplete(g, n - 1);
        RowSetCellsComplete(g, n - 1, |g[n - 1]|);
        assert SetCells(g, n) == SetCells(g, n - 1) + RowSetCells(g, n - 1, |g[n - 1]|);
      }
    }

    /**
     * The cells the set pass lists run in row-major order; with the two
     * lemmas above, each set cell is listed exactly once.
     */
    static lemma {:induction false} SetCellsOrdered(g: seq<seq<Operation>>, n: int)
      requires 0 <= n <= |g|
      ensures forall i, j :: 0 <= i < j < |SetCells(g, n)| ==> RowMajorBefore(SetCells(g, n)[i], SetCells(g, n)[j])
      decreases n
    {
      if n > 0 {
        SetCellsOrdered(g, n - 1);
        SetCellsSound(g, n - 1);
        RowSetCellsOrdered(g, n - 1, |g[n - 1]|);
        RowSetCellsSound(g, n - 1, |g[n - 1]|);
        var prefix := SetCells(g, n - 1);
        var last := RowSetCells(g, n - 1, |g[n - 1]|);
        var all := SetCells(g, n);
        assert all == prefix + last;
        forall i, j | 0 <= i < j < |all|
          ensures RowMajorBefore(all[i], all[j])
        {
          if j < |prefix| {
            assert all[i] == prefix[i] && all[j] == prefix[j];
          } else if i < |prefix| {
            assert all[i] == prefix[i] && all[j] == last[j - |prefix|];
          } else {
            assert all[i] == last[i - |prefix|] && all[j] == last[j - |prefix|];
          }
        }
      }
    }

    /** A glyph request drawn at (r, c). */
    static predicate GlyphAt(d: Draw, r: int, c: int) {
      d.Glyph? && d.row == r && d.column == c
    }

    /** The glyph drawn for cell p of the display, matching what the grid g holds there. */
    predicate DrawnAt(d: Draw, p: (int, int), g: seq<seq<Operation>>)
      reads this`width, this`height, this`operations, this`defaultForeground, this`defaultBackground, palette
      requires Valid() && IsGrid(g, width, height)
    {
      0 <= p.0 < height && 0 <= p.1 < width && GlyphAt(d, p.0, p.1) && GlyphFor(d, g[p.0][p.1])
    }

    /** The requests after the first `base` of ds are the glyphs of `cells`, one each and in that order. */
    predicate DrawnFrom(ds: seq<Draw>, base: int, cells: seq<(int, int)>, g: seq<seq<Operation>>)
      reads this`width, this`height, this`operations, this`defaultForeground, this`defaultBackground, palette
      requires Valid() && IsGrid(g, width, height)
    {
      && 0 <= base && |ds| == base + |cells|
      && forall i :: 0 <= i < |cells| ==> DrawnAt(ds[base + i], cells[i], g)
    }

    /** Glyphs drawn after those of `cells` extend the list they were drawn from. */
    lemma DrawnFromAppend(ds: seq<Draw>, base: int, cells: seq<(int, int)>, ds': seq<Draw>, more: seq<(int, int)>,
                          g: seq<seq<Operation>>)
      requires Valid() && IsGrid(g, width, height)
      requires DrawnFrom(ds, base, cells, g) && DrawnFrom(ds', |ds|, more, g) && ds'[..|ds|] == ds
      ensures DrawnFrom(ds', base, cells + more, g) && ds'[..base] == ds[..base]
    {
      forall i | 0 <= i < |cells + more|
        ensures DrawnAt(ds'[base + i], (cells + more)[i], g)
      {
        if i < |cells| {
          assert ds'[base + i] == ds[base + i];
        } else {
          assert ds'[base + i] == ds'[|ds| + (i - |cells|)];
        }
      }
    }

    /**
     * One cell of __guac_terminal_display_flush_set: a pending set is drawn as
     * a glyph in the colours of its attributes (a space when it has no glyph)
     * and marked handled; g holds the cell as it is.
     */
    method FlushSetCell(row: int, col: int, ghost g: seq<seq<Operation>>)
      requires Valid() && 0 <= row < height && 0 <= col < width && IsGrid(g, width, height)
      requires operations[row, col] == g[row][col]
      modifies this`draws, this`glyphForeground, this`glyphBackground, operations
      ensures forall r, c :: 0 <= r < height && 0 <= c < width ==>
        operations[r, c] ==
          if r == row && c == col && old(operations[r, c]).kind == Set then Retired(old(operations[r, c])) else old(operations[r, c])
      ensures g[row][col].kind != Set ==> draws == old(draws)
      ensures g[row][col].kind == Set ==>
        |draws| == |old(draws)| + 1 && draws[..|old(draws)|] == old(draws) && DrawnAt(draws[|old(draws)|], (row, col), g)
    {
      var current := operations[row, col];
      if current.kind == Set {
        var codepoint := current.character.value;
        if !hasGlyph(codepoint) {
          codepoint := ' ' as int;
        }
        var _ := SetColors(current.character.attributes);
        draws := draws + [Glyph(row, col, codepoint, glyphForeground, glyphBackground)];
        operations[row, col] := current.(kind := Nop);
      }
    }

    /**
     * One row of __guac_terminal_display_flush_set, left to right: the rows
     * above it are flushed already, and g holds every cell as it was.
     */
    method FlushSetRow(row: int, ghost g: seq<seq<Operation>>)
      requires Valid() && 0 <= row < height && IsGrid(g, width, height)
      requires forall r, c :: 0 <= r < height && 0 <= c < width ==>
        operations[r, c] == if r < row && g[r][c].kind == Set then Retired(g[r][c]) else g[r][c]
      modifies this`draws, this`glyphForeground, this`glyphBackground, operations
      ensures forall r, c :: 0 <= r < height && 0 <= c < width ==>
        operations[r, c] == if r <= row && g[r][c].kind == Set then Retired(g[r][c]) else g[r][c]
      ensures DrawnFrom(draws, |old(draws)|, RowSetCells(g, row, width), g) && draws[..|old(draws)|] == old(draws)
    {
      var col := 0;
      while col < width
        invariant 0 <= col <= width
        invariant forall r, c :: 0 <= r < height && 0 <= c < width ==>
          operations[r, c] ==
            if (r < row || (r == row && c < col)) && g[r][c].kind == Set then Retired(g[r][c]) else g[r][c]
        invariant DrawnFrom(draws, |old(draws)|, RowSetCells(g, row, col), g) && draws[..|old(draws)|] == old(draws)
      {
        ghost var before := draws;
        FlushSetCell(row, col, g);
        if g[row][col].kind == Set {
          DrawnFromAppend(before, |old(draws)|, RowSetCells(g, row, col), draws, [(row, col)], g);
        }
        col := col + 1;
      }
    }

    /** The rows of __guac_terminal_display_flush_set, top to bottom; g holds every cell as it was. */
    method FlushSetRows(ghost g: seq<seq<Operation>>)
      requires Valid() && IsGrid(g, width, height)
      requires forall r, c :: 0 <= r < height && 0 <= c < width ==> operations[r, c] == g[r][c]
      modifies this`draws, this`glyphForeground, this`glyphBackground, operations
      ensures forall r, c :: 0 <= r < height && 0 <= c < width ==>
        operations[r, c] == if g[r][c].kind == Set then Retired(g[r][c]) else g[r][c]
      ensures DrawnFrom(draws, |old(draws)|, SetCells(g, height), g) && draws[..|old(draws)|] == old(draws)
    {
      var row := 0;
      while row < height
        invariant 0 <= row <= height
        invariant forall r, c :: 0 <= r < height && 0 <= c < width ==>
          operations[r, c] == if r < row && g[r][c].kind == Set then Retired(g[r][c]) else g[r][c]
        invariant DrawnFrom(draws, |old(draws)|, SetCells(g, row), g) && draws[..|old(draws)|] == old(draws)
      {
        ghost var before := draws;
        FlushSetRow(row, g);
        DrawnFromAppend(before, |old(draws)|, SetCells(g, row), draws, RowSetCells(g, row, width), g);
        row := row + 1;
      }
    }

    /**
     * __guac_terminal_display_flush_set: every pending set is drawn as one
     * glyph in the colours of its attributes and marked handled, in row-major
     * order; nothing else changes, and no set is left unflushed.
     */
    method FlushSet(ghost g: seq<seq<Operation>>)
      requires Valid() && IsGrid(g, width, height)
      requires forall r, c :: 0 <= r < height && 0 <= c < width ==> operations[r, c] == g[r][c]
      modifies this`draws, this`glyphForeground, this`glyphBackground, this`unflushedSet, operations
      ensures Valid() && !unflushedSet
      ensures forall r, c {:trigger operations[r, c]} :: 0 <= r < height && 0 <= c < width ==>
        operations[r, c] == if g[r][c].kind == Set then Retired(g[r][c]) else g[r][c]
      ensures DrawnFrom(draws, |old(draws)|, SetCells(g, height), g) && draws[..|old(draws)|] == old(draws)
      ensures forall r, c :: 0 <= r < height && 0 <= c < width && g[r][c].kind == Set ==>
        exists i :: |old(draws)| <= i < |draws| && GlyphAt(draws[i], r, c)
    {
      FlushSetRows(g);
      unflushedSet := false;
      SetCellsComplete(g, height);
      DrawnFromCovers(draws, |old(draws)|, SetCells(g, height), g);
    }

    /** Every set cell of g that `cells` lists has its glyph among the requests drawn from them. */
    lemma DrawnFromCovers(ds: seq<Draw>, base: int, cells: seq<(int, int)>, g: seq<seq<Operation>>)
      requires Valid() && IsGrid(g, width, height) && DrawnFrom(ds, base, cells, g)
      requires forall r, c :: 0 <= r < height && 0 <= c < width && g[r][c].kind == Set ==> (r, c) in cells
      ensures forall r, c :: 0 <= r < height && 0 <= c < width && g[r][c].kind == Set ==>
        exists i :: base <= i < |ds| && GlyphAt(ds[i], r, c)
    {
      forall r, c | 0 <= r < height && 0 <= c < width && g[r][c].kind == Set
        ensures exists i :: base <= i < |ds| && GlyphAt(ds[i], r, c)
      {
        var j :| 0 <= j < |cells| && cells[j] == (r, c);
        assert DrawnAt(ds[base + j], (r, c), g);
      }
    }

    /** The pass of flush_operations that makes a request: copies, then fills, then glyphs. */
    static function Phase(d: Draw): int {
      if d.CopyRect? then 0 else if d.FillRect? then 1 else if d.Glyph? then 2 else 3
    }

    /** The requests of ds from `base` on, whose passes never go back. */
    static predicate Phased(ds: seq<Draw>, base: int) {
      forall a, b :: 0 <= base <= a < b < |ds| ==> Phase(ds[a]) <= Phase(ds[b])
    }

    /** A glyph request for a cell of the display, matching what the grid g holds there. */
    predicate GlyphOf(d: Draw, g: seq<seq<Operation>>)
      reads this`width, this`height, this`operations, this`defaultForeground, this`defaultBackground, palette
      requires Valid() && IsGrid(g, width, height)
    {
      d.Glyph? && 0 <= d.row < height && 0 <= d.column < width && GlyphFor(d, g[d.row][d.column])
    }

    /**
     * The copies among the requests of ds from `base` on, made from the
     * buffer g: each lies in the display and moves exactly the cells it
     * covers from where they were copied, and every pending copy is moved by one.
     */
    predicate CopiesMade(ds: seq<Draw>, base: int, g: seq<seq<Operation>>)
      reads this`width, this`height
      requires IsGrid(g, width, height)
    {
      && (forall i :: 0 <= base <= i < |ds| && ds[i].CopyRect? ==> CopyInside(ds[i]))
      && (forall i, r, c :: 0 <= base <= i < |ds| && 0 <= r < height && 0 <= c < width && InDestination(ds[i], r, c) ==>
            CopyCovers(ds[i], r, c, g[r][c]))
      && (forall r, c :: 0 <= r < height && 0 <= c < width && g[r][c].kind == Copy ==>
            exists i :: 0 <= base <= i < |ds| && CopyCovers(ds[i], r, c, g[r][c]))
    }

    /** The fills among the requests of ds from `base` on each start at a glyph-less set of g, in the colour it is shown on. */
    predicate FillsMade(ds: seq<Draw>, base: int, g: seq<seq<Operation>>)
      reads this`width, this`height, this`operations, this`defaultForeground, this`defaultBackground, palette
      requires Valid() && IsGrid(g, width, height)
    {
      forall i :: 0 <= base <= i < |ds| && ds[i].FillRect? ==> FillFrom(ds[i], g)
    }

    /** The glyphs among the requests of ds from `base` on each match their cell of g. */
    predicate GlyphsMade(ds: seq<Draw>, base: int, g: seq<seq<Operation>>)
      reads this`width, this`height, this`operations, this`defaultForeground, this`defaultBackground, palette
      requires Valid() && IsGrid(g, width, height)
    {
      forall i :: 0 <= base <= i < |ds| && ds[i].Glyph? ==> GlyphOf(ds[i], g)
    }

    /** Every set of g is drawn by a glyph, or absorbed by a fill, among the requests of ds from `base` on. */
    predicate SetsPainted(ds: seq<Draw>, base: int, g: seq<seq<Operation>>)
      reads this`width, this`height
      requires IsGrid(g, width, height)
    {
      forall r, c :: 0 <= r < height && 0 <= c < width && g[r][c].kind == Set ==>
        exists i :: 0 <= base <= i < |ds| && (GlyphAt(ds[i], r, c) || FillCovers(ds[i], r, c, g[r][c]))
    }

    /**
     * What flush_operations makes of the buffer g, as the requests of ds from
     * `base` on: copies, then fills, then glyphs, and nothing else, each as
     * the four predicates above say.
     */
    predicate FlushedFrom(ds: seq<Draw>, base: int, g: seq<seq<Operation>>)
      reads this`width, this`height, this`operations, this`defaultForeground, this`defaultBackground, palette
      requires Valid() && IsGrid(g, width, height)
    {
      && 0 <= base <= |ds| && Phased(ds, base) && (forall i :: base <= i < |ds| ==> !ds[i].Resized?)
      && CopiesMade(ds, base, g) && FillsMade(ds, base, g) && GlyphsMade(ds, base, g) && SetsPainted(ds, base, g)
    }

    /** What the copy pass made from the buffer g: copies only, from `base` on, as CopiesMade says. */
    predicate CopyPassMade(ds: seq<Draw>, base: int, g: seq<seq<Operation>>)
      reads this`width, this`height
      requires IsGrid(g, width, height)
    {
      0 <= base <= |ds| && (forall i :: base <= i < |ds| ==> ds[i].CopyRect?) && CopiesMade(ds, base, g)
    }

    /**
     * What the clear pass made from the buffer g, which it left as g': fills
     * only, from `base` on, each from g, and every cell it changed lies in a
     * fill that absorbs it.
     */
    predicate FillPassMade(ds: seq<Draw>, base: int, g: seq<seq<Operation>>, g': seq<seq<Operation>>)
      reads this`width, this`height, this`operations, this`defaultForeground, this`defaultBackground, palette
      requires Valid() && IsGrid(g, width, height) && IsGrid(g', width, height)
    {
      && 0 <= base <= |ds|
      && (forall i :: base <= i < |ds| ==> FillFrom(ds[i], g))
      && (forall r, c :: 0 <= r < height && 0 <= c < width && g'[r][c] != g[r][c] ==>
            exists i :: base <= i < |ds| && FillCovers(ds[i], r, c, g[r][c]))
    }

    /** A fill from the buffer after the copy pass is one from the buffer before it: the copy pass keeps every set. */
    lemma FillFromBeforeCopies(d: Draw, g0: seq<seq<Operation>>, g1: seq<seq<Operation>>)
      requires Valid() && IsGrid(g0, width, height) && IsGrid(g1, width, height)
      requires forall r, c :: 0 <= r < height && 0 <= c < width ==> CopyFlushed(g0[r][c], g1[r][c])
      requires FillFrom(d, g1)
      ensures FillFrom(d, g0)
    {
      assert g0[d.row][d.column] == g1[d.row][d.column];
      forall r, c | d.row <= r < d.row + d.height && d.column <= c < d.column + d.width && Clears(g1[r][c], d.color)
        ensures Clears(g0[r][c], d.color)
      {
        assert g0[r][c] == g1[r][c];
      }
    }

    /** The requests of the three passes, from n0, |copies| and |fills| on, come in that order and are of their pass's kind. */
    lemma PassesPhased(ds: seq<Draw>, copies: seq<Draw>, fills: seq<Draw>, n0: int,
                       g0: seq<seq<Operation>>, g1: seq<seq<Operation>>, g2: seq<seq<Operation>>)
      requires Valid() && IsGrid(g0, width, height) && IsGrid(g1, width, height) && IsGrid(g2, width, height)
      requires 0 <= n0 <= |copies| <= |fills| <= |ds| && fills[..|copies|] == copies && ds[..|fills|] == fills
      requires CopyPassMade(copies, n0, g0) && FillPassMade(fills, |copies|, g1, g2)
      requires DrawnFrom(ds, |fills|, SetCells(g2, height), g2)
      ensures forall i :: n0 <= i < |ds| ==> Phase(ds[i]) == if i < |copies| then 0 else if i < |fills| then 1 else 2
      ensures Phased(ds, n0) && forall i :: n0 <= i < |ds| ==> !ds[i].Resized?
    {
      forall i | n0 <= i < |ds|
        ensures Phase(ds[i]) == if i < |copies| then 0 else if i < |fills| then 1 else 2
      {
        if i < |copies| {
          assert ds[i] == fills[i] == copies[i];
        } else if i < |fills| {
          assert ds[i] == fills[i];
        } else {
          assert DrawnAt(ds[|fills| + (i - |fills|)], SetCells(g2, height)[i - |fills|], g2);
        }
      }
    }

    /** The copy pass's requests keep what they say about g once later requests, none of them copies, follow. */
    lemma CopiesKept(copies: seq<Draw>, ds: seq<Draw>, n0: int, g: seq<seq<Operation>>)
      requires Valid() && IsGrid(g, width, height) && |copies| <= |ds| && ds[..|copies|] == copies
      requires CopyPassMade(copies, n0, g)
      requires forall i :: |copies| <= i < |ds| ==> !ds[i].CopyRect?
      ensures CopiesMade(ds, n0, g)
    {
      forall i | n0 <= i < |copies|
        ensures ds[i] == copies[i]
      {
      }
      forall r, c | 0 <= r < height && 0 <= c < width && g[r][c].kind == Copy
        ensures exists i :: 0 <= n0 <= i < |ds| && CopyCovers(ds[i], r, c, g[r][c])
      {
        var i :| 0 <= n0 <= i < |copies| && CopyCovers(copies[i], r, c, g[r][c]);
        assert ds[i] == copies[i];
      }
    }

    /** The clear pass's fills, from n1 on, are fills from the buffer before the copy pass. */
    lemma FillsKept(fills: seq<Draw>, ds: seq<Draw>, n0: int, n1: int,
                    g0: seq<seq<Operation>>, g1: seq<seq<Operation>>, g2: seq<seq<Operation>>)
      requires Valid() && IsGrid(g0, width, height) && IsGrid(g1, width, height) && IsGrid(g2, width, height)
      requires |fills| <= |ds| && ds[..|fills|] == fills && FillPassMade(fills, n1, g1, g2)
      requires forall r, c :: 0 <= r < height && 0 <= c < width ==> CopyFlushed(g0[r][c], g1[r][c])
      requires forall i :: 0 <= n0 <= i < |ds| && ds[i].FillRect? ==> n1 <= i < |fills|
      ensures FillsMade(ds, n0, g0)
    {
      forall i | 0 <= n0 <= i < |ds| && ds[i].FillRect?
        ensures FillFrom(ds[i], g0)
      {
        assert ds[i] == fills[i];
        FillFromBeforeCopies(ds[i], g0, g1);
      }
    }

    /** The set pass's glyphs, from n2 on, match the cells they were drawn for before the copy pass. */
    lemma GlyphsKept(ds: seq<Draw>, n0: int, n2: int,
                     g0: seq<seq<Operation>>, g1: seq<seq<Operation>>, g2: seq<seq<Operation>>)
      requires Valid() && IsGrid(g0, width, height) && IsGrid(g1, width, height) && IsGrid(g2, width, height)
      requires forall r, c :: 0 <= r < height && 0 <= c < width ==> CopyFlushed(g0[r][c], g1[r][c])
      requires forall r, c :: 0 <= r < height && 0 <= c < width ==> ClearFlushed(g1[r][c], g2[r][c])
      requires DrawnFrom(ds, n2, SetCells(g2, height), g2)
      requires forall i :: 0 <= n0 <= i < |ds| && ds[i].Glyph? ==> n2 <= i
      ensures GlyphsMade(ds, n0, g0)
    {
      var cells := SetCells(g2, height);
      forall i | 0 <= n0 <= i < |ds| && ds[i].Glyph?
        ensures GlyphOf(ds[i], g0)
      {
        var p := cells[i - n2];
        assert DrawnAt(ds[n2 + (i - n2)], p, g2);
        assert g0[p.0][p.1] == g1[p.0][p.1] == g2[p.0][p.1];
      }
    }

    /** Every set of the buffer before the copy pass is drawn by a glyph of the set pass or absorbed by a fill. */
    lemma SetsDrawn(fills: seq<Draw>, ds: seq<Draw>, n0: int, n1: int,
                    g0: seq<seq<Operation>>, g1: seq<seq<Operation>>, g2: seq<seq<Operation>>)
      requires Valid() && IsGrid(g0, width, height) && IsGrid(g1, width, height) && IsGrid(g2, width, height)
      requires 0 <= n0 <= n1 && |fills| <= |ds| && ds[..|fills|] == fills && FillPassMade(fills, n1, g1, g2)
      requires forall r, c :: 0 <= r < height && 0 <= c < width ==> CopyFlushed(g0[r][c], g1[r][c])
      requires DrawnFrom(ds, |fills|, SetCells(g2, height), g2)
      ensures SetsPainted(ds, n0, g0)
    {
      SetCellsComplete(g2, height);
      DrawnFromCovers(ds, |fills|, SetCells(g2, height), g2);
      forall r, c | 0 <= r < height && 0 <= c < width && g0[r][c].kind == Set
        ensures exists i :: 0 <= n0 <= i < |ds| && (GlyphAt(ds[i], r, c) || FillCovers(ds[i], r, c, g0[r][c]))
      {
        assert g1[r][c] == g0[r][c];
        if g2[r][c] != g1[r][c] {
          var i :| n1 <= i < |fills| && FillCovers(fills[i], r, c, g1[r][c]);
          assert ds[i] == fills[i];
        } else {
          var i :| |fills| <= i < |ds| && GlyphAt(ds[i], r, c);
        }
      }
    }

    /**
     * The three passes of flush_operations put together: g0, g1 and g2 are
     * the buffer before the copy pass, the clear pass and the set pass;
     * `copies` and `fills` are the requests after the first two passes, whose
     * own requests start at n0 and |copies|, and the set pass's start at |fills|.
     */
    lemma PassesCompose(ds: seq<Draw>, copies: seq<Draw>, fills: seq<Draw>, n0: int,
                        g0: seq<seq<Operation>>, g1: seq<seq<Operation>>, g2: seq<seq<Operation>>)
      requires Valid() && IsGrid(g0, width, height) && IsGrid(g1, width, height) && IsGrid(g2, width, height)
      requires 0 <= n0 <= |copies| <= |fills| <= |ds| && fills[..|copies|] == copies && ds[..|fills|] == fills
      requires forall r, c :: 0 <= r < height && 0 <= c < width ==> CopyFlushed(g0[r][c], g1[r][c])
      requires forall r, c :: 0 <= r < height && 0 <= c < width ==> ClearFlushed(g1[r][c], g2[r][c])
      requires CopyPassMade(copies, n0, g0) && FillPassMade(fills, |copies|, g1, g2)
      requires DrawnFrom(ds, |fills|, SetCells(g2, height), g2)
      ensures FlushedFrom(ds, n0, g0)
      ensures forall r, c {:trigger g2[r][c]} :: 0 <= r < height && 0 <= c < width ==>
        (if g2[r][c].kind == Set then Retired(g2[r][c]) else g2[r][c]) == Retired(g0[r][c])
    {
      PassesPhased(ds, copies, fills, n0, g0, g1, g2);
      assert ds[..|copies|] == copies;
      CopiesKept(copies, ds, n0, g0);
      FillsKept(fills, ds, n0, |copies|, g0, g1, g2);
      GlyphsKept(ds, n0, |fills|, g0, g1, g2);
      SetsDrawn(fills, ds, n0, |copies|, g0, g1, g2);
    }

    /**
     * guac_terminal_display_flush_operations: copies, then clears, then sets.
     * Afterwards nothing is pending in any cell, and the cells keep their
     * contents otherwise; the new requests are what FlushedFrom says of the
     * buffer as it was.
     */
    method FlushOperations()
      requires Valid()
      modifies this`draws, this`glyphForeground, this`glyphBackground, this`unflushedSet, operations
      ensures Valid() && !unflushedSet
      ensures forall r, c {:trigger operations[r, c]} :: 0 <= r < height && 0 <= c < width ==> operations[r, c] == Retired(old(operations[r, c]))
      ensures |old(draws)| <= |draws| && draws[..|old(draws)|] == old(draws)
      ensures FlushedFrom(draws, |old(draws)|, old(Cells()))
    {
      ghost var g0 := Cells();
      ghost var g1 := FlushCopy(g0);
      ghost var copies := draws;
      ghost var copied := CopyPassMade(copies, |old(draws)|, g0);
      ghost var g2 := FlushClear(g1);
      ghost var fills := draws;
      ghost var filled := FillPassMade(fills, |copies|, g1, g2);
      FlushSet(g2);
      // the later passes change nothing the earlier requests' meaning depends on
      assert copied == CopyPassMade(copies, |old(draws)|, g0) && filled == FillPassMade(fills, |copies|, g1, g2);
      PassesCompose(draws, copies, fills, |old(draws)|, g0, g1, g2);
    }

    /** memmove of `n` cells of `row`, from column `src` to column `dst`. */
    method MoveColumns(row: int, src: int, dst: int, n: int)
      requires Valid() && 0 <= row < height && 0 <= n && 0 <= src && 0 <= dst && src + n <= width && dst + n <= width
      modifies operations
      ensures forall r, c :: 0 <= r < height && 0 <= c < width ==>
        operations[r, c] == if r == row && dst <= c < dst + n then old(operations[row, c - dst + src]) else old(operations[r, c])
    {
      var ops := operations;
      var moved := seq(n, j requires 0 <= j < n && 0 <= src + j < ops.Length1 && row < ops.Length0 reads ops => ops[row, src + j]);
      var k := 0;
      while k < n
        invariant 0 <= k <= n
        invariant forall c :: dst <= c < dst + k ==> operations[row, c] == moved[c - dst]
        invariant forall r, c :: 0 <= r < height && 0 <= c < width && !(r == row && dst <= c < dst + k) ==>
          operations[r, c] == old(operations[r, c])
      {
        operations[row, dst + k] := moved[k];
        k := k + 1;
      }
    }

    /** The marking loop of copy_columns: the `n` cells from `dst` were copied from the columns from `src`. */
    method MarkCopiedColumns(row: int, dst: int, n: int, src: int)
      requires Valid() && 0 <= row < height && 0 <= n && 0 <= dst && dst + n <= width
      modifies operations
      ensures forall r, c :: 0 <= r < height && 0 <= c < width ==>
        operations[r, c] == if r == row && dst <= c < dst + n then MarkCopy(old(operations[r, c]), row, c - dst + src) else old(operations[r, c])
    {
      var k := 0;
      while k < n
        invariant 0 <= k <= n
        invariant forall r, c :: 0 <= r < height && 0 <= c < width ==>
          operations[r, c] == if r == row && dst <= c < dst + k then MarkCopy(old(operations[r, c]), row, c - dst + src) else old(operations[r, c])
      {
        var current := operations[row, dst + k];
        if current.kind == Nop {
          operations[row, dst + k] := current.(kind := Copy, row := row, column := src + k);
        }
        k := k + 1;
      }
    }

    /**
     * guac_terminal_display_copy_columns: a row outside the display is
     * ignored; otherwise each cell of the fitted range moves `offset` columns,
     * and a moved cell with nothing pending becomes a copy from its source.
     */
    method CopyColumns(row: int, startColumn: int, endColumn: int, offset: int)
      requires Valid()
      requires 0 <= row < height ==> -width < offset < width
      modifies operations
      ensures !(0 <= row < height) ==>
        forall r, c :: 0 <= r < height && 0 <= c < width ==> operations[r, c] == old(operations[r, c])
      ensures 0 <= row < height ==> var e := Extent(startColumn, endColumn, offset, width);
        forall r, c :: 0 <= r < height && 0 <= c < width ==>
          operations[r, c] ==
            if r == row && e.0 + offset <= c <= e.1 + offset then MarkCopy(old(operations[row, c - offset]), row, c - offset)
            else old(operations[r, c])
    {
      if row < 0 || row >= height {
        return;
      }
      var extent := Extent(startColumn, endColumn, offset, width);
      var start, end := extent.0, extent.1;
      MoveColumns(row, start, start + offset, end - start + 1);
      MarkCopiedColumns(row, start + offset, end - start + 1, start);
    }

    /**
     * memmove of `n` whole rows, from row `src` to row `dst`: rows are copied
     * front to back when moving up and back to front when moving down, so no
     * source row is overwritten before it is read.
     */
    method MoveRows(src: int, dst: int, n: int)
      requires Valid() && 0 <= n && 0 <= src && 0 <= dst && src + n <= height && dst + n <= height
      modifies operations
      ensures forall r, c {:trigger operations[r, c]} :: 0 <= r < height && 0 <= c < width ==>
        operations[r, c] == if dst <= r < dst + n then old(operations[r - dst + src, c]) else old(operations[r, c])
    {
      if dst <= src {
        var k := 0;
        while k < n
          invariant 0 <= k <= n
          invariant forall r, c :: 0 <= r < height && 0 <= c < width ==>
            operations[r, c] == if dst <= r < dst + k then old(operations[r - dst + src, c]) else old(operations[r, c])
        {
          CopyRow(src + k, dst + k);
          k := k + 1;
        }
      } else {
        var k := n;
        while k > 0
          invariant 0 <= k <= n
          invariant forall r, c :: 0 <= r < height && 0 <= c < width ==>
            operations[r, c] == if dst + k <= r < dst + n then old(operations[r - dst + src, c]) else old(operations[r, c])
        {
          k := k - 1;
          CopyRow(src + k, dst + k);
        }
      }
    }

    /** One row of a row move: row `dst` takes the cells of row `src`. */
    method CopyRow(src: int, dst: int)
      requires Valid() && 0 <= src < height && 0 <= dst < height
      modifies operations
      ensures forall r, c {:trigger operations[r, c]} :: 0 <= r < height && 0 <= c < width ==>
        operations[r, c] == if r == dst then old(operations[src, c]) else old(operations[r, c])
    {
      var j := 0;
      while j < width
        invariant 0 <= j <= width
        invariant forall r, c :: 0 <= r < height && 0 <= c < width ==>
          operations[r, c] == if r == dst && c < j then old(operations[src, c]) else old(operations[r, c])
      {
        operations[dst, j] := operations[src, j];
        j := j + 1;
      }
    }

    /** The marking loop of copy_rows: the `n` rows from `dst` were copied from the rows from `src`. */
    method MarkCopiedRows(dst: int, n: int, src: int)
      requires Valid() && 0 <= n && 0 <= dst && dst + n <= height
      modifies operations
      ensures forall r, c {:trigger operations[r, c]} :: 0 <= r < height && 0 <= c < width ==>
        operations[r, c] == if dst <= r < dst + n then MarkCopy(old(operations[r, c]), r - dst + src, c) else old(operations[r, c])
    {
      var k := 0;
      while k < n
        invariant 0 <= k <= n
        invariant forall r, c :: 0 <= r < height && 0 <= c < width ==>
          operations[r, c] == if dst <= r < dst + k then MarkCopy(old(operations[r, c]), r - dst + src, c) else old(operations[r, c])
      {
        var j := 0;
        while j < width
          invariant 0 <= j <= width
          invariant forall r, c :: 0 <= r < height && 0 <= c < width ==>
            operations[r, c] ==
              if dst <= r < dst + k || (r == dst + k && c < j) then MarkCopy(old(operations[r, c]), r - dst + src, c)
              else old(operations[r, c])
        {
          var current := operations[dst + k, j];
          if current.kind == Nop {
            operations[dst + k, j] := current.(kind := Copy, row := src + k, column := j);
          }
          j := j + 1;
        }
        k := k + 1;
      }
    }

    /** The move and the marking of copy_rows: rows `start..end` move `offset` rows and their empty cells become copies. */
    method ShiftRows(start: int, end: int, offset: int)
      requires Valid() && 0 <= start <= end < height && 0 <= start + offset && end + offset < height
      modifies operations
      ensures forall r, c {:trigger operations[r, c]} :: 0 <= r < height && 0 <= c < width ==>
        operations[r, c] ==
          if start + offset <= r <= end + offset then MarkCopy(old(operations[r - offset, c]), r - offset, c)
          else old(operations[r, c])
    {
      MoveRows(start, start + offset, end - start + 1);
      MarkCopiedRows(start + offset, end - start + 1, start);
    }

    /** The flush copy_rows makes first: everything pending, when sets are unflushed and the rows move down. */
    method FlushBeforeRowCopy(offset: int)
      requires Valid()
      modifies this`draws, this`glyphForeground, this`glyphBackground, this`unflushedSet, operations
      ensures Valid()
      ensures var flushed := old(unflushedSet) && offset > 0;
        forall r, c {:trigger operations[r, c]} :: 0 <= r < height && 0 <= c < width ==>
          operations[r, c] == if flushed then Retired(old(operations[r, c])) else old(operations[r, c])
      ensures old(unflushedSet) && offset > 0 ==> !unflushedSet && |old(draws)| <= |draws| && draws[..|old(draws)|] == old(draws)
      ensures var ds := draws; old(unflushedSet) && offset > 0 ==> old(FlushedFrom(ds, |draws|, Cells()))
      ensures !(old(unflushedSet) && offset > 0) ==> unflushedSet == old(unflushedSet) && draws == old(draws)
    {
      if unflushedSet && offset > 0 {
        FlushOperations();
      }
    }

    /**
     * guac_terminal_display_copy_rows: when sets are unflushed and the rows
     * move down, everything pending is flushed first; then each row of the
     * fitted range moves `offset` rows, and a moved cell with nothing pending
     * becomes a copy from its source.
     */
    method CopyRows(startRow: int, endRow: int, offset: int)
      requires Valid() && -height < offset < height
      modifies this`draws, this`glyphForeground, this`glyphBackground, this`unflushedSet, operations
      ensures Valid()
      ensures var e := Extent(startRow, endRow, offset, height);
        var flushed := old(unflushedSet) && offset > 0;
        forall r, c :: 0 <= r < height && 0 <= c < width ==>
          operations[r, c] ==
            if e.0 + offset <= r <= e.1 + offset then
              MarkCopy(if flushed then Retired(old(operations[r - offset, c])) else old(operations[r - offset, c]), r - offset, c)
            else if flushed then Retired(old(operations[r, c])) else old(operations[r, c])
      ensures old(unflushedSet) && offset > 0 ==> !unflushedSet && |old(draws)| <= |draws| && draws[..|old(draws)|] == old(draws)
      ensures var ds := draws; old(unflushedSet) && offset > 0 ==> old(FlushedFrom(ds, |draws|, Cells()))
      ensures !(old(unflushedSet) && offset > 0) ==> unflushedSet == old(unflushedSet) && draws == old(draws)
    {
      var extent := Extent(startRow, endRow, offset, height);
      var start, end := extent.0, extent.1;
      FlushBeforeRowCopy(offset);
      ShiftRows(start, end, offset);
    }

    /**
     * One column of set_columns: a pending copy in the cell flushes everything
     * first; then the cell becomes a set of `character`.
     */
    method SetCell(row: int, col: int, character: TermChar) returns (flushed: bool)
      requires Valid() && 0 <= row < height && 0 <= col < width
      modifies this`draws, this`glyphForeground, this`glyphBackground, this`unflushedSet, operations
      ensures Valid()
      ensures flushed <==> old(operations[row, col]).kind == Copy
      ensures forall r, c :: 0 <= r < height && 0 <= c < width ==>
        operations[r, c] ==
          if r == row && c == col then old(operations[r, c]).(kind := Set, character := character)
          else if flushed then Retired(old(operations[r, c])) else old(operations[r, c])
      ensures !flushed ==> draws == old(draws) && unflushedSet == old(unflushedSet)
      ensures flushed ==> !unflushedSet && |old(draws)| <= |draws| && draws[..|old(draws)|] == old(draws)
      ensures var ds := draws; flushed ==> old(FlushedFrom(ds, |draws|, Cells()))
    {
      flushed := operations[row, col].kind == Copy;
      if flushed {
        FlushOperations();
      }
      operations[row, col] := operations[row, col].(kind := Set, character := character);
    }

    /**
     * The loop of set_columns: every `step`-th column of `start..end`, from
     * `start`, becomes a set of `character`. `flushed` tells whether a
     * pending copy was met in one of those cells, in which case everything
     * was flushed on the way.
     */
    method SetEvery(row: int, start: int, end: int, step: int, character: TermChar) returns (flushed: bool)
      requires Valid() && 0 <= row < height && 0 <= start && end < width && step > 0
      modifies this`draws, this`glyphForeground, this`glyphBackground, this`unflushedSet, operations
      ensures Valid()
      ensures !flushed <==> forall c :: 0 <= c < width && Visited(c, start, end, step) ==> old(operations[row, c]).kind != Copy
      ensures forall c :: 0 <= c < width && Visited(c, start, end, step) ==>
        operations[row, c].character == character && operations[row, c].kind != Copy
      ensures forall r, c :: 0 <= r < height && 0 <= c < width && !(r == row && Visited(c, start, end, step)) ==>
        operations[r, c] == old(operations[r, c]) || operations[r, c] == Retired(old(operations[r, c]))
      ensures !flushed ==>
        && draws == old(draws) && unflushedSet == old(unflushedSet)
        && forall r, c :: 0 <= r < height && 0 <= c < width ==>
             operations[r, c] ==
               if r == row && Visited(c, start, end, step)
               then old(operations[r, c]).(kind := Set, character := character)
               else old(operations[r, c])
    {
      flushed := false;
      var col := start;
      while col <= end
        invariant start <= col && OnGrid(col, start, step)
        invariant Valid()
        invariant !flushed <==> forall c :: start <= c < col && c < width && Visited(c, start, end, step) ==> old(operations[row, c]).kind != Copy
        invariant forall c :: start <= c < col && c < width && Visited(c, start, end, step) ==>
          operations[row, c].character == character && operations[row, c].kind != Copy
        invariant forall r, c :: 0 <= r < height && 0 <= c < width && !(r == row && start <= c < col && Visited(c, start, end, step)) ==>
          operations[r, c] == old(operations[r, c]) || operations[r, c] == Retired(old(operations[r, c]))
        invariant !flushed ==>
          && draws == old(draws) && unflushedSet == old(unflushedSet)
          && forall r, c :: 0 <= r < height && 0 <= c < width ==>
               operations[r, c] ==
                 if r == row && start <= c < col && Visited(c, start, end, step)
                 then old(operations[r, c]).(kind := Set, character := character)
                 else old(operations[r, c])
      {
        var flushedHere := SetCell(row, col, character);
        flushed := flushed || flushedHere;
        forall c | col < c < col + step
          ensures !Visited(c, start, end, step)
        {
          BetweenVisits(start, col, step, c);
        }
        col := col + step;
      }
    }

    /**
     * guac_terminal_display_set_columns: nothing happens for a zero-width
     * character or a row outside the display. Otherwise every `width`-th
     * column of the fitted range, from its start, becomes a set of the
     * character; a pending copy met on the way flushes everything first. The
     * unflushed-set mark is raised for rows other than the first and last.
     */
    method SetColumns(row: int, startColumn: int, endColumn: int, character: TermChar)
      requires Valid() && character.width >= 0
      requires character.width > 0 && 0 <= row < height ==> width > 0
      modifies this`draws, this`glyphForeground, this`glyphBackground, this`unflushedSet, operations
      ensures Valid()
      ensures character.width == 0 || !(0 <= row < height) ==>
        && unflushedSet == old(unflushedSet) && draws == old(draws)
        && forall r, c :: 0 <= r < height && 0 <= c < width ==> operations[r, c] == old(operations[r, c])
      ensures character.width > 0 && 0 <= row < height ==>
        var s, e := Clamp(startColumn, 0, width - 1), Clamp(endColumn, 0, width - 1);
        && (forall c :: 0 <= c < width && Visited(c, s, e, character.width) ==>
              operations[row, c].character == character && operations[row, c].kind != Copy)
        && (forall r, c :: 0 <= r < height && 0 <= c < width && !(r == row && Visited(c, s, e, character.width)) ==>
              operations[r, c] == old(operations[r, c]) || operations[r, c] == Retired(old(operations[r, c])))
        && (0 < row < height - 1 ==> unflushedSet)
        && ((forall c :: 0 <= c < width && Visited(c, s, e, character.width) ==> old(operations[row, c]).kind != Copy) ==>
              && draws == old(draws)
              && unflushedSet == (old(unflushedSet) || 0 < row < height - 1)
              && forall r, c :: 0 <= r < height && 0 <= c < width ==>
                   operations[r, c] ==
                     if r == row && Visited(c, s, e, character.width)
                     then old(operations[r, c]).(kind := Set, character := character)
                     else old(operations[r, c]))
    {
      if character.width == 0 {
        return;
      }
      if row < 0 || row >= height {
        return;
      }
      var start := Clamp(startColumn, 0, width - 1);
      var end := Clamp(endColumn, 0, width - 1);
      var flushed := SetEvery(row, start, end, character.width, character);
      if row > 0 && row < height - 1 {
        unflushedSet := true;
      }
    }
  }
}
