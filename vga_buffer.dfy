/**
  The VGA text-mode writer: a 25-row by 80-column grid of (character, colour) cells,
  stored column-major, with a write column that only ever grows and a colour code
  fixed when the writer is created.

  The pure functions below (Scroll, AfterWriteByte, WriteBytes, FillRow, Sanitize)
  describe what each writer operation does to the grid; the class VgaWriter performs the
  operations in place on an `array2` and is proved against them.
*/
module VgaBuffer {
  import opened MachineTypes

  /** Number of text rows. */
  const BUFFER_HEIGHT: nat := 25
  /** Number of text columns. */
  const BUFFER_WIDTH: nat := 80

  /** The row every byte is written to. */
  const BOTTOM_ROW: nat := BUFFER_HEIGHT - 1

  const NEWLINE: uint8 := 0x0a
  const SPACE: uint8 := 0x20
  /** The glyph written in place of a byte that is neither printable ASCII nor a newline. */
  const REPLACEMENT: uint8 := 0xfe

  // ---------------------------------------------------------------------------------------
  // Colours

  /** The sixteen colours of the VGA text-mode palette. */
  datatype Color =
    | Black | Blue | Green | Cyan | Red | Magenta | Brown | Gray
    | DarkGray | LightBlue | LightGreen | LightCyan | LightRed | Pink | Yellow | White

  /** The palette index of a colour, i.e. its discriminant as a byte. */
  function ColorIndex(c: Color): (v: uint8)
    ensures v < 16
  {
    match c
    case Black => 0
    case Blue => 1
    case Green => 2
    case Cyan => 3
    case Red => 4
    case Magenta => 5
    case Brown => 6
    case Gray => 7
    case DarkGray => 8
    case LightBlue => 9
    case LightGreen => 10
    case LightCyan => 11
    case LightRed => 12
    case Pink => 13
    case Yellow => 14
    case White => 15
  }

  /** Distinct colours have distinct palette indices. */
  lemma ColorIndexInjective(c1: Color, c2: Color)
    ensures ColorIndex(c1) == ColorIndex(c2) <==> c1 == c2
  {
  }

  /** One colour byte as stored in every cell. */
  datatype ColorCode = ColorCode(value: uint8)

  /** Packing two nibbles `hi`, `lo` with shift and or is `16 * hi + lo`. */
  lemma PackNibbles(hi: bv8, lo: bv8)
    requires hi < 16 && lo < 16
    ensures ((hi << 4) | lo) as int == 16 * hi as int + lo as int
  {
  }

  /**
    The colour code of a foreground/background pair, packed as the writer's source does it:
    the foreground occupies the HIGH nibble and the background the low nibble.
  */
  function NewColorCode(foreground: Color, background: Color): (code: ColorCode)
    ensures code.value as int == 16 * ColorIndex(foreground) as int + ColorIndex(background) as int
    ensures code.value / 16 == ColorIndex(foreground) && code.value % 16 == ColorIndex(background)
  {
    var fg := ColorIndex(foreground) as bv8;
    var bg := ColorIndex(background) as bv8;
    PackNibbles(fg, bg);
    ColorCode(((fg << 4) | bg) as uint8)
  }

  /** Distinct colour pairs give distinct colour codes: no information is lost in packing. */
  lemma NewColorCodeInjective(f1: Color, b1: Color, f2: Color, b2: Color)
    ensures NewColorCode(f1, b1) == NewColorCode(f2, b2) <==> f1 == f2 && b1 == b2
  {
    var c1, c2 := NewColorCode(f1, b1), NewColorCode(f2, b2);
    if c1 == c2 {
      assert ColorIndex(f1) == c1.value / 16 == ColorIndex(f2);
      assert ColorIndex(b1) == c1.value % 16 == ColorIndex(b2);
      ColorIndexInjective(f1, f2);
      ColorIndexInjective(b1, b2);
    }
  }

  /**
    The attribute byte as VGA text-mode hardware reads it: foreground in the LOW nibble,
    background in the high nibble.
  */
  function AttributeByte(foreground: Color, background: Color): (code: ColorCode)
    ensures code.value % 16 == ColorIndex(foreground) && code.value / 16 == ColorIndex(background)
  {
    var fg := ColorIndex(foreground) as bv8;
    var bg := ColorIndex(background) as bv8;
    PackNibbles(bg, fg);
    ColorCode(((bg << 4) | fg) as uint8)
  }

  /** The hardware attribute byte keeps both colours apart. */
  lemma AttributeByteInjective(f1: Color, b1: Color, f2: Color, b2: Color)
    ensures AttributeByte(f1, b1) == AttributeByte(f2, b2) <==> f1 == f2 && b1 == b2
  {
    var c1, c2 := AttributeByte(f1, b1), AttributeByte(f2, b2);
    if c1 == c2 {
      assert ColorIndex(f1) == c1.value % 16 == ColorIndex(f2);
      assert ColorIndex(b1) == c1.value / 16 == ColorIndex(b2);
      ColorIndexInjective(f1, f2);
      ColorIndexInjective(b1, b2);
    }
  }

  /**
    NewColorCode swaps the roles the hardware gives the nibbles: it yields the attribute of
    the swapped pair, so for white on black it yields black on white.
  */
  lemma NewColorCodeSwapsColors(foreground: Color, background: Color)
    ensures NewColorCode(foreground, background) == AttributeByte(background, foreground)
    ensures foreground != background ==>
              NewColorCode(foreground, background) != AttributeByte(foreground, background)
  {
    var code, swapped := NewColorCode(foreground, background), AttributeByte(background, foreground);
    assert code.value as int == 16 * (code.value / 16) as int + (code.value % 16) as int;
    assert swapped.value as int == 16 * (swapped.value / 16) as int + (swapped.value % 16) as int;
    if foreground != background {
      ColorIndexInjective(foreground, background);
      AttributeByteInjective(background, foreground, foreground, background);
    }
  }

  // ---------------------------------------------------------------------------------------
  // Cells and grids

  /** One screen cell: a character byte and its colour. */
  datatype VgaCharacter = VgaCharacter(asciiCharacter: uint8, characterColor: ColorCode)

  /** A blank cell in the given colour. */
  function Blank(color: ColorCode): VgaCharacter {
    VgaCharacter(SPACE, color)
  }

  /** The screen contents, column-major: `g[column][row]`. */
  type Grid = seq<seq<VgaCharacter>>

  predicate IsGrid(g: Grid) {
    |g| == BUFFER_WIDTH && forall c :: 0 <= c < |g| ==> |g[c]| == BUFFER_HEIGHT
  }

  /** Two grids with the same cells are the same grid. */
  lemma GridEquality(g: Grid, h: Grid)
    requires IsGrid(g) && IsGrid(h)
    requires forall c, r :: 0 <= c < BUFFER_WIDTH && 0 <= r < BUFFER_HEIGHT ==> g[c][r] == h[c][r]
    ensures g == h
  {
    forall c | 0 <= c < BUFFER_WIDTH
      ensures g[c] == h[c]
    {
      assert forall r :: 0 <= r < BUFFER_HEIGHT ==> g[c][r] == h[c][r];
    }
  }

  /**
    The grid after `new_line`: every row moves up by one and the top row is lost; the
    bottom row is NOT cleared, so it now appears twice, in the last two rows.
  */
  function Scroll(g: Grid): (s: Grid)
    requires IsGrid(g)
    ensures IsGrid(s)
    ensures forall c :: 0 <= c < BUFFER_WIDTH ==>
              s[c][BOTTOM_ROW - 1] == g[c][BOTTOM_ROW] && s[c][BOTTOM_ROW] == g[c][BOTTOM_ROW]
  {
    seq(BUFFER_WIDTH, c requires 0 <= c < BUFFER_WIDTH =>
      seq(BUFFER_HEIGHT, r requires 0 <= r < BUFFER_HEIGHT =>
        if r < BOTTOM_ROW then g[c][r + 1] else g[c][r]))
  }

  /** The grid after `write_byte(b)` at write column `column`. */
  function AfterWriteByte(g: Grid, column: nat, color: ColorCode, b: uint8): (h: Grid)
    requires IsGrid(g) && column < BUFFER_WIDTH
    ensures IsGrid(h)
  {
    var shifted := if b == NEWLINE then Scroll(g) else g;
    shifted[column := shifted[column][BOTTOM_ROW := VgaCharacter(b, color)]]
  }

  /**
    What `write_byte` does, cell by cell. A byte other than newline lands at the write
    column of the bottom row and no other cell changes. A newline first shifts every row
    up by one (the bottom row stays as it was) and is then itself stored at the write
    column of the bottom row.
  */
  lemma WriteByteEffect(g: Grid, column: nat, color: ColorCode, b: uint8, c: nat, r: nat)
    requires IsGrid(g) && column < BUFFER_WIDTH && c < BUFFER_WIDTH && r < BUFFER_HEIGHT
    ensures AfterWriteByte(g, column, color, b)[c][r] ==
              if c == column && r == BOTTOM_ROW then VgaCharacter(b, color)
              else if b == NEWLINE && r < BOTTOM_ROW then g[c][r + 1]
              else g[c][r]
  {
  }

  /** The grid after writing `bytes` one by one with `write_byte`, from write column `column`. */
  function WriteBytes(g: Grid, column: nat, color: ColorCode, bytes: seq<uint8>): (h: Grid)
    requires IsGrid(g) && column + |bytes| <= BUFFER_WIDTH
    ensures IsGrid(h)
    decreases |bytes|
  {
    if bytes == [] then g
    else WriteBytes(AfterWriteByte(g, column, color, bytes[0]), column + 1, color, bytes[1..])
  }

  /** Writing `xs + ys` is writing `xs` and then `ys` from the column where `xs` stopped. */
  lemma {:induction false} WriteBytesAppend(g: Grid, column: nat, color: ColorCode, xs: seq<uint8>, ys: seq<uint8>)
    requires IsGrid(g) && column + |xs| + |ys| <= BUFFER_WIDTH
    ensures WriteBytes(g, column, color, xs + ys) ==
              WriteBytes(WriteBytes(g, column, color, xs), column + |xs|, color, ys)
    decreases |xs|
  {
    if xs != [] {
      assert (xs + ys)[0] == xs[0];
      assert (xs + ys)[1..] == xs[1..] + ys;
      WriteBytesAppend(AfterWriteByte(g, column, color, xs[0]), column + 1, color, xs[1..], ys);
    } else {
      assert xs + ys == ys;
    }
  }

  predicate NoNewline(bytes: seq<uint8>) {
    forall i :: 0 <= i < |bytes| ==> bytes[i] != NEWLINE
  }

  /**
    Writing bytes none of which is a newline puts them, in order, into the bottom row from
    the write column on, and changes no other cell.
  */
  lemma {:induction false} WriteBytesWithoutNewline(g: Grid, column: nat, color: ColorCode, bytes: seq<uint8>)
    requires IsGrid(g) && column + |bytes| <= BUFFER_WIDTH && NoNewline(bytes)
    ensures forall c, r :: 0 <= c < BUFFER_WIDTH && 0 <= r < BUFFER_HEIGHT ==>
              WriteBytes(g, column, color, bytes)[c][r] ==
                if r == BOTTOM_ROW && column <= c < column + |bytes|
                then VgaCharacter(bytes[c - column], color)
                else g[c][r]
    decreases |bytes|
  {
    if bytes != [] {
      var g1 := AfterWriteByte(g, column, color, bytes[0]);
      WriteBytesWithoutNewline(g1, column + 1, color, bytes[1..]);
      forall c, r | 0 <= c < BUFFER_WIDTH && 0 <= r < BUFFER_HEIGHT
        ensures WriteBytes(g, column, color, bytes)[c][r] ==
                  if r == BOTTOM_ROW && column <= c < column + |bytes|
                  then VgaCharacter(bytes[c - column], color)
                  else g[c][r]
      {
        WriteByteEffect(g, column, color, bytes[0], c, r);
        if r == BOTTOM_ROW && column + 1 <= c < column + |bytes| {
          assert bytes[1..][c - (column + 1)] == bytes[c - column];
        }
      }
    }
  }

  /** The grid with row `row` replaced by copies of `cell`. */
  function FillRow(g: Grid, row: nat, cell: VgaCharacter): (h: Grid)
    requires IsGrid(g) && row < BUFFER_HEIGHT
    ensures IsGrid(h)
  {
    seq(BUFFER_WIDTH, c requires 0 <= c < BUFFER_WIDTH => g[c][row := cell])
  }

  /** Filling a row sets all 80 cells of that row and leaves the other rows as they were. */
  lemma FillRowEffect(g: Grid, row: nat, cell: VgaCharacter)
    requires IsGrid(g) && row < BUFFER_HEIGHT
    ensures forall c, r :: 0 <= c < BUFFER_WIDTH && 0 <= r < BUFFER_HEIGHT ==>
              FillRow(g, row, cell)[c][r] == if r == row then cell else g[c][r]
  {
  }

  // ---------------------------------------------------------------------------------------
  // Sanitising

  /** Printable ASCII (0x20 to 0x7e) or a newline: the bytes `write_string` passes through. */
  predicate Displayable(b: uint8) {
    0x20 <= b <= 0x7e || b == NEWLINE
  }

  /** The byte `write_string` hands to `write_byte` for input byte `b`. */
  function Sanitize(b: uint8): (r: uint8)
    ensures Displayable(r) || r == REPLACEMENT
    ensures Displayable(b) ==> r == b
    ensures r == REPLACEMENT <==> !Displayable(b)
  {
    if Displayable(b) then b else REPLACEMENT
  }

  /** `Sanitize` applied to every byte of a string. */
  function SanitizeAll(s: seq<uint8>): (r: seq<uint8>)
    ensures |r| == |s|
  {
    seq(|s|, i requires 0 <= i < |s| => Sanitize(s[i]))
  }

  /** Sanitising is done byte by byte: it commutes with taking a prefix and appending one byte. */
  lemma SanitizeAllSnoc(s: seq<uint8>, i: nat)
    requires i < |s|
    ensures SanitizeAll(s[..i + 1]) == SanitizeAll(s[..i]) + [Sanitize(s[i])]
  {
    assert SanitizeAll(s[..i + 1])[i] == Sanitize(s[i]);
  }

  // ---------------------------------------------------------------------------------------
  // The writer

  /** The result of a `core::fmt::Write` operation. */
  datatype FmtResult = FmtOk | FmtError

  /**
    The text writer. `buffer` is the writer's own copy of video memory, indexed
    `buffer[column, row]`; `column` is where the next byte goes on the bottom row.
  */
  class VgaWriter {
    var buffer: array2<VgaCharacter>
    var column: nat
    var colorCode: ColorCode

    /** The buffer has the screen's shape. The column can reach 80 but the writer then refuses bytes. */
    ghost predicate Valid()
      reads this
    {
      buffer.Length0 == BUFFER_WIDTH && buffer.Length1 == BUFFER_HEIGHT && column <= BUFFER_WIDTH
    }

    /** The buffer's contents as a grid. */
    ghost function Cells(): (g: Grid)
      reads this, buffer
      requires Valid()
      ensures IsGrid(g)
      ensures forall c, r :: 0 <= c < BUFFER_WIDTH && 0 <= r < BUFFER_HEIGHT ==> g[c][r] == buffer[c, r]
    {
      var b := buffer;
      seq(BUFFER_WIDTH, c requires 0 <= c < BUFFER_WIDTH reads b =>
        seq(BUFFER_HEIGHT, r requires 0 <= r < BUFFER_HEIGHT reads b => b[c, r]))
    }

    /**
      A writer with the given colour code whose buffer is a copy of `screen`, the video
      memory's contents at the moment of construction. The column starts at 0.
    */
    constructor (colorCode: ColorCode, screen: Grid)
      requires IsGrid(screen)
      ensures Valid() && fresh(buffer)
      ensures Cells() == screen
      ensures column == 0 && this.colorCode == colorCode
    {
      buffer := new VgaCharacter[BUFFER_WIDTH, BUFFER_HEIGHT]((c, r) requires 0 <= c < BUFFER_WIDTH && 0 <= r < BUFFER_HEIGHT => screen[c][r]);
      column := 0;
      this.colorCode := colorCode;
      new;
      GridEquality(Cells(), screen);
    }

    /**
      Writes byte `b` at the write column of the bottom row and advances the column by one;
      a newline scrolls first and is then stored like any other byte. The column is never
      reset, so the writer panics (here: may not be called) once it reaches 80.
    */
    method WriteByte(b: uint8)
      requires Valid() && column < BUFFER_WIDTH
      modifies this`column, buffer
      ensures Valid() && buffer == old(buffer) && colorCode == old(colorCode)
      ensures column == old(column) + 1
      ensures Cells() == AfterWriteByte(old(Cells()), old(column), colorCode, b)
    {
      ghost var before := Cells();
      if b == NEWLINE {
        NewLine();
      }
      ghost var shifted := Cells();
      assert shifted == if b == NEWLINE then Scroll(before) else before;
      var row := BOTTOM_ROW;
      buffer[column, row] := VgaCharacter(b, colorCode);
      ghost var written := shifted[column := shifted[column][BOTTOM_ROW := VgaCharacter(b, colorCode)]];
      column := column + 1;
      GridEquality(Cells(), written);
    }

    /**
      Moves every row up by one, row by row from the top, column by column. The bottom row
      keeps its contents and the write column does not change.
    */
    method NewLine()
      requires Valid()
      modifies buffer
      ensures Valid()
      ensures column == old(column) && colorCode == old(colorCode)
      ensures Cells() == Scroll(old(Cells()))
    {
      ghost var g := Cells();
      for row := 1 to BUFFER_HEIGHT
        invariant forall c, r {:trigger buffer[c, r]} :: 0 <= c < BUFFER_WIDTH && 0 <= r < BUFFER_HEIGHT ==>
                    buffer[c, r] == if r < row - 1 then g[c][r + 1] else g[c][r]
      {
        for col := 0 to BUFFER_WIDTH
          invariant forall c, r {:trigger buffer[c, r]} :: 0 <= c < BUFFER_WIDTH && 0 <= r < BUFFER_HEIGHT ==>
                      buffer[c, r] == if r < row - 1 || (r == row - 1 && c < col) then g[c][r + 1] else g[c][r]
        {
          var characterToMove := buffer[col, row];
          buffer[col, row - 1] := characterToMove;
        }
      }
      GridEquality(Cells(), Scroll(g));
    }

    /**
      Writes every byte of `s` with WriteByte, in order, replacing each byte that is neither
      printable ASCII nor a newline by 0xfe. The column advances by `|s|`.
    */
    method WriteString(s: seq<uint8>)
      requires Valid() && column + |s| <= BUFFER_WIDTH
      modifies this`column, buffer
      ensures Valid() && buffer == old(buffer) && colorCode == old(colorCode)
      ensures column == old(column) + |s|
      ensures Cells() == WriteBytes(old(Cells()), old(column), colorCode, SanitizeAll(s))
    {
      ghost var g, start := Cells(), column;
      for i := 0 to |s|
        invariant Valid() && buffer == old(buffer) && colorCode == old(colorCode)
        invariant column == start + i
        invariant Cells() == WriteBytes(g, start, colorCode, SanitizeAll(s[..i]))
      {
        ghost var done := SanitizeAll(s[..i]);
        WriteByte(Sanitize(s[i]));
        SanitizeAllSnoc(s, i);
        WriteBytesAppend(g, start, colorCode, done, [Sanitize(s[i])]);
      }
      assert s[..|s|] == s;
    }

    /** Sets every cell of row `lineNumber` to a blank in the writer's colour. */
    method ClearLine(lineNumber: nat)
      requires Valid() && lineNumber < BUFFER_HEIGHT
      modifies buffer
      ensures Valid()
      ensures column == old(column) && colorCode == old(colorCode)
      ensures Cells() == FillRow(old(Cells()), lineNumber, Blank(colorCode))
    {
      ghost var g := Cells();
      for col := 0 to BUFFER_WIDTH
        invariant forall c, r :: 0 <= c < BUFFER_WIDTH && 0 <= r < BUFFER_HEIGHT ==>
                    buffer[c, r] == if r == lineNumber && c < col then Blank(colorCode) else g[c][r]
      {
        buffer[col, lineNumber] := VgaCharacter(SPACE, colorCode);
      }
      GridEquality(Cells(), FillRow(g, lineNumber, Blank(colorCode)));
    }

    /** Clears every row, top to bottom: every cell becomes a blank in the writer's colour. */
    method Clear()
      requires Valid()
      modifies buffer
      ensures Valid()
      ensures column == old(column) && colorCode == old(colorCode)
      ensures forall c, r :: 0 <= c < BUFFER_WIDTH && 0 <= r < BUFFER_HEIGHT ==>
                Cells()[c][r] == Blank(colorCode)
    {
      ghost var g := Cells();
      for row := 0 to BUFFER_HEIGHT
        invariant Valid()
        invariant forall c, r :: 0 <= c < BUFFER_WIDTH && 0 <= r < BUFFER_HEIGHT ==>
                    buffer[c, r] == if r < row then Blank(colorCode) else g[c][r]
      {
        ClearLine(row);
      }
    }

    /** `fmt::Write::write_str`: writes the string and always reports success. */
    method WriteStr(s: seq<uint8>) returns (result: FmtResult)
      requires Valid() && column + |s| <= BUFFER_WIDTH
      modifies this`column, buffer
      ensures Valid() && buffer == old(buffer) && colorCode == old(colorCode)
      ensures column == old(column) + |s|
      ensures Cells() == WriteBytes(old(Cells()), old(column), colorCode, SanitizeAll(s))
      ensures result == FmtOk
    {
      WriteString(s);
      result := FmtOk;
    }
  }
}
