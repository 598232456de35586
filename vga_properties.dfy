/**
  Consequences of the writer's grid semantics: what a whole string does to the screen.
*/
module VgaProperties {
  import opened MachineTypes
  import opened VgaBuffer

  /** Sanitising leaves a string of displayable bytes as it is. */
  lemma SanitizeAllKeepsDisplayable(s: seq<uint8>)
    requires forall i :: 0 <= i < |s| ==> Displayable(s[i])
    ensures SanitizeAll(s) == s
  {
    assert forall i :: 0 <= i < |s| ==> SanitizeAll(s)[i] == s[i];
  }

  /** Sanitising twice is sanitising once. */
  lemma SanitizeAllIdempotent(s: seq<uint8>)
    ensures SanitizeAll(SanitizeAll(s)) == SanitizeAll(s)
  {
    var once := SanitizeAll(s);
    assert forall i :: 0 <= i < |s| ==> SanitizeAll(once)[i] == once[i];
  }

  /**
    A string of printable ASCII bytes written from column 0 appears, in order, in the first
    `|s|` cells of the bottom row; every other cell keeps its contents.
  */
  lemma PrintableStringFromLeftEdge(g: Grid, color: ColorCode, s: seq<uint8>)
    requires IsGrid(g) && |s| <= BUFFER_WIDTH
    requires forall i :: 0 <= i < |s| ==> 0x20 <= s[i] <= 0x7e
    ensures forall k :: 0 <= k < |s| ==>
              WriteBytes(g, 0, color, SanitizeAll(s))[k][BOTTOM_ROW] == VgaCharacter(s[k], color)
    ensures forall c, r :: 0 <= c < BUFFER_WIDTH && 0 <= r < BUFFER_HEIGHT && (r != BOTTOM_ROW || c >= |s|) ==>
              WriteBytes(g, 0, color, SanitizeAll(s))[c][r] == g[c][r]
  {
    SanitizeAllKeepsDisplayable(s);
    WriteBytesWithoutNewline(g, 0, color, s);
  }

  /**
    Writing `xs`, a newline and `ys` (neither containing a newline) splits the output at the
    newline: `xs` ends up on the row above, `ys` on the bottom row after the stored newline.
    Because the scroll does not clear the bottom row and the column is not reset, `xs` is
    also still on the bottom row, in front of the newline.
  */
  lemma {:induction false} NewlineSplitsOutput(g: Grid, column: nat, color: ColorCode, xs: seq<uint8>, ys: seq<uint8>)
    requires IsGrid(g) && column + |xs| + 1 + |ys| <= BUFFER_WIDTH
    requires NoNewline(xs) && NoNewline(ys)
    ensures var out := WriteBytes(g, column, color, xs + [NEWLINE] + ys);
            && (forall k :: 0 <= k < |xs| ==>
                  out[column + k][BOTTOM_ROW - 1] == VgaCharacter(xs[k], color) &&
                  out[column + k][BOTTOM_ROW] == VgaCharacter(xs[k], color))
            && out[column + |xs|][BOTTOM_ROW] == VgaCharacter(NEWLINE, color)
            && (forall k :: 0 <= k < |ys| ==>
                  out[column + |xs| + 1 + k][BOTTOM_ROW] == VgaCharacter(ys[k], color) &&
                  out[column + |xs| + 1 + k][BOTTOM_ROW - 1] == g[column + |xs| + 1 + k][BOTTOM_ROW])
  {
    var n := column + |xs|;
    var g1 := WriteBytes(g, column, color, xs);
    var g2 := AfterWriteByte(g1, n, color, NEWLINE);
    var out := WriteBytes(g, column, color, xs + [NEWLINE] + ys);
    assert xs + [NEWLINE] + ys == xs + ([NEWLINE] + ys);
    WriteBytesAppend(g, column, color, xs, [NEWLINE] + ys);
    assert ([NEWLINE] + ys)[1..] == ys;
    assert out == WriteBytes(g2, n + 1, color, ys);
    WriteBytesWithoutNewline(g, column, color, xs);
    WriteBytesWithoutNewline(g2, n + 1, color, ys);
    forall k | 0 <= k < |xs|
      ensures out[column + k][BOTTOM_ROW - 1] == VgaCharacter(xs[k], color)
      ensures out[column + k][BOTTOM_ROW] == VgaCharacter(xs[k], color)
    {
      WriteByteEffect(g1, n, color, NEWLINE, column + k, BOTTOM_ROW - 1);
      WriteByteEffect(g1, n, color, NEWLINE, column + k, BOTTOM_ROW);
    }
    WriteByteEffect(g1, n, color, NEWLINE, n, BOTTOM_ROW);
    forall k | 0 <= k < |ys|
      ensures out[n + 1 + k][BOTTOM_ROW] == VgaCharacter(ys[k], color)
      ensures out[n + 1 + k][BOTTOM_ROW - 1] == g[n + 1 + k][BOTTOM_ROW]
    {
      WriteByteEffect(g1, n, color, NEWLINE, n + 1 + k, BOTTOM_ROW - 1);
    }
  }
}
