/** `systemDrawScreen`: the two eye images the renderer leaves in `pix[0]` and
    `pix[1]` (256 by 160 pixels each, row pitch 256) are copied side by side into
    the output buffer `fix` (row pitch 512), which the frontend then shows as a
    480 by 160 frame. */
module Screen {

  /** An RGB565 / XRGB1555 pixel as stored in a `uint16_t`. */
  newtype Pixel = x: int | 0 <= x < 0x1_0000

  const EyeWidth: nat := 256
  const Height: nat := 160

  /** Pixels per row of `fix` (1024 bytes of pitch). */
  const FramePitch: nat := 512

  /** Columns of each eye that reach the visible frame. */
  const VisibleWidth: nat := 240

  /** The width reported to the frontend: both eyes' visible columns. */
  const FrameWidth: nat := 480

  /** The last column `systemDrawScreen` writes, plus one: eye 1 lands at 240 .. 495. */
  const WrittenWidth: nat := VisibleWidth + EyeWidth

  /** Index of column `x`, row `y` in the output buffer. */
  function FixPos(x: int, y: int): int {
    y * 512 + x
  }

  /** Index of column `x`, row `y` in an eye buffer. */
  function EyePos(x: int, y: int): int {
    y * 256 + x
  }

  /** Row and column of an output index. */
  lemma FixPosSplit(i: nat)
    ensures i == FixPos(i % FramePitch, i / FramePitch)
    ensures 0 <= i % FramePitch < FramePitch
  {
  }

  /** Column and row of the index of column `x`, row `y`. */
  lemma FixPosParts(x: int, y: nat)
    requires 0 <= x < FramePitch
    ensures FixPos(x, y) % FramePitch == x && FixPos(x, y) / FramePitch == y
  {
  }

  /** The output buffer after the copy, defined pixel by pixel: a pixel in the first 160
      rows comes from eye 0 in columns 0 .. 239, from eye 1 (shifted by 240) in columns
      240 .. 495, and keeps its previous value everywhere else. */
  function Frame(prev: seq<Pixel>, eye0: seq<Pixel>, eye1: seq<Pixel>): (out: seq<Pixel>)
    requires |prev| >= FramePitch * Height
    requires |eye0| == EyeWidth * Height && |eye1| == EyeWidth * Height
    ensures |out| == |prev|
  {
    seq(|prev|, i requires 0 <= i < |prev| =>
      var x := i % FramePitch;
      var y := i / FramePitch;
      if y < Height && x < VisibleWidth then eye0[EyePos(x, y)]
      else if y < Height && x < WrittenWidth then eye1[EyePos(x - VisibleWidth, y)]
      else prev[i])
  }

  /** The output columns filled once the outer loop has handled eye columns below `x`:
      eye 0's below `min(x, 240)`, eye 1's at 240 .. 240 + x. */
  predicate Copied(x: int, c: int) {
    (c < VisibleWidth && c < x) || (VisibleWidth <= c < VisibleWidth + x)
  }

  /** `systemDrawScreen` on a copy of `fix`: for each column `x` of the eyes and each
      row `y`, eye 0's pixel is copied when `x < 240`, and eye 1's pixel always, 240
      columns further right. */
  method DrawScreen(prev: seq<Pixel>, eye0: seq<Pixel>, eye1: seq<Pixel>) returns (out: seq<Pixel>)
    requires |prev| >= FramePitch * Height
    requires |eye0| == EyeWidth * Height && |eye1| == EyeWidth * Height
    ensures |out| == |prev|
    ensures forall x, y :: 0 <= x < VisibleWidth && 0 <= y < Height ==> out[FixPos(x, y)] == eye0[EyePos(x, y)]
    ensures forall x, y :: 0 <= x < EyeWidth && 0 <= y < Height ==> out[FixPos(x + VisibleWidth, y)] == eye1[EyePos(x, y)]
    ensures forall x, y :: WrittenWidth <= x < FramePitch && 0 <= y < Height ==> out[FixPos(x, y)] == prev[FixPos(x, y)]
    ensures forall i :: FramePitch * Height <= i < |prev| ==> out[i] == prev[i]
    ensures out == Frame(prev, eye0, eye1)
  {
    var fix := new Pixel[|prev|](i requires 0 <= i < |prev| => prev[i]);
    var x := 0;
    while x < EyeWidth
      invariant 0 <= x <= EyeWidth
      invariant forall c, y :: 0 <= c < FramePitch && 0 <= y < Height && Copied(x, c) && c < VisibleWidth ==>
                  fix[FixPos(c, y)] == eye0[EyePos(c, y)]
      invariant forall c, y :: 0 <= c < FramePitch && 0 <= y < Height && Copied(x, c) && VisibleWidth <= c ==>
                  fix[FixPos(c, y)] == eye1[EyePos(c - VisibleWidth, y)]
      invariant forall c, y :: 0 <= c < FramePitch && 0 <= y < Height && !Copied(x, c) ==>
                  fix[FixPos(c, y)] == prev[FixPos(c, y)]
      invariant forall i :: FramePitch * Height <= i < |prev| ==> fix[i] == prev[i]
    {
      CopyColumn(fix, x, eye0, eye1);
      x := x + 1;
    }
    out := fix[..];
    MatchesFrame(prev, eye0, eye1, out);
  }

  /** One iteration of the outer loop: column `x` of every row, eye 0's pixel to column
      `x` when `x < 240` and eye 1's to column `x + 240`; nothing else is written. */
  method CopyColumn(fix: array<Pixel>, x: nat, eye0: seq<Pixel>, eye1: seq<Pixel>)
    requires x < EyeWidth && fix.Length >= FramePitch * Height
    requires |eye0| == EyeWidth * Height && |eye1| == EyeWidth * Height
    modifies fix
    ensures forall r :: 0 <= r < Height && x < VisibleWidth ==> fix[FixPos(x, r)] == eye0[EyePos(x, r)]
    ensures forall r :: 0 <= r < Height ==> fix[FixPos(x + VisibleWidth, r)] == eye1[EyePos(x, r)]
    ensures forall c, r :: 0 <= c < FramePitch && 0 <= r < Height && c != x + VisibleWidth && (c != x || x >= VisibleWidth) ==>
              fix[FixPos(c, r)] == old(fix[FixPos(c, r)])
    ensures forall i :: FramePitch * Height <= i < fix.Length ==> fix[i] == old(fix[i])
  {
    var y := 0;
    while y < Height
      invariant 0 <= y <= Height
      invariant forall r :: 0 <= r < y && x < VisibleWidth ==> fix[FixPos(x, r)] == eye0[EyePos(x, r)]
      invariant forall r :: 0 <= r < y ==> fix[FixPos(x + VisibleWidth, r)] == eye1[EyePos(x, r)]
      invariant forall c, r :: 0 <= c < FramePitch && 0 <= r < Height && (y <= r || (c != x + VisibleWidth && (c != x || x >= VisibleWidth))) ==>
                  fix[FixPos(c, r)] == old(fix[FixPos(c, r)])
      invariant forall i :: FramePitch * Height <= i < fix.Length ==> fix[i] == old(fix[i])
    {
      if x < VisibleWidth {
        fix[FixPos(x, y)] := eye0[EyePos(x, y)];
      }
      fix[FixPos(x + VisibleWidth, y)] := eye1[EyePos(x, y)];
      y := y + 1;
    }
  }

  /** A buffer with the three regions filled as `DrawScreen` fills them is `Frame`. */
  lemma MatchesFrame(prev: seq<Pixel>, eye0: seq<Pixel>, eye1: seq<Pixel>, out: seq<Pixel>)
    requires |prev| >= FramePitch * Height && |out| == |prev|
    requires |eye0| == EyeWidth * Height && |eye1| == EyeWidth * Height
    requires forall c, y :: 0 <= c < FramePitch && 0 <= y < Height && Copied(EyeWidth, c) && c < VisibleWidth ==>
               out[FixPos(c, y)] == eye0[EyePos(c, y)]
    requires forall c, y :: 0 <= c < FramePitch && 0 <= y < Height && Copied(EyeWidth, c) && VisibleWidth <= c ==>
               out[FixPos(c, y)] == eye1[EyePos(c - VisibleWidth, y)]
    requires forall c, y :: 0 <= c < FramePitch && 0 <= y < Height && !Copied(EyeWidth, c) ==>
               out[FixPos(c, y)] == prev[FixPos(c, y)]
    requires forall i :: FramePitch * Height <= i < |prev| ==> out[i] == prev[i]
    ensures out == Frame(prev, eye0, eye1)
  {
    var frame := Frame(prev, eye0, eye1);
    forall i | 0 <= i < |out|
      ensures out[i] == frame[i]
    {
      FixPosSplit(i);
    }
  }

  /** Eye 0's columns 240 .. 255 never reach the output: changing them changes nothing. */
  lemma HiddenColumnsNeverRead(prev: seq<Pixel>, eye0: seq<Pixel>, other0: seq<Pixel>, eye1: seq<Pixel>)
    requires |prev| >= FramePitch * Height
    requires |eye0| == EyeWidth * Height && |other0| == EyeWidth * Height && |eye1| == EyeWidth * Height
    requires forall x, y :: 0 <= x < VisibleWidth && 0 <= y < Height ==> eye0[EyePos(x, y)] == other0[EyePos(x, y)]
    ensures Frame(prev, eye0, eye1) == Frame(prev, other0, eye1)
  {
    var a := Frame(prev, eye0, eye1);
    var b := Frame(prev, other0, eye1);
    forall i | 0 <= i < |a|
      ensures a[i] == b[i]
    {
      FixPosSplit(i);
    }
  }

  /** Each of the 160 rows the frontend shows (480 pixels from the row start) is eye 0's
      visible columns followed by eye 1's. */
  lemma VisibleRow(prev: seq<Pixel>, eye0: seq<Pixel>, eye1: seq<Pixel>, y: nat)
    requires |prev| >= FramePitch * Height
    requires |eye0| == EyeWidth * Height && |eye1| == EyeWidth * Height
    requires y < Height
    ensures Frame(prev, eye0, eye1)[FixPos(0, y)..FixPos(FrameWidth, y)]
            == eye0[EyePos(0, y)..EyePos(VisibleWidth, y)] + eye1[EyePos(0, y)..EyePos(VisibleWidth, y)]
  {
    var row := Frame(prev, eye0, eye1)[FixPos(0, y)..FixPos(FrameWidth, y)];
    var left := eye0[EyePos(0, y)..EyePos(VisibleWidth, y)];
    var right := eye1[EyePos(0, y)..EyePos(VisibleWidth, y)];
    forall c | 0 <= c < FrameWidth
      ensures row[c] == (left + right)[c]
    {
      FixPosParts(c, y);
      assert row[c] == Frame(prev, eye0, eye1)[FixPos(c, y)];
      if c < VisibleWidth {
        assert (left + right)[c] == eye0[EyePos(c, y)];
      } else {
        assert (left + right)[c] == eye1[EyePos(c - VisibleWidth, y)];
      }
    }
  }
}
