/** The live 3D-to-ASCII effect of the landing page's model viewer: each frame, the
    rendered RGBA buffer is sampled at the centre of every cell, the sample's luma picks a
    glyph of the active character ramp, and the glyph rows are written, bottom buffer row
    first, into a `<pre>` overlay that sits on top of the hidden WebGL canvas. */
module AsciiViewer {

  /** One channel of the read-back `Uint8Array`. */
  type byte = x: int | 0 <= x < 256

  /** The character ramps offered by the viewer's preset buttons, brightest glyph first. */
  datatype Preset = Dense | Balanced | Minimal | Blocks

  function PresetChars(p: Preset): (chars: string)
    ensures |chars| >= 3 && chars[|chars| - 1] == ' '
  {
    match p
    case Dense => "@%#*+=-:. "
    case Balanced => "@#S%?*+;:,. "
    case Minimal => "@. "
    case Blocks => "\U{2588}\U{2593}\U{2592}\U{2591} "
  }

  /** The viewer starts on the "balanced" ramp. */
  const DefaultPreset: Preset := Balanced

  // ---------------------------------------------------------------- sampling

  /** `pixels[i] || 0`: a read past the end of the buffer yields 0. */
  function Channel(pixels: seq<byte>, i: int): byte {
    if 0 <= i < |pixels| then pixels[i] else 0
  }

  /** Luma weights 0.299/0.587/0.114, scaled by 1000 so that the arithmetic is exact. */
  function WeightedLuma(r: byte, g: byte, b: byte): int {
    299 * r + 587 * g + 114 * b
  }

  /** `Math.floor(((0.299r + 0.587g + 0.114b) / 255) * (L - 1))`, computed exactly:
      Dafny's `/` on a positive divisor is the floor. */
  function GlyphIndex(r: byte, g: byte, b: byte, rampLength: nat): int {
    ScaleLuma(WeightedLuma(r, g, b), rampLength - 1)
  }

  /** A scaled luma `lum` (0..255000) mapped onto the ramp indices 0..`m`, rounding down. */
  function ScaleLuma(lum: int, m: int): int {
    lum * m / 255000
  }

  /** `characters[charIdx] || " "`: an index outside the ramp falls back to a blank. */
  function Glyph(characters: string, idx: int): (c: char)
    ensures 0 <= idx < |characters| ==> c == characters[idx]
    ensures !(0 <= idx < |characters|) ==> c == ' '
  {
    if 0 <= idx < |characters| then characters[idx] else ' '
  }

  /** Buffer coordinate of the centre of cell `k` along one axis. */
  function CellCentre(k: nat, cellSize: nat): nat {
    k * cellSize + cellSize / 2
  }

  /** Offset of the red channel of the pixel sampled for cell (`row`, `col`). */
  function SampleOffset(w: nat, cellSize: nat, row: nat, col: nat): nat {
    (CellCentre(row, cellSize) * w + CellCentre(col, cellSize)) * 4
  }

  /** The glyph produced for cell (`row`, `col`), `row` counted in buffer order. */
  function CellGlyph(pixels: seq<byte>, w: nat, cellSize: nat, characters: string, row: nat, col: nat): char {
    var idx := SampleOffset(w, cellSize, row, col);
    Glyph(characters, GlyphIndex(Channel(pixels, idx), Channel(pixels, idx + 1), Channel(pixels, idx + 2), |characters|))
  }

  // ---------------------------------------------------------------- assembling

  /** The first `n` glyphs of buffer row `row`. */
  function Line(pixels: seq<byte>, w: nat, cellSize: nat, characters: string, row: nat, n: nat): (line: string)
    ensures |line| == n
  {
    if n == 0 then "" else Line(pixels, w, cellSize, characters, row, n - 1) + [CellGlyph(pixels, w, cellSize, characters, row, n - 1)]
  }

  /** The first `n` output lines: buffer rows `rows-1` down to `rows-n`, each ending in a newline. */
  function FrameLines(pixels: seq<byte>, w: nat, cellSize: nat, characters: string, rows: nat, cols: nat, n: nat): string
    requires n <= rows
  {
    if n == 0 then ""
    else FrameLines(pixels, w, cellSize, characters, rows, cols, n - 1)
         + Line(pixels, w, cellSize, characters, rows - n, cols) + "\n"
  }

  function Cols(w: nat, cellSize: nat): nat
    requires cellSize >= 1
  {
    w / cellSize
  }

  function Rows(h: nat, cellSize: nat): nat
    requires cellSize >= 1
  {
    h / cellSize
  }

  /** The whole text block written to the overlay for one frame. */
  function FrameText(pixels: seq<byte>, w: nat, h: nat, cellSize: nat, characters: string): string
    requires cellSize >= 1
  {
    FrameLines(pixels, w, cellSize, characters, Rows(h, cellSize), Cols(w, cellSize), Rows(h, cellSize))
  }

  /** The body of the inner loop: sample the centre pixel of cell (`row`, `col`) and look
      up its glyph. */
  method SampleCell(pixels: seq<byte>, w: nat, cellSize: nat, characters: string, row: nat, col: nat)
    returns (glyph: char)
    ensures glyph == CellGlyph(pixels, w, cellSize, characters, row, col)
  {
    var x := col * cellSize + cellSize / 2;
    var y := row * cellSize + cellSize / 2;
    assert x == CellCentre(col, cellSize) && y == CellCentre(row, cellSize);
    var idx := (y * w + x) * 4;
    assert idx == SampleOffset(w, cellSize, row, col);
    var r := Channel(pixels, idx);
    var g := Channel(pixels, idx + 1);
    var b := Channel(pixels, idx + 2);
    var charIdx := (299 * r + 587 * g + 114 * b) * (|characters| - 1) / 255000;
    assert charIdx == GlyphIndex(r, g, b, |characters|);
    glyph := Glyph(characters, charIdx);
  }

  /** The inner loop of one frame: the glyphs of buffer row `row`, left to right. */
  method ConvertLine(pixels: seq<byte>, w: nat, cellSize: nat, characters: string, row: nat, cols: nat)
    returns (line: string)
    ensures line == Line(pixels, w, cellSize, characters, row, cols)
  {
    line := "";
    var col := 0;
    while col < cols
      invariant 0 <= col <= cols
      invariant line == Line(pixels, w, cellSize, characters, row, col)
    {
      var glyph := SampleCell(pixels, w, cellSize, characters, row, col);
      line := line + [glyph];
      col := col + 1;
    }
  }

  /** The `ascii +=` loops of one frame. */
  method ConvertFrame(pixels: seq<byte>, w: nat, h: nat, cellSize: nat, characters: string) returns (ascii: string)
    requires cellSize >= 1
    ensures ascii == FrameText(pixels, w, h, cellSize, characters)
  {
    var cols := w / cellSize;
    var rows := h / cellSize;
    ascii := "";
    var row: int := rows - 1;
    while row >= 0
      invariant -1 <= row < rows
      invariant ascii == FrameLines(pixels, w, cellSize, characters, rows, cols, rows - 1 - row)
    {
      var line := ConvertLine(pixels, w, cellSize, characters, row, cols);
      assert FrameLines(pixels, w, cellSize, characters, rows, cols, rows - row)
          == FrameLines(pixels, w, cellSize, characters, rows, cols, rows - 1 - row) + line + "\n";
      ascii := ascii + line + "\n";
      row := row - 1;
    }
  }

  // ---------------------------------------------------------------- properties

  lemma {:induction false} LineAt(pixels: seq<byte>, w: nat, cellSize: nat, characters: string, row: nat, n: nat, c: nat)
    requires c < n
    ensures Line(pixels, w, cellSize, characters, row, n)[c] == CellGlyph(pixels, w, cellSize, characters, row, c)
  {
    if c < n - 1 {
      LineAt(pixels, w, cellSize, characters, row, n - 1, c);
    }
  }

  /** Position, in the frame text, of column `c` of output line `k`. */
  function LinePos(cols: nat, k: nat, c: nat): nat {
    k * (cols + 1) + c
  }

  lemma MulMono(a: nat, b: nat, c: nat)
    requires a <= b
    ensures a * c <= b * c
  {
  }

  lemma StepArith(cols: nat, n: nat)
    requires n >= 1
    ensures n * (cols + 1) == (n - 1) * (cols + 1) + cols + 1
  {
  }

  lemma PosArith(cols: nat, n: nat, k: nat, c: nat)
    requires k < n && c <= cols
    ensures k < n - 1 ==> LinePos(cols, k, c) < (n - 1) * (cols + 1)
    ensures k == n - 1 ==> LinePos(cols, k, c) == (n - 1) * (cols + 1) + c
  {
    if k < n - 1 {
      MulMono(k + 1, n - 1, cols + 1);
      StepArith(cols, k + 1);
    }
  }

  lemma {:induction false} FrameLinesLength(pixels: seq<byte>, w: nat, cellSize: nat, characters: string, rows: nat, cols: nat, n: nat)
    requires n <= rows
    ensures |FrameLines(pixels, w, cellSize, characters, rows, cols, n)| == n * (cols + 1)
  {
    if n > 0 {
      FrameLinesLength(pixels, w, cellSize, characters, rows, cols, n - 1);
      StepArith(cols, n);
    }
  }

  /** Output line `k` holds the glyphs of buffer row `rows-1-k` and ends in a newline. */
  lemma {:induction false} FrameLinesAt(pixels: seq<byte>, w: nat, cellSize: nat, characters: string, rows: nat, cols: nat, n: nat, k: nat, c: nat)
    requires n <= rows && k < n && c <= cols
    ensures LinePos(cols, k, c) < |FrameLines(pixels, w, cellSize, characters, rows, cols, n)|
    ensures FrameLines(pixels, w, cellSize, characters, rows, cols, n)[LinePos(cols, k, c)]
         == if c < cols then CellGlyph(pixels, w, cellSize, characters, rows - 1 - k, c) else '\n'
  {
    FrameLinesLength(pixels, w, cellSize, characters, rows, cols, n - 1);
    StepArith(cols, n);
    PosArith(cols, n, k, c);
    var prefix := FrameLines(pixels, w, cellSize, characters, rows, cols, n - 1);
    var line := Line(pixels, w, cellSize, characters, rows - n, cols);
    var pos := LinePos(cols, k, c);
    assert FrameLines(pixels, w, cellSize, characters, rows, cols, n) == prefix + line + "\n";
    if k < n - 1 {
      FrameLinesAt(pixels, w, cellSize, characters, rows, cols, n - 1, k, c);
      assert (prefix + line + "\n")[pos] == prefix[pos];
    } else if c < cols {
      LineAt(pixels, w, cellSize, characters, rows - n, cols, c);
      assert (prefix + line + "\n")[pos] == line[c];
    } else {
      assert (prefix + line + "\n")[pos] == '\n';
    }
  }

  /** The frame has `rows` lines of `cols` glyphs plus a newline each (the last one too);
      no rows gives the empty text. */
  lemma FrameLength(pixels: seq<byte>, w: nat, h: nat, cellSize: nat, characters: string)
    requires cellSize >= 1
    ensures |FrameText(pixels, w, h, cellSize, characters)| == Rows(h, cellSize) * (Cols(w, cellSize) + 1)
    ensures Rows(h, cellSize) == 0 ==> FrameText(pixels, w, h, cellSize, characters) == ""
  {
    FrameLinesLength(pixels, w, cellSize, characters, Rows(h, cellSize), Cols(w, cellSize), Rows(h, cellSize));
  }

  /** Output line `k` shows buffer row `rows-1-k`: the image is flipped vertically. */
  lemma FrameGlyphs(pixels: seq<byte>, w: nat, h: nat, cellSize: nat, characters: string)
    requires cellSize >= 1
    ensures forall k, c :: 0 <= k < Rows(h, cellSize) && 0 <= c < Cols(w, cellSize) ==>
      LinePos(Cols(w, cellSize), k, c) < |FrameText(pixels, w, h, cellSize, characters)| &&
      FrameText(pixels, w, h, cellSize, characters)[LinePos(Cols(w, cellSize), k, c)]
        == CellGlyph(pixels, w, cellSize, characters, Rows(h, cellSize) - 1 - k, c)
  {
    var rows, cols := Rows(h, cellSize), Cols(w, cellSize);
    forall k, c | 0 <= k < rows && 0 <= c < cols
      ensures LinePos(cols, k, c) < |FrameText(pixels, w, h, cellSize, characters)|
      ensures FrameText(pixels, w, h, cellSize, characters)[LinePos(cols, k, c)]
           == CellGlyph(pixels, w, cellSize, characters, rows - 1 - k, c)
    {
      FrameLinesAt(pixels, w, cellSize, characters, rows, cols, rows, k, c);
    }
  }

  /** Every output line, the last one included, ends in a newline. */
  lemma FrameNewlines(pixels: seq<byte>, w: nat, h: nat, cellSize: nat, characters: string)
    requires cellSize >= 1
    ensures forall k :: 0 <= k < Rows(h, cellSize) ==>
      LinePos(Cols(w, cellSize), k, Cols(w, cellSize)) < |FrameText(pixels, w, h, cellSize, characters)| &&
      FrameText(pixels, w, h, cellSize, characters)[LinePos(Cols(w, cellSize), k, Cols(w, cellSize))] == '\n'
  {
    var rows, cols := Rows(h, cellSize), Cols(w, cellSize);
    forall k | 0 <= k < rows
      ensures LinePos(cols, k, cols) < |FrameText(pixels, w, h, cellSize, characters)|
      ensures FrameText(pixels, w, h, cellSize, characters)[LinePos(cols, k, cols)] == '\n'
    {
      FrameLinesAt(pixels, w, cellSize, characters, rows, cols, rows, k, cols);
    }
  }

  lemma CentreInside(extent: nat, cellSize: nat, k: nat)
    requires cellSize >= 1 && k < extent / cellSize
    ensures CellCentre(k, cellSize) < extent
  {
    var q := extent / cellSize;
    assert (k + 1) * cellSize <= q * cellSize by { MulMono(k + 1, q, cellSize); }
    assert q * cellSize <= extent;
    assert k * cellSize + cellSize == (k + 1) * cellSize;
  }

  lemma OffsetArith(w: nat, h: nat, x: nat, y: nat)
    requires x < w && y < h
    ensures (y * w + x) * 4 + 2 < w * h * 4
  {
    MulMono(y, h - 1, w);
    assert (h - 1) * w + w == h * w;
    assert h * w == w * h;
  }

  /** Centre sampling never leaves the `w`×`h` image, so on a full buffer the
      `|| 0` defaults never fire. */
  lemma SampleInBounds(w: nat, h: nat, cellSize: nat, row: nat, col: nat)
    requires cellSize >= 1 && row < Rows(h, cellSize) && col < Cols(w, cellSize)
    ensures CellCentre(col, cellSize) < w && CellCentre(row, cellSize) < h
    ensures SampleOffset(w, cellSize, row, col) + 2 < w * h * 4
  {
    CentreInside(w, cellSize, col);
    CentreInside(h, cellSize, row);
    OffsetArith(w, h, CellCentre(col, cellSize), CellCentre(row, cellSize));
  }

  /** On a buffer of exactly `w*h*4` bytes every cell reads the real pixel. */
  lemma FullBufferSample(pixels: seq<byte>, w: nat, h: nat, cellSize: nat, characters: string, row: nat, col: nat)
    requires cellSize >= 1 && |pixels| == w * h * 4
    requires row < Rows(h, cellSize) && col < Cols(w, cellSize)
    ensures SampleOffset(w, cellSize, row, col) + 2 < |pixels|
    ensures CellGlyph(pixels, w, cellSize, characters, row, col)
         == Glyph(characters, GlyphIndex(pixels[SampleOffset(w, cellSize, row, col)],
                                         pixels[SampleOffset(w, cellSize, row, col) + 1],
                                         pixels[SampleOffset(w, cellSize, row, col) + 2], |characters|))
  {
    SampleInBounds(w, h, cellSize, row, col);
  }

  /** The glyph index always lies inside a non-empty ramp. */
  lemma GlyphIndexInRange(r: byte, g: byte, b: byte, rampLength: nat)
    requires rampLength >= 1
    ensures 0 <= GlyphIndex(r, g, b, rampLength) <= rampLength - 1
  {
    var lum := WeightedLuma(r, g, b);
    var m := rampLength - 1;
    assert 0 <= lum * m <= 255000 * m by { MulMono(lum, 255000, m); }
  }

  /** A brighter channel never picks a darker-ranked glyph: the index is monotone in r, g and b. */
  lemma GlyphIndexMonotone(r: byte, g: byte, b: byte, r': byte, g': byte, b': byte, rampLength: nat)
    requires rampLength >= 1 && r <= r' && g <= g' && b <= b'
    ensures GlyphIndex(r, g, b, rampLength) <= GlyphIndex(r', g', b', rampLength)
  {
    var m := rampLength - 1;
    assert WeightedLuma(r, g, b) * m <= WeightedLuma(r', g', b') * m by {
      MulMono(WeightedLuma(r, g, b), WeightedLuma(r', g', b'), m);
    }
  }

  /** Black picks the first glyph of the ramp. */
  lemma BlackGlyph(characters: string)
    requires |characters| >= 1
    ensures Glyph(characters, GlyphIndex(0, 0, 0, |characters|)) == characters[0]
  {
    BlackIndex(|characters|);
  }

  /** White picks the last glyph of the ramp. */
  lemma WhiteGlyph(characters: string)
    requires |characters| >= 1
    ensures Glyph(characters, GlyphIndex(255, 255, 255, |characters|)) == characters[|characters| - 1]
  {
    WhiteIndex(|characters|);
  }

  lemma BlackIndex(rampLength: nat)
    ensures GlyphIndex(0, 0, 0, rampLength) == 0
  {
    assert WeightedLuma(0, 0, 0) == 0;
    ScaleNone(rampLength - 1);
  }

  lemma WhiteIndex(rampLength: nat)
    ensures GlyphIndex(255, 255, 255, rampLength) == rampLength - 1
  {
    assert WeightedLuma(255, 255, 255) == 255000;
    ScaleFull(rampLength - 1);
  }

  lemma ScaleNone(m: int)
    ensures ScaleLuma(0, m) == 0
  {
  }

  lemma ScaleFull(m: int)
    ensures ScaleLuma(255000, m) == m
  {
  }

  // ---------------------------------------------------------------- the DOM side

  /** The `<pre class="ascii-overlay">` element. */
  class Overlay {
    var textContent: string

    constructor ()
      ensures textContent == ""
    {
      textContent := "";
    }
  }

  /** The WebGL canvas (`gl.domElement`), of which only the inline opacity is modelled. */
  class GlCanvas {
    var opacity: string

    constructor ()
      ensures opacity == ""
    {
      opacity := "";
    }
  }

  /** The canvas's parent element: its `pre.ascii-overlay` children in document order,
      and its inline `position`. */
  class Container {
    var overlays: seq<Overlay>
    var position: string

    constructor ()
      ensures overlays == [] && position == ""
    {
      overlays := [];
      position := "";
    }
  }

  /** The offscreen `WebGLRenderTarget`, sized once from the canvas. */
  class RenderTarget {
    const width: nat
    const height: nat
    var disposed: bool

    constructor (width: nat, height: nat)
      ensures this.width == width && this.height == height && !disposed
    {
      this.width := width;
      this.height := height;
      disposed := false;
    }
  }

  /** The container's children after `removeChild(pre)`, in their order. */
  function Without(overlays: seq<Overlay>, pre: Overlay): (r: seq<Overlay>)
    ensures pre !in r
    ensures forall o :: o in r ==> o in overlays
    ensures forall o :: o in overlays && o != pre ==> o in r
    ensures pre !in overlays ==> r == overlays
  {
    if overlays == [] then []
    else (if overlays[0] == pre then [] else [overlays[0]]) + Without(overlays[1..], pre)
  }

  /** A DOM node is a child at most once: removing it takes out exactly its slot and keeps
      the other children in order. */
  lemma {:induction false} WithoutChild(overlays: seq<Overlay>, pre: Overlay, i: nat)
    requires i < |overlays| && overlays[i] == pre
    requires pre !in overlays[..i] && pre !in overlays[i + 1..]
    ensures Without(overlays, pre) == overlays[..i] + overlays[i + 1..]
  {
    if i == 0 {
      assert overlays[1..] == overlays[i + 1..];
    } else {
      var tail := overlays[1..];
      assert tail[..i - 1] == overlays[1..i];
      assert tail[i - 1 + 1..] == overlays[i + 1..];
      WithoutChild(tail, pre, i - 1);
      assert overlays[..i] == [overlays[0]] + overlays[1..i];
    }
  }

  /** One mounted `AsciiEffect` component: its props, the objects it works on and its refs. */
  class AsciiEffect {
    const characters: string
    const cellSize: nat
    const canvas: GlCanvas
    const container: Container?
    const renderTarget: RenderTarget
    var preRef: Overlay?
    var canvasRef: bool

    constructor (characters: string, cellSize: nat, canvas: GlCanvas, container: Container?, renderTarget: RenderTarget)
      ensures this.characters == characters && this.cellSize == cellSize
      ensures this.canvas == canvas && this.container == container && this.renderTarget == renderTarget
      ensures preRef == null && !canvasRef
    {
      this.characters := characters;
      this.cellSize := cellSize;
      this.canvas := canvas;
      this.container := container;
      this.renderTarget := renderTarget;
      preRef := null;
      canvasRef := false;
    }

    /** The mount effect. It returns the overlay its cleanup closure captures, or null when
        the canvas has no parent (then no cleanup is registered). */
    method Setup() returns (pre: Overlay?)
      modifies this, canvas, container
      ensures canvasRef
      ensures container == null ==>
        pre == null && preRef == old(preRef) && canvas.opacity == old(canvas.opacity)
      ensures container != null ==>
        && pre != null && preRef == pre && canvas.opacity == "0"
        && (old(container.overlays) != [] ==>
              pre == old(container.overlays)[0] && container.overlays == old(container.overlays)
              && container.position == old(container.position))
        && (old(container.overlays) == [] ==>
              fresh(pre) && pre.textContent == "" && container.overlays == [pre] && container.position == "relative")
    {
      canvasRef := true;
      if container == null {
        pre := null;
        return;
      }
      if |container.overlays| > 0 {
        pre := container.overlays[0];
      } else {
        pre := new Overlay();
        container.position := "relative";
        container.overlays := container.overlays + [pre];
      }
      preRef := pre;
      canvas.opacity := "0";
    }

    /** The cleanup closure: detach the overlay, show the canvas again, free the target.
        The `preRef` ref is not cleared. */
    method Teardown(pre: Overlay)
      requires container != null
      modifies container, canvas, renderTarget
      ensures container.overlays == Without(old(container.overlays), pre)
      ensures container.position == old(container.position)
      ensures canvas.opacity == "1" && renderTarget.disposed
    {
      container.overlays := Without(container.overlays, pre);
      canvas.opacity := "1";
      renderTarget.disposed := true;
    }

    /** One `useFrame` tick; `pixels` is what `readRenderTargetPixels` read back. */
    method Frame(pixels: seq<byte>)
      requires cellSize >= 1
      modifies preRef
      ensures preRef == null || !canvasRef ==> preRef == null || unchanged(preRef)
      ensures preRef != null && canvasRef ==>
        preRef.textContent == FrameText(pixels, renderTarget.width, renderTarget.height, cellSize, characters)
    {
      if preRef == null || !canvasRef {
        return;
      }
      var ascii := ConvertFrame(pixels, renderTarget.width, renderTarget.height, cellSize, characters);
      preRef.textContent := ascii;
    }
  }
}
