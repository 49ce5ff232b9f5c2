/**
 std_decode.c: the decoder hands over rectangles of RGB888 pixels, and outfunc scatters them,
 packed to RGB565, through an array of row pointers into one flat image buffer.
 */
module Decode {
  import opened Common

  type Pixel = bv16

  /** One byte of the RGB888 input, as C promotes it before shifting. */
  type Channel = c: bv16 | c < 0x100

  /** JRECT: all four borders belong to the rectangle. */
  datatype Rect = Rect(left: nat, right: nat, top: nat, bottom: nat)

  /** One call of the output function. */
  datatype Block = Block(rect: Rect, rgb: seq<Channel>)

  datatype Status = ESP_OK | ESP_ERR_NO_MEM | ESP_ERR_NOT_SUPPORTED

  // ---------------------------------------------------------------- RGB565

  function Pack(r: Channel, g: Channel, b: Channel): Pixel {
    ((r >> 3) << 11) | ((g >> 2) << 5) | ((b >> 3) << 0)
  }

  function Red(v: Pixel): bv16 { v >> 11 }

  function Green(v: Pixel): bv16 { (v >> 5) & 0x3F }

  function Blue(v: Pixel): bv16 { v & 0x1F }

  /** The three fields do not overlap: each unpacks to the top bits of its own channel. */
  lemma PackKeepsTopBits(r: Channel, g: Channel, b: Channel)
    ensures Pack(r, g, b) >> 11 == r >> 3
    ensures (Pack(r, g, b) >> 5) & 0x3F == g >> 2
    ensures Pack(r, g, b) & 0x1F == b >> 3
  {
  }

  /** Shifted back, a channel is less than 8 (red, blue) or 4 (green) below the original. */
  lemma ExpandedIsClose(r: Channel, g: Channel, b: Channel)
    ensures var v := Pack(r, g, b);
            && Red(v) << 3 <= r && r - (Red(v) << 3) < 8
            && Green(v) << 2 <= g && g - (Green(v) << 2) < 4
            && Blue(v) << 3 <= b && b - (Blue(v) << 3) < 8
  {
    PackKeepsTopBits(r, g, b);
  }

  // ---------------------------------------------------------------- the flat buffer

  /** The index of pixel (x, y) in an image of width `w`. */
  function At(w: nat, x: nat, y: nat): nat {
    y * w + x
  }

  lemma AtInBounds(w: nat, h: nat, x: nat, y: nat)
    requires x < w && y < h
    ensures At(w, x, y) < w * h
  {
    assert (y + 1) * w <= h * w;
  }

  /** Writes through distinct row pointers never collide. */
  lemma AtIsOneToOne(w: nat, x: nat, y: nat, x': nat, y': nat)
    requires x < w && x' < w && At(w, x, y) == At(w, x', y')
    ensures x == x' && y == y'
  {
    assert y < y' ==> (y + 1) * w <= y' * w;
    assert y' < y ==> (y' + 1) * w <= y * w;
  }

  function Cell(img: seq<Pixel>, w: nat, h: nat, x: nat, y: nat): Pixel
    requires |img| >= w * h && x < w && y < h
  {
    AtInBounds(w, h, x, y);
    img[At(w, x, y)]
  }

  // ---------------------------------------------------------------- rectangles

  predicate Covers(r: Rect, x: nat, y: nat) {
    r.left <= x <= r.right && r.top <= y <= r.bottom
  }

  function Width(r: Rect): nat {
    if r.left <= r.right then r.right - r.left + 1 else 0
  }

  function Height(r: Rect): nat {
    if r.top <= r.bottom then r.bottom - r.top + 1 else 0
  }

  /** The decoder supplies three bytes for every pixel of a rectangle inside the image. */
  predicate Fits(b: Block, w: nat, h: nat) {
    && (Width(b.rect) > 0 && Height(b.rect) > 0 ==> b.rect.right < w && b.rect.bottom < h)
    && |b.rgb| >= 3 * (Height(b.rect) * Width(b.rect))
  }

  /** Where the bytes of pixel (x, y) start: the rectangle row by row, three bytes a pixel. */
  function Offset(r: Rect, x: nat, y: nat): nat
    requires Covers(r, x, y)
  {
    var row: nat := y - r.top;
    3 * (row * Width(r) + (x - r.left))
  }

  /** The bytes are those the scan has come to: the first pixel starts at byte 0, each next pixel of
      a row three bytes on, and each next row three bytes after the last pixel of the row above. */
  lemma OffsetFollowsScan(r: Rect, x: nat, y: nat)
    requires Covers(r, x, y)
    ensures Offset(r, r.left, r.top) == 0
    ensures x < r.right ==> Offset(r, x + 1, y) == Offset(r, x, y) + 3
    ensures y < r.bottom ==> Offset(r, r.left, y + 1) == Offset(r, r.right, y) + 3
    ensures Offset(r, x, y) == 3 * ((y - r.top) * (r.right - r.left + 1) + (x - r.left))
  {
    assert (y + 1 - r.top) * Width(r) == (y - r.top) * Width(r) + Width(r);
  }

  lemma OffsetInBounds(b: Block, w: nat, h: nat, x: nat, y: nat)
    requires Fits(b, w, h) && Covers(b.rect, x, y)
    ensures x < w && y < h && Offset(b.rect, x, y) + 2 < |b.rgb|
  {
    AtInBounds(Width(b.rect), Height(b.rect), x - b.rect.left, y - b.rect.top);
  }

  function PixelOf(b: Block, w: nat, h: nat, x: nat, y: nat): Pixel
    requires Fits(b, w, h) && Covers(b.rect, x, y)
  {
    OffsetInBounds(b, w, h, x, y);
    var at := Offset(b.rect, x, y);
    Pack(b.rgb[at], b.rgb[at + 1], b.rgb[at + 2])
  }

  /** The scan has passed (x, y) when it stands at (atX, atY). */
  predicate Passed(x: nat, y: nat, atX: nat, atY: nat) {
    y < atY || (y == atY && x < atX)
  }

  /** `after` is `before` with the block's pixels written where the scan has passed. */
  ghost predicate Scattered(before: seq<Pixel>, after: seq<Pixel>, w: nat, h: nat, b: Block,
                            atX: nat, atY: nat)
    requires |before| >= w * h && Fits(b, w, h)
  {
    && |after| == |before|
    && (forall x: nat, y: nat :: x < w && y < h ==>
          Cell(after, w, h, x, y) ==
          if Covers(b.rect, x, y) && Passed(x, y, atX, atY) then PixelOf(b, w, h, x, y) else Cell(before, w, h, x, y))
    && (forall i :: w * h <= i < |before| ==> after[i] == before[i])
  }

  /** A write through a row pointer changes one pixel of the image. */
  lemma WriteOneCell(now: seq<Pixel>, w: nat, h: nat, atX: nat, atY: nat, p: Pixel, x: nat, y: nat)
    requires |now| >= w * h && atX < w && atY < h && x < w && y < h
    ensures At(w, atX, atY) < w * h
    ensures Cell(now[At(w, atX, atY) := p], w, h, x, y) ==
            if x == atX && y == atY then p else Cell(now, w, h, x, y)
  {
    AtInBounds(w, h, atX, atY);
    AtInBounds(w, h, x, y);
    if At(w, x, y) == At(w, atX, atY) {
      AtIsOneToOne(w, x, y, atX, atY);
    }
  }

  lemma ScatterOne(before: seq<Pixel>, now: seq<Pixel>, next: seq<Pixel>, w: nat, h: nat, b: Block,
                   atX: nat, atY: nat)
    requires |before| >= w * h && Fits(b, w, h) && Covers(b.rect, atX, atY) && atX < w && atY < h
    requires Scattered(before, now, w, h, b, atX, atY)
    requires At(w, atX, atY) < w * h && next == now[At(w, atX, atY) := PixelOf(b, w, h, atX, atY)]
    ensures Scattered(before, next, w, h, b, atX + 1, atY)
  {
    forall x: nat, y: nat | x < w && y < h
      ensures Cell(next, w, h, x, y) ==
              if Covers(b.rect, x, y) && Passed(x, y, atX + 1, atY) then PixelOf(b, w, h, x, y)
              else Cell(before, w, h, x, y)
    {
      WriteOneCell(now, w, h, atX, atY, PixelOf(b, w, h, atX, atY), x, y);
    }
  }

  lemma ScatterRow(before: seq<Pixel>, now: seq<Pixel>, w: nat, h: nat, b: Block, atX: nat, atY: nat)
    requires |before| >= w * h && Fits(b, w, h) && Scattered(before, now, w, h, b, atX, atY)
    requires atX > b.rect.right
    ensures Scattered(before, now, w, h, b, b.rect.left, atY + 1)
  {
    forall x: nat, y: nat | x < w && y < h
      ensures Cell(now, w, h, x, y) ==
              if Covers(b.rect, x, y) && Passed(x, y, b.rect.left, atY + 1) then PixelOf(b, w, h, x, y)
              else Cell(before, w, h, x, y)
    {
      assert Covers(b.rect, x, y) ==> (Passed(x, y, atX, atY) <==> Passed(x, y, b.rect.left, atY + 1));
    }
  }

  /** The whole block is written, and nothing outside its rectangle has changed. */
  ghost predicate Painted(before: seq<Pixel>, after: seq<Pixel>, w: nat, h: nat, b: Block)
    requires |before| >= w * h && Fits(b, w, h)
  {
    && |after| == |before|
    && (forall x: nat, y: nat :: x < w && y < h ==>
          Cell(after, w, h, x, y) ==
          if Covers(b.rect, x, y) then PixelOf(b, w, h, x, y) else Cell(before, w, h, x, y))
    && (forall i :: w * h <= i < |before| ==> after[i] == before[i])
  }

  /** A pixel of the rectangle is packed from its own three bytes, row by row. */
  lemma PixelFromItsBytes(before: seq<Pixel>, after: seq<Pixel>, w: nat, h: nat, b: Block, x: nat, y: nat)
    requires |before| >= w * h && Fits(b, w, h) && Painted(before, after, w, h, b)
    requires b.rect.left <= x <= b.rect.right && b.rect.top <= y <= b.rect.bottom
    ensures var at := 3 * ((y - b.rect.top) * (b.rect.right - b.rect.left + 1) + (x - b.rect.left));
            && 0 <= at && at + 2 < |b.rgb| && y * w + x < |after|
            && after[y * w + x] == Pack(b.rgb[at], b.rgb[at + 1], b.rgb[at + 2])
  {
    OffsetInBounds(b, w, h, x, y);
    OffsetFollowsScan(b.rect, x, y);
    AtInBounds(w, h, x, y);
    assert Cell(after, w, h, x, y) == PixelOf(b, w, h, x, y);
  }

  /** Every other pixel of the image stays. */
  lemma PixelOutsideStays(before: seq<Pixel>, after: seq<Pixel>, w: nat, h: nat, b: Block, x: nat, y: nat)
    requires |before| >= w * h && Fits(b, w, h) && Painted(before, after, w, h, b) && x < w && y < h
    requires !(b.rect.left <= x <= b.rect.right && b.rect.top <= y <= b.rect.bottom)
    ensures y * w + x < |after| == |before| && after[y * w + x] == before[y * w + x]
  {
    AtInBounds(w, h, x, y);
    assert Cell(after, w, h, x, y) == Cell(before, w, h, x, y);
  }

  lemma ScatterEnd(before: seq<Pixel>, now: seq<Pixel>, w: nat, h: nat, b: Block, atX: nat, atY: nat)
    requires |before| >= w * h && Fits(b, w, h) && Scattered(before, now, w, h, b, atX, atY)
    requires atY > b.rect.bottom
    ensures Painted(before, now, w, h, b)
  {
    assert forall x: nat, y: nat :: Covers(b.rect, x, y) ==> Passed(x, y, atX, atY);
  }

  // ---------------------------------------------------------------- several blocks

  /** What pixel (x, y) shows after the blocks, in order, over a buffer that showed `was`. */
  function Shown(blocks: seq<Block>, w: nat, h: nat, x: nat, y: nat, was: Pixel): Pixel
    requires forall k :: 0 <= k < |blocks| ==> Fits(blocks[k], w, h)
  {
    if blocks == [] then was
    else
      var last := blocks[|blocks| - 1];
      if Covers(last.rect, x, y) then PixelOf(last, w, h, x, y)
      else Shown(blocks[..|blocks| - 1], w, h, x, y, was)
  }

  predicate AllFit(blocks: seq<Block>, w: nat, h: nat) {
    forall k :: 0 <= k < |blocks| ==> Fits(blocks[k], w, h)
  }

  /** `after` is `before` after all the blocks. */
  ghost predicate Drawn(before: seq<Pixel>, after: seq<Pixel>, w: nat, h: nat, blocks: seq<Block>)
    requires |before| >= w * h && AllFit(blocks, w, h)
  {
    && |after| == |before|
    && (forall x: nat, y: nat :: x < w && y < h ==>
          Cell(after, w, h, x, y) == Shown(blocks, w, h, x, y, Cell(before, w, h, x, y)))
    && (forall i :: w * h <= i < |before| ==> after[i] == before[i])
  }

  lemma NothingDrawn(img: seq<Pixel>, w: nat, h: nat)
    requires |img| >= w * h
    ensures Drawn(img, img, w, h, [])
  {
  }

  lemma DrawOneMore(before: seq<Pixel>, mid: seq<Pixel>, after: seq<Pixel>, w: nat, h: nat,
                    blocks: seq<Block>, b: Block)
    requires |before| >= w * h && AllFit(blocks, w, h) && Fits(b, w, h)
    requires Drawn(before, mid, w, h, blocks) && Painted(mid, after, w, h, b)
    ensures AllFit(blocks + [b], w, h) && Drawn(before, after, w, h, blocks + [b])
  {
    assert (blocks + [b])[..|blocks|] == blocks;
  }

  // ---------------------------------------------------------------- the input

  /** One call of the input function; without a buffer the bytes are skipped. */
  datatype Request = Request(len: nat, wanted: bool)

  function Total(requests: seq<Request>): nat {
    if requests == [] then 0
    else Total(requests[..|requests| - 1]) + requests[|requests| - 1].len
  }

  function Flatten(pieces: seq<seq<bv8>>): seq<bv8> {
    if pieces == [] then [] else Flatten(pieces[..|pieces| - 1]) + pieces[|pieces| - 1]
  }

  /** The pieces handed out and skipped, one a request, make up the data read so far. */
  ghost predicate Consumed(data: seq<bv8>, requests: seq<Request>, pieces: seq<seq<bv8>>, pos: nat) {
    && |pieces| == |requests| && pos <= |data|
    && (forall k :: 0 <= k < |pieces| ==> |pieces[k]| == requests[k].len)
    && Flatten(pieces) == data[..pos]
  }

  /** The buffers the decoder got: the piece when it asked for the bytes, nothing otherwise. */
  ghost predicate Handed(requests: seq<Request>, pieces: seq<seq<bv8>>, bufs: seq<seq<bv8>>) {
    && |bufs| == |pieces| == |requests|
    && forall k :: 0 <= k < |bufs| ==> bufs[k] == if requests[k].wanted then pieces[k] else []
  }

  lemma ConsumeOne(data: seq<bv8>, requests: seq<Request>, pieces: seq<seq<bv8>>, pos: nat, r: Request)
    requires Consumed(data, requests, pieces, pos) && pos + r.len <= |data|
    ensures Consumed(data, requests + [r], pieces + [data[pos..pos + r.len]], pos + r.len)
  {
    assert (pieces + [data[pos..pos + r.len]])[..|pieces|] == pieces;
    assert data[..pos] + data[pos..pos + r.len] == data[..pos + r.len];
  }

  /** Pieces of the lengths asked for that make up the data are the consecutive slices of it: each
      request gets the bytes that follow all those before it, handed out or skipped. */
  lemma {:induction false} PieceIsNextSlice(data: seq<bv8>, requests: seq<Request>, pieces: seq<seq<bv8>>,
                                            pos: nat, k: nat)
    requires Consumed(data, requests, pieces, pos) && k < |requests|
    ensures pos == Total(requests)
    ensures var at := Total(requests[..k]);
            at + requests[k].len <= pos && pieces[k] == data[at..at + requests[k].len]
  {
    var last := |requests| - 1;
    FlattenedLength(requests, pieces);
    var at: nat := pos - requests[last].len;
    assert Flatten(pieces) == Flatten(pieces[..last]) + pieces[last];
    FlattenedLength(requests[..last], pieces[..last]);
    assert pieces[last] == data[..pos][at..];
    assert Flatten(pieces[..last]) == data[..pos][..at];
    if k < last {
      assert data[..pos][..at] == data[..at];
      PieceIsNextSlice(data, requests[..last], pieces[..last], at, k);
      assert requests[..last][..k] == requests[..k];
    }
  }

  lemma {:induction false} FlattenedLength(requests: seq<Request>, pieces: seq<seq<bv8>>)
    requires |pieces| == |requests| && forall k :: 0 <= k < |pieces| ==> |pieces[k]| == requests[k].len
    ensures |Flatten(pieces)| == Total(requests)
  {
    if pieces != [] {
      FlattenedLength(requests[..|requests| - 1], pieces[..|pieces| - 1]);
    }
  }

  class JpegDev {
    const inData: seq<bv8>
    var inPos: nat
    const rows: seq<nat>        // outData: the row pointers, as offsets into the image
    const img: array<Pixel>
    const outW: nat
    const outH: nat
    ghost var asked: seq<Request>       // every call of infunc
    ghost var pieces: seq<seq<bv8>>     // the bytes each of them moved past
    ghost var put: seq<Block>           // every call of outfunc

    ghost predicate Valid() {
      && |rows| == outH && img.Length >= outW * outH
      && forall y :: 0 <= y < outH ==> rows[y] == y * outW
    }

    /** The cursor stands behind everything moved past so far. */
    ghost predicate Reading()
      reads this
    {
      Consumed(inData, asked, pieces, inPos)
    }

    /** The image shows what was put out so far, over what it held before. */
    ghost predicate Showing(before: seq<Pixel>)
      reads this, img
    {
      && |before| == img.Length && img.Length >= outW * outH && AllFit(put, outW, outH)
      && Drawn(before, img[..], outW, outH, put)
    }

    /** The row-pointer loop of std_decode_image. */
    constructor (w: nat, h: nat, data: seq<bv8>, image: array<Pixel>)
      requires image.Length >= w * h
      ensures Valid() && outW == w && outH == h && img == image && inData == data && inPos == 0
      ensures |rows| == h && forall y :: 0 <= y < h ==> rows[y] == y * w
      ensures asked == [] && pieces == [] && put == [] && Reading()
    {
      var pixels := new nat[h](_ => 0);
      for n := 0 to h
        invariant forall y :: 0 <= y < n ==> pixels[y] == y * w
      {
        pixels[n] := n * w;
      }
      outW, outH, img, inData, inPos, rows := w, h, image, data, 0, pixels[..];
      asked, pieces, put := [], [], [];
    }

    /** infunc: hands out, or skips when there is no buffer, the next `len` bytes. */
    method InFunc(len: nat, wanted: bool) returns (n: nat, buf: seq<bv8>)
      requires Reading() && inPos + len <= |inData|
      modifies `inPos, `asked, `pieces
      ensures Reading() && asked == old(asked) + [Request(len, wanted)]
      ensures n == len && inPos == old(inPos) + len
      ensures pieces == old(pieces) + [inData[old(inPos)..inPos]]
      ensures buf == if wanted then pieces[|pieces| - 1] else []
    {
      ConsumeOne(inData, asked, pieces, inPos, Request(len, wanted));
      buf := [];
      if wanted {
        buf := inData[inPos..inPos + len];
      }
      asked, pieces := asked + [Request(len, wanted)], pieces + [inData[inPos..inPos + len]];
      inPos := inPos + len;
      n := len;
    }

    /** One read of the decoder, added to the buffers it got before. */
    method Feed(r: Request, bufs: seq<seq<bv8>>) returns (fed: seq<seq<bv8>>)
      requires Reading() && inPos + r.len <= |inData| && Handed(asked, pieces, bufs)
      modifies `inPos, `asked, `pieces
      ensures Reading() && asked == old(asked) + [r] && inPos == old(inPos) + r.len
      ensures Handed(asked, pieces, fed)
    {
      var n, buf := InFunc(r.len, r.wanted);
      fed := bufs + [buf];
    }

    /** outfunc: scatters one rectangle through the row pointers. */
    method OutFunc(b: Block)
      requires Valid() && Fits(b, outW, outH)
      modifies img
      ensures Painted(old(img[..]), img[..], outW, outH, b)
    {
      var r := b.rect;
      var at := 0;
      var y := r.top;
      while y <= r.bottom
        invariant y >= r.top && (y <= r.bottom || y == r.top || y == r.bottom + 1)
        invariant at == 3 * ((y - r.top) * Width(r))
        invariant Scattered(old(img[..]), img[..], outW, outH, b, r.left, y)
        decreases r.bottom + 1 - y
      {
        var x := r.left;
        while x <= r.right
          invariant r.left <= x <= r.left + Width(r)
          invariant at == 3 * ((y - r.top) * Width(r) + (x - r.left))
          invariant Scattered(old(img[..]), img[..], outW, outH, b, x, y)
          decreases r.right + 1 - x
        {
          OffsetInBounds(b, outW, outH, x, y);
          AtInBounds(outW, outH, x, y);
          ghost var now := img[..];
          img[rows[y] + x] := Pack(b.rgb[at], b.rgb[at + 1], b.rgb[at + 2]);
          ScatterOne(old(img[..]), now, img[..], outW, outH, b, x, y);
          at := at + 3;
          x := x + 1;
        }
        ScatterRow(old(img[..]), img[..], outW, outH, b, x, y);
        assert (y + 1 - r.top) * Width(r) == (y - r.top) * Width(r) + Width(r);
        y := y + 1;
      }
      ScatterEnd(old(img[..]), img[..], outW, outH, b, r.left, y);
    }

    /** A rectangle put out over an image that shows those before it. */
    method PutOut(b: Block, ghost before: seq<Pixel>)
      requires Valid() && Showing(before) && Fits(b, outW, outH)
      modifies img, `put
      ensures Showing(before) && put == old(put) + [b]
    {
      ghost var mid := img[..];
      OutFunc(b);
      DrawOneMore(before, mid, img[..], outW, outH, put, b);
      put := put + [b];
    }

    /** One step of the decoder. */
    method DecodeStep(step: Work, bufs: seq<seq<bv8>>, ghost before: seq<Pixel>) returns (fed: seq<seq<bv8>>)
      requires Valid() && Reading() && Handed(asked, pieces, bufs) && Showing(before)
      requires step.Input? ==> inPos + step.request.len <= |inData|
      requires step.Output? ==> Fits(step.block, outW, outH)
      modifies this, img
      ensures Reading() && Handed(asked, pieces, fed) && Showing(before)
      ensures asked == old(asked) + Reads(step) && put == old(put) + Puts(step)
    {
      match step {
        case Input(request) =>
          fed := Feed(request, bufs);
        case Output(block) =>
          PutOut(block, before);
          fed := bufs;
      }
    }
  }

  // ---------------------------------------------------------------- whole images

  /** What the decoder does while it decodes. */
  datatype Work = Input(request: Request) | Output(block: Block)

  function Reads(step: Work): seq<Request> {
    if step.Input? then [step.request] else []
  }

  function Puts(step: Work): seq<Block> {
    if step.Output? then [step.block] else []
  }

  /** What the first `n` steps read. */
  function Requests(work: seq<Work>, n: nat): seq<Request>
    requires n <= |work|
  {
    if n == 0 then [] else Requests(work, n - 1) + Reads(work[n - 1])
  }

  /** What the first `n` steps put out. */
  function Blocks(work: seq<Work>, n: nat): seq<Block>
    requires n <= |work|
  {
    if n == 0 then [] else Blocks(work, n - 1) + Puts(work[n - 1])
  }

  /** The rectangle of every step fits. */
  lemma {:induction false} PutFits(work: seq<Work>, i: nat, n: nat, w: nat, h: nat)
    requires i < n <= |work| && AllFit(Blocks(work, n), w, h)
    ensures work[i].Output? ==> Fits(work[i].block, w, h)
    decreases n
  {
    var before, last := Blocks(work, n - 1), work[n - 1];
    if i < n - 1 {
      FitPrefix(before, Puts(last), w, h);
      PutFits(work, i, n - 1, w, h);
    } else if last.Output? {
      assert (before + [last.block])[|before|] == last.block;
    }
  }

  /** What some steps read is among what they and later ones read. */
  lemma {:induction false} ReadsUpTo(work: seq<Work>, i: nat, n: nat)
    requires i <= n <= |work|
    ensures Total(Requests(work, i)) <= Total(Requests(work, n))
    decreases n
  {
    if i < n {
      TotalConcat(Requests(work, n - 1), Reads(work[n - 1]));
      ReadsUpTo(work, i, n - 1);
    }
  }

  /** How many of the first `n` steps are rectangles put out. */
  function Outputs(work: seq<Work>, n: nat): nat
    requires n <= |work|
  {
    if n == 0 then 0 else Outputs(work, n - 1) + (if work[n - 1].Output? then 1 else 0)
  }

  /** What is read and put out is what the steps say: each output is one block, in order, each
      input one request. */
  lemma {:induction false} StepsAreBlocksAndRequests(work: seq<Work>, i: nat, n: nat)
    requires i < n <= |work|
    ensures |Blocks(work, n)| == Outputs(work, n) && |Requests(work, n)| == n - Outputs(work, n)
    ensures work[i].Output? ==>
              Outputs(work, i) < |Blocks(work, n)| && Blocks(work, n)[Outputs(work, i)] == work[i].block
    ensures work[i].Input? ==>
              && 0 <= i - Outputs(work, i) < |Requests(work, n)|
              && Requests(work, n)[i - Outputs(work, i)] == work[i].request
    decreases n
  {
    if n > 1 {
      StepsAreBlocksAndRequests(work, if i < n - 1 then i else 0, n - 1);
    }
  }

  lemma FitPrefix(blocks: seq<Block>, more: seq<Block>, w: nat, h: nat)
    requires AllFit(blocks + more, w, h)
    ensures AllFit(blocks, w, h)
  {
    assert forall k :: 0 <= k < |blocks| ==> (blocks + more)[k] == blocks[k];
  }

  lemma {:induction false} TotalConcat(xs: seq<Request>, ys: seq<Request>)
    ensures Total(xs + ys) == Total(xs) + Total(ys)
  {
    if ys == [] {
      assert xs + ys == xs;
    } else {
      TotalConcat(xs, ys[..|ys| - 1]);
      assert (xs + ys)[..|xs + ys| - 1] == xs + ys[..|ys| - 1];
    }
  }

  lemma TotalOfPrefix(header: seq<Request>, k: nat)
    requires k <= |header|
    ensures Total(header[..k]) <= Total(header)
  {
    TotalConcat(header[..k], header[k..]);
    assert header[..k] + header[k..] == header;
  }

  lemma TotalOneMore(requests: seq<Request>, r: Request)
    ensures Total(requests + [r]) == Total(requests) + r.len
  {
    assert (requests + [r])[..|requests|] == requests;
  }

  lemma HeaderStep(header: seq<Request>, k: nat)
    requires k < |header|
    ensures header[..k + 1] == header[..k] + [header[k]]
    ensures Total(header[..k + 1]) == Total(header[..k]) + header[k].len <= Total(header)
  {
    TotalOneMore(header[..k], header[k]);
    TotalOfPrefix(header, k + 1);
  }

  /** jd_prepare, as far as its reads go. */
  method Prepare(jd: JpegDev, header: seq<Request>) returns (fed: seq<seq<bv8>>)
    requires jd.Reading() && jd.asked == [] && jd.inPos == 0 && Total(header) <= |jd.inData|
    modifies jd`inPos, jd`asked, jd`pieces
    ensures jd.Reading() && jd.asked == header && jd.inPos == Total(header)
    ensures Handed(jd.asked, jd.pieces, fed)
  {
    fed := [];
    for k := 0 to |header|
      invariant jd.Reading() && jd.asked == header[..k] && jd.inPos == Total(header[..k])
      invariant Handed(jd.asked, jd.pieces, fed)
    {
      HeaderStep(header, k);
      fed := jd.Feed(header[k], fed);
    }
    assert header[..|header|] == header;
  }

  lemma ConsumedLength(data: seq<bv8>, requests: seq<Request>, pieces: seq<seq<bv8>>, pos: nat)
    requires Consumed(data, requests, pieces, pos)
    ensures pos == Total(requests)
  {
    FlattenedLength(requests, pieces);
  }

  /** The bytes the next step asks for are there. */
  lemma StepHasRoom(data: seq<bv8>, header: seq<Request>, work: seq<Work>, i: nat)
    requires i < |work| && Total(header) + Total(Requests(work, |work|)) <= |data|
    ensures Total(header + Requests(work, i)) + Total(Reads(work[i])) <= |data|
  {
    TotalConcat(header, Requests(work, i));
    TotalConcat(Requests(work, i), Reads(work[i]));
    ReadsUpTo(work, i + 1, |work|);
  }

  /** The next step can be taken, and what is read and put out grows by its share. */
  lemma StepFits(data: seq<bv8>, header: seq<Request>, work: seq<Work>, i: nat, w: nat, h: nat,
                 pieces: seq<seq<bv8>>, pos: nat)
    requires i < |work| && AllFit(Blocks(work, |work|), w, h)
    requires Total(header) + Total(Requests(work, |work|)) <= |data|
    requires Consumed(data, header + Requests(work, i), pieces, pos)
    ensures work[i].Output? ==> Fits(work[i].block, w, h)
    ensures work[i].Input? ==> pos + work[i].request.len <= |data|
    ensures header + Requests(work, i + 1) == (header + Requests(work, i)) + Reads(work[i])
    ensures Blocks(work, i + 1) == Blocks(work, i) + Puts(work[i])
  {
    PutFits(work, i, |work|, w, h);
    ConsumedLength(data, header + Requests(work, i), pieces, pos);
    StepHasRoom(data, header, work, i);
    TotalOne(work[i]);
    Associative(header, Requests(work, i), Reads(work[i]));
  }

  lemma TotalOne(step: Work)
    ensures Total(Reads(step)) == if step.Input? then step.request.len else 0
  {
    if step.Input? {
      assert [step.request][..0] == [];
    }
  }

  /** The decoder stands after `n` steps of its work. */
  ghost predicate Decoding(jd: JpegDev, header: seq<Request>, work: seq<Work>, n: nat, fed: seq<seq<bv8>>,
                           before: seq<Pixel>)
    requires n <= |work|
    reads jd, jd.img
  {
    && jd.Reading() && Handed(jd.asked, jd.pieces, fed) && jd.Showing(before)
    && jd.asked == header + Requests(work, n) && jd.put == Blocks(work, n)
  }

  /** jd_decomp takes one more step. */
  method DecodeNext(jd: JpegDev, header: seq<Request>, work: seq<Work>, n: nat, bufs: seq<seq<bv8>>,
                    ghost before: seq<Pixel>)
    returns (fed: seq<seq<bv8>>)
    requires n < |work| && jd.Valid() && Decoding(jd, header, work, n, bufs, before)
    requires AllFit(Blocks(work, |work|), jd.outW, jd.outH)
    requires Total(header) + Total(Requests(work, |work|)) <= |jd.inData|
    modifies jd, jd.img
    ensures Decoding(jd, header, work, n + 1, fed, before)
  {
    StepFits(jd.inData, header, work, n, jd.outW, jd.outH, jd.pieces, jd.inPos);
    fed := jd.DecodeStep(work[n], bufs, before);
  }

  /** jd_decomp, after the header: reads and rectangles in any order. */
  method Decompress(jd: JpegDev, header: seq<Request>, work: seq<Work>, bufs: seq<seq<bv8>>)
    returns (fed: seq<seq<bv8>>)
    requires jd.Valid() && jd.Reading() && Handed(jd.asked, jd.pieces, bufs)
    requires jd.asked == header && jd.put == []
    requires AllFit(Blocks(work, |work|), jd.outW, jd.outH)
    requires Total(header) + Total(Requests(work, |work|)) <= |jd.inData|
    modifies jd, jd.img
    ensures Decoding(jd, header, work, |work|, fed, old(jd.img[..]))
  {
    NothingDrawn(jd.img[..], jd.outW, jd.outH);
    fed := bufs;
    for i := 0 to |work|
      invariant Decoding(jd, header, work, i, fed, old(jd.img[..]))
    {
      fed := DecodeNext(jd, header, work, i, fed, old(jd.img[..]));
    }
  }

  /**
   std_decode_image. The decoder is seen through what it does: whether the workspace could be
   allocated, what it reads for the header and whether that parsed, what it then reads and puts
   out, and whether it finished. `fed` is what it was given to read.
   */
  method DecodeImage(w: nat, h: nat, jpeg: seq<bv8>, img: array<Pixel>, memory: bool,
                     header: seq<Request>, prepared: bool, work: seq<Work>, decoded: bool)
    returns (status: Status, fed: seq<seq<bv8>>, ghost pieces: seq<seq<bv8>>)
    requires img.Length >= w * h && AllFit(Blocks(work, |work|), w, h)
    requires Total(header) + Total(Requests(work, |work|)) <= |jpeg|
    modifies img
    ensures status == if !memory then ESP_ERR_NO_MEM else if prepared && decoded then ESP_OK else ESP_ERR_NOT_SUPPORTED
    ensures memory && prepared ==> Drawn(old(img[..]), img[..], w, h, Blocks(work, |work|))
    ensures !memory || !prepared ==> img[..] == old(img[..])
    ensures var requests := if !memory then []
                            else if !prepared then header
                            else header + Requests(work, |work|);
            Consumed(jpeg, requests, pieces, Total(requests)) && Handed(requests, pieces, fed)
  {
    var jd := new JpegDev(w, h, jpeg, img);
    fed, pieces := [], [];
    if !memory {
      return ESP_ERR_NO_MEM, fed, pieces;
    }
    fed := Prepare(jd, header);
    if !prepared {
      return ESP_ERR_NOT_SUPPORTED, fed, jd.pieces;
    }
    fed := Decompress(jd, header, work, fed);
    ConsumedLength(jpeg, jd.asked, jd.pieces, jd.inPos);
    pieces := jd.pieces;
    status := if decoded then ESP_OK else ESP_ERR_NOT_SUPPORTED;
  }

  /** No pixel lies in two blocks. */
  ghost predicate Disjoint(blocks: seq<Block>) {
    forall j, k, x: nat, y: nat :: 0 <= j < k < |blocks| ==>
      !(Covers(blocks[j].rect, x, y) && Covers(blocks[k].rect, x, y))
  }

  ghost predicate InSome(blocks: seq<Block>, x: nat, y: nat) {
    exists k :: 0 <= k < |blocks| &&
      blocks[k].rect.left <= x <= blocks[k].rect.right && blocks[k].rect.top <= y <= blocks[k].rect.bottom
  }

  /** Every pixel lies in some block. */
  ghost predicate Full(blocks: seq<Block>, w: nat, h: nat) {
    forall x: nat, y: nat :: x < w && y < h ==> InSome(blocks, x, y)
  }

  lemma {:induction false} ShownInItsBlock(blocks: seq<Block>, w: nat, h: nat, x: nat, y: nat, was: Pixel, k: nat)
    requires AllFit(blocks, w, h) && Disjoint(blocks) && k < |blocks| && Covers(blocks[k].rect, x, y)
    ensures Shown(blocks, w, h, x, y, was) == PixelOf(blocks[k], w, h, x, y)
  {
    var last := |blocks| - 1;
    if k < last {
      assert !(Covers(blocks[k].rect, x, y) && Covers(blocks[last].rect, x, y));
      ShownInItsBlock(blocks[..last], w, h, x, y, was, k);
    }
  }

  /** The order of the blocks, and what the buffer held, make no difference to a pixel of a block. */
  lemma ShownInAnyOrder(blocks: seq<Block>, blocks': seq<Block>, w: nat, h: nat, x: nat, y: nat,
                        was: Pixel, was': Pixel)
    requires AllFit(blocks, w, h) && AllFit(blocks', w, h) && Disjoint(blocks) && Disjoint(blocks')
    requires multiset(blocks) == multiset(blocks') && InSome(blocks, x, y)
    ensures Shown(blocks, w, h, x, y, was) == Shown(blocks', w, h, x, y, was')
  {
    var k :| 0 <= k < |blocks| && Covers(blocks[k].rect, x, y);
    ShownInItsBlock(blocks, w, h, x, y, was, k);
    assert blocks[k] in multiset(blocks');
    var k' :| 0 <= k' < |blocks'| && blocks'[k'] == blocks[k];
    ShownInItsBlock(blocks', w, h, x, y, was', k');
  }

  /** When the blocks tile the image, every pixel of the buffer is the packed pixel of the one
      block it lies in. */
  lemma TilesFillTheImage(before: seq<Pixel>, after: seq<Pixel>, w: nat, h: nat, blocks: seq<Block>)
    requires |before| >= w * h && AllFit(blocks, w, h) && Disjoint(blocks) && Full(blocks, w, h)
    requires Drawn(before, after, w, h, blocks)
    ensures forall x: nat, y: nat :: x < w && y < h ==> InSome(blocks, x, y)
    ensures forall x: nat, y: nat, k :: x < w && y < h && 0 <= k < |blocks| && Covers(blocks[k].rect, x, y) ==>
              Cell(after, w, h, x, y) == PixelOf(blocks[k], w, h, x, y)
  {
    forall x: nat, y: nat, k | x < w && y < h && 0 <= k < |blocks| && Covers(blocks[k].rect, x, y)
      ensures Cell(after, w, h, x, y) == PixelOf(blocks[k], w, h, x, y)
    {
      ShownInItsBlock(blocks, w, h, x, y, Cell(before, w, h, x, y), k);
    }
  }

  /** Two decoders that put out the same tiles in different orders, over different buffers, leave
      the same image. */
  lemma TileOrderDoesNotMatter(before: seq<Pixel>, after: seq<Pixel>, before': seq<Pixel>, after': seq<Pixel>,
                               w: nat, h: nat, blocks: seq<Block>, blocks': seq<Block>)
    requires |before| >= w * h && |before'| >= w * h
    requires AllFit(blocks, w, h) && AllFit(blocks', w, h)
    requires Disjoint(blocks) && Disjoint(blocks') && Full(blocks, w, h)
    requires multiset(blocks) == multiset(blocks')
    requires Drawn(before, after, w, h, blocks) && Drawn(before', after', w, h, blocks')
    ensures forall x: nat, y: nat :: x < w && y < h ==> Cell(after, w, h, x, y) == Cell(after', w, h, x, y)
  {
    forall x: nat, y: nat | x < w && y < h
      ensures Cell(after, w, h, x, y) == Cell(after', w, h, x, y)
    {
      ShownInAnyOrder(blocks, blocks', w, h, x, y, Cell(before, w, h, x, y), Cell(before', w, h, x, y));
    }
  }

  /** The three channels of a pixel of the encoded picture. */
  datatype Rgb = Rgb(r: Channel, g: Channel, b: Channel)

  /** The block carries the picture's pixels row by row, red, green and blue bytes in turn. */
  ghost predicate Carries(b: Block, w: nat, h: nat, picture: (nat, nat) -> Rgb)
    requires Fits(b, w, h)
  {
    forall x: nat, y: nat :: Covers(b.rect, x, y) ==>
      (OffsetInBounds(b, w, h, x, y);
       OffsetFollowsScan(b.rect, x, y);
       var at := 3 * ((y - b.rect.top) * (b.rect.right - b.rect.left + 1) + (x - b.rect.left));
       picture(x, y) == Rgb(b.rgb[at], b.rgb[at + 1], b.rgb[at + 2]))
  }

  lemma {:induction false} ShownIsPicture(blocks: seq<Block>, w: nat, h: nat, x: nat, y: nat, was: Pixel,
                                          picture: (nat, nat) -> Rgb, k: nat)
    requires AllFit(blocks, w, h) && k < |blocks| && Covers(blocks[k].rect, x, y)
    requires forall j :: 0 <= j < |blocks| ==> Carries(blocks[j], w, h, picture)
    ensures Shown(blocks, w, h, x, y, was) == Pack(picture(x, y).r, picture(x, y).g, picture(x, y).b)
  {
    var last := |blocks| - 1;
    if !Covers(blocks[last].rect, x, y) {
      ShownIsPicture(blocks[..last], w, h, x, y, was, picture, k);
    }
  }

  /** The packed pixel keeps the top bits of each channel and loses less than 8, 4 and 8. */
  ghost predicate Shows(v: Pixel, p: Rgb) {
    && v == Pack(p.r, p.g, p.b)
    && v >> 11 == p.r >> 3 && (v >> 5) & 0x3F == p.g >> 2 && v & 0x1F == p.b >> 3
    && p.r - (Red(v) << 3) < 8 && p.g - (Green(v) << 2) < 4 && p.b - (Blue(v) << 3) < 8
  }

  lemma PackShows(p: Rgb)
    ensures Shows(Pack(p.r, p.g, p.b), p)
  {
    PackKeepsTopBits(p.r, p.g, p.b);
    ExpandedIsClose(p.r, p.g, p.b);
  }

  /** When the blocks carry one picture and leave no pixel out, the buffer shows that picture. */
  lemma BufferShowsThePicture(before: seq<Pixel>, after: seq<Pixel>, w: nat, h: nat, blocks: seq<Block>,
                              picture: (nat, nat) -> Rgb)
    requires |before| >= w * h && AllFit(blocks, w, h) && Full(blocks, w, h)
    requires forall j :: 0 <= j < |blocks| ==> Carries(blocks[j], w, h, picture)
    requires Drawn(before, after, w, h, blocks)
    ensures forall x: nat, y: nat :: x < w && y < h ==> Shows(Cell(after, w, h, x, y), picture(x, y))
  {
    forall x: nat, y: nat | x < w && y < h
      ensures Shows(Cell(after, w, h, x, y), picture(x, y))
    {
      assert InSome(blocks, x, y);
      var k :| 0 <= k < |blocks| && Covers(blocks[k].rect, x, y);
      ShownIsPicture(blocks, w, h, x, y, Cell(before, w, h, x, y), picture, k);
      PackShows(picture(x, y));
    }
  }

  /** The same for one pixel, in the numbers of the buffer. */
  lemma PictureAt(before: seq<Pixel>, after: seq<Pixel>, w: nat, h: nat, blocks: seq<Block>,
                  picture: (nat, nat) -> Rgb, x: nat, y: nat)
    requires |before| >= w * h && AllFit(blocks, w, h) && Full(blocks, w, h) && x < w && y < h
    requires forall j :: 0 <= j < |blocks| ==> Carries(blocks[j], w, h, picture)
    requires Drawn(before, after, w, h, blocks)
    ensures y * w + x < |after|
    ensures var v, p := after[y * w + x], picture(x, y);
            v >> 11 == p.r >> 3 && (v >> 5) & 0x3F == p.g >> 2 && v & 0x1F == p.b >> 3
  {
    AtInBounds(w, h, x, y);
    BufferShowsThePicture(before, after, w, h, blocks, picture);
    assert Shows(Cell(after, w, h, x, y), picture(x, y));
  }
}
