/**
 The way of a plane: packed by the server, compressed, and copied by the client into a frame buffer with a stride of
 its own. The compressor is a parameter with the law that decompression undoes it.
 */
module Planes {
  import opened Wire

  // ----- Layout

  /** Where row `r` starts when rows are `step` bytes apart: r * step, as a moving pointer reaches it. */
  function RowStart(r: nat, step: nat): nat {
    if r == 0 then 0 else RowStart(r - 1, step) + step
  }

  lemma {:induction false} RowStartIsProduct(r: nat, step: nat)
    ensures RowStart(r, step) == r * step
  {
    if r > 0 {
      RowStartIsProduct(r - 1, step);
      assert r * step == (r - 1) * step + step;
    }
  }

  lemma {:induction false} RowsInOrder(q: nat, r: nat, step: nat)
    requires q < r
    ensures RowStart(q, step) + step <= RowStart(r, step)
    decreases r
  {
    if q < r - 1 {
      RowsInOrder(q, r - 1, step);
    }
  }

  /** `height` rows of `row` bytes, `stride` apart, lie inside a buffer of `length` bytes. */
  predicate Fits(length: nat, row: nat, height: nat, stride: nat) {
    height == 0 || RowStart(height - 1, stride) + row <= length
  }

  lemma RowFits(length: nat, row: nat, height: nat, stride: nat, r: nat)
    requires Fits(length, row, height, stride) && r < height
    ensures RowStart(r, stride) + row <= length
    ensures Fits(length, row, r, stride)
  {
    RowEndsInside(length, row, height, stride, r);
    if r > 0 {
      RowEndsInside(length, row, height, stride, r - 1);
    }
  }

  lemma RowEndsInside(length: nat, row: nat, height: nat, stride: nat, r: nat)
    requires r < height && RowStart(height - 1, stride) + row <= length
    ensures RowStart(r, stride) + row <= length
  {
    if r < height - 1 {
      RowsInOrder(r, height - 1, stride);
    }
  }

  /** One plane in memory: rows of width * bps bytes, `stride` bytes apart. */
  datatype Plane = Plane(data: Bytes, width: nat, height: nat, bps: nat, stride: nat) {
    /** width * bps, see `RowStartIsProduct`. */
    function RowSize(): nat {
      RowStart(width, bps)
    }

    /** height * width * bps. */
    function NBytes(): nat {
      RowStart(height, RowSize())
    }

    predicate WellFormed() {
      RowSize() <= stride && Fits(|data|, RowSize(), height, stride)
    }
  }

  /** `count` bytes from position `from` on. */
  function Piece(s: Bytes, from: nat, count: nat): (piece: Bytes)
    requires from + count <= |s|
    ensures |piece| == count
  {
    seq(count, c requires 0 <= c < count => s[from + c])
  }

  // ----- The server: packing

  /** The first `rows` rows, one behind the other. */
  function PackedRows(data: Bytes, row: nat, stride: nat, rows: nat): (packed: Bytes)
    requires Fits(|data|, row, rows, stride)
    ensures |packed| == RowStart(rows, row)
  {
    if rows == 0 then []
    else
      RowFits(|data|, row, rows, stride, rows - 1);
      PackedRows(data, row, stride, rows - 1) + Piece(data, RowStart(rows - 1, stride), row)
  }

  lemma {:induction false} ContiguousRows(data: Bytes, row: nat, rows: nat)
    requires Fits(|data|, row, rows, row)
    ensures RowStart(rows, row) <= |data| && PackedRows(data, row, row, rows) == Piece(data, 0, RowStart(rows, row))
  {
    if rows > 0 {
      RowFits(|data|, row, rows, row, rows - 1);
      ContiguousRows(data, row, rows - 1);
    }
  }

  lemma {:induction false} PackedRowsAt(data: Bytes, row: nat, stride: nat, rows: nat, r: nat, c: nat)
    requires Fits(|data|, row, rows, stride) && r < rows && c < row
    ensures RowStart(r, row) + c < |PackedRows(data, row, stride, rows)|
    ensures RowStart(r, stride) + c < |data|
    ensures PackedRows(data, row, stride, rows)[RowStart(r, row) + c] == data[RowStart(r, stride) + c]
    decreases rows
  {
    RowFits(|data|, row, rows, stride, rows - 1);
    if r < rows - 1 {
      PackedRowsAt(data, row, stride, rows - 1, r, c);
    }
  }

  /** A contiguous plane is taken as it is, any other is flattened row by row. */
  function Packed(p: Plane): (packed: Bytes)
    requires p.WellFormed()
    ensures |packed| == RowStart(p.height, p.RowSize())
    ensures packed == PackedRows(p.data, p.RowSize(), p.stride, p.height)
  {
    if p.stride == p.RowSize() then
      ContiguousRows(p.data, p.RowSize(), p.height);
      Piece(p.data, 0, RowStart(p.height, p.RowSize()))
    else
      PackedRows(p.data, p.RowSize(), p.stride, p.height)
  }

  datatype Compression = Plain | Zstd

  datatype Codec = Codec(compress: Bytes -> Bytes, decompress: Bytes -> Bytes) {
    ghost predicate Lawful() {
      forall b :: decompress(compress(b)) == b
    }

    function Pack(b: Bytes, mode: Compression): Bytes {
      if mode.Zstd? then compress(b) else b
    }

    function Unpack(b: Bytes, mode: Compression): Bytes {
      if mode.Zstd? then decompress(b) else b
    }
  }

  /** The sizes the planes have in memory, padding not counted. */
  function TotalSize(planes: seq<Plane>): nat {
    if planes == [] then 0 else planes[0].NBytes() + TotalSize(planes[1..])
  }

  lemma SizeFrom(planes: seq<Plane>, k: nat)
    requires k < |planes|
    ensures TotalSize(planes[k..]) == planes[k].NBytes() + TotalSize(planes[k + 1..])
  {
    assert planes[k..][1..] == planes[k + 1..];
  }

  /** The part sent for a packed plane: the bytes themselves, or what the compressor makes of them. */
  predicate IsPart(part: Bytes, packed: Bytes, codec: Codec, mode: Compression) {
    (mode.Plain? ==> part == packed) && (mode.Zstd? ==> part == codec.compress(packed))
  }

  /** Sizes add up, and each is that of the samples. */
  lemma {:induction false} TotalSizeAdds(a: seq<Plane>, b: seq<Plane>, p: Plane)
    ensures TotalSize(a + b) == TotalSize(a) + TotalSize(b)
    ensures TotalSize([p]) == p.height * (p.width * p.bps)
    decreases |a|
  {
    RowStartIsProduct(p.width, p.bps);
    RowStartIsProduct(p.height, p.RowSize());
    if a == [] {
      assert a + b == b;
    } else {
      assert (a + b)[1..] == a[1..] + b;
      TotalSizeAdds(a[1..], b, p);
    }
  }

  /** `_extract_and_compress_planes`. */
  method ExtractPlanes(planes: seq<Plane>, codec: Codec, mode: Compression) returns (parts: seq<Bytes>, size: nat)
    requires forall k | 0 <= k < |planes| :: planes[k].WellFormed()
    ensures |parts| == |planes|
    ensures forall k | 0 <= k < |planes| :: IsPart(parts[k], Packed(planes[k]), codec, mode)
    ensures size == TotalSize(planes)
  {
    parts, size := [], 0;
    var k := 0;
    while k < |planes|
      invariant |parts| == k <= |planes|
      invariant size + TotalSize(planes[k..]) == TotalSize(planes)
      invariant forall j | 0 <= j < k :: IsPart(parts[j], Packed(planes[j]), codec, mode)
    {
      var plane := planes[k];
      SizeFrom(planes, k);
      size := size + plane.NBytes();
      if mode.Plain? {
        parts := parts + [Packed(plane)];
      } else {
        parts := parts + [codec.compress(Packed(plane))];
      }
      k := k + 1;
    }
  }

  // ----- The client: copying into the frame buffer

  function Put(d: Bytes, at: nat, piece: Bytes): (r: Bytes)
    requires at + |piece| <= |d|
    ensures |r| == |d|
  {
    seq(|d|, i requires 0 <= i < |d| => if at <= i < at + |piece| then piece[i - at] else d[i])
  }

  lemma PutInside(d: Bytes, at: nat, piece: Bytes, c: nat)
    requires at + |piece| <= |d| && c < |piece|
    ensures Put(d, at, piece)[at + c] == piece[c]
  {}

  lemma PutOutside(d: Bytes, at: nat, piece: Bytes, i: nat)
    requires at + |piece| <= |d| && i < |d| && !(at <= i < at + |piece|)
    ensures Put(d, at, piece)[i] == d[i]
  {}

  /** The buffer after `height` rows have been copied. */
  function Blit(d: Bytes, src: Bytes, row: nat, height: nat, stride: nat): (r: Bytes)
    requires Fits(|d|, row, height, stride) && RowStart(height, row) <= |src|
    ensures |r| == |d|
    decreases height
  {
    if height == 0 then d
    else
      var last := height - 1;
      RowFits(|d|, row, height, stride, last);
      Put(Blit(d, src, row, last, stride), RowStart(last, stride), Piece(src, RowStart(last, row), row))
  }

  lemma BlitUnfolds(d: Bytes, src: Bytes, row: nat, r: nat, stride: nat)
    requires Fits(|d|, row, r + 1, stride) && RowStart(r + 1, row) <= |src|
    ensures Fits(|d|, row, r, stride) && RowStart(r, stride) + row <= |d| && RowStart(r, row) + row <= |src|
    ensures Blit(d, src, row, r + 1, stride)
            == Put(Blit(d, src, row, r, stride), RowStart(r, stride), Piece(src, RowStart(r, row), row))
  {
    RowFits(|d|, row, r + 1, stride, r);
  }

  /** The row copied last is there. */
  lemma BlitLastInside(d: Bytes, src: Bytes, row: nat, r: nat, stride: nat, c: nat)
    requires Fits(|d|, row, r + 1, stride) && RowStart(r + 1, row) <= |src| && c < row
    ensures Blit(d, src, row, r + 1, stride)[RowStart(r, stride) + c] == src[RowStart(r, row) + c]
  {
    BlitUnfolds(d, src, row, r, stride);
    PutInside(Blit(d, src, row, r, stride), RowStart(r, stride), Piece(src, RowStart(r, row), row), c);
  }

  /** Outside of it everything is as before. */
  lemma BlitLastOutside(d: Bytes, src: Bytes, row: nat, r: nat, stride: nat, i: nat)
    requires Fits(|d|, row, r + 1, stride) && RowStart(r + 1, row) <= |src|
    requires i < |d| && !InRow(row, stride, r, i)
    ensures Fits(|d|, row, r, stride)
    ensures Blit(d, src, row, r + 1, stride)[i] == Blit(d, src, row, r, stride)[i]
  {
    BlitUnfolds(d, src, row, r, stride);
    PutOutside(Blit(d, src, row, r, stride), RowStart(r, stride), Piece(src, RowStart(r, row), row), i);
  }

  predicate InRow(row: nat, stride: nat, r: nat, i: nat) {
    RowStart(r, stride) <= i < RowStart(r, stride) + row
  }

  /** Where byte `c` of row `r` is, on both sides. */
  lemma BytePositions(dLength: nat, sLength: nat, row: nat, height: nat, stride: nat, r: nat, c: nat)
    requires Fits(dLength, row, height, stride) && RowStart(height, row) <= sLength && r < height && c < row
    ensures RowStart(r, stride) + c < dLength && RowStart(r, row) + c < sLength
  {
    RowFits(dLength, row, height, stride, r);
    RowsInOrder(r, height, row);
  }

  /** Byte `c` of row `r` of the buffer comes from byte `c` of row `r` of the packed plane. */
  lemma {:induction false} BlitInside(d: Bytes, src: Bytes, row: nat, height: nat, stride: nat, r: nat, c: nat)
    requires Fits(|d|, row, height, stride) && row <= stride && RowStart(height, row) <= |src|
    requires r < height && c < row
    ensures RowStart(r, stride) + c < |d| && RowStart(r, row) + c < |src|
    ensures Blit(d, src, row, height, stride)[RowStart(r, stride) + c] == src[RowStart(r, row) + c]
    decreases height
  {
    BytePositions(|d|, |src|, row, height, stride, r, c);
    if r + 1 == height {
      BlitLastInside(d, src, row, r, stride, c);
    } else {
      var last := height - 1;
      RowsInOrder(r, last, stride);
      BlitLastOutside(d, src, row, last, stride, RowStart(r, stride) + c);
      BlitInside(d, src, row, last, stride, r, c);
    }
  }

  /** Everything else, row padding included, stays as it was. */
  lemma {:induction false} BlitOutside(d: Bytes, src: Bytes, row: nat, height: nat, stride: nat, i: nat)
    requires Fits(|d|, row, height, stride) && RowStart(height, row) <= |src|
    requires i < |d| && forall r: nat | r < height :: !InRow(row, stride, r, i)
    ensures Blit(d, src, row, height, stride)[i] == d[i]
    decreases height
  {
    if height > 0 {
      var last := height - 1;
      BlitLastOutside(d, src, row, last, stride, i);
      BlitOutside(d, src, row, last, stride, i);
    }
  }

  /** When the stride is the row size, one block copy does what the row loop does. */
  lemma {:induction false} BlockIsRows(d: Bytes, src: Bytes, row: nat, height: nat)
    requires Fits(|d|, row, height, row) && RowStart(height, row) <= |src| && height > 0
    ensures RowStart(height, row) <= |d|
    ensures Blit(d, src, row, height, row) == Put(d, 0, Piece(src, 0, RowStart(height, row)))
    decreases height
  {
    var last := height - 1;
    RowFits(|d|, row, height, row, last);
    var first := RowStart(last, row);
    assert Blit(d, src, row, last, row) == Put(d, 0, Piece(src, 0, first)) by {
      if last > 0 {
        BlockIsRows(d, src, row, last);
      }
    }
    assert Blit(d, src, row, height, row) == Put(Put(d, 0, Piece(src, 0, first)), first, Piece(src, first, row));
    PutTwice(d, src, first, row);
  }

  lemma PutTwice(d: Bytes, src: Bytes, first: nat, more: nat)
    requires first + more <= |src| && first + more <= |d|
    ensures Put(Put(d, 0, Piece(src, 0, first)), first, Piece(src, first, more))
            == Put(d, 0, Piece(src, 0, first + more))
  {}

  /** `copy_nonoverlapping`. */
  method CopyBytes(dst: array<Byte>, at: nat, src: Bytes, from: nat, count: nat)
    requires at + count <= dst.Length && from + count <= |src|
    modifies dst
    ensures dst[..] == Put(old(dst[..]), at, Piece(src, from, count))
  {
    var k := 0;
    while k < count
      invariant k <= count
      invariant forall j | at <= j < at + k :: dst[j] == src[j - at + from]
      invariant forall j | 0 <= j < dst.Length && !(at <= j < at + k) :: dst[j] == old(dst[j])
    {
      dst[at + k] := src[from + k];
      k := k + 1;
    }
    assert dst[..] == Put(old(dst[..]), at, Piece(src, from, count));
  }

  /** `copy_plane`: a null destination raises, otherwise it copies in one block or row by row. */
  method CopyPlane(dst: array?<Byte>, decompressed: Bytes, width: nat, height: nat, bps: nat, stride: nat)
    returns (ok: bool)
    requires RowStart(height, width * bps) <= |decompressed|
    requires dst != null ==> Fits(dst.Length, width * bps, height, stride)
    modifies dst
    ensures ok <==> dst != null
    ensures ok ==> dst[..] == Blit(old(dst[..]), decompressed, width * bps, height, stride)
  {
    if dst == null {
      return false;
    }
    var row := width * bps;
    if stride == row {
      CopyBlock(dst, decompressed, row, height);
    } else {
      CopyRows(dst, decompressed, row, height, stride);
    }
    return true;
  }

  /** The single block of `copy_plane`: row size times height bytes. */
  method CopyBlock(dst: array<Byte>, decompressed: Bytes, row: nat, height: nat)
    requires RowStart(height, row) <= |decompressed| && Fits(dst.Length, row, height, row)
    modifies dst
    ensures dst[..] == Blit(old(dst[..]), decompressed, row, height, row)
  {
    RowStartIsProduct(height, row);
    if height > 0 {
      BlockIsRows(dst[..], decompressed, row, height);
      CopyBytes(dst, 0, decompressed, 0, row * height);
    }
  }

  /** The row loop of `copy_plane`, with its two moving pointers. */
  method CopyRows(dst: array<Byte>, decompressed: Bytes, row: nat, height: nat, stride: nat)
    requires RowStart(height, row) <= |decompressed| && Fits(dst.Length, row, height, stride)
    modifies dst
    ensures dst[..] == Blit(old(dst[..]), decompressed, row, height, stride)
  {
    var to, src, r := 0, 0, 0;
    while r < height
      invariant r <= height
      invariant to == RowStart(r, stride) && src == RowStart(r, row) <= |decompressed|
      invariant Fits(dst.Length, row, r, stride)
      invariant dst[..] == Blit(old(dst[..]), decompressed, row, r, stride)
    {
      NextRow(dst.Length, row, height, stride, r, |decompressed|);
      BlitUnfolds(old(dst[..]), decompressed, row, r, stride);
      CopyBytes(dst, to, decompressed, src, row);
      src := src + row;
      to := to + stride;
      r := r + 1;
    }
  }

  lemma NextRow(length: nat, row: nat, height: nat, stride: nat, r: nat, available: nat)
    requires Fits(length, row, height, stride) && RowStart(height, row) <= available && r < height
    ensures RowStart(r, stride) + row <= length && Fits(length, row, r + 1, stride)
    ensures RowStart(r + 1, row) <= available
  {
    RowFits(length, row, height, stride, r);
    if r + 1 < height {
      RowsInOrder(r + 1, height, row);
    }
  }

  /** One frame on the client: every plane is decompressed and copied; a missing part raises. */
  method WritePlanes(dsts: seq<array<Byte>>, strides: seq<nat>, infos: seq<PlaneInfo>, parts: seq<Bytes>, codec: Codec,
                     mode: Compression)
    returns (ok: bool)
    requires |dsts| == |strides| == |infos|
    requires forall j, k | 0 <= j < k < |dsts| :: dsts[j] != dsts[k]
    requires forall k | 0 <= k < |dsts| && k < |parts| ::
               && Fits(dsts[k].Length, infos[k].RowSize(), infos[k].height, strides[k])
               && RowStart(infos[k].height, infos[k].RowSize()) <= |codec.Unpack(parts[k], mode)|
    modifies set k | 0 <= k < |dsts| :: dsts[k]
    ensures ok <==> |infos| <= |parts|
    ensures ok ==> forall k | 0 <= k < |dsts| ::
              dsts[k][..] == Blit(old(dsts[k][..]), codec.Unpack(parts[k], mode), infos[k].RowSize(),
                                  infos[k].height, strides[k])
  {
    var p := 0;
    while p < |infos|
      invariant p <= |infos| && p <= |parts|
      invariant forall k | p <= k < |dsts| :: dsts[k][..] == old(dsts[k][..])
      invariant forall k | 0 <= k < p ::
                  dsts[k][..] == Blit(old(dsts[k][..]), codec.Unpack(parts[k], mode), infos[k].RowSize(),
                                      infos[k].height, strides[k])
    {
      if p >= |parts| {
        return false;
      }
      RowStartIsProduct(infos[p].width, infos[p].bps);
      var copied := CopyPlane(dsts[p], codec.Unpack(parts[p], mode), infos[p].width, infos[p].height,
                              infos[p].bps, strides[p]);
      p := p + 1;
    }
    return true;
  }

  // ----- What the client knows of the planes

  datatype PlaneInfo = PlaneInfo(width: nat, height: nat, bps: nat, sizeBytes: nat) {
    /** width * bps, see `RowStartIsProduct`. */
    function RowSize(): nat {
      RowStart(width, bps)
    }
  }

  datatype Format = Format(id: nat, numPlanes: nat, bps: nat, subsamplingW: nat, subsamplingH: nat)

  function Halved(n: nat, times: nat): nat {
    if times == 0 then n else Halved(n, times - 1) / 2
  }

  /** The size of plane `p` of a clip: chroma planes are shifted down by the subsampling. */
  function PlaneInfoOf(width: nat, height: nat, f: Format, p: nat): PlaneInfo {
    var w := if p == 0 then width else Halved(width, f.subsamplingW);
    var h := if p == 0 then height else Halved(height, f.subsamplingH);
    PlaneInfo(w, h, f.bps, w * h * f.bps)
  }

  function Power2(n: nat): (p: nat)
    ensures p > 0
  {
    if n == 0 then 1 else 2 * Power2(n - 1)
  }

  lemma DoubledProduct(q: nat, d: nat)
    ensures q * (2 * d) == 2 * q * d
  {}

  lemma MonotoneProduct(a: nat, b: nat, d: nat)
    requires a <= b
    ensures a * d <= b * d
  {}

  lemma HalfStep(n: nat, h: nat, q: nat, d: nat)
    requires h * d <= n < (h + 1) * d && 2 * q <= h < 2 * (q + 1)
    ensures q * (2 * d) <= n < (q + 1) * (2 * d)
  {
    DoubledProduct(q, d);
    DoubledProduct(q + 1, d);
    MonotoneProduct(2 * q, h, d);
    MonotoneProduct(h + 1, 2 * (q + 1), d);
  }

  /** Halving repeatedly is dividing by a power of two, rounded down. */
  lemma {:induction false} HalvedIsQuotient(n: nat, times: nat)
    ensures ShiftedDown(Halved(n, times), n, times)
  {
    if times > 0 {
      HalvedIsQuotient(n, times - 1);
      HalfStep(n, Halved(n, times - 1), Halved(n, times), Power2(times - 1));
    }
  }

  /** `part` is `whole` divided by two to the `times`, rounded down. */
  predicate ShiftedDown(part: nat, whole: nat, times: nat) {
    part * Power2(times) <= whole < (part + 1) * Power2(times)
  }

  /** The first plane has the size of the clip; the others are narrower and lower by their own power of two each. */
  lemma PlaneSizes(width: nat, height: nat, f: Format, p: nat)
    ensures var info := PlaneInfoOf(width, height, f, p);
            && (p == 0 ==> info.width == width && info.height == height)
            && (p > 0 ==> ShiftedDown(info.width, width, f.subsamplingW))
            && (p > 0 ==> ShiftedDown(info.height, height, f.subsamplingH))
            && info.bps == f.bps && info.sizeBytes == info.width * info.height * info.bps
  {
    HalvedIsQuotient(width, f.subsamplingW);
    HalvedIsQuotient(height, f.subsamplingH);
  }

  /** `PlaneInfo.from_clip`: a clip of variable format has no format id and is refused. */
  method PlaneInfosOfClip(width: nat, height: nat, f: Format) returns (planes: Option<seq<PlaneInfo>>)
    ensures planes.Some? <==> f.id != 0
    ensures planes.Some? ==>
              && |planes.value| == f.numPlanes
              && forall p | 0 <= p < f.numPlanes :: planes.value[p] == PlaneInfoOf(width, height, f, p)
  {
    if f.id == 0 {
      return None;
    }
    var infos := [];
    var p := 0;
    while p < f.numPlanes
      invariant |infos| == p <= f.numPlanes
      invariant forall q | 0 <= q < p :: infos[q] == PlaneInfoOf(width, height, f, q)
    {
      var w, h;
      if p == 0 {
        w, h := width, height;
      } else {
        w, h := Halved(width, f.subsamplingW), Halved(height, f.subsamplingH);
      }
      infos := infos + [PlaneInfo(w, h, f.bps, w * h * f.bps)];
      p := p + 1;
    }
    planes := Some(infos);
  }

  // ----- The whole way

  /** The frame buffer of one plane after its bytes have travelled. */
  function Received(p: Plane, codec: Codec, mode: Compression, d: Bytes, stride: nat): Bytes
    requires p.WellFormed() && codec.Lawful() && Fits(|d|, p.RowSize(), p.height, stride)
  {
    Travels(codec, Packed(p), mode);
    Blit(d, codec.Unpack(codec.Pack(Packed(p), mode), mode), p.RowSize(), p.height, stride)
  }

  lemma Travels(codec: Codec, b: Bytes, mode: Compression)
    requires codec.Lawful()
    ensures codec.Unpack(codec.Pack(b, mode), mode) == b
  {}

  /** What arrives is the packed plane, row by row. */
  lemma ReceivedIsBlit(p: Plane, codec: Codec, mode: Compression, d: Bytes, stride: nat)
    requires p.WellFormed() && codec.Lawful() && Fits(|d|, p.RowSize(), p.height, stride)
    ensures Received(p, codec, mode, d, stride) == Blit(d, Packed(p), p.RowSize(), p.height, stride)
  {}

  lemma ReceivedIsRows(p: Plane, codec: Codec, mode: Compression, d: Bytes, stride: nat, got: Bytes)
    returns (packed: Bytes)
    requires p.WellFormed() && codec.Lawful() && Fits(|d|, p.RowSize(), p.height, stride)
    requires got == Received(p, codec, mode, d, stride)
    ensures Fits(|p.data|, p.RowSize(), p.height, p.stride) && |got| == |d|
    ensures packed == PackedRows(p.data, p.RowSize(), p.stride, p.height)
    ensures got == Blit(d, packed, p.RowSize(), p.height, stride)
  {
    ReceivedIsBlit(p, codec, mode, d, stride);
    packed := Packed(p);
  }

  /** Byte `c` of row `r` is the same in both buffers, with their own strides. */
  predicate SameSample(data: Bytes, from: nat, got: Bytes, to: nat, r: nat, c: nat) {
    && RowStart(r, to) + c < |got| && RowStart(r, from) + c < |data|
    && got[RowStart(r, to) + c] == data[RowStart(r, from) + c]
  }

  /** The same over plain bytes: `got` is what the buffer holds, `packed` what was sent. */
  lemma SampleArrives(data: Bytes, row: nat, height: nat, from: nat, packed: Bytes, d: Bytes, to: nat, got: Bytes,
                      r: nat, c: nat)
    requires Fits(|data|, row, height, from) && Fits(|d|, row, height, to) && row <= to && r < height && c < row
    requires packed == PackedRows(data, row, from, height) && got == Blit(d, packed, row, height, to)
    ensures SameSample(data, from, got, to, r, c)
  {
    BlitInside(d, packed, row, height, to, r, c);
    PackedRowsAt(data, row, from, height, r, c);
  }

  lemma ProductOrder(width: nat, height: nat, bps: nat)
    ensures height * (width * bps) == width * height * bps
  {}

  /** The packed plane has exactly the size the client computes, so copying never reads past it. */
  lemma PackedSize(p: Plane, codec: Codec, mode: Compression, info: PlaneInfo)
    requires p.WellFormed() && codec.Lawful()
    requires info == PlaneInfo(p.width, p.height, p.bps, p.width * p.height * p.bps)
    ensures |codec.Unpack(codec.Pack(Packed(p), mode), mode)| == info.sizeBytes == p.NBytes()
  {
    Travels(codec, Packed(p), mode);
    RowStartIsProduct(p.height, p.RowSize());
    RowStartIsProduct(p.width, p.bps);
    ProductOrder(p.width, p.height, p.bps);
  }

  /**
   Every sample arrives: byte `c` of row `r` of the server's plane is byte `c` of row `r` of the client's buffer, for
   any two strides that hold a row, with or without compression.
   */
  lemma SamplesArrive(p: Plane, codec: Codec, mode: Compression, d: Bytes, stride: nat, r: nat, c: nat)
    requires p.WellFormed() && codec.Lawful() && p.RowSize() <= stride
    requires Fits(|d|, p.RowSize(), p.height, stride)
    requires r < p.height && c < p.RowSize()
    ensures var got := Received(p, codec, mode, d, stride);
            |got| == |d| && SameSample(p.data, p.stride, got, stride, r, c)
  {
    var got := Received(p, codec, mode, d, stride);
    var packed := ReceivedIsRows(p, codec, mode, d, stride, got);
    SampleArrives(p.data, p.RowSize(), p.height, p.stride, packed, d, stride, got, r, c);
  }

  /** ... and nothing else changes: what lies between and behind the rows stays as it was. */
  lemma PaddingUntouched(p: Plane, codec: Codec, mode: Compression, d: Bytes, stride: nat, i: nat)
    requires p.WellFormed() && codec.Lawful() && Fits(|d|, p.RowSize(), p.height, stride)
    requires i < |d| && forall r: nat | r < p.height :: !InRow(p.RowSize(), stride, r, i)
    ensures Received(p, codec, mode, d, stride)[i] == d[i]
  {
    ReceivedIsBlit(p, codec, mode, d, stride);
    BlitOutside(d, Packed(p), p.RowSize(), p.height, stride, i);
  }

  /** A frame as the server holds it and as the client is told of it. */
  predicate SameLayout(planes: seq<Plane>, infos: seq<PlaneInfo>) {
    |planes| == |infos|
    && forall k | 0 <= k < |planes| ::
         infos[k].width == planes[k].width && infos[k].height == planes[k].height && infos[k].bps == planes[k].bps
  }

  /** The part of one plane unpacks to the packed plane, which is as long as the client needs it to be. */
  lemma PartUnpacks(p: Plane, info: PlaneInfo, codec: Codec, mode: Compression, part: Bytes)
    requires p.WellFormed() && codec.Lawful() && IsPart(part, Packed(p), codec, mode)
    requires info.width == p.width && info.height == p.height && info.bps == p.bps
    ensures info.RowSize() == p.RowSize() && codec.Unpack(part, mode) == Packed(p)
    ensures |codec.Unpack(part, mode)| == RowStart(info.height, info.RowSize())
  {
    Travels(codec, Packed(p), mode);
  }

  /** A whole frame, from the server's planes to the client's buffers: each receives its own plane. */
  method SendFrame(planes: seq<Plane>, infos: seq<PlaneInfo>, dsts: seq<array<Byte>>, strides: seq<nat>, codec: Codec,
                   mode: Compression)
    returns (ok: bool)
    requires codec.Lawful() && SameLayout(planes, infos) && |dsts| == |strides| == |infos|
    requires forall k | 0 <= k < |planes| ::
               && planes[k].WellFormed() && planes[k].RowSize() <= strides[k]
               && Fits(dsts[k].Length, planes[k].RowSize(), planes[k].height, strides[k])
    requires forall j, k | 0 <= j < k < |dsts| :: dsts[j] != dsts[k]
    modifies set k | 0 <= k < |dsts| :: dsts[k]
    ensures ok
    ensures forall k | 0 <= k < |planes| ::
              dsts[k][..] == Received(planes[k], codec, mode, old(dsts[k][..]), strides[k])
  {
    var parts, _ := ExtractPlanes(planes, codec, mode);
    forall k | 0 <= k < |planes|
      ensures infos[k].RowSize() == planes[k].RowSize() && codec.Unpack(parts[k], mode) == Packed(planes[k])
      ensures |codec.Unpack(parts[k], mode)| == RowStart(infos[k].height, infos[k].RowSize())
    {
      PartUnpacks(planes[k], infos[k], codec, mode, parts[k]);
    }
    ok := WritePlanes(dsts, strides, infos, parts, codec, mode);
    forall k | 0 <= k < |planes|
      ensures dsts[k][..] == Received(planes[k], codec, mode, old(dsts[k][..]), strides[k])
    {
      ReceivedIsBlit(planes[k], codec, mode, old(dsts[k][..]), strides[k]);
    }
  }
}
