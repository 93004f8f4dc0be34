/**
 * The lexer's source reader: a buffer of 2N bytes used as two halves of N.
 * One half is filled from the file at construction; every time the read
 * cursor `endPtr` crosses into the other half, that half is refilled with the
 * next (up to) N bytes of the file. A read shorter than N is terminated by a
 * single 0 byte, which is how the reader recognises the end of the file.
 *
 * The open file is modelled by its contents `source` and the stream position
 * `readPos`; `fread` delivers min(N, remaining) bytes from there.
 */
module BufferReader {

  newtype byte = x: int | 0 <= x < 256

  function Min(a: int, b: int): (m: int)
    ensures m <= a && m <= b && (m == a || m == b)
  {
    if a < b then a else b
  }

  /**
   * `BR_mod`: the remainder of `a` by `b` on unsigned values. Its correction
   * for a negative remainder can never apply to `size_t` operands.
   */
  function Mod(a: nat, b: nat): (r: int)
    requires b > 0
    ensures 0 <= r < b && r == a % b
  {
    var r: int := a % b;
    if r < 0 then (assert false; r + b) else r
  }

  /** `after` agrees with `before` everywhere outside the `len` places from `lo`. */
  predicate SameOutside(before: seq<byte>, after: seq<byte>, lo: nat, len: nat)
  {
    |after| == |before| && forall j :: 0 <= j < |after| && !(lo <= j < lo + len) ==> after[j] == before[j]
  }

  /** Advancing a cursor that is inside `[0, m)` by one, modulo `m`, wraps only at the end. */
  lemma ModStep(e: nat, m: nat)
    requires e < m
    ensures Mod(e + 1, m) == if e + 1 == m then 0 else e + 1
  {
  }

  class Reader {
    /** The file contents, and how far into them `fread` has read. */
    const source: seq<byte>
    var readPos: nat

    /** N: the buffer holds 2N bytes. */
    const bufferSize: nat
    const buffer: array<byte>

    /** Which half the next `LoadChunk` fills: the first half when true. */
    var loadFirstPart: bool
    var startPtr: nat
    var endPtr: nat

    /** How many bytes `MoveNext` has consumed. */
    ghost var consumed: nat
    /** The start of the half of the buffer that `endPtr` is in: 0 or N. */
    ghost var half: nat
    /** The file offset of the byte stored at `half`. */
    ghost var chunkStart: nat

    /**
     * The half being read holds the file bytes from `chunkStart` up to
     * `readPos`, followed by the 0 sentinel when that is fewer than N bytes.
     */
    ghost predicate Window()
      reads this`half, this`chunkStart, this`readPos, buffer
    {
      && chunkStart <= readPos
      && (forall k :: half <= k < half + (readPos - chunkStart) ==>
            k < buffer.Length && chunkStart + (k - half) < |source| &&
            buffer[k] == source[chunkStart + (k - half)])
      && (readPos - chunkStart < bufferSize ==>
            half + (readPos - chunkStart) < buffer.Length &&
            buffer[half + (readPos - chunkStart)] == 0)
    }

    /**
     * The reader's invariant: the window above, the cursor `consumed -
     * chunkStart` bytes into the half it is in, and the next refill going to
     * the other half.
     */
    ghost predicate Valid()
      reads this, buffer
    {
      && bufferSize >= 1
      && buffer.Length == 2 * bufferSize
      && endPtr < 2 * bufferSize
      && (loadFirstPart <==> endPtr >= bufferSize)
      && consumed <= |source|
      && half == (if endPtr >= bufferSize then bufferSize else 0)
      && consumed == chunkStart + (endPtr - half)
      && readPos == Min(|source|, chunkStart + bufferSize)
      && Window()
    }

    /**
     * The state in which the half the cursor has just entered is about to be
     * loaded: the cursor is at its start, it is the half `loadFirstPart`
     * selects, and everything before it has been consumed and read.
     */
    ghost predicate AwaitingLoad()
      reads this
    {
      && bufferSize >= 1
      && buffer.Length == 2 * bufferSize
      && (endPtr == 0 || endPtr == bufferSize)
      && half == endPtr
      && (loadFirstPart <==> endPtr == 0)
      && consumed == chunkStart && readPos == chunkStart && chunkStart <= |source|
    }

    /**
     * `bufferReader_init`: the cursors start at 0 and the first half is
     * loaded, so the second half is the next one to fill.
     */
    constructor (source: seq<byte>, bufferSize: nat)
      requires bufferSize >= 1
      ensures Valid() && fresh(buffer)
      ensures this.source == source && this.bufferSize == bufferSize
      ensures startPtr == 0 && endPtr == 0 && !loadFirstPart && consumed == 0
      ensures forall j :: 0 <= j < Min(bufferSize, |source|) ==> buffer[j] == source[j]
      ensures |source| < bufferSize ==> buffer[|source|] == 0
    {
      this.source := source;
      this.bufferSize := bufferSize;
      readPos := 0;
      buffer := new byte[2 * bufferSize];
      loadFirstPart := true;
      startPtr := 0;
      endPtr := 0;
      consumed := 0;
      half := 0;
      chunkStart := 0;
      new;
      LoadChunk();
    }

    /**
     * `BR_loadChunk`: `fread` up to N bytes into the half `loadFirstPart`
     * selects, put a 0 right after a short read, and switch halves. Nothing
     * outside the bytes read and the sentinel changes.
     */
    method LoadChunk()
      requires bufferSize >= 1 && buffer.Length == 2 * bufferSize && readPos <= |source|
      modifies this`loadFirstPart, this`readPos, buffer
      ensures old(AwaitingLoad()) ==> Valid()
      ensures loadFirstPart == !old(loadFirstPart)
      ensures readPos == old(readPos) + Min(bufferSize, |source| - old(readPos))
      ensures var start := if old(loadFirstPart) then 0 else bufferSize;
              var count := readPos - old(readPos);
              var written := if count < bufferSize then count + 1 else count;
              && (forall k :: start <= k < start + count ==> buffer[k] == source[old(readPos) + (k - start)])
              && (count < bufferSize ==> buffer[start + count] == 0)
              && (forall j :: 0 <= j < buffer.Length && !(start <= j < start + written) ==>
                    buffer[j] == old(buffer[j]))
    {
      var start := if loadFirstPart then 0 else bufferSize;
      var bytesRead := Min(bufferSize, |source| - readPos);
      forall k | start <= k < start + bytesRead {
        buffer[k] := source[readPos + (k - start)];
      }
      if bytesRead < bufferSize {
        buffer[start + bytesRead] := 0;
      }
      readPos := readPos + bytesRead;
      loadFirstPart := !loadFirstPart;
    }

    /**
     * `bufferReader_isEOF`: the byte under the cursor is 0, which happens
     * exactly at the end of the file or at a 0 byte of the file itself.
     */
    method IsEof() returns (eof: bool)
      requires Valid()
      ensures eof <==> consumed == |source| || source[consumed] == 0
    {
      eof := buffer[endPtr] == 0;
    }

    /**
     * `bufferReader_moveNext`: return the byte under the cursor, which is the
     * next byte of the file, advance the cursor modulo 2N, and refill the half
     * the cursor enters exactly when it lands on 0 or N.
     */
    method MoveNext() returns (c: byte)
      requires Valid() && consumed < |source|
      modifies this`endPtr, this`loadFirstPart, this`readPos, this`consumed, this`half, this`chunkStart, buffer
      ensures Valid()
      ensures c == source[old(consumed)] && consumed == old(consumed) + 1
      ensures endPtr == Mod(old(endPtr) + 1, 2 * bufferSize)
      ensures (endPtr == 0 || endPtr == bufferSize) <==> loadFirstPart != old(loadFirstPart)
      ensures endPtr != 0 && endPtr != bufferSize ==>
                readPos == old(readPos) && buffer[..] == old(buffer[..])
      ensures SameOutside(old(buffer[..]), buffer[..], half, bufferSize)
    {
      c := buffer[endPtr];
      ModStep(endPtr, bufferSize * 2);
      endPtr := Mod(endPtr + 1, bufferSize * 2);
      consumed := consumed + 1;
      if endPtr == 0 || endPtr == bufferSize {
        half := endPtr;
        chunkStart := chunkStart + bufferSize;
        LoadChunk();
      }
    }
  }

  lemma SliceSnoc(s: seq<byte>, i: nat)
    requires i < |s|
    ensures s[..i + 1] == s[..i] + [s[i]]
  {
  }

  /**
   * The reader yields the file in order: on a file with no 0 byte, calling
   * `MoveNext` until `IsEof` holds returns exactly the file's bytes.
   */
  method ReadToEnd(source: seq<byte>, bufferSize: nat) returns (out: seq<byte>)
    requires bufferSize >= 1
    requires forall i :: 0 <= i < |source| ==> source[i] != 0
    ensures out == source
  {
    var r := new Reader(source, bufferSize);
    out := [];
    var eof := r.IsEof();
    while !eof
      invariant fresh(r.buffer)
      invariant r.Valid() && r.source == source
      invariant out == source[..r.consumed]
      invariant eof <==> r.consumed == |source|
      decreases |source| - r.consumed
    {
      var c := r.MoveNext();
      SliceSnoc(source, r.consumed - 1);
      out := out + [c];
      eof := r.IsEof();
    }
  }
}
