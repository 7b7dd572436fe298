/** One bounded chunk of a log file, and what following its cursors shows. */
module LocalRead {
  import opened Prelude
  import opened Utf8

  const LOG_CHUNK_BYTES := 256 * 1024

  /** The text of a chunk with the byte range it stands for. */
  datatype Chunk = Chunk(start: nat, text: seq<Scalar>, next: nat, eof: bool)

  function Min(a: nat, b: nat): nat { if a < b then a else b }

  /** What one positioned read returns. */
  function Buffer(content: seq<Byte>, offset: nat, maxBytes: nat): seq<Byte> {
    if offset >= |content| then [] else content[offset..Min(|content|, offset + Min(maxBytes, LOG_CHUNK_BYTES))]
  }

  // ----- how much of the buffer is taken -----

  /** The first c bytes decode to no more than the reader asked for. */
  predicate Fits(buffer: seq<Byte>, offset: nat, size: nat, maxBytes: nat, c: nat)
    requires c <= |buffer|
  {
    Size(Text(buffer[..c], offset + c < size)) <= maxBytes
  }

  ghost predicate LargestFit(buffer: seq<Byte>, offset: nat, size: nat, maxBytes: nat, c: nat) {
    && c <= |buffer| && Fits(buffer, offset, size, maxBytes, c)
    && forall d :: c < d <= |buffer| ==> !Fits(buffer, offset, size, maxBytes, d)
  }

  /** Walks back over continuation bytes. */
  function LeadAt(buffer: seq<Byte>, k: int): (start: int)
    requires -1 <= k < |buffer|
    ensures -1 <= start <= k
    ensures forall j :: start < j <= k ==> Continuation(buffer[j])
    ensures start >= 0 ==> !Continuation(buffer[start])
    decreases k + 1
  {
    if k < 0 || !Continuation(buffer[k]) then k else LeadAt(buffer, k - 1)
  }

  /** Gives back a last code point that is not complete. */
  function RolledBack(buffer: seq<Byte>, c: nat): (end: nat)
    requires c <= |buffer|
    ensures end <= c
  {
    var start := LeadAt(buffer, c - 1);
    if start >= 0 && c - start < Announced(buffer[start]) then start else c
  }

  function Taken(buffer: seq<Byte>, offset: nat, size: nat, c: nat): (end: nat)
    requires c <= |buffer|
    ensures end <= c
  {
    if offset + c < size then RolledBack(buffer, c) else c
  }

  /** On bytes the file already had when it was measured, a longer fit makes every shorter one fit. */
  lemma FitsDown(buffer: seq<Byte>, offset: nat, size: nat, maxBytes: nat, c: nat, d: nat)
    requires c <= d <= |buffer| && offset + d <= size && Fits(buffer, offset, size, maxBytes, d)
    ensures Fits(buffer, offset, size, maxBytes, c)
  {
    if c < d {
      assert buffer[..d][..c] == buffer[..c];
      StreamIsSmaller(buffer[..d], c, offset + d < size);
    }
  }

  // ----- the search for it -----

  /** How many bytes the binary search settles on while it has low to high left to try. */
  function Search(buffer: seq<Byte>, offset: nat, size: nat, maxBytes: nat, low: nat, high: int): (c: nat)
    requires low <= high + 1 <= |buffer| + 1
    ensures c <= |buffer|
    decreases high - low + 1
  {
    if low > high then if low == 0 then 0 else low - 1
    else
      var candidate := (low + high) / 2;
      if Fits(buffer, offset, size, maxBytes, candidate) then
          Search(buffer, offset, size, maxBytes, candidate + 1, high)
      else Search(buffer, offset, size, maxBytes, low, candidate - 1)
  }

  function Searched(buffer: seq<Byte>, offset: nat, size: nat, maxBytes: nat): (c: nat)
    ensures c <= |buffer|
  {
    Search(buffer, offset, size, maxBytes, 0, |buffer|)
  }

  lemma NothingFits(buffer: seq<Byte>, offset: nat, size: nat, maxBytes: nat)
    ensures Fits(buffer, offset, size, maxBytes, 0)
  {
    assert buffer[..0] == [];
  }

  /** Whatever was tried, what the search settles on fits. */
  lemma {:induction false} SearchFits(buffer: seq<Byte>, offset: nat, size: nat, maxBytes: nat, low: nat, high: int)
    requires low <= high + 1 <= |buffer| + 1
    requires low == 0 || Fits(buffer, offset, size, maxBytes, low - 1)
    ensures Fits(buffer, offset, size, maxBytes, Search(buffer, offset, size, maxBytes, low, high))
    decreases high - low + 1
  {
    hide Fits;
    NothingFits(buffer, offset, size, maxBytes);
    if low <= high {
      var candidate := (low + high) / 2;
      if Fits(buffer, offset, size, maxBytes, candidate) {
        SearchFits(buffer, offset, size, maxBytes, candidate + 1, high);
      } else {
        SearchFits(buffer, offset, size, maxBytes, low, candidate - 1);
      }
    }
  }

  /** Of bytes the file already had when it was measured, it is the most that fit. */
  lemma {:induction false} SearchIsLargest(
    buffer: seq<Byte>, offset: nat, size: nat, maxBytes: nat, low: nat, high: int)
    requires low <= high + 1 <= |buffer| + 1 && offset + |buffer| <= size
    requires low == 0 || Fits(buffer, offset, size, maxBytes, low - 1)
    requires forall d :: high < d <= |buffer| ==> !Fits(buffer, offset, size, maxBytes, d)
    ensures LargestFit(buffer, offset, size, maxBytes, Search(buffer, offset, size, maxBytes, low, high))
    decreases high - low + 1
  {
    hide Fits;
    NothingFits(buffer, offset, size, maxBytes);
    if low <= high {
      var candidate := (low + high) / 2;
      if Fits(buffer, offset, size, maxBytes, candidate) {
        SearchIsLargest(buffer, offset, size, maxBytes, candidate + 1, high);
      } else {
        forall d | candidate <= d <= |buffer| ensures !Fits(buffer, offset, size, maxBytes, d) {
          if Fits(buffer, offset, size, maxBytes, d) { FitsDown(buffer, offset, size, maxBytes, candidate, d); }
        }
        SearchIsLargest(buffer, offset, size, maxBytes, low, candidate - 1);
      }
    }
  }

  /** It reaches whatever fits in every shorter form as well. */
  lemma {:induction false} SearchReaches(
    buffer: seq<Byte>, offset: nat, size: nat, maxBytes: nat, low: nat, high: int, m: nat)
    requires low <= high + 1 <= |buffer| + 1 && m <= high
    requires forall d :: 0 <= d <= m ==> Fits(buffer, offset, size, maxBytes, d)
    ensures Search(buffer, offset, size, maxBytes, low, high) >= m
    decreases high - low + 1
  {
    hide Fits;
    if low <= high {
      var candidate := (low + high) / 2;
      if Fits(buffer, offset, size, maxBytes, candidate) {
        SearchReaches(buffer, offset, size, maxBytes, candidate + 1, high, m);
      } else {
        SearchReaches(buffer, offset, size, maxBytes, low, candidate - 1, m);
      }
    }
  }

  /** It never looks past a last but one place that does not fit. */
  lemma {:induction false} SearchMisses(buffer: seq<Byte>, offset: nat, size: nat, maxBytes: nat, low: nat, high: int)
    requires low <= high + 1 <= |buffer| + 1 && low < |buffer|
    requires !Fits(buffer, offset, size, maxBytes, |buffer| - 1)
    ensures Search(buffer, offset, size, maxBytes, low, high) < |buffer|
    decreases high - low + 1
  {
    hide Fits;
    if low <= high {
      var candidate := (low + high) / 2;
      if Fits(buffer, offset, size, maxBytes, candidate) {
        SearchMisses(buffer, offset, size, maxBytes, candidate + 1, high);
      } else {
        SearchMisses(buffer, offset, size, maxBytes, low, candidate - 1);
      }
    }
  }

  // ----- one read -----

  /** `size` was measured before the bytes were read; a growing file may hold more by then. */
  function ReadSized(content: seq<Byte>, size: nat, offset: nat, maxBytes: nat): Option<Chunk> {
    var buffer := Buffer(content, offset, maxBytes);
    var end := Taken(buffer, offset, size, Searched(buffer, offset, size, maxBytes));
    if buffer != [] && end == 0 then None
    else Some(Chunk(offset, Text(buffer[..end], offset + end < size), offset + end, offset + end >= size))
  }

  /** The text never exceeds the limit, and it is the decoding of exactly the bytes the chunk names. */
  lemma ReadIsBounded(content: seq<Byte>, size: nat, offset: nat, maxBytes: nat)
    requires ReadSized(content, size, offset, maxBytes).Some?
    ensures var chunk := ReadSized(content, size, offset, maxBytes).value;
            && chunk.start == offset <= chunk.next
            && (offset <= |content| ==>
                  && chunk.next <= |content| && chunk.text == Text(content[offset..chunk.next], chunk.next < size))
            && Size(chunk.text) <= maxBytes && chunk.eof == (chunk.next >= size)
  {
    hide Text, Size;
    var buffer := Buffer(content, offset, maxBytes);
    var c := Searched(buffer, offset, size, maxBytes);
    SearchFits(buffer, offset, size, maxBytes, 0, |buffer|);
    var end := Taken(buffer, offset, size, c);
    if offset <= |content| { assert buffer[..end] == content[offset..offset + end]; }
    if end < c {
      assert buffer[..c][..end] == buffer[..end];
      StreamIsSmaller(buffer[..c], end, true);
    }
  }

  lemma SearchGoesOn(buffer: seq<Byte>, offset: nat, size: nat, maxBytes: nat, low: nat, high: int)
    requires low <= high <= |buffer|
    ensures var candidate := (low + high) / 2;
            Search(buffer, offset, size, maxBytes, low, high)
            == if Fits(buffer, offset, size, maxBytes, candidate) then
               Search(buffer, offset, size, maxBytes, candidate + 1, high)
               else Search(buffer, offset, size, maxBytes, low, candidate - 1)
  {
  }

  lemma SearchEnds(buffer: seq<Byte>, offset: nat, size: nat, maxBytes: nat, low: nat, high: int)
    requires high < low <= high + 1 <= |buffer| + 1
    ensures Search(buffer, offset, size, maxBytes, low, high) == if low == 0 then 0 else low - 1
  {
  }

  method ReadChunk(content: seq<Byte>, size: nat, offset: nat, maxBytes: nat) returns (chunk: Option<Chunk>)
    ensures chunk == ReadSized(content, size, offset, maxBytes)
  {
    hide Text, Size, Search, Buffer, Continuation, Announced;
    var buffer := Buffer(content, offset, maxBytes);
    var consumed, text := 0, [];
    var low, high := 0, |buffer|;
    NothingDecoded(buffer, offset < size);
    while low <= high
      invariant 0 <= low <= high + 1 <= |buffer| + 1
      invariant consumed == if low == 0 then 0 else low - 1
      invariant text == Text(buffer[..consumed], offset + consumed < size)
      invariant Searched(buffer, offset, size, maxBytes) == Search(buffer, offset, size, maxBytes, low, high)
      decreases high - low
    {
      var candidate := (low + high) / 2;
      var decoded := Text(buffer[..candidate], offset + candidate < size);
      SearchGoesOn(buffer, offset, size, maxBytes, low, high);
      if Size(decoded) <= maxBytes {
        consumed, text := candidate, decoded;
        low := candidate + 1;
      } else {
        high := candidate - 1;
      }
    }
    SearchEnds(buffer, offset, size, maxBytes, low, high);
    if offset + consumed < size {
      var start := consumed - 1;
      while start >= 0 && Continuation(buffer[start])
        invariant -1 <= start < consumed
        invariant LeadAt(buffer, consumed - 1) == LeadAt(buffer, start)
      {
        start := start - 1;
      }
      if start >= 0 && consumed - start < Announced(buffer[start]) {
        consumed := start;
        text := Text(buffer[..consumed], true);
      }
    }
    if buffer != [] && consumed == 0 { return None; }
    chunk := Some(Chunk(offset, text, offset + consumed, offset + consumed >= size));
  }

  lemma NothingDecoded(buffer: seq<Byte>, stream: bool)
    ensures Text(buffer[..0], stream) == []
  {
    assert buffer[..0] == [];
  }

  // ----- what growth does to it -----

  lemma {:induction false} DecodeAppended(text: seq<Scalar>, bytes: seq<Byte>, stream: bool)
    ensures Decode(Encode(text) + bytes, stream) == text + Decode(bytes, stream)
  {
    if text == [] {
      assert Encode(text) + bytes == bytes;
    } else {
      var rest := Encode(text[1..]) + bytes;
      assert Encode(text) + bytes == EncodeOne(text[0]) + rest;
      EncodedHead(text[0], rest);
      assert (EncodeOne(text[0]) + rest)[Width(text[0])..] == rest;
      DecodeAppended(text[1..], bytes, stream);
    }
  }

  /** So many plain characters. */
  function Plain(n: nat): (text: seq<Scalar>)
    ensures |text| == n && Size(text) == n
  {
    if n == 0 then [] else [0x61] + Plain(n - 1)
  }

  /** Plain characters and one of two bytes: the whole fits in its own length, all but the last byte does not. */
  lemma LastByteMissed(n: nat, offset: nat, size: nat)
    requires n >= 2 && size < offset + n
    ensures var buffer := Encode(Plain(n - 2)) + [0xC2, 0xA9];
            |buffer| == n && Fits(buffer, offset, size, n, n) && !Fits(buffer, offset, size, n, n - 1)
  {
    hide Encode, Size, StripMark;
    var plain := Plain(n - 2);
    var buffer := Encode(plain) + [0xC2, 0xA9];
    assert buffer[..n] == buffer && buffer[..n - 1] == Encode(plain) + [0xC2];
    DecodeAppended(plain, [0xC2, 0xA9], false);
    DecodeAppended(plain, [0xC2], false);
    TwoByteTail(plain);
  }

  lemma TwoByteTail(plain: seq<Scalar>)
    requires plain != [] ==> plain[0] != BYTE_ORDER_MARK
    ensures StripMark(plain + Decode([0xC2, 0xA9], false)) == plain + Decode([0xC2, 0xA9], false)
    ensures Size(plain + Decode([0xC2, 0xA9], false)) == Size(plain) + 2
    ensures StripMark(plain + Decode([0xC2], false)) == plain + Decode([0xC2], false)
    ensures Size(plain + Decode([0xC2], false)) == Size(plain) + 3
  {
    hide Decode;
    TwoByteCharacter();
    SizeOfSum(plain, [0xA9]);
    SizeOfSum(plain, [REPLACEMENT]);
    assert Size([0xA9]) == 2 && Size([REPLACEMENT]) == 3;
  }

  lemma TwoByteCharacter()
    ensures Decode([0xC2, 0xA9], false) == [0xA9]
    ensures Decode([0xC2], false) == [REPLACEMENT]
  {
    var bytes: seq<Byte> := [0xC2, 0xA9];
    assert Scan(bytes) == Decoded(0xA9, 2) && bytes[2..] == [];
    assert Scan([0xC2]) == Incomplete;
  }

  /** A two-byte character appended after the file was measured: it fits, and the read is refused. */
  lemma GrownReadRefused(size: nat)
    requires size <= 1
    ensures Fits([0xC2, 0xA9], 0, size, 2, 2) && ReadSized([0xC2, 0xA9], size, 0, 2) == None
  {
    LastByteMissed(2, 0, size);
    assert Encode(Plain(0)) + [0xC2, 0xA9] == [0xC2, 0xA9] && Buffer([0xC2, 0xA9], 0, 2) == [0xC2, 0xA9];
    SearchMisses([0xC2, 0xA9], 0, size, 2, 0, 2);
  }

  ghost predicate AlwaysLargest(n: nat, offset: nat, size: nat) {
    forall buffer: seq<Byte>, maxBytes: nat :: |buffer| == n <= maxBytes ==>
      LargestFit(buffer, offset, size, maxBytes, Searched(buffer, offset, size, maxBytes))
  }

  /** The search finds the longest fit of every buffer of n bytes exactly when none of them
      was appended after the file was measured, or there is no more than one to take. */
  lemma SearchNeedsMeasured(n: nat, offset: nat, size: nat)
    ensures AlwaysLargest(n, offset, size) <==> offset + n <= size || n <= 1
  {
    hide Fits;
    if n <= 1 || offset + n <= size {
      forall buffer: seq<Byte>, maxBytes: nat | |buffer| == n <= maxBytes
        ensures LargestFit(buffer, offset, size, maxBytes, Searched(buffer, offset, size, maxBytes))
      {
        if offset + n <= size {
          SearchIsLargest(buffer, offset, size, maxBytes, 0, n);
        } else {
          SearchOfOne(buffer, offset, size, maxBytes);
        }
      }
    } else {
      LastByteMissed(n, offset, size);
      var buffer := Encode(Plain(n - 2)) + [0xC2, 0xA9];
      SearchMisses(buffer, offset, size, n, 0, n);
      assert !LargestFit(buffer, offset, size, n, Searched(buffer, offset, size, n));
    }
  }

  lemma SearchOfOne(buffer: seq<Byte>, offset: nat, size: nat, maxBytes: nat)
    requires |buffer| <= 1
    ensures LargestFit(buffer, offset, size, maxBytes, Searched(buffer, offset, size, maxBytes))
  {
    hide Fits;
    NothingFits(buffer, offset, size, maxBytes);
    SearchFits(buffer, offset, size, maxBytes, 0, |buffer|);
    if |buffer| == 1 && Fits(buffer, offset, size, maxBytes, 1) {
      SearchReaches(buffer, offset, size, maxBytes, 0, 1, 1);
    }
  }
}
