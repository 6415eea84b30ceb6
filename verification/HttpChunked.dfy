/** The download route's re-encoding of chunks as an HTTP chunked body, and a decoder for
    section 7.1 of RFC 9112 to read it back. */
module HttpChunked {
  import opened Wrappers
  import opened Bytes
  import opened Download

  const CR: Byte := 13
  const LF: Byte := 10
  const CRLF: Data := [CR, LF]
  const LAST: Data := [48, CR, LF, CR, LF]

  /** Upper-case hexadecimal, as `{:X}` prints it. */
  function HexDigit(d: nat): Byte
    requires d < 16
  {
    if d < 10 then 48 + d else 55 + d
  }

  function Hex(n: nat): Data {
    if n < 16 then [HexDigit(n)] else Hex(n / 16) + [HexDigit(n % 16)]
  }

  function Encode(chunk: Data): Data {
    Hex(|chunk|) + CRLF + chunk + CRLF
  }

  function EncodeAll(chunks: seq<Data>): Data {
    if chunks == [] then [] else Encode(chunks[0]) + EncodeAll(chunks[1..])
  }

  // ---- the decoder: HEXDIG is case-insensitive; no extensions and no trailer fields ----

  function DigitValue(b: Byte): Option<nat> {
    if 48 <= b <= 57 then Some(b - 48)
    else if 65 <= b <= 70 then Some(b - 55)
    else if 97 <= b <= 102 then Some(b - 87)
    else None
  }

  function ParseSize(stream: Data, value: nat, any: bool): (r: Option<(nat, Data)>)
    ensures r.Some? ==> |r.value.1| <= |stream| && (!any ==> |r.value.1| < |stream|)
  {
    if stream != [] && DigitValue(stream[0]).Some? then
      ParseSize(stream[1..], value * 16 + DigitValue(stream[0]).value, true)
    else if any then
      Some((value, stream))
    else
      None
  }

  function SkipCrlf(stream: Data): Option<Data> {
    if |stream| >= 2 && stream[0] == CR && stream[1] == LF then Some(stream[2..]) else None
  }

  /** The decoded body and what follows it on the connection. */
  function Decode(stream: Data): Option<(Data, Data)>
    decreases |stream|
  {
    var size := ParseSize(stream, 0, false);
    if size.None? then None else
    var line := SkipCrlf(size.value.1);
    if line.None? then None else
    if size.value.0 == 0 then
      var end := SkipCrlf(line.value);
      if end.None? then None else Some(([], end.value))
    else if |line.value| < size.value.0 then None else
    var next := SkipCrlf(line.value[size.value.0..]);
    if next.None? then None else
    var rest := Decode(next.value);
    if rest.None? then None else Some((line.value[..size.value.0] + rest.value.0, rest.value.1))
  }

  lemma {:induction false} HexParses(n: nat, tail: Data)
    ensures ParseSize(Hex(n) + tail, 0, false) == ParseSize(tail, n, true)
  {
    if n < 16 {
      assert (Hex(n) + tail)[1..] == tail;
    } else {
      var last := [HexDigit(n % 16)];
      assert Hex(n) + tail == Hex(n / 16) + (last + tail);
      HexParses(n / 16, last + tail);
      assert (last + tail)[1..] == tail;
    }
  }

  lemma ChunkDecodes(chunk: Data, tail: Data)
    ensures chunk != [] ==>
              Decode(Encode(chunk) + tail) == if Decode(tail).None? then None
                                              else Some((chunk + Decode(tail).value.0, Decode(tail).value.1))
    ensures chunk == [] ==> Encode(chunk) == LAST && Decode(Encode(chunk) + tail) == Some(([], tail))
  {
    var after := CRLF + (chunk + (CRLF + tail));
    assert Encode(chunk) + tail == Hex(|chunk|) + after;
    HexParses(|chunk|, after);
    assert ParseSize(after, |chunk|, true) == Some((|chunk|, after));
    assert after[2..] == chunk + (CRLF + tail);
    assert (chunk + (CRLF + tail))[|chunk|..] == CRLF + tail;
    assert (chunk + (CRLF + tail))[..|chunk|] == chunk;
    assert (CRLF + tail)[2..] == tail;
  }

  /** How many chunks precede the first empty one. */
  function FirstEmpty(chunks: seq<Data>): (k: nat)
    ensures k <= |chunks|
    ensures k == |chunks| <==> forall i :: 0 <= i < |chunks| ==> chunks[i] != []
  {
    if chunks == [] || chunks[0] == [] then 0 else 1 + FirstEmpty(chunks[1..])
  }

  /** The encoded chunks, the terminator, and whatever else is on the connection. */
  function Body(chunks: seq<Data>, tail: Data): Data {
    EncodeAll(chunks) + LAST + tail
  }

  lemma BodyUnfolds(chunks: seq<Data>, tail: Data)
    ensures chunks == [] ==> Body(chunks, tail) == Encode([]) + tail
    ensures chunks != [] ==> Body(chunks, tail) == Encode(chunks[0]) + Body(chunks[1..], tail)
  {}

  /** What is left unread behind the body. */
  function Unread(chunks: seq<Data>, tail: Data): Data {
    var k := FirstEmpty(chunks);
    if k == |chunks| then tail else Body(chunks[k + 1..], tail)
  }

  lemma OneMoreChunk(chunks: seq<Data>, tail: Data)
    requires chunks != [] && chunks[0] != []
    ensures Unread(chunks, tail) == Unread(chunks[1..], tail)
    ensures Concat(chunks[..FirstEmpty(chunks)]) == chunks[0] + Concat(chunks[1..][..FirstEmpty(chunks[1..])])
  {
    hide Body;
    var k := FirstEmpty(chunks[1..]);
    assert chunks[..k + 1][1..] == chunks[1..][..k];
    assert k < |chunks| - 1 ==> chunks[1..][k + 1..] == chunks[k + 2..];
  }

  /** An empty chunk encodes as the terminator, so the body ends at the first one. */
  lemma {:induction false} DecodeStopsAtEmpty(chunks: seq<Data>, tail: Data)
    ensures Decode(Body(chunks, tail)) == Some((Concat(chunks[..FirstEmpty(chunks)]), Unread(chunks, tail)))
    decreases |chunks|
  {
    BodyUnfolds(chunks, tail);
    if chunks == [] {
      ChunkDecodes([], tail);
    } else {
      ChunkDecodes(chunks[0], Body(chunks[1..], tail));
      hide Decode, Encode, Body, Concat;
      if chunks[0] == [] {
        EmptyFirst(chunks, tail);
      } else {
        DecodeStopsAtEmpty(chunks[1..], tail);
        OneMoreChunk(chunks, tail);
      }
    }
  }

  lemma EmptyFirst(chunks: seq<Data>, tail: Data)
    requires chunks != [] && chunks[0] == []
    ensures Concat(chunks[..FirstEmpty(chunks)]) == [] && Unread(chunks, tail) == Body(chunks[1..], tail)
  {}

  /** The body reads back in full, and the connection is left at its end, exactly when no chunk is empty. */
  lemma ChunkedRoundTrip(chunks: seq<Data>, tail: Data)
    ensures Decode(Body(chunks, tail)) == Some((Concat(chunks), tail)) <==>
            forall i :: 0 <= i < |chunks| ==> chunks[i] != []
  {
    DecodeStopsAtEmpty(chunks, tail);
    var k := FirstEmpty(chunks);
    assert chunks[..|chunks|] == chunks;
    if k < |chunks| {
      assert |Body(chunks[k + 1..], tail)| > |tail|;
    }
  }

  // ---- a body that breaks off ----

  lemma {:induction false} DigitsOnly(stream: Data, value: nat, any: bool)
    requires forall k :: 0 <= k < |stream| ==> DigitValue(stream[k]).Some?
    ensures var size := ParseSize(stream, value, any); size.Some? ==> size.value.1 == []
  {
    if stream != [] {
      DigitsOnly(stream[1..], value * 16 + DigitValue(stream[0]).value, true);
    }
  }

  /** The size line is in upper case and without leading zeros. */
  lemma {:induction false} HexIsUpper(n: nat)
    ensures forall k :: 0 <= k < |Hex(n)| ==> 48 <= Hex(n)[k] <= 57 || 65 <= Hex(n)[k] <= 70
    ensures Hex(n) != [] && (n > 0 ==> Hex(n)[0] != 48)
  {
    if n >= 16 {
      HexIsUpper(n / 16);
    }
  }

  lemma CutChunk(chunk: Data, cut: nat)
    requires chunk != [] && cut < |Encode(chunk)|
    ensures Decode(Encode(chunk)[..cut]).None?
  {
    var hex := Hex(|chunk|);
    var stream := Encode(chunk)[..cut];
    if cut <= |hex| {
      assert stream == hex[..cut];
      HexIsUpper(|chunk|);
      DigitsOnly(stream, 0, false);
    } else {
      var rest := (CRLF + chunk + CRLF)[..cut - |hex|];
      assert stream == hex + rest;
      HexParses(|chunk|, rest);
      assert ParseSize(rest, |chunk|, true) == Some((|chunk|, rest));
    }
  }

  lemma CutLast(cut: nat)
    requires cut < |LAST|
    ensures Decode(LAST[..cut]).None?
  {
    var stream := LAST[..cut];
    if cut > 0 {
      var rest := stream[1..];
      assert ParseSize(stream, 0, false) == ParseSize(rest, 0, true) == Some((0, rest));
    }
  }

  /** A body without empty chunks that stops anywhere before its end does not decode at all: a broken
      connection is never mistaken for a shorter file. */
  lemma {:induction false} CutBody(chunks: seq<Data>, cut: nat)
    requires (forall i :: 0 <= i < |chunks| ==> chunks[i] != []) && cut < |Body(chunks, [])|
    ensures Decode(Body(chunks, [])[..cut]).None?
    decreases |chunks|
  {
    var body := Body(chunks, []);
    if chunks == [] {
      assert body == LAST;
      CutLast(cut);
    } else {
      BodyUnfolds(chunks, []);
      var first, rest := Encode(chunks[0]), Body(chunks[1..], []);
      hide Body, Encode, Decode;
      if cut < |first| {
        assert body[..cut] == first[..cut];
        CutChunk(chunks[0], cut);
      } else {
        assert body[..cut] == first + rest[..cut - |first|];
        CutBody(chunks[1..], cut - |first|);
        ChunkDecodes(chunks[0], rest[..cut - |first|]);
      }
    }
  }

  /** One download request on the bridge. `wire` is what was written behind the response headers. */
  class StreamDownloader {
    const totalChunks: int
    var expectedChunk: nat
    var errorOccurred: bool
    var finished: bool
    var wire: Data

    constructor (totalChunks: int)
      ensures this.totalChunks == totalChunks && expectedChunk == 0 && !errorOccurred && !finished && wire == []
    {
      this.totalChunks := totalChunks;
      expectedChunk, errorOccurred, finished, wire := 0, false, false, [];
    }

    /** `room` is how many more bytes the connection takes before it breaks. */
    method HandleChunk(chunk: DownloadChunk, room: nat)
      modifies this
      ensures errorOccurred == (old(errorOccurred) || room < |Encode(chunk.data)|)
      ensures wire == if old(errorOccurred) then old(wire) else old(wire) + Sent(Encode(chunk.data), room)
      ensures expectedChunk == if errorOccurred then old(expectedChunk) else old(expectedChunk) + 1
      ensures finished == (old(finished) || (!old(errorOccurred) && (errorOccurred || expectedChunk >= totalChunks)))
    {
      if errorOccurred {
        return;
      }
      var bytes := Hex(|chunk.data|) + CRLF + chunk.data + CRLF;
      wire := wire + Sent(bytes, room);
      if |bytes| <= room {
        expectedChunk := expectedChunk + 1;
        if expectedChunk >= totalChunks {
          finished := true;
        }
      } else {
        errorOccurred := true;
        finished := true;
      }
    }

    /** After the wait, whether it was ended by the last chunk, by an error or by the clock. */
    method Close(room: nat)
      modifies this`wire
      ensures wire == if errorOccurred then old(wire) else old(wire) + Sent(LAST, room)
    {
      if !errorOccurred {
        wire := wire + Sent(LAST, room);
      }
    }
  }

  /** What gets out of `bytes` on a connection that takes `room` more. */
  function Sent(bytes: Data, room: nat): Data {
    bytes[..Min(room, |bytes|)]
  }

  /** A request that sees `arrived` before the wait is over, on a connection that takes `room` bytes
      behind the headers: what goes out is the body, cut where the connection breaks. */
  method ServeDownload(totalChunks: int, arrived: seq<DownloadChunk>, room: nat) returns (wire: Data, finished: bool)
    ensures wire == Sent(Body(Bodies(arrived), []), room)
    ensures finished <==> (arrived != [] && |arrived| >= totalChunks) || room < |EncodeAll(Bodies(arrived))|
  {
    var downloader := new StreamDownloader(totalChunks);
    var k := 0;
    assert Bodies(arrived[..0]) == [] && Sent(EncodeAll([]), room) == [];
    hide Encode, EncodeAll, Bodies, Sent;
    while k < |arrived|
      invariant k <= |arrived| && fresh(downloader) && downloader.totalChunks == totalChunks
      invariant downloader.wire == Sent(EncodeAll(Bodies(arrived[..k])), room)
      invariant downloader.errorOccurred <==> room < |EncodeAll(Bodies(arrived[..k]))|
      invariant !downloader.errorOccurred ==> downloader.expectedChunk == k
      invariant downloader.finished <==> (k > 0 && k >= totalChunks) || downloader.errorOccurred
    {
      EncodeOneMore(arrived, k);
      SentMore(EncodeAll(Bodies(arrived[..k])), Encode(arrived[k].data), room);
      downloader.HandleChunk(arrived[k], Max(room - |downloader.wire|, 0));
      k := k + 1;
    }
    assert arrived[..k] == arrived;
    SentMore(EncodeAll(Bodies(arrived)), LAST, room);
    downloader.Close(Max(room - |downloader.wire|, 0));
    wire, finished := downloader.wire, downloader.finished;
  }

  lemma SentMore(bytes: Data, next: Data, room: nat)
    ensures |Sent(bytes, room)| == Min(room, |bytes|)
    ensures room < |bytes| ==> Sent(bytes + next, room) == Sent(bytes, room)
    ensures room >= |bytes| ==> Sent(bytes, room) + Sent(next, room - |bytes|) == Sent(bytes + next, room)
  {}

  lemma EncodeOneMore(arrived: seq<DownloadChunk>, k: nat)
    requires k < |arrived|
    ensures EncodeAll(Bodies(arrived[..k + 1])) == EncodeAll(Bodies(arrived[..k])) + Encode(arrived[k].data)
  {
    assert Bodies(arrived[..k + 1]) == Bodies(arrived[..k]) + [arrived[k].data];
    EncodeSplit(Bodies(arrived[..k]), arrived[k].data);
  }

  lemma {:induction false} EncodeSplit(chunks: seq<Data>, last: Data)
    ensures EncodeAll(chunks + [last]) == EncodeAll(chunks) + Encode(last)
  {
    if chunks == [] {
      assert chunks + [last] == [last];
    } else {
      assert (chunks + [last])[1..] == chunks[1..] + [last];
      EncodeSplit(chunks[1..], last);
    }
  }

  /** The browser decodes the first `received` chunks of a push to as much of the file; it is the
      whole file exactly when all of them arrived, although the body always looks complete. */
  lemma StreamedDownload(source: Data, size: nat, received: nat, tail: Data)
    requires size > 0 && received <= ChunkCount(|source|, size)
    ensures var total := ChunkCount(|source|, size);
            var arrived := Pushed(source, size, total, 0)[..received];
            && Decode(Body(Bodies(arrived), tail)) == Some((source[..Offset(|source|, size, received)], tail))
            && (source[..Offset(|source|, size, received)] == source <==> received == total)
  {
    var total := ChunkCount(|source|, size);
    var arrived := Pushed(source, size, total, 0)[..received];
    PiecesNonempty(source, size, 0);
    ChunkedRoundTrip(Bodies(arrived), tail);
    ReceivedPrefix(source, size, received);
    PrefixIsWhole(source, size, received);
    hide Decode, Concat, Pushed;
  }

  lemma PrefixIsWhole(source: Data, size: nat, received: nat)
    requires size > 0 && received <= ChunkCount(|source|, size)
    ensures source[..Offset(|source|, size, received)] == source <==> received == ChunkCount(|source|, size)
  {
    InRange(|source|, size, received);
  }

  lemma ReceivedPrefix(source: Data, size: nat, received: nat)
    requires size > 0 && received <= ChunkCount(|source|, size)
    ensures Concat(Bodies(Pushed(source, size, ChunkCount(|source|, size), 0)[..received]))
            == source[..Offset(|source|, size, received)]
  {
    EndOffset(|source|, size);
    hide Offset;
    SlicesJoin(source, size, 0, received, Bodies(Pushed(source, size, ChunkCount(|source|, size), 0)[..received]));
  }

  /** What a browser makes of a download whose connection takes only `room` bytes: the bytes that
      were pushed if the whole body got out, and otherwise an error. */
  lemma BrokenDownload(source: Data, size: nat, received: nat, room: nat)
    requires size > 0 && received <= ChunkCount(|source|, size)
    ensures var total := ChunkCount(|source|, size);
            var body := Body(Bodies(Pushed(source, size, total, 0)[..received]), []);
            Decode(Sent(body, room)) ==
            if |body| <= room then Some((source[..Offset(|source|, size, received)], [])) else None
  {
    var arrived := Pushed(source, size, ChunkCount(|source|, size), 0)[..received];
    var body := Body(Bodies(arrived), []);
    if |body| <= room {
      assert Sent(body, room) == body;
      StreamedDownload(source, size, received, []);
    } else {
      PiecesNonempty(source, size, 0);
      CutBody(Bodies(arrived), room);
    }
  }
}
