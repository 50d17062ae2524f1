/**
 * The browser side of the sign page: wrapping the server's PCM audio in a WAVE
 * file, the backspace edit of the sentence, accumulating speech-recognition
 * results into the transcript, and the wait shown after a rate limit.
 *
 * JavaScript strings are sequences of UTF-16 code units here; bytes and DataView
 * fields are written out with their little-endian encodings.
 */
module SignClient {
  import opened Wrappers
  import GeminiTts
  import ResponseCache

  type Byte = b: int | 0 <= b < 256
  type CodeUnit = u: int | 0 <= u < 0x1_0000

  const TwoTo16 := 0x1_0000
  const TwoTo32 := 0x1_0000_0000

  // ---------------------------------------------------------------------------
  // Little-endian fields, as DataView's setUint16/setUint32(…, true) write them

  /** `setUint16(offset, x, true)`: `x` taken modulo 2^16, low byte first. */
  function LE16(x: int): seq<Byte> {
    var u := x % TwoTo16;
    [u % 256, u / 256]
  }

  /** `setUint32(offset, x, true)`: `x` taken modulo 2^32, low byte first. */
  function LE32(x: int): seq<Byte> {
    var u := x % TwoTo32;
    var q1 := u / 256;
    var q2 := q1 / 256;
    [u % 256, q1 % 256, q2 % 256, (q2 / 256) % 256]
  }

  /** `getUint16(offset, true)`. */
  function U16At(b: seq<Byte>, offset: nat): nat
    requires offset + 2 <= |b|
  {
    (b[offset] as int) + 256 * (b[offset + 1] as int)
  }

  /** `getUint32(offset, true)`. */
  function U32At(b: seq<Byte>, offset: nat): nat
    requires offset + 4 <= |b|
  {
    (b[offset] as int) + 256 * ((b[offset + 1] as int) + 256 * ((b[offset + 2] as int) + 256 * (b[offset + 3] as int)))
  }

  /** The low byte and the rest of `low + 256 * high`. */
  lemma ByteSplit(low: int, high: int)
    requires 0 <= low < 256
    ensures (low + 256 * high) % 256 == low && (low + 256 * high) / 256 == high
  {
  }

  /** Reading back a 16-bit field gives the value written, modulo 2^16. */
  lemma LE16RoundTrip(x: int)
    ensures U16At(LE16(x), 0) == x % TwoTo16
  {
    var u := x % TwoTo16;
    assert u == u % 256 + 256 * (u / 256);
  }

  /** Reading back a 32-bit field gives the value written, modulo 2^32. */
  lemma LE32RoundTrip(x: int)
    ensures U32At(LE32(x), 0) == x % TwoTo32
  {
    var u := x % TwoTo32;
    var q1 := u / 256;
    var q2 := q1 / 256;
    var q3 := q2 / 256;
    assert u == u % 256 + 256 * q1;
    assert q1 == q1 % 256 + 256 * q2;
    assert q2 == q2 % 256 + 256 * q3;
    assert q3 < 256;
  }

  /** Four bytes are the encoding of the number they decode to. */
  lemma LE32Decode(b: seq<Byte>)
    requires |b| == 4
    ensures LE32(U32At(b, 0)) == b
  {
    var b0, b1, b2, b3 := b[0] as int, b[1] as int, b[2] as int, b[3] as int;
    var q2 := b2 + 256 * b3;
    var q1 := b1 + 256 * q2;
    var u := b0 + 256 * q1;
    assert U32At(b, 0) == u;
    assert u < TwoTo32;
    ByteSplit(b0, q1);
    ByteSplit(b1, q2);
    ByteSplit(b2, b3);
    assert u % TwoTo32 == u;
    assert u / 256 / 256 / 256 == b3 && b3 % 256 == b3;
    assert LE32(u) == [b[0], b[1], b[2], b[3]];
  }

  /** A JavaScript string of characters below 256, as bytes. */
  function Ascii(s: string): seq<int> {
    seq(|s|, i requires 0 <= i < |s| => s[i] as int)
  }

  // ---------------------------------------------------------------------------
  // createWavBlob

  const RiffTag := 0x46464952
  const WaveTag := 0x45564157
  const FmtTag := 0x20746d66
  const DataTag := 0x61746164

  /** Bytes 0-11: the RIFF chunk header, whose size field counts the 36 header bytes
      after it plus the data. */
  function RiffHeader(n: int): seq<Byte> {
    LE32(RiffTag) + LE32(36 + n) + LE32(WaveTag)
  }

  /** Bytes 12-35: the "fmt " chunk of 16-bit PCM; `createWavBlob` passes
      `sampleRate * channels * 2` as the byte rate. */
  function FmtChunk(sampleRate: int, channels: int, byteRate: int): seq<Byte> {
    var blockAlign := channels * 2;
    LE32(FmtTag) + LE32(16) + LE16(1) + LE16(channels) + LE32(sampleRate)
    + LE32(byteRate) + LE16(blockAlign) + LE16(16)
  }

  /** Bytes 36-43: the "data" chunk header. */
  function DataHeader(n: int): seq<Byte> {
    LE32(DataTag) + LE32(n)
  }

  /** The 44-byte header `createWavBlob` writes for `n` data bytes. */
  function WavHeader(n: int, sampleRate: int, channels: int, byteRate: int): seq<Byte> {
    RiffHeader(n) + FmtChunk(sampleRate, channels, byteRate) + DataHeader(n)
  }

  /** `Uint8Array` stores each character code modulo 256. */
  function ToUint8(raw: seq<CodeUnit>): seq<Byte> {
    seq(|raw|, i requires 0 <= i < |raw| => raw[i] % 256)
  }

  function Zeros(n: nat): seq<Byte> {
    seq(n, _ => 0)
  }

  /** Writing the next field over the zeros after `before + written` extends `written`. */
  lemma FillNext(before: seq<Byte>, written: seq<Byte>, field: seq<Byte>, rest: nat)
    requires |field| <= rest
    ensures var s := before + written + Zeros(rest);
      s[..|before| + |written|] + field + s[|before| + |written| + |field|..]
        == before + (written + field) + Zeros(rest - |field|)
  {
    var s := before + written + Zeros(rest);
    assert s[..|before| + |written|] == before + written;
    assert s[|before| + |written| + |field|..] == Zeros(rest - |field|);
  }

  /** `DataView.setUint32(offset, value, true)` on the header buffer. */
  method SetUint32(view: array<Byte>, offset: nat, value: int)
    requires offset + 4 <= view.Length
    modifies view
    ensures view[..] == old(view[..])[..offset] + LE32(value) + old(view[..])[offset + 4..]
  {
    var u := value % TwoTo32;
    view[offset] := u % 256;
    view[offset + 1] := (u / 256) % 256;
    view[offset + 2] := (u / 256 / 256) % 256;
    view[offset + 3] := (u / 256 / 256 / 256) % 256;
  }

  /** `DataView.setUint16(offset, value, true)` on the header buffer. */
  method SetUint16(view: array<Byte>, offset: nat, value: int)
    requires offset + 2 <= view.Length
    modifies view
    ensures view[..] == old(view[..])[..offset] + LE16(value) + old(view[..])[offset + 2..]
  {
    var u := value % TwoTo16;
    view[offset] := u % 256;
    view[offset + 1] := u / 256;
  }

  /** The next `setUint32` of the header, at the end of what is written so far. */
  method FillUint32(view: array<Byte>, ghost before: seq<Byte>, ghost written: seq<Byte>, offset: nat, value: int)
    requires offset == |before| + |written| && offset + 4 <= view.Length
    requires view[..] == before + written + Zeros(view.Length - offset)
    modifies view
    ensures view[..] == before + (written + LE32(value)) + Zeros(view.Length - offset - 4)
  {
    SetUint32(view, offset, value);
    FillNext(before, written, LE32(value), view.Length - offset);
  }

  /** The next `setUint16` of the header, at the end of what is written so far. */
  method FillUint16(view: array<Byte>, ghost before: seq<Byte>, ghost written: seq<Byte>, offset: nat, value: int)
    requires offset == |before| + |written| && offset + 2 <= view.Length
    requires view[..] == before + written + Zeros(view.Length - offset)
    modifies view
    ensures view[..] == before + (written + LE16(value)) + Zeros(view.Length - offset - 2)
  {
    SetUint16(view, offset, value);
    FillNext(before, written, LE16(value), view.Length - offset);
  }

  /** The writes at offsets 0, 4 and 8. */
  method WriteRiffHeader(view: array<Byte>, n: int)
    requires view.Length == 44 && view[..] == Zeros(44)
    modifies view
    ensures view[..] == RiffHeader(n) + Zeros(32)
  {
    ghost var r := LE32(RiffTag);
    ghost var w := LE32(WaveTag);
    assert view[..] == [] + [] + Zeros(44);
    FillUint32(view, [], [], 0, RiffTag);
    ghost var written := [] + r;
    FillUint32(view, [], written, 4, 36 + n); written := written + LE32(36 + n);
    FillUint32(view, [], written, 8, WaveTag); written := written + w;
    assert [] + r == r;
    assert [] + written == written;
  }

  /** The writes at offsets 12 to 34. */
  method WriteFmtChunk(view: array<Byte>, ghost before: seq<Byte>, sampleRate: int, channels: int, byteRate: int)
    requires view.Length == 44 && |before| == 12 && view[..] == before + Zeros(32)
    modifies view
    ensures view[..] == before + FmtChunk(sampleRate, channels, byteRate) + Zeros(8)
  {
    var blockAlign := channels * 2;
    assert view[..] == before + [] + Zeros(32);
    FillUint32(view, before, [], 12, FmtTag);
    ghost var written := LE32(FmtTag);
    assert view[..] == before + written + Zeros(28);
    FillUint32(view, before, written, 16, 16); written := written + LE32(16);
    FillUint16(view, before, written, 20, 1); written := written + LE16(1);
    FillUint16(view, before, written, 22, channels); written := written + LE16(channels);
    FillUint32(view, before, written, 24, sampleRate); written := written + LE32(sampleRate);
    FillUint32(view, before, written, 28, byteRate); written := written + LE32(byteRate);
    FillUint16(view, before, written, 32, blockAlign); written := written + LE16(blockAlign);
    FillUint16(view, before, written, 34, 16); written := written + LE16(16);
  }

  /** The writes at offsets 36 and 40. */
  method WriteDataHeader(view: array<Byte>, ghost before: seq<Byte>, n: int)
    requires view.Length == 44 && |before| == 36 && view[..] == before + Zeros(8)
    modifies view
    ensures view[..] == before + DataHeader(n)
  {
    assert view[..] == before + [] + Zeros(8);
    FillUint32(view, before, [], 36, DataTag);
    ghost var written := LE32(DataTag);
    assert view[..] == before + written + Zeros(4);
    FillUint32(view, before, written, 40, n); written := written + LE32(n);
    assert Zeros(0) == [];
    assert before + written + [] == before + written;
  }

  /** `new Uint8Array(n)` filled with `raw.charCodeAt(i)`. */
  method Uint8ArrayOf(raw: seq<CodeUnit>) returns (arr: array<Byte>)
    ensures fresh(arr)
    ensures arr[..] == ToUint8(raw)
  {
    arr := new Byte[|raw|];
    for i := 0 to |raw|
      invariant forall k :: 0 <= k < i ==> arr[k] == raw[k] % 256
    {
      arr[i] := raw[i] % 256;
    }
  }

  /** `createWavBlob`: the header followed by the decoded bytes. `raw` is the string
      `atob` returned. */
  method CreateWavBlob(raw: seq<CodeUnit>, sampleRate: int, channels: int) returns (blob: seq<Byte>)
    ensures blob == WavHeader(|raw|, sampleRate, channels, sampleRate * (channels * 2)) + ToUint8(raw)
  {
    var arr := Uint8ArrayOf(raw);
    var h := new Byte[44](_ => 0);
    assert h[..] == Zeros(44);
    var blockAlign := channels * 2;
    var byteRate := sampleRate * blockAlign;
    WriteRiffHeader(h, |raw|);
    WriteFmtChunk(h, RiffHeader(|raw|), sampleRate, channels, byteRate);
    WriteDataHeader(h, RiffHeader(|raw|) + FmtChunk(sampleRate, channels, byteRate), |raw|);
    blob := h[..] + arr[..];
  }

  /** A 32-bit field inside the left part of a concatenation reads the same there. */
  lemma U32InLeft(a: seq<Byte>, b: seq<Byte>, offset: nat)
    requires offset + 4 <= |a|
    ensures U32At(a + b, offset) == U32At(a, offset)
  {
  }

  lemma U32InRight(a: seq<Byte>, b: seq<Byte>, offset: nat)
    requires offset + 4 <= |b|
    ensures U32At(a + b, |a| + offset) == U32At(b, offset)
  {
  }

  lemma U16InLeft(a: seq<Byte>, b: seq<Byte>, offset: nat)
    requires offset + 2 <= |a|
    ensures U16At(a + b, offset) == U16At(a, offset)
  {
  }

  lemma U16InRight(a: seq<Byte>, b: seq<Byte>, offset: nat)
    requires offset + 2 <= |b|
    ensures U16At(a + b, |a| + offset) == U16At(b, offset)
  {
  }

  /** The four chunk tags, written as 32-bit numbers, spell their names in ASCII. */
  lemma TagBytes()
    ensures LE32(RiffTag) == Ascii("RIFF") && LE32(WaveTag) == Ascii("WAVE")
    ensures LE32(FmtTag) == Ascii("fmt ") && LE32(DataTag) == Ascii("data")
  {
    assert LE32(RiffTag) == [0x52, 0x49, 0x46, 0x46];
    assert LE32(WaveTag) == [0x57, 0x41, 0x56, 0x45];
    assert LE32(FmtTag) == [0x66, 0x6d, 0x74, 0x20];
    assert LE32(DataTag) == [0x64, 0x61, 0x74, 0x61];
  }

  lemma FieldAt32(h: seq<Byte>, offset: nat, x: int)
    requires offset + 4 <= |h| && h[offset..offset + 4] == LE32(x)
    ensures U32At(h, offset) == x % TwoTo32
  {
    LE32RoundTrip(x);
    assert h[offset..offset + 4][0] == h[offset];
  }

  lemma FieldAt16(h: seq<Byte>, offset: nat, x: int)
    requires offset + 2 <= |h| && h[offset..offset + 2] == LE16(x)
    ensures U16At(h, offset) == x % TwoTo16
  {
    LE16RoundTrip(x);
    assert h[offset..offset + 2][0] == h[offset];
  }

  /** The RIFF header reads "RIFF", the size 36 + n modulo 2^32, and "WAVE". */
  lemma RiffHeaderLayout(n: int)
    ensures var r := RiffHeader(n);
      && |r| == 12
      && r[0..4] == Ascii("RIFF") && U32At(r, 4) == (36 + n) % TwoTo32 && r[8..12] == Ascii("WAVE")
  {
    var r := RiffHeader(n);
    TagBytes();
    assert r[0..4] == LE32(RiffTag);
    assert r[4..8] == LE32(36 + n);
    assert r[8..12] == LE32(WaveTag);
    FieldAt32(r, 4, 36 + n);
  }

  /** The format chunk reads "fmt ", a 16-byte body, PCM format 1, the channel count,
      the sample rate, the byte rate, the block alignment `channels * 2` and 16 bits per
      sample, each modulo its field width. */
  lemma FmtChunkLayout(sampleRate: int, channels: int, byteRate: int)
    ensures var f := FmtChunk(sampleRate, channels, byteRate);
      && |f| == 24
      && f[0..4] == Ascii("fmt ")
      && U32At(f, 4) == 16 && U16At(f, 8) == 1
      && U16At(f, 10) == channels % TwoTo16
      && U32At(f, 12) == sampleRate % TwoTo32
      && U32At(f, 16) == byteRate % TwoTo32
      && U16At(f, 20) == (channels * 2) % TwoTo16
      && U16At(f, 22) == 16
  {
    var f := FmtChunk(sampleRate, channels, byteRate);
    var blockAlign := channels * 2;
    TagBytes();
    assert f[0..4] == LE32(FmtTag);
    assert f[4..8] == LE32(16);
    assert f[8..10] == LE16(1);
    assert f[10..12] == LE16(channels);
    assert f[12..16] == LE32(sampleRate);
    assert f[16..20] == LE32(byteRate);
    assert f[20..22] == LE16(blockAlign);
    assert f[22..24] == LE16(16);
    FieldAt32(f, 4, 16);
    FieldAt16(f, 8, 1);
    FieldAt16(f, 10, channels);
    FieldAt32(f, 12, sampleRate);
    FieldAt32(f, 16, byteRate);
    FieldAt16(f, 20, blockAlign);
    FieldAt16(f, 22, 16);
  }

  /** The data header reads "data" and the data size n modulo 2^32. */
  lemma DataHeaderLayout(n: int)
    ensures var d := DataHeader(n);
      && |d| == 8 && d[0..4] == Ascii("data") && U32At(d, 4) == n % TwoTo32
  {
    var d := DataHeader(n);
    TagBytes();
    assert d[0..4] == LE32(DataTag);
    assert d[4..8] == LE32(n);
    FieldAt32(d, 4, n);
  }

  /** The header as a reader of WAVE files sees it: the tags at bytes 0, 8, 12 and 36 and
      the numeric fields at their standard offsets. */
  lemma WavHeaderLayout(n: nat, sampleRate: int, channels: int, byteRate: int)
    ensures var h := WavHeader(n, sampleRate, channels, byteRate);
      && |h| == 44
      && h[0..4] == Ascii("RIFF") && h[8..12] == Ascii("WAVE")
      && h[12..16] == Ascii("fmt ") && h[36..40] == Ascii("data")
      && U32At(h, 4) == (36 + n) % TwoTo32
      && U32At(h, 16) == 16 && U16At(h, 20) == 1
      && U16At(h, 22) == channels % TwoTo16
      && U32At(h, 24) == sampleRate % TwoTo32
      && U32At(h, 28) == byteRate % TwoTo32
      && U16At(h, 32) == (channels * 2) % TwoTo16
      && U16At(h, 34) == 16
      && U32At(h, 40) == n % TwoTo32
  {
    var r, f, d := RiffHeader(n), FmtChunk(sampleRate, channels, byteRate), DataHeader(n);
    RiffHeaderLayout(n);
    FmtChunkLayout(sampleRate, channels, byteRate);
    DataHeaderLayout(n);
    var rf := r + f;
    var h := rf + d;
    assert h[0..4] == r[0..4] && h[8..12] == r[8..12];
    assert h[12..16] == f[0..4];
    assert h[36..40] == d[0..4];
    U32InLeft(r, f, 4); U32InLeft(rf, d, 4);
    U32InRight(r, f, 4); U32InLeft(rf, d, 16);
    U16InRight(r, f, 8); U16InLeft(rf, d, 20);
    U16InRight(r, f, 10); U16InLeft(rf, d, 22);
    U32InRight(r, f, 12); U32InLeft(rf, d, 24);
    U32InRight(r, f, 16); U32InLeft(rf, d, 28);
    U16InRight(r, f, 20); U16InLeft(rf, d, 32);
    U16InRight(r, f, 22); U16InLeft(rf, d, 34);
    U32InRight(rf, d, 4);
  }

  /** The audio the route serves (24000 Hz, one channel) gets a header announcing 24000
      samples and 48000 bytes per second, one channel and 2-byte frames. */
  lemma ServedAudioHeader(n: nat, audio: ResponseCache.Payload)
    requires audio.sampleRate == GeminiTts.SampleRate && audio.channels == GeminiTts.Channels
    ensures var h := WavHeader(n, audio.sampleRate, audio.channels, audio.sampleRate * (audio.channels * 2));
      && U32At(h, 24) == 24000 && U16At(h, 22) == 1
      && U32At(h, 28) == 48000 && U16At(h, 32) == 2
  {
    var byteRate := audio.sampleRate * (audio.channels * 2);
    assert byteRate == 48000 && byteRate % TwoTo32 == 48000;
    assert audio.sampleRate % TwoTo32 == 24000 && audio.channels % TwoTo16 == 1;
    assert (audio.channels * 2) % TwoTo16 == 2;
    WavHeaderLayout(n, audio.sampleRate, audio.channels, byteRate);
  }

  /** The blob is 44 + n bytes long and byte 44 + i is character i of the decoded
      string modulo 256; `atob` only yields characters below 256, which are copied
      unchanged. */
  lemma WavBlobBytes(raw: seq<CodeUnit>, sampleRate: int, channels: int, byteRate: int)
    ensures var blob := WavHeader(|raw|, sampleRate, channels, byteRate) + ToUint8(raw);
      && |blob| == 44 + |raw|
      && (forall i :: 0 <= i < |raw| ==> blob[44 + i] == raw[i] % 256)
      && ((forall i :: 0 <= i < |raw| ==> raw[i] < 256) ==> blob[44..] == raw)
  {
    var h := WavHeader(|raw|, sampleRate, channels, byteRate);
    assert |h| == 44 by { WavHeaderLayout(|raw|, sampleRate, channels, byteRate); }
    BytesAfterHeader(h, raw);
  }

  lemma BytesAfterHeader(h: seq<Byte>, raw: seq<CodeUnit>)
    requires |h| == 44
    ensures var blob := h + ToUint8(raw);
      && |blob| == 44 + |raw|
      && (forall i :: 0 <= i < |raw| ==> blob[44 + i] == raw[i] % 256)
      && ((forall i :: 0 <= i < |raw| ==> raw[i] < 256) ==> blob[44..] == raw)
  {
    var blob := h + ToUint8(raw);
    assert blob[44..] == ToUint8(raw);
  }

  // ---------------------------------------------------------------------------
  // handleBackspace: [...prev].slice(0, -1).join('')

  predicate IsHighSurrogate(u: CodeUnit) {
    0xD800 <= u <= 0xDBFF
  }

  predicate IsLowSurrogate(u: CodeUnit) {
    0xDC00 <= u <= 0xDFFF
  }

  /** The string iterator behind `[...s]`: a high surrogate followed by a low one is one
      code point, every other unit (a lone surrogate included) is one by itself. */
  function CodePoints(s: seq<CodeUnit>): seq<seq<CodeUnit>>
    decreases |s|
  {
    if s == [] then []
    else if |s| >= 2 && IsHighSurrogate(s[0]) && IsLowSurrogate(s[1]) then [s[..2]] + CodePoints(s[2..])
    else [s[..1]] + CodePoints(s[1..])
  }

  /** `join('')`. */
  function Concat(parts: seq<seq<CodeUnit>>): seq<CodeUnit>
    decreases |parts|
  {
    if parts == [] then [] else parts[0] + Concat(parts[1..])
  }

  /** `slice(0, -1)`. */
  function DropLast<T>(xs: seq<T>): seq<T> {
    if xs == [] then [] else xs[..|xs| - 1]
  }

  function Backspace(sentence: seq<CodeUnit>): seq<CodeUnit> {
    Concat(DropLast(CodePoints(sentence)))
  }

  /** Spreading a string into code points and joining them gives the string back. */
  lemma {:induction false} JoinSpread(s: seq<CodeUnit>)
    ensures Concat(CodePoints(s)) == s
    decreases |s|
  {
    if s != [] {
      var k := if |s| >= 2 && IsHighSurrogate(s[0]) && IsLowSurrogate(s[1]) then 2 else 1;
      assert CodePoints(s) == [s[..k]] + CodePoints(s[k..]);
      assert ([s[..k]] + CodePoints(s[k..]))[1..] == CodePoints(s[k..]);
      JoinSpread(s[k..]);
      assert s[..k] + s[k..] == s;
    }
  }

  /** Backspace removes exactly the last code point: the last two units when they are a
      surrogate pair, the last unit otherwise; an empty sentence stays empty. */
  lemma {:induction false} BackspaceDropsLastCodePoint(s: seq<CodeUnit>)
    ensures Backspace(s) ==
      if |s| == 0 then []
      else if |s| >= 2 && IsHighSurrogate(s[|s| - 2]) && IsLowSurrogate(s[|s| - 1]) then s[..|s| - 2]
      else s[..|s| - 1]
    decreases |s|
  {
    if s != [] {
      var k := if |s| >= 2 && IsHighSurrogate(s[0]) && IsLowSurrogate(s[1]) then 2 else 1;
      var first := s[..k];
      var rest := s[k..];
      assert CodePoints(s) == [first] + CodePoints(rest);
      if rest == [] {
        assert DropLast(CodePoints(s)) == [];
      } else {
        var tail := CodePoints(rest);
        assert tail != [];
        assert DropLast([first] + tail) == [first] + DropLast(tail);
        assert ([first] + DropLast(tail))[1..] == DropLast(tail);
        BackspaceDropsLastCodePoint(rest);
        if |rest| == 1 {
          assert s[|s| - 1] == rest[0];
          assert !(IsHighSurrogate(s[|s| - 2]) && IsLowSurrogate(s[|s| - 1]));
        } else {
          assert s[|s| - 2] == rest[|rest| - 2] && s[|s| - 1] == rest[|rest| - 1];
        }
        assert first + rest[..|rest| - 1] == s[..|s| - 1];
        assert |rest| >= 2 ==> first + rest[..|rest| - 2] == s[..|s| - 2];
      }
    }
  }

  // ---------------------------------------------------------------------------
  // rec.onresult

  /** One entry of `event.results`: its best alternative's transcript and whether it is final. */
  datatype SpeechResult = SpeechResult(transcript: string, isFinal: bool)

  /** The transcripts of the final results, concatenated in order. */
  function Finals(results: seq<SpeechResult>): string
    decreases |results|
  {
    if results == [] then ""
    else
      var last := results[|results| - 1];
      Finals(results[..|results| - 1]) + (if last.isFinal then last.transcript else "")
  }

  /** The transcripts of the non-final results, concatenated in order. */
  function Interims(results: seq<SpeechResult>): string
    decreases |results|
  {
    if results == [] then ""
    else
      var last := results[|results| - 1];
      Interims(results[..|results| - 1]) + (if last.isFinal then "" else last.transcript)
  }

  /** The results from `resultIndex` on, the ones the handler visits. */
  function Pending(results: seq<SpeechResult>, resultIndex: nat): seq<SpeechResult> {
    if resultIndex <= |results| then results[resultIndex..] else []
  }

  predicate EndsWithSpace(s: string) {
    |s| > 0 && s[|s| - 1] == ' '
  }

  /** The transcript after `setVoiceTranscript`, or unchanged when nothing final arrived. */
  function AppendFinal(prev: string, final: string): string {
    if final == "" then prev
    else prev + (if prev != "" && !EndsWithSpace(prev) then " " else "") + final
  }

  /** The handler: the new transcript and the interim text it shows. */
  method OnResult(prev: string, results: seq<SpeechResult>, resultIndex: nat) returns (transcript: string, interim: string)
    ensures interim == Interims(Pending(results, resultIndex))
    ensures transcript == AppendFinal(prev, Finals(Pending(results, resultIndex)))
  {
    interim := "";
    var final := "";
    var i := resultIndex;
    while i < |results|
      invariant resultIndex <= i <= |results| || (i == resultIndex && resultIndex > |results|)
      invariant i <= |results| ==> final == Finals(results[resultIndex..i]) && interim == Interims(results[resultIndex..i])
      invariant i > |results| ==> final == "" && interim == ""
      decreases |results| - i
    {
      var t := results[i].transcript;
      assert results[resultIndex..i + 1][..i - resultIndex] == results[resultIndex..i];
      if results[i].isFinal {
        final := final + t;
      } else {
        interim := interim + t;
      }
      i := i + 1;
    }
    assert resultIndex <= |results| ==> results[resultIndex..i] == results[resultIndex..];
    transcript := prev;
    if final != "" {
      transcript := prev + (if prev != "" && !EndsWithSpace(prev) then " " else "") + final;
    }
  }

  /** Dropping the last element of `a + b`, for a non-empty `b`, drops the last of `b`. */
  lemma InitOfAppend(a: seq<SpeechResult>, b: seq<SpeechResult>)
    requires b != []
    ensures (a + b)[..|a + b| - 1] == a + b[..|b| - 1]
    ensures (a + b)[|a + b| - 1] == b[|b| - 1]
  {
  }

  lemma ConcatAssoc(x: string, y: string, z: string)
    ensures (x + y) + z == x + (y + z)
  {
  }

  /** The final text of two batches of results is the final text of each, in order. */
  lemma {:induction false} FinalsAppend(a: seq<SpeechResult>, b: seq<SpeechResult>)
    ensures Finals(a + b) == Finals(a) + Finals(b)
    decreases |b|
  {
    if b == [] {
      assert a + b == a;
    } else {
      var n := |b| - 1;
      var x := if b[n].isFinal then b[n].transcript else "";
      InitOfAppend(a, b);
      assert Finals(a + b) == Finals(a + b[..n]) + x;
      FinalsAppend(a, b[..n]);
      ConcatAssoc(Finals(a), Finals(b[..n]), x);
    }
  }

  /** The interim text of two batches of results is the interim text of each, in order. */
  lemma {:induction false} InterimsAppend(a: seq<SpeechResult>, b: seq<SpeechResult>)
    ensures Interims(a + b) == Interims(a) + Interims(b)
    decreases |b|
  {
    if b == [] {
      assert a + b == a;
    } else {
      var n := |b| - 1;
      var x := if b[n].isFinal then "" else b[n].transcript;
      InitOfAppend(a, b);
      assert Interims(a + b) == Interims(a + b[..n]) + x;
      InterimsAppend(a, b[..n]);
      ConcatAssoc(Interims(a), Interims(b[..n]), x);
    }
  }

  /** The final text is empty exactly when every final result has an empty transcript,
      in particular when no result is final; the transcript then stays as it was. */
  lemma {:induction false} FinalsEmpty(results: seq<SpeechResult>)
    ensures Finals(results) == "" <==>
      forall i :: 0 <= i < |results| && results[i].isFinal ==> results[i].transcript == ""
    ensures forall prev :: Finals(results) == "" ==> AppendFinal(prev, Finals(results)) == prev
    decreases |results|
  {
    if results != [] {
      var n := |results| - 1;
      var init := results[..n];
      FinalsEmpty(init);
      assert forall i :: 0 <= i < n ==> results[i] == init[i];
    }
  }

  /** The update keeps the old transcript as a prefix and ends in the new final text;
      the one space it may insert lies exactly between an old transcript that does not
      end in a space and the new text, which is then separated from it. */
  lemma AppendFinalSeparates(prev: string, final: string)
    requires final != ""
    ensures var t := AppendFinal(prev, final);
      && t[..|prev|] == prev
      && t[|t| - |final|..] == final
      && |t| - |prev| - |final| == (if prev != "" && !EndsWithSpace(prev) then 1 else 0)
      && (prev != "" ==> EndsWithSpace(t[..|t| - |final|]))
  {
    var t := AppendFinal(prev, final);
    var sep := if prev != "" && !EndsWithSpace(prev) then " " else "";
    assert t == prev + sep + final;
    assert t[..|t| - |final|] == prev + sep;
  }

  // ---------------------------------------------------------------------------
  // speakText: the wait shown after a 429

  /** JavaScript `Math.ceil`. */
  function Ceil(x: real): (c: int)
    ensures (c - 1) as real < x <= c as real
  {
    -((-x).Floor)
  }

  /** `err?.retryAfterMs ? Math.ceil(err.retryAfterMs / 1000) : 5`, where a missing
      field (or a body that did not parse) and 0 are falsy. */
  function RetryWaitSeconds(retryAfterMs: Option<real>): (seconds: int)
    ensures retryAfterMs.Some? && retryAfterMs.value != 0.0 ==>
      (seconds - 1) as real < retryAfterMs.value / 1000.0 <= seconds as real
    ensures retryAfterMs.None? || retryAfterMs.value == 0.0 ==> seconds == 5
  {
    if retryAfterMs.Some? && retryAfterMs.value != 0.0 then Ceil(retryAfterMs.value / 1000.0) else 5
  }

  /** The route's own 429 carries `retryAfterMs: 5000`, shown as a wait of 5 seconds. */
  lemma RouteRateLimitShowsFiveSeconds(response: GeminiTts.Response)
    requires response.body.RateLimited? && response.body.retryAfterMs == GeminiTts.RetryAfterMs
    ensures RetryWaitSeconds(Some(response.body.retryAfterMs as real)) == 5
  {
    assert (5000 as real) / 1000.0 == 5.0;
  }
}
