/**
 The journal's bytes: length-prefixed, checksummed frames, and a reader that accepts
 a torn final frame (internal/journal/frame.go). The JSON codec and the checksum are
 parameters: nothing is assumed about them but that valid events decode back.
 */
module Frames {
  import opened Domain
  import opened Events

  type Byte = x: int | 0 <= x < 0x100

  type Bytes = seq<Byte>

  const HEADER_BYTES := 12
  const MAX_RECORD_BYTES := 0x10_0000
  const MAGIC: Bytes := [0x44, 0x50, 0x4A, 0x31]

  datatype Codec = Codec(encode: Event -> Bytes, decode: Bytes -> Option<Event>, checksum: Bytes -> Uint32)

  /** Encoding is never empty, and decoding inverts it on valid events. */
  ghost predicate Faithful(codec: Codec) {
    forall e :: ValidEvent(e) ==> codec.encode(e) != [] && codec.decode(codec.encode(e)) == Some(e)
  }

  datatype ReadResult = ReadResult(events: seq<Event>, truncatedTail: bool, validBytes: nat)

  datatype ReadError = InvalidMagic | InvalidLength | ChecksumMismatch | CorruptRecord | SequenceGap | MultipleRunIds

  // Big-endian numbers

  function BigEndian32(n: Uint32): Bytes {
    [n / 0x100_0000, n / 0x1_0000 % 0x100, n / 0x100 % 0x100, n % 0x100]
  }

  function FromBigEndian32(b: Bytes): Uint32
    requires |b| == 4
  {
    (b[0] as int) * 0x100_0000 + (b[1] as int) * 0x1_0000 + (b[2] as int) * 0x100 + (b[3] as int)
  }

  lemma BigEndianRoundTrip(n: Uint32)
    ensures FromBigEndian32(BigEndian32(n)) == n
  {
    var high, middle := n / 0x1_0000, n / 0x100;
    assert n / 0x100_0000 == high / 0x100 && high == high / 0x100 * 0x100 + high % 0x100;
    assert high == middle / 0x100 && middle == middle / 0x100 * 0x100 + middle % 0x100;
    assert n == middle * 0x100 + n % 0x100;
  }

  /** The bytes of a smaller number come first: the first byte in which two numbers differ decides. */
  lemma BigEndianOrders(n: Uint32, m: Uint32) returns (k: nat)
    requires n < m
    ensures k < 4 && BigEndian32(n)[..k] == BigEndian32(m)[..k] && BigEndian32(n)[k] < BigEndian32(m)[k]
  {
    BigEndianRoundTrip(n);
    BigEndianRoundTrip(m);
    var a, b := BigEndian32(n), BigEndian32(m);
    assert |a| == 4 && |b| == 4;
    hide BigEndian32;
    k := if a[0] != b[0] then 0 else if a[1] != b[1] then 1 else if a[2] != b[2] then 2 else 3;
  }

  // Frames

  function Framed(codec: Codec, payload: Bytes): Bytes
    requires |payload| <= MAX_RECORD_BYTES
  {
    MAGIC + BigEndian32(|payload|) + BigEndian32(codec.checksum(payload)) + payload
  }

  predicate Encodable(codec: Codec, e: Event) {
    ValidEvent(e) && |codec.encode(e)| <= MAX_RECORD_BYTES
  }

  function Frame(codec: Codec, e: Event): Bytes
    requires Encodable(codec, e)
  {
    Framed(codec, codec.encode(e))
  }

  /** What the reader meets at a position: the end, a torn frame, a bad frame or a whole one. */
  datatype Encounter = AtEnd | Torn | Bad(error: ReadError) | Whole(event: Event, size: nat)

  function FrameAt(codec: Codec, bytes: Bytes, position: nat): Encounter
    requires position <= |bytes|
  {
    var rest := |bytes| - position;
    if rest == 0 then AtEnd
    else if rest < HEADER_BYTES then Torn
    else if bytes[position..position + 4] != MAGIC then Bad(InvalidMagic)
    else
      var length := FromBigEndian32(bytes[position + 4..position + 8]);
      if length == 0 || length > MAX_RECORD_BYTES then Bad(InvalidLength)
      else if rest < HEADER_BYTES + length then Torn
      else
        var payload := bytes[position + HEADER_BYTES..position + HEADER_BYTES + length];
        if codec.checksum(payload) != FromBigEndian32(bytes[position + 8..position + 12]) then Bad(ChecksumMismatch)
        else
          match codec.decode(payload)
          case None => Bad(CorruptRecord)
          case Some(e) => if ValidEvent(e) then Whole(e, HEADER_BYTES + length) else Bad(CorruptRecord)
  }

  /** Whether e can follow the events read so far: the next sequence number, the same run. */
  function Continuation(events: seq<Event>, e: Event): Option<ReadError> {
    if e.sequence != |events| + 1 then Some(SequenceGap)
    else if events != [] && e.entry.runId != events[0].entry.runId then Some(MultipleRunIds)
    else None
  }

  function ReadFrom(codec: Codec, bytes: Bytes, done: ReadResult): Result<ReadResult, ReadError>
    requires done.validBytes <= |bytes|
    decreases |bytes| - done.validBytes
  {
    match FrameAt(codec, bytes, done.validBytes)
    case AtEnd => Ok(done)
    case Torn => Ok(done.(truncatedTail := true))
    case Bad(error) => Err(error)
    case Whole(e, size) =>
      match Continuation(done.events, e)
      case Some(error) => Err(error)
      case None => ReadFrom(codec, bytes, ReadResult(done.events + [e], false, done.validBytes + size))
  }

  const NOTHING := ReadResult([], false, 0)

  function ReadJournal(codec: Codec, bytes: Bytes): Result<ReadResult, ReadError> {
    ReadFrom(codec, bytes, NOTHING)
  }

  /** The body of the read loop up to the decoded event: header, magic, length, payload, checksum, decoding. */
  method ReadFrame(codec: Codec, bytes: Bytes, position: nat) returns (met: Encounter)
    requires position <= |bytes|
    ensures met == FrameAt(codec, bytes, position)
  {
    var rest := |bytes| - position;
    if rest == 0 { return AtEnd; }
    if rest < HEADER_BYTES { return Torn; }
    var header := bytes[position..position + HEADER_BYTES];
    SubSlice(bytes, position, HEADER_BYTES, 0, 4);
    SubSlice(bytes, position, HEADER_BYTES, 4, 8);
    SubSlice(bytes, position, HEADER_BYTES, 8, 12);
    if header[0..4] != MAGIC { return Bad(InvalidMagic); }
    var length := FromBigEndian32(header[4..8]);
    if length == 0 || length > MAX_RECORD_BYTES { return Bad(InvalidLength); }
    if rest < HEADER_BYTES + length { return Torn; }
    var payload := bytes[position + HEADER_BYTES..position + HEADER_BYTES + length];
    if codec.checksum(payload) != FromBigEndian32(header[8..12]) { return Bad(ChecksumMismatch); }
    var decoded := codec.decode(payload);
    if decoded.None? || !ValidEvent(decoded.value) { return Bad(CorruptRecord); }
    met := Whole(decoded.value, HEADER_BYTES + length);
  }

  /** Read, with its loop over the position, the expected sequence number and the run identity. */
  method Read(codec: Codec, bytes: Bytes) returns (result: Result<ReadResult, ReadError>)
    ensures result == ReadJournal(codec, bytes)
  {
    hide FrameAt;
    var events: seq<Event> := [];
    var validBytes := 0;
    var expected := 1;
    var runId := "";
    while true
      invariant validBytes <= |bytes| && expected == |events| + 1
      invariant if events == [] then runId == "" else runId == events[0].entry.runId && runId != ""
      invariant ReadJournal(codec, bytes) == ReadFrom(codec, bytes, ReadResult(events, false, validBytes))
      decreases |bytes| - validBytes
    {
      var met := ReadFrame(codec, bytes, validBytes);
      if met.AtEnd? { return Ok(ReadResult(events, false, validBytes)); }
      if met.Torn? { return Ok(ReadResult(events, true, validBytes)); }
      if met.Bad? { return Err(met.error); }
      WholeFrameFits(codec, bytes, validBytes);
      if met.event.sequence != expected { return Err(SequenceGap); }
      if runId == "" { runId := met.event.entry.runId; }
      else if met.event.entry.runId != runId { return Err(MultipleRunIds); }
      events := events + [met.event];
      validBytes := validBytes + met.size;
      expected := expected + 1;
    }
  }

  lemma SubSlice(bytes: Bytes, from: nat, length: nat, i: nat, j: nat)
    requires from + length <= |bytes| && i <= j <= length
    ensures bytes[from..from + length][i..j] == bytes[from + i..from + j]
  {
    var slice := bytes[from..from + length];
    assert forall k :: i <= k < j ==> slice[k] == bytes[from + k];
  }

  /** encodeFrame: the buffer is filled by position. */
  method EncodeFrame(codec: Codec, e: Event) returns (frame: Option<array<Byte>>)
    ensures frame.Some? <==> Encodable(codec, e)
    ensures frame.Some? ==> fresh(frame.value) && frame.value[..] == Frame(codec, e)
  {
    if !ValidEvent(e) { return None; }
    var payload := codec.encode(e);
    if |payload| > MAX_RECORD_BYTES { return None; }
    var buffer := new Byte[HEADER_BYTES + |payload|];
    WriteHeader(buffer, |payload|, codec.checksum(payload));
    CopyInto(buffer, HEADER_BYTES, payload);
    assert buffer[..] == buffer[..HEADER_BYTES] + buffer[HEADER_BYTES..HEADER_BYTES + |payload|];
    frame := Some(buffer);
  }

  method WriteHeader(buffer: array<Byte>, length: Uint32, checksum: Uint32)
    requires buffer.Length >= HEADER_BYTES
    modifies buffer
    ensures buffer[..HEADER_BYTES] == MAGIC + BigEndian32(length) + BigEndian32(checksum)
  {
    hide BigEndian32;
    var size, sum := BigEndian32(length), BigEndian32(checksum);
    assert |size| == 4 && |sum| == 4 by { FourBytes(length); FourBytes(checksum); }
    CopyInto(buffer, 0, MAGIC);
    CopyInto(buffer, 4, size);
    assert buffer[..8][..4] == buffer[..4];
    assert buffer[..8] == MAGIC + size;
    CopyInto(buffer, 8, sum);
    assert buffer[..HEADER_BYTES] == buffer[..8] + buffer[8..HEADER_BYTES];
  }

  lemma FourBytes(n: Uint32)
    ensures |BigEndian32(n)| == 4
  {
  }

  method CopyInto(buffer: array<Byte>, offset: nat, data: Bytes)
    requires offset + |data| <= buffer.Length
    modifies buffer
    ensures buffer[offset..offset + |data|] == data
    ensures buffer[..offset] == old(buffer[..offset])
    ensures buffer[offset + |data|..] == old(buffer[offset + |data|..])
  {
    for i := 0 to |data|
      invariant buffer[offset..offset + i] == data[..i]
      invariant buffer[..offset] == old(buffer[..offset])
      invariant buffer[offset + i..] == old(buffer[offset + i..])
    {
      buffer[offset + i] := data[i];
      assert buffer[offset..offset + i + 1] == buffer[offset..offset + i] + [data[i]];
      assert buffer[offset + i + 1..] == old(buffer[offset + i + 1..]);
    }
  }

  // Locality: a whole frame is recognized from its own bytes

  lemma WholeFrameFits(codec: Codec, bytes: Bytes, position: nat)
    requires position <= |bytes| && FrameAt(codec, bytes, position).Whole?
    ensures FrameAt(codec, bytes, position).size > HEADER_BYTES
    ensures FrameAt(codec, bytes, position).event.entry.runId != ""
    ensures position + FrameAt(codec, bytes, position).size <= |bytes|
  {
  }

  lemma WholeFrameIsLocal(codec: Codec, bytes: Bytes, other: Bytes, position: nat)
    requires position <= |bytes| && FrameAt(codec, bytes, position).Whole?
    requires var edge := position + FrameAt(codec, bytes, position).size;
      edge <= |bytes| && edge <= |other| && other[..edge] == bytes[..edge]
    ensures FrameAt(codec, other, position) == FrameAt(codec, bytes, position)
  {
    var edge := position + FrameAt(codec, bytes, position).size;
    forall i, j | position <= i <= j <= edge
      ensures other[i..j] == bytes[i..j]
    {
      SameSlices(other, bytes, edge, i, j);
    }
  }

  lemma SameSlices(a: Bytes, b: Bytes, edge: nat, i: nat, j: nat)
    requires edge <= |a| && edge <= |b| && a[..edge] == b[..edge] && i <= j <= edge
    ensures a[i..j] == b[i..j]
  {
    SubSlice(a, 0, edge, i, j);
    SubSlice(b, 0, edge, i, j);
  }

  lemma StopsBeforeEnd(codec: Codec, bytes: Bytes, position: nat)
    requires position <= |bytes|
    ensures FrameAt(codec, bytes, position).AtEnd? <==> position == |bytes|
  {
  }

  /** A reader that stops cleanly or at a torn tail stops within the bytes, after whole frames only. */
  lemma {:induction false} ReadStopsInside(codec: Codec, bytes: Bytes, done: ReadResult)
    requires done.validBytes <= |bytes| && ReadFrom(codec, bytes, done).Ok?
    ensures done.validBytes <= ReadFrom(codec, bytes, done).value.validBytes <= |bytes|
    ensures done.events <= ReadFrom(codec, bytes, done).value.events
    ensures !done.truncatedTail ==>
              (ReadFrom(codec, bytes, done).value.truncatedTail
               <==> ReadFrom(codec, bytes, done).value.validBytes < |bytes|)
    decreases |bytes| - done.validBytes
  {
    StopsBeforeEnd(codec, bytes, done.validBytes);
    hide FrameAt;
    var here := FrameAt(codec, bytes, done.validBytes);
    if here.Whole? {
      WholeFrameFits(codec, bytes, done.validBytes);
      ReadStopsInside(codec, bytes, ReadResult(done.events + [here.event], false, done.validBytes + here.size));
    }
  }

  /** For arbitrary accepted bytes, re-reading the valid prefix gives the same events, untruncated. */
  lemma {:induction false} RereadValidPrefix(codec: Codec, bytes: Bytes, done: ReadResult, result: ReadResult)
    requires done.validBytes <= |bytes| && !done.truncatedTail && ReadFrom(codec, bytes, done) == Ok(result)
    ensures done.validBytes <= result.validBytes <= |bytes|
    ensures ReadFrom(codec, bytes[..result.validBytes], done) == Ok(result.(truncatedTail := false))
    decreases |bytes| - done.validBytes
  {
    hide FrameAt;
    ReadStopsInside(codec, bytes, done);
    var here := FrameAt(codec, bytes, done.validBytes);
    if here.Whole? {
      WholeFrameFits(codec, bytes, done.validBytes);
      var next := ReadResult(done.events + [here.event], false, done.validBytes + here.size);
      RereadValidPrefix(codec, bytes, next, result);
      var prefix := bytes[..result.validBytes];
      assert prefix[..next.validBytes] == bytes[..next.validBytes];
      WholeFrameIsLocal(codec, bytes, prefix, done.validBytes);
    } else {
      FrameAtOwnEnd(codec, bytes[..result.validBytes]);
    }
  }

  lemma FrameAtOwnEnd(codec: Codec, bytes: Bytes)
    ensures FrameAt(codec, bytes, |bytes|) == AtEnd
  {
  }

  lemma FrameLayout(codec: Codec, e: Event)
    requires Faithful(codec) && Encodable(codec, e)
    ensures var f, payload := Frame(codec, e), codec.encode(e);
      && |f| == HEADER_BYTES + |payload| && |payload| > 0
      && f[0..4] == MAGIC && FromBigEndian32(f[4..8]) == |payload|
      && FromBigEndian32(f[8..12]) == codec.checksum(payload) && f[12..] == payload
  {
    var payload := codec.encode(e);
    BigEndianRoundTrip(|payload|);
    BigEndianRoundTrip(codec.checksum(payload));
    var f := Frame(codec, e);
    assert f[4..8] == BigEndian32(|payload|);
    assert f[8..12] == BigEndian32(codec.checksum(payload));
  }

  /** A cut frame reads as nothing, as a torn tail, or as the whole event. */
  lemma CutFrame(codec: Codec, before: Bytes, e: Event, cut: nat)
    requires Faithful(codec) && Encodable(codec, e) && cut <= |Frame(codec, e)|
    ensures FrameAt(codec, before + Frame(codec, e)[..cut], |before|) ==
              if cut == 0 then AtEnd else if cut < |Frame(codec, e)| then Torn else Whole(e, |Frame(codec, e)|)
  {
    FrameLayout(codec, e);
    var f := Frame(codec, e);
    var bytes := before + f[..cut];
    forall i, j | 0 <= i <= j <= cut ensures bytes[|before| + i..|before| + j] == f[i..j] {
    }
    if cut == |f| { assert f[12..] == f[12..cut]; }
  }

  /** Appending a prefix of the next event's frame to a cleanly ending journal. */
  lemma {:induction false} ReadAfterCutAppend(codec: Codec, bytes: Bytes, done: ReadResult, result: ReadResult,
                                              e: Event, cut: nat)
    requires Faithful(codec) && Encodable(codec, e) && cut <= |Frame(codec, e)|
    requires done.validBytes <= |bytes| && !done.truncatedTail && ReadFrom(codec, bytes, done) == Ok(result)
    requires !result.truncatedTail && Continuation(result.events, e) == None
    ensures ReadFrom(codec, bytes + Frame(codec, e)[..cut], done) == Ok(
              if cut < |Frame(codec, e)| then result.(truncatedTail := cut > 0)
              else ReadResult(result.events + [e], false, |bytes| + |Frame(codec, e)|))
    decreases |bytes| - done.validBytes
  {
    hide FrameAt, Frame, Encodable;
    ReadStopsInside(codec, bytes, done);
    FrameAtOwnEnd(codec, bytes);
    var f := Frame(codec, e);
    var longer := bytes + f[..cut];
    var here := FrameAt(codec, bytes, done.validBytes);
    if here.Whole? {
      WholeFrameFits(codec, bytes, done.validBytes);
      var next := ReadResult(done.events + [here.event], false, done.validBytes + here.size);
      assert longer[..next.validBytes] == bytes[..next.validBytes];
      WholeFrameIsLocal(codec, bytes, longer, done.validBytes);
      ReadAfterCutAppend(codec, bytes, next, result, e, cut);
    } else {
      CutFrame(codec, bytes, e, cut);
      FrameLayout(codec, e);
      assert f[..|f|] == f;
      if cut == |f| { FrameAtEnd(codec, longer, ReadResult(done.events + [e], false, |longer|)); }
    }
  }

  lemma FrameAtEnd(codec: Codec, bytes: Bytes, done: ReadResult)
    requires done.validBytes == |bytes|
    ensures ReadFrom(codec, bytes, done) == Ok(done)
  {
  }

  // Whole journals

  /** Events that a writer can have written: numbered from one, of one run, and encodable. */
  ghost predicate Writable(codec: Codec, events: seq<Event>) {
    forall i :: 0 <= i < |events| ==> Encodable(codec, events[i]) && Continuation(events[..i], events[i]) == None
  }

  function JournalBytes(codec: Codec, events: seq<Event>): Bytes
    requires forall e :: e in events ==> Encodable(codec, e)
  {
    if events == [] then []
    else JournalBytes(codec, events[..|events| - 1]) + Frame(codec, events[|events| - 1])
  }

  /** How many whole frames a prefix of the journal holds. */
  function WholeFrames(codec: Codec, events: seq<Event>, cut: nat): (count: nat)
    requires forall e :: e in events ==> Encodable(codec, e)
    ensures count <= |events|
  {
    if events == [] || |JournalBytes(codec, events)| <= cut then |events|
    else WholeFrames(codec, events[..|events| - 1], cut)
  }

  /** What reading the first cut bytes of a journal must give. */
  ghost function PrefixReading(codec: Codec, events: seq<Event>, cut: nat): ReadResult
    requires forall e :: e in events ==> Encodable(codec, e)
  {
    var kept := events[..WholeFrames(codec, events, cut)];
    ReadResult(kept, cut != |JournalBytes(codec, kept)|, |JournalBytes(codec, kept)|)
  }

  lemma JournalGrows(codec: Codec, events: seq<Event>)
    requires Writable(codec, events) && events != []
    ensures var front := events[..|events| - 1];
      && Writable(codec, front) && Encodable(codec, events[|events| - 1])
      && (forall x :: x in front ==> Encodable(codec, x))
      && Continuation(front, events[|events| - 1]) == None
      && events == front + [events[|events| - 1]]
      && JournalBytes(codec, events) == JournalBytes(codec, front) + Frame(codec, events[|events| - 1])
  {
    hide Encodable, Frame, Continuation;
    var front := events[..|events| - 1];
    assert forall i :: 0 <= i < |front| ==> front[i] == events[i] && front[..i] == events[..i];
  }

  /** The cut falls into, or at the end of, the last frame. */
  lemma ReadIntoLastFrame(codec: Codec, events: seq<Event>, cut: nat)
    requires Faithful(codec) && Writable(codec, events) && events != []
    requires var front := events[..|events| - 1]; var bytes := JournalBytes(codec, front);
      && |bytes| < cut <= |JournalBytes(codec, events)|
      && ReadJournal(codec, bytes) == Ok(ReadResult(front, false, |bytes|))
    ensures ReadJournal(codec, JournalBytes(codec, events)[..cut]) == Ok(PrefixReading(codec, events, cut))
  {
    hide FrameAt, Frame, Encodable, ReadFrom, WholeFrames, JournalBytes, Faithful, Writable;
    JournalGrows(codec, events);
    var front, e := events[..|events| - 1], events[|events| - 1];
    var bytes, f := JournalBytes(codec, front), Frame(codec, e);
    ReadAfterCutAppend(codec, bytes, NOTHING, ReadResult(front, false, |bytes|), e, cut - |bytes|);
    assert (bytes + f)[..cut] == bytes + f[..cut - |bytes|];
    CountPartialLast(codec, events, cut);
    assert events[..|events|] == events;
  }

  /**
   Reading any byte prefix of a journal succeeds and yields exactly the events of its whole frames;
   the tail is reported as truncated exactly when the cut falls inside a frame.
   */
  lemma {:induction false} ReadAnyPrefix(codec: Codec, events: seq<Event>, cut: nat)
    requires Faithful(codec) && Writable(codec, events) && cut <= |JournalBytes(codec, events)|
    ensures ReadJournal(codec, JournalBytes(codec, events)[..cut]) == Ok(PrefixReading(codec, events, cut))
    decreases |events|
  {
    hide FrameAt, Frame, Encodable, ReadFrom, WholeFrames, JournalBytes, Faithful, Writable;
    if events == [] {
      EmptyJournal(codec, events, cut);
    } else {
      JournalGrows(codec, events);
      var front, e := events[..|events| - 1], events[|events| - 1];
      var bytes := JournalBytes(codec, front);
      if cut <= |bytes| {
        ReadAnyPrefix(codec, front, cut);
        assert JournalBytes(codec, events)[..cut] == bytes[..cut];
        CountBeforeLast(codec, events, cut);
      } else {
        ReadAnyPrefix(codec, front, |bytes|);
        WholeFramesOfAll(codec, front);
        assert bytes[..|bytes|] == bytes && front[..|front|] == front;
        ReadIntoLastFrame(codec, events, cut);
      }
    }
  }

  lemma EmptyJournal(codec: Codec, events: seq<Event>, cut: nat)
    requires events == [] && cut <= |JournalBytes(codec, events)|
    ensures ReadJournal(codec, JournalBytes(codec, events)[..cut]) == Ok(PrefixReading(codec, events, cut))
  {
  }

  lemma WholeFramesOfAll(codec: Codec, events: seq<Event>)
    requires forall e :: e in events ==> Encodable(codec, e)
    ensures WholeFrames(codec, events, |JournalBytes(codec, events)|) == |events|
  {
  }

  lemma CountBeforeLast(codec: Codec, events: seq<Event>, cut: nat)
    requires Faithful(codec) && Writable(codec, events) && events != []
    requires cut <= |JournalBytes(codec, events[..|events| - 1])|
    ensures WholeFrames(codec, events, cut) == WholeFrames(codec, events[..|events| - 1], cut)
    ensures var count := WholeFrames(codec, events, cut); events[..|events| - 1][..count] == events[..count]
  {
    FrameLayout(codec, events[|events| - 1]);
  }

  lemma CountPartialLast(codec: Codec, events: seq<Event>, cut: nat)
    requires Faithful(codec) && Writable(codec, events) && events != []
    requires |JournalBytes(codec, events[..|events| - 1])| < cut <= |JournalBytes(codec, events)|
    ensures WholeFrames(codec, events, cut) == if cut == |JournalBytes(codec, events)| then |events| else |events| - 1
  {
    var front := events[..|events| - 1];
    assert WholeFrames(codec, front, cut) == |front|;
  }
}
