/**
 What the reader accepts, in terms of what a writer writes: every file is a sequence of whole frames and
 one last piece, and that piece alone decides whether the reader ends cleanly, finds a torn tail or fails.
 */
module FrameLayouts {
  import opened Domain
  import opened Events
  import opened Frames

  // Files as frames

  /** The frames of some payloads, one after another. */
  function FramesOf(codec: Codec, payloads: seq<Bytes>): Bytes
    requires forall p :: p in payloads ==> |p| <= MAX_RECORD_BYTES
  {
    if payloads == [] then []
    else FramesOf(codec, payloads[..|payloads| - 1]) + Framed(codec, payloads[|payloads| - 1])
  }

  ghost predicate Decodes(codec: Codec, payload: Bytes, e: Event) {
    1 <= |payload| <= MAX_RECORD_BYTES && codec.decode(payload) == Some(e) && ValidEvent(e)
  }

  predicate Decodable(codec: Codec, payload: Bytes) {
    codec.decode(payload).Some? && ValidEvent(codec.decode(payload).value)
  }

  /** The payloads decode to the events, which are numbered from one and belong to one run. */
  ghost predicate Holds(codec: Codec, payloads: seq<Bytes>, events: seq<Event>) {
    && |payloads| == |events|
    && (forall i :: 0 <= i < |events| ==> Decodes(codec, payloads[i], events[i]))
    && (forall i :: 0 <= i < |events| ==>
          events[i].sequence == i + 1 && events[i].entry.runId == events[0].entry.runId)
  }

  /** What can follow the accepted frames of a file. */
  datatype Ending =
    | Nothing
    | PartOfHeader(part: Bytes)
    | PartOfPayload(length: Uint32, sum: Uint32, part: Bytes)
    | OtherMagic(header: Bytes, rest: Bytes)
    | OtherLength(length: Uint32, sum: Uint32, rest: Bytes)
    | OtherChecksum(payload: Bytes, sum: Uint32, rest: Bytes)
    | NoEvent(payload: Bytes, rest: Bytes)
    | NotNext(payload: Bytes, e: Event, rest: Bytes)
    | NotOfRun(payload: Bytes, e: Event, rest: Bytes)

  function Header(length: Uint32, sum: Uint32): Bytes {
    [0x44, 0x50, 0x4A, 0x31] + BigEndian32(length) + BigEndian32(sum)
  }

  function EndingBytes(codec: Codec, ending: Ending): Bytes {
    match ending
    case Nothing => []
    case PartOfHeader(part) => part
    case PartOfPayload(length, sum, part) => Header(length, sum) + part
    case OtherMagic(header, rest) => header + rest
    case OtherLength(length, sum, rest) => Header(length, sum) + rest
    case OtherChecksum(payload, sum, rest) => Header(|payload| % UINT32_LIMIT, sum) + payload + rest
    case NoEvent(payload, rest) => Header(|payload| % UINT32_LIMIT, codec.checksum(payload)) + payload + rest
    case NotNext(payload, _, rest) => Header(|payload| % UINT32_LIMIT, codec.checksum(payload)) + payload + rest
    case NotOfRun(payload, _, rest) => Header(|payload| % UINT32_LIMIT, codec.checksum(payload)) + payload + rest
  }

  /** The ending is what its name says. */
  ghost predicate ProperEnding(codec: Codec, events: seq<Event>, ending: Ending) {
    match ending
    case Nothing => true
    case PartOfHeader(part) => 1 <= |part| < 12
    case PartOfPayload(length, _, part) => |part| < length <= MAX_RECORD_BYTES
    case OtherMagic(header, _) => |header| == 12 && header[..4] != [0x44, 0x50, 0x4A, 0x31]
    case OtherLength(length, _, _) => length == 0 || length > MAX_RECORD_BYTES
    case OtherChecksum(payload, sum, _) => 1 <= |payload| <= MAX_RECORD_BYTES && sum != codec.checksum(payload)
    case NoEvent(payload, _) => 1 <= |payload| <= MAX_RECORD_BYTES && !Decodable(codec, payload)
    case NotNext(payload, e, _) => Decodes(codec, payload, e) && e.sequence != |events| + 1
    case NotOfRun(payload, e, _) =>
      && Decodes(codec, payload, e) && e.sequence == |events| + 1
      && events != [] && e.entry.runId != events[0].entry.runId
  }

  /** What the reader must say of a file that ends so. */
  function Reading(events: seq<Event>, validBytes: nat, ending: Ending): Result<ReadResult, ReadError> {
    match ending
    case Nothing => Ok(ReadResult(events, false, validBytes))
    case PartOfHeader(_) => Ok(ReadResult(events, true, validBytes))
    case PartOfPayload(_, _, _) => Ok(ReadResult(events, true, validBytes))
    case OtherMagic(_, _) => Err(InvalidMagic)
    case OtherLength(_, _, _) => Err(InvalidLength)
    case OtherChecksum(_, _, _) => Err(ChecksumMismatch)
    case NoEvent(_, _) => Err(CorruptRecord)
    case NotNext(_, _, _) => Err(SequenceGap)
    case NotOfRun(_, _, _) => Err(MultipleRunIds)
  }

  // One position

  lemma BigEndianInverse(b: Bytes)
    requires |b| == 4
    ensures BigEndian32(FromBigEndian32(b)) == b
  {
    var n := FromBigEndian32(b);
    assert n / 0x100 == (b[0] as int) * 0x1_0000 + (b[1] as int) * 0x100 + (b[2] as int);
    assert n / 0x1_0000 == (b[0] as int) * 0x100 + (b[1] as int);
    assert n / 0x100_0000 == b[0] as int;
  }

  /** The frame at a position is the first frame of the rest. */
  lemma FrameOfRest(codec: Codec, bytes: Bytes, position: nat)
    requires position <= |bytes|
    ensures FrameAt(codec, bytes, position) == FrameAt(codec, bytes[position..], 0)
  {
    var rest := bytes[position..];
    forall i, j | 0 <= i <= j <= |rest|
      ensures rest[i..j] == bytes[position + i..position + j]
    {
    }
  }

  lemma HeaderParts(length: Uint32, sum: Uint32, rest: Bytes)
    ensures var bytes := Header(length, sum) + rest;
      && |bytes| == 12 + |rest| && bytes[0..4] == MAGIC && FromBigEndian32(bytes[4..8]) == length
      && FromBigEndian32(bytes[8..12]) == sum && bytes[12..] == rest
  {
    BigEndianRoundTrip(length);
    BigEndianRoundTrip(sum);
    var bytes := Header(length, sum) + rest;
    assert bytes[4..8] == BigEndian32(length);
    assert bytes[8..12] == BigEndian32(sum);
  }

  lemma HeaderOf(bytes: Bytes)
    requires |bytes| >= 12 && bytes[0..4] == MAGIC
    ensures bytes == Header(FromBigEndian32(bytes[4..8]), FromBigEndian32(bytes[8..12])) + bytes[12..]
  {
    BigEndianInverse(bytes[4..8]);
    BigEndianInverse(bytes[8..12]);
    hide BigEndian32, FromBigEndian32;
  }

  /** What the reader meets where the accepted frames end. */
  ghost predicate Meets(codec: Codec, events: seq<Event>, ending: Ending, met: Encounter) {
    match Reading(events, 0, ending)
    case Ok(result) => met == if result.truncatedTail then Torn else AtEnd
    case Err(error) => met == Bad(error) || (met.Whole? && Continuation(events, met.event) == Some(error))
  }

  lemma EndingIsMet(codec: Codec, events: seq<Event>, ending: Ending)
    requires ProperEnding(codec, events, ending)
    ensures Meets(codec, events, ending, FrameAt(codec, EndingBytes(codec, ending), 0))
  {
    hide BigEndian32, FromBigEndian32, ValidEvent, Header, FrameAt;
    match ending {
      case Nothing => FrameAtOwnEnd(codec, []);
      case PartOfHeader(part) => PartIsTorn(codec, part);
      case PartOfPayload(length, sum, part) => PartOfPayloadIsTorn(codec, length, sum, part);
      case OtherMagic(header, rest) => OtherMagicIsBad(codec, header, rest);
      case OtherLength(length, sum, rest) => OtherLengthIsBad(codec, length, sum, rest);
      case OtherChecksum(payload, sum, rest) => WholePayloadMet(codec, payload, sum, rest);
      case NoEvent(payload, rest) => WholePayloadMet(codec, payload, codec.checksum(payload), rest);
      case NotNext(payload, e, rest) => WholePayloadMet(codec, payload, codec.checksum(payload), rest);
      case NotOfRun(payload, e, rest) => WholePayloadMet(codec, payload, codec.checksum(payload), rest);
    }
  }

  lemma PartIsTorn(codec: Codec, part: Bytes)
    requires 1 <= |part| < 12
    ensures FrameAt(codec, part, 0) == Torn
  {
  }

  lemma PartOfPayloadIsTorn(codec: Codec, length: Uint32, sum: Uint32, part: Bytes)
    requires |part| < length <= MAX_RECORD_BYTES
    ensures FrameAt(codec, Header(length, sum) + part, 0) == Torn
  {
    HeaderParts(length, sum, part);
    hide BigEndian32, FromBigEndian32, ValidEvent, Header;
  }

  lemma OtherMagicIsBad(codec: Codec, header: Bytes, rest: Bytes)
    requires |header| == 12 && header[..4] != MAGIC
    ensures FrameAt(codec, header + rest, 0) == Bad(InvalidMagic)
  {
    hide FromBigEndian32, ValidEvent;
    assert (header + rest)[0..4] == header[..4];
  }

  lemma OtherLengthIsBad(codec: Codec, length: Uint32, sum: Uint32, rest: Bytes)
    requires length == 0 || length > MAX_RECORD_BYTES
    ensures FrameAt(codec, Header(length, sum) + rest, 0) == Bad(InvalidLength)
  {
    HeaderParts(length, sum, rest);
    hide BigEndian32, FromBigEndian32, ValidEvent, Header;
  }

  lemma WholePayloadMet(codec: Codec, payload: Bytes, sum: Uint32, rest: Bytes)
    requires 1 <= |payload| <= MAX_RECORD_BYTES
    ensures FrameAt(codec, Header(|payload|, sum) + payload + rest, 0)
            == if sum != codec.checksum(payload) then Bad(ChecksumMismatch)
               else if Decodable(codec, payload) then Whole(codec.decode(payload).value, 12 + |payload|)
               else Bad(CorruptRecord)
  {
    PayloadAfterHeader(payload, sum, rest);
    hide BigEndian32, FromBigEndian32, ValidEvent, Header;
  }

  lemma PayloadAfterHeader(payload: Bytes, sum: Uint32, rest: Bytes)
    requires |payload| <= MAX_RECORD_BYTES
    ensures var bytes := Header(|payload|, sum) + payload + rest;
      && |bytes| == 12 + |payload| + |rest| && bytes[0..4] == MAGIC && FromBigEndian32(bytes[4..8]) == |payload|
      && FromBigEndian32(bytes[8..12]) == sum && bytes[12..12 + |payload|] == payload
  {
    hide BigEndian32, FromBigEndian32;
    HeaderParts(|payload|, sum, payload + rest);
    var bytes := Header(|payload|, sum) + payload + rest;
    assert bytes == Header(|payload|, sum) + (payload + rest);
    assert bytes[12..12 + |payload|] == bytes[12..][..|payload|];
  }

  /** A whole frame at the start is recognized. */
  lemma FrameOfPayload(codec: Codec, payload: Bytes, e: Event, rest: Bytes)
    requires Decodes(codec, payload, e)
    ensures FrameAt(codec, Framed(codec, payload) + rest, 0) == Whole(e, 12 + |payload|)
    ensures |Framed(codec, payload)| == 12 + |payload|
  {
    hide BigEndian32, FromBigEndian32, ValidEvent, FrameAt;
    WholePayloadMet(codec, payload, codec.checksum(payload), rest);
    PayloadAfterHeader(payload, codec.checksum(payload), []);
    assert Header(|payload|, codec.checksum(payload)) + payload + [] == Framed(codec, payload);
  }

  // Whole files

  /** The frames of the first payloads lie before the others. */
  lemma {:induction false} FramesSplit(codec: Codec, payloads: seq<Bytes>, i: nat)
    requires i < |payloads| && forall p :: p in payloads ==> |p| <= MAX_RECORD_BYTES
    ensures FramesOf(codec, payloads[..i + 1]) == FramesOf(codec, payloads[..i]) + Framed(codec, payloads[i])
    ensures FramesOf(codec, payloads[..i + 1]) <= FramesOf(codec, payloads)
    decreases |payloads|
  {
    hide Framed;
    assert payloads[..i + 1][..i] == payloads[..i];
    if i + 1 == |payloads| {
      assert payloads[..i + 1] == payloads;
    } else {
      var front := payloads[..|payloads| - 1];
      assert front[..i + 1] == payloads[..i + 1] && front[..i] == payloads[..i];
      FramesSplit(codec, front, i);
    }
  }

  lemma HeldPayloadsFit(codec: Codec, payloads: seq<Bytes>, events: seq<Event>)
    requires Holds(codec, payloads, events)
    ensures forall p :: p in payloads ==> |p| <= MAX_RECORD_BYTES
  {
    forall p | p in payloads ensures |p| <= MAX_RECORD_BYTES {
      var i :| 0 <= i < |payloads| && payloads[i] == p;
      assert Decodes(codec, payloads[i], events[i]);
    }
  }

  /** From the end of the first i frames the reader goes on to the end of the file. */
  lemma {:induction false} ReadsOn(codec: Codec, payloads: seq<Bytes>, events: seq<Event>, ending: Ending, i: nat)
    requires Holds(codec, payloads, events) && ProperEnding(codec, events, ending) && i <= |payloads|
    requires forall p :: p in payloads ==> |p| <= MAX_RECORD_BYTES
    ensures var frames, done := FramesOf(codec, payloads), FramesOf(codec, payloads[..i]);
      && |done| <= |frames|
      && ReadFrom(codec, frames + EndingBytes(codec, ending), ReadResult(events[..i], false, |done|))
         == Reading(events, |frames|, ending)
    decreases |payloads| - i
  {
    hide Framed, FrameAt, FramesOf, EndingBytes, ProperEnding, ValidEvent;
    var frames, tail := FramesOf(codec, payloads), EndingBytes(codec, ending);
    var done, bytes := FramesOf(codec, payloads[..i]), frames + tail;
    if i == |payloads| {
      assert payloads[..i] == payloads && events[..i] == events;
      EndingIsMet(codec, events, ending);
      assert bytes[|frames|..] == tail;
      FrameOfRest(codec, bytes, |frames|);
    } else {
      FramesSplit(codec, payloads, i);
      var rest := bytes[|done| + |Framed(codec, payloads[i])|..];
      assert Decodes(codec, payloads[i], events[i]);
      FrameOfPayload(codec, payloads[i], events[i], rest);
      assert bytes[|done|..] == Framed(codec, payloads[i]) + rest;
      FrameOfRest(codec, bytes, |done|);
      assert events[..i + 1] == events[..i] + [events[i]];
      assert Continuation(events[..i], events[i]) == None;
      ReadsOn(codec, payloads, events, ending, i + 1);
    }
  }

  /**
   Reading a file of whole frames and a last piece: the frames are read as their events, and the last piece
   decides. A wrong magic number, length or checksum, a payload that is no event, a gap in the numbers or
   another run after any number of good frames is reported as such, and only an incomplete frame is torn.
   */
  lemma ReadDecides(codec: Codec, payloads: seq<Bytes>, events: seq<Event>, ending: Ending)
    requires Holds(codec, payloads, events) && ProperEnding(codec, events, ending)
    ensures forall p :: p in payloads ==> |p| <= MAX_RECORD_BYTES
    ensures var frames := FramesOf(codec, payloads);
      ReadJournal(codec, frames + EndingBytes(codec, ending)) == Reading(events, |frames|, ending)
  {
    hide Holds, ProperEnding, EndingBytes, ReadFrom, Reading;
    HeldPayloadsFit(codec, payloads, events);
    ReadsOn(codec, payloads, events, ending, 0);
    assert FramesOf(codec, payloads[..0]) == [] && events[..0] == [];
  }

  /** A header announces a payload of a proper length that is all there. */
  predicate Complete(rest: Bytes) {
    && |rest| >= 12 && rest[0..4] == MAGIC
    && 1 <= FromBigEndian32(rest[4..8]) <= MAX_RECORD_BYTES && 12 + FromBigEndian32(rest[4..8]) <= |rest|
  }

  lemma IncompleteEnds(codec: Codec, events: seq<Event>, rest: Bytes) returns (ending: Ending)
    requires !Complete(rest)
    ensures ProperEnding(codec, events, ending) && EndingBytes(codec, ending) == rest
  {
    if rest == [] { return Nothing; }
    if |rest| < 12 { return PartOfHeader(rest); }
    if rest[0..4] != MAGIC {
      assert rest[..12][..4] == rest[0..4];
      return OtherMagic(rest[..12], rest[12..]);
    }
    HeaderOf(rest);
    hide FromBigEndian32, BigEndian32, Header;
    var length, sum := FromBigEndian32(rest[4..8]), FromBigEndian32(rest[8..12]);
    if length == 0 || length > MAX_RECORD_BYTES { return OtherLength(length, sum, rest[12..]); }
    ending := PartOfPayload(length, sum, rest[12..]);
  }

  lemma CompleteParts(rest: Bytes) returns (payload: Bytes, sum: Uint32, more: Bytes)
    requires Complete(rest)
    ensures 1 <= |payload| <= MAX_RECORD_BYTES && rest == Header(|payload|, sum) + payload + more
  {
    HeaderOf(rest);
    hide FromBigEndian32, BigEndian32, Header;
    var length := FromBigEndian32(rest[4..8]);
    sum := FromBigEndian32(rest[8..12]);
    payload, more := rest[12..12 + length], rest[12 + length..];
    assert rest[12..] == payload + more;
    assert Header(length, sum) + (payload + more) == Header(length, sum) + payload + more;
  }

  /** The payload is not the next event of the run. */
  lemma PayloadEnds(codec: Codec, events: seq<Event>, payload: Bytes, sum: Uint32, more: Bytes) returns (ending: Ending)
    requires 1 <= |payload| <= MAX_RECORD_BYTES
    requires sum == codec.checksum(payload) && Decodable(codec, payload) ==>
               Continuation(events, codec.decode(payload).value).Some?
    ensures ProperEnding(codec, events, ending)
    ensures EndingBytes(codec, ending) == Header(|payload|, sum) + payload + more
  {
    hide Header, ValidEvent;
    if sum != codec.checksum(payload) { return OtherChecksum(payload, sum, more); }
    if !Decodable(codec, payload) { return NoEvent(payload, more); }
    var e := codec.decode(payload).value;
    ending := if e.sequence != |events| + 1 then NotNext(payload, e, more) else NotOfRun(payload, e, more);
  }

  /** The rest of a file at some position begins with a whole frame of the next event, or is an ending. */
  lemma RestIsFrameOrEnding(codec: Codec, events: seq<Event>, rest: Bytes) returns (payload: Bytes, ending: Ending)
    ensures var met := FrameAt(codec, rest, 0);
      if met.Whole? && Continuation(events, met.event).None? then
        && Decodes(codec, payload, met.event) && met.size == 12 + |payload| && met.size <= |rest|
        && rest[..met.size] == Framed(codec, payload)
      else ProperEnding(codec, events, ending) && EndingBytes(codec, ending) == rest
  {
    hide FrameAt, ProperEnding, EndingBytes, Header, Complete, ValidEvent, Framed;
    payload, ending := [], Nothing;
    if !Complete(rest) {
      ending := IncompleteEnds(codec, events, rest);
      EndingIsMet(codec, events, ending);
    } else {
      var sum, more;
      payload, sum, more := CompleteParts(rest);
      WholePayloadMet(codec, payload, sum, more);
      var met := FrameAt(codec, rest, 0);
      if met.Whole? && Continuation(events, met.event).None? {
        FrameBytes(codec, payload, more);
      } else {
        ending := PayloadEnds(codec, events, payload, sum, more);
      }
    }
  }

  lemma FrameBytes(codec: Codec, payload: Bytes, more: Bytes)
    requires |payload| <= MAX_RECORD_BYTES
    ensures var rest := Header(|payload|, codec.checksum(payload)) + payload + more;
      |rest| >= 12 + |payload| && rest[..12 + |payload|] == Framed(codec, payload)
  {
    PayloadAfterHeader(payload, codec.checksum(payload), []);
    assert Header(|payload|, codec.checksum(payload)) + payload + [] == Framed(codec, payload);
  }

  /** The frames from a position on, and what follows them. */
  lemma {:induction false} FramesFrom(codec: Codec, bytes: Bytes, payloads: seq<Bytes>, events: seq<Event>)
    returns (all: seq<Bytes>, found: seq<Event>, ending: Ending)
    requires Holds(codec, payloads, events) && forall p :: p in payloads ==> |p| <= MAX_RECORD_BYTES
    requires FramesOf(codec, payloads) <= bytes
    ensures Holds(codec, all, found) && ProperEnding(codec, found, ending)
    ensures forall p :: p in all ==> |p| <= MAX_RECORD_BYTES
    ensures bytes == FramesOf(codec, all) + EndingBytes(codec, ending)
    decreases |bytes| - |FramesOf(codec, payloads)|
  {
    hide Framed, FrameAt, FramesOf, EndingBytes, ProperEnding, ValidEvent;
    var frames := FramesOf(codec, payloads);
    var rest := bytes[|frames|..];
    var payload;
    payload, ending := RestIsFrameOrEnding(codec, events, rest);
    var met := FrameAt(codec, rest, 0);
    if met.Whole? && Continuation(events, met.event).None? {
      HoldsMore(codec, payloads, events, payload, met.event);
      FramesOfMore(codec, payloads, payload);
      assert frames + rest == bytes;
      assert rest == Framed(codec, payload) + rest[met.size..];
      all, found, ending := FramesFrom(codec, bytes, payloads + [payload], events + [met.event]);
    } else {
      all, found := payloads, events;
    }
  }

  lemma HoldsMore(codec: Codec, payloads: seq<Bytes>, events: seq<Event>, payload: Bytes, e: Event)
    requires Holds(codec, payloads, events) && Decodes(codec, payload, e) && Continuation(events, e).None?
    ensures Holds(codec, payloads + [payload], events + [e])
  {
  }

  lemma FramesOfMore(codec: Codec, payloads: seq<Bytes>, payload: Bytes)
    requires |payload| <= MAX_RECORD_BYTES && forall p :: p in payloads ==> |p| <= MAX_RECORD_BYTES
    ensures FramesOf(codec, payloads + [payload]) == FramesOf(codec, payloads) + Framed(codec, payload)
    ensures |Framed(codec, payload)| >= 12
  {
    assert (payloads + [payload])[..|payloads|] == payloads;
  }

  /**
   Arbitrary bytes are such a file, and are read accordingly: what the reader accepts are the frames, as a
   writer writes them with their checksums, of payloads that decode to the events it returns.
   */
  lemma ReadIsExact(codec: Codec, bytes: Bytes) returns (payloads: seq<Bytes>, events: seq<Event>, ending: Ending)
    ensures Holds(codec, payloads, events) && ProperEnding(codec, events, ending)
    ensures forall p :: p in payloads ==> |p| <= MAX_RECORD_BYTES
    ensures var frames := FramesOf(codec, payloads);
      bytes == frames + EndingBytes(codec, ending) && ReadJournal(codec, bytes) == Reading(events, |frames|, ending)
  {
    hide ProperEnding, EndingBytes, ReadFrom, Reading;
    payloads, events, ending := FramesFrom(codec, bytes, [], []);
    ReadDecides(codec, payloads, events, ending);
  }

  /** So accepted bytes are, up to the valid length, the frames of payloads that decode to the events found. */
  lemma AcceptedBytesAreFrames(codec: Codec, bytes: Bytes, result: ReadResult) returns (payloads: seq<Bytes>)
    requires ReadJournal(codec, bytes) == Ok(result)
    ensures Holds(codec, payloads, result.events) && forall p :: p in payloads ==> |p| <= MAX_RECORD_BYTES
    ensures result.validBytes <= |bytes| && bytes[..result.validBytes] == FramesOf(codec, payloads)
  {
    hide Holds, ProperEnding, EndingBytes, ReadFrom;
    var events, ending;
    payloads, events, ending := ReadIsExact(codec, bytes);
    assert bytes[..|FramesOf(codec, payloads)|] == FramesOf(codec, payloads);
  }
}
