/** Tracks of a Standard MIDI File as bytes: the events that `mf_write_midi_event` and
    `mf_write_meta_event` write, and what `readtrack` makes of them (midifile.c). */
module MidiFormat {
  import opened VarLen

  /** What `chanmessage` passes to the callbacks. */
  datatype Message =
    | NoteOff(chan: nat, c1: Byte, c2: Byte)
    | NoteOn(chan: nat, c1: Byte, c2: Byte)
    | Pressure(chan: nat, c1: Byte, c2: Byte)
    | Parameter(chan: nat, c1: Byte, c2: Byte)
    | PitchBend(chan: nat, c1: Byte, c2: Byte)
    | Program(chan: nat, c1: Byte)
    | ChanPressure(chan: nat, c1: Byte)

  /** A callback, with Mf_currtime as it is when it is called. */
  datatype Report =
    | ChannelReport(time: nat, message: Message)
    | MetaReport(time: nat, kind: Byte, data: seq<Byte>)
    | SysexReport(time: nat, data: seq<Byte>)
    | ArbitraryReport(time: nat, data: seq<Byte>)

  /** The table `chantype`: data bytes that follow a status byte, 0 if it is not the status
      of a channel message. */
  function Needed(status: Byte): (n: nat)
    ensures n <= 2
  {
    var h := status / 16;
    if 8 <= h <= 11 || h == 14 then 2 else if h == 12 || h == 13 then 1 else 0
  }

  /** `chanmessage` */
  function Dispatch(status: Byte, c1: Byte, c2: Byte): Message
    requires Needed(status) > 0
  {
    var chan, h := status % 16, status / 16;
    if h == 8 then NoteOff(chan, c1, c2)
    else if h == 9 then NoteOn(chan, c1, c2)
    else if h == 10 then Pressure(chan, c1, c2)
    else if h == 11 then Parameter(chan, c1, c2)
    else if h == 12 then Program(chan, c1)
    else if h == 13 then ChanPressure(chan, c1)
    else PitchBend(chan, c1, c2)
  }

  /** The variables of `readtrack`: the place in the file, Mf_currtime, `status` (0 before
      the first), `sysexcontinue`, the message buffer, and the callbacks made. */
  datatype Reading = Reading(
    pos: nat, time: nat, status: Byte, inSysex: bool, msg: seq<Byte>, reports: seq<Report>)

  function NextByte(s: seq<Byte>, i: nat): (r: Result<Byte>)
    ensures r.Ok? ==> i < |s| && r.value == s[i]
  {
    if i < |s| then Ok(s[i]) else Err(PrematureEof)
  }

  function NextBytes(s: seq<Byte>, i: nat, n: nat): (r: Result<seq<Byte>>)
    ensures r.Ok? ==> i + n <= |s|
  {
    if i + n <= |s| then Ok(s[i..i + n]) else Err(PrematureEof)
  }

  function LastOr(s: seq<Byte>, b: Byte): Byte {
    if s == [] then b else s[|s| - 1]
  }

  /** A message with its length in front. */
  function ReadMessage(s: seq<Byte>, i: nat): (r: Result<(seq<Byte>, nat)>)
    ensures r.Ok? ==> i < r.value.1 <= |s|
  {
    var (length, j) :- ReadQuantity(s, i);
    var data :- NextBytes(s, j, length);
    Ok((data, j + length))
  }

  /** A channel message from position `p`, where its status byte stands, or its first data
      byte if the status is the running one. */
  function ReadChannel(s: seq<Byte>, t: Reading, p: nat, running: bool): (r: Result<Reading>)
    requires Needed(t.status) > 0 && p < |s|
    ensures r.Ok? ==> p < r.value.pos <= |s|
  {
    var q := if running then p else p + 1;
    var c1 :- NextByte(s, q);
    var c2 :- if Needed(t.status) > 1 then NextByte(s, q + 1) else Ok(0);
    Ok(t.(pos := q + Needed(t.status), reports := t.reports + [ChannelReport(t.time, Dispatch(t.status, c1, c2))]))
  }

  /** The rest of an event that is not a channel message; its first byte `c` is at p - 1. */
  function ReadSpecial(s: seq<Byte>, nomerge: bool, t: Reading, p: nat, c: Byte): (r: Result<Reading>)
    requires p <= |s|
    ensures r.Ok? ==> p <= r.value.pos <= |s|
  {
    if c == 0xff then
      var kind :- NextByte(s, p);
      var (data, q) :- ReadMessage(s, p + 1);
      Ok(t.(pos := q, msg := data, reports := t.reports + [MetaReport(t.time, kind, data)]))
    else if c == 0xf0 then
      var (data, q) :- ReadMessage(s, p);
      var msg := [0xf0] + data;
      if LastOr(data, c) == 0xf7 || !nomerge then
        Ok(t.(pos := q, msg := msg, reports := t.reports + [SysexReport(t.time, msg)]))
      else Ok(t.(pos := q, msg := msg, inSysex := true))
    else if c == 0xf7 then
      var (data, q) :- ReadMessage(s, p);
      var msg := if t.inSysex then t.msg + data else data;
      if !t.inSysex then
        Ok(t.(pos := q, msg := msg, reports := t.reports + [ArbitraryReport(t.time, msg)]))
      else if LastOr(data, c) == 0xf7 then
        Ok(t.(pos := q, msg := msg, inSysex := false, reports := t.reports + [SysexReport(t.time, msg)]))
      else Ok(t.(pos := q, msg := msg))
    else Err(UnexpectedByte(c))
  }

  /** One round of the loop in `readtrack`. */
  function ReadEvent(s: seq<Byte>, nomerge: bool, t: Reading): (r: Result<Reading>)
    ensures r.Ok? ==> t.pos < r.value.pos <= |s|
  {
    var (dt, p) :- ReadQuantity(s, t.pos);
    var c :- NextByte(s, p);
    if t.inSysex && c != 0xf7 then Err(ContinuationExpected)
    else if c < 0x80 && t.status == 0 then Err(UnexpectedRunningStatus)
    else
      var running := c < 0x80;
      var u := t.(pos := p + 1, time := t.time + dt, status := if running then t.status else c);
      if Needed(u.status) > 0 then ReadChannel(s, u, p, running)
      else ReadSpecial(s, nomerge, u, p + 1, c)
  }

  /** The loop in `readtrack`, up to the end of the chunk. */
  function ReadEvents(s: seq<Byte>, nomerge: bool, end: int, t: Reading): Result<Reading>
    decreases |s| - t.pos
  {
    if t.pos >= end then Ok(t)
    else
      var u :- ReadEvent(s, nomerge, t);
      ReadEvents(s, nomerge, end, u)
  }

  /** An event to be written; `delta` is the time since the event before it. */
  datatype Event =
    | ChannelEvent(delta: nat, status: Byte, data: seq<Byte>)
    | MetaEvent(delta: nat, kind: Byte, data: seq<Byte>)
    | SysexEvent(delta: nat, data: seq<Byte>)

  /** Channel events carry as many data bytes of seven bits as their status asks for;
      a system exclusive event ends with its terminator. */
  predicate ValidEvent(e: Event) {
    match e
    case ChannelEvent(_, status, data) =>
      |data| == Needed(status) > 0 && forall k :: 0 <= k < |data| ==> data[k] < 0x80
    case MetaEvent(_, _, _) => true
    case SysexEvent(_, data) => LastOr(data, 0) == 0xf7
  }

  function StatusOf(e: Event): Byte {
    match e
    case ChannelEvent(_, status, _) => status
    case MetaEvent(_, _, _) => 0xff
    case SysexEvent(_, _) => 0xf0
  }

  function EncodeBody(e: Event, withStatus: bool): seq<Byte> {
    match e
    case ChannelEvent(_, status, data) => (if withStatus then [status] else []) + data
    case MetaEvent(_, kind, data) => [0xff] + ([kind] + (Quantity(|data|) + data))
    case SysexEvent(_, data) => [0xf0] + (Quantity(|data|) + data)
  }

  function EncodeEvent(e: Event, withStatus: bool): seq<Byte> {
    Quantity(e.delta) + EncodeBody(e, withStatus)
  }

  /** A list of events after one of status `prev`. A channel event with the same status as
      the event before it may leave its status byte out where `keep` says so. */
  function Encode(es: seq<Event>, prev: Byte, keep: seq<bool>): seq<Byte>
    requires |keep| == |es|
  {
    if es == [] then []
    else EncodeEvent(es[0], keep[0] || !es[0].ChannelEvent? || es[0].status != prev) +
         Encode(es[1..], StatusOf(es[0]), keep[1..])
  }

  function ReportOf(e: Event, time: nat): Report
    requires ValidEvent(e)
  {
    match e
    case ChannelEvent(_, status, data) =>
      ChannelReport(time, Dispatch(status, data[0], if |data| > 1 then data[1] else 0))
    case MetaEvent(_, kind, data) => MetaReport(time, kind, data)
    case SysexEvent(_, data) => SysexReport(time, [0xf0] + data)
  }

  /** The callbacks that stand for a list of events: each at the sum of the deltas so far. */
  function Reports(es: seq<Event>, time: nat): seq<Report>
    requires forall k :: 0 <= k < |es| ==> ValidEvent(es[k])
  {
    if es == [] then []
    else [ReportOf(es[0], time + es[0].delta)] + Reports(es[1..], time + es[0].delta)
  }

  function Duration(es: seq<Event>): nat {
    if es == [] then 0 else es[0].delta + Duration(es[1..])
  }

  lemma MessageReads(s: seq<Byte>, i: nat, data: seq<Byte>)
    requires HasBytes(s, i, Quantity(|data|) + data)
    ensures ReadMessage(s, i) == Ok((data, i + |Quantity(|data|)| + |data|))
  {
    hide Quantity, ReadQuantity;
    SplitBytes(s, i, Quantity(|data|), data);
    ReadInvertsWrite(s, i, |data|);
  }

  lemma ChannelReads(s: seq<Byte>, t: Reading, p: nat, data: seq<Byte>, running: bool)
    requires |data| == Needed(t.status) > 0 && p < |s|
    requires HasBytes(s, if running then p else p + 1, data)
    ensures ReadChannel(s, t, p, running) ==
            Ok(t.(pos := (if running then p else p + 1) + |data|,
                  reports := t.reports + [ChannelReport(t.time, Dispatch(t.status, data[0], if |data| > 1 then data[1] else 0))]))
  {
    hide Dispatch;
    var q := if running then p else p + 1;
    assert forall k :: 0 <= k < |data| ==> s[q..q + |data|][k] == data[k] == s[q + k];
  }

  /** An event is read back as itself from `p`, past its delta. */
  ghost predicate ReadsBody(s: seq<Byte>, nomerge: bool, t: Reading, p: nat, e: Event, length: nat)
    requires ValidEvent(e)
  {
    p < |s| &&
    var c := s[p];
    var u := t.(status := if c < 0x80 then t.status else c);
    && (c >= 0x80 || t.status != 0)
    && var r := if Needed(u.status) > 0 then ReadChannel(s, u, p, c < 0x80) else ReadSpecial(s, nomerge, u, p + 1, c);
       r.Ok? && r.value.pos == p + length && r.value.time == t.time && r.value.status == StatusOf(e) &&
       !r.value.inSysex && r.value.reports == t.reports + [ReportOf(e, t.time)]
  }

  lemma ChannelBodyReads(s: seq<Byte>, nomerge: bool, t: Reading, p: nat, e: Event, withStatus: bool)
    requires e.ChannelEvent? && ValidEvent(e) && !t.inSysex && HasBytes(s, p, EncodeBody(e, withStatus))
    requires withStatus || e.status == t.status
    ensures ReadsBody(s, nomerge, t, p, e, |EncodeBody(e, withStatus)|)
  {
    hide Dispatch, ReadChannel, ReadSpecial, HasBytes;
    var status, data := e.status, e.data;
    if withStatus {
      SplitBytes(s, p, [status], data);
      ByteAt(s, p, status);
      ChannelReads(s, t.(status := status), p, data, false);
    } else {
      assert [] + data == data == [data[0]] + data[1..];
      SplitBytes(s, p, [data[0]], data[1..]);
      ByteAt(s, p, data[0]);
      ChannelReads(s, t, p, data, true);
    }
  }

  lemma SpecialBodyReads(s: seq<Byte>, nomerge: bool, t: Reading, p: nat, e: Event)
    requires !e.ChannelEvent? && ValidEvent(e) && !t.inSysex && HasBytes(s, p, EncodeBody(e, true))
    ensures ReadsBody(s, nomerge, t, p, e, |EncodeBody(e, true)|)
  {
    hide Quantity, ReadMessage, ReadChannel, HasBytes;
    if e.MetaEvent? {
      SplitBytes(s, p, [0xff], [e.kind] + (Quantity(|e.data|) + e.data));
      SplitBytes(s, p + 1, [e.kind], Quantity(|e.data|) + e.data);
      ByteAt(s, p, 0xff);
      ByteAt(s, p + 1, e.kind);
      MessageReads(s, p + 2, e.data);
    } else {
      SplitBytes(s, p, [0xf0], Quantity(|e.data|) + e.data);
      ByteAt(s, p, 0xf0);
      MessageReads(s, p + 1, e.data);
    }
  }

  /** One event is read back as itself. */
  lemma EventReads(s: seq<Byte>, nomerge: bool, t: Reading, e: Event, withStatus: bool)
    requires ValidEvent(e) && !t.inSysex && HasBytes(s, t.pos, EncodeEvent(e, withStatus))
    requires withStatus || (e.ChannelEvent? && e.status == t.status)
    ensures ReadEvent(s, nomerge, t).Ok?
    ensures var u := ReadEvent(s, nomerge, t).value;
            u.pos == t.pos + |EncodeEvent(e, withStatus)| && u.time == t.time + e.delta &&
            u.status == StatusOf(e) && !u.inSysex &&
            u.reports == t.reports + [ReportOf(e, t.time + e.delta)]
  {
    hide Quantity, ReadQuantity, ReadSpecial, ReadChannel, HasBytes, EncodeBody, ValidEvent, ReportOf, Needed;
    SplitBytes(s, t.pos, Quantity(e.delta), EncodeBody(e, withStatus));
    ReadInvertsWrite(s, t.pos, e.delta);
    var p := t.pos + |Quantity(e.delta)|;
    var u := t.(pos := p + 1, time := t.time + e.delta);
    if e.ChannelEvent? {
      ChannelBodyReads(s, nomerge, u, p, e, withStatus);
    } else {
      SpecialBodyReads(s, nomerge, u, p, e);
    }
  }

  /** The events of a track are read back in order, each at its time, and reading stops
      exactly at the end of the chunk; status bytes that were left out make no difference. */
  lemma {:induction false} EventsRead(s: seq<Byte>, nomerge: bool, t: Reading, es: seq<Event>, keep: seq<bool>)
    requires |keep| == |es| && (forall k :: 0 <= k < |es| ==> ValidEvent(es[k])) && !t.inSysex
    requires HasBytes(s, t.pos, Encode(es, t.status, keep))
    ensures var r := ReadEvents(s, nomerge, t.pos + |Encode(es, t.status, keep)|, t);
            r.Ok? && r.value.pos == t.pos + |Encode(es, t.status, keep)| &&
            r.value.time == t.time + Duration(es) && r.value.reports == t.reports + Reports(es, t.time)
    decreases es
  {
    hide HasBytes, ReadEvent, EncodeEvent, ValidEvent;
    if es != [] {
      var e := es[0];
      var withStatus := keep[0] || !e.ChannelEvent? || e.status != t.status;
      SplitBytes(s, t.pos, EncodeEvent(e, withStatus), Encode(es[1..], StatusOf(e), keep[1..]));
      EventReads(s, nomerge, t, e, withStatus);
      var u := ReadEvent(s, nomerge, t).value;
      EventsRead(s, nomerge, u, es[1..], keep[1..]);
      assert t.reports + [ReportOf(e, t.time + e.delta)] + Reports(es[1..], u.time) ==
             t.reports + Reports(es, t.time);
    } else {
      assert t.reports + [] == t.reports;
    }
  }

  const MTRK: seq<Byte> := [0x4d, 0x54, 0x72, 0x6b]

  /** `write32bit` */
  function Word32(n: int): seq<Byte> {
    [n / 0x100_0000 % 256, n / 0x1_0000 % 256, n / 0x100 % 256, n % 256]
  }

  /** `to32bit` */
  function Join32(a: Byte, b: Byte, c: Byte, d: Byte): nat {
    ((a * 256 + b) * 256 + c) * 256 + d
  }

  lemma Join32Inverts(n: nat)
    requires n < 0x1_0000_0000
    ensures Join32(n / 0x100_0000 % 256, n / 0x1_0000 % 256, n / 0x100 % 256, n % 256) == n
  {
    assert n / 0x100 == n / 0x100 / 256 * 256 + n / 0x100 % 256;
    assert n / 0x100 / 256 == n / 0x1_0000 && n / 0x1_0000 / 256 == n / 0x100_0000;
  }

  /** `readmt`, from character k of the header on: a wrong byte is an error, but a file that
      ends inside the header has no further track. */
  function ReadHeader(s: seq<Byte>, i: nat, k: nat): (r: Result<nat>)
    requires k <= 4
    ensures r.Ok? ==> r.value == i + 4 - k <= |s|
    decreases 4 - k
  {
    if k == 4 then (if i <= |s| then Ok(i) else Err(NoTrack))
    else if i >= |s| then Err(NoTrack)
    else if s[i] != MTRK[k] then Err(ExpectingHeader)
    else ReadHeader(s, i + 1, k + 1)
  }

  /** `readtrack`: the header, the length of the chunk, then the events. */
  function ReadTrack(s: seq<Byte>, nomerge: bool, i: nat): Result<Reading> {
    var header := ReadHeader(s, i, 0);
    if header.Err? then Err(header.error)
    else if i + 8 > |s| then Err(PrematureEof)
    else
      var length := Join32(s[i + 4], s[i + 5], s[i + 6], s[i + 7]);
      ReadEvents(s, nomerge, i + 8 + length, Reading(i + 8, 0, 0, false, [], []))
  }

  /** A message for one of the sixteen channels, with data of seven bits. */
  predicate ValidMessage(m: Message) {
    && m.chan < 16 && m.c1 < 0x80
    && (!m.Program? && !m.ChanPressure? ==> m.c2 < 0x80)
  }

  /** Messages as Standard MIDI Files have them: the kind in the upper half of the first byte
      and the channel in the lower, then the data. */
  function MessageBytes(m: Message): (b: seq<Byte>)
    requires ValidMessage(m)
    ensures |b| > 0
  {
    match m
    case NoteOff(chan, c1, c2) => [0x80 + chan, c1, c2]
    case NoteOn(chan, c1, c2) => [0x90 + chan, c1, c2]
    case Pressure(chan, c1, c2) => [0xa0 + chan, c1, c2]
    case Parameter(chan, c1, c2) => [0xb0 + chan, c1, c2]
    case Program(chan, c1) => [0xc0 + chan, c1]
    case ChanPressure(chan, c1) => [0xd0 + chan, c1]
    case PitchBend(chan, c1, c2) => [0xe0 + chan, c1, c2]
  }

  function EventOf(delta: nat, m: Message): Event
    requires ValidMessage(m)
  {
    ChannelEvent(delta, MessageBytes(m)[0], MessageBytes(m)[1..])
  }

  lemma EventOfMeans(delta: nat, m: Message, time: nat)
    requires ValidMessage(m)
    ensures ValidEvent(EventOf(delta, m)) && ReportOf(EventOf(delta, m), time) == ChannelReport(time, m)
  {
    hide EncodeEvent;
  }

  lemma EventOfBytes(delta: nat, m: Message)
    requires ValidMessage(m)
    ensures EncodeEvent(EventOf(delta, m), true) == Quantity(delta) + MessageBytes(m)
    ensures EncodeEvent(EventOf(delta, m), false) == Quantity(delta) + MessageBytes(m)[1..]
    ensures StatusOf(EventOf(delta, m)) == MessageBytes(m)[0]
    ensures EventOf(delta, m).delta == delta && EventOf(delta, m).ChannelEvent? && EventOf(delta, m).status == MessageBytes(m)[0]
  {
    hide Quantity, MessageBytes, ValidMessage;
    var b := MessageBytes(m);
    assert b == [b[0]] + b[1..] && [] + b[1..] == b[1..];
  }

  /** The event read from t.pos is that message, at that time. */
  ghost predicate Reported(s: seq<Byte>, nomerge: bool, t: Reading, delta: nat, m: Message, length: nat)
    requires ValidMessage(m)
  {
    ReadEvent(s, nomerge, t).Ok? &&
    var u := ReadEvent(s, nomerge, t).value;
    && u.pos == t.pos + length && u.time == t.time + delta && u.status == MessageBytes(m)[0]
    && u.reports == t.reports + [ChannelReport(t.time + delta, m)]
  }

  /** Whatever the message, its bytes after a delta are reported as that message. */
  lemma ChannelMessageRead(s: seq<Byte>, nomerge: bool, t: Reading, delta: nat, m: Message)
    requires ValidMessage(m) && !t.inSysex && HasBytes(s, t.pos, Quantity(delta) + MessageBytes(m))
    ensures Reported(s, nomerge, t, delta, m, |Quantity(delta) + MessageBytes(m)|)
  {
    EventOfMeans(delta, m, t.time + delta);
    EventOfBytes(delta, m);
    hide HasBytes, ReadEvent, ReportOf, ValidEvent, EventOf, EncodeEvent, Quantity, MessageBytes;
    EventReads(s, nomerge, t, EventOf(delta, m), true);
  }

  /** So are its data bytes alone, if it has the status of the message before. */
  lemma RunningMessageRead(s: seq<Byte>, nomerge: bool, t: Reading, delta: nat, m: Message)
    requires ValidMessage(m) && !t.inSysex && t.status == MessageBytes(m)[0]
    requires HasBytes(s, t.pos, Quantity(delta) + MessageBytes(m)[1..])
    ensures Reported(s, nomerge, t, delta, m, |Quantity(delta) + MessageBytes(m)[1..]|)
  {
    EventOfMeans(delta, m, t.time + delta);
    EventOfBytes(delta, m);
    hide HasBytes, ReadEvent, ReportOf, ValidEvent, EventOf, EncodeEvent, Quantity, MessageBytes;
    EventReads(s, nomerge, t, EventOf(delta, m), false);
  }

  /** Messages with the time before each. */
  function EventsOf(ms: seq<(nat, Message)>): (es: seq<Event>)
    requires forall k :: 0 <= k < |ms| ==> ValidMessage(ms[k].1)
    ensures |es| == |ms| && forall k :: 0 <= k < |ms| ==> es[k] == EventOf(ms[k].0, ms[k].1)
  {
    seq(|ms|, k requires 0 <= k < |ms| && ValidMessage(ms[k].1) => EventOf(ms[k].0, ms[k].1))
  }

  function MessageReports(ms: seq<(nat, Message)>, time: nat): seq<Report> {
    if ms == [] then []
    else [ChannelReport(time + ms[0].0, ms[0].1)] + MessageReports(ms[1..], time + ms[0].0)
  }

  lemma {:induction false} MessageReportsMean(ms: seq<(nat, Message)>, time: nat)
    requires forall k :: 0 <= k < |ms| ==> ValidMessage(ms[k].1)
    ensures forall k :: 0 <= k < |ms| ==> ValidEvent(EventsOf(ms)[k])
    ensures Reports(EventsOf(ms), time) == MessageReports(ms, time)
    decreases ms
  {
    hide ValidMessage, ValidEvent, EventOf, ReportOf;
    if ms != [] {
      EventOfMeans(ms[0].0, ms[0].1, time + ms[0].0);
      EventOfBytes(ms[0].0, ms[0].1);
      assert EventsOf(ms)[1..] == EventsOf(ms[1..]);
      MessageReportsMean(ms[1..], time + ms[0].0);
    }
  }

  /** The event that closes every track. */
  function EndOfTrack(delta: nat): Event {
    MetaEvent(delta, 0x2f, [])
  }

  /** A track chunk as `mf_write_track_chunk` leaves it in the file. */
  function TrackChunk(es: seq<Event>, keep: seq<bool>): seq<Byte>
    requires |keep| == |es|
  {
    MTRK + (Word32(|Encode(es, 0, keep)|) + Encode(es, 0, keep))
  }

  /** A whole track chunk is read back as the events that were written. */
  lemma TrackReadsBack(s: seq<Byte>, nomerge: bool, i: nat, es: seq<Event>, keep: seq<bool>)
    requires |keep| == |es| && forall k :: 0 <= k < |es| ==> ValidEvent(es[k])
    requires |Encode(es, 0, keep)| < 0x1_0000_0000 && HasBytes(s, i, TrackChunk(es, keep))
    ensures var r := ReadTrack(s, nomerge, i);
            r.Ok? && r.value.pos == i + |TrackChunk(es, keep)| &&
            r.value.time == Duration(es) && r.value.reports == Reports(es, 0)
  {
    hide Encode, ReadEvents, HasBytes, Reports, Word32, Join32;
    var body := Encode(es, 0, keep);
    SplitBytes(s, i, MTRK, Word32(|body|) + body);
    SplitBytes(s, i + 4, Word32(|body|), body);
    WordReads(s, i + 4, |body|);
    HeaderReads(s, i);
    var t := Reading(i + 8, 0, 0, false, [], []);
    EventsRead(s, nomerge, t, es, keep);
    assert [] + Reports(es, 0) == Reports(es, 0);
  }

  lemma WordReads(s: seq<Byte>, i: nat, n: nat)
    requires n < 0x1_0000_0000 && HasBytes(s, i, Word32(n))
    ensures i + 4 <= |s| && Join32(s[i], s[i + 1], s[i + 2], s[i + 3]) == n && |Word32(n)| == 4
  {
    hide Join32;
    var w := Word32(n);
    assert forall k :: 0 <= k < 4 ==> s[i..i + 4][k] == w[k] == s[i + k];
    Join32Inverts(n);
  }

  lemma HeaderReads(s: seq<Byte>, i: nat)
    requires HasBytes(s, i, MTRK)
    ensures i + 4 <= |s| && ReadHeader(s, i, 0) == Ok(i + 4)
  {
    assert forall k :: 0 <= k < 4 ==> s[i..i + 4][k] == MTRK[k] == s[i + k];
    assert ReadHeader(s, i + 4, 4) == Ok(i + 4);
    assert ReadHeader(s, i + 3, 3) == Ok(i + 4);
    assert ReadHeader(s, i + 2, 2) == Ok(i + 4);
    assert ReadHeader(s, i + 1, 1) == Ok(i + 4);
  }

  lemma {:induction false} HeaderFrom(s: seq<Byte>, i: nat, k: nat)
    requires k <= 4 && i <= |s|
    ensures ReadHeader(s, i, k) == Err(NoTrack) <==> |s| - i < 4 - k && s[i..] == MTRK[k..k + |s| - i]
    decreases 4 - k
  {
    if k < 4 && i < |s| {
      if |s| - i < 4 - k {
        assert s[i..] == [s[i]] + s[i + 1..];
        assert MTRK[k..k + |s| - i] == [MTRK[k]] + MTRK[k + 1..k + |s| - i];
      }
      HeaderFrom(s, i + 1, k + 1);
    }
  }

  lemma {:induction false} QuantityErrors(s: seq<Byte>, i: nat, v: nat)
    ensures ReadOn(s, i, v).Err? ==> ReadOn(s, i, v).error == PrematureEof
    decreases |s| - i
  {
    if i < |s| && s[i] >= 0x80 {
      QuantityErrors(s, i + 1, v * 128 + s[i] % 128);
    }
  }

  lemma EventErrors(s: seq<Byte>, nomerge: bool, t: Reading)
    ensures ReadEvent(s, nomerge, t) != Err(NoTrack)
  {
    hide ReadOn, Dispatch, LastOr;
    MessageErrors(s, t.pos);
    forall i
      ensures ReadMessage(s, i) != Err(NoTrack)
    {
      MessageErrors(s, i);
    }
  }

  lemma MessageErrors(s: seq<Byte>, i: nat)
    ensures ReadQuantity(s, i) != Err(NoTrack) && ReadMessage(s, i) != Err(NoTrack)
  {
    if i < |s| {
      QuantityErrors(s, i + 1, s[i] % 128);
    }
  }

  lemma {:induction false} NeverNoTrack(s: seq<Byte>, nomerge: bool, end: int, t: Reading)
    ensures ReadEvents(s, nomerge, end, t) != Err(NoTrack)
    decreases |s| - t.pos
  {
    hide ReadEvent;
    if t.pos < end {
      EventErrors(s, nomerge, t);
      if ReadEvent(s, nomerge, t).Ok? {
        NeverNoTrack(s, nomerge, end, ReadEvent(s, nomerge, t).value);
      }
    }
  }

  /** `readtrack` answers that there is no track exactly when the file ends within the header,
      with nothing wrong so far. */
  lemma NoTrackExactly(s: seq<Byte>, nomerge: bool, i: nat)
    requires i <= |s|
    ensures ReadTrack(s, nomerge, i) == Err(NoTrack) <==> |s| - i < 4 && s[i..] == MTRK[..|s| - i]
  {
    hide ReadHeader, ReadEvents, Join32;
    HeaderFrom(s, i, 0);
    if i + 8 <= |s| {
      var length := Join32(s[i + 4], s[i + 5], s[i + 6], s[i + 7]);
      NeverNoTrack(s, nomerge, i + 8 + length, Reading(i + 8, 0, 0, false, [], []));
    }
  }

  /** "MTrk" */
  lemma HeaderSpelt()
    ensures |MTRK| == 4 && forall k :: 0 <= k < 4 ==> MTRK[k] == "MTrk"[k] as int
  {
  }

  /** The four bytes of a number, the most significant first. */
  lemma WordMeans(n: nat)
    requires n < 0x1_0000_0000
    ensures var w := Word32(n); w[0] as int * 0x100_0000 + w[1] as int * 0x1_0000 + w[2] as int * 0x100 + w[3] as int == n
    ensures var w := Word32(n); Join32(w[0], w[1], w[2], w[3]) == n
  {
    Join32Inverts(n);
  }

  /** A track of channel messages is read back as those messages, each at the sum of the times
      before it. */
  lemma MessagesReadBack(s: seq<Byte>, nomerge: bool, i: nat, ms: seq<(nat, Message)>, keep: seq<bool>)
    requires |keep| == |ms| && forall k :: 0 <= k < |ms| ==> ValidMessage(ms[k].1)
    requires |Encode(EventsOf(ms), 0, keep)| < 0x1_0000_0000 && HasBytes(s, i, TrackChunk(EventsOf(ms), keep))
    ensures var r := ReadTrack(s, nomerge, i); r.Ok? && r.value.reports == MessageReports(ms, 0)
  {
    MessageReportsMean(ms, 0);
    hide *;
    TrackReadsBack(s, nomerge, i, EventsOf(ms), keep);
  }

  /** The bytes of a meta event: 0xff, kind, length and data; and of a system exclusive one,
      whose length leaves out the 0xf0. */
  lemma MetaBytes(delta: nat, kind: Byte, data: seq<Byte>)
    requires |data| < 128
    ensures EncodeEvent(MetaEvent(delta, kind, data), true) == Quantity(delta) + ([0xff, kind, |data|] + data)
  {
    ShortQuantity(|data|);
    hide Quantity;
    assert [0xff] + ([kind] + ([|data|] + data)) == [0xff, kind, |data|] + data;
  }

  lemma SysexBytes(delta: nat, data: seq<Byte>)
    requires |data| < 128
    ensures EncodeEvent(SysexEvent(delta, data), true) == Quantity(delta) + ([0xf0, |data|] + data)
  {
    ShortQuantity(|data|);
    hide Quantity;
    assert [0xf0] + ([|data|] + data) == [0xf0, |data|] + data;
  }

  lemma ShortQuantity(v: nat)
    requires v < 128
    ensures Quantity(v) == [v]
  {
  }

  /** Every track ends with 0xff 0x2f 0. */
  lemma EndBytes(delta: nat)
    ensures EncodeEvent(EndOfTrack(delta), true) == Quantity(delta) + [0xff, 0x2f, 0]
  {
    MetaBytes(delta, 0x2f, []);
    hide EncodeEvent, Quantity;
    assert [0xff, 0x2f, 0] + [] == [0xff, 0x2f, 0];
  }

  /** A system exclusive message whose first part does not end it: with messages merged, nothing
      is reported yet; otherwise that part by itself. */
  lemma SysexBegun(s: seq<Byte>, nomerge: bool, t: Reading, delta: nat, data: seq<Byte>)
    requires !t.inSysex && LastOr(data, 0xf0) != 0xf7
    requires HasBytes(s, t.pos, Quantity(delta) + ([0xf0] + (Quantity(|data|) + data)))
    ensures ReadEvent(s, nomerge, t) ==
            Ok(Reading(t.pos + |Quantity(delta) + ([0xf0] + (Quantity(|data|) + data))|, t.time + delta, 0xf0, nomerge,
                       [0xf0] + data,
                       if nomerge then t.reports else t.reports + [SysexReport(t.time + delta, [0xf0] + data)]))
  {
    hide Quantity, ReadQuantity, HasBytes, LastOr, ReadMessage;
    var p := t.pos + |Quantity(delta)|;
    SplitBytes(s, t.pos, Quantity(delta), [0xf0] + (Quantity(|data|) + data));
    SplitBytes(s, p, [0xf0], Quantity(|data|) + data);
    ReadInvertsWrite(s, t.pos, delta);
    ByteAt(s, p, 0xf0);
    MessageReads(s, p + 1, data);
  }

  /** A further part: it is joined to the parts before, and the whole is reported once, when
      the part that ends it has come. Without a message to go on, it is reported as it is. */
  lemma SysexGoesOn(s: seq<Byte>, nomerge: bool, t: Reading, delta: nat, data: seq<Byte>)
    requires HasBytes(s, t.pos, Quantity(delta) + ([0xf7] + (Quantity(|data|) + data)))
    ensures var length, now, last := |Quantity(delta) + ([0xf7] + (Quantity(|data|) + data))|, t.time + delta, LastOr(data, 0xf7) == 0xf7;
            ReadEvent(s, nomerge, t) ==
            Ok(Reading(t.pos + length, now, 0xf7, t.inSysex && !last,
                       if t.inSysex then t.msg + data else data,
                       if !t.inSysex then t.reports + [ArbitraryReport(now, data)]
                       else if last then t.reports + [SysexReport(now, t.msg + data)] else t.reports))
  {
    hide Quantity, ReadQuantity, HasBytes, LastOr, ReadMessage;
    var p := t.pos + |Quantity(delta)|;
    SplitBytes(s, t.pos, Quantity(delta), [0xf7] + (Quantity(|data|) + data));
    SplitBytes(s, p, [0xf7], Quantity(|data|) + data);
    ReadInvertsWrite(s, t.pos, delta);
    ByteAt(s, p, 0xf7);
    MessageReads(s, p + 1, data);
  }

  /** Nothing else may come in between; a data byte needs a status byte before it; and other
      bytes from 0xf1 on are not known. */
  lemma WrongByte(s: seq<Byte>, nomerge: bool, t: Reading, delta: nat, c: Byte)
    requires HasBytes(s, t.pos, Quantity(delta) + [c])
    ensures t.inSysex && c != 0xf7 ==> ReadEvent(s, nomerge, t) == Err(ContinuationExpected)
    ensures !t.inSysex && t.status == 0 && c < 0x80 ==> ReadEvent(s, nomerge, t) == Err(UnexpectedRunningStatus)
    ensures !t.inSysex && 0xf1 <= c <= 0xfe && c != 0xf7 ==> ReadEvent(s, nomerge, t) == Err(UnexpectedByte(c))
  {
    hide Quantity, ReadQuantity, HasBytes, ReadChannel;
    SplitBytes(s, t.pos, Quantity(delta), [c]);
    ReadInvertsWrite(s, t.pos, delta);
    ByteAt(s, t.pos + |Quantity(delta)|, c);
  }
}
