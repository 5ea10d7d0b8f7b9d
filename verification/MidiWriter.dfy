/** Writing a track (midifile.c): every byte goes through `eputc`, which counts them and
    stops the program when a track runs away. */
module MidiWriter {
  import opened VarLen
  import opened MidiFormat

  /** `eputc` gives up once more bytes than this have been counted. */
  const LIMIT := 500000

  /** What `WriteVarLen` writes: a negative value, for which there is no variable-length
      form, comes out as its low seven bits. */
  function Written(value: int): seq<Byte> {
    if value < 0 then [value % 128] else Quantity(value)
  }

  /** The variable-length form written by `WriteVarLen` gives the value back exactly when it
      is not negative. */
  lemma ReadsBackExactly(value: int)
    ensures ReadQuantity(Written(value), 0).Ok? &&
            (ReadQuantity(Written(value), 0).value.0 == value <==> value >= 0)
  {
    var q := Written(value);
    assert q[0..0 + |q|] == q;
    if value >= 0 {
      ReadInvertsWrite(q, 0, value);
    } else {
      ReadInvertsWrite(q, 0, value % 128);
    }
  }

  lemma PackLow(q: seq<Byte>)
    requires q != []
    ensures Pack(q) % 256 == q[0] && Pack(q) / 256 == Pack(q[1..])
  {
  }

  lemma PackShift(b: Byte, q: seq<Byte>)
    ensures Pack([b] + q) == Pack(q) * 256 + b
  {
    assert ([b] + q)[1..] == q;
  }

  class Writer {
    /** The file behind Mf_putc. */
    var out: seq<Byte>
    /** Mf_numbyteswritten */
    var count: nat
    /** The program has exited. */
    var aborted: bool

    constructor ()
      ensures out == [] && count == 0 && !aborted
    {
      out, count, aborted := [], 0, false;
    }

    /** What follows from writing the bytes `b` one by one. */
    twostate predicate Wrote(b: seq<Byte>)
      reads this
    {
      && (aborted <==> old(aborted) || old(count) + |b| > LIMIT)
      && (!aborted ==> out == old(out) + b && count == old(count) + |b|)
    }

    /** `eputc` */
    method Eputc(c: Byte)
      requires count <= LIMIT || aborted
      modifies this
      ensures Wrote([c])
    {
      if aborted {
        return;
      }
      out := out + [c];
      count := count + 1;
      if count > LIMIT {
        aborted := true;
      }
    }

    /** `WriteVarLen`: gather the bytes in a buffer, most significant group lowest, then
        shift them out. */
    method WriteVarLen(v: int)
      requires count <= LIMIT || aborted
      modifies this
      ensures Wrote(Written(v))
    {
      hide Pack, Leading;
      var value := v;
      var buffer := value % 128;
      value := value / 128;
      ghost var bytes: seq<Byte> := [v % 128];
      FirstByte(v);
      while value > 0
        invariant Pack(bytes) == buffer && |bytes| >= 1
        invariant Written(v) == Front(value) + bytes
        modifies {}
        decreases value
      {
        PackShift(128 + value % 128, bytes);
        LeadingStep(value, bytes);
        bytes := [128 + value % 128] + bytes;
        buffer := buffer * 256;
        buffer := buffer + 0x80;
        buffer := buffer + value % 128;
        value := value / 128;
      }
      NoFront(value, bytes);
      forall k | 0 <= k < |bytes|
        ensures bytes[k] < 0x80 <==> k == |bytes| - 1
      {
        LastByteLow(v, k);
      }
      ShiftOut(buffer, bytes);
    }

    /** The output loop of `WriteVarLen`. */
    method ShiftOut(b: nat, ghost bytes: seq<Byte>)
      requires count <= LIMIT || aborted
      requires Pack(bytes) == b && |bytes| >= 1
      requires forall k :: 0 <= k < |bytes| ==> (bytes[k] < 0x80 <==> k == |bytes| - 1)
      modifies this
      ensures Wrote(bytes)
    {
      hide Pack;
      var buffer := b;
      ghost var k := 0;
      assert out == out + bytes[..0] && bytes[0..] == bytes;
      while true
        invariant 0 <= k < |bytes|
        invariant Pack(bytes[k..]) == buffer
        invariant Wrote(bytes[..k]) && (count <= LIMIT || aborted)
        decreases |bytes| - k
      {
        PackLow(bytes[k..]);
        Eputc(buffer % 256);
        assert bytes[..k + 1] == bytes[..k] + [bytes[k]];
        assert bytes[k..][1..] == bytes[k + 1..];
        if buffer % 256 >= 0x80 {
          buffer := buffer / 256;
          k := k + 1;
        } else {
          assert bytes[..k + 1] == bytes;
          return;
        }
      }
    }

    /** The bytes of a message, one after the other. */
    method PutAll(data: seq<Byte>)
      requires count <= LIMIT || aborted
      modifies this
      ensures Wrote(data)
    {
      assert out == out + data[..0];
      for i := 0 to |data|
        invariant Wrote(data[..i]) && (count <= LIMIT || aborted)
      {
        Eputc(data[i]);
        assert data[..i + 1] == data[..i] + [data[i]];
      }
      assert data[..|data|] == data;
    }

    /** `mf_write_midi_event`. A channel above 15 is fatal. */
    method WriteMidiEvent(delta: int, kind: Byte, chan: nat, data: seq<Byte>)
      requires (count <= LIMIT || aborted) && kind % 16 == 0
      modifies this
      ensures chan <= 15 ==> Wrote(Written(delta) + ([kind + chan] + data))
      ensures chan > 15 ==> aborted
    {
      hide Written;
      WriteVarLen(delta);
      if chan > 15 {
        aborted := true;
        return;
      }
      Eputc(kind + chan);
      PutAll(data);
      Joined3(old(out), Written(delta), [kind + chan], data);
    }

    /** `mf_write_meta_event` */
    method WriteMetaEvent(delta: int, kind: Byte, data: seq<Byte>)
      requires count <= LIMIT || aborted
      modifies this
      ensures Wrote(Written(delta) + ([0xff] + ([kind] + (Quantity(|data|) + data))))
    {
      hide Written, Quantity;
      WriteVarLen(delta);
      Eputc(0xff);
      Eputc(kind);
      NotNegative(|data|);
      WriteVarLen(|data|);
      PutAll(data);
      Joined3(old(out), Written(delta), [0xff], [kind] + (Quantity(|data|) + data));
      Joined3(old(out) + Written(delta) + [0xff], [kind], Quantity(|data|), data);
    }

    /** One event of the kinds that the program writes. */
    method WriteEvent(e: Event)
      requires (count <= LIMIT || aborted) && ValidEvent(e) && !e.SysexEvent?
      modifies this
      ensures Wrote(EncodeEvent(e, true))
    {
      hide Quantity, Written;
      NotNegative(e.delta);
      match e
      case ChannelEvent(delta, status, data) =>
        WriteMidiEvent(delta, status - status % 16, status % 16, data);
      case MetaEvent(delta, kind, data) =>
        WriteMetaEvent(delta, kind, data);
    }

    /** `eputc` after a seek back to a place in the file that is already written. */
    method EputcAt(i: nat, c: Byte)
      requires (count <= LIMIT || aborted) && i < |out|
      modifies this
      ensures |out| == old(|out|) && (aborted <==> old(aborted) || old(count) + 1 > LIMIT)
      ensures !aborted ==> out == old(out)[i := c] && count == old(count) + 1
    {
      if aborted {
        return;
      }
      out := out[i := c];
      count := count + 1;
      if count > LIMIT {
        aborted := true;
      }
    }

    /** Overwriting a stretch of the file. */
    method Rewrite(at: nat, b: seq<Byte>)
      requires (count <= LIMIT || aborted) && at + |b| <= |out|
      modifies this
      ensures |out| == old(|out|) && (aborted <==> old(aborted) || old(count) + |b| > LIMIT)
      ensures !aborted ==> out == old(out)[..at] + b + old(out)[at + |b|..] && count == old(count) + |b|
    {
      for k := 0 to |b|
        invariant |out| == old(|out|) && (count <= LIMIT || aborted)
        invariant aborted <==> old(aborted) || old(count) + k > LIMIT
        invariant !aborted ==> out == old(out)[..at] + b[..k] + old(out)[at + k..] && count == old(count) + k
      {
        EputcAt(at + k, b[k]);
      }
    }

    /** The events of a track (the callback Mf_writetrack), and the end of it. */
    method WriteBody(es: seq<Event>, endspace: nat)
      requires !aborted && count == 0
      requires forall k :: 0 <= k < |es| ==> ValidEvent(es[k]) && !es[k].SysexEvent?
      modifies this
      ensures Wrote(EncodeAll(es + [EndOfTrack(endspace)]))
    {
      hide Written, Quantity, EncodeEvent, ValidEvent, EncodeAll;
      NoEvents();
      assert out == out + EncodeAll(es[..0]);
      for i := 0 to |es|
        invariant Wrote(EncodeAll(es[..i])) && (count <= LIMIT || aborted)
      {
        WriteEvent(es[i]);
        EncodeAllSnoc(es[..i], es[i]);
        assert es[..i + 1] == es[..i] + [es[i]];
      }
      assert es[..|es|] == es;
      EndEncoded(endspace);
      EncodeAllSnoc(es, EndOfTrack(endspace));
      WriteVarLen(endspace);
      Eputc(0xff);
      Eputc(0x2f);
      Eputc(0);
    }

    /** `mf_write_track_chunk`: a header with no length yet, the track, then a seek back to
        fill the length in. */
    method WriteTrackChunk(es: seq<Event>, endspace: nat)
      requires !aborted && count <= LIMIT
      requires forall k :: 0 <= k < |es| ==> ValidEvent(es[k]) && !es[k].SysexEvent?
      modifies this
      ensures var track := es + [EndOfTrack(endspace)];
              var keep := seq(|track|, _ => true);
              (aborted <==> old(count) + 8 > LIMIT || |Encode(track, 0, keep)| + 8 > LIMIT) &&
              (!aborted ==> out == old(out) + TrackChunk(track, keep))
    {
      hide EncodeAll, Encode, ValidEvent, Word32;
      ghost var track := es + [EndOfTrack(endspace)];
      EncodedLength(track);
      var offset := |out|;
      PutAll(MTRK);
      WordLength(0);
      PutAll(Word32(0));
      if aborted {
        return;
      }
      count := 0;
      WriteBody(es, endspace);
      if aborted {
        return;
      }
      var trklength := count;
      WordLength(trklength);
      ghost var written := out;
      Rewrite(offset, MTRK + Word32(trklength));
      HeaderReplaced(old(out), MTRK + Word32(0), MTRK + Word32(trklength), EncodeAll(track), written);
    }
  }

  /** The groups of the value that is left to be put in front. */
  function Front(value: int): seq<Byte> {
    if value <= 0 then [] else Leading(value)
  }

  lemma FirstByte(v: int)
    ensures Written(v) == Front(v / 128) + [v % 128]
    ensures Pack([v % 128]) == v % 128
  {
    PackShift(v % 128, []);
  }

  lemma LeadingStep(value: nat, bytes: seq<Byte>)
    requires value > 0
    ensures Front(value) + bytes == Front(value / 128) + ([128 + value % 128] + bytes)
  {
    var h, b := Front(value / 128), 128 + value % 128;
    assert Leading(0) == [] && h == Leading(value / 128);
    assert h + [b] + bytes == h + ([b] + bytes);
  }

  lemma NoFront(value: int, bytes: seq<Byte>)
    requires value <= 0
    ensures Front(value) + bytes == bytes
  {
  }

  /** The mark that stops the output loop is missing on the last byte only. */
  lemma LastByteLow(v: int, k: nat)
    requires k < |Written(v)|
    ensures Written(v)[k] < 128 <==> k == |Written(v)| - 1
  {
    if v >= 0 {
      QuantityFlags(v, k);
    }
  }

  lemma NotNegative(v: nat)
    ensures Written(v) == Quantity(v)
  {
  }

  lemma Joined3(s: seq<Byte>, a: seq<Byte>, b: seq<Byte>, c: seq<Byte>)
    ensures s + a + b + c == s + (a + (b + c))
  {
  }

  lemma WordLength(n: int)
    ensures |Word32(n)| == 4
  {
  }

  /** The events with every status byte written, one after the other. */
  function EncodeAll(es: seq<Event>): seq<Byte> {
    if es == [] then [] else EncodeAll(es[..|es| - 1]) + EncodeEvent(es[|es| - 1], true)
  }

  lemma EncodeAllSnoc(es: seq<Event>, e: Event)
    ensures EncodeAll(es + [e]) == EncodeAll(es) + EncodeEvent(e, true)
  {
    assert (es + [e])[..|es|] == es;
  }

  lemma {:induction false} EncodeAllCons(e: Event, es: seq<Event>)
    ensures EncodeAll([e] + es) == EncodeEvent(e, true) + EncodeAll(es)
  {
    hide EncodeEvent;
    if es == [] {
      assert [e] + es == [] + [e];
      EncodeAllSnoc([], e);
    } else {
      var front, last := es[..|es| - 1], es[|es| - 1];
      EncodeAllCons(e, front);
      assert [e] + es == ([e] + front) + [last];
      EncodeAllSnoc([e] + front, last);
    }
  }

  lemma {:induction false} EncodedAs(es: seq<Event>, prev: Byte, keep: seq<bool>)
    requires |keep| == |es| && forall k :: 0 <= k < |keep| ==> keep[k]
    ensures Encode(es, prev, keep) == EncodeAll(es)
    decreases es
  {
    hide EncodeEvent, EncodeAll;
    if es == [] {
      NoEvents();
    } else {
      EncodedAs(es[1..], StatusOf(es[0]), keep[1..]);
      EncodeAllCons(es[0], es[1..]);
      assert es == [es[0]] + es[1..];
    }
  }

  lemma NoEvents()
    ensures EncodeAll([]) == []
  {
  }

  lemma EncodedLength(track: seq<Event>)
    ensures Encode(track, 0, seq(|track|, _ => true)) == EncodeAll(track)
  {
    EncodedAs(track, 0, seq(|track|, _ => true));
  }

  lemma EndEncoded(endspace: nat)
    ensures EncodeEvent(EndOfTrack(endspace), true) == Written(endspace) + [0xff] + [0x2f] + [0]
  {
    assert Quantity(0) == [0] by { assert Leading(0) == []; }
    assert Written(endspace) == Quantity(endspace);
  }

  lemma HeaderReplaced(before: seq<Byte>, blank: seq<Byte>, header: seq<Byte>, body: seq<Byte>, written: seq<Byte>)
    requires |blank| == |header| && written == before + blank + body
    ensures written[..|before|] + header + written[|before| + |header|..] == before + (header + body)
  {
  }
}
