/** The byte-at-a-time reader of midifile.c, proved to compute `MidiFormat.ReadTrack`. A
    fatal error (`mferror`, which exits) is returned as an `Err`. */
module MidiReader {
  import opened VarLen
  import opened MidiFormat

  /** The message buffer: Msgbuff, Msgsize and Msgindex. */
  class MessageBuffer {
    const MSGINCREMENT := 128
    var msgbuff: array<Byte>
    var msgindex: nat

    ghost predicate Valid()
      reads this
    {
      msgindex <= msgbuff.Length
    }

    ghost function Contents(): seq<Byte>
      reads this, msgbuff
      requires Valid()
    {
      msgbuff[..msgindex]
    }

    constructor ()
      ensures Valid() && Contents() == [] && fresh(msgbuff)
    {
      msgbuff := new Byte[0];
      msgindex := 0;
    }

    /** `msginit` */
    method Init()
      requires Valid()
      modifies this`msgindex
      ensures Valid() && Contents() == []
    {
      msgindex := 0;
    }

    /** `biggermsg`: a larger buffer with the old message copied across. */
    method Bigger()
      requires Valid()
      modifies this`msgbuff
      ensures Valid() && Contents() == old(Contents()) && fresh(msgbuff)
      ensures msgbuff.Length == old(msgbuff.Length) + MSGINCREMENT
    {
      var newmess := new Byte[msgbuff.Length + MSGINCREMENT];
      var p := 0;
      while p < msgbuff.Length
        invariant 0 <= p <= msgbuff.Length
        invariant newmess[..p] == msgbuff[..p]
        modifies newmess
      {
        newmess[p] := msgbuff[p];
        p := p + 1;
      }
      assert newmess[..msgindex] == newmess[..p][..msgindex];
      msgbuff := newmess;
    }

    /** `msgadd` */
    method Add(c: Byte)
      requires Valid()
      modifies this, msgbuff
      ensures Valid() && Contents() == old(Contents()) + [c]
      ensures msgbuff == old(msgbuff) || fresh(msgbuff)
    {
      if msgindex >= msgbuff.Length {
        Bigger();
      }
      msgbuff[msgindex] := c;
      msgindex := msgindex + 1;
    }
  }

  lemma UnknownByte(s: seq<Byte>, nomerge: bool, t: Reading, p: nat, c: Byte)
    requires p <= |s| && c != 0xff && c != 0xf0 && c != 0xf7
    ensures ReadSpecial(s, nomerge, t, p, c) == Err(UnexpectedByte(c))
  {
  }

  lemma SysexReads(s: seq<Byte>, nomerge: bool, t: Reading, p: nat)
    requires p <= |s|
    ensures ReadSpecial(s, nomerge, t, p, 0xf0) ==
            var (n, q) :- ReadQuantity(s, p);
            var data :- NextBytes(s, q, n);
            var u := t.(pos := q + n, msg := [0xf0] + data);
            if LastOr(data, 0xf0) == 0xf7 || !nomerge then
              Ok(u.(reports := u.reports + [SysexReport(u.time, u.msg)]))
            else Ok(u.(inSysex := true))
  {
    hide ReadQuantity, LastOr;
  }

  class Reader {
    const input: seq<Byte>
    const nomerge: bool
    const msg: MessageBuffer
    var pos: nat
    /** Mf_toberead and Mf_currtime */
    var toberead: int
    var currtime: nat
    /** The variables `status` and `sysexcontinue` of `readtrack`. */
    var status: Byte
    var sysexcontinue: bool
    /** The callbacks made for this track. */
    var reports: seq<Report>

    ghost predicate Valid()
      reads this, msg
    {
      msg.Valid() && pos <= |input|
    }

    ghost function State(): Reading
      reads this, msg, msg.msgbuff
      requires Valid()
    {
      Reading(pos, currtime, status, sysexcontinue, msg.Contents(), reports)
    }

    constructor (input: seq<Byte>, nomerge: bool)
      ensures Valid() && fresh(msg) && fresh(msg.msgbuff)
      ensures this.input == input && this.nomerge == nomerge && pos == 0
    {
      this.input := input;
      this.nomerge := nomerge;
      msg := new MessageBuffer();
      pos, toberead, currtime, status, sysexcontinue, reports := 0, 0, 0, 0, false, [];
    }

    /** `egetc` */
    method Egetc() returns (r: Result<Byte>)
      requires Valid()
      modifies this`pos, this`toberead
      ensures Valid() && r == NextByte(input, old(pos))
      ensures r.Ok? ==> pos == old(pos) + 1 && toberead == old(toberead) - 1
    {
      if pos == |input| {
        return Err(PrematureEof);
      }
      r := Ok(input[pos]);
      pos := pos + 1;
      toberead := toberead - 1;
    }

    /** `readvarinum` */
    method Readvarinum() returns (r: Result<nat>)
      requires Valid()
      modifies this`pos, this`toberead
      ensures Valid()
      ensures match ReadQuantity(input, old(pos))
              case Ok(q) => r == Ok(q.0) && pos == q.1 && toberead + pos == old(toberead + pos)
              case Err(e) => r == Err(e)
    {
      var c :- Egetc();
      var value: nat := c;
      if c >= 0x80 {
        value := value % 128;
        assert ReadQuantity(input, old(pos)) == ReadOn(input, pos, value);
        while c >= 0x80
          invariant Valid() && toberead + pos == old(toberead + pos)
          invariant c >= 0x80 ==> ReadQuantity(input, old(pos)) == ReadOn(input, pos, value)
          invariant c < 0x80 ==> ReadQuantity(input, old(pos)) == Ok((value, pos))
          decreases |input| - pos, c
        {
          c :- Egetc();
          value := value * 128 + c % 128;
        }
      }
      return Ok(value);
    }

    /** The loop that reads the rest of a message into the buffer; `last` is the byte read
        last, `c` if there was none. */
    method ReadInto(length: nat, c: Byte) returns (r: Result<Byte>)
      requires Valid()
      modifies this`pos, this`toberead, msg, msg.msgbuff
      ensures Valid() && (msg.msgbuff == old(msg.msgbuff) || fresh(msg.msgbuff))
      ensures match NextBytes(input, old(pos), length)
              case Ok(data) =>
                r == Ok(LastOr(data, c)) && pos == old(pos) + length && toberead + pos == old(toberead + pos) &&
                msg.Contents() == old(msg.Contents()) + data
              case Err(e) => r == Err(e)
    {
      var lookfor := toberead - length;
      var last := c;
      ghost var k := 0;
      while toberead > lookfor
        invariant 0 <= k <= length && Valid() && pos == old(pos) + k && toberead + pos == old(toberead + pos)
        invariant msg.msgbuff == old(msg.msgbuff) || fresh(msg.msgbuff)
        invariant msg.Contents() == old(msg.Contents()) + input[old(pos)..old(pos) + k]
        invariant last == LastOr(input[old(pos)..old(pos) + k], c)
        decreases toberead - lookfor
      {
        last :- Egetc();
        msg.Add(last);
        assert input[old(pos)..old(pos) + k + 1] == input[old(pos)..old(pos) + k] + [last];
        k := k + 1;
      }
      return Ok(last);
    }

    /** A channel message after its first byte `c`. */
    method ChannelMessage(c: Byte, running: bool) returns (r: Result<()>)
      requires Valid() && Needed(status) > 0 && 0 < pos && input[pos - 1] == c
      modifies this`pos, this`toberead, this`reports
      ensures Valid()
      ensures match ReadChannel(input, old(State()), old(pos) - 1, running)
              case Ok(t) => r.Ok? && State() == t && toberead + pos == old(toberead + pos)
              case Err(e) => r == Err(e)
    {
      hide Dispatch;
      var c1 := c;
      if !running {
        c1 :- Egetc();
      }
      var c2 := 0;
      if Needed(status) > 1 {
        c2 :- Egetc();
      }
      reports := reports + [ChannelReport(currtime, Dispatch(status, c1, c2))];
      return Ok(());
    }

    /** The case 0xff of the switch in `readtrack`. */
    method MetaMessage() returns (r: Result<()>)
      requires Valid()
      modifies this`pos, this`toberead, this`reports, this`sysexcontinue, msg, msg.msgbuff
      ensures Valid() && (msg.msgbuff == old(msg.msgbuff) || fresh(msg.msgbuff))
      ensures match ReadSpecial(input, nomerge, old(State()), old(pos), 0xff)
              case Ok(t) => r.Ok? && State() == t && toberead + pos == old(toberead + pos)
              case Err(e) => r == Err(e)
    {
      hide ReadQuantity, LastOr;
      var kind :- Egetc();
      var varinum :- Readvarinum();
      msg.Init();
      ghost var q := pos;
      var _ :- ReadInto(varinum, 0xff);
      assert msg.Contents() == input[q..q + varinum];
      reports := reports + [MetaReport(currtime, kind, msg.msgbuff[..msg.msgindex])];
      return Ok(());
    }

    /** The message so far, when only its first byte has been read. */
    method StartSysex()
      requires Valid()
      modifies msg, msg.msgbuff
      ensures Valid() && State() == old(State()).(msg := [0xf0])
      ensures msg.msgbuff == old(msg.msgbuff) || fresh(msg.msgbuff)
    {
      msg.Init();
      msg.Add(0xf0);
    }

    /** After the bytes of a system exclusive message: it is reported, or it goes on. */
    method EndSysex(last: Byte)
      requires Valid()
      modifies this`reports, this`sysexcontinue
      ensures var t := old(State());
              Valid() && toberead == old(toberead) && State() == if last == 0xf7 || !nomerge then t.(reports := t.reports + [SysexReport(t.time, t.msg)])
                                    else t.(inSysex := true)
    {
      if last == 0xf7 || !nomerge {
        reports := reports + [SysexReport(currtime, msg.msgbuff[..msg.msgindex])];
      } else {
        sysexcontinue := true;
      }
    }

    /** After the bytes of a continuation: as a message of its own, or as the end or a
        further part of the one before. */
    method EndContinuation(last: Byte)
      requires Valid()
      modifies this`reports, this`sysexcontinue
      ensures var t := old(State());
              Valid() && State() == if !t.inSysex then t.(reports := t.reports + [ArbitraryReport(t.time, t.msg)])
                                    else if last == 0xf7 then
                                      t.(inSysex := false, reports := t.reports + [SysexReport(t.time, t.msg)])
                                    else t
    {
      if !sysexcontinue {
        reports := reports + [ArbitraryReport(currtime, msg.msgbuff[..msg.msgindex])];
      } else if last == 0xf7 {
        reports := reports + [SysexReport(currtime, msg.msgbuff[..msg.msgindex])];
        sysexcontinue := false;
      }
    }

    /** The case 0xf0. */
    method SysexMessage() returns (r: Result<()>)
      requires Valid()
      modifies this`pos, this`toberead, this`reports, this`sysexcontinue, msg, msg.msgbuff
      ensures Valid() && (msg.msgbuff == old(msg.msgbuff) || fresh(msg.msgbuff))
      ensures match ReadSpecial(input, nomerge, old(State()), old(pos), 0xf0)
              case Ok(t) => r.Ok? && State() == t && toberead + pos == old(toberead + pos)
              case Err(e) => r == Err(e)
    {
      hide ReadQuantity, NextBytes, LastOr, ReadSpecial;
      SysexReads(input, nomerge, State(), pos);
      var varinum :- Readvarinum();
      StartSysex();
      var last :- ReadInto(varinum, 0xf0);
      EndSysex(last);
      return Ok(());
    }

    /** The case 0xf7. */
    method SysexContinuation() returns (r: Result<()>)
      requires Valid()
      modifies this`pos, this`toberead, this`reports, this`sysexcontinue, msg, msg.msgbuff
      ensures Valid() && (msg.msgbuff == old(msg.msgbuff) || fresh(msg.msgbuff))
      ensures match ReadSpecial(input, nomerge, old(State()), old(pos), 0xf7)
              case Ok(t) => r.Ok? && State() == t && toberead + pos == old(toberead + pos)
              case Err(e) => r == Err(e)
    {
      hide ReadQuantity, LastOr;
      var varinum :- Readvarinum();
      if !sysexcontinue {
        msg.Init();
      }
      ghost var q, m := pos, msg.Contents();
      var last :- ReadInto(varinum, 0xf7);
      assert msg.Contents() == if sysexcontinue then m + input[q..q + varinum] else input[q..q + varinum];
      EndContinuation(last);
      return Ok(());
    }

    /** One round of the loop in `readtrack`. */
    method Event() returns (r: Result<()>)
      requires Valid()
      modifies this`pos, this`toberead, this`currtime, this`status, this`reports, this`sysexcontinue,
               msg, msg.msgbuff
      ensures Valid() && (msg.msgbuff == old(msg.msgbuff) || fresh(msg.msgbuff))
      ensures match ReadEvent(input, nomerge, old(State()))
              case Ok(t) => r.Ok? && State() == t && toberead + pos == old(toberead + pos)
              case Err(e) => r == Err(e)
    {
      hide ReadQuantity, ReadChannel, ReadSpecial, Needed;
      var delta :- Readvarinum();
      currtime := currtime + delta;
      var c :- Egetc();
      if sysexcontinue && c != 0xf7 {
        return Err(ContinuationExpected);
      }
      var running := c < 0x80;
      if running {
        if status == 0 {
          return Err(UnexpectedRunningStatus);
        }
      } else {
        status := c;
      }
      if Needed(status) > 0 {
        r := ChannelMessage(c, running);
      } else if c == 0xff {
        r := MetaMessage();
      } else if c == 0xf0 {
        r := SysexMessage();
      } else if c == 0xf7 {
        r := SysexContinuation();
      } else {
        UnknownByte(input, nomerge, State(), pos, c);
        r := Err(UnexpectedByte(c));
      }
    }

    /** `readmt` */
    method Readmt() returns (r: Result<()>)
      requires Valid()
      modifies this`pos
      ensures Valid()
      ensures match ReadHeader(input, old(pos), 0)
              case Ok(p) => r.Ok? && pos == p
              case Err(e) => r == Err(e)
    {
      var n := 0;
      while n < 4
        invariant 0 <= n <= 4 && Valid() && ReadHeader(input, pos, n) == ReadHeader(input, old(pos), 0)
      {
        if pos == |input| {
          return Err(NoTrack);
        }
        if input[pos] != MTRK[n] {
          return Err(ExpectingHeader);
        }
        pos := pos + 1;
        n := n + 1;
      }
      return Ok(());
    }

    /** `read32bit` */
    method Read32bit() returns (r: Result<nat>)
      requires Valid()
      modifies this`pos, this`toberead
      ensures Valid()
      ensures if old(pos) + 4 > |input| then r == Err(PrematureEof)
              else pos == old(pos) + 4 &&
                   r == Ok(Join32(input[old(pos)], input[old(pos) + 1], input[old(pos) + 2], input[old(pos) + 3]))
    {
      hide Join32;
      var c1 :- Egetc();
      var c2 :- Egetc();
      var c3 :- Egetc();
      var c4 :- Egetc();
      return Ok(Join32(c1, c2, c3, c4));
    }

    /** `readtrack`, from the place where the track chunk begins. */
    method ReadTrack() returns (r: Result<()>)
      requires Valid()
      modifies this, msg, msg.msgbuff
      ensures Valid()
      ensures match MidiFormat.ReadTrack(input, nomerge, old(pos))
              case Ok(t) => r.Ok? && pos == t.pos && currtime == t.time && reports == t.reports &&
                            toberead == old(pos) + 8 + Join32(input[old(pos) + 4], input[old(pos) + 5],
                                                              input[old(pos) + 6], input[old(pos) + 7]) - pos
              case Err(e) => r == Err(e)
    {
      hide ReadEvent, Join32, ReadHeader;
      var _ :- Readmt();
      toberead :- Read32bit();
      ghost var end := pos + toberead;
      currtime, status, sysexcontinue, reports := 0, 0, false, [];
      msg.Init();
      while toberead > 0
        invariant Valid() && (msg.msgbuff == old(msg.msgbuff) || fresh(msg.msgbuff))
        invariant toberead + pos == end
        invariant ReadEvents(input, nomerge, end, State()) == MidiFormat.ReadTrack(input, nomerge, old(pos))
        decreases |input| - pos
      {
        var _ :- Event();
      }
      return Ok(());
    }
  }
}
