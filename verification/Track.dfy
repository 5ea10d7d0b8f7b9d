/** The track writer itself: the globals of genmidi.c and queues.c as the fields of an
    object, and the routines that change them. Each routine is proved to do what its
    specification in `Playback` and `Delay` says. */
module Track {
  import opened NoteQueue
  import opened Fractions
  import opened Delay
  import P = Playback

  class Track {
    const queue: Queue
    var settings: P.Settings
    var deltaTime: int
    var tracklen: int
    var gPtr: nat
    var drumPtr: nat
    var out: seq<P.Midi>
    var failed: bool
    var errNum: int
    var errDenom: int
    ghost var booked: seq<Timed>

    ghost predicate Valid()
      reads this, queue, queue.cells
    {
      queue.Valid() && errDenom > 0
    }

    ghost function State(): P.State
      reads this, queue, queue.cells
      requires Valid()
    {
      P.State(queue.Entries(), deltaTime, tracklen, gPtr, drumPtr, out, booked, failed)
    }

    /** The start of a track, before any accompaniment is asked for (`starttrack`). */
    constructor (settings: P.Settings)
      ensures Valid() && fresh(queue) && fresh(queue.cells) && this.settings == settings
      ensures State() == P.State([], 0, 0, 0, 0, [], [], false)
      ensures errNum == 0 && errDenom == 1
    {
      queue := new Queue();
      this.settings := settings;
      deltaTime, tracklen, gPtr, drumPtr, out, failed := 0, 0, 0, 0, [], false;
      errNum, errDenom, booked := 0, 1, [];
    }

    method AddToQ(num: nat, denom: P.Positive, pitch: int, chan: int, d: int)
      requires Valid()
      modifies this`booked, queue, queue.cells
      ensures Valid() && State() == P.AddToQ(settings, old(State()), num, denom, pitch, chan, d)
    {
      hide P.Ticks, Insert, Chain, Partition, Items;
      var wait := P.Ticks(settings, num, denom) + d;
      var ok := queue.AddToQ(wait, pitch, chan, settings.notedelay);
      if ok && pitch != -1 {
        booked := booked + [Timed(tracklen + deltaTime + wait, pitch, chan)];
      }
    }

    /** The request for accompaniment in `starttrack`. */
    method StartTrack()
      requires Valid() && State() == P.State([], 0, 0, 0, 0, [], [], false)
      modifies this`booked, queue, queue.cells
      ensures Valid() && State() == P.StartTrack(settings)
    {
      hide P.AddToQ;
      if settings.gchordson {
        AddToQ(0, settings.gDenom, -1, gPtr, 0);
      }
    }

    /** The last lines of `checkbar`. */
    method CheckBar()
      requires Valid()
      modifies this`gPtr, this`drumPtr, this`booked, queue, queue.cells
      ensures Valid() && State() == P.BarLine(settings, old(State()))
    {
      hide P.AddToQ;
      if settings.gchordson {
        gPtr := 0;
        AddToQ(0, settings.gDenom, -1, gPtr, 0);
      }
      if settings.drumson {
        drumPtr := 0;
        AddToQ(0, settings.drumDenom, -1, drumPtr, 0);
      }
    }

    /** `midi_noteon` with `noteon_data`, or `midi_noteoff` with the lines after it. */
    method WriteEvent(e: P.Midi)
      requires Valid() && e.delta == deltaTime
      modifies this`out, this`tracklen, this`deltaTime
      ensures Valid() && State() == P.Write(old(State()), e)
    {
      out := out + [e];
      tracklen := tracklen + deltaTime;
      deltaTime := 0;
    }

    method SaveNote(num: nat, denom: P.Positive, x: P.Sound)
      requires Valid()
      modifies this`out, this`tracklen, this`deltaTime, this`booked, queue, queue.cells
      ensures Valid() && State() == P.SaveNote(settings, old(State()), num, denom, x)
    {
      hide P.AddToQ, P.Write, Insert, Chain, Partition, Items;
      if x.chan == 9 {
        WriteEvent(P.NoteOn(deltaTime, x.pitch, x.chan, x.vel));
        AddToQ(num, denom, x.pitch, x.chan, -1);
      } else {
        WriteEvent(P.NoteOn(deltaTime, x.pitch + settings.transposition, x.chan, x.vel));
        AddToQ(num, denom, x.pitch + settings.transposition, x.chan, -1);
      }
    }

    /** The loop over the notes of a chord in `dogchords`. */
    method SaveNotes(num: nat, denom: P.Positive, xs: seq<P.Sound>)
      requires Valid()
      modifies this`out, this`tracklen, this`deltaTime, this`booked, queue, queue.cells
      ensures Valid() && State() == P.SaveNotes(settings, old(State()), num, denom, xs)
    {
      hide P.SaveNote, Insert, Chain, Partition, Items;
      var j := 0;
      while j < |xs|
        invariant 0 <= j <= |xs| && Valid()
        invariant P.SaveNotes(settings, State(), num, denom, xs[j..]) ==
                  P.SaveNotes(settings, old(State()), num, denom, xs)
      {
        SaveNote(num, denom, xs[j]);
        assert xs[j..] == [xs[j]] + xs[j + 1..];
        j := j + 1;
      }
    }

    method DoGchords(i: int)
      requires Valid()
      modifies this`gPtr, this`out, this`tracklen, this`deltaTime, this`booked, queue, queue.cells
      ensures Valid() && State() == P.DoGchords(settings, old(State()), i)
    {
      hide P.SaveNotes, P.BeatNotes, P.AddToQ, P.StepLength, Insert, Chain, Partition, Items;
      if i == gPtr && gPtr < |settings.gchordSeq| {
        var b := settings.gchordSeq[gPtr];
        var length := P.StepLength(settings.gNum, b.len);
        SaveNotes(length, settings.gDenom, P.BeatNotes(settings, b.action));
        gPtr := gPtr + 1;
        AddToQ(length, settings.gDenom, -1, gPtr, 0);
      }
    }

    method DoDrums(i: int)
      requires Valid()
      modifies this`drumPtr, this`out, this`tracklen, this`deltaTime, this`booked, queue, queue.cells
      ensures Valid() && State() == P.DoDrums(settings, old(State()), i)
    {
      hide P.SaveNotes, P.HitNotes, P.AddToQ, P.StepLength, Insert, Chain, Partition, Items;
      if i == drumPtr && drumPtr < |settings.drumSeq| {
        var h := settings.drumSeq[drumPtr];
        var length := P.StepLength(settings.drumNum, h.len);
        SaveNotes(length, settings.drumDenom, P.HitNotes(settings, h));
        drumPtr := drumPtr + 1;
        AddToQ(length, settings.drumDenom, -1, drumPtr, 0);
      }
    }

    method ProgressSequence(i: int)
      requires Valid()
      modifies this`gPtr, this`drumPtr, this`out, this`tracklen, this`deltaTime, this`booked, queue, queue.cells
      ensures Valid() && State() == P.ProgressSequence(settings, old(State()), i)
    {
      hide P.DoGchords, P.DoDrums, Insert, Chain, Partition, Items;
      if settings.gchordson {
        DoGchords(i);
      }
      if settings.drumson {
        DoDrums(i);
      }
    }

    /** One round of the loop in `timestep`, for the item at the head of the queue. */
    method Serve(atEnd: bool)
      requires Valid() && State().queue != [] && !failed
      modifies this`gPtr, this`drumPtr, this`out, this`tracklen, this`deltaTime, this`booked, this`failed,
               queue, queue.cells
      ensures Valid() && State() == P.Serve(settings, old(State()), atEnd)
    {
      hide P.ProgressSequence, P.Write, Insert, Chain, Partition, Items;
      queue.HeadItem();
      var headtime := queue.cells[queue.qhead].delay;
      deltaTime := deltaTime + headtime;
      queue.AdvanceQ(headtime);
      queue.HeadItem();
      var head := queue.cells[queue.qhead];
      if head.pitch == -1 {
        if !atEnd {
          ProgressSequence(head.chan);
        }
      } else {
        WriteEvent(P.NoteOff(deltaTime, head.pitch, head.chan));
      }
      failed := queue.RemoveFromQ(queue.qhead);
    }

    method TimeStep(t: int, atEnd: bool)
      requires Valid() && !failed
      modifies this`gPtr, this`drumPtr, this`out, this`tracklen, this`deltaTime, this`booked, this`failed,
               queue, queue.cells
      ensures Valid() && State() == P.TimeStep(settings, old(State()), t, atEnd)
    {
      hide P.Serve, P.StepsLeft, Insert, Chain, Partition, Items;
      var time := t;
      queue.HeadItem();
      while queue.qhead != -1 && queue.cells[queue.qhead].delay < time
        invariant Valid() && !failed
        invariant queue.qhead == -1 <==> State().queue == []
        invariant queue.qhead != -1 ==> 0 <= queue.qhead < queue.cells.Length &&
                                        State().queue[0] == Item(queue.cells[queue.qhead])
        invariant P.TimeStep(settings, State(), time, atEnd) == P.TimeStep(settings, old(State()), t, atEnd)
        decreases P.StepsLeft(settings, State()), |State().queue|
      {
        ghost var s := State();
        P.ServeProgress(settings, s, atEnd);
        time := time - queue.cells[queue.qhead].delay;
        Serve(atEnd);
        if failed {
          return;
        }
        queue.HeadItem();
      }
      queue.AdvanceQ(time);
      deltaTime := deltaTime + time - settings.totalnotedelay;
    }

    /** `delay` */
    method Wait(a: nat, b: P.Positive, c: int)
      requires Valid() && !failed
      modifies this`gPtr, this`drumPtr, this`out, this`tracklen, this`deltaTime, this`booked, this`failed,
               this`errNum, this`errDenom, queue, queue.cells
      ensures Valid()
      ensures var (dt, e) := Delayed(settings.divFactor, old(Carry(errNum, errDenom)), a, b, c);
              State() == P.TimeStep(settings, old(State()), dt, false) && Carry(errNum, errDenom) == e
    {
      hide P.TimeStep, Insert, Chain, Partition, Items, Reduced, LowestTerms, Value, Gcd;
      var ticks := settings.divFactor * a;
      var dt := ticks / b + c;
      SumPositive(errDenom, b);
      var num, denom := Reduce(errNum * b + ticks % b * errDenom, errDenom * b);
      dt := dt + num / denom;
      errNum, errDenom := num % denom, denom;
      TimeStep(dt, false);
    }

    /** The last loop of `clearQ`. */
    method Flush()
      requires Valid() && !failed && settings.totalnotedelay == 0 && tracklen == P.SumDeltas(out)
      modifies this`gPtr, this`drumPtr, this`out, this`tracklen, this`deltaTime, this`booked, this`failed,
               queue, queue.cells
      ensures Valid() && State() == P.Flush(settings, old(State())) && !failed && tracklen == P.SumDeltas(out)
    {
      hide P.TimeStep, P.SumDeltas, P.AllOffs, Insert, Chain, Partition, Items;
      queue.HeadItem();
      while queue.qhead != -1
        invariant Valid() && !failed && tracklen == P.SumDeltas(out)
        invariant queue.qhead == -1 <==> State().queue == []
        invariant queue.qhead != -1 ==> 0 <= queue.qhead < queue.cells.Length &&
                                        State().queue[0] == Item(queue.cells[queue.qhead])
        invariant P.Flush(settings, State()) == P.Flush(settings, old(State()))
        decreases |State().queue|
      {
        P.AtEndShortens(settings, State(), queue.cells[queue.qhead].delay + 1);
        P.AtEndKeepsOffs(settings, State(), queue.cells[queue.qhead].delay + 1);
        TimeStep(queue.cells[queue.qhead].delay + 1, true);
        queue.HeadItem();
      }
    }

    /** The first loop of `clearQ`: throw away the requests at the head of the queue. */
    method DropRequests() returns (time: int)
      requires Valid()
      modifies queue, queue.cells
      ensures Valid() && time == P.LeadTime(old(State().queue))
      ensures State() == old(State()).(queue := P.AfterRequests(old(State().queue)))
    {
      hide Insert, Chain, Partition, Items;
      time := 0;
      queue.HeadItem();
      while queue.qhead != -1 && queue.cells[queue.qhead].pitch == -1
        invariant Valid() && State() == old(State()).(queue := State().queue)
        invariant queue.qhead == -1 <==> State().queue == []
        invariant queue.qhead != -1 ==> 0 <= queue.qhead < queue.cells.Length &&
                                        State().queue[0] == Item(queue.cells[queue.qhead])
        invariant time + P.LeadTime(State().queue) == P.LeadTime(old(State().queue))
        invariant P.AfterRequests(State().queue) == P.AfterRequests(old(State().queue))
        decreases |State().queue|
      {
        time := time + queue.cells[queue.qhead].delay;
        queue.DropHead();
        queue.HeadItem();
      }
    }

    /** `clearQ`, with the totalnotedelay of 0 that it finds at the end of a track. */
    method ClearQ()
      requires Valid() && !failed && settings.totalnotedelay == 0 && tracklen == P.SumDeltas(out)
      modifies this`gPtr, this`drumPtr, this`out, this`tracklen, this`deltaTime, this`booked, this`failed,
               queue, queue.cells
      ensures Valid() && State() == P.ClearQ(settings, old(State())) && !failed
      ensures |queue.free| == QSIZE
    {
      hide P.TimeStep, P.Flush, P.SumDeltas, P.AllOffs, P.LeadTime, P.AfterRequests, Insert, Chain, Items;
      var time := DropRequests();
      queue.HeadItem();
      P.AtEndKeepsOffs(settings, State(), time);
      if queue.qhead != -1 {
        TimeStep(time, true);
      }
      P.FlushWritesAll(settings, State());
      Flush();
      P.EmptyTimeStep(settings, State());
      TimeStep(25, false);
    }
  }
}
