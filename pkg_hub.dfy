/**
 * The evolved hub of package `pkg`: a registry of subscriber queues, an id
 * counter and a bounded history of timestamped messages. Message frames
 * carry a leading `'0'`, ping frames are the single character `'1'`.
 */
module PkgHub {
  import opened Text
  import opened History
  import opened LogMessages
  import opened Queues

  class Hub {
    /** Capacity of the history; Go's slice expression would panic on a negative one. */
    const bufSize: nat
    /** Next subscriber id to hand out. */
    var counter: nat
    /** False once `Close` has closed the hub's input channel. */
    var inOpen: bool
    /** Subscriber id to the frames its channel has been sent. */
    var out: Registry
    /** The retained history, oldest first. */
    var messages: seq<LogMessage>

    /** The history is within capacity, and every registered id was handed out already. */
    ghost predicate Valid()
      reads this
    {
      && |messages| <= bufSize
      && (forall id :: id in out ==> 0 <= id < counter)
    }

    /**
     * `InitHub`. The ping interval only decides whether the ping goroutine
     * starts; Go's hub never stores it in the hub.
     */
    constructor InitHub(bufSize: nat, pingInterval: int)
      ensures Valid()
      ensures this.bufSize == bufSize
      ensures counter == 0 && out == map[] && messages == [] && inOpen
    {
      this.bufSize := bufSize;
      counter := 0;
      inOpen := true;
      out := map[];
      messages := [];
    }

    /**
     * Registers a new subscriber under the next id and replays the history
     * to it (Go runs the replay in a goroutine; here it runs to
     * completion before the call returns).
     */
    method GetOutChannel() returns (chanID: int)
      requires Valid()
      modifies this`counter, this`out
      ensures Valid()
      ensures chanID == old(counter) && counter == old(counter) + 1
      ensures chanID !in old(out)
      ensures out == old(out)[chanID := Rendered(messages)]
    {
      chanID := counter;
      counter := counter + 1;
      out := out[chanID := []];
      DumpToChannel(chanID);
      RegisterThenAppend(old(out), chanID, Rendered(messages));
    }

    /** Sends every retained message, rendered and oldest first, to one subscriber. */
    method DumpToChannel(chanID: int)
      requires chanID in out
      modifies this`out
      ensures out == old(out)[chanID := old(out)[chanID] + Rendered(messages)]
    {
      assert messages[..0] == [];
      assert old(out)[chanID] + [] == old(out)[chanID];
      for i := 0 to |messages|
        invariant out == old(out)[chanID := old(out)[chanID] + Rendered(messages[..i])]
      {
        ghost var sent := old(out)[chanID] + Rendered(messages[..i]);
        RenderedSnoc(messages, i);
        assert sent + [messages[i].String()] == old(out)[chanID] + Rendered(messages[..i + 1]);
        out := out[chanID := out[chanID] + [messages[i].String()]];
        ReplaceTwice(old(out), chanID, sent, sent + [messages[i].String()]);
      }
      assert messages[..|messages|] == messages;
    }

    /** Deregisters a subscriber; an id that is not registered is left alone. */
    method CloseOutChannel(chanID: int)
      requires Valid()
      modifies this`out
      ensures Valid()
      ensures chanID !in out
      ensures chanID !in old(out) ==> out == old(out)
      ensures out == old(out) - {chanID}
    {
      if chanID !in out {
        return;
      }
      out := out - {chanID};
    }

    /** Closes the input channel and deregisters every subscriber; a second call would panic. */
    method Close()
      requires Valid() && inOpen
      modifies this`inOpen, this`out
      ensures Valid()
      ensures !inOpen && out == map[]
    {
      inOpen := false;
      while exists chanID :: chanID in out
        invariant Valid() && !inOpen
        decreases out.Keys
      {
        var chanID :| chanID in out;
        out := out - {chanID};
      }
      assert out == map[];
    }

    /** Sends the ping frame `"1"` to every subscriber; the history is untouched. */
    method Ping()
      requires Valid()
      modifies this`out
      ensures Valid()
      ensures out == Fanout(old(out), "1") && messages == old(messages)
    {
      RealBroadcast("1");
    }

    /**
     * Appends a message stamped `now` to the history, trims the history to
     * the newest `bufSize` entries, and sends `"0"` + its rendering to every
     * subscriber.
     */
    method Broadcast(m: string, now: Timestamp)
      requires Valid()
      modifies this`messages, this`out
      ensures Valid()
      ensures messages == Window(old(messages) + [NewLogMessage(m, now)], bufSize)
      ensures out == Fanout(old(out), "0" + NewLogMessage(m, now).String())
    {
      var msg := NewLogMessage(m, now);
      messages := messages + [msg];
      if |messages| > bufSize {
        messages := messages[|messages| - bufSize..];
      }
      RealBroadcast("0" + msg.String());
    }

    /** Sends one frame to every registered subscriber, one channel at a time. */
    method RealBroadcast(frame: string)
      modifies this`out
      ensures out == Fanout(old(out), frame)
    {
      var pending := out.Keys;
      while exists id :: id in pending
        invariant pending <= out.Keys
        invariant out.Keys == old(out).Keys
        invariant forall id :: id in out ==> out[id] == if id in pending then old(out)[id] else old(out)[id] + [frame]
        decreases pending
      {
        var id :| id in pending;
        out := out[id := out[id] + [frame]];
        pending := pending - {id};
      }
      assert pending == {};
      FanoutComplete(old(out), out, frame);
    }

    /** The text `Dump` writes: one rendered line per retained message, oldest first. */
    method Dump() returns (w: string)
      ensures w == Joined(Rendered(messages))
    {
      w := "";
      assert messages[..0] == [];
      for i := 0 to |messages|
        invariant w == Joined(Rendered(messages[..i]))
      {
        JoinedRenderedSnoc(messages, i);
        w := w + messages[i].String() + "\n";
      }
      assert messages[..|messages|] == messages;
    }
  }
}
