/**
 * The hub of package `webnotifications`, used by its request handler: the
 * same registry, counter and bounded history as the evolved hub, over raw
 * strings, with no frame discriminator and no ping.
 */
module Notifications {
  import opened Text
  import opened History
  import opened Queues

  class Hub {
    /** Capacity of the history; Go's slice expression would panic on a negative one. */
    const bufSize: nat
    /** Next subscriber id to hand out. */
    var counter: nat
    /** False once `Close` has closed the hub's input channel. */
    var inOpen: bool
    /** Subscriber id to the strings its channel has been sent. */
    var out: Registry
    /** The retained history, oldest first. */
    var messages: seq<string>

    /** The history is within capacity, and every registered id was handed out already. */
    ghost predicate Valid()
      reads this
    {
      && |messages| <= bufSize
      && (forall id :: id in out ==> 0 <= id < counter)
    }

    constructor InitHub(bufSize: nat)
      ensures Valid()
      ensures this.bufSize == bufSize
      ensures counter == 0 && out == map[] && messages == [] && inOpen
    {
      this.bufSize := bufSize;
      counter := 0;
      inOpen := true;
      out := map[];
      messages := [];
    }

    /**
     * Registers a new subscriber under the next id and replays the history
     * to it (Go runs the replay in a goroutine; here it runs to
     * completion before the call returns).
     */
    method GetOutChannel() returns (chanID: int)
      requires Valid()
      modifies this`counter, this`out
      ensures Valid()
      ensures chanID == old(counter) && counter == old(counter) + 1
      ensures chanID !in old(out)
      ensures out == old(out)[chanID := messages]
    {
      chanID := counter;
      counter := counter + 1;
      out := out[chanID := []];
      DumpToChannel(chanID);
      RegisterThenAppend(old(out), chanID, messages);
    }

    /** Sends every retained string, oldest first, to one subscriber. */
    method DumpToChannel(chanID: int)
      requires chanID in out
      modifies this`out
      ensures out == old(out)[chanID := old(out)[chanID] + messages]
    {
      assert old(out)[chanID] + messages[..0] == old(out)[chanID];
      for i := 0 to |messages|
        invariant out == old(out)[chanID := old(out)[chanID] + messages[..i]]
      {
        assert old(out)[chanID] + messages[..i + 1] == old(out)[chanID] + messages[..i] + [messages[i]];
        out := out[chanID := out[chanID] + [messages[i]]];
      }
      assert messages[..|messages|] == messages;
    }

    /** Deregisters a subscriber; an id that is not registered is left alone. */
    method CloseOutChannel(chanID: int)
      requires Valid()
      modifies this`out
      ensures Valid()
      ensures chanID !in out
      ensures chanID !in old(out) ==> out == old(out)
      ensures out == old(out) - {chanID}
    {
      if chanID !in out {
        return;
      }
      out := out - {chanID};
    }

    /** Closes the input channel and deregisters every subscriber; a second call would panic. */
    method Close()
      requires Valid() && inOpen
      modifies this`inOpen, this`out
      ensures Valid()
      ensures !inOpen && out == map[]
    {
      inOpen := false;
      while exists chanID :: chanID in out
        invariant Valid() && !inOpen
        decreases out.Keys
      {
        var chanID :| chanID in out;
        out := out - {chanID};
      }
      assert out == map[];
    }

    /**
     * Appends `m` to the history, trims the history to the newest `bufSize`
     * entries, and sends `m` itself to every subscriber.
     */
    method Broadcast(m: string)
      requires Valid()
      modifies this`messages, this`out
      ensures Valid()
      ensures messages == Window(old(messages) + [m], bufSize)
      ensures out == Fanout(old(out), m)
    {
      messages := messages + [m];
      if |messages| > bufSize {
        messages := messages[|messages| - bufSize..];
      }
      assert messages == Window(old(messages) + [m], bufSize);
      ghost var trimmed := messages;

      var pending := out.Keys;
      while exists id :: id in pending
        invariant messages == trimmed
        invariant pending <= out.Keys
        invariant out.Keys == old(out).Keys
        invariant forall id :: id in out ==> out[id] == if id in pending then old(out)[id] else old(out)[id] + [m]
        decreases pending
      {
        var id :| id in pending;
        out := out[id := out[id] + [m]];
        pending := pending - {id};
      }
      assert pending == {};
      FanoutComplete(old(out), out, m);
    }

    /** The text `Dump` writes: one line per retained string, oldest first. */
    method Dump() returns (w: string)
      ensures w == Joined(messages)
    {
      w := "";
      assert messages[..0] == [];
      for i := 0 to |messages|
        invariant w == Joined(messages[..i])
      {
        assert messages[..i + 1] == messages[..i] + [messages[i]];
        JoinedAppend(messages[..i], [messages[i]]);
        assert Joined([messages[i]]) == messages[i] + "\n";
        w := w + messages[i] + "\n";
      }
      assert messages[..|messages|] == messages;
    }
  }
}
