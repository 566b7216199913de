/**
 * The subscriber registry of both hubs: subscriber id to the FIFO queue of
 * frames its channel has been sent. A blocking channel send is an append.
 */
module Queues {

  type Registry = map<int, seq<string>>

  /** Every registered queue with `frame` appended once: what one fan-out pass delivers. */
  function Fanout(out: Registry, frame: string): (o: Registry)
    ensures o.Keys == out.Keys
    ensures forall id :: id in o ==> |o[id]| == |out[id]| + 1 && o[id][|out[id]|] == frame
    ensures forall id :: id in o ==> o[id][..|out[id]|] == out[id]
  {
    map id | id in out :: out[id] + [frame]
  }

  /**
   * A fan-out reaches exactly the registered subscribers, each of them
   * once, and leaves what they were sent before as it was.
   */
  lemma FanoutDelivers(out: Registry, frame: string, id: int)
    ensures id in Fanout(out, frame) <==> id in out
    ensures id in out ==> |Fanout(out, frame)[id]| == |out[id]| + 1
    ensures id in out ==> Fanout(out, frame)[id][..|out[id]|] == out[id]
    ensures id in out ==> Fanout(out, frame)[id][|out[id]|] == frame
  {
  }

  /** Per-subscriber FIFO: two fan-outs arrive at each subscriber in the order they were made. */
  lemma FanoutInOrder(out: Registry, first: string, second: string, id: int)
    requires id in out
    ensures Fanout(Fanout(out, first), second)[id] == out[id] + [first, second]
  {
  }

  /** A subscriber that has been removed receives nothing from later fan-outs. */
  lemma FanoutSkipsRemoved(out: Registry, frame: string, id: int)
    ensures id !in Fanout(out - {id}, frame)
  {
  }

  /** Registering an id with an empty queue and then appending to it registers it with what was appended. */
  lemma RegisterThenAppend(out: Registry, id: int, frames: seq<string>)
    ensures out[id := []][id := out[id := []][id] + frames] == out[id := frames]
  {
    assert out[id := []][id] + frames == frames;
  }

  /** A registry whose every queue got `frame` appended, and which gained no id, is the fan-out. */
  lemma FanoutComplete(before: Registry, after: Registry, frame: string)
    requires after.Keys == before.Keys
    requires forall id :: id in after ==> after[id] == before[id] + [frame]
    ensures after == Fanout(before, frame)
  {
    var f := Fanout(before, frame);
    assert after.Keys == f.Keys;
    forall id | id in after
      ensures after[id] == f[id]
    {
    }
  }

  /** Replacing a queue twice keeps only the second replacement. */
  lemma ReplaceTwice(out: Registry, id: int, first: seq<string>, second: seq<string>)
    ensures out[id := first][id := second] == out[id := second]
  {
  }
}
