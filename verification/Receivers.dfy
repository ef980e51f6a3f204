/** The relay loops of src/intermediate_receiver.cc and src/basic_receiver.cc. */
module Receivers {
  import opened MessageFrames
  import opened Sequences
  import opened Stats

  /** msgpack conversion to the type the key calls for succeeds. */
  predicate Decodable(m: Message) {
    if m.key == TERM_KEY then m.data.Notice? else m.data.Batch?
  }

  /** What a relay sends on for a given input: every message it receives, up to and including the first
      it cannot decode. The basic receiver does not decode at all. */
  function Forwarded(messages: seq<Message>, decodes: bool): seq<Message> {
    if messages == [] then []
    else
      var m := Received(messages[0]);
      [m] + (if decodes && !Decodable(m) then [] else Forwarded(messages[1..], decodes))
  }

  /** A relay never invents, reorders or alters: what it sends is a prefix of what it was sent, shorter exactly
      when it decodes and a payload before the last is not of the kind its key calls for. */
  lemma {:induction false} ForwardedPrefix(messages: seq<Message>, decodes: bool)
    ensures |Forwarded(messages, decodes)| <= |messages|
    ensures forall i :: 0 <= i < |Forwarded(messages, decodes)| ==>
      Forwarded(messages, decodes)[i] == Received(messages[i])
    ensures |Forwarded(messages, decodes)| < |messages| <==>
      decodes && exists i :: 0 <= i < |messages| - 1 && !Converts(messages[i])
  {
    if messages != [] {
      var rest := messages[1..];
      ForwardedPrefix(rest, decodes);
      assert forall i :: 0 < i < |messages| ==> messages[i] == rest[i - 1];
      assert Decodable(Received(messages[0])) <==> Converts(messages[0]);
      if decodes && Converts(messages[0]) {
        if i :| 0 <= i < |rest| - 1 && !Converts(rest[i]) {
          assert !Converts(messages[i + 1]);
        }
      }
    }
  }

  class Receiver {
    const subscriber: Socket
    const publisher: Socket
    const decodes: bool
    var done: bool

    constructor (subscriber: Socket, publisher: Socket, decodes: bool)
      ensures this.subscriber == subscriber && this.publisher == publisher && this.decodes == decodes && !done
    {
      this.subscriber, this.publisher, this.decodes, done := subscriber, publisher, decodes, false;
    }

    /** One turn of the loop: receive, republish, and only then decode; any exception ends the loop. */
    method RelayOne(ghost input: seq<Message>)
      requires !done && subscriber != publisher && subscriber.frames == AllFrames(input)
      modifies this, subscriber, publisher
      ensures input == [] ==> done && publisher.frames == old(publisher.frames)
      ensures input != [] ==>
        && publisher.frames == old(publisher.frames) + Frames(Received(input[0]))
        && subscriber.frames == AllFrames(input[1..])
        && done == (decodes && !Converts(input[0]))
    {
      FramesShape(input);
      var next := new MessageObject(Message("", Opaque("")));
      var ok := next.Receive(subscriber);
      if !ok {
        done := true;
        return;
      }
      next.Send(publisher);
      if decodes && !Decodable(next.View()) {
        done := true;
      }
    }

    /** The loop. interrupt is the number of messages handled before a signal sets the flag; once its
        input is used up the socket fails. */
    method Relay(ghost input: seq<Message>, interrupt: nat)
      requires !done && subscriber != publisher && subscriber.frames == AllFrames(input)
      modifies this, subscriber, publisher
      ensures done
      ensures var n := if interrupt < |input| then interrupt else |input|;
        publisher.frames == old(publisher.frames) + AllFrames(Forwarded(input[..n], decodes))
    {
      ghost var n := if interrupt < |input| then interrupt else |input|;
      ghost var goal := Forwarded(input[..n], decodes);
      ghost var relayed := [];
      ghost var todo := input[..n];
      assert input[0..] == input;
      var count := 0;
      while !done && count < interrupt
        invariant 0 <= count && (!done ==> count <= n && subscriber.frames == AllFrames(input[count..]))
        invariant publisher.frames == old(publisher.frames) + AllFrames(relayed)
        invariant !done ==> todo == input[count..n]
        invariant goal == relayed + (if done then [] else Forwarded(todo, decodes))
        decreases !done, interrupt - count
      {
        RelayOne(input[count..]);
        if count < |input| {
          RelayedOne(relayed, todo, decodes);
          Assoc(old(publisher.frames), AllFrames(relayed), Frames(Received(todo[0])));
          relayed := relayed + [Received(todo[0])];
          todo := todo[1..];
          assert input[count..][1..] == input[count + 1..];
        }
        count := count + 1;
      }
      assert !done ==> todo == [];
      assert relayed == goal;
      done := true;
    }
  }

  lemma RelayedOne(relayed: seq<Message>, todo: seq<Message>, decodes: bool)
    requires todo != []
    ensures var m := Received(todo[0]);
      && AllFrames(relayed + [m]) == AllFrames(relayed) + Frames(m)
      && relayed + Forwarded(todo, decodes)
         == relayed + [m] + if decodes && !Converts(todo[0]) then [] else Forwarded(todo[1..], decodes)
  {
    var m := Received(todo[0]);
    FramesConcat(relayed, [m]);
    AllFramesOne(m);
    Assoc(relayed, [m], if decodes && !Decodable(m) then [] else Forwarded(todo[1..], decodes));
  }

  lemma AllFramesOne(m: Message)
    ensures AllFrames([m]) == Frames(m)
  {
    assert [m][1..] == [];
    assert Frames(m) + AllFrames([]) == Frames(m);
  }
}
