/** src/Message.hh: a message travels as a key frame followed by a data frame. */
module MessageFrames {
  import opened Sequences
  import opened Stats
  import opened Text

  /** A ZeroMQ frame; a key frame is sent with the more flag, a data frame without. */
  datatype Frame = KeyFrame(bytes: string) | DataFrame(data: Payload)

  function Frames(m: Message): seq<Frame> {
    [KeyFrame(m.key), DataFrame(m.data)]
  }

  function AllFrames(messages: seq<Message>): seq<Frame> {
    if messages == [] then [] else Frames(messages[0]) + AllFrames(messages[1..])
  }

  /** What the receiver makes of a message: the key is read back as a C string. */
  function Received(m: Message): Message {
    Message(CStr(m.key), m.data)
  }

  /** The payload is of the kind that the key, as a receiver reads it, calls for. */
  predicate Converts(m: Message) {
    if CStr(m.key) == TERM_KEY then m.data.Notice? else m.data.Batch?
  }

  class Socket {
    var frames: seq<Frame>

    constructor ()
      ensures frames == []
    {
      frames := [];
    }

    method SendFrame(f: Frame)
      modifies this
      ensures frames == old(frames) + [f]
    {
      frames := frames + [f];
    }

    /** None when the socket fails. */
    method ReceiveFrame() returns (f: Option<Frame>)
      modifies this
      ensures if old(frames) == [] then f == None && frames == []
              else f == Some(old(frames)[0]) && frames == old(frames)[1..]
    {
      if frames == [] { return None; }
      f := Some(frames[0]);
      frames := frames[1..];
    }
  }

  class MessageObject {
    var key: string
    var data: Payload

    constructor (m: Message)
      ensures View() == m
    {
      key, data := m.key, m.data;
    }

    function View(): Message
      reads this
    {
      Message(key, data)
    }

    method Send(sock: Socket)
      modifies sock
      ensures sock.frames == old(sock.frames) + Frames(View())
    {
      sock.SendFrame(KeyFrame(key));
      sock.SendFrame(DataFrame(data));
    }

    /** False stands for MessageReceiveError, raised on a failed receive. */
    method Receive(sock: Socket) returns (ok: bool)
      requires sock.frames != [] ==> sock.frames[0].KeyFrame?
      requires |sock.frames| > 1 ==> sock.frames[1].DataFrame?
      modifies this, sock
      ensures ok <==> |old(sock.frames)| >= 2
      ensures forall m, rest :: old(sock.frames) == Frames(m) + rest ==> View() == Received(m) && sock.frames == rest
      ensures |old(sock.frames)| < 2 ==> sock.frames == []
    {
      var f := sock.ReceiveFrame();
      if f == None { return false; }
      key := CStr(f.value.bytes);
      var g := sock.ReceiveFrame();
      if g == None { return false; }
      data := g.value.data;
      ok := true;
      assert old(sock.frames) == [f.value, g.value] + sock.frames;
    }
  }

  lemma {:induction false} FramesShape(messages: seq<Message>)
    ensures |AllFrames(messages)| == 2 * |messages|
    ensures messages != [] ==> AllFrames(messages)[0].KeyFrame? && AllFrames(messages)[1].DataFrame?
  {
    if messages != [] {
      FramesShape(messages[1..]);
    }
  }

  lemma {:induction false} FramesConcat(a: seq<Message>, b: seq<Message>)
    ensures AllFrames(a + b) == AllFrames(a) + AllFrames(b)
  {
    if a == [] {
      assert a + b == b;
    } else {
      FramesConcat(a[1..], b);
      TailConcat(a, b);
    }
  }

  /** A key without NUL arrives as it was sent, and receiving again changes nothing further. */
  lemma ReceivedKey(m: Message)
    ensures Received(m) == m <==> '\0' !in m.key
    ensures Received(Received(m)) == Received(m)
  {
  }
}
