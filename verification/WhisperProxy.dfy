/** src/WhisperUpdater.hh: turns messages into lines on a buffered pipe to the updater process. */
module WhisperProxy {
  import opened MessageFrames
  import opened Sequences
  import opened Stats
  import opened Text
  import opened WhisperLines
  import opened WhisperUpdater

  /** The lines a message is turned into; None when its payload does not convert. */
  function Output(m: Message): Option<seq<string>> {
    if m.key == TERM_KEY then
      if m.data.Notice? then Some([TERM_KEY + " " + CStr(m.data.instance)]) else None
    else
      if m.data.Batch? then Some(Lines(Reports(m.data.agg.hostname, m.data.agg.tov, m.data.agg.domains))) else None
  }

  /** A notice is one line: its key and its text, as far as the text's first NUL. */
  lemma NoticeLine(m: Message)
    requires m.key == "monitor.term_instance" && m.data.Notice?
    ensures Output(m).Some? && |Output(m).value| == 1
    ensures var line, text := Output(m).value[0], m.data.instance;
      exists n :: 0 <= n <= |text| && line == "monitor.term_instance " + text[..n]
        && '\0' !in text[..n] && (n == |text| || text[n] == '\0')
  {
    var text := m.data.instance;
    assert text[..|CStr(text)|] == CStr(text);
    assert Output(m).value[0] == "monitor.term_instance " + text[..|CStr(text)|];
  }

  /** The text of some lines, each ended by a newline. */
  function Written(lines: seq<string>): string {
    if lines == [] then "" else Written(lines[..|lines| - 1]) + lines[|lines| - 1] + "\n"
  }

  /** The lines of successive messages, and whether all of them converted; the first that does not ends it. */
  function OutputAll(messages: seq<Message>): (seq<string>, bool) {
    if messages == [] then ([], true)
    else
      var (lines, ok) := OutputAll(messages[..|messages| - 1]);
      var last := Output(Received(messages[|messages| - 1]));
      if ok && last.Some? then (lines + last.value, true) else (lines, false)
  }

  /** stdio over a pipe: the reader sees the flushed part only. */
  class Pipe {
    var written: string
    var flushed: nat

    predicate Valid()
      reads this
    {
      flushed <= |written|
    }

    constructor ()
      ensures Valid() && written == ""
    {
      written, flushed := "", 0;
    }

    /** The buffer may spill at any time. */
    method Fprintf(text: string)
      requires Valid()
      modifies this
      ensures Valid() && written == old(written) + text && old(flushed) <= flushed
    {
      written := written + text;
      var spilt: nat :| flushed <= spilt <= |written|;
      flushed := spilt;
    }

    method Fflush()
      requires Valid()
      modifies this
      ensures Valid() && written == old(written) && flushed == |written|
    {
      flushed := |written|;
    }
  }

  class WhisperRRDProxy {
    const updater: Pipe

    constructor (updater: Pipe)
      ensures this.updater == updater
    {
      this.updater := updater;
    }

    /** False stands for msgpack's type_error. After a batch with any domain nothing stays in the buffer,
        not even notices written before it; a notice alone may stay there. */
    method UpdateImmediate(m: Message) returns (ok: bool)
      requires updater.Valid()
      modifies updater
      ensures updater.Valid() && old(updater.flushed) <= updater.flushed
      ensures ok <==> Output(m).Some?
      ensures updater.written == old(updater.written) + if ok then Written(Output(m).value) else ""
      ensures ok && m.key != TERM_KEY && m.data.agg.domains != [] ==> updater.flushed == |updater.written|
    {
      if m.key == TERM_KEY {
        if !m.data.Notice? { return false; }
        updater.Fprintf(TERM_KEY + " " + CStr(m.data.instance) + "\n");
        WrittenOne(TERM_KEY + " " + CStr(m.data.instance));
        return true;
      }
      if !m.data.Batch? { return false; }
      var updates := GetWhisperUpdates(m.data.agg);
      WriteUpdates(updates);
      ReportsCount(m.data.agg.hostname, m.data.agg.tov, m.data.agg.domains);
      ok := true;
    }

    method WriteUpdates(updates: seq<string>)
      requires updater.Valid()
      modifies updater
      ensures updater.Valid() && old(updater.flushed) <= updater.flushed
      ensures updater.written == old(updater.written) + Written(updates)
      ensures updates != [] ==> updater.flushed == |updater.written|
    {
      var i := 0;
      while i < |updates|
        invariant 0 <= i <= |updates| && updater.Valid() && old(updater.flushed) <= updater.flushed
        invariant updater.written == old(updater.written) + Written(updates[..i])
        invariant i > 0 ==> updater.flushed == |updater.written|
      {
        updater.Fprintf(updates[i] + "\n");
        updater.Fflush();
        WrittenAppend(updates[..i], updates[i]);
        assert updates[..i + 1] == updates[..i] + [updates[i]];
        i := i + 1;
      }
      assert updates[..i] == updates;
    }

    /** The polling loop, for the number of polls that happen before shutdown; polled counts the polls made
        and handled the messages taken from the socket. An exception ends the thread: only a message that
        does not convert makes it stop early. */
    method RunProxyLoop(sock: Socket, ghost input: seq<Message>, polls: nat) returns (handled: nat, polled: nat)
      requires updater.Valid() && sock.frames == AllFrames(input)
      modifies updater, sock
      ensures handled <= |input| && handled <= polled <= polls
      ensures sock.frames == AllFrames(input[handled..])
      ensures updater.Valid() && updater.written == old(updater.written) + Written(OutputAll(input[..handled]).0)
      ensures handled > 0 ==> OutputAll(input[..handled - 1]).1
      ensures polled < polls ==> !OutputAll(input[..handled]).1
    {
      handled, polled := 0, 0;
      var ok := true;
      ghost var start := updater.written;
      NothingHandled(input, start);
      while polled < polls && ok
        invariant 0 <= handled <= polled <= polls && updater.Valid()
        invariant Handled(input, handled, start, updater.written, sock.frames, ok)
      {
        polled := polled + 1;
        var ready: bool := *;
        FramesShape(input[handled..]);
        if ready && sock.frames != [] {
          ok := HandleAt(sock, input, handled, start);
          handled := handled + 1;
        }
      }
    }

    /** Handles message n, when those before it have been written after start. */
    method HandleAt(sock: Socket, ghost input: seq<Message>, ghost n: nat, ghost start: string) returns (ok: bool)
      requires updater.Valid() && n < |input| && Handled(input, n, start, updater.written, sock.frames, true)
      modifies updater, sock
      ensures updater.Valid() && Handled(input, n + 1, start, updater.written, sock.frames, ok)
    {
      assert input[n..][0] == input[n] && input[n..][1..] == input[n + 1..];
      ok := HandleNext(sock, input[n..]);
      OutputMore(input, n);
      if ok {
        WrittenAfter(start, OutputAll(input[..n]).0, Output(Received(input[n])).value);
      }
    }

    method HandleNext(sock: Socket, ghost input: seq<Message>) returns (ok: bool)
      requires updater.Valid() && input != [] && sock.frames == AllFrames(input)
      modifies updater, sock
      ensures updater.Valid() && sock.frames == AllFrames(input[1..])
      ensures ok <==> Output(Received(input[0])).Some?
      ensures updater.written == old(updater.written) + if ok then Written(Output(Received(input[0])).value) else ""
    {
      FramesShape(input);
      var next := new MessageObject(Message("", Opaque("")));
      var received := next.Receive(sock);
      ok := UpdateImmediate(next.View());
    }
  }

  /** What is written after start and left on the socket once n messages have been handled, all but the last of
      which converted; ok says whether that one did. */
  ghost predicate Handled(input: seq<Message>, n: nat, start: string, written: string, frames: seq<Frame>, ok: bool) {
    && n <= |input| && frames == AllFrames(input[n..])
    && written == start + Written(OutputAll(input[..n]).0) && ok == OutputAll(input[..n]).1
    && (n > 0 ==> OutputAll(input[..n - 1]).1)
  }

  lemma NothingHandled(input: seq<Message>, start: string)
    ensures Handled(input, 0, start, start, AllFrames(input), true)
  {
    assert input[0..] == input && start + Written([]) == start;
  }

  lemma OutputMore(input: seq<Message>, n: nat)
    requires n < |input| && OutputAll(input[..n]).1
    ensures var lines, o := OutputAll(input[..n]).0, Output(Received(input[n]));
      OutputAll(input[..n + 1]) == if o.Some? then (lines + o.value, true) else (lines, false)
  {
    assert input[..n + 1][..n] == input[..n];
  }

  lemma AllButLast(messages: seq<Message>)
    requires messages != []
    ensures var most := messages[..|messages| - 1];
      (forall i :: 0 <= i < |messages| ==> Converts(messages[i]))
      <==> Converts(messages[|messages| - 1]) && forall i :: 0 <= i < |most| ==> Converts(most[i])
  {
    assert forall i :: 0 <= i < |messages| - 1 ==> messages[i] == messages[..|messages| - 1][i];
  }

  lemma LastConverts(messages: seq<Message>)
    requires messages != []
    ensures OutputAll(messages).1
      <==> OutputAll(messages[..|messages| - 1]).1 && Converts(messages[|messages| - 1])
  {
  }

  /** The proxy stops at the first message whose payload is not what its key calls for. */
  lemma {:induction false} AllConvert(messages: seq<Message>)
    ensures OutputAll(messages).1 <==> forall i :: 0 <= i < |messages| ==> Converts(messages[i])
    decreases |messages|
  {
    if messages != [] {
      var most := messages[..|messages| - 1];
      AllConvert(most);
      LastConverts(messages);
      AllButLast(messages);
    }
  }

  lemma WrittenAfter(start: string, a: seq<string>, b: seq<string>)
    ensures start + Written(a + b) == start + Written(a) + Written(b)
  {
    WrittenConcat(a, b);
    Assoc(start, Written(a), Written(b));
  }

  lemma WrittenAppend(lines: seq<string>, line: string)
    ensures Written(lines + [line]) == Written(lines) + (line + "\n")
  {
    assert (lines + [line])[..|lines|] == lines;
  }

  lemma WrittenOne(line: string)
    ensures Written([line]) == line + "\n"
  {
    WrittenAppend([], line);
    assert [] + [line] == [line];
  }

  lemma {:induction false} WrittenConcat(a: seq<string>, b: seq<string>)
    ensures Written(a + b) == Written(a) + Written(b)
    decreases |b|
  {
    if b == [] {
      assert a + b == a;
    } else {
      var most, last := b[..|b| - 1], b[|b| - 1];
      WrittenConcat(a, most);
      MostConcat(a, b);
      Assoc(Written(a), Written(most), last);
      Assoc(Written(a), Written(most) + last, "\n");
    }
  }

  // ---------- framing ----------

  predicate OneLine(line: string) { '\n' !in line }

  function Terminated(lines: seq<string>): seq<string> {
    seq(|lines|, i requires 0 <= i < |lines| => lines[i] + "\n")
  }

  lemma {:induction false} FirstLine(line: string, rest: string)
    requires OneLine(line)
    ensures LineLength(line + "\n" + rest) == |line| + 1
  {
    var text := line + "\n" + rest;
    if line == "" {
      assert text[0] == '\n';
    } else {
      FirstLine(line[1..], rest);
      assert text[1..] == line[1..] + "\n" + rest;
    }
  }

  lemma WrittenHead(lines: seq<string>)
    requires lines != []
    ensures Written(lines) == lines[0] + "\n" + Written(lines[1..])
  {
    WrittenConcat([lines[0]], lines[1..]);
    WrittenOne(lines[0]);
    assert [lines[0]] + lines[1..] == lines;
  }

  /** The reader gets back exactly the lines written, in order. */
  lemma {:induction false} LinesReadBack(lines: seq<string>)
    requires forall i :: 0 <= i < |lines| ==> OneLine(lines[i])
    ensures ReadLines(Written(lines)) == Terminated(lines)
    decreases |lines|
  {
    if lines != [] {
      var line, rest := lines[0], lines[1..];
      LinesReadBack(rest);
      WrittenHead(lines);
      FirstLine(line, Written(rest));
      assert Written(lines)[..|line| + 1] == line + "\n";
      assert Written(lines)[|line| + 1..] == Written(rest);
      assert Terminated(lines) == [line + "\n"] + Terminated(rest);
    }
  }

  lemma {:induction false} NoNewlineLength(text: string)
    requires '\n' !in text
    ensures LineLength(text) == |text|
  {
    if text != "" {
      NoNewlineLength(text[1..]);
    }
  }

  /** Whatever part of the text has been flushed, the reader has got a prefix of the lines, and possibly
      the beginning of the next one. */
  ghost predicate ReadSoFar(lines: seq<string>, k: nat, part: string, text: string) {
    && k <= |lines| && (part != "" ==> k < |lines| && part <= lines[k])
    && ReadLines(text) == Terminated(lines[..k]) + if part == "" then [] else [part]
  }

  lemma PartOfLine(lines: seq<string>, p: nat)
    requires lines != [] && OneLine(lines[0]) && p <= |lines[0]|
    ensures exists k: nat, part :: ReadSoFar(lines, k, part, lines[0][..p])
  {
    var text := lines[0][..p];
    NoNewlineLength(text);
    assert text[..p] == text && text[p..] == "";
    assert Terminated(lines[..0]) == [];
    assert ReadSoFar(lines, 0, text, text);
  }

  lemma WholeLine(lines: seq<string>, k: nat, part: string, text: string)
    requires lines != [] && OneLine(lines[0]) && ReadSoFar(lines[1..], k, part, text)
    ensures ReadSoFar(lines, k + 1, part, lines[0] + "\n" + text)
  {
    var line, all := lines[0], lines[0] + "\n" + text;
    FirstLine(line, text);
    assert all[..|line| + 1] == line + "\n" && all[|line| + 1..] == text;
    assert Terminated(lines[..k + 1]) == [line + "\n"] + Terminated(lines[1..][..k]);
  }

  lemma {:induction false} FlushedLines(lines: seq<string>, p: nat)
    requires (forall i :: 0 <= i < |lines| ==> OneLine(lines[i])) && p <= |Written(lines)|
    ensures exists k: nat, part :: ReadSoFar(lines, k, part, Written(lines)[..p])
    decreases |lines|
  {
    if p == 0 {
      assert ReadSoFar(lines, 0, "", Written(lines)[..0]);
    } else {
      var line, rest := lines[0], lines[1..];
      WrittenHead(lines);
      if p <= |line| {
        assert Written(lines)[..p] == line[..p];
        PartOfLine(lines, p);
      } else {
        var q := p - |line| - 1;
        FlushedLines(rest, q);
        var k: nat, part :| ReadSoFar(rest, k, part, Written(rest)[..q]);
        WholeLine(lines, k, part, Written(rest)[..q]);
        assert Written(lines)[..p] == line + "\n" + Written(rest)[..q];
      }
    }
  }
}
