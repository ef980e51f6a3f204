/** src/whisper_updater.py: reads update lines and files each value under its metric. */
module WhisperUpdater {
  import opened Numerals
  import opened Sequences
  import opened Stats
  import opened Text
  import opened WhisperLines

  datatype Error = IndexError | ValueError

  datatype Outcome = Done | Raised(error: Error)

  datatype Point = Point(path: string, value: Num, time: Num)

  /** The metric files, every update made to them, and the terminations printed. */
  datatype Store = Store(root: string, files: set<string>, points: seq<Point>, terminated: seq<string>)

  /** os.path.join(a, b) */
  function PathJoin(a: string, b: string): string {
    if "/" <= b then b
    else if a == "" || a[|a| - 1] == '/' then a + b
    else a + "/" + b
  }

  function MetricPath(root: string, metric: string): string {
    PathJoin(root, metric) + ".wsp"
  }

  /** Updater.update: the file is created before the numbers are looked at. */
  function UpdateMetric(s: Store, metric: string, dataline: string): (Store, Outcome) {
    var data := Tokens(dataline);
    var path := MetricPath(s.root, metric);
    var s' := s.(files := s.files + {path});
    if |data| < 1 then (s', Raised(IndexError))
    else
      match ParseFloat(data[0])
      case None => (s', Raised(ValueError))
      case Some(value) =>
        if |data| < 2 then (s', Raised(IndexError))
        else
          match ParseFloat(data[1])
          case None => (s', Raised(ValueError))
          case Some(time) => (s'.(points := s.points + [Point(path, value, time)]), Done)
  }

  /** Updater.process_cmd */
  function ProcessCmd(s: Store, line: string): (Store, Outcome) {
    var toks := Tokens(line);
    if toks == [] then (s, Raised(IndexError))
    else
      var key := toks[0];
      var rest := Join(toks[1..], ' ');
      if !("monitor" <= key) then (s, Done)
      else if key == TERM_KEY then (s.(terminated := s.terminated + [rest]), Done)
      else if SERVERS_PREFIX <= key then UpdateMetric(s, Join(Split(key, '.')[1..], '/'), rest)
      else (s, Done)
  }

  // ---------- reading lines ----------

  /** Length of the first line, its newline included. */
  function LineLength(text: string): (n: nat)
    ensures n <= |text|
    ensures text != "" ==> n > 0
  {
    if text == "" then 0 else if text[0] == '\n' then 1 else 1 + LineLength(text[1..])
  }

  /** What successive readline() calls return before the empty string at the end. */
  function ReadLines(text: string): seq<string>
    decreases |text|
  {
    if text == "" then [] else [text[..LineLength(text)]] + ReadLines(text[LineLength(text)..])
  }

  /** main's loop: an exception ends the program. */
  function ProcessLines(s: Store, lines: seq<string>): (Store, Outcome)
    decreases |lines|
  {
    if lines == [] then (s, Done)
    else
      var (s', o) := ProcessCmd(s, Strip(lines[0]));
      if o.Raised? then (s', o) else ProcessLines(s', lines[1..])
  }

  class Updater {
    const root: string
    var files: set<string>
    var points: seq<Point>
    var terminated: seq<string>

    constructor (dataDir: string)
      ensures View() == Store(dataDir, {}, [], [])
    {
      root, files, points, terminated := dataDir, {}, [], [];
    }

    function View(): Store
      reads this
    {
      Store(root, files, points, terminated)
    }

    method TerminateInstance(which: string)
      modifies this
      ensures View() == old(View()).(terminated := old(View()).terminated + [which])
    {
      terminated := terminated + [which];
    }

    method Update(metric: string, dataline: string) returns (o: Outcome)
      modifies this
      ensures (View(), o) == UpdateMetric(old(View()), metric, dataline)
    {
      var data := Tokens(dataline);
      var path := MetricPath(root, metric);
      if path !in files {
        files := files + {path};
      }
      assert files == old(files) + {path};
      if |data| < 1 { return Raised(IndexError); }
      var value := ParseFloat(data[0]);
      if value.None? { return Raised(ValueError); }
      if |data| < 2 { return Raised(IndexError); }
      var time := ParseFloat(data[1]);
      if time.None? { return Raised(ValueError); }
      points := points + [Point(path, value.value, time.value)];
      o := Done;
    }

    method Process(line: string) returns (o: Outcome)
      modifies this
      ensures (View(), o) == ProcessCmd(old(View()), line)
    {
      var toks := Tokens(line);
      if toks == [] { return Raised(IndexError); }
      var key := toks[0];
      var rest := Join(toks[1..], ' ');
      o := Done;
      if !("monitor" <= key) { return; }
      if key == TERM_KEY {
        TerminateInstance(rest);
      } else if SERVERS_PREFIX <= key {
        o := Update(Join(Split(key, '.')[1..], '/'), rest);
      }
    }

    /** The readline loop over everything that arrives on standard input. */
    method ReadLoop(text: string) returns (o: Outcome)
      modifies this
      ensures (View(), o) == ProcessLines(old(View()), ReadLines(text))
    {
      var rest := text;
      o := Done;
      while rest != "" && o == Done
        invariant ProcessLines(old(View()), ReadLines(text))
               == if o == Done then ProcessLines(View(), ReadLines(rest)) else (View(), o)
        decreases |rest|
      {
        var n := LineLength(rest);
        var line := rest[..n];
        assert ReadLines(rest)[1..] == ReadLines(rest[n..]);
        o := Process(Strip(line));
        rest := rest[n..];
      }
    }
  }

  // ---------- what any line does ----------

  /** Whatever the data: the metric's file exists afterwards, a value is filed exactly when the first two words
      are both numbers, and otherwise the exception says whether a word was missing or not a number, the value
      being looked at before the time. */
  lemma UpdateOutcome(s: Store, metric: string, dataline: string)
    ensures var (s', o) := UpdateMetric(s, metric, dataline);
      var data, path := Tokens(dataline), PathJoin(s.root, metric) + ".wsp";
      var bad := |data| >= 1 && (ParseFloat(data[0]).None? || (|data| >= 2 && ParseFloat(data[1]).None?));
      && s'.root == s.root && s'.files == s.files + {path} && s'.terminated == s.terminated
      && (o == Raised(ValueError) <==> bad)
      && (o == Done <==> |data| >= 2 && !bad)
      && s'.points == s.points + if o == Done
           then [Point(path, ParseFloat(data[0]).value, ParseFloat(data[1]).value)] else []
  {
    assert s.points + [] == s.points;
  }

  /** Whatever the line: blank ones raise, foreign topics change nothing, and a termination is recorded with its
      words joined by single blanks. */
  lemma CommandOutcome(s: Store, line: string)
    ensures Tokens(line) == [] ==> ProcessCmd(s, line) == (s, Raised(IndexError))
    ensures Tokens(line) != [] ==>
      var key, rest := Tokens(line)[0], Join(Tokens(line)[1..], ' ');
      if key == "monitor.term_instance" then
        ProcessCmd(s, line) == (s.(terminated := s.terminated + [rest]), Done)
      else if "monitor.servers." <= key then
        ProcessCmd(s, line) == UpdateMetric(s, Replace(key[8..], '.', '/'), rest)
      else ProcessCmd(s, line) == (s, Done)
  {
    if Tokens(line) != [] && "monitor.servers." <= Tokens(line)[0] {
      TopicPath(Tokens(line)[0]);
    }
  }

  lemma TopicPath(key: string)
    requires "monitor.servers." <= key
    ensures "monitor" <= key && key != "monitor.term_instance"
    ensures Join(Split(key, '.')[1..], '/') == Replace(key[8..], '.', '/')
  {
    var tail := key[8..];
    assert key[7] == '.' && key[8] == 's' && "monitor.term_instance"[8] == 't';
    assert key == "monitor" + ['.'] + tail;
    SplitAppend("monitor", tail, '.');
    SplitFree("monitor", '.');
    assert (["monitor"] + Split(tail, '.'))[1..] == Split(tail, '.');
    JoinSplit(tail, '.', '/');
  }

  // ---------- the decoder inverts the printer ----------

  /** Where the values of a metric are filed. */
  function FilePath(root: string, host: string, uuid: string, metric: string): string {
    PathJoin(root, "servers/" + Replace(host, '.', '/') + "/" + uuid + "/" + metric) + ".wsp"
  }

  function Decoded(r: Reading): Num {
    match r
    case Share(n) => Rounded(n)
    case Count(i) => OfInt(i)
  }

  function PointOf(root: string, r: Report): Point {
    Point(FilePath(root, r.host, r.uuid, r.metric), Decoded(r.reading), Rounded(r.tov))
  }

  function Filed(s: Store, r: Report): Store {
    s.(files := s.files + {FilePath(s.root, r.host, r.uuid, r.metric)}, points := s.points + [PointOf(s.root, r)])
  }

  lemma ReplaceConcat(a: string, b: string, c: char, d: char)
    ensures Replace(a + b, c, d) == Replace(a, c, d) + Replace(b, c, d)
  {
  }

  lemma ReplaceFree(s: string, c: char, d: char)
    requires c !in s
    ensures Replace(s, c, d) == s
  {
  }

  lemma ReplaceKey(host: string, uuid: string, metric: string)
    requires '.' !in uuid && '.' !in metric
    ensures Replace("servers." + host + "." + uuid + "." + metric, '.', '/')
         == "servers/" + Replace(host, '.', '/') + "/" + uuid + "/" + metric
  {
    ReplaceFree(uuid, '.', '/');
    ReplaceFree(metric, '.', '/');
    ReplaceConcat("servers." + host + "." + uuid + ".", metric, '.', '/');
    ReplaceConcat("servers." + host + "." + uuid, ".", '.', '/');
    ReplaceConcat("servers." + host + ".", uuid, '.', '/');
    ReplaceConcat("servers." + host, ".", '.', '/');
    ReplaceConcat("servers.", host, '.', '/');
    assert Replace("servers.", '.', '/') == "servers/";
    assert Replace(".", '.', '/') == "/";
  }

  /** Splitting the key at its dots and joining all but "monitor" with slashes gives the metric's path. */
  lemma KeyToPath(host: string, uuid: string, metric: string)
    requires '.' !in uuid && '.' !in metric
    ensures Join(Split(FullKey(host, uuid, metric), '.')[1..], '/')
         == "servers/" + Replace(host, '.', '/') + "/" + uuid + "/" + metric
  {
    var tail := "servers." + host + "." + uuid + "." + metric;
    assert FullKey(host, uuid, metric) == "monitor" + ['.'] + tail;
    SplitAppend("monitor", tail, '.');
    SplitFree("monitor", '.');
    assert (["monitor"] + Split(tail, '.'))[1..] == Split(tail, '.');
    JoinSplit(tail, '.', '/');
    ReplaceKey(host, uuid, metric);
  }

  lemma ReadingIsWord(r: Reading)
    ensures IsWord(ReadingText(r)) && ParseFloat(ReadingText(r)) == Some(Decoded(r))
  {
    match r
    case Share(n) => FixedIsWord(n); FixedRoundTrip(n);
    case Count(i) => IntIsWord(i); IntRoundTrip(i);
  }

  lemma ThreeTokens(a: string, b: string, c: string)
    requires IsWord(a) && IsWord(b) && IsWord(c)
    ensures Tokens(a + " " + b + " " + c) == [a, b, c]
    ensures Tokens(Join([b, c], ' ')) == [b, c]
  {
    TokensJoin([b, c]);
    assert [b, c][1..] == [c];
    assert Join([b, c], ' ') == b + [' '] + c;
    TokensAfterBlank(a, b + [' '] + c);
    Assoc(a + [' '], b + [' '], c);
    Assoc(a + [' '], b, [' ']);
  }

  lemma KeyIsWord(r: Report)
    requires GoodReport(r)
    ensures IsWord(FullKey(r.host, r.uuid, r.metric))
    ensures "monitor" <= FullKey(r.host, r.uuid, r.metric) && SERVERS_PREFIX <= FullKey(r.host, r.uuid, r.metric)
    ensures FullKey(r.host, r.uuid, r.metric) != TERM_KEY
  {
    MetricText(r.metric);
    assert SpaceFree(SERVERS_PREFIX);
    var key := FullKey(r.host, r.uuid, r.metric);
    assert key[8] == 's' && TERM_KEY[8] == 't';
  }

  /** Decoding the line printed for a report files exactly that report: integers exactly, doubles to six
      decimals, under the path of its host, UUID and metric. */
  lemma LineRoundTrip(s: Store, r: Report)
    requires GoodReport(r)
    ensures ProcessCmd(s, LineOf(r)) == (Filed(s, r), Done)
  {
    var key := FullKey(r.host, r.uuid, r.metric);
    NothingTruncated(r);
    KeyIsWord(r);
    ReadingIsWord(r.reading);
    FixedIsWord(r.tov);
    FixedRoundTrip(r.tov);
    ThreeTokens(key, ReadingText(r.reading), PrintFixed(r.tov));
    MetricText(r.metric);
    KeyToPath(r.host, r.uuid, r.metric);
    assert [key, ReadingText(r.reading), PrintFixed(r.tov)][1..] == [ReadingText(r.reading), PrintFixed(r.tov)];
  }

  /** What strip() and the line's newline do makes no difference. */
  lemma ProcessStripped(s: Store, line: string)
    ensures ProcessCmd(s, Strip(line + "\n")) == ProcessCmd(s, line)
  {
    TokensStrip(line + "\n");
    TokensTrailingSpace(line, '\n');
    assert line + "\n" == line + ['\n'];
  }

  // ---------- paths identify metrics ----------

  /** What joining onto root puts before a relative path. */
  function RootPrefix(root: string): string {
    if root == "" || root[|root| - 1] == '/' then root else root + "/"
  }

  lemma PathJoinIs(root: string, b: string)
    requires b != "" && b[0] != '/'
    ensures PathJoin(root, b) == RootPrefix(root) + b
  {
  }

  lemma JoinRoot(root: string, b: string, b': string)
    requires b != "" && b' != "" && b[0] != '/' && b'[0] != '/'
    requires PathJoin(root, b) == PathJoin(root, b')
    ensures b == b'
  {
    PathJoinIs(root, b);
    PathJoinIs(root, b');
    var prefix := RootPrefix(root);
    assert (prefix + b)[|prefix|..] == b && (prefix + b')[|prefix|..] == b';
  }

  /** Different host, UUID or metric, different file, even when hosts contain dots. */
  lemma FilePathInjective(root: string, h: string, u: string, m: string, h': string, u': string, m': string)
    requires '/' !in h && '/' !in u && '/' !in m && '/' !in h' && '/' !in u' && '/' !in m'
    requires FilePath(root, h, u, m) == FilePath(root, h', u', m')
    ensures h == h' && u == u' && m == m'
  {
    var a, a' := "servers/" + Replace(h, '.', '/'), "servers/" + Replace(h', '.', '/');
    var p, p' := a + "/" + u + "/" + m, a' + "/" + u' + "/" + m';
    assert FilePath(root, h, u, m)[..|PathJoin(root, p)|] == PathJoin(root, p);
    assert FilePath(root, h', u', m')[..|PathJoin(root, p')|] == PathJoin(root, p');
    JoinRoot(root, p, p');
    assert p == a + "/" + u + ['/'] + m && p' == a' + "/" + u' + ['/'] + m';
    CutAtLast(a + "/" + u, m, a' + "/" + u', m', '/');
    CutAtLast(a, u, a', u', '/');
    assert a[8..] == Replace(h, '.', '/') && a'[8..] == Replace(h', '.', '/');
    ReplaceInjective(h, h', '.', '/');
  }
}
