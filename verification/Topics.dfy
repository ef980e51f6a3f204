/** The topic helpers of src/common.cc: topics as paths, and the "mkdir -p" built on them. */
module Topics {
  import opened Text

  /** Rewrites a topic into a path where it stands. */
  method PubsubTopicToPath(key: array<char>)
    modifies key
    ensures key[..] == Replace(old(key[..]), '.', '/')
  {
    for i := 0 to key.Length
      invariant forall j :: 0 <= j < i ==> key[j] == if old(key[j]) == '.' then '/' else old(key[j])
      invariant forall j :: i <= j < key.Length ==> key[j] == old(key[j])
    {
      if key[i] == '.' {
        key[i] := '/';
      }
    }
  }

  /** The path up to and including each dot of the topic. */
  function Components(key: string): seq<string> {
    if key == "" then []
    else
      Components(key[..|key| - 1]) + if key[|key| - 1] == '.' then [Replace(key, '.', '/')] else []
  }

  method PubsubTopicToPathComponents(key: string) returns (out: seq<string>)
    ensures out == Components(key)
  {
    out := [];
    var cur := "";
    for i := 0 to |key|
      invariant out == Components(key[..i]) && cur == Replace(key[..i], '.', '/')
    {
      assert key[..i + 1][..i] == key[..i];
      if key[i] == '.' {
        cur := cur + ['/'];
        assert cur == Replace(key[..i + 1], '.', '/');
        out := out + [cur];
      } else {
        cur := cur + [key[i]];
      }
    }
    assert key[..|key|] == key;
  }

  predicate EndsInSlash(p: string) { p != "" && p[|p| - 1] == '/' }

  function DotCount(key: string): nat {
    if key == "" then 0 else DotCount(key[..|key| - 1]) + if key[|key| - 1] == '.' then 1 else 0
  }

  /** The components are exactly the slash-terminated prefixes of the topic's path, in strictly increasing
      order, one for each dot. */
  lemma {:induction false} ComponentsArePrefixes(key: string)
    requires '/' !in key
    ensures forall p :: p in Components(key) <==> p <= Replace(key, '.', '/') && EndsInSlash(p)
    ensures forall i, j :: 0 <= i < j < |Components(key)| ==> |Components(key)[i]| < |Components(key)[j]|
    ensures |Components(key)| == DotCount(key)
    decreases |key|
  {
    if key != "" {
      var most, path := key[..|key| - 1], Replace(key, '.', '/');
      ComponentsArePrefixes(most);
      assert path == Replace(most, '.', '/') + [path[|key| - 1]];
      forall p ensures p in Components(key) <==> p <= path && EndsInSlash(p) {
        assert p <= path <==> p == path || p <= Replace(most, '.', '/') by {
          if p <= path && p != path {
            assert p == path[..|p|] == Replace(most, '.', '/')[..|p|];
          }
        }
        assert p in Components(key) <==> p in Components(most) || (key[|key| - 1] == '.' && p == path);
      }
      forall i | 0 <= i < |Components(most)| ensures |Components(most)[i]| < |key| {
        assert Components(most)[i] in Components(most);
      }
    }
  }

  /** The in-place rewriting, Python's split and join, and the components' longest prefix are one path. */
  lemma ThreeViews(key: string)
    ensures Join(Split(key, '.'), '/') == Replace(key, '.', '/')
    ensures '/' !in key ==> Split(Replace(key, '.', '/'), '/') == Split(key, '.')
  {
    JoinSplit(key, '.', '/');
    if '/' !in key {
      SplitReplaced(key);
    }
  }

  // ---------- directories ----------

  /** What a path resolves to; repeated and trailing slashes do not matter. */
  datatype Node = Node(absolute: bool, labels: seq<string>)

  function NonEmpty(labels: seq<string>): seq<string> {
    if labels == [] then []
    else
      var n := |labels| - 1;
      NonEmpty(labels[..n]) + if labels[n] == "" then [] else [labels[n]]
  }

  function Resolve(path: string): Node {
    Node(path != "" && path[0] == '/', NonEmpty(Split(path, '/')))
  }

  function Parent(n: Node): Node {
    if n.labels == [] then n else Node(n.absolute, n.labels[..|n.labels| - 1])
  }

  /** The root and the working directory exist, and so does every directory's parent. */
  predicate ParentClosed(dirs: set<Node>) {
    Node(true, []) in dirs && Node(false, []) in dirs && forall d | d in dirs :: Parent(d) in dirs
  }

  /** stat, then mkdir when it is not a directory yet; false when mkdir fails. */
  function MakeDir(dirs: set<Node>, files: set<Node>, path: string): (set<Node>, bool) {
    var n := Resolve(path);
    if n in dirs then (dirs, true)
    else if n in files || Parent(n) !in dirs then (dirs, false)
    else (dirs + {n}, true)
  }

  function MakeDirs(dirs: set<Node>, files: set<Node>, paths: seq<string>): (set<Node>, bool) {
    if paths == [] then (dirs, true)
    else
      var (d, ok) := MakeDirs(dirs, files, paths[..|paths| - 1]);
      if ok then MakeDir(d, files, paths[|paths| - 1]) else (d, false)
  }

  class FileSystem {
    var dirs: set<Node>
    const files: set<Node>

    constructor (dirs: set<Node>, files: set<Node>)
      ensures this.dirs == dirs && this.files == files
    {
      this.dirs, this.files := dirs, files;
    }

    /** mkdir(2): fails on anything that exists and under a missing parent. */
    method Mkdir(path: string) returns (ok: bool)
      modifies this
      ensures ok <==> Resolve(path) !in old(dirs) && Resolve(path) !in files && Parent(Resolve(path)) in old(dirs)
      ensures dirs == if ok then old(dirs) + {Resolve(path)} else old(dirs)
    {
      var n := Resolve(path);
      ok := n !in dirs && n !in files && Parent(n) in dirs;
      if ok {
        dirs := dirs + {n};
      }
    }

    /** create_directories_from_pubsub_key; false stands for its runtime_error. */
    method CreateDirectories(key: string) returns (ok: bool)
      modifies this
      ensures (dirs, ok) == MakeDirs(old(dirs), files, Components(key))
    {
      var paths := PubsubTopicToPathComponents(key);
      ok := true;
      var i := 0;
      while i < |paths| && ok
        invariant 0 <= i <= |paths|
        invariant (dirs, ok) == MakeDirs(old(dirs), files, paths[..i])
      {
        assert paths[..i + 1][..i] == paths[..i];
        if Resolve(paths[i]) !in dirs {
          ok := Mkdir(paths[i]);
        }
        i := i + 1;
      }
      MakeDirsStops(old(dirs), files, paths, i);
    }
  }

  lemma {:induction false} MakeDirsStops(dirs: set<Node>, files: set<Node>, paths: seq<string>, i: nat)
    requires i <= |paths| && (i == |paths| || !MakeDirs(dirs, files, paths[..i]).1)
    ensures MakeDirs(dirs, files, paths) == MakeDirs(dirs, files, paths[..i])
    decreases |paths|
  {
    if i == |paths| {
      assert paths[..i] == paths;
    } else {
      var most := paths[..|paths| - 1];
      assert most[..i] == paths[..i];
      MakeDirsStops(dirs, files, most, i);
    }
  }

  /** In any file system and for any paths: nothing is lost, nothing is created where a file is or without its
      parent, and success means that every path is a directory afterwards. */
  lemma {:induction false} OnlyUnderParents(dirs: set<Node>, files: set<Node>, paths: seq<string>)
    ensures var (d, ok) := MakeDirs(dirs, files, paths);
      && dirs <= d && (forall n | n in d - dirs :: Parent(n) in d && n !in files)
      && (ok <==> forall i :: 0 <= i < |paths| ==> Resolve(paths[i]) in d)
    decreases |paths|
  {
    if paths != [] {
      var most, last := paths[..|paths| - 1], paths[|paths| - 1];
      OnlyUnderParents(dirs, files, most);
      var (d, ok) := MakeDirs(dirs, files, paths);
      if ok {
        forall i | 0 <= i < |paths| ensures Resolve(paths[i]) in d {
          assert i < |most| ==> paths[i] == most[i];
        }
      } else if !MakeDirs(dirs, files, most).1 {
        var i :| 0 <= i < |most| && Resolve(most[i]) !in d;
        assert Resolve(paths[i]) !in d;
      }
    }
  }

  /** The directories above the metric a slash-free topic stands for. */
  function Ancestors(key: string): set<Node> {
    if key == "" then {}
    else
      Ancestors(key[..|key| - 1]) + if key[|key| - 1] == '.' then {Resolve(Replace(key, '.', '/'))} else {}
  }

  /** The directory a topic's last label lies in. */
  function Base(key: string): Node {
    var labels := Split(key, '.');
    Node(key != "" && key[0] == '.', NonEmpty(labels[..|labels| - 1]))
  }

  lemma {:induction false} SplitSnoc(s: string, x: char, c: char)
    requires x != c
    ensures var parts := Split(s, c);
      var n := |parts| - 1;
      Split(s + [x], c) == parts[..n] + [parts[n] + [x]]
  {
    if s == "" {
      SplitFree([x], c);
      assert s + [x] == [x] && "" + [x] == [x];
    } else {
      SplitSnoc(s[1..], x, c);
      assert (s + [x])[1..] == s[1..] + [x];
      SnocParts(Split(s[1..], c), s[0], x, s[0] == c);
    }
  }

  lemma SnocParts(rest: seq<string>, first: char, x: char, cut: bool)
    requires rest != []
    ensures var n := |rest| - 1;
      var more := rest[..n] + [rest[n] + [x]];
      var parts := if cut then [""] + rest else [[first] + rest[0]] + rest[1..];
      (if cut then [""] + more else [[first] + more[0]] + more[1..])
        == parts[..|parts| - 1] + [parts[|parts| - 1] + [x]]
  {
    if |rest| == 1 {
      assert [first] + (rest[0] + [x]) == [first] + rest[0] + [x];
    }
  }

  lemma NonEmptyMore(parts: seq<string>, x: string)
    ensures NonEmpty(parts + [x]) == NonEmpty(parts) + if x == "" then [] else [x]
  {
    assert (parts + [x])[..|parts|] == parts;
  }

  lemma SplitAtEnd(most: string)
    ensures Split(most + ['.'], '.') == Split(most, '.') + [""]
  {
    SplitAppend(most, "", '.');
    assert most + ['.'] + "" == most + ['.'];
  }

  /** The node of the component that ends in a topic's next dot. */
  function NodeAtDot(most: string): Node {
    Node((most + ['.'])[0] == '.', NonEmpty(Split(most, '.')))
  }

  lemma ResolveAtDot(most: string)
    requires '/' !in most
    ensures Resolve(Replace(most + ".", '.', '/')) == NodeAtDot(most)
  {
    var key := most + ['.'];
    SplitAtEnd(most);
    SplitReplaced(key);
    NonEmptyMore(Split(most, '.'), "");
    assert NonEmpty(Split(most, '.')) + [] == NonEmpty(Split(most, '.'));
    assert Replace(key, '.', '/')[0] == '/' <==> key[0] == '.';
  }

  lemma BaseAtDot(most: string)
    ensures Base(most + ".") == NodeAtDot(most)
  {
    SplitAtEnd(most);
    var parts := Split(most, '.');
    assert (parts + [""])[..|parts|] == parts;
  }

  /** A component is the base of its topic extended by the label before the dot, if there is one. */
  lemma ComponentNode(most: string)
    requires '/' !in most
    ensures var n := Resolve(Replace(most + ".", '.', '/'));
      var b := if most == "" then Node(true, []) else Base(most);
      (n == b || Parent(n) == b) && Base(most + ".") == n
  {
    ResolveAtDot(most);
    BaseAtDot(most);
    if most == "" {
      NonEmptyMore([], "");
      assert [] + [""] == [""];
    }
  }

  lemma BaseKept(most: string, x: char)
    requires x != '.' && '/' !in most && x != '/'
    ensures Base(most + [x]) == if most == "" then Node(false, []) else Base(most)
  {
    SplitSnoc(most, x, '.');
    var parts := Split(most, '.');
    assert (parts[..|parts| - 1] + [parts[|parts| - 1] + [x]])[..|parts| - 1] == parts[..|parts| - 1];
  }

  lemma MakeDirsOneMore(dirs: set<Node>, files: set<Node>, most: string)
    ensures var key := most + ".";
      var (d, ok) := MakeDirs(dirs, files, Components(most));
      && MakeDirs(dirs, files, Components(key))
        == (if ok then MakeDir(d, files, Replace(key, '.', '/')) else (d, false))
      && Ancestors(key) == Ancestors(most) + {Resolve(Replace(key, '.', '/'))}
  {
    var key, c := most + ".", Components(most);
    assert key[..|key| - 1] == most;
    assert (c + [Replace(key, '.', '/')])[..|c|] == c;
  }

  ghost predicate Created(dirs: set<Node>, files: set<Node>, key: string) {
    var (d, ok) := MakeDirs(dirs, files, Components(key));
    && ParentClosed(d) && d !! files
    && (ok <==> Ancestors(key) !! files)
    && (ok ==> d == dirs + Ancestors(key) && (key != "" ==> Base(key) in d))
  }

  lemma MakeDirKeeps(dirs: set<Node>, files: set<Node>, path: string)
    requires ParentClosed(dirs) && dirs !! files
    requires Resolve(path) in dirs || Parent(Resolve(path)) in dirs
    ensures var (d, ok) := MakeDir(dirs, files, path);
      && ParentClosed(d) && d !! files && (ok <==> Resolve(path) !in files)
      && (ok ==> d == dirs + {Resolve(path)})
  {
  }

  lemma CreatedAtDot(dirs: set<Node>, files: set<Node>, most: string)
    requires ParentClosed(dirs) && '/' !in most && Created(dirs, files, most)
    ensures Created(dirs, files, most + ".")
  {
    var (d, ok) := MakeDirs(dirs, files, Components(most));
    var path := Replace(most + ".", '.', '/');
    ComponentNode(most);
    MakeDirsOneMore(dirs, files, most);
    if ok {
      MakeDirKeeps(d, files, path);
      assert dirs + (Ancestors(most) + {Resolve(path)}) == d + {Resolve(path)};
    }
  }

  /** On a file system where every directory's parent exists, a topic without slashes never meets a
      missing parent: creation fails only if a plain file is in the way, and otherwise adds exactly the
      topic's ancestors and keeps the file system closed. */
  lemma {:induction false} DirectoriesCreated(dirs: set<Node>, files: set<Node>, key: string)
    requires ParentClosed(dirs) && dirs !! files && '/' !in key
    ensures Created(dirs, files, key)
    decreases |key|
  {
    if key != "" {
      var most, x := key[..|key| - 1], key[|key| - 1];
      assert key == most + [x];
      DirectoriesCreated(dirs, files, most);
      if x == '.' {
        CreatedAtDot(dirs, files, most);
      } else {
        BaseKept(most, x);
        assert Components(key) == Components(most) && Ancestors(key) == Ancestors(most);
      }
    }
  }

  /** Creating the same directories again succeeds and changes nothing. */
  lemma CreationIdempotent(dirs: set<Node>, files: set<Node>, key: string)
    requires ParentClosed(dirs) && dirs !! files && '/' !in key
    ensures var (d, ok) := MakeDirs(dirs, files, Components(key));
      ok ==> MakeDirs(d, files, Components(key)) == (d, true)
  {
    DirectoriesCreated(dirs, files, key);
    var (d, ok) := MakeDirs(dirs, files, Components(key));
    if ok {
      DirectoriesCreated(d, files, key);
    }
  }
}
