/** The dashboard's file queries, src/horizon_monitor/.../nova/monitor/utils.py: they pick stored metric
    files by looking for text in the last components of their paths. */
module DashboardQueries {
  import opened Sequences
  import opened Text
  import opened WhisperLines
  import opened WhisperUpdater

  /** path.split('/')[-k] */
  function Component(path: string, k: nat): string
    requires 1 <= k <= |Split(path, '/')|
  {
    Split(path, '/')[|Split(path, '/')| - k]
  }

  predicate Deep(path: string, k: nat) { k <= |Split(path, '/')| }

  predicate AllDeep(files: seq<string>, k: nat) {
    forall i :: 0 <= i < |files| ==> Deep(files[i], k)
  }

  predicate Has(path: string, k: nat, sub: string)
    requires 1 <= k
  {
    Deep(path, k) && Contains(sub, Component(path, k))
  }

  /** The files whose k-th component from the end contains sub, in order. */
  function Select(files: seq<string>, k: nat, sub: string): seq<string>
    requires 1 <= k
  {
    if files == [] then []
    else
      var n := |files| - 1;
      Select(files[..n], k, sub) + if Has(files[n], k, sub) then [files[n]] else []
  }

  /** get_whisper_files_by_node, _by_instance_id and _by_metric, for k = 3, 2 and 1; None is the
      IndexError raised on a path with too few components. */
  method GetWhisperFilesBy(k: nat, sub: string, files: seq<string>) returns (out: Option<seq<string>>)
    requires 1 <= k
    ensures out == if AllDeep(files, k) then Some(Select(files, k, sub)) else None
  {
    var found := [];
    for i := 0 to |files|
      invariant AllDeep(files[..i], k) && found == Select(files[..i], k, sub)
    {
      if |Split(files[i], '/')| < k {
        assert !Deep(files[i], k);
        return None;
      }
      assert files[..i + 1][..i] == files[..i];
      if Contains(sub, Component(files[i], k)) {
        found := found + [files[i]];
      }
    }
    assert files[..|files|] == files;
    out := Some(found);
  }

  // ---------- get_whisper_files_list ----------

  /** match_filter, flag by flag as written; None is the ValueError of unpacking too few components. */
  function MatchFilter(path: string, nfilt: Option<string>, ifilt: Option<string>,
      mfilt: Option<string>): Option<bool> {
    if nfilt.None? && ifilt.None? && mfilt.None? then Some(true)
    else if !Deep(path, 3) then None
    else
      // The source sets match_mfilt, not match_nfilt, when nfilt is None.
      var m0 := nfilt.None?;
      var i0 := ifilt.None?;
      var m1 := m0 || mfilt.None?;
      var n2 := nfilt.Some? && Contains(nfilt.value, Component(path, 3));
      var i2 := i0 || (ifilt.Some? && Contains(ifilt.value, Component(path, 2)));
      var m2 := m1 || (mfilt.Some? && Contains(mfilt.value, Component(path, 1)));
      Some(n2 && i2 && m2)
  }

  function Matching(files: seq<string>, nfilt: Option<string>, ifilt: Option<string>,
      mfilt: Option<string>): seq<string> {
    if files == [] then []
    else
      var n := |files| - 1;
      Matching(files[..n], nfilt, ifilt, mfilt)
      + if MatchFilter(files[n], nfilt, ifilt, mfilt) == Some(true) then [files[n]] else []
  }

  method GetWhisperFilesList(files: seq<string>, nfilt: Option<string>, ifilt: Option<string>, mfilt: Option<string>)
    returns (out: Option<seq<string>>)
    ensures out == if AllDeep(files, 3) || (nfilt.None? && ifilt.None? && mfilt.None?)
      then Some(Matching(files, nfilt, ifilt, mfilt)) else None
  {
    var found := [];
    for i := 0 to |files|
      invariant AllDeep(files[..i], 3) || (nfilt.None? && ifilt.None? && mfilt.None?)
      invariant found == Matching(files[..i], nfilt, ifilt, mfilt)
    {
      var matched := MatchFilter(files[i], nfilt, ifilt, mfilt);
      if matched.None? {
        assert !Deep(files[i], 3);
        return None;
      }
      assert files[..i + 1][..i] == files[..i];
      if matched.value {
        found := found + [files[i]];
      }
    }
    assert files[..|files|] == files;
    out := Some(found);
  }

  /** A filter pass; an absent filter is skipped. */
  function Pass(files: seq<string>, k: nat, filter: Option<string>): seq<string>
    requires 1 <= k
  {
    if filter.None? then files else Select(files, k, filter.value)
  }

  function Passes(files: seq<string>, nfilt: Option<string>, ifilt: Option<string>,
      mfilt: Option<string>): seq<string> {
    Pass(Pass(Pass(files, 3, nfilt), 2, ifilt), 1, mfilt)
  }

  lemma SelectAppend(files: seq<string>, f: string, k: nat, sub: string)
    requires 1 <= k
    ensures Select(files + [f], k, sub) == Select(files, k, sub) + if Has(f, k, sub) then [f] else []
  {
    assert (files + [f])[..|files|] == files;
  }

  function Kept(f: string, k: nat, filter: Option<string>): bool
    requires 1 <= k
  {
    filter.None? || Has(f, k, filter.value)
  }

  lemma PassAppend(files: seq<string>, f: string, k: nat, filter: Option<string>)
    requires 1 <= k
    ensures Pass(files + [f], k, filter) == Pass(files, k, filter) + if Kept(f, k, filter) then [f] else []
  {
    if filter.Some? {
      SelectAppend(files, f, k, filter.value);
    }
  }

  lemma {:induction false} PassSplit(files: seq<string>, more: seq<string>, k: nat, filter: Option<string>)
    requires 1 <= k && |more| <= 1
    ensures Pass(files + more, k, filter)
         == Pass(files, k, filter) + if more != [] && Kept(more[0], k, filter) then more else []
  {
    if more == [] {
      assert files + more == files;
    } else {
      PassAppend(files, more[0], k, filter);
      assert more == [more[0]];
    }
  }

  lemma PassesAppend(files: seq<string>, f: string, nfilt: Option<string>, ifilt: Option<string>, mfilt: Option<string>)
    ensures Passes(files + [f], nfilt, ifilt, mfilt) == Passes(files, nfilt, ifilt, mfilt)
      + if Kept(f, 3, nfilt) && Kept(f, 2, ifilt) && Kept(f, 1, mfilt) then [f] else []
  {
    var a := if Kept(f, 3, nfilt) then [f] else [];
    PassAppend(files, f, 3, nfilt);
    PassSplit(Pass(files, 3, nfilt), a, 2, ifilt);
    var b := if a != [] && Kept(f, 2, ifilt) then a else [];
    PassSplit(Pass(Pass(files, 3, nfilt), 2, ifilt), b, 1, mfilt);
  }

  /** Whether the filters given are honoured: not when some are but the node filter is missing. */
  predicate Honoured(nfilt: Option<string>, ifilt: Option<string>, mfilt: Option<string>) {
    nfilt.Some? || (ifilt.None? && mfilt.None?)
  }

  lemma MatchMeaning(f: string, nfilt: Option<string>, ifilt: Option<string>, mfilt: Option<string>)
    requires Deep(f, 3)
    ensures MatchFilter(f, nfilt, ifilt, mfilt)
         == Some(Honoured(nfilt, ifilt, mfilt) && Kept(f, 3, nfilt) && Kept(f, 2, ifilt) && Kept(f, 1, mfilt))
  {
  }

  lemma MatchingAppend(files: seq<string>, f: string, nfilt: Option<string>, ifilt: Option<string>,
      mfilt: Option<string>)
    ensures Matching(files + [f], nfilt, ifilt, mfilt) == Matching(files, nfilt, ifilt, mfilt)
      + if MatchFilter(f, nfilt, ifilt, mfilt) == Some(true) then [f] else []
  {
    assert (files + [f])[..|files|] == files;
  }

  /** With a node filter the list is exactly the three passes composed, order included; without one it is
      everything when there is no other filter either, and otherwise, by the wrong flag, nothing. */
  lemma {:induction false} FilterFusion(files: seq<string>, nfilt: Option<string>, ifilt: Option<string>,
      mfilt: Option<string>)
    requires AllDeep(files, 3)
    ensures Matching(files, nfilt, ifilt, mfilt)
      == if Honoured(nfilt, ifilt, mfilt) then Passes(files, nfilt, ifilt, mfilt) else []
    decreases |files|
  {
    if files != [] {
      var most, f := files[..|files| - 1], files[|files| - 1];
      assert most + [f] == files;
      FilterFusion(most, nfilt, ifilt, mfilt);
      MatchMeaning(f, nfilt, ifilt, mfilt);
      MatchingAppend(most, f, nfilt, ifilt, mfilt);
      PassesAppend(most, f, nfilt, ifilt, mfilt);
    }
  }

  /** So the list is what its filters ask for exactly when a node filter is given, or no filter at all,
      or nothing matches anyway. */
  lemma FusionExactly(files: seq<string>, nfilt: Option<string>, ifilt: Option<string>, mfilt: Option<string>)
    requires AllDeep(files, 3)
    ensures Matching(files, nfilt, ifilt, mfilt) == Passes(files, nfilt, ifilt, mfilt) <==>
      Honoured(nfilt, ifilt, mfilt) || Passes(files, nfilt, ifilt, mfilt) == []
  {
    FilterFusion(files, nfilt, ifilt, mfilt);
  }

  /** The passes may be made in any order. */
  lemma {:induction false} PassesCommute(files: seq<string>, j: nat, a: Option<string>, k: nat, b: Option<string>)
    requires 1 <= j && 1 <= k
    ensures Pass(Pass(files, j, a), k, b) == Pass(Pass(files, k, b), j, a)
    decreases |files|
  {
    if files != [] {
      var n := |files| - 1;
      var f := files[n];
      PassesCommute(files[..n], j, a, k, b);
      assert files == files[..n] + [f];
      PassAppend(files[..n], f, j, a);
      PassAppend(files[..n], f, k, b);
      PassSplit(Pass(files[..n], j, a), if Kept(f, j, a) then [f] else [], k, b);
      PassSplit(Pass(files[..n], k, b), if Kept(f, k, b) then [f] else [], j, a);
    }
  }

  /** An instance filter without a node filter loses every file, though one matches. */
  lemma MissingNodeFilter()
    ensures var files := [FilePath("/data", "h", "u", CPU)];
      AllDeep(files, 3) && Passes(files, None, Some("u"), None) == files && Matching(files, None, Some("u"), None) == []
  {
    var f := FilePath("/data", "h", "u", CPU);
    PathComponents("/data", "h", "u", CPU);
    ContainsSameLength("u", "u");
    PassAppend([], f, 2, Some("u"));
    assert [] + [f] == [f];
    FilterFusion([f], None, Some("u"), None);
  }

  // ---------- queries against what was stored ----------

  lemma {:induction false} SelectMembers(files: seq<string>, k: nat, sub: string, f: string)
    requires 1 <= k
    ensures f in Select(files, k, sub) <==> f in files && Has(f, k, sub)
    decreases |files|
  {
    if files != [] {
      var n := |files| - 1;
      SelectMembers(files[..n], k, sub, f);
      assert files == files[..n] + [files[n]];
    }
  }

  /** Appending a component to a path puts it last and moves the others one further from the end. */
  lemma AppendComponent(a: string, x: string, k: nat)
    requires '/' !in x && 1 <= k && Deep(a, k)
    ensures Deep(a + ['/'] + x, k + 1)
    ensures Component(a + ['/'] + x, 1) == x && Component(a + ['/'] + x, k + 1) == Component(a, k)
  {
    SplitAppend(a, x, '/');
    SplitFree(x, '/');
  }

  function Prefix(root: string): string { RootPrefix(root) + "servers" }

  lemma FilePathParts(root: string, host: string, uuid: string, metric: string)
    ensures FilePath(root, host, uuid, metric)
         == Prefix(root) + ['/'] + Replace(host, '.', '/') + ['/'] + uuid + ['/'] + (metric + ".wsp")
  {
    var h := Replace(host, '.', '/');
    PathJoinIs(root, "servers/" + h + "/" + uuid + "/" + metric);
    assert "servers/" + h == "servers" + ['/'] + h;
    var r, s := RootPrefix(root), "servers" + ['/'] + h;
    Assoc(r, "servers" + ['/'], h);
    Assoc(r, "servers", ['/']);
    Assoc(r, s + ['/'], uuid);
    Assoc(r, s, ['/']);
    Assoc(r, s + ['/'] + uuid + ['/'], metric);
    Assoc(r, s + ['/'] + uuid, ['/']);
    var b := Prefix(root) + ['/'] + h + ['/'] + uuid;
    Assoc(b + ['/'], metric, ".wsp");
  }

  /** The last three components of a stored path: the host's last label, the UUID and the metric's file
      name; for a host without dots its last label is the host. */
  lemma PathComponents(root: string, host: string, uuid: string, metric: string)
    requires '/' !in host && '/' !in uuid && '/' !in metric
    ensures var p := FilePath(root, host, uuid, metric);
      && Deep(p, 3) && Component(p, 1) == metric + ".wsp" && Component(p, 2) == uuid
      && Component(p, 3) == Split(host, '.')[|Split(host, '.')| - 1]
      && ('.' !in host ==> Component(p, 3) == host)
  {
    var hostPath := Replace(host, '.', '/');
    var a := Prefix(root) + ['/'] + hostPath;
    var b := a + ['/'] + uuid;
    FilePathParts(root, host, uuid, metric);
    LastLabel(Prefix(root), host);
    AppendComponent(a, uuid, 1);
    AppendComponent(b, metric + ".wsp", 1);
    AppendComponent(b, metric + ".wsp", 2);
    if '.' !in host {
      SplitFree(host, '.');
    }
  }

  lemma LastLabel(prefix: string, host: string)
    requires '/' !in host
    ensures Component(prefix + ['/'] + Replace(host, '.', '/'), 1) == Split(host, '.')[|Split(host, '.')| - 1]
  {
    SplitAppend(prefix, Replace(host, '.', '/'), '/');
    SplitReplaced(host);
  }

  /** A letter that occurs in one metric's file name only. */
  function Marker(metric: string): char {
    if metric == CPU then 'c' else if metric == MEM then 'm' else if metric == DISK_READ then 'a' else 't'
  }

  /** A metric's name occurs in a metric's file name only if they are the same metric. */
  lemma MetricNames(m: string, m': string)
    requires IsMetric(m) && IsMetric(m')
    ensures Contains(m, m' + ".wsp") <==> m == m'
  {
    if m == m' {
      ContainsPrefix(m, ".wsp");
    } else {
      MarkerIn(m);
      MarkerNotIn(m, m');
      LacksLetter(m, m' + ".wsp", Marker(m));
    }
  }

  lemma MarkerIn(m: string)
    requires IsMetric(m)
    ensures Marker(m) in m
  {
    assert CPU[0] == 'c' && MEM[0] == 'm' && DISK_READ[7] == 'a' && DISK_WRITE[8] == 't';
  }

  lemma MarkerNotIn(m: string, m': string)
    requires IsMetric(m) && IsMetric(m') && m != m'
    ensures Marker(m) !in m' + ".wsp"
  {
  }

  /** A query by node looks for its text anywhere in the last label of the host. */
  lemma NodeQuery(root: string, host: string, uuid: string, metric: string, node: string)
    requires '/' !in host && '/' !in uuid && '/' !in metric
    ensures var name := Split(host, '.')[|Split(host, '.')| - 1];
      Has(FilePath(root, host, uuid, metric), 3, node) <==> exists a: string, b: string :: name == a + node + b
  {
    PathComponents(root, host, uuid, metric);
    ContainsMeans(node, Split(host, '.')[|Split(host, '.')| - 1]);
  }

  predicate StoredPath(root: string, reports: seq<Report>, f: string) {
    exists i :: 0 <= i < |reports| && f == FilePath(root, reports[i].host, reports[i].uuid, reports[i].metric)
  }

  lemma QueryOne(root: string, r: Report, uuid: string, metric: string)
    requires GoodReport(r) && GoodUuid(uuid) && IsMetric(metric)
    ensures var f := FilePath(root, r.host, r.uuid, r.metric);
      Deep(f, 3) && (Has(f, 2, uuid) && Has(f, 1, metric) <==> r.uuid == uuid && r.metric == metric)
  {
    MetricText(r.metric);
    PathComponents(root, r.host, r.uuid, r.metric);
    ContainsSameLength(uuid, r.uuid);
    MetricNames(metric, r.metric);
  }

  /** Over any listing of what was stored, querying by instance and then by metric returns exactly the
      files of that instance and metric, whatever the hosts: matching substrings is as good as matching
      whole names. */
  lemma QueriesAgree(root: string, reports: seq<Report>, listing: seq<string>, uuid: string, metric: string, f: string)
    requires forall i :: 0 <= i < |reports| ==> GoodReport(reports[i])
    requires forall g :: g in listing <==> StoredPath(root, reports, g)
    requires GoodUuid(uuid) && IsMetric(metric)
    ensures f in Select(Select(listing, 2, uuid), 1, metric) <==>
      exists i :: 0 <= i < |reports| && reports[i].uuid == uuid && reports[i].metric == metric
        && f == FilePath(root, reports[i].host, uuid, metric)
    ensures AllDeep(listing, 3)
  {
    SelectMembers(listing, 2, uuid, f);
    SelectMembers(Select(listing, 2, uuid), 1, metric, f);
    forall i | 0 <= i < |reports|
      ensures var p := FilePath(root, reports[i].host, reports[i].uuid, reports[i].metric);
        Deep(p, 3) && (Has(p, 2, uuid) && Has(p, 1, metric) <==> reports[i].uuid == uuid && reports[i].metric == metric)
    {
      QueryOne(root, reports[i], uuid, metric);
    }
    forall k | 0 <= k < |listing| ensures Deep(listing[k], 3) {
      assert StoredPath(root, reports, listing[k]);
    }
  }
}
