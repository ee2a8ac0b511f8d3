/** Walking one message's lineage back through the index of a trace. */
module LineagePath {
  import opened Base
  import opened Events
  import opened VerifySpec
  import opened LineageSpec
  import opened ClusterSpec
  import opened ClusterMeaning
  import opened ClusterReports
  import opened Verifying

  const DEPTH_LIMIT: nat := 256

  datatype WalkEnd =
    | StartMissing
    | ParentMissing(depth: nat)
    | RootReached(depth: nat)
    | InvalidReference(depth: nat)
    | ParentIsItself(depth: nat)
    | CycleFound(depth: nat)
    | LimitReached

  /** Where the walk from `current` ends, `depth` links after the start. */
  function Walk(index: LineageIndex, current: LineageKey, visited: set<LineageKey>, depth: nat): WalkEnd
    decreases DEPTH_LIMIT - depth
  {
    if depth >= DEPTH_LIMIT then LimitReached
    else if current !in index then (if depth == 0 then StartMissing else ParentMissing(depth))
    else if index[current].provenance.hops == 0 then RootReached(depth)
    else
      match ParentKey(index[current])
      case None => InvalidReference(depth)
      case Some(parent) =>
        if parent == current then ParentIsItself(depth)
        else if current in visited then CycleFound(depth)
        else Walk(index, parent, visited + {current}, depth + 1)
  }

  /** `print_lineage_path`: follows parent links from a message of a trace. */
  method WalkLineagePath(events: seq<TraceEvent>, start: LineageKey) returns (end: WalkEnd)
    ensures end == Walk(IndexOf(events), start, {}, 0)
  {
    var index := BuildLineageIndex(events);
    var current, visited := start, {};
    for depth := 0 to DEPTH_LIMIT
      invariant Walk(index, start, {}, 0) == Walk(index, current, visited, depth)
    {
      if current !in index {
        return if depth == 0 then StartMissing else ParentMissing(depth);
      }
      if index[current].provenance.hops == 0 {
        return RootReached(depth);
      }
      var parent := ParentKey(index[current]);
      if parent == None {
        return InvalidReference(depth);
      }
      if parent.value == current {
        return ParentIsItself(depth);
      }
      if current in visited {
        return CycleFound(depth);
      }
      visited := visited + {current};
      current := parent.value;
    }
    end := LimitReached;
  }

  /** Each link leads from a message that is no root to the other message it names as its parent, and no
      message but the last is met twice. */
  ghost predicate Links(index: LineageIndex, path: seq<LineageKey>) {
    && path != []
    && (forall i :: 0 <= i < |path| - 1 ==>
          && path[i] in index && index[path[i]].provenance.hops != 0
          && NamesParent(index[path[i]], path[i + 1]) && path[i + 1] != path[i])
    && Distinct(path[..|path| - 1])
  }

  /** Why a walk stops at the end of a path. */
  ghost predicate StopsAt(index: LineageIndex, path: seq<LineageKey>, end: WalkEnd)
    requires path != []
  {
    var links, last := |path| - 1, path[|path| - 1];
    match end
    case StartMissing => links == 0 && last !in index
    case ParentMissing(depth) => depth == links && 0 < links < 256 && last !in index
    case RootReached(depth) => depth == links < 256 && last in index && index[last].provenance.hops == 0
    case InvalidReference(depth) =>
      && depth == links < 256 && last in index && index[last].provenance.hops != 0
      && !exists parent :: NamesParent(index[last], parent)
    case ParentIsItself(depth) =>
      depth == links < 256 && last in index && index[last].provenance.hops != 0 && NamesParent(index[last], last)
    case CycleFound(depth) => depth == links < 256 && last in path[..links]
    case LimitReached => links == 256
  }

  lemma {:induction false} WalkOn(index: LineageIndex, path: seq<LineageKey>, visited: set<LineageKey>) returns (full: seq<LineageKey>)
    requires Links(index, path) && |path| - 1 <= DEPTH_LIMIT
    requires forall k :: k in visited <==> k in path[..|path| - 1]
    ensures Links(index, full) && path <= full
    ensures StopsAt(index, full, Walk(index, path[|path| - 1], visited, |path| - 1))
    decreases DEPTH_LIMIT - |path|
  {
    hide NamesParent;
    hide ParentKey;
    var depth, last := |path| - 1, path[|path| - 1];
    full := path;
    if depth < DEPTH_LIMIT && last in index && index[last].provenance.hops != 0 {
      forall parent ensures ParentKey(index[last]) == Some(parent) <==> NamesParent(index[last], parent) {
        ParentKeyMeans(index[last], parent);
      }
      var p := ParentKey(index[last]);
      if p.Some? && p.value != last && last !in visited {
        var longer := path + [p.value];
        assert longer[..|longer| - 1] == path;
        assert path == path[..depth] + [last];
        full := WalkOn(index, longer, visited + {last});
      }
    }
  }

  /** A walk follows parent links from its start, and ends where its last link leads, for the reason found
      there. */
  lemma WalkMeans(index: LineageIndex, start: LineageKey) returns (path: seq<LineageKey>)
    ensures Links(index, path) && path[0] == start && StopsAt(index, path, Walk(index, start, {}, 0))
  {
    hide Walk;
    path := WalkOn(index, [start], {});
  }

  /** A trace's record of a message is the cluster's record of it. */
  lemma OwnRecord(traces: seq<Trace>, i: nat, key: LineageKey)
    requires Verified(traces) && i < |traces| && key in IndexOf(traces[i])
    ensures key in GlobalIndex(traces) && GlobalIndex(traces)[key] == IndexOf(traces[i])[key]
  {
    hide IndexOf;
    hide EvidenceOnce;
    hide NetworkOk;
    hide ParentsOk;
    hide OneNodeEach;
    HasRecord(traces, i, key);
    GlobalRecords(traces, key);
    assert forall p, q :: 0 <= p < q < |traces| && key in IndexOf(traces[p]) ==> key !in IndexOf(traces[q]);
    var j :| 0 <= j < |traces| && key in IndexOf(traces[j]) && GlobalIndex(traces)[key] == IndexOf(traces[j])[key];
    assert i == j;
  }

  lemma {:induction false} HasRecord(traces: seq<Trace>, i: nat, key: LineageKey)
    requires i < |traces| && key in IndexOf(traces[i])
    ensures key in GlobalIndex(traces)
  {
    hide IndexOf;
    var n := |traces| - 1;
    if i < n {
      assert traces[..n][i] == traces[i];
      HasRecord(traces[..n], i, key);
    }
  }

  /** All visited records have more hops than the current one. */
  ghost predicate Above(index: LineageIndex, visited: set<LineageKey>, hops: nat) {
    forall k :: k in visited ==> k in index && index[k].provenance.hops > hops
  }

  ghost predicate EndsWell(end: WalkEnd, depth: nat, hops: nat) {
    || (end == RootReached(depth + hops) && depth + hops < DEPTH_LIMIT)
    || (end.ParentMissing? && depth < end.depth <= depth + hops && end.depth < DEPTH_LIMIT)
    || (end == LimitReached && depth + hops >= DEPTH_LIMIT)
  }

  lemma {:induction false} WalkGoesDown(traces: seq<Trace>, i: nat, current: LineageKey, visited: set<LineageKey>, depth: nat)
    requires Verified(traces) && i < |traces| && current in IndexOf(traces[i]) && depth <= DEPTH_LIMIT
    requires current in GlobalIndex(traces) ==> Above(GlobalIndex(traces), visited, GlobalIndex(traces)[current].provenance.hops)
    ensures current in GlobalIndex(traces)
    ensures EndsWell(Walk(IndexOf(traces[i]), current, visited, depth), depth, GlobalIndex(traces)[current].provenance.hops)
    decreases DEPTH_LIMIT - depth
  {
    hide Verified;
    hide GlobalIndex;
    hide IndexOf;
    hide ParentKey;
    var index := GlobalIndex(traces);
    OwnRecord(traces, i, current);
    var hops := index[current].provenance.hops;
    if depth < DEPTH_LIMIT && hops > 0 {
      ParentStep(traces, current);
      var parent := ParentKey(index[current]).value;
      if parent in IndexOf(traces[i]) {
        WalkGoesDown(traces, i, parent, visited + {current}, depth + 1);
      }
    }
  }

  /** In a verified cluster the walk from a message with h hops reaches the root after h links, unless it
      leaves the trace or reaches the depth limit first; it never finds a cycle, a record that is its
      own parent, or an unreadable parent reference. */
  lemma WalkEndsWell(traces: seq<Trace>, i: nat, start: LineageKey)
    requires Verified(traces) && i < |traces| && start in IndexOf(traces[i])
    ensures EndsWell(Walk(IndexOf(traces[i]), start, {}, 0), 0, IndexOf(traces[i])[start].provenance.hops)
  {
    hide Verified;
    OwnRecord(traces, i, start);
    WalkGoesDown(traces, i, start, {}, 0);
  }
}
