/** The cluster verifier as loops over traces and tables, and the walk along one lineage. */
module ClusterVerifying {
  import opened Base
  import opened Events
  import opened VerifySpec
  import opened LineageSpec
  import opened ClusterSpec
  import opened ClusterMeaning
  import opened ClusterReports
  import opened Verifying

  /** The local node ids of one trace. */
  method CollectNodes(trace: Trace) returns (nodes: set<Uuid>)
    ensures nodes == LocalNodes(trace)
  {
    nodes := {};
    for i := 0 to |trace|
      invariant nodes == LocalNodes(trace[..i])
    {
      assert trace[..i + 1] == trace[..i] + [trace[i]];
      match LocalNode(trace[i].kind) {
        case None =>
        case Some(n) => nodes := nodes + {n};
      }
    }
    assert trace[..|trace|] == trace;
  }

  lemma OneMoreNote(notes: seq<Note>, n: Note)
    ensures Table(notes + [n]) == Table(notes)[n.key := n.payload]
    ensures KeysOnce(notes + [n]) <==> KeysOnce(notes) && n.key !in Table(notes)
  {
    TableSnoc(notes, n);
    TableKeys(notes);
    if KeysOnce(notes + [n]) {
      LastIsNew(notes, n);
    }
    if KeysOnce(notes) && n.key !in Table(notes) {
      forall i, j | 0 <= i < j < |notes + [n]| ensures (notes + [n])[i].key != (notes + [n])[j].key {
        if j == |notes| { assert notes[i] in notes; }
      }
    }
  }

  /** The report, filled in place. */
  class ClusterReport {
    var problems: seq<ClusterProblem>
    var matchedRecv: nat
    var matchedDrop: nat
    var externalInbound: nat
    var externalOutbound: nat
    var resolvedLineageParents: nat
    var externalLineageParents: nat

    constructor ()
      ensures problems == [] && matchedRecv == 0 && matchedDrop == 0
      ensures externalInbound == 0 && externalOutbound == 0 && resolvedLineageParents == 0 && externalLineageParents == 0
    {
      problems := [];
      matchedRecv, matchedDrop, externalInbound, externalOutbound := 0, 0, 0, 0;
      resolvedLineageParents, externalLineageParents := 0, 0;
    }

    method Complain(p: ClusterProblem)
      modifies this`problems
      ensures problems == old(problems) + [p]
    {
      problems := problems + [p];
    }

    method IncludeNodes(traces: seq<Trace>) returns (included: set<Uuid>)
      modifies this`problems
      ensures included == Included(traces)
      ensures problems == [] <==> old(problems) == [] && OneNodeEach(traces)
      ensures Added(old(problems), problems, NodeTimes(traces, |traces|))
    {
      hide LocalNodes;
      included := {};
      NoNodesYet(old(problems), traces);
      for i := 0 to |traces|
        invariant included == Included(traces[..i])
        invariant problems == [] <==> old(problems) == [] && OneNodeEach(traces[..i])
        invariant Added(old(problems), problems, NodeTimes(traces, i))
      {
        assert traces[..i + 1] == traces[..i] + [traces[i]];
        assert traces[..i + 1][..i] == traces[..i];
        var nodes := CollectNodes(traces[i]);
        OneNodeMore(traces[..i], traces[i]);
        ghost var before := problems;
        if nodes == {} {
          Complain(NoNodeEvents(i));
          NodesOfOne(old(problems), before, problems, traces, i);
          continue;
        }
        if |nodes| > 1 {
          Complain(MixedNodes(i));
        }
        NodesOfOne(old(problems), before, problems, traces, i);
        included := included + nodes;
      }
      assert traces[..|traces|] == traces;
    }

    /** Enters a note in its table. */
    method Enter(table: map<ClusterKey, Option<Payload>>, n: Note, ghost notes: seq<Note>)
      returns (after: map<ClusterKey, Option<Payload>>)
      requires table == Table(notes)
      modifies this`problems
      ensures after == Table(notes + [n])
      ensures problems == [] <==> old(problems) == [] && n.key !in table
      ensures problems == old(problems) + (if n.key in table then [DuplicateNote(n.what, n.key)] else [])
    {
      OneMoreNote(notes, n);
      if n.key in table { Complain(DuplicateNote(n.what, n.key)); }
      after := table[n.key := n.payload];
    }

    method CollectNotes(traces: seq<Trace>)
      returns (sends: map<ClusterKey, Option<Payload>>, recvs: map<ClusterKey, Option<Payload>>, drops: map<ClusterKey, Option<Payload>>)
      modifies this`problems
      ensures sends == SendTable(traces) && recvs == RecvTable(traces) && drops == DropTable(traces)
      ensures problems == [] <==> old(problems) == [] && EvidenceOnce(traces)
      ensures Added(old(problems), problems, NoteTimes(AllEvents(traces)))
    {
      hide Added;
      hide NoteTimes;
      hide Notes;
      hide Table;
      hide KeysOnce;
      hide NoteOf;
      sends, recvs, drops := map[], map[], map[];
      ghost var seen: seq<EventKind> := [];
      NothingNoted();
      NoNotesYet(old(problems));
      for i := 0 to |traces|
        invariant seen == AllEvents(traces[..i])
        invariant Tabled(seen, sends, recvs, drops)
        invariant problems == [] <==> old(problems) == [] && NotedOnce(seen)
        invariant Added(old(problems), problems, NoteTimes(seen))
      {
        assert traces[..i + 1] == traces[..i] + [traces[i]];
        AllSnoc(traces[..i], traces[i]);
        assert Kinds(traces[i][..0]) == [] && seen + [] == seen;
        for j := 0 to |traces[i]|
          invariant seen == AllEvents(traces[..i]) + Kinds(traces[i][..j])
          invariant Tabled(seen, sends, recvs, drops)
          invariant problems == [] <==> old(problems) == [] && NotedOnce(seen)
          invariant Added(old(problems), problems, NoteTimes(seen))
        {
          KindsSnoc(traces[i], j);
          ghost var before := problems;
          sends, recvs, drops := EnterEvent(traces[i][j].kind, sends, recvs, drops, seen);
          NotesOfOne(old(problems), before, problems, seen, traces[i][j].kind);
          seen := seen + [traces[i][j].kind];
        }
        assert traces[i][..|traces[i]|] == traces[i];
      }
      assert traces[..|traces|] == traces;
    }

    method EnterEvent(k: EventKind, sends: map<ClusterKey, Option<Payload>>, recvs: map<ClusterKey, Option<Payload>>,
                      drops: map<ClusterKey, Option<Payload>>, ghost seen: seq<EventKind>)
      returns (sends1: map<ClusterKey, Option<Payload>>, recvs1: map<ClusterKey, Option<Payload>>, drops1: map<ClusterKey, Option<Payload>>)
      requires Tabled(seen, sends, recvs, drops)
      modifies this`problems
      ensures Tabled(seen + [k], sends1, recvs1, drops1)
      ensures problems == [] && NotedOnce(seen) <==> old(problems) == [] && NotedOnce(seen + [k])
      ensures (problems == [] ==> old(problems) == []) && (NotedOnce(seen + [k]) ==> NotedOnce(seen))
      ensures problems == old(problems) + Repeated(seen, k)
    {
      hide Notes;
      hide Table;
      hide KeysOnce;
      sends1, recvs1, drops1 := sends, recvs, drops;
      assert problems + [] == problems;
      NotesSnoc(seen, k, SentNote);
      NotesSnoc(seen, k, ReceivedNote);
      NotesSnoc(seen, k, DroppedNote);
      match k {
        case NetSend(node, toNode, _, msgId, payload) =>
          var n := Note(SentNote, (node, msgId, toNode), Some(payload));
          OneMoreNote(Notes(seen, SentNote), n);
          sends1 := Enter(sends, n, Notes(seen, SentNote));
        case NetRecv(node, fromNode, _, msgId, payload) =>
          var n := Note(ReceivedNote, (fromNode, msgId, node), Some(payload));
          OneMoreNote(Notes(seen, ReceivedNote), n);
          recvs1 := Enter(recvs, n, Notes(seen, ReceivedNote));
        case FaultInjected(node, fromNode, _, msgId, action) =>
          if action.Drop? {
            var n := Note(DroppedNote, (fromNode, msgId, node), None);
            OneMoreNote(Notes(seen, DroppedNote), n);
            drops1 := Enter(drops, n, Notes(seen, DroppedNote));
          }
        case _ =>
      }
    }

    method MatchRecv(included: set<Uuid>, sends: Notebook, recvs: Notebook, key: ClusterKey)
      requires key in recvs
      modifies this`problems, this`matchedRecv, this`externalInbound
      ensures problems == [] <==> old(problems) == [] && RecvFits(included, sends, recvs)(key)
      ensures matchedRecv == old(matchedRecv) + if RecvMatches(included, sends, recvs)(key) then 1 else 0
      ensures externalInbound == old(externalInbound) + if FromOutside(included)(key) then 1 else 0
      ensures Added(old(problems), problems, RecvTimes(included, sends, recvs, {key}))
    {
      if key.0 !in included {
        externalInbound := externalInbound + 1;
      } else if key !in sends {
        Complain(RecvWithoutSend(key));
      } else if sends[key] != recvs[key] {
        Complain(PayloadMismatch(key));
      } else {
        matchedRecv := matchedRecv + 1;
      }
    }

    /** Every receipt of a message from the cluster has to have its NetSend, with the same payload. */
    method MatchRecvs(included: set<Uuid>, sends: Notebook, recvs: Notebook)
      requires matchedRecv == externalInbound == 0
      modifies this`problems, this`matchedRecv, this`externalInbound
      ensures problems == [] <==> old(problems) == [] && AllOf(RecvFits(included, sends, recvs), recvs.Keys)
      ensures matchedRecv == |Those(RecvMatches(included, sends, recvs), recvs.Keys)|
      ensures externalInbound == |Those(FromOutside(included), recvs.Keys)|
      ensures Added(old(problems), problems, RecvTimes(included, sends, recvs, recvs.Keys))
    {
      hide *;
      NoRecvsYet(old(problems), included, sends, recvs);
      ghost var fits, matches, outside := RecvFits(included, sends, recvs), RecvMatches(included, sends, recvs), FromOutside(included);
      var rest := recvs.Keys;
      NothingYet(matches, fits, recvs.Keys);
      NothingYet(outside, fits, recvs.Keys);
      while rest != {}
        invariant rest <= recvs.Keys
        invariant matchedRecv == |Those(matches, recvs.Keys - rest)| && externalInbound == |Those(outside, recvs.Keys - rest)|
        invariant problems == [] <==> old(problems) == [] && AllOf(fits, recvs.Keys - rest)
        invariant Added(old(problems), problems, RecvTimes(included, sends, recvs, recvs.Keys - rest))
        decreases |rest|
      {
        var key :| key in rest;
        OneMore(matches, fits, recvs.Keys, rest, key);
        OneMore(outside, fits, recvs.Keys, rest, key);
        ghost var before := problems;
        MatchRecv(included, sends, recvs, key);
        RecvsOfOne(old(problems), before, problems, included, sends, recvs, rest, key);
        rest := rest - {key};
      }
      AllDone(recvs.Keys);
    }

    method MatchDrop(included: set<Uuid>, sends: Notebook, key: ClusterKey)
      modifies this`problems, this`matchedDrop, this`externalInbound
      ensures problems == [] <==> old(problems) == [] && DropFits(included, sends)(key)
      ensures matchedDrop == old(matchedDrop) + if DropMatches(included, sends)(key) then 1 else 0
      ensures externalInbound == old(externalInbound) + if FromOutside(included)(key) then 1 else 0
      ensures Added(old(problems), problems, DropTimes(included, sends, {key}))
    {
      if key.0 !in included {
        externalInbound := externalInbound + 1;
      } else if key in sends {
        matchedDrop := matchedDrop + 1;
      } else {
        Complain(DropWithoutSend(key));
      }
    }

    /** Every drop of a message from the cluster has to have its NetSend. */
    method MatchDrops(included: set<Uuid>, sends: Notebook, drops: Notebook)
      requires matchedDrop == 0
      modifies this`problems, this`matchedDrop, this`externalInbound
      ensures problems == [] <==> old(problems) == [] && AllOf(DropFits(included, sends), drops.Keys)
      ensures matchedDrop == |Those(DropMatches(included, sends), drops.Keys)|
      ensures externalInbound == old(externalInbound) + |Those(FromOutside(included), drops.Keys)|
      ensures Added(old(problems), problems, DropTimes(included, sends, drops.Keys))
    {
      hide *;
      NoDropsYet(old(problems), included, sends, drops.Keys);
      ghost var fits, matches, outside := DropFits(included, sends), DropMatches(included, sends), FromOutside(included);
      var rest := drops.Keys;
      NothingYet(matches, fits, drops.Keys);
      NothingYet(outside, fits, drops.Keys);
      while rest != {}
        invariant rest <= drops.Keys
        invariant matchedDrop == |Those(matches, drops.Keys - rest)|
        invariant externalInbound == old(externalInbound) + |Those(outside, drops.Keys - rest)|
        invariant problems == [] <==> old(problems) == [] && AllOf(fits, drops.Keys - rest)
        invariant Added(old(problems), problems, DropTimes(included, sends, drops.Keys - rest))
        decreases |rest|
      {
        var key :| key in rest;
        OneMore(matches, fits, drops.Keys, rest, key);
        OneMore(outside, fits, drops.Keys, rest, key);
        ghost var before := problems;
        MatchDrop(included, sends, key);
        DropsOfOne(old(problems), before, problems, included, sends, drops.Keys, rest, key);
        rest := rest - {key};
      }
      AllDone(drops.Keys);
    }

    method AccountForSend(included: set<Uuid>, recvs: Notebook, drops: Notebook, key: ClusterKey)
      modifies this`problems, this`externalOutbound
      ensures problems == [] <==> old(problems) == [] && SendFits(included, recvs, drops)(key)
      ensures externalOutbound == old(externalOutbound) + if ToOutside(included)(key) then 1 else 0
      ensures Added(old(problems), problems, SendTimes(included, recvs, drops, {key}))
    {
      if key.2 !in included {
        externalOutbound := externalOutbound + 1;
      } else if key in recvs && key in drops {
        Complain(RecvAndDrop(key));
      } else if key !in recvs && key !in drops {
        Complain(NeitherRecvNorDrop(key));
      }
    }

    /** Every message sent to the cluster has to have been either received or dropped. */
    method AccountForSends(included: set<Uuid>, sends: Notebook, recvs: Notebook, drops: Notebook)
      requires externalOutbound == 0
      modifies this`problems, this`externalOutbound
      ensures problems == [] <==> old(problems) == [] && AllOf(SendFits(included, recvs, drops), sends.Keys)
      ensures externalOutbound == |Those(ToOutside(included), sends.Keys)|
      ensures Added(old(problems), problems, SendTimes(included, recvs, drops, sends.Keys))
    {
      hide *;
      NoSendsYet(old(problems), included, recvs, drops, sends.Keys);
      ghost var fits, outside := SendFits(included, recvs, drops), ToOutside(included);
      var rest := sends.Keys;
      NothingYet(outside, fits, sends.Keys);
      while rest != {}
        invariant rest <= sends.Keys && externalOutbound == |Those(outside, sends.Keys - rest)|
        invariant problems == [] <==> old(problems) == [] && AllOf(fits, sends.Keys - rest)
        invariant Added(old(problems), problems, SendTimes(included, recvs, drops, sends.Keys - rest))
        decreases |rest|
      {
        var key :| key in rest;
        OneMore(outside, fits, sends.Keys, rest, key);
        ghost var before := problems;
        AccountForSend(included, recvs, drops, key);
        SendsOfOne(old(problems), before, problems, included, recvs, drops, sends.Keys, rest, key);
        rest := rest - {key};
      }
      AllDone(sends.Keys);
    }

    /** Joins the lineage indexes of all traces. */
    method JoinIndexes(traces: seq<Trace>) returns (index: LineageIndex)
      modifies this`problems
      ensures index == GlobalIndex(traces)
      ensures problems == [] <==> old(problems) == [] && DeliveredOnce(traces)
      ensures Added(old(problems), problems, JoinTimes(traces))
    {
      hide IndexOf;
      hide Added;
      hide JoinTimes;
      hide ClashTimes;
      index := map[];
      NothingJoined(old(problems));
      for i := 0 to |traces|
        invariant index == GlobalIndex(traces[..i])
        invariant problems == [] <==> old(problems) == [] && DeliveredOnce(traces[..i])
        invariant Added(old(problems), problems, JoinTimes(traces[..i]))
      {
        assert traces[..i + 1] == traces[..i] + [traces[i]];
        assert traces[..i + 1][..i] == traces[..i];
        DeliveredOnceMore(traces[..i], traces[i]);
        var own := BuildLineageIndex(traces[i]);
        ghost var before := problems;
        index := Insert(index, own);
        JoinedOne(old(problems), before, problems, traces[..i], traces[i]);
      }
      assert traces[..|traces|] == traces;
    }

    /** Inserts the records of one trace; a key that is there already is reported. */
    method Insert(index: LineageIndex, own: LineageIndex) returns (joined: LineageIndex)
      modifies this`problems
      ensures joined == index + own
      ensures problems == [] <==> old(problems) == [] && own.Keys !! index.Keys
      ensures Added(old(problems), problems, ClashTimes(index, own.Keys))
    {
      hide *;
      NoClashesYet(old(problems), index, own.Keys);
      joined := index;
      var rest := own.Keys;
      InsertedNone(index, own);
      while rest != {}
        invariant rest <= own.Keys && joined == index + Restricted(own, own.Keys - rest)
        invariant problems == [] <==> old(problems) == [] && (own.Keys - rest) !! index.Keys
        invariant Added(old(problems), problems, ClashTimes(index, own.Keys - rest))
        decreases |rest|
      {
        var key :| key in rest;
        InsertedMore(index, own, rest, key);
        ghost var before := problems;
        if key in joined { Complain(DuplicateLineage(key)); }
        ClashOfOne(old(problems), before, problems, index, own.Keys, rest, key);
        joined := joined[key := own[key]];
        rest := rest - {key};
      }
      InsertedAll(own);
    }

    /** What is wrong with a record whose parent is known. */
    method CompareWithParent(key: LineageKey, rec: Provenance, parent: Provenance)
      modifies this`problems
      ensures problems == old(problems) + Mismatches(key, rec, parent)
    {
      hide HopsFollow;
      assert HopsFollow(rec, parent) <==> rec.hops == SatAdd(parent.hops, 1) by { HopsFollowMeans(rec, parent); }
      if rec.hops != SatAdd(parent.hops, 1) { Complain(HopsMismatch(key)); }
      if rec.originMsgId != parent.originMsgId { Complain(OriginMsgMismatch(key)); }
      if rec.originNode != parent.originNode { Complain(OriginNodeMismatch(key)); }
      if rec.originService != parent.originService { Complain(OriginServiceMismatch(key)); }
    }

    method CheckParent(included: set<Uuid>, index: LineageIndex, key: LineageKey)
      requires key in index
      modifies this`problems, this`resolvedLineageParents, this`externalLineageParents
      ensures problems == old(problems) + ParentProblems(included, index, key)
      ensures resolvedLineageParents == old(resolvedLineageParents) + if ParentResolved(index)(key) then 1 else 0
      ensures externalLineageParents == old(externalLineageParents) + if ParentOutside(included, index)(key) then 1 else 0
    {
      hide ParentKey;
      hide Mismatches;
      var rec := index[key];
      if rec.provenance.hops == 0 {
        return;
      }
      var parent := ParentKey(rec);
      if parent == None {
        Complain(InvalidParent(key));
      } else if parent.value in index {
        resolvedLineageParents := resolvedLineageParents + 1;
        CompareWithParent(key, rec.provenance, index[parent.value].provenance);
      } else if parent.value.0 in included {
        Complain(MissingParent(key));
      } else {
        externalLineageParents := externalLineageParents + 1;
      }
    }

    /** Every record with hops has to continue a parent, which may be outside the cluster only. */
    method CheckParents(included: set<Uuid>, index: LineageIndex)
      requires resolvedLineageParents == externalLineageParents == 0
      modifies this`problems, this`resolvedLineageParents, this`externalLineageParents
      ensures problems == [] <==> old(problems) == [] && AllOf(ParentFits(included, index), index.Keys)
      ensures resolvedLineageParents == |Those(ParentResolved(index), index.Keys)|
      ensures externalLineageParents == |Those(ParentOutside(included, index), index.Keys)|
      ensures Added(old(problems), problems, ParentTimes(included, index, index.Keys))
    {
      hide *;
      NoParentsYet(old(problems), included, index);
      ghost var fits, resolved, outside := ParentFits(included, index), ParentResolved(index), ParentOutside(included, index);
      var rest := index.Keys;
      NothingYet(resolved, fits, index.Keys);
      NothingYet(outside, fits, index.Keys);
      while rest != {}
        invariant rest <= index.Keys
        invariant resolvedLineageParents == |Those(resolved, index.Keys - rest)|
        invariant externalLineageParents == |Those(outside, index.Keys - rest)|
        invariant problems == [] <==> old(problems) == [] && AllOf(fits, index.Keys - rest)
        invariant Added(old(problems), problems, ParentTimes(included, index, index.Keys - rest))
        decreases |rest|
      {
        var key :| key in rest;
        OneMore(resolved, fits, index.Keys, rest, key);
        OneMore(outside, fits, index.Keys, rest, key);
        ghost var before := problems;
        CheckParent(included, index, key);
        ParentsOfOne(old(problems), before, problems, included, index, rest, key);
        rest := rest - {key};
      }
      AllDone(index.Keys);
    }
  }

  // ---- counting problems ----

  lemma NoNodesYet(ps: seq<ClusterProblem>, traces: seq<Trace>)
    ensures Added(ps, ps, NodeTimes(traces, 0))
  {
  }

  lemma NodesOfOne(a: seq<ClusterProblem>, b: seq<ClusterProblem>, c: seq<ClusterProblem>, traces: seq<Trace>, i: nat)
    requires i < |traces| && Added(a, b, NodeTimes(traces, i))
    requires c == if LocalNodes(traces[i]) == {} then b + [NoNodeEvents(i)] else if |LocalNodes(traces[i])| > 1 then b + [MixedNodes(i)] else b
    ensures Added(a, c, NodeTimes(traces, i + 1))
  {
    hide LocalNodes;
  }

  /** The problem with one more event: a note that is there already. */
  ghost function Repeated(seen: seq<EventKind>, k: EventKind): seq<ClusterProblem> {
    match NoteOf(k)
    case None => []
    case Some(n) => if n.key in Table(Notes(seen, n.what)) then [DuplicateNote(n.what, n.key)] else []
  }

  lemma NoNotesYet(ps: seq<ClusterProblem>)
    ensures Added(ps, ps, NoteTimes([]))
  {
  }

  lemma NotesOfOne(a: seq<ClusterProblem>, b: seq<ClusterProblem>, c: seq<ClusterProblem>, seen: seq<EventKind>, k: EventKind)
    requires Added(a, b, NoteTimes(seen)) && c == b + Repeated(seen, k)
    ensures Added(a, c, NoteTimes(seen + [k]))
  {
    hide NoteOf;
    hide Notes;
    hide Table;
    hide Mentions;
    assert (seen + [k])[..|seen|] == seen;
    forall what, key ensures Repeats(CountOf(seen + [k], what, key)) ==
                             Repeats(CountOf(seen, what, key)) + multiset(Repeated(seen, k))[DuplicateNote(what, key)] {
      NoteIsMention(k, what, key);
      TablesMean(seen, what, key);
    }
    forall p ensures multiset(c)[p] == multiset(a)[p] + NoteTimes(seen + [k])(p) {
      assert multiset(c)[p] == multiset(b)[p] + multiset(Repeated(seen, k))[p];
    }
  }

  lemma NoRecvsYet(ps: seq<ClusterProblem>, included: set<Uuid>, sends: Notebook, recvs: Notebook)
    ensures Added(ps, ps, RecvTimes(included, sends, recvs, recvs.Keys - recvs.Keys))
  {
  }

  lemma RecvsOfOne(a: seq<ClusterProblem>, b: seq<ClusterProblem>, c: seq<ClusterProblem>,
                   included: set<Uuid>, sends: Notebook, recvs: Notebook, rest: set<ClusterKey>, key: ClusterKey)
    requires key in rest && rest <= recvs.Keys
    requires Added(a, b, RecvTimes(included, sends, recvs, recvs.Keys - rest)) && Added(b, c, RecvTimes(included, sends, recvs, {key}))
    ensures Added(a, c, RecvTimes(included, sends, recvs, recvs.Keys - (rest - {key})))
  {
    AddedJoin(a, b, c, RecvTimes(included, sends, recvs, recvs.Keys - rest), RecvTimes(included, sends, recvs, {key}),
              RecvTimes(included, sends, recvs, recvs.Keys - (rest - {key})));
  }

  lemma NoDropsYet(ps: seq<ClusterProblem>, included: set<Uuid>, sends: Notebook, all: set<ClusterKey>)
    ensures Added(ps, ps, DropTimes(included, sends, all - all))
  {
  }

  lemma DropsOfOne(a: seq<ClusterProblem>, b: seq<ClusterProblem>, c: seq<ClusterProblem>,
                   included: set<Uuid>, sends: Notebook, all: set<ClusterKey>, rest: set<ClusterKey>, key: ClusterKey)
    requires key in rest && rest <= all
    requires Added(a, b, DropTimes(included, sends, all - rest)) && Added(b, c, DropTimes(included, sends, {key}))
    ensures Added(a, c, DropTimes(included, sends, all - (rest - {key})))
  {
    AddedJoin(a, b, c, DropTimes(included, sends, all - rest), DropTimes(included, sends, {key}), DropTimes(included, sends, all - (rest - {key})));
  }

  lemma NoSendsYet(ps: seq<ClusterProblem>, included: set<Uuid>, recvs: Notebook, drops: Notebook, all: set<ClusterKey>)
    ensures Added(ps, ps, SendTimes(included, recvs, drops, all - all))
  {
  }

  lemma SendsOfOne(a: seq<ClusterProblem>, b: seq<ClusterProblem>, c: seq<ClusterProblem>,
                   included: set<Uuid>, recvs: Notebook, drops: Notebook, all: set<ClusterKey>, rest: set<ClusterKey>, key: ClusterKey)
    requires key in rest && rest <= all
    requires Added(a, b, SendTimes(included, recvs, drops, all - rest)) && Added(b, c, SendTimes(included, recvs, drops, {key}))
    ensures Added(a, c, SendTimes(included, recvs, drops, all - (rest - {key})))
  {
    AddedJoin(a, b, c, SendTimes(included, recvs, drops, all - rest), SendTimes(included, recvs, drops, {key}),
              SendTimes(included, recvs, drops, all - (rest - {key})));
  }

  lemma NothingJoined(ps: seq<ClusterProblem>)
    ensures Added(ps, ps, JoinTimes([]))
  {
  }

  /** A trace's own keys are in the index so far exactly when an earlier trace has them. */
  lemma {:induction false} IndexedMeans(traces: seq<Trace>, key: LineageKey)
    ensures key in GlobalIndex(traces) <==> IndexedIn(traces, key) > 0
  {
    hide IndexOf;
    if traces != [] { IndexedMeans(traces[..|traces| - 1], key); }
  }

  lemma JoinedOne(a: seq<ClusterProblem>, b: seq<ClusterProblem>, c: seq<ClusterProblem>, front: seq<Trace>, last: Trace)
    requires Added(a, b, JoinTimes(front)) && Added(b, c, ClashTimes(GlobalIndex(front), IndexOf(last).Keys))
    ensures Added(a, c, JoinTimes(front + [last]))
  {
    hide IndexOf;
    hide GlobalIndex;
    assert (front + [last])[..|front|] == front;
    forall key ensures key in GlobalIndex(front) <==> IndexedIn(front, key) > 0 { IndexedMeans(front, key); }
    AddedJoin(a, b, c, JoinTimes(front), ClashTimes(GlobalIndex(front), IndexOf(last).Keys), JoinTimes(front + [last]));
  }

  lemma NoClashesYet(ps: seq<ClusterProblem>, index: LineageIndex, all: set<LineageKey>)
    ensures Added(ps, ps, ClashTimes(index, all - all))
  {
  }

  lemma ClashOfOne(a: seq<ClusterProblem>, b: seq<ClusterProblem>, c: seq<ClusterProblem>,
                   index: LineageIndex, all: set<LineageKey>, rest: set<LineageKey>, key: LineageKey)
    requires key in rest && rest <= all && Added(a, b, ClashTimes(index, all - rest))
    requires c == if key in index then b + [DuplicateLineage(key)] else b
    ensures Added(a, c, ClashTimes(index, all - (rest - {key})))
  {
  }

  ghost function If(condition: bool, p: ClusterProblem): seq<ClusterProblem> { if condition then [p] else [] }

  /** The problems of comparing a record with its parent. */
  ghost function Mismatches(key: LineageKey, rec: Provenance, parent: Provenance): seq<ClusterProblem> {
    If(!HopsFollow(rec, parent), HopsMismatch(key)) + If(rec.originMsgId != parent.originMsgId, OriginMsgMismatch(key))
    + If(rec.originNode != parent.originNode, OriginNodeMismatch(key)) + If(rec.originService != parent.originService, OriginServiceMismatch(key))
  }

  lemma HopsFollowMeans(rec: Provenance, parent: Provenance)
    ensures HopsFollow(rec, parent) <==> rec.hops == SatAdd(parent.hops, 1)
  {
  }

  /** The problems of one record. */
  ghost function ParentProblems(included: set<Uuid>, index: LineageIndex, key: LineageKey): seq<ClusterProblem>
    requires key in index
  {
    if index[key].provenance.hops == 0 then []
    else
      match ParentKey(index[key])
      case None => [InvalidParent(key)]
      case Some(parent) =>
        if parent in index then Mismatches(key, index[key].provenance, index[parent].provenance)
        else If(parent.0 in included, MissingParent(key))
  }

  lemma IfTimes(condition: bool, p: ClusterProblem, q: ClusterProblem)
    ensures multiset(If(condition, p))[q] == Once(condition && q == p)
    ensures If(condition, p) == [] <==> !condition
  {
  }

  /** How often a problem of comparing a record with its parent is reported. */
  ghost function MismatchTimes(key: LineageKey, rec: Provenance, parent: Provenance, q: ClusterProblem): nat {
    Once(!HopsFollow(rec, parent) && q == HopsMismatch(key)) + Once(rec.originMsgId != parent.originMsgId && q == OriginMsgMismatch(key))
    + Once(rec.originNode != parent.originNode && q == OriginNodeMismatch(key))
    + Once(rec.originService != parent.originService && q == OriginServiceMismatch(key))
  }

  lemma MismatchesClean(key: LineageKey, rec: Provenance, parent: Provenance, q: ClusterProblem)
    ensures Mismatches(key, rec, parent) == [] <==> Continues(rec, parent)
    ensures multiset(Mismatches(key, rec, parent))[q] == MismatchTimes(key, rec, parent, q)
  {
    HopsFollowMeans(rec, parent);
    hide HopsFollow;
    hide If;
    hide Once;
    IfTimes(!HopsFollow(rec, parent), HopsMismatch(key), q);
    IfTimes(rec.originMsgId != parent.originMsgId, OriginMsgMismatch(key), q);
    IfTimes(rec.originNode != parent.originNode, OriginNodeMismatch(key), q);
    IfTimes(rec.originService != parent.originService, OriginServiceMismatch(key), q);
  }

  lemma ParentProblemsClean(included: set<Uuid>, index: LineageIndex, key: LineageKey)
    requires key in index
    ensures ParentProblems(included, index, key) == [] <==> ParentFits(included, index)(key)
  {
    hide ParentKey;
    hide Mismatches;
    hide Continues;
    if HasKnownParent(index, key) { MismatchesClean(key, index[key].provenance, ParentOf(index, key), InvalidParent(key)); }
  }

  lemma KnownParentTimes(included: set<Uuid>, index: LineageIndex, key: LineageKey, q: ClusterProblem)
    requires HasKnownParent(index, key)
    ensures MismatchTimes(key, index[key].provenance, ParentOf(index, key), q) == ParentTimes(included, index, {key})(q)
  {
    hide ParentKey;
    hide HopsFollow;
  }

  lemma NoKnownParentTimes(included: set<Uuid>, index: LineageIndex, key: LineageKey, q: ClusterProblem)
    requires key in index && !HasKnownParent(index, key)
    ensures multiset(ParentProblems(included, index, key))[q] == ParentTimes(included, index, {key})(q)
  {
    hide ParentKey;
    hide Mismatches;
    hide HopsFollow;
    hide If;
    if index[key].provenance.hops > 0 && ParentKey(index[key]).Some? {
      IfTimes(ParentKey(index[key]).value.0 in included, MissingParent(key), q);
    }
  }

  lemma ParentProblemTimes(included: set<Uuid>, index: LineageIndex, key: LineageKey, q: ClusterProblem)
    requires key in index
    ensures multiset(ParentProblems(included, index, key))[q] == ParentTimes(included, index, {key})(q)
  {
    hide ParentKey;
    hide Mismatches;
    hide ParentTimes;
    hide MismatchTimes;
    hide Continues;
    if HasKnownParent(index, key) {
      KnownParentTimes(included, index, key, q);
      MismatchesClean(key, index[key].provenance, ParentOf(index, key), q);
      assert ParentProblems(included, index, key) == Mismatches(key, index[key].provenance, ParentOf(index, key));
    } else {
      NoKnownParentTimes(included, index, key, q);
    }
  }

  lemma MoreOf(b: seq<ClusterProblem>, more: seq<ClusterProblem>, q: ClusterProblem)
    ensures multiset(b + more)[q] == multiset(b)[q] + multiset(more)[q]
  {
  }

  lemma NoParentsYet(ps: seq<ClusterProblem>, included: set<Uuid>, index: LineageIndex)
    ensures Added(ps, ps, ParentTimes(included, index, index.Keys - index.Keys))
  {
    hide ParentKey;
    hide HopsFollow;
  }

  lemma ParentTimesMore(included: set<Uuid>, index: LineageIndex, rest: set<LineageKey>, key: LineageKey)
    requires key in rest && rest <= index.Keys
    ensures forall p :: ParentTimes(included, index, index.Keys - (rest - {key}))(p) ==
                        ParentTimes(included, index, index.Keys - rest)(p) + ParentTimes(included, index, {key})(p)
  {
    hide ParentKey;
    hide HopsFollow;
  }

  lemma ParentsOfOne(a: seq<ClusterProblem>, b: seq<ClusterProblem>, c: seq<ClusterProblem>,
                     included: set<Uuid>, index: LineageIndex, rest: set<LineageKey>, key: LineageKey)
    requires key in rest && rest <= index.Keys
    requires Added(a, b, ParentTimes(included, index, index.Keys - rest)) && c == b + ParentProblems(included, index, key)
    ensures Added(a, c, ParentTimes(included, index, index.Keys - (rest - {key})))
    ensures c == [] <==> b == [] && ParentFits(included, index)(key)
  {
    hide ParentProblems;
    hide ParentFits;
    ParentTimesMore(included, index, rest, key);
    hide ParentTimes;
    ParentProblemsClean(included, index, key);
    forall q ensures multiset(c)[q] == multiset(b)[q] + ParentTimes(included, index, {key})(q) {
      ParentProblemTimes(included, index, key, q);
      MoreOf(b, ParentProblems(included, index, key), q);
    }
    hide ParentKey;
    hide HopsFollow;
    AddedJoin(a, b, c, ParentTimes(included, index, index.Keys - rest), ParentTimes(included, index, {key}),
              ParentTimes(included, index, index.Keys - (rest - {key})));
  }

  function Restricted(m: LineageIndex, keys: set<LineageKey>): LineageIndex {
    map k | k in m && k in keys :: m[k]
  }

  lemma InsertedNone(index: LineageIndex, own: LineageIndex)
    ensures index + Restricted(own, own.Keys - own.Keys) == index
    ensures (own.Keys - own.Keys) !! index.Keys
  {
  }

  lemma InsertedMore(index: LineageIndex, own: LineageIndex, rest: set<LineageKey>, key: LineageKey)
    requires rest <= own.Keys && key in rest
    ensures index + Restricted(own, own.Keys - (rest - {key})) == (index + Restricted(own, own.Keys - rest))[key := own[key]]
    ensures key in index + Restricted(own, own.Keys - rest) <==> key in index
    ensures (own.Keys - (rest - {key})) !! index.Keys <==> (own.Keys - rest) !! index.Keys && key !in index
  {
    assert own.Keys - (rest - {key}) == own.Keys - rest + {key};
  }

  lemma InsertedAll(own: LineageIndex)
    ensures Restricted(own, own.Keys - {}) == own && own.Keys - {} == own.Keys
  {
  }

  /** The keys of a set that satisfy a condition, and whether all of them do. */
  ghost function Those<K>(p: K -> bool, keys: set<K>): set<K> {
    set k | k in keys && p(k)
  }

  ghost predicate AllOf<K>(p: K -> bool, keys: set<K>) {
    forall k :: k in keys ==> p(k)
  }

  lemma NothingYet<K>(p: K -> bool, q: K -> bool, all: set<K>)
    ensures |Those(p, all - all)| == 0 && AllOf(q, all - all)
  {
    assert Those(p, all - all) == {};
  }

  lemma AllDone<K>(all: set<K>)
    ensures all - {} == all
  {
  }

  /** One more of the keys is done when it leaves the rest. */
  lemma OneMore<K>(p: K -> bool, q: K -> bool, all: set<K>, rest: set<K>, key: K)
    requires key in rest && rest <= all
    ensures |Those(p, all - (rest - {key}))| == |Those(p, all - rest)| + if p(key) then 1 else 0
    ensures AllOf(q, all - (rest - {key})) <==> AllOf(q, all - rest) && q(key)
  {
    assert all - (rest - {key}) == (all - rest) + {key};
    assert Those(p, (all - rest) + {key}) == Those(p, all - rest) + if p(key) then {key} else {};
    if AllOf(q, (all - rest) + {key}) {
      forall k | k in all - rest ensures q(k) { assert k in (all - rest) + {key}; }
      assert key in (all - rest) + {key};
    }
  }

  function FromOutside(included: set<Uuid>): ClusterKey -> bool { (key: ClusterKey) => key.0 !in included }

  function ToOutside(included: set<Uuid>): ClusterKey -> bool { (key: ClusterKey) => key.2 !in included }

  function RecvMatches(included: set<Uuid>, sends: Notebook, recvs: Notebook): ClusterKey -> bool {
    (key: ClusterKey) => key.0 in included && key in sends && key in recvs && sends[key] == recvs[key]
  }

  function RecvFits(included: set<Uuid>, sends: Notebook, recvs: Notebook): ClusterKey -> bool {
    (key: ClusterKey) => key.0 in included ==> key in sends && key in recvs && sends[key] == recvs[key]
  }

  function DropMatches(included: set<Uuid>, sends: Notebook): ClusterKey -> bool {
    (key: ClusterKey) => key.0 in included && key in sends
  }

  function DropFits(included: set<Uuid>, sends: Notebook): ClusterKey -> bool {
    (key: ClusterKey) => key.0 in included ==> key in sends
  }

  function SendFits(included: set<Uuid>, recvs: Notebook, drops: Notebook): ClusterKey -> bool {
    (key: ClusterKey) => key.2 in included ==> (key in recvs <==> key !in drops)
  }

  function ParentResolved(index: LineageIndex): LineageKey -> bool {
    (key: LineageKey) => key in index && HasParent(index[key]) && ParentKey(index[key]).value in index
  }

  function ParentOutside(included: set<Uuid>, index: LineageIndex): LineageKey -> bool {
    (key: LineageKey) =>
      key in index && HasParent(index[key]) && ParentKey(index[key]).value !in index && ParentKey(index[key]).value.0 !in included
  }

  function ParentFits(included: set<Uuid>, index: LineageIndex): LineageKey -> bool {
    (key: LineageKey) =>
      key in index && index[key].provenance.hops > 0 ==>
        && ParentKey(index[key]).Some?
        && (if ParentKey(index[key]).value in index then Continues(index[key].provenance, index[ParentKey(index[key]).value].provenance)
            else ParentKey(index[key]).value.0 !in included)
  }

  lemma {:induction false} GlobalKeys(traces: seq<Trace>, key: LineageKey)
    ensures key in GlobalIndex(traces) <==> exists i :: 0 <= i < |traces| && key in IndexOf(traces[i])
  {
    hide IndexOf;
    if traces != [] {
      var n := |traces| - 1;
      GlobalKeys(traces[..n], key);
      if i :| 0 <= i < n && key in IndexOf(traces[..n][i]) { assert key in IndexOf(traces[i]); }
      if i :| 0 <= i < |traces| && key in IndexOf(traces[i]) && i < n { assert key in IndexOf(traces[..n][i]); }
    }
  }

  lemma DeliveredOnceMore(front: seq<Trace>, last: Trace)
    ensures DeliveredOnce(front + [last]) <==> DeliveredOnce(front) && IndexOf(last).Keys !! GlobalIndex(front).Keys
  {
    hide IndexOf;
    hide GlobalIndex;
    var all := front + [last];
    if DeliveredOnce(all) {
      forall i, j, key | 0 <= i < j < |front| && key in IndexOf(front[i]) ensures key !in IndexOf(front[j]) {
        assert key in IndexOf(all[i]);
        assert all[j] == front[j];
      }
      forall key | key in GlobalIndex(front) ensures key !in IndexOf(last) {
        GlobalKeys(front, key);
        var i :| 0 <= i < |front| && key in IndexOf(front[i]);
        assert key in IndexOf(all[i]) && all[|front|] == last;
      }
    }
    if DeliveredOnce(front) && IndexOf(last).Keys !! GlobalIndex(front).Keys {
      forall i, j, key | 0 <= i < j < |all| && key in IndexOf(all[i]) ensures key !in IndexOf(all[j]) {
        GlobalKeys(front, key);
        if j < |front| { assert key in IndexOf(front[i]); } else { assert key in IndexOf(front[i]); }
      }
    }
  }

  /** The parts of a clean report, joined. */
  lemma CleanParts(traces: seq<Trace>)
    ensures ClusterOk(traces) <==>
            && OneNodeEach(traces) && EvidenceOnce(traces)
            && AllOf(RecvFits(Included(traces), SendTable(traces), RecvTable(traces)), RecvTable(traces).Keys)
            && AllOf(DropFits(Included(traces), SendTable(traces)), DropTable(traces).Keys)
            && AllOf(SendFits(Included(traces), RecvTable(traces), DropTable(traces)), SendTable(traces).Keys)
            && DeliveredOnce(traces)
            && AllOf(ParentFits(Included(traces), GlobalIndex(traces)), GlobalIndex(traces).Keys)
  {
    hide NetworkOk;
    hide ParentsOk;
    hide EvidenceOnce;
    hide OneNodeEach;
    hide DeliveredOnce;
    hide AllOf;
    NetworkParts(traces);
    ParentParts(traces);
  }

  lemma ParentParts(traces: seq<Trace>)
    ensures ParentsOk(traces) <==> AllOf(ParentFits(Included(traces), GlobalIndex(traces)), GlobalIndex(traces).Keys)
  {
    hide Included;
    hide GlobalIndex;
    hide ParentKey;
    hide Continues;
    var p := ParentFits(Included(traces), GlobalIndex(traces));
    forall key | key in GlobalIndex(traces) ensures ParentOk(traces, key) <==> p(key) {
    }
  }

  lemma NetworkParts(traces: seq<Trace>)
    ensures NetworkOk(traces) <==>
            && AllOf(RecvFits(Included(traces), SendTable(traces), RecvTable(traces)), RecvTable(traces).Keys)
            && AllOf(DropFits(Included(traces), SendTable(traces)), DropTable(traces).Keys)
            && AllOf(SendFits(Included(traces), RecvTable(traces), DropTable(traces)), SendTable(traces).Keys)
  {
    hide SendTable;
    hide RecvTable;
    hide DropTable;
    hide Included;
    var p := RecvFits(Included(traces), SendTable(traces), RecvTable(traces));
    var q := DropFits(Included(traces), SendTable(traces));
    var r := SendFits(Included(traces), RecvTable(traces), DropTable(traces));
    forall key | key in RecvTable(traces) ensures RecvOk(traces, key) <==> p(key) {
    }
    forall key | key in DropTable(traces) ensures DropOk(traces, key) <==> q(key) {
    }
    forall key | key in SendTable(traces) ensures SendOk(traces, key) <==> r(key) {
    }
  }

  /** The counted sets are those the report is meant to count. */
  lemma CountedSets(traces: seq<Trace>)
    ensures Those(RecvMatches(Included(traces), SendTable(traces), RecvTable(traces)), RecvTable(traces).Keys) == MatchedRecvs(traces)
    ensures Those(DropMatches(Included(traces), SendTable(traces)), DropTable(traces).Keys) == MatchedDrops(traces)
    ensures Those(FromOutside(Included(traces)), RecvTable(traces).Keys) == ExternalRecvs(traces)
    ensures Those(FromOutside(Included(traces)), DropTable(traces).Keys) == ExternalDrops(traces)
    ensures Those(ToOutside(Included(traces)), SendTable(traces).Keys) == ExternalSends(traces)
    ensures Those(ParentResolved(GlobalIndex(traces)), GlobalIndex(traces).Keys) == ResolvedParents(traces)
    ensures Those(ParentOutside(Included(traces), GlobalIndex(traces)), GlobalIndex(traces).Keys) == ExternalParents(traces)
  {
    hide SendTable;
    hide RecvTable;
    hide DropTable;
    hide Included;
    hide GlobalIndex;
    hide HasParent;
    hide ParentKey;
  }

  lemma PassesJoin(traces: seq<Trace>, p1: seq<ClusterProblem>, p2: seq<ClusterProblem>, p3: seq<ClusterProblem>,
                   p4: seq<ClusterProblem>, p5: seq<ClusterProblem>, p6: seq<ClusterProblem>, p7: seq<ClusterProblem>)
    requires Added([], p1, NodeTimes(traces, |traces|)) && Added(p1, p2, NoteTimes(AllEvents(traces)))
    requires Added(p2, p3, RecvTimes(Included(traces), SendTable(traces), RecvTable(traces), RecvTable(traces).Keys))
    requires Added(p3, p4, DropTimes(Included(traces), SendTable(traces), DropTable(traces).Keys))
    requires Added(p4, p5, SendTimes(Included(traces), RecvTable(traces), DropTable(traces), SendTable(traces).Keys))
    requires Added(p5, p6, JoinTimes(traces))
    requires Added(p6, p7, ParentTimes(Included(traces), GlobalIndex(traces), GlobalIndex(traces).Keys))
    ensures ReportExact(traces, multiset(p7))
  {
    hide Added;
    hide ReportExact;
    hide NodeTimes;
    hide NoteTimes;
    hide RecvTimes;
    hide DropTimes;
    hide SendTimes;
    hide JoinTimes;
    hide ParentTimes;
    hide Included;
    hide SendTable;
    hide RecvTable;
    hide DropTable;
    hide GlobalIndex;
    hide AllEvents;
    var included, sends, recvs, drops := Included(traces), SendTable(traces), RecvTable(traces), DropTable(traces);
    var index := GlobalIndex(traces);
    var f1, f2 := NodeTimes(traces, |traces|), NoteTimes(AllEvents(traces));
    var f3, f4 := RecvTimes(included, sends, recvs, recvs.Keys), DropTimes(included, sends, drops.Keys);
    var f5, f6, f7 := SendTimes(included, recvs, drops, sends.Keys), JoinTimes(traces), ParentTimes(included, index, index.Keys);
    AddedJoin([], p1, p2, f1, f2, Plus(f1, f2));
    AddedJoin(p3, p4, p5, f4, f5, Plus(f4, f5));
    AddedJoin(p2, p3, p5, f3, Plus(f4, f5), Plus(f3, Plus(f4, f5)));
    AddedJoin([], p2, p5, Plus(f1, f2), Plus(f3, Plus(f4, f5)), Plus(Plus(f1, f2), Plus(f3, Plus(f4, f5))));
    AddedJoin(p5, p6, p7, f6, f7, Plus(f6, f7));
    AddedJoin([], p5, p7, Plus(Plus(f1, f2), Plus(f3, Plus(f4, f5))), Plus(f6, f7), AllTimes(traces));
    AllTimesExact(traces, p7);
  }

  /** `verify_cluster`: each problem of the traces is reported exactly as often as it should be; the report
      has none exactly when the traces fit together, and its numbers count the matched, dropped and
      external messages and the resolved and external parents. */
  method VerifyCluster(traces: seq<Trace>) returns (report: ClusterReport)
    ensures fresh(report)
    ensures ReportExact(traces, multiset(report.problems))
    ensures report.problems == [] <==> ClusterOk(traces)
    ensures report.matchedRecv == |MatchedRecvs(traces)| && report.matchedDrop == |MatchedDrops(traces)|
    ensures report.externalInbound == |ExternalRecvs(traces)| + |ExternalDrops(traces)|
    ensures report.externalOutbound == |ExternalSends(traces)|
    ensures report.resolvedLineageParents == |ResolvedParents(traces)| && report.externalLineageParents == |ExternalParents(traces)|
  {
    hide SendTable;
    hide RecvTable;
    hide DropTable;
    hide Included;
    hide GlobalIndex;
    hide EvidenceOnce;
    hide OneNodeEach;
    hide DeliveredOnce;
    hide ClusterOk;
    hide Those;
    hide AllOf;
    hide Added;
    hide ReportExact;
    report := new ClusterReport();
    var included := report.IncludeNodes(traces);
    ghost var p1 := report.problems;
    var sends, recvs, drops := report.CollectNotes(traces);
    ghost var p2 := report.problems;
    report.MatchRecvs(included, sends, recvs);
    ghost var p3 := report.problems;
    report.MatchDrops(included, sends, drops);
    ghost var p4 := report.problems;
    report.AccountForSends(included, sends, recvs, drops);
    ghost var p5 := report.problems;
    var index := report.JoinIndexes(traces);
    ghost var p6 := report.problems;
    report.CheckParents(included, index);
    PassesJoin(traces, p1, p2, p3, p4, p5, p6, report.problems);
    CleanParts(traces);
    CountedSets(traces);
  }

  lemma OneNodeMore(front: seq<Trace>, last: Trace)
    ensures OneNodeEach(front + [last]) <==> OneNodeEach(front) && |LocalNodes(last)| == 1
  {
    hide LocalNodes;
    var all := front + [last];
    if OneNodeEach(all) {
      forall i | 0 <= i < |front| ensures |LocalNodes(front[i])| == 1 { assert |LocalNodes(all[i])| == 1; }
      assert |LocalNodes(all[|front|])| == 1;
    }
  }

  lemma KindsSnoc(trace: Trace, j: nat)
    requires j < |trace|
    ensures Kinds(trace[..j + 1]) == Kinds(trace[..j]) + [trace[j].kind]
  {
    assert trace[..j + 1][..j] == trace[..j];
  }

  /** The tables of the events read so far. */
  ghost predicate Tabled(seen: seq<EventKind>, sends: map<ClusterKey, Option<Payload>>, recvs: map<ClusterKey, Option<Payload>>,
                         drops: map<ClusterKey, Option<Payload>>)
  {
    sends == Table(Notes(seen, SentNote)) && recvs == Table(Notes(seen, ReceivedNote)) && drops == Table(Notes(seen, DroppedNote))
  }

  ghost predicate NotedOnce(seen: seq<EventKind>) {
    KeysOnce(Notes(seen, SentNote)) && KeysOnce(Notes(seen, ReceivedNote)) && KeysOnce(Notes(seen, DroppedNote))
  }

  lemma NothingNoted()
    ensures Tabled([], map[], map[], map[]) && NotedOnce([])
  {
  }

  lemma NotesSnoc(seen: seq<EventKind>, k: EventKind, what: Evidence)
    ensures if NoteOf(k).Some? && NoteOf(k).value.what == what then Notes(seen + [k], what) == Notes(seen, what) + [NoteOf(k).value]
            else Notes(seen + [k], what) == Notes(seen, what)
  {
    hide NoteOf;
    assert (seen + [k])[..|seen|] == seen;
  }
}
