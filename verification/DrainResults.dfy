/**
 * What drains of the plain fragment lead to, one after another on the same run: no transition raises, outcomes
 * last, and a drain that ends of itself has evaluated the workflow, whatever the schedule.
 */
module DrainResults {
  import opened Common
  import opened Digraph
  import opened Workflow
  import opened WorkflowGraph
  import opened StateMachine
  import opened RunModel
  import opened Readiness
  import opened Fragment
  import opened Runs
  import opened Scheduling
  import opened Drain
  import opened DrainTasks
  import opened PlainRuns
  import opened DrainOutcome

  // ---------------------------------------------------------------- drains one after another

  /** One drain of a run, with its own settings. */
  datatype Leg = Leg(cfg: Config, states: seq<State>)

  function Final(leg: Leg): State
    requires leg.states != []
  {
    leg.states[|leg.states| - 1]
  }

  /** The workflow and the verdicts stay; limits, item keys and the kind of drain may differ. */
  ghost predicate SameSystem(a: Config, b: Config) { a.g == b.g && a.verdicts == b.verdicts }

  /** The run at which drain k starts: that of the drain before it. */
  function StartOf(run: Run, legs: seq<Leg>, k: nat): Run
    requires k <= |legs|
  {
    if k == 0 || legs[k - 1].states == [] then run else Final(legs[k - 1]).run
  }

  ghost predicate IsLeg(cfg: Config, run: Run, legs: seq<Leg>, k: nat)
    requires k < |legs|
  {
    && SameSystem(legs[k].cfg, cfg)
    && IsDrain(legs[k].cfg, StartOf(run, legs, k), legs[k].states)
    && (k + 1 < |legs| ==> Final(legs[k]).executing == {})
  }

  /** Drains of one run, each started when nothing of the one before it is under way. */
  ghost predicate IsChain(cfg: Config, run: Run, legs: seq<Leg>) {
    legs != [] && forall k :: 0 <= k < |legs| ==> IsLeg(cfg, run, legs, k)
  }

  lemma OneDrain(cfg: Config, run: Run, states: seq<State>)
    requires IsDrain(cfg, run, states)
    ensures IsChain(cfg, run, [Leg(cfg, states)])
  {
  }

  /** The last state of a chain. */
  ghost function EndState(cfg: Config, run: Run, legs: seq<Leg>): State
    requires IsChain(cfg, run, legs)
  {
    assert IsLeg(cfg, run, legs, |legs| - 1);
    Final(legs[|legs| - 1])
  }

  lemma SameReady(a: Config, b: Config, itemKey: string, run: Run, rank: map<Id, nat>)
    requires SameSystem(a, b) && Ready(a, itemKey, run)
    ensures Ready(b, itemKey, run) && FrameFor(b, itemKey, run, rank) == FrameFor(a, itemKey, run, rank)
  {
    assert Oks(a, ItemNodeIds(run.items)) == Oks(b, ItemNodeIds(run.items));
    hide Inv, PlainRun, Untried, DagOf;
  }

  /** When nothing is under way any more, the run is ready for another drain. */
  lemma ReadyAgain(cfg: Config, itemKey: string, run: Run, rank: map<Id, nat>, s: State)
    requires Good(cfg, FrameFor(cfg, itemKey, run, rank), s) && s.executing == {}
    ensures Ready(cfg, itemKey, s.run) && FrameFor(cfg, itemKey, s.run, rank) == FrameFor(cfg, itemKey, run, rank)
  {
    forall x | x in s.run.items ensures x.status != Running {
      var i :| 0 <= i < |s.run.items| && s.run.items[i] == x;
    }
  }

  /** Every drain of a chain starts at a run that is ready. */
  lemma {:induction false} LegReady(cfg: Config, itemKey: string, run: Run, rank: map<Id, nat>, legs: seq<Leg>, k: nat)
    requires Ready(cfg, itemKey, run) && RankedBy(cfg.g, rank) && IsChain(cfg, run, legs) && k < |legs|
    ensures Ready(legs[k].cfg, itemKey, StartOf(run, legs, k)) && RankedBy(legs[k].cfg.g, rank)
    ensures FrameFor(legs[k].cfg, itemKey, StartOf(run, legs, k), rank) == FrameFor(cfg, itemKey, run, rank)
    decreases k
  {
    hide Ready, FrameFor, RankedBy, Good, Next, Start, NodesOnly;
    assert IsLeg(cfg, run, legs, k);
    if k == 0 {
      SameReady(cfg, legs[k].cfg, itemKey, run, rank);
    } else {
      assert IsLeg(cfg, run, legs, k - 1);
      LegReady(cfg, itemKey, run, rank, legs, k - 1);
      LegEndsReady(legs[k - 1].cfg, itemKey, StartOf(run, legs, k - 1), rank, legs[k - 1].states);
      SameReady(legs[k - 1].cfg, legs[k].cfg, itemKey, StartOf(run, legs, k), rank);
    }
  }

  lemma LegEndsReady(cfg: Config, itemKey: string, run: Run, rank: map<Id, nat>, states: seq<State>)
    requires Ready(cfg, itemKey, run) && RankedBy(cfg.g, rank) && IsDrain(cfg, run, states) && states[|states| - 1].executing == {}
    ensures var last := states[|states| - 1].run;
            Ready(cfg, itemKey, last) && FrameFor(cfg, itemKey, last, rank) == FrameFor(cfg, itemKey, run, rank)
  {
    hide Ready, FrameFor, RankedBy, Good, Later, Next, Start, NodesOnly;
    DrainFine(cfg, itemKey, run, rank, states);
    ReadyAgain(cfg, itemKey, run, rank, states[|states| - 1]);
  }

  /** The invariant at every moment of a chain. */
  lemma ChainFine(cfg: Config, itemKey: string, run: Run, rank: map<Id, nat>, legs: seq<Leg>, k: nat)
    requires Ready(cfg, itemKey, run) && RankedBy(cfg.g, rank) && IsChain(cfg, run, legs) && k < |legs|
    ensures var f := FrameFor(cfg, itemKey, run, rank);
            && SameSystem(legs[k].cfg, cfg) && legs[k].states != []
            && (forall m :: 0 <= m < |legs[k].states| ==> Fine(legs[k].cfg, f, legs[k].states[m]))
            && (forall a, b :: 0 <= a <= b < |legs[k].states| ==> Later(f, legs[k].states[a], legs[k].states[b]))
            && (forall a :: 0 <= a < |legs[k].states| ==> Later(f, Initial(StartOf(run, legs, k)), legs[k].states[a]))
  {
    hide Ready, FrameFor, RankedBy, Fine, Later, Start, Next;
    assert IsLeg(cfg, run, legs, k);
    LegReady(cfg, itemKey, run, rank, legs, k);
    DrainFine(legs[k].cfg, itemKey, StartOf(run, legs, k), rank, legs[k].states);
  }

  /** Moments of a chain come one after the other. */
  predicate NotAfter(k: nat, m: nat, k': nat, m': nat) { k < k' || (k == k' && m <= m') }

  lemma {:induction false} ChainLater(cfg: Config, itemKey: string, run: Run, rank: map<Id, nat>, legs: seq<Leg>,
                                      k: nat, m: nat, k': nat, m': nat)
    requires Ready(cfg, itemKey, run) && RankedBy(cfg.g, rank) && IsChain(cfg, run, legs)
    requires k <= k' < |legs| && m < |legs[k].states| && m' < |legs[k'].states| && NotAfter(k, m, k', m')
    ensures Later(FrameFor(cfg, itemKey, run, rank), legs[k].states[m], legs[k'].states[m'])
    decreases k'
  {
    hide Ready, FrameFor, RankedBy, Fine, IsLeg;
    var f := FrameFor(cfg, itemKey, run, rank);
    ChainFine(cfg, itemKey, run, rank, legs, k');
    if k == k' {
    } else {
      ChainFine(cfg, itemKey, run, rank, legs, k' - 1);
      var last := |legs[k' - 1].states| - 1;
      ChainLater(cfg, itemKey, run, rank, legs, k, m, k' - 1, last);
      assert Later(f, legs[k' - 1].states[last], legs[k'].states[m']);
      LaterTransitive(f, legs[k].states[m], legs[k' - 1].states[last], legs[k'].states[m']);
    }
  }

  /**
   * In the fragment no step of any drain makes a transition raise, neither of an item nor of a node; and where
   * a raise would be caught and turned into a failure, there is none to catch.
   */
  lemma NoTransitionRaises(cfg: Config, itemKey: string, run: Run, rank: map<Id, nat>, legs: seq<Leg>, k: nat, m: nat)
    requires Ready(cfg, itemKey, run) && RankedBy(cfg.g, rank) && IsChain(cfg, run, legs)
    requires k < |legs| && m < |legs[k].states|
    ensures var s := legs[k].states[m];
            && !s.phase.Crashed?
            && (forall i :: i in s.ended ==> i < |run.items| && s.ended[i] == VerdictOf(cfg, run.items[i].nodeId))
  {
    hide Ready, RankedBy, IsChain, Inv, PlainRun, Later;
    ChainFine(cfg, itemKey, run, rank, legs, k);
    var s, ids := legs[k].states[m], ItemNodeIds(run.items);
    forall i | i in s.ended ensures i < |run.items| && s.ended[i] == VerdictOf(cfg, run.items[i].nodeId) {
      assert s.ended[i] == VerdictOf(legs[k].cfg, ids[i]);
    }
  }

  /** An enabled item once skipped, succeeded or failed keeps that status, through this drain and those after it. */
  lemma OutcomesLast(cfg: Config, itemKey: string, run: Run, rank: map<Id, nat>, legs: seq<Leg>,
                     k: nat, m: nat, k': nat, m': nat, i: nat)
    requires Ready(cfg, itemKey, run) && RankedBy(cfg.g, rank) && IsChain(cfg, run, legs)
    requires k <= k' < |legs| && m < |legs[k].states| && m' < |legs[k'].states| && NotAfter(k, m, k', m')
    requires i < |run.items| && Enabled(cfg.g, run.items[i].nodeId)
    ensures var a, b := legs[k].states[m].run.items, legs[k'].states[m'].run.items;
            && |a| == |b| == |run.items|
            && (a[i].status in {Success, Failed, Skipped} ==> b[i].status == a[i].status)
  {
    hide Ready, RankedBy, IsChain, PlainRun, Inv;
    ChainFine(cfg, itemKey, run, rank, legs, k);
    ChainFine(cfg, itemKey, run, rank, legs, k');
    ChainLater(cfg, itemKey, run, rank, legs, k, m, k', m');
    assert ItemNodeIds(run.items)[i] == run.items[i].nodeId;
    var a, b := legs[k].states[m].run.items, legs[k'].states[m'].run.items;
    assert Statuses(a)[i] == a[i].status && Statuses(b)[i] == b[i].status;
  }

  // ---------------------------------------------------------------- the reference evaluation, by name

  predicate Succeeds(verdicts: map<Id, Verdict>, id: Id) { id in verdicts ==> verdicts[id].Succeed? }

  /** A node starts when it has no dependency, or when all of its sources contribute, or one if any will do. */
  ghost predicate NodeStarts(g: Graph, rank: map<Id, nat>, verdicts: map<Id, Verdict>, id: Id)
    requires RankedBy(g, rank)
    decreases RankOf(rank, id), 0
  {
    var incoming := Incoming(g.definition.edges, id);
    || incoming == []
    || (if WaitsForAny(g, id) then exists e :: e in incoming && NodeContributes(g, rank, verdicts, e.from)
        else forall e :: e in incoming ==> NodeContributes(g, rank, verdicts, e.from))
  }

  /** A disabled source counts as satisfied; an enabled one must run and succeed. */
  ghost predicate NodeContributes(g: Graph, rank: map<Id, nat>, verdicts: map<Id, Verdict>, id: Id)
    requires RankedBy(g, rank)
    decreases RankOf(rank, id), 1
  {
    !Enabled(g, id) || (NodeStarts(g, rank, verdicts, id) && Succeeds(verdicts, id))
  }

  ghost function NodeResult(g: Graph, rank: map<Id, nat>, verdicts: map<Id, Verdict>, id: Id): Result
    requires RankedBy(g, rank)
  {
    if Enabled(g, id) && NodeStarts(g, rank, verdicts, id) then Ran(Succeeds(verdicts, id)) else NotRun
  }

  lemma {:induction false} StartsByName(cfg: Config, f: Frame, rank: map<Id, nat>, i: nat)
    requires FrameOf(cfg, f) && RankedBy(cfg.g, rank) && i < |f.ids|
    ensures Starts(f.dag, f.rank, f.ok, i) <==> NodeStarts(cfg.g, rank, cfg.verdicts, f.ids[i])
    decreases f.rank[i], 0
  {
    forall j | j in f.dag.sources[i]
      ensures Contributes(f.dag, f.rank, f.ok, j) <==> NodeContributes(cfg.g, rank, cfg.verdicts, f.ids[j])
    {
      ContributesByName(cfg, f, rank, j);
    }
    NoSources(cfg.g, f.ids, i);
    if Starts(f.dag, f.rank, f.ok, i) {
      PositionsToNames(cfg, f, rank, i);
    }
    if NodeStarts(cfg.g, rank, cfg.verdicts, f.ids[i]) {
      NamesToPositions(cfg, f, rank, i);
    }
  }

  /** Sources answer alike by position and by name. */
  ghost predicate SourcesAgree(cfg: Config, f: Frame, rank: map<Id, nat>, i: nat)
    requires FrameOf(cfg, f) && RankedBy(cfg.g, rank) && i < |f.ids|
  {
    forall j :: j in f.dag.sources[i] ==>
      (Contributes(f.dag, f.rank, f.ok, j) <==> NodeContributes(cfg.g, rank, cfg.verdicts, f.ids[j]))
  }

  lemma PositionsToNames(cfg: Config, f: Frame, rank: map<Id, nat>, i: nat)
    requires FrameOf(cfg, f) && RankedBy(cfg.g, rank) && i < |f.ids| && SourcesAgree(cfg, f, rank, i)
    requires Starts(f.dag, f.rank, f.ok, i)
    ensures NodeStarts(cfg.g, rank, cfg.verdicts, f.ids[i])
  {
    var incoming := Incoming(cfg.g.definition.edges, f.ids[i]);
    NoSources(cfg.g, f.ids, i);
    if incoming != [] {
      if WaitsForAny(cfg.g, f.ids[i]) {
        var j :| j in f.dag.sources[i] && Contributes(f.dag, f.rank, f.ok, j);
        var e := EdgeOfSource(cfg.g, f.ids, i, j);
      } else {
        forall e | e in incoming ensures NodeContributes(cfg.g, rank, cfg.verdicts, e.from) {
          var j := SourceOfEdge(cfg.g, f.ids, i, e);
        }
      }
    }
  }

  lemma NamesToPositions(cfg: Config, f: Frame, rank: map<Id, nat>, i: nat)
    requires FrameOf(cfg, f) && RankedBy(cfg.g, rank) && i < |f.ids| && SourcesAgree(cfg, f, rank, i)
    requires NodeStarts(cfg.g, rank, cfg.verdicts, f.ids[i])
    ensures Starts(f.dag, f.rank, f.ok, i)
  {
    var incoming := Incoming(cfg.g.definition.edges, f.ids[i]);
    NoSources(cfg.g, f.ids, i);
    if incoming != [] {
      if WaitsForAny(cfg.g, f.ids[i]) {
        var e :| e in incoming && NodeContributes(cfg.g, rank, cfg.verdicts, e.from);
        var j := SourceOfEdge(cfg.g, f.ids, i, e);
      } else {
        forall j | j in f.dag.sources[i] ensures Contributes(f.dag, f.rank, f.ok, j) {
          var e := EdgeOfSource(cfg.g, f.ids, i, j);
        }
      }
    }
  }

  lemma {:induction false} ContributesByName(cfg: Config, f: Frame, rank: map<Id, nat>, j: nat)
    requires FrameOf(cfg, f) && RankedBy(cfg.g, rank) && j < |f.ids|
    ensures Contributes(f.dag, f.rank, f.ok, j) <==> NodeContributes(cfg.g, rank, cfg.verdicts, f.ids[j])
    decreases f.rank[j], 1
  {
    StartsByName(cfg, f, rank, j);
  }

  function ItemResult(g: Graph, x: ItemRun): Result {
    if Enabled(g, x.nodeId) && x.status == Success then Ran(true)
    else if Enabled(g, x.nodeId) && x.status == Failed then Ran(false)
    else NotRun
  }

  /** The positions of a run keep their nodes. */
  lemma SamePositions(cfg: Config, itemKey: string, run: Run, rank: map<Id, nat>, s: State)
    requires Good(cfg, FrameFor(cfg, itemKey, run, rank), s)
    ensures |s.run.items| == |run.items| && forall i :: 0 <= i < |run.items| ==> s.run.items[i].nodeId == run.items[i].nodeId
  {
    hide Inv, Underway, Untried, Known, PlainGraph;
    assert forall i :: 0 <= i < |run.items| ==> ItemNodeIds(s.run.items)[i] == ItemNodeIds(run.items)[i];
  }

  lemma RestIsEvaluated(cfg: Config, f: Frame, rank: map<Id, nat>, s: State, i: nat)
    requires FrameOf(cfg, f) && RankedBy(cfg.g, rank) && Good(cfg, f, s) && AtRest(f, s) && i < |f.ids|
    ensures i < |s.run.items| && ItemResult(cfg.g, s.run.items[i]) == NodeResult(cfg.g, rank, cfg.verdicts, f.ids[i])
  {
    hide Inv, Underway, Untried, PlainGraph, Known, RankedBy, DagOf, Starts, NodeStarts;
    EnabledAt(cfg, f, s, i);
    var before :| Quiet(f.dag, f.ok, before, Statuses(s.run.items));
    QuietIsEvaluated(f.dag, f.rank, f.ok, before, Statuses(s.run.items), i);
    StartsByName(cfg, f, rank, i);
  }

  /**
   * If the last of several drains ends of itself, with nobody asking it to stop, they have run exactly the nodes
   * that the evaluation runs, with the same results: whatever the interleaving, limits, ticks and item order.
   */
  lemma DrainEvaluates(cfg: Config, itemKey: string, run: Run, rank: map<Id, nat>, legs: seq<Leg>, i: nat)
    requires Ready(cfg, itemKey, run) && RankedBy(cfg.g, rank) && IsChain(cfg, run, legs)
    requires Ended(EndState(cfg, run, legs)) && i < |run.items|
    ensures var items := EndState(cfg, run, legs).run.items;
            && |items| == |run.items| && items[i].nodeId == run.items[i].nodeId
            && ItemResult(cfg.g, items[i]) == NodeResult(cfg.g, rank, cfg.verdicts, run.items[i].nodeId)
  {
    var f, last := FrameFor(cfg, itemKey, run, rank), legs[|legs| - 1];
    ChainFine(cfg, itemKey, run, rank, legs, |legs| - 1);
    EndedFine(cfg, itemKey, run, rank, last.cfg, Final(last));
    FrameIsFrame(cfg, itemKey, run, rank);
    hide Good, FrameOf, AtRest, Ready, RankedBy, IsChain, NodeResult, ItemResult;
    SamePositions(cfg, itemKey, run, rank, Final(last));
    RestIsEvaluated(cfg, f, rank, Final(last), i);
  }

  /** The invariant speaks of the system only, not of the limits. */
  lemma EndedFine(cfg: Config, itemKey: string, run: Run, rank: map<Id, nat>, other: Config, s: State)
    requires SameSystem(other, cfg) && Fine(other, FrameFor(cfg, itemKey, run, rank), s) && Ended(s)
    ensures Good(cfg, FrameFor(cfg, itemKey, run, rank), s) && AtRest(FrameFor(cfg, itemKey, run, rank), s) && Closed(s)
  {
  }

  /** Two such chains of drains of one workflow give every node the same result, whatever sets them apart. */
  lemma ScheduleIndependent(a: Config, b: Config, keyA: string, keyB: string, runA: Run, runB: Run, rank: map<Id, nat>,
                            legsA: seq<Leg>, legsB: seq<Leg>, i: nat, j: nat)
    requires SameSystem(a, b) && RankedBy(a.g, rank)
    requires Ready(a, keyA, runA) && IsChain(a, runA, legsA) && Ended(EndState(a, runA, legsA))
    requires Ready(b, keyB, runB) && IsChain(b, runB, legsB) && Ended(EndState(b, runB, legsB))
    requires i < |runA.items| && j < |runB.items| && runA.items[i].nodeId == runB.items[j].nodeId
    ensures var itemsA, itemsB := EndState(a, runA, legsA).run.items, EndState(b, runB, legsB).run.items;
            && |itemsA| == |runA.items| && |itemsB| == |runB.items|
            && ItemResult(a.g, itemsA[i]) == ItemResult(b.g, itemsB[j])
  {
    hide Ready, IsChain, NodeResult, ItemResult;
    DrainEvaluates(a, keyA, runA, rank, legsA, i);
    DrainEvaluates(b, keyB, runB, rank, legsB, j);
  }
}
