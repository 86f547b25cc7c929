/**
 * The plain fragment of the engine on indices: one item per node, no groups, no conditions.
 * `on[i]` says whether node i is enabled, `any[i]` whether any one source will do.
 */
module Fragment {
  import opened Common
  import opened StateMachine
  import opened Readiness

  datatype Dag = Dag(on: seq<bool>, any: seq<bool>, sources: seq<set<nat>>) {
    predicate Shaped() {
      && |on| == |any| == |sources|
      && forall i, j :: 0 <= i < |on| && j in sources[i] ==> j < |on|
    }

    /** Every source is ranked below the node that depends on it. */
    predicate Ranked(rank: seq<nat>) {
      && Shaped() && |rank| == |on|
      && forall i, j :: 0 <= i < |on| && j in sources[i] ==> rank[j] < rank[i]
    }
  }

  predicate Fits(dag: Dag, st: seq<Status>) {
    dag.Shaped() && |st| == |dag.on|
  }

  predicate Met(dag: Dag, st: seq<Status>, j: nat)
    requires Fits(dag, st) && j < |st|
  {
    !dag.on[j] || st[j] == Success
  }

  predicate Dead(dag: Dag, st: seq<Status>, j: nat)
    requires Fits(dag, st) && j < |st|
  {
    dag.on[j] && st[j] in {Failed, Skipped, Stopped}
  }

  function Judge(dag: Dag, st: seq<Status>, i: nat): Outcome
    requires Fits(dag, st) && i < |st|
  {
    if dag.any[i] then
      if exists j :: j in dag.sources[i] && Met(dag, st, j) then ToQueue
      else if forall j :: j in dag.sources[i] ==> Dead(dag, st, j) then ToSkip
      else ToWait
    else
      if forall j :: j in dag.sources[i] ==> Met(dag, st, j) then ToQueue
      else if forall j :: j in dag.sources[i] ==> Met(dag, st, j) || Dead(dag, st, j) then ToSkip
      else ToWait
  }

  /** What the readiness pass makes of node i at its turn. */
  function Turn(dag: Dag, st: seq<Status>, i: nat): Option<Status>
    requires Fits(dag, st) && i < |st|
  {
    if !dag.on[i] then TransitionStatus(st[i], Skipped, None)
    else if st[i] in {Running, Success, Failed, Stopped} then Some(st[i])
    else if dag.sources[i] == {} then
      if st[i] in {Blocked, Skipped, Waiting} then TransitionStatus(st[i], Queued, Some(Dependency)) else Some(st[i])
    else
      match Judge(dag, st, i)
      case ToQueue => TransitionStatus(st[i], Queued, Some(Dependency))
      case ToWait => TransitionStatus(st[i], Waiting, Some(Dependency))
      case ToSkip => TransitionStatus(st[i], Skipped, Some(Dependency))
  }

  function PassFrom(dag: Dag, st: seq<Status>, i: nat): (r: Option<seq<Status>>)
    requires Fits(dag, st) && i <= |st|
    ensures r.Some? ==> |r.value| == |st|
    decreases |st| - i
  {
    if i == |st| then Some(st)
    else
      match Turn(dag, st, i)
      case None => None
      case Some(s) => PassFrom(dag, st[i := s], i + 1)
  }

  // ---------------------------------------------------------------- the invariant of a drain

  predicate CanStart(dag: Dag, st: seq<Status>, i: nat)
    requires Fits(dag, st) && i < |st|
  {
    dag.sources[i] == {} || Judge(dag, st, i) == ToQueue
  }

  /** What the status of one node says about its sources; `ok[i]` is the verdict node i would get. */
  predicate Sound(dag: Dag, ok: seq<bool>, st: seq<Status>, i: nat)
    requires Fits(dag, st) && |ok| == |st| && i < |st|
  {
    if dag.on[i] then
      && st[i] !in {Stopped, Rejected}
      && (st[i] in {Running, Success, Failed} ==> CanStart(dag, st, i))
      && (st[i] == Skipped ==> dag.sources[i] != {} && Judge(dag, st, i) == ToSkip)
      && (st[i] == Success ==> ok[i])
      && (st[i] == Failed ==> !ok[i])
    else
      st[i] in {Queued, Blocked, Waiting, Skipped}
  }

  ghost predicate Inv(dag: Dag, ok: seq<bool>, st: seq<Status>) {
    && Fits(dag, st) && |ok| == |st|
    && forall i :: 0 <= i < |st| ==> Sound(dag, ok, st, i)
  }

  /** Later statuses: an enabled node that succeeded, failed or was skipped keeps that status. */
  ghost predicate Evolves(dag: Dag, a: seq<Status>, b: seq<Status>) {
    && Fits(dag, a) && Fits(dag, b)
    && forall i :: 0 <= i < |a| && dag.on[i] && a[i] in {Success, Failed, Skipped, Stopped} ==> b[i] == a[i]
  }

  /** A source once satisfied or impossible stays so, hence so does the decision taken from it. */
  lemma JudgementStays(dag: Dag, a: seq<Status>, b: seq<Status>, i: nat)
    requires Evolves(dag, a, b) && i < |a|
    ensures forall j :: 0 <= j < |a| && Met(dag, a, j) ==> Met(dag, b, j)
    ensures forall j :: 0 <= j < |a| && Dead(dag, a, j) ==> Dead(dag, b, j)
    ensures Judge(dag, a, i) in {ToQueue, ToSkip} && dag.sources[i] != {} ==> Judge(dag, b, i) == Judge(dag, a, i)
  {
    if dag.sources[i] != {} {
      var k :| k in dag.sources[i];
      assert Dead(dag, b, k) ==> !Met(dag, b, k);
    }
  }

  lemma Update(dag: Dag, ok: seq<bool>, st: seq<Status>, i: nat, s: Status)
    requires Inv(dag, ok, st) && i < |st|
    requires dag.on[i] && st[i] in {Success, Failed, Skipped} ==> s == st[i]
    requires Sound(dag, ok, st[i := s], i)
    ensures Evolves(dag, st, st[i := s]) && Inv(dag, ok, st[i := s])
  {
    var st' := st[i := s];
    assert Sound(dag, ok, st, i);
    assert Evolves(dag, st, st');
    forall k | 0 <= k < |st| ensures Sound(dag, ok, st', k) {
      JudgementStays(dag, st, st', k);
      assert Sound(dag, ok, st, k);
    }
  }

  /** A node does not depend on itself, so its own status does not matter to its judgement. */
  lemma OwnStatusIgnored(dag: Dag, rank: seq<nat>, st: seq<Status>, i: nat, s: Status)
    requires dag.Ranked(rank) && Fits(dag, st) && i < |st|
    ensures Judge(dag, st[i := s], i) == Judge(dag, st, i)
  {
    assert forall j :: j in dag.sources[i] ==> rank[j] < rank[i];
    assert forall j :: j in dag.sources[i] ==> Met(dag, st[i := s], j) == Met(dag, st, j) && Dead(dag, st[i := s], j) == Dead(dag, st, j);
  }

  /** No turn raises, and each keeps the invariant. */
  lemma TurnSafe(dag: Dag, rank: seq<nat>, ok: seq<bool>, st: seq<Status>, i: nat)
    requires dag.Ranked(rank) && Inv(dag, ok, st) && i < |st|
    ensures Turn(dag, st, i).Some?
    ensures Evolves(dag, st, st[i := Turn(dag, st, i).value]) && Inv(dag, ok, st[i := Turn(dag, st, i).value])
  {
    assert Sound(dag, ok, st, i);
    OwnStatusIgnored(dag, rank, st, i, Turn(dag, st, i).value);
    Update(dag, ok, st, i, Turn(dag, st, i).value);
  }

  lemma {:induction false} PassSafe(dag: Dag, rank: seq<nat>, ok: seq<bool>, st: seq<Status>, i: nat)
    requires dag.Ranked(rank) && Inv(dag, ok, st) && i <= |st|
    ensures PassFrom(dag, st, i).Some?
    ensures Inv(dag, ok, PassFrom(dag, st, i).value) && Evolves(dag, st, PassFrom(dag, st, i).value)
    decreases |st| - i
  {
    if i == |st| {
    } else {
      TurnSafe(dag, rank, ok, st, i);
      PassSafe(dag, rank, ok, st[i := Turn(dag, st, i).value], i + 1);
    }
  }

  // ---------------------------------------------------------------- the statuses at each turn

  function Mixed(before: seq<Status>, after: seq<Status>, k: nat): (r: seq<Status>)
    requires |before| == |after| && k <= |before|
    ensures |r| == |before| && forall i :: 0 <= i < |r| ==> r[i] == if i < k then after[i] else before[i]
  {
    after[..k] + before[k..]
  }

  lemma {:induction false} Turns(dag: Dag, before: seq<Status>, i: nat, after: seq<Status>)
    requires Fits(dag, before) && i <= |before| && PassFrom(dag, before, i) == Some(after)
    ensures forall k :: 0 <= k < i ==> after[k] == before[k]
    ensures forall k :: i <= k < |before| ==> Turn(dag, Mixed(before, after, k), k) == Some(after[k])
    decreases |before| - i
  {
    if i == |before| {
    } else {
      var next := before[i := Turn(dag, before, i).value];
      Turns(dag, next, i + 1, after);
      forall k | i <= k < |before| ensures Turn(dag, Mixed(before, after, k), k) == Some(after[k]) {
        assert k == i ==> Mixed(before, after, i) == before;
        assert k > i ==> Mixed(before, after, k) == Mixed(next, after, k);
      }
    }
  }

  // ---------------------------------------------------------------- the reference evaluation

  datatype Result = Ran(ok: bool) | NotRun

  /** A node runs when its policy holds over the results of its sources, disabled ones counting as satisfied. */
  ghost predicate Starts(dag: Dag, rank: seq<nat>, ok: seq<bool>, i: nat)
    requires dag.Ranked(rank) && |ok| == |rank| && i < |rank|
    decreases rank[i], 0
  {
    || dag.sources[i] == {}
    || (if dag.any[i] then exists j :: j in dag.sources[i] && Contributes(dag, rank, ok, j)
        else forall j :: j in dag.sources[i] ==> Contributes(dag, rank, ok, j))
  }

  ghost predicate Contributes(dag: Dag, rank: seq<nat>, ok: seq<bool>, j: nat)
    requires dag.Ranked(rank) && |ok| == |rank| && j < |rank|
    decreases rank[j], 1
  {
    !dag.on[j] || (Starts(dag, rank, ok, j) && ok[j])
  }

  ghost function Evaluate(dag: Dag, rank: seq<nat>, ok: seq<bool>, i: nat): Result
    requires dag.Ranked(rank) && |ok| == |rank| && i < |rank|
  {
    if dag.on[i] && Starts(dag, rank, ok, i) then Ran(ok[i]) else NotRun
  }

  function ResultOf(dag: Dag, st: seq<Status>, i: nat): Result
    requires Fits(dag, st) && i < |st|
  {
    if dag.on[i] && st[i] == Success then Ran(true)
    else if dag.on[i] && st[i] == Failed then Ran(false)
    else NotRun
  }

  /** A pass after which nothing is queued or running leaves exactly the evaluated results. */
  ghost predicate Quiet(dag: Dag, ok: seq<bool>, before: seq<Status>, after: seq<Status>) {
    && Inv(dag, ok, before)
    && PassFrom(dag, before, 0) == Some(after)
    && forall i :: 0 <= i < |after| && dag.on[i] ==> after[i] !in {Queued, Running}
  }

  lemma TurnGains(dag: Dag, st: seq<Status>, i: nat, s: Status)
    requires Fits(dag, st) && i < |st| && dag.on[i] && Turn(dag, st, i) == Some(s)
    ensures s == Success ==> st[i] == Success
    ensures s in {Success, Failed} ==> s == st[i]
    ensures s == Queued && dag.sources[i] != {} ==> Judge(dag, st, i) == ToQueue
    ensures s == Waiting && st[i] != Waiting ==> Judge(dag, st, i) == ToWait
    ensures s !in {Running, Rejected, Stopped, Success, Failed} ==> s in {Queued, Waiting, Skipped} || (s == st[i] && s == Blocked)
    ensures s in {Waiting, Skipped, Blocked} && st[i] !in {Rejected, Stopped} ==> dag.sources[i] != {} && Judge(dag, st, i) != ToQueue
  {
  }

  /** Nothing becomes a success during a pass, so what is satisfied at the end was satisfied at every turn. */
  lemma MetAtTurn(dag: Dag, before: seq<Status>, after: seq<Status>, i: nat)
    requires Fits(dag, before) && PassFrom(dag, before, 0) == Some(after) && i < |after|
    requires Evolves(dag, before, after)
    ensures forall j :: 0 <= j < |after| && Met(dag, after, j) ==> Met(dag, Mixed(before, after, i), j)
  {
    forall j | 0 <= j < |after| && Met(dag, after, j) ensures Met(dag, Mixed(before, after, i), j) {
      Turns(dag, before, 0, after);
      if dag.on[j] { TurnGains(dag, Mixed(before, after, j), j, after[j]); }
    }
  }

  lemma QueueableAtTurn(dag: Dag, before: seq<Status>, after: seq<Status>, i: nat)
    requires Fits(dag, before) && PassFrom(dag, before, 0) == Some(after) && i < |after|
    requires Evolves(dag, before, after) && dag.sources[i] != {} && Judge(dag, after, i) == ToQueue
    ensures Judge(dag, Mixed(before, after, i), i) == ToQueue
  {
    MetAtTurn(dag, before, after, i);
  }

  lemma QuietTurn(dag: Dag, rank: seq<nat>, ok: seq<bool>, before: seq<Status>, after: seq<Status>, i: nat)
    requires dag.Ranked(rank) && Quiet(dag, ok, before, after) && i < |after| && dag.on[i]
    ensures Inv(dag, ok, after) && Evolves(dag, before, after)
    ensures after[i] in {Success, Failed, Waiting, Skipped, Blocked}
    ensures after[i] in {Success, Failed} <==> CanStart(dag, after, i)
  {
    PassSafe(dag, rank, ok, before, 0);
    Turns(dag, before, 0, after);
    var mid := Mixed(before, after, i);
    assert Sound(dag, ok, after, i);
    assert Sound(dag, ok, before, i);
    assert mid[i] == before[i];
    TurnGains(dag, mid, i, after[i]);
    if dag.sources[i] != {} && Judge(dag, after, i) == ToQueue {
      QueueableAtTurn(dag, before, after, i);
    }
  }

  lemma {:induction false} QuietIsEvaluated(dag: Dag, rank: seq<nat>, ok: seq<bool>, before: seq<Status>, after: seq<Status>, i: nat)
    requires dag.Ranked(rank) && Quiet(dag, ok, before, after) && i < |after|
    ensures ResultOf(dag, after, i) == Evaluate(dag, rank, ok, i)
    decreases rank[i]
  {
    if !dag.on[i] {
    } else {
      QuietTurn(dag, rank, ok, before, after, i);
      forall j | j in dag.sources[i] ensures Met(dag, after, j) <==> Contributes(dag, rank, ok, j) {
        QuietIsEvaluated(dag, rank, ok, before, after, j);
      }
      assert CanStart(dag, after, i) <==> Starts(dag, rank, ok, i);
      assert Sound(dag, ok, after, i);
    }
  }

  // ---------------------------------------------------------------- item order and stuck nodes

  /** Some verdict can leave node i skipped: its disabled sources alone do not let it run. */
  predicate Skippable(dag: Dag, i: nat)
    requires dag.Shaped() && i < |dag.on|
  {
    && dag.on[i]
    && dag.sources[i] != {}
    && (if dag.any[i] then forall j :: j in dag.sources[i] ==> dag.on[j]
        else exists j :: j in dag.sources[i] && dag.on[j])
  }

  /** A node is listed before one of its sources, and both can be skipped. */
  predicate Inversion(dag: Dag, i: nat, j: nat)
    requires dag.Shaped()
  {
    i < j < |dag.on| && j in dag.sources[i] && Skippable(dag, i) && Skippable(dag, j)
  }

  predicate HasInversion(dag: Dag)
    requires dag.Shaped()
  {
    exists i, j :: 0 <= i < |dag.on| && j in dag.sources[i] && Inversion(dag, i, j)
  }

  lemma SkippedIsSkippable(dag: Dag, st: seq<Status>, i: nat)
    requires Fits(dag, st) && i < |st| && dag.on[i] && dag.sources[i] != {}
    ensures Judge(dag, st, i) != ToQueue ==> Skippable(dag, i)
  {
  }

  /** A source of a waiting node that was open at the node's turn. */
  lemma OpenSource(dag: Dag, st: seq<Status>, i: nat) returns (j: nat)
    requires Fits(dag, st) && i < |st| && Judge(dag, st, i) == ToWait
    ensures j in dag.sources[i] && !Met(dag, st, j) && !Dead(dag, st, j)
  {
    if dag.any[i] {
      j :| j in dag.sources[i] && !Dead(dag, st, j);
    } else {
      j :| j in dag.sources[i] && !Met(dag, st, j) && !Dead(dag, st, j);
    }
  }

  /** The source a node without an outcome was still waiting for when its turn came. */
  lemma AwaitedSource(dag: Dag, rank: seq<nat>, ok: seq<bool>, before: seq<Status>, after: seq<Status>, i: nat) returns (j: nat)
    requires dag.Ranked(rank) && Quiet(dag, ok, before, after) && i < |after| && dag.on[i]
    requires after[i] !in {Success, Failed, Skipped}
    ensures j in dag.sources[i] && dag.on[j] && j != i && Skippable(dag, i)
    ensures (if j < i then after[j] else before[j]) !in {Success, Failed, Skipped}
  {
    QuietTurn(dag, rank, ok, before, after, i);
    Turns(dag, before, 0, after);
    var mid := Mixed(before, after, i);
    assert Sound(dag, ok, before, i) && mid[i] == before[i];
    TurnGains(dag, mid, i, after[i]);
    WaitsAtTurn(dag, mid, i, after[i]);
    SkippedIsSkippable(dag, after, i);
    j := OpenSource(dag, mid, i);
    assert rank[j] < rank[i];
  }

  /** During a pass an enabled node can gain no outcome but a skip, and is skippable if it does. */
  lemma OutcomeGained(dag: Dag, rank: seq<nat>, ok: seq<bool>, before: seq<Status>, after: seq<Status>, j: nat)
    requires dag.Ranked(rank) && Quiet(dag, ok, before, after) && j < |after| && dag.on[j]
    requires before[j] !in {Success, Failed, Skipped} && after[j] in {Success, Failed, Skipped}
    ensures Skippable(dag, j)
  {
    PassSafe(dag, rank, ok, before, 0);
    Turns(dag, before, 0, after);
    var mid := Mixed(before, after, j);
    assert Turn(dag, mid, j) == Some(after[j]) && mid[j] == before[j];
    TurnGains(dag, mid, j, after[j]);
    assert Sound(dag, ok, after, j);
    SkippedIsSkippable(dag, after, j);
  }

  /** Without an inversion a quiet pass leaves every enabled node with an outcome. */
  lemma {:induction false} NoneStuck(dag: Dag, rank: seq<nat>, ok: seq<bool>, before: seq<Status>, after: seq<Status>, i: nat)
    requires dag.Ranked(rank) && Quiet(dag, ok, before, after) && i < |after| && dag.on[i]
    requires !HasInversion(dag)
    ensures after[i] in {Success, Failed, Skipped}
    decreases rank[i]
  {
    if after[i] !in {Success, Failed, Skipped} {
      var j := AwaitedSource(dag, rank, ok, before, after, i);
      NoneStuck(dag, rank, ok, before, after, j);
      OutcomeGained(dag, rank, ok, before, after, j);
      assert false;
    }
  }

  lemma WaitsAtTurn(dag: Dag, st: seq<Status>, i: nat, s: Status)
    requires Fits(dag, st) && i < |st| && dag.on[i] && Turn(dag, st, i) == Some(s)
    requires st[i] !in {Running, Success, Failed, Stopped, Rejected} && s in {Waiting, Blocked}
    ensures Judge(dag, st, i) == ToWait
  {
  }

  // ---------------------------------------------------------------- the run that gets stuck

  /** No enabled node has started or been skipped yet. */
  ghost predicate Fresh(dag: Dag, st: seq<Status>) {
    && Fits(dag, st)
    && forall i :: 0 <= i < |st| ==> st[i] in (if dag.on[i] then {Queued, Blocked, Waiting} else {Queued, Blocked, Waiting, Skipped})
  }

  lemma FreshIsInv(dag: Dag, ok: seq<bool>, st: seq<Status>)
    requires Fresh(dag, st) && |ok| == |st|
    ensures Inv(dag, ok, st)
  {
  }

  /** Everything that can be skipped waits, and everything else is in one of `others`. */
  ghost predicate Poised(dag: Dag, st: seq<Status>, skippable: set<Status>, others: set<Status>) {
    && Fits(dag, st)
    && forall i :: 0 <= i < |st| ==>
         if !dag.on[i] then st[i] in {Queued, Blocked, Waiting, Skipped}
         else if Skippable(dag, i) then st[i] in skippable else st[i] in others
  }

  lemma FirstTurn(dag: Dag, rank: seq<nat>, st: seq<Status>, i: nat)
    requires dag.Ranked(rank) && Fresh(dag, st) && i < |st|
    ensures Turn(dag, st, i) == Some(if !dag.on[i] then Skipped else if Skippable(dag, i) then Waiting else Queued)
  {
  }

  lemma {:induction false} FirstPass(dag: Dag, rank: seq<nat>, st: seq<Status>, i: nat)
    requires dag.Ranked(rank) && Fresh(dag, st) && i <= |st|
    ensures PassFrom(dag, st, i).Some?
    ensures var after := PassFrom(dag, st, i).value;
            && (forall k :: 0 <= k < i ==> after[k] == st[k])
            && (forall k :: i <= k < |st| ==>
                  after[k] == if !dag.on[k] then Skipped else if Skippable(dag, k) then Waiting else Queued)
    decreases |st| - i
  {
    if i == |st| {
    } else {
      FirstTurn(dag, rank, st, i);
      FirstPass(dag, rank, st[i := Turn(dag, st, i).value], i + 1);
    }
  }

  /** Nothing enabled is met while everything that ran has failed. */
  lemma NothingMet(dag: Dag, st: seq<Status>, i: nat)
    requires Poised(dag, st, {Queued, Waiting, Skipped}, {Failed}) && i < |st| && Skippable(dag, i)
    ensures Judge(dag, st, i) != ToQueue
    ensures (exists j :: j in dag.sources[i] && Skippable(dag, j) && st[j] in {Queued, Waiting}) ==> Judge(dag, st, i) == ToWait
  {
    assert forall j :: j in dag.sources[i] && dag.on[j] ==> !Met(dag, st, j);
    if dag.any[i] {
      assert forall j :: j in dag.sources[i] ==> !Met(dag, st, j);
    } else {
      var j :| j in dag.sources[i] && dag.on[j];
      assert !Met(dag, st, j);
    }
  }

  lemma LastTurn(dag: Dag, st: seq<Status>, i: nat)
    requires Poised(dag, st, {Queued, Waiting, Skipped}, {Failed}) && i < |st|
    requires dag.on[i] && Skippable(dag, i) && st[i] in {Queued, Waiting}
    ensures Turn(dag, st, i).Some? && Turn(dag, st, i).value in {Waiting, Skipped}
    ensures (exists j :: j in dag.sources[i] && Skippable(dag, j) && st[j] in {Queued, Waiting}) ==>
              Turn(dag, st, i) == Some(Waiting)
  {
    NothingMet(dag, st, i);
  }

  /** All that ran has failed: the pass queues nothing, and a node listed before a skippable source waits for ever. */
  lemma {:induction false} LastPass(dag: Dag, st: seq<Status>, i: nat)
    requires Poised(dag, st, {Queued, Waiting, Skipped}, {Failed}) && i <= |st|
    requires forall k :: i <= k < |st| && dag.on[k] && Skippable(dag, k) ==> st[k] in {Queued, Waiting}
    ensures PassFrom(dag, st, i).Some?
    ensures var after := PassFrom(dag, st, i).value;
            && (forall k :: 0 <= k < i ==> after[k] == st[k])
            && (forall k :: i <= k < |st| && dag.on[k] ==> after[k] in {Waiting, Skipped, Failed})
            && (forall a: nat, b: nat :: i <= a && Inversion(dag, a, b) ==> after[a] == Waiting)
    decreases |st| - i
  {
    if i == |st| {
    } else {
      if dag.on[i] && Skippable(dag, i) { LastTurn(dag, st, i); }
      assert Turn(dag, st, i).Some?;
      var next := st[i := Turn(dag, st, i).value];
      assert Poised(dag, next, {Queued, Waiting, Skipped}, {Failed});
      hide Turn, Poised;
      LastPass(dag, next, i + 1);
      forall a: nat, b: nat | i <= a && Inversion(dag, a, b) ensures PassFrom(dag, st, i).value[a] == Waiting {
        if a == i { assert Skippable(dag, b) && b in dag.sources[i] && st[b] in {Queued, Waiting}; }
      }
    }
  }

  // ---------------------------------------------------------------- items listed in topological order

  lemma {:induction false} FixedPass(dag: Dag, st: seq<Status>, i: nat)
    requires Fits(dag, st) && i <= |st|
    requires forall k :: i <= k < |st| ==> Turn(dag, st, k) == Some(st[k])
    ensures PassFrom(dag, st, i) == Some(st)
    decreases |st| - i
  {
    if i == |st| {
    } else {
      assert st[i := st[i]] == st;
      FixedPass(dag, st, i + 1);
    }
  }

  lemma SettledTurn(dag: Dag, st: seq<Status>, i: nat, s: Status)
    requires Fits(dag, st) && i < |st| && Turn(dag, st, i) == Some(s)
    requires dag.on[i] ==> st[i] !in {Rejected, Stopped}
    requires Judge(dag, st[i := s], i) == Judge(dag, st, i)
    ensures Turn(dag, st[i := s], i) == Some(s)
  {
  }

  /** With every source listed before the nodes that need it, a second pass changes nothing. */
  lemma PassIdempotent(dag: Dag, rank: seq<nat>, ok: seq<bool>, before: seq<Status>, after: seq<Status>)
    requires dag.Ranked(rank) && Inv(dag, ok, before) && PassFrom(dag, before, 0) == Some(after)
    requires forall i, j :: 0 <= i < |dag.on| && j in dag.sources[i] ==> j < i
    ensures PassFrom(dag, after, 0) == Some(after)
  {
    Turns(dag, before, 0, after);
    forall k | 0 <= k < |after| ensures Turn(dag, after, k) == Some(after[k]) {
      var mid := Mixed(before, after, k);
      assert Sound(dag, ok, before, k) && mid[k] == before[k];
      OwnStatusIgnored(dag, rank, mid, k, after[k]);
      SettledTurn(dag, mid, k, after[k]);
      SameJudgement(dag, mid[k := after[k]], after, k);
    }
    FixedPass(dag, after, 0);
  }

  lemma SameJudgement(dag: Dag, a: seq<Status>, b: seq<Status>, k: nat)
    requires Fits(dag, a) && Fits(dag, b) && k < |a| && a[k] == b[k]
    requires forall j :: j in dag.sources[k] ==> a[j] == b[j]
    ensures Judge(dag, a, k) == Judge(dag, b, k) && Turn(dag, a, k) == Turn(dag, b, k)
  {
    assert forall j :: j in dag.sources[k] ==> Met(dag, a, j) == Met(dag, b, j) && Dead(dag, a, j) == Dead(dag, b, j);
  }

  // ---------------------------------------------------------------- launches and promotions

  predicate Unstarted(s: Status) { s in {Queued, Blocked, Waiting, Skipped} }

  /** A pass starts and stops nothing. */
  lemma PassStartsNothing(dag: Dag, rank: seq<nat>, ok: seq<bool>, before: seq<Status>, after: seq<Status>, i: nat)
    requires dag.Ranked(rank) && Inv(dag, ok, before) && PassFrom(dag, before, 0) == Some(after) && i < |after|
    ensures after[i] == Running <==> before[i] == Running
    ensures Unstarted(after[i]) ==> Unstarted(before[i])
    ensures dag.on[i] && after[i] == Queued ==> CanStart(dag, after, i)
  {
    PassSafe(dag, rank, ok, before, 0);
    Turns(dag, before, 0, after);
    var mid := Mixed(before, after, i);
    assert Sound(dag, ok, before, i) && mid[i] == before[i];
    if dag.on[i] {
      TurnGains(dag, mid, i, after[i]);
      assert Evolves(dag, mid, after);
      JudgementStays(dag, mid, after, i);
    }
  }

  /** A queued node that may start is set running. */
  lemma StartKeepsInv(dag: Dag, rank: seq<nat>, ok: seq<bool>, st: seq<Status>, i: nat)
    requires dag.Ranked(rank) && Inv(dag, ok, st) && i < |st| && dag.on[i] && st[i] == Queued && CanStart(dag, st, i)
    ensures Inv(dag, ok, st[i := Running]) && Evolves(dag, st, st[i := Running])
  {
    OwnStatusIgnored(dag, rank, st, i, Running);
    Update(dag, ok, st, i, Running);
  }

  lemma EndKeepsInv(dag: Dag, rank: seq<nat>, ok: seq<bool>, st: seq<Status>, i: nat)
    requires dag.Ranked(rank) && Inv(dag, ok, st) && i < |st| && st[i] == Running
    ensures var s := if ok[i] then Success else Failed;
            Inv(dag, ok, st[i := s]) && Evolves(dag, st, st[i := s])
  {
    assert Sound(dag, ok, st, i);
    OwnStatusIgnored(dag, rank, st, i, if ok[i] then Success else Failed);
    Update(dag, ok, st, i, if ok[i] then Success else Failed);
  }

  /** No enabled node is skipped while one of its sources runs, so none is promoted out of its skip. */
  lemma RunningSourceMeansNotSkipped(dag: Dag, ok: seq<bool>, st: seq<Status>, i: nat, k: nat)
    requires Inv(dag, ok, st) && i < |st| && k < |st| && i in dag.sources[k] && st[i] == Running
    ensures dag.on[k] ==> st[k] != Skipped
  {
    assert Sound(dag, ok, st, i) && Sound(dag, ok, st, k);
    assert !Met(dag, st, i) && !Dead(dag, st, i);
  }

  /** Promotion queues unstarted nodes, and no enabled one that was skipped. */
  ghost predicate Promotes(dag: Dag, a: seq<Status>, b: seq<Status>) {
    && Fits(dag, a) && Fits(dag, b)
    && forall k :: 0 <= k < |a| ==>
         b[k] == a[k] || (b[k] == Queued && (if dag.on[k] then a[k] in {Blocked, Waiting} else Unstarted(a[k])))
  }

  lemma PromotionKeepsInv(dag: Dag, ok: seq<bool>, a: seq<Status>, b: seq<Status>)
    requires Inv(dag, ok, a) && Promotes(dag, a, b)
    ensures Inv(dag, ok, b) && Evolves(dag, a, b)
  {
    forall k | 0 <= k < |a| ensures Sound(dag, ok, b, k) {
      JudgementStays(dag, a, b, k);
      assert Sound(dag, ok, a, k);
    }
  }
}
