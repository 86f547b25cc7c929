/** Running a list of items batch by batch, with loops that outlive a cancel. */
module BatchController {
  import opened Common
  import opened Numbers
  import opened Runs

  const DEFAULT_BATCH_SIZE: nat := 10
  const MAX_BATCH_SIZE: nat := 200

  datatype Status = Idle | Running | Completed | Failed | Stopped

  datatype Snapshot = Snapshot(
    status: Status,
    batchSize: nat,
    totalItems: nat,
    totalBatches: nat,
    processedItems: nat,
    processedBatches: nat,
    nextBatchIndex: nat,
    currentBatchIndex: Option<nat>,
    currentBatchItems: seq<string>,
    lastBatchItems: seq<string>,
    error: Option<string>,
    stopRequested: bool)

  const IDLE := Snapshot(Idle, DEFAULT_BATCH_SIZE, 0, 0, 0, 0, 1, None, [], [], None, false)

  function ClampBatchSize(n: Number): (size: nat)
    ensures 1 <= size <= MAX_BATCH_SIZE
    ensures n.NotFinite? ==> size == 10
    ensures n.Finite? && n.value < 1.0 ==> size == 1
    ensures n.Finite? && n.value >= 200.0 ==> size == 200
    ensures n.Finite? && 1.0 <= n.value < 200.0 ==> size as real <= n.value < size as real + 1.0
  {
    Clamped(n, 1, MAX_BATCH_SIZE, DEFAULT_BATCH_SIZE)
  }

  function ClampStartIndex(n: Number, total: nat): (start: nat)
    ensures start <= total
    ensures n.NotFinite? || n.value < 0.0 ==> start == 0
    ensures n.Finite? && n.value >= total as real ==> start == total
    ensures n.Finite? && 0.0 <= n.value < total as real ==> start as real <= n.value < start as real + 1.0
  {
    Clamped(n, 0, total, 0)
  }

  /** An unfinished loop: it awaits `batch` and holds what comes after. */
  datatype Loop = Loop(token: nat, batch: seq<string>, queue: seq<string>)

  datatype Call = Call(token: nat, batchIndex: nat, items: seq<string>)

  /**
   * The controller with its unfinished loops.  The rest is history: `calls` made to execute a batch,
   * and of the latest run its items, the index it started from and the batches it has begun.
   */
  datatype State = State(
    snapshot: Snapshot,
    runToken: nat,
    hasBatchErrors: bool,
    loops: seq<Loop>,
    calls: seq<Call>,
    items: seq<string>,
    startIndex: nat,
    batches: seq<seq<string>>)

  const INITIAL := State(IDLE, 0, false, [], [], [], 0, [])

  datatype BatchResult = Ok | SoftFailure(error: Option<string>) | HardStop(error: Option<string>) | Threw(message: string)

  // ---------------------------------------------------------------- what each action does

  function Between(snapshot: Snapshot): Snapshot {
    snapshot.(currentBatchIndex := None, currentBatchItems := [])
  }

  function Ceil(n: nat, b: nat): nat
    requires b >= 1
  {
    (n + b - 1) / b
  }

  function FirstBatch(queue: seq<string>, size: nat): seq<string> {
    if size <= |queue| then queue[..size] else queue
  }

  /** The loop from its head to the next await, or to its end. */
  function GoOn(s: State, token: nat, queue: seq<string>): State {
    if token != s.runToken then s
    else if queue == [] then
      s.(snapshot := Between(s.snapshot).(status := if s.hasBatchErrors then Failed else Completed,
                                          nextBatchIndex := s.snapshot.processedBatches + 1))
    else if s.snapshot.stopRequested then s.(snapshot := s.snapshot.(status := Stopped))
    else
      var batch := FirstBatch(queue, s.snapshot.batchSize);
      var index := s.snapshot.processedBatches + 1;
      s.(snapshot := s.snapshot.(currentBatchIndex := Some(index), currentBatchItems := batch, lastBatchItems := batch),
         loops := s.loops + [Loop(token, batch, queue[|batch|..])],
         calls := s.calls + [Call(token, index, batch)],
         batches := s.batches + [batch])
  }

  predicate Refused(s: State, items: seq<string>) { s.snapshot.status == Running || items == [] }

  function Begun(total: nat, b: nat, start: nat): Snapshot
    requires b >= 1
  {
    Snapshot(Running, b, total, Ceil(total, b), start, start / b, start / b + 1, None, [], [], None, false)
  }

  /** A new run before its loop takes the first step. */
  function Opened(s: State, items: seq<string>, b: nat, start: nat): State
    requires b >= 1
  {
    s.(snapshot := Begun(|items|, b, start), runToken := s.runToken + 1, hasBatchErrors := false,
       items := items, startIndex := start, batches := [])
  }

  function Start(s: State, items: seq<string>, size: Number, from: Number): State {
    if Refused(s, items) then s
    else
      var start := ClampStartIndex(from, |items|);
      GoOn(Opened(s, items, ClampBatchSize(size), start), s.runToken + 1, items[start..])
  }

  function Stop(s: State): State {
    if s.snapshot.status != Running then s else s.(snapshot := s.snapshot.(stopRequested := true))
  }

  function Cancel(s: State): State {
    if s.snapshot.status != Running then s
    else s.(runToken := s.runToken + 1, snapshot := Between(s.snapshot).(status := Stopped, stopRequested := false))
  }

  function Counted(snapshot: Snapshot, batch: seq<string>): Snapshot {
    Between(snapshot).(
      processedBatches := snapshot.processedBatches + 1,
      processedItems := snapshot.processedItems + |batch|,
      nextBatchIndex := snapshot.processedBatches + 2)
  }

  /** The awaited batch of loop `k` has ended, and the loop runs on. */
  function BatchEnds(s: State, k: nat, result: BatchResult): State
    requires k < |s.loops|
  {
    var loop := s.loops[k];
    var rest := s.(loops := s.loops[..k] + s.loops[k + 1..]);
    if loop.token != s.runToken then rest
    else
      match result
      case Threw(message) =>
        rest.(hasBatchErrors := true, snapshot := Between(s.snapshot).(status := Failed, error := Some(message)))
      case Ok => GoOn(rest.(snapshot := Counted(s.snapshot, loop.batch)), loop.token, loop.queue)
      case SoftFailure(error) =>
        GoOn(rest.(hasBatchErrors := true, snapshot := Counted(s.snapshot, loop.batch).(error := OrDefault(error))), loop.token, loop.queue)
      case HardStop(error) =>
        rest.(hasBatchErrors := true, snapshot := Counted(s.snapshot, loop.batch).(error := OrDefault(error), status := Failed))
  }

  function OrDefault(error: Option<string>): Option<string> {
    if error.Some? then error else Some("batch_execute_failed")
  }

  // ---------------------------------------------------------------- the controller object

  class Controller {
    var snapshot: Snapshot
    var runToken: nat
    var hasBatchErrors: bool
    var loops: seq<Loop>
    ghost var calls: seq<Call>
    ghost var items: seq<string>
    ghost var startIndex: nat
    ghost var batches: seq<seq<string>>

    ghost function Now(): State
      reads this
    {
      State(snapshot, runToken, hasBatchErrors, loops, calls, items, startIndex, batches)
    }

    constructor ()
      ensures Now() == INITIAL
    {
      snapshot, runToken, hasBatchErrors, loops := IDLE, 0, false, [];
      calls, items, startIndex, batches := [], [], 0, [];
    }

    method RunLoop(token: nat, queue: seq<string>)
      modifies this
      ensures Now() == GoOn(old(Now()), token, queue)
    {
      if token != runToken { return; }
      if queue != [] {
        if snapshot.stopRequested {
          snapshot := snapshot.(status := Stopped);
          return;
        }
        var batch := FirstBatch(queue, snapshot.batchSize);
        var index := snapshot.processedBatches + 1;
        snapshot := snapshot.(currentBatchIndex := Some(index), currentBatchItems := batch, lastBatchItems := batch);
        loops := loops + [Loop(token, batch, queue[|batch|..])];
        calls, batches := calls + [Call(token, index, batch)], batches + [batch];
        return;
      }
      snapshot := snapshot.(status := if hasBatchErrors then Failed else Completed, currentBatchIndex := None,
        currentBatchItems := [], nextBatchIndex := snapshot.processedBatches + 1);
    }

    /**
     * Refused while a run is under way, or without items.  Otherwise a new loop awaits the first batch from the start
     * index, unless that lies at the end: then the run is over without a call.  Older loops lose their token.
     */
    method StartRun(newItems: seq<string>, size: Number, from: Number) returns (ok: bool)
      requires OneLive(Now())
      modifies this
      ensures ok <==> old(snapshot).status != Running && newItems != []
      ensures Now() == Start(old(Now()), newItems, size, from) && OneLive(Now())
      ensures !ok ==> Now() == old(Now())
      ensures ok ==> var b, start := ClampBatchSize(size), ClampStartIndex(from, |newItems|);
                if start == |newItems| then snapshot.status == Completed && loops == old(loops) && calls == old(calls)
                else
                  var end := if start + b <= |newItems| then start + b else |newItems|;
                  && snapshot.status == Running
                  && loops == old(loops) + [Loop(runToken, newItems[start..end], newItems[end..])]
                  && calls == old(calls) + [Call(runToken, start / b + 1, newItems[start..end])]
    {
      if snapshot.status == Running { return false; }
      if |newItems| == 0 { return false; }
      StartMeans(Now(), newItems, size, from);
      StartOneLive(Now(), newItems, size, from);
      hide GoOn, OneLive;
      var b := ClampBatchSize(size);
      var start := ClampStartIndex(from, |newItems|);
      runToken := runToken + 1;
      hasBatchErrors := false;
      snapshot := Begun(|newItems|, b, start);
      items, startIndex, batches := newItems, start, [];
      RunLoop(runToken, newItems[start..]);
      return true;
    }

    /** After a stop no loop makes another call, however the batch it awaits ends. */
    method StopRun() returns (ok: bool)
      requires OneLive(Now())
      modifies this`snapshot
      ensures ok <==> old(snapshot).status == Running
      ensures Now() == Stop(old(Now())) && OneLive(Now())
      ensures ok ==> forall k, result :: 0 <= k < |loops| ==> BatchEnds(Now(), k, result).calls == calls
    {
      StopOneLive(Now());
      if snapshot.status != Running { return false; }
      snapshot := snapshot.(stopRequested := true);
      return true;
    }

    /** After a cancel no loop holds the token any more, so whatever ends only makes its loop disappear. */
    method CancelRun() returns (ok: bool)
      requires OneLive(Now())
      modifies this`snapshot, this`runToken
      ensures ok <==> old(snapshot).status == Running
      ensures Now() == Cancel(old(Now())) && OneLive(Now())
      ensures NoneLive(Now()) && snapshot.status != Running
      ensures forall k, result :: 0 <= k < |loops| ==>
                BatchEnds(Now(), k, result) == Now().(loops := loops[..k] + loops[k + 1..])
    {
      CancelRetires(Now());
      if snapshot.status != Running { return false; }
      runToken := runToken + 1;
      snapshot := snapshot.(status := Stopped, currentBatchIndex := None, currentBatchItems := [], stopRequested := false);
      return true;
    }

    /** What a loop does when the batch it awaits has ended. */
    method AfterBatch(k: nat, result: BatchResult)
      requires k < |loops|
      modifies this
      ensures Now() == BatchEnds(old(Now()), k, result)
    {
      var loop := loops[k];
      loops := loops[..k] + loops[k + 1..];
      if loop.token != runToken { return; }
      if result.Threw? {
        hasBatchErrors := true;
        snapshot := snapshot.(status := Failed, currentBatchIndex := None, currentBatchItems := [], error := Some(result.message));
        return;
      }
      snapshot := snapshot.(
        processedBatches := snapshot.processedBatches + 1,
        processedItems := snapshot.processedItems + |loop.batch|,
        nextBatchIndex := snapshot.processedBatches + 2,
        currentBatchIndex := None,
        currentBatchItems := []);
      if !result.Ok? {
        hasBatchErrors := true;
        snapshot := snapshot.(error := OrDefault(result.error));
        if result.HardStop? {
          snapshot := snapshot.(status := Failed);
          return;
        }
      }
      RunLoop(loop.token, loop.queue);
    }
  }

  /** What a start makes of the controller, in terms of the items. */
  lemma StartMeans(s: State, items: seq<string>, size: Number, from: Number)
    requires !Refused(s, items)
    ensures var t, b, start := Start(s, items, size, from), ClampBatchSize(size), ClampStartIndex(from, |items|);
            && t.runToken == s.runToken + 1
            && if start == |items| then t.snapshot.status == Completed && t.loops == s.loops && t.calls == s.calls
               else
                 var end := if start + b <= |items| then start + b else |items|;
                 && t.snapshot.status == Running
                 && t.loops == s.loops + [Loop(t.runToken, items[start..end], items[end..])]
                 && t.calls == s.calls + [Call(t.runToken, start / b + 1, items[start..end])]
  {
    var b, start := ClampBatchSize(size), ClampStartIndex(from, |items|);
    var queue := items[start..];
    if start < |items| {
      var end := if start + b <= |items| then start + b else |items|;
      assert FirstBatch(queue, b) == items[start..end] && queue[end - start..] == items[end..];
    }
  }

  lemma CancelRetires(s: State)
    requires OneLive(s)
    ensures NoneLive(Cancel(s)) && OneLive(Cancel(s))
  {
    forall k | 0 <= k < |s.loops| ensures s.loops[k].token < Cancel(s).runToken {
      assert s.snapshot.status != Running ==> !Live(s, k);
    }
  }

  /**
   * A turn of a loop makes a call, the next one in number, exactly when its token is current, items are left and
   * no stop is wanted.
   */
  lemma TurnConserves(s: State, token: nat, queue: seq<string>)
    requires s.snapshot.batchSize >= 1
    ensures var t := GoOn(s, token, queue);
            if token == s.runToken && queue != [] && !s.snapshot.stopRequested then
              exists batch, rest :: Takes(s, t, token, queue, batch, rest)
            else t.calls == s.calls && t.loops == s.loops
  {
    if queue != [] && token == s.runToken && !s.snapshot.stopRequested {
      var batch := FirstBatch(queue, s.snapshot.batchSize);
      assert Takes(s, GoOn(s, token, queue), token, queue, batch, queue[|batch|..]);
    }
  }

  /** A loop awaits `batch` and holds `rest`: together the queue, in a full batch unless it is the last. */
  ghost predicate Takes(s: State, t: State, token: nat, queue: seq<string>, batch: seq<string>, rest: seq<string>) {
    && t.loops == s.loops + [Loop(token, batch, rest)] && batch + rest == queue
    && 1 <= |batch| <= s.snapshot.batchSize && (rest != [] ==> |batch| == s.snapshot.batchSize)
    && t.calls == s.calls + [Call(token, s.snapshot.processedBatches + 1, batch)]
  }

  /**
   * When a batch ends: the counts grow exactly if its loop is current and the batch did not throw, and the run goes on
   * exactly if besides it did not ask to halt, items are left and no stop is wanted.
   */
  lemma BatchEndsExactly(s: State, k: nat, result: BatchResult)
    requires OneLive(s) && k < |s.loops|
    ensures var t, loop := BatchEnds(s, k, result), s.loops[k];
            var current := loop.token == s.runToken;
            && (t.snapshot.processedItems == s.snapshot.processedItems + if current && !result.Threw? then |loop.batch| else 0)
            && (t.snapshot.processedBatches == s.snapshot.processedBatches + if current && !result.Threw? then 1 else 0)
            && (t.calls != s.calls <==>
                  current && (result.Ok? || result.SoftFailure?) && loop.queue != [] && !s.snapshot.stopRequested)
            && (current ==> (t.snapshot.status == Running <==> t.calls != s.calls))
            && (current && result.Ok? && loop.queue == [] ==> t.snapshot.status == if s.hasBatchErrors then Failed else Completed)
  {
    assert Live(s, k) <==> s.loops[k].token == s.runToken;
  }

  // ---------------------------------------------------------------- histories

  datatype Input =
    | DoStart(items: seq<string>, size: Number, from: Number)
    | DoStop
    | DoCancel
    | DoBatchEnds(k: nat, result: BatchResult)

  predicate Allowed(s: State, input: Input) { input.DoBatchEnds? ==> input.k < |s.loops| }

  function Step(s: State, input: Input): State
    requires Allowed(s, input)
  {
    match input
    case DoStart(items, size, from) => Start(s, items, size, from)
    case DoStop => Stop(s)
    case DoCancel => Cancel(s)
    case DoBatchEnds(k, result) => BatchEnds(s, k, result)
  }

  ghost predicate Next(a: State, b: State) {
    exists input :: Allowed(a, input) && b == Step(a, input)
  }

  ghost predicate IsHistory(states: seq<State>) {
    Linked(states, (a: State, b: State) => Next(a, b)) && states[0] == INITIAL
  }

  // ---------------------------------------------------------------- one loop at a time

  predicate Live(s: State, k: nat)
    requires k < |s.loops|
  {
    s.loops[k].token == s.runToken
  }

  /** Status running means exactly one unfinished loop with the current token, any other status means none. */
  ghost predicate OneLive(s: State) {
    && (forall k :: 0 <= k < |s.loops| ==> s.loops[k].token <= s.runToken)
    && (s.snapshot.status == Running <==> exists k :: 0 <= k < |s.loops| && Live(s, k))
    && (forall i, j :: 0 <= i < |s.loops| && 0 <= j < |s.loops| && Live(s, i) && Live(s, j) ==> i == j)
  }

  /** Nobody holds the current token. */
  ghost predicate NoneLive(s: State) {
    forall k :: 0 <= k < |s.loops| ==> s.loops[k].token < s.runToken
  }

  lemma GoOnOneLive(s: State, queue: seq<string>)
    requires NoneLive(s) && s.snapshot.status == Running
    ensures OneLive(GoOn(s, s.runToken, queue))
  {
    var t := GoOn(s, s.runToken, queue);
    if t.snapshot.status == Running { assert Live(t, |s.loops|); }
  }

  lemma OthersNotLive(s: State, k: nat)
    requires OneLive(s) && k < |s.loops| && Live(s, k)
    ensures NoneLive(s.(loops := s.loops[..k] + s.loops[k + 1..]))
  {
    var rest := s.loops[..k] + s.loops[k + 1..];
    forall i | 0 <= i < |rest| ensures rest[i].token < s.runToken {
      var j := if i < k then i else i + 1;
      assert rest[i] == s.loops[j] && j != k && !Live(s, j);
    }
  }

  lemma StaleOneLive(s: State, k: nat)
    requires OneLive(s) && k < |s.loops| && !Live(s, k)
    ensures OneLive(s.(loops := s.loops[..k] + s.loops[k + 1..]))
  {
    var t := s.(loops := s.loops[..k] + s.loops[k + 1..]);
    forall i | 0 <= i < |t.loops| ensures Live(t, i) == Live(s, Before(i, k)) && t.loops[i].token <= s.runToken {
      assert t.loops[i] == s.loops[Before(i, k)];
    }
    if s.snapshot.status == Running {
      var j :| 0 <= j < |s.loops| && Live(s, j);
      assert Live(t, if j < k then j else j - 1);
    }
    forall i, j | 0 <= i < |t.loops| && 0 <= j < |t.loops| && Live(t, i) && Live(t, j) ensures i == j {
      assert Before(i, k) == Before(j, k);
    }
  }

  /** Where a loop stood before loop `k` left the list. */
  function Before(i: nat, k: nat): nat { if i < k then i else i + 1 }

  lemma EndsOneLive(s: State, k: nat, result: BatchResult)
    requires OneLive(s) && k < |s.loops|
    ensures OneLive(BatchEnds(s, k, result))
  {
    if Live(s, k) {
      OthersNotLive(s, k);
      var rest := s.(loops := s.loops[..k] + s.loops[k + 1..]);
      var counted := Counted(s.snapshot, s.loops[k].batch);
      match result
      case Threw(message) =>
      case HardStop(error) =>
      case Ok => GoOnOneLive(rest.(snapshot := counted), s.loops[k].queue);
      case SoftFailure(error) =>
        GoOnOneLive(rest.(hasBatchErrors := true, snapshot := counted.(error := OrDefault(error))), s.loops[k].queue);
    } else {
      StaleOneLive(s, k);
    }
  }

  lemma StepOneLive(s: State, input: Input)
    requires OneLive(s) && Allowed(s, input)
    ensures OneLive(Step(s, input))
  {
    match input
    case DoStart(items, size, from) =>
      if !Refused(s, items) { StartOneLive(s, items, size, from); }
    case DoStop => StopOneLive(s);
    case DoCancel =>
    case DoBatchEnds(k, result) => EndsOneLive(s, k, result);
  }

  lemma StopOneLive(s: State)
    requires OneLive(s)
    ensures OneLive(Stop(s))
  {
    forall k | 0 <= k < |s.loops| ensures Live(Stop(s), k) == Live(s, k) {}
  }

  lemma StartOneLive(s: State, items: seq<string>, size: Number, from: Number)
    requires OneLive(s) && !Refused(s, items)
    ensures OneLive(Start(s, items, size, from))
  {
    var start := ClampStartIndex(from, |items|);
    GoOnOneLive(Opened(s, items, ClampBatchSize(size), start), items[start..]);
  }

  /** In every history the status is running exactly while one unfinished loop holds the current token. */
  lemma RunningMeansOneLoop(states: seq<State>, n: nat)
    requires IsHistory(states) && n < |states|
    ensures OneLive(states[n])
  {
    var next, inv := (a: State, b: State) => Next(a, b), (s: State) => OneLive(s);
    forall a, b | inv(a) && next(a, b) ensures inv(b) {
      var input :| Allowed(a, input) && b == Step(a, input);
      StepOneLive(a, input);
    }
    Invariance(states, next, inv);
    assert inv(states[n]);
  }

  // ---------------------------------------------------------------- stale loops, and stopping

  /** What a loop with an old token does when its batch ends: it goes away. */
  lemma StaleIsInert(s: State, k: nat, result: BatchResult)
    requires k < |s.loops| && !Live(s, k)
    ensures BatchEnds(s, k, result) == s.(loops := BatchEnds(s, k, result).loops)
  {
  }

  /** The token never goes back, and only holders of the current token call for a batch. */
  ghost predicate CallsGrow(a: State, b: State) {
    && a.runToken <= b.runToken
    && a.calls <= b.calls
    && forall c :: c in b.calls[|a.calls|..] ==> a.runToken <= c.token <= b.runToken
  }

  lemma CallsGrowTransitive(a: State, b: State, c: State)
    requires CallsGrow(a, b) && CallsGrow(b, c)
    ensures CallsGrow(a, c)
  {
    forall x | x in c.calls[|a.calls|..] ensures a.runToken <= x.token <= c.runToken {
      var i :| 0 <= i < |c.calls| - |a.calls| && c.calls[|a.calls|..][i] == x;
      if |a.calls| + i < |b.calls| {
        assert b.calls[|a.calls|..][i] == x;
      } else {
        assert c.calls[|b.calls|..][|a.calls| + i - |b.calls|] == x;
      }
    }
  }

  lemma GoOnCallsGrow(s: State, token: nat, queue: seq<string>)
    ensures CallsGrow(s, GoOn(s, token, queue))
  {
  }

  lemma StepCallsGrow(s: State, input: Input)
    requires Allowed(s, input)
    ensures CallsGrow(s, Step(s, input))
  {
    match input
    case DoBatchEnds(k, result) =>
      if Live(s, k) && (result.Ok? || result.SoftFailure?) {
        GoOnCallsGrow(Resumed(s, k, result), s.runToken, s.loops[k].queue);
      }
    case DoStart(items, size, from) =>
    case DoStop =>
    case DoCancel =>
  }

  /** A loop whose token is no longer the current one never has another batch executed. */
  lemma StaleNeverCalls(states: seq<State>, i: nat, j: nat, token: nat)
    requires IsHistory(states) && i <= j < |states| && token < states[i].runToken
    ensures states[i].calls <= states[j].calls
    ensures forall c :: c in states[j].calls[|states[i].calls|..] ==> c.token != token
  {
    var next, inv, rel := (a: State, b: State) => Next(a, b), (s: State) => true, (a: State, b: State) => CallsGrow(a, b);
    forall a, b | inv(a) && next(a, b) ensures inv(b) && rel(a, b) {
      var input :| Allowed(a, input) && b == Step(a, input);
      StepCallsGrow(a, input);
    }
    forall a, b, c | rel(a, b) && rel(b, c) ensures rel(a, c) { CallsGrowTransitive(a, b, c); }
    Persistence(states, next, inv, rel, i, j);
    assert rel(states[i], states[j]);
  }

  /** No batch begins from here on without a new start. */
  predicate Halted(s: State) { s.snapshot.status != Running || s.snapshot.stopRequested }

  lemma HaltedStays(s: State, input: Input)
    requires OneLive(s) && Halted(s) && Allowed(s, input) && !input.DoStart?
    ensures Halted(Step(s, input)) && Step(s, input).calls == s.calls
  {
    if input.DoBatchEnds? && Live(s, input.k) { assert s.snapshot.status == Running; }
  }

  /** Any step but a start. */
  ghost predicate NextWithoutStart(a: State, b: State) {
    exists input :: Allowed(a, input) && !input.DoStart? && b == Step(a, input)
  }

  /** Once a stop has been asked for, whatever happens but a start executes no further batch. */
  lemma StopHalts(states: seq<State>, n: nat, after: seq<State>, j: nat)
    requires IsHistory(states) && n < |states|
    requires Linked(after, (a: State, b: State) => NextWithoutStart(a, b)) && after[0] == Stop(states[n])
    requires j < |after|
    ensures after[j].calls == states[n].calls
  {
    var next, inv, rel :=
      (a: State, b: State) => NextWithoutStart(a, b), (s: State) => OneLive(s) && Halted(s), (a: State, b: State) => a.calls == b.calls;
    RunningMeansOneLoop(states, n);
    StopOneLive(states[n]);
    forall a, b | inv(a) && next(a, b) ensures inv(b) && rel(a, b) {
      var input :| Allowed(a, input) && !input.DoStart? && b == Step(a, input);
      StepOneLive(a, input);
      HaltedStays(a, input);
    }
    Persistence(after, next, inv, rel, 0, j);
    assert rel(after[0], after[j]);
  }

  // ---------------------------------------------------------------- the batches cover the items

  ghost function Concat(batches: seq<seq<string>>): seq<string> {
    if batches == [] then [] else Concat(batches[..|batches| - 1]) + batches[|batches| - 1]
  }

  /** Full batches, except that the last one may be shorter. */
  ghost predicate Sliced(batches: seq<seq<string>>, b: nat) {
    && (forall i :: 0 <= i < |batches| - 1 ==> |batches[i]| == b)
    && (batches != [] ==> 1 <= |batches[|batches| - 1]| <= b)
  }

  /** The run's figures, and its batches so far followed by what is queued. */
  ghost predicate Figures(s: State, queue: seq<string>) {
    var b := s.snapshot.batchSize;
    && b >= 1
    && s.items != [] && s.startIndex <= |s.items|
    && s.snapshot.totalItems == |s.items| && s.snapshot.totalBatches == Ceil(|s.items|, b)
    && Concat(s.batches) + queue == s.items[s.startIndex..]
    && Sliced(s.batches, b)
    && (queue != [] && s.batches != [] ==> |s.batches[|s.batches| - 1]| == b)
  }

  /** Between two batches everything begun has been counted. */
  ghost predicate AllCounted(s: State, queue: seq<string>) {
    && Figures(s, queue)
    && s.snapshot.processedItems + |queue| == |s.items|
    && s.snapshot.processedBatches == s.startIndex / s.snapshot.batchSize + |s.batches|
  }

  /** While a batch is awaited everything begun before it has been counted. */
  ghost predicate OneAwaited(s: State, loop: Loop) {
    && Figures(s, loop.queue)
    && s.batches != [] && s.batches[|s.batches| - 1] == loop.batch
    && s.snapshot.processedItems + |loop.batch| + |loop.queue| == |s.items|
    && s.snapshot.processedBatches + 1 == s.startIndex / s.snapshot.batchSize + |s.batches|
    && s.snapshot.currentBatchIndex == Some(s.snapshot.processedBatches + 1)
    && s.snapshot.currentBatchItems == loop.batch
  }

  ghost predicate Progress(s: State) {
    && OneLive(s)
    && s.snapshot.nextBatchIndex == s.snapshot.processedBatches + 1
    && (forall k :: 0 <= k < |s.loops| && Live(s, k) ==> OneAwaited(s, s.loops[k]))
    && (s.snapshot.status == Completed ==> AllCounted(s, []))
  }

  lemma NextBatchFigures(s: State, queue: seq<string>, batch: seq<string>)
    requires Figures(s, queue) && queue != [] && batch == FirstBatch(queue, s.snapshot.batchSize)
    ensures Figures(s.(batches := s.batches + [batch]), queue[|batch|..])
  {
    var batches := s.batches + [batch];
    assert batches[..|s.batches|] == s.batches;
    assert batch + queue[|batch|..] == queue;
    assert Concat(batches) + queue[|batch|..] == Concat(s.batches) + (batch + queue[|batch|..]);
  }

  lemma NextBatchAwaited(s: State, queue: seq<string>)
    requires s.snapshot.status == Running && AllCounted(s, queue) && queue != [] && !s.snapshot.stopRequested
    ensures var t := GoOn(s, s.runToken, queue);
            |t.loops| == |s.loops| + 1 && OneAwaited(t, t.loops[|s.loops|]) && t.snapshot.status == Running
  {
    var batch := FirstBatch(queue, s.snapshot.batchSize);
    NextBatchFigures(s, queue, batch);
    FiguresOnly(s.(batches := s.batches + [batch]), GoOn(s, s.runToken, queue), queue[|batch|..]);
  }

  lemma FiguresOnly(s: State, t: State, queue: seq<string>)
    requires Figures(s, queue) && t.items == s.items && t.startIndex == s.startIndex && t.batches == s.batches
    requires t.snapshot.batchSize == s.snapshot.batchSize
    requires t.snapshot.totalItems == s.snapshot.totalItems && t.snapshot.totalBatches == s.snapshot.totalBatches
    ensures Figures(t, queue)
  {
  }

  lemma GoOnProgress(s: State, queue: seq<string>)
    requires NoneLive(s) && s.snapshot.status == Running && AllCounted(s, queue)
    requires s.snapshot.nextBatchIndex == s.snapshot.processedBatches + 1
    ensures Progress(GoOn(s, s.runToken, queue))
  {
    GoOnOneLive(s, queue);
    if queue == [] {
      EndProgress(s);
    } else if !s.snapshot.stopRequested {
      NextBatchAwaited(s, queue);
      LoopsAfterLaunch(s, queue);
    }
  }

  lemma EndProgress(s: State)
    requires NoneLive(s) && s.snapshot.status == Running && AllCounted(s, [])
    requires OneLive(GoOn(s, s.runToken, [])) && s.snapshot.nextBatchIndex == s.snapshot.processedBatches + 1
    ensures Progress(GoOn(s, s.runToken, []))
  {
    FiguresOnly(s, GoOn(s, s.runToken, []), []);
  }

  lemma LoopsAfterLaunch(s: State, queue: seq<string>)
    requires NoneLive(s) && queue != [] && !s.snapshot.stopRequested
    ensures var t := GoOn(s, s.runToken, queue); forall k :: 0 <= k < |t.loops| && Live(t, k) ==> k == |s.loops|
  {
  }

  /** Counting the awaited batch. */
  lemma CountedFigures(s: State, loop: Loop, t: State)
    requires OneAwaited(s, loop)
    requires t.items == s.items && t.startIndex == s.startIndex && t.batches == s.batches
    requires t.snapshot.batchSize == s.snapshot.batchSize
    requires t.snapshot.totalItems == s.snapshot.totalItems && t.snapshot.totalBatches == s.snapshot.totalBatches
    requires t.snapshot.processedItems == s.snapshot.processedItems + |loop.batch|
    requires t.snapshot.processedBatches == s.snapshot.processedBatches + 1
    ensures AllCounted(t, loop.queue)
  {
  }

  /** The state in which the loop goes on after its batch has been counted. */
  function Resumed(s: State, k: nat, result: BatchResult): State
    requires k < |s.loops|
  {
    var rest := s.(loops := s.loops[..k] + s.loops[k + 1..]);
    var counted := Counted(s.snapshot, s.loops[k].batch);
    if result.SoftFailure? then rest.(hasBatchErrors := true, snapshot := counted.(error := OrDefault(result.error)))
    else rest.(snapshot := counted)
  }

  lemma ResumedReady(s: State, k: nat, result: BatchResult)
    requires Progress(s) && k < |s.loops| && Live(s, k) && (result.Ok? || result.SoftFailure?)
    ensures var t := Resumed(s, k, result);
            && BatchEnds(s, k, result) == GoOn(t, t.runToken, s.loops[k].queue)
            && NoneLive(t) && t.snapshot.status == Running && AllCounted(t, s.loops[k].queue)
            && t.snapshot.nextBatchIndex == t.snapshot.processedBatches + 1
  {
    OthersNotLive(s, k);
    CountedFigures(s, s.loops[k], Resumed(s, k, result));
  }

  lemma EndsProgress(s: State, k: nat, result: BatchResult)
    requires Progress(s) && k < |s.loops|
    ensures Progress(BatchEnds(s, k, result))
  {
    EndsOneLive(s, k, result);
    if Live(s, k) {
      if result.Ok? || result.SoftFailure? {
        ResumedReady(s, k, result);
        GoOnProgress(Resumed(s, k, result), s.loops[k].queue);
      } else {
        OthersNotLive(s, k);
      }
    } else {
      StaleProgress(s, k, result);
    }
  }

  lemma StaleProgress(s: State, k: nat, result: BatchResult)
    requires Progress(s) && k < |s.loops| && !Live(s, k)
    ensures Progress(BatchEnds(s, k, result))
  {
    var t := BatchEnds(s, k, result);
    EndsOneLive(s, k, result);
    forall i | 0 <= i < |t.loops| && Live(t, i) ensures OneAwaited(t, t.loops[i]) {
      assert t.loops[i] == s.loops[Before(i, k)] && Live(s, Before(i, k));
    }
  }

  lemma StartProgress(s: State, items: seq<string>, size: Number, from: Number)
    requires Progress(s) && !Refused(s, items)
    ensures Progress(Start(s, items, size, from))
  {
    var start := ClampStartIndex(from, |items|);
    assert Concat([]) + items[start..] == items[start..];
    GoOnProgress(Opened(s, items, ClampBatchSize(size), start), items[start..]);
  }

  lemma StopProgress(s: State)
    requires Progress(s)
    ensures Progress(Stop(s))
  {
    StopOneLive(s);
    forall k | 0 <= k < |s.loops| && Live(Stop(s), k) ensures OneAwaited(Stop(s), s.loops[k]) {
      assert Live(s, k);
    }
  }

  lemma StepProgress(s: State, input: Input)
    requires Progress(s) && Allowed(s, input)
    ensures Progress(Step(s, input))
  {
    match input
    case DoStart(items, size, from) => if !Refused(s, items) { StartProgress(s, items, size, from); }
    case DoStop => StopProgress(s);
    case DoCancel =>
    case DoBatchEnds(k, result) => EndsProgress(s, k, result);
  }

  lemma HistoryProgress(states: seq<State>, n: nat)
    requires IsHistory(states) && n < |states|
    ensures Progress(states[n])
  {
    var next, inv := (a: State, b: State) => Next(a, b), (s: State) => Progress(s);
    forall a, b | inv(a) && next(a, b) ensures inv(b) {
      var input :| Allowed(a, input) && b == Step(a, input);
      StepProgress(a, input);
    }
    Invariance(states, next, inv);
    assert inv(states[n]);
  }

  // ---------------------------------------------------------------- the figures at the end

  lemma {:induction false} SlicedSize(batches: seq<seq<string>>, b: nat)
    requires Sliced(batches, b) && batches != []
    ensures |Concat(batches)| == (|batches| - 1) * b + |batches[|batches| - 1]|
  {
    if |batches| == 1 {
      assert batches[..0] == [];
    } else {
      var front := batches[..|batches| - 1];
      SlicedSize(front, b);
      assert (|front| - 1) * b + b == |front| * b;
    }
  }

  lemma CeilIs(n: nat, b: nat, m: nat, r: nat)
    requires m >= 1 && 1 <= r <= b && n == (m - 1) * b + r
    ensures Ceil(n, b) == m
  {
    QuotientIs(n + b - 1, b, m, r - 1);
  }

  lemma MultipleGrows(k: int, b: nat)
    ensures k >= 1 ==> k * b >= b
    ensures k <= -1 ==> k * b <= -(b as int)
  {
    if k >= 1 {
      assert k * b == (k - 1) * b + b;
    } else if k <= -1 {
      assert -k * b == (-k - 1) * b + b;
    }
  }

  lemma QuotientIs(x: nat, b: nat, q: int, r: nat)
    requires r < b && x == q * b + r
    ensures x / b == q && x % b == r
  {
    assert x == (x / b) * b + x % b;
    assert (q - x / b) * b == q * b - (x / b) * b;
    MultipleGrows(q - x / b, b);
  }

  lemma CountOfBatches(s: State)
    requires Figures(s, [])
    ensures |s.batches| == Ceil(|s.items| - s.startIndex, s.snapshot.batchSize)
  {
    var b := s.snapshot.batchSize;
    assert Concat(s.batches) == s.items[s.startIndex..];
    if s.batches == [] {
      assert |s.items| == s.startIndex;
      QuotientIs(b - 1, b, 0, b - 1);
    } else {
      SlicedSize(s.batches, b);
      CeilIs(|s.items| - s.startIndex, b, |s.batches|, |s.batches[|s.batches| - 1]|);
    }
  }

  /** Whole batches skipped and batches executed, against the number of batches of the whole list. */
  lemma BatchArithmetic(total: nat, start: nat, b: nat)
    requires b >= 1 && start <= total && total >= 1
    ensures var sum := start / b + Ceil(total - start, b);
            && sum == (if start % b <= (total - 1) % b then Ceil(total, b) else Ceil(total, b) - 1)
    ensures start % b == 0 ==> start % b <= (total - 1) % b
  {
    var q, r, q', r' := start / b, start % b, (total - 1) / b, (total - 1) % b;
    DivMod(start, b);
    DivMod(total - 1, b);
    Distribute(q', q, b);
    QuotientIs(total + b - 1, b, q' + 1, r');
    SkippedQuotient(total - start + b - 1, b, q, r, q', r');
  }

  lemma DivMod(x: nat, b: nat)
    requires b >= 1
    ensures x == (x / b) * b + x % b
  {
  }

  lemma SkippedQuotient(x: nat, b: nat, q: nat, r: nat, q': nat, r': nat)
    requires r < b && r' < b && x == q' * b + r' - (q * b + r) + b
    ensures x / b == if r <= r' then q' + 1 - q else q' - q
  {
    Distribute(q' + 1, q, b);
    Distribute(q', q, b);
    if r <= r' {
      QuotientIs(x, b, q' + 1 - q, r' - r);
    } else {
      QuotientIs(x, b, q' - q, r' - r + b);
    }
  }

  lemma Distribute(x: int, y: int, b: nat)
    ensures (x - y) * b == x * b - y * b && (x + 1) * b == x * b + b
  {
  }

  /**
   * All items from the start index on have been executed in consecutive full batches, the last one
   * possibly shorter, and counted.  The batches count up to the total exactly when the start index
   * leaves no more over than the last item does, and to one less otherwise.
   */
  ghost predicate WorkedOff(s: State) {
    var b := s.snapshot.batchSize;
    && b >= 1 && s.items != [] && s.startIndex <= |s.items|
    && Concat(s.batches) == s.items[s.startIndex..] && Sliced(s.batches, b)
    && s.snapshot.processedItems == s.snapshot.totalItems == |s.items|
    && s.snapshot.totalBatches == Ceil(|s.items|, b)
    && s.snapshot.nextBatchIndex == s.snapshot.processedBatches + 1
    && s.snapshot.processedBatches ==
         if s.startIndex % b <= (|s.items| - 1) % b then s.snapshot.totalBatches else s.snapshot.totalBatches - 1
  }

  lemma FinalFigures(s: State)
    requires AllCounted(s, []) && s.snapshot.nextBatchIndex == s.snapshot.processedBatches + 1
    ensures WorkedOff(s)
  {
    assert Concat(s.batches) + [] == Concat(s.batches);
    CountOfBatches(s);
    BatchArithmetic(|s.items|, s.startIndex, s.snapshot.batchSize);
  }

  /** A run that ends as completed has worked off its items. */
  lemma CompletedIsWorkedOff(states: seq<State>, n: nat)
    requires IsHistory(states) && n < |states| && states[n].snapshot.status == Completed
    ensures WorkedOff(states[n])
  {
    HistoryProgress(states, n);
    FinalFigures(states[n]);
  }

  /** So has one that reaches the end of its queue with batches that failed softly. */
  lemma LastBatchIsWorkedOff(states: seq<State>, n: nat, k: nat, result: BatchResult)
    requires IsHistory(states) && n < |states| && k < |states[n].loops| && Live(states[n], k)
    requires states[n].loops[k].queue == [] && (result.Ok? || result.SoftFailure?)
    ensures WorkedOff(BatchEnds(states[n], k, result))
    ensures BatchEnds(states[n], k, result).snapshot.status in {Completed, Failed}
  {
    var s := states[n];
    HistoryProgress(states, n);
    ResumedReady(s, k, result);
    FinalFigures(Resumed(s, k, result));
  }
}
