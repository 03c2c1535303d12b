/** Timed behaviour of the liveness monitor, with heartbeats and everything else interleaved into its passes. */
module MonitorTiming {
  import opened Prelude
  import opened Tables
  import opened ControlPlane
  import opened Registry
  import FileLifecycle
  import ChunkPlan

  // ---- What other steps do to the node table ----

  /** This step stores a heartbeat of node `n`. */
  ghost predicate StoresBeat(s: State, step: Step, n: string) {
    && step.ByClient?
    && (step.client.BeatUpdate? || step.client.BeatInsert?)
    && step.client.client in s.clients
    && (s.clients[step.client.client].Beating? || s.clients[step.client.client].Inserting?)
    && s.clients[step.client.client].nodeId == n
  }

  lemma PrepareKeepsNodes(s: State, step: ClientStep, rows: seq<ChunkRow>)
    requires step.PrepareWrite? && step.client in s.clients && s.clients[step.client].Placing?
    ensures ApplyPrepare(s, step, rows).db.nodes == s.db.nodes
    ensures ApplyPrepare(s, step, rows).history.beatAt == s.history.beatAt
  {
    var k := s.clients[step.client];
    var b := s.db.(files := s.db.files[step.fileId := File(k.name, k.size, Pending)],
                   sessions := s.db.sessions[step.sessionId := Session(step.fileId, Preparing)]);
    InsertChunkRowsExact(b, rows);
  }

  lemma CommitKeepsNodes(c: Config, s: State, q: string, m: map<string, seq<string>>)
    ensures ApplyCommit(c, s, q, m).db.nodes == s.db.nodes
    ensures ApplyCommit(c, s, q, m).history.beatAt == s.history.beatAt
  {
    hide FileLifecycle.Covers, FileLifecycle.RowsOf, ChunkIds;
  }

  /** Only a heartbeat of `n` and the monitor touch the row of `n`; rows never disappear. */
  lemma ClientLeavesNode(c: Config, s: State, step: ClientStep, n: string)
    requires ClientEnabled(c, s, step) && !StoresBeat(s, ByClient(step), n)
    ensures n in ApplyClient(c, s, step).db.nodes <==> n in s.db.nodes
    ensures n in s.db.nodes ==> ApplyClient(c, s, step).db.nodes[n] == s.db.nodes[n]
    ensures n in ApplyClient(c, s, step).history.beatAt <==> n in s.history.beatAt
    ensures n in s.history.beatAt ==> ApplyClient(c, s, step).history.beatAt[n] == s.history.beatAt[n]
    ensures ApplyClient(c, s, step).monitor == s.monitor && ApplyClient(c, s, step).clock == s.clock
  {
    hide ChunkPlan.ChunkCount, ChunkPlan.PlanRows, Lists, HealthyRows, ApplyCommit, ApplyPrepare;
    match step {
      case PrepareWrite(t, f, _, ids, _) =>
        PrepareKeepsNodes(s, step, ChunkPlan.PlanRows(f, s.clients[t].size, c.chunkSize, ids));
        PrepareKeepsMonitor(s, step, ChunkPlan.PlanRows(f, s.clients[t].size, c.chunkSize, ids));
      case Commit(q, m) =>
        CommitKeepsNodes(c, s, q, m);
        CommitKeepsMonitor(c, s, q, m);
      case _ =>
    }
  }

  lemma PrepareKeepsMonitor(s: State, step: ClientStep, rows: seq<ChunkRow>)
    requires step.PrepareWrite? && step.client in s.clients && s.clients[step.client].Placing?
    ensures ApplyPrepare(s, step, rows).monitor == s.monitor && ApplyPrepare(s, step, rows).clock == s.clock
  {
    hide FileLifecycle.PrepareRows;
  }

  lemma CommitKeepsMonitor(c: Config, s: State, q: string, m: map<string, seq<string>>)
    ensures ApplyCommit(c, s, q, m).monitor == s.monitor && ApplyCommit(c, s, q, m).clock == s.clock
  {
    hide FileLifecycle.CommitWrites, FileLifecycle.AfterCommit;
  }

  lemma TransferLeavesNodes(c: Config, s: State, step: ScanStep)
    requires ScanEnabled(s, step) && (step.ScanFetch? || step.ScanStore? || step.ScanRecord?)
    ensures ApplyTransfer(c, s, step).db.nodes == s.db.nodes
    ensures ApplyTransfer(c, s, step).history.beatAt == s.history.beatAt
    ensures ApplyTransfer(c, s, step).monitor == s.monitor && ApplyTransfer(c, s, step).clock == s.clock
  {
  }

  lemma ScanLeavesNodes(c: Config, s: State, step: ScanStep)
    requires ScanEnabled(s, step)
    ensures ApplyScan(c, s, step).db.nodes == s.db.nodes
    ensures ApplyScan(c, s, step).history.beatAt == s.history.beatAt
    ensures ApplyScan(c, s, step).monitor == s.monitor && ApplyScan(c, s, step).clock == s.clock
  {
    if step.ScanFetch? || step.ScanStore? || step.ScanRecord? {
      TransferLeavesNodes(c, s, step);
      hide ApplyTransfer, ScanEnabled;
    } else {
      hide Lists, HealthyRows, Replicas, CommittedChunks, Elems;
    }
  }

  /** What a step that neither stores a heartbeat of `n` nor belongs to the monitor leaves alone. */
  ghost predicate LeavesNode(s: State, s': State, n: string) {
    && (n in s'.db.nodes <==> n in s.db.nodes)
    && (n in s.db.nodes ==> s'.db.nodes[n] == s.db.nodes[n])
    && (n in s'.history.beatAt <==> n in s.history.beatAt)
    && (n in s.history.beatAt ==> s'.history.beatAt[n] == s.history.beatAt[n])
    && (s'.monitor == s.monitor || s'.monitor.Resting?)
    && s'.clock >= s.clock
  }

  lemma OthersLeaveNode(c: Config, s: State, step: Step, n: string)
    requires Enabled(c, s, step) && !StoresBeat(s, step, n) && !step.ByMonitor?
    ensures LeavesNode(s, Apply(c, s, step), n)
    ensures !step.Tick? ==> Apply(c, s, step).clock == s.clock
    ensures !step.Restart? ==> Apply(c, s, step).monitor == s.monitor
  {
    hide ClientEnabled, ScanEnabled, ApplyClient, ApplyScan, StoresBeat;
    match step {
      case ByClient(x) => ClientLeavesNode(c, s, x, n);
      case ByScanner(x) => ScanLeavesNodes(c, s, x);
      case _ =>
    }
  }

  // ---- One complete pass decides ----

  /** The status the monitor owes a listed row. */
  function Due(row: Node, now: int, timeout: int): Node {
    row.(status := if Stale(row, now, timeout) then Down else Healthy)
  }

  /** Somewhere inside a pass that listed `row` for node `n` at position `pos`. */
  ghost predicate InPass(c: Config, s: State, nodes: seq<NodeRow>, pos: nat) {
    && pos < |nodes|
    && nodes[pos].id in s.db.nodes
    && (s.monitor.Listed? || s.monitor.Passing?)
    && s.monitor.nodes == nodes
    && s.db.nodes[nodes[pos].id] ==
         if s.monitor.Passing? && pos < s.monitor.next then Due(nodes[pos].node, s.monitor.now, c.timeout)
         else nodes[pos].node
  }

  lemma InPassStep(c: Config, s: State, step: Step, nodes: seq<NodeRow>, pos: nat)
    requires InPass(c, s, nodes, pos) && Enabled(c, s, step)
    requires forall i, j :: 0 <= i < j < |nodes| ==> nodes[i].id != nodes[j].id
    requires !StoresBeat(s, step, nodes[pos].id)
    requires step != ByMonitor(MonitorEnd) && step != Restart
    requires step == ByMonitor(MonitorGlitch) ==> s.monitor.next != pos
    ensures InPass(c, Apply(c, s, step), nodes, pos)
  {
    if step.ByMonitor? {
      hide StoresBeat, Lists, NodeRows;
    } else {
      OthersLeaveNode(c, s, step, nodes[pos].id);
      hide StoresBeat, Enabled, Apply;
    }
  }

  /** A failed update of node `n`. */
  ghost predicate MissesNode(s: State, step: Step, n: string) {
    && step == ByMonitor(MonitorGlitch)
    && s.monitor.Passing? && s.monitor.next < |s.monitor.nodes|
    && s.monitor.nodes[s.monitor.next].id == n
  }

  /** The monitor lists all nodes in step `a`, and by state `b` its pass is through; no update of `n` failed, and no
      heartbeat of `n` was stored meanwhile. Anything else may happen in between. */
  ghost predicate QuietPass(c: Config, states: seq<State>, steps: seq<Step>, a: nat, b: nat, n: string) {
    && IsRun(c, states, steps) && a < b <= |steps|
    && steps[a].ByMonitor? && steps[a].monitor.MonitorList?
    && n in states[a].db.nodes
    && states[b].monitor.Passing? && states[b].monitor.next == |states[b].monitor.nodes|
    && (forall k :: a < k < b ==>
          && !StoresBeat(states[k], steps[k], n)
          && steps[k] != ByMonitor(MonitorEnd) && steps[k] != Restart
          && !MissesNode(states[k], steps[k], n))
  }

  lemma QuietStep(c: Config, states: seq<State>, steps: seq<Step>, a: nat, b: nat, n: string, k: nat)
    requires QuietPass(c, states, steps, a, b, n) && a <= k < b
    ensures |states| == |steps| + 1 && b <= |steps|
    ensures Enabled(c, states[k], steps[k]) && states[k + 1] == Apply(c, states[k], steps[k])
    ensures a < k ==> !StoresBeat(states[k], steps[k], n)
                      && steps[k] != ByMonitor(MonitorEnd) && steps[k] != Restart
                      && !MissesNode(states[k], steps[k], n)
    ensures a == k ==> steps[k].ByMonitor? && steps[k].monitor.MonitorList? && n in states[k].db.nodes
  {
    hide Enabled, Apply, StoresBeat;
  }

  lemma MissesOther(c: Config, s: State, step: Step, nodes: seq<NodeRow>, pos: nat)
    requires InPass(c, s, nodes, pos) && Enabled(c, s, step) && step == ByMonitor(MonitorGlitch)
    requires !MissesNode(s, step, nodes[pos].id)
    ensures s.monitor.next != pos
  {
  }

  lemma PassOpens(c: Config, s: State, step: Step, pos: nat)
    requires Enabled(c, s, step) && step.ByMonitor? && step.monitor.MonitorList?
    requires pos < |step.monitor.nodes| && step.monitor.nodes[pos].id in s.db.nodes
    requires step.monitor.nodes[pos].node == s.db.nodes[step.monitor.nodes[pos].id]
    ensures InPass(c, Apply(c, s, step), step.monitor.nodes, pos)
  {
    hide Lists, NodeRows;
  }

  lemma {:induction false} PassInvariant(c: Config, states: seq<State>, steps: seq<Step>, a: nat, b: nat, n: string,
    nodes: seq<NodeRow>, pos: nat, k: nat)
    requires QuietPass(c, states, steps, a, b, n) && nodes == steps[a].monitor.nodes
    requires pos < |nodes| && nodes[pos] == NodeRow(n, states[a].db.nodes[n])
    requires forall i, j :: 0 <= i < j < |nodes| ==> nodes[i].id != nodes[j].id
    requires a < k <= b
    ensures InPass(c, states[k], nodes, pos)
    decreases k
  {
    hide QuietPass, InPass, Enabled, Apply, StoresBeat, MissesNode;
    QuietStep(c, states, steps, a, b, n, k - 1);
    if k == a + 1 {
      PassOpens(c, states[a], steps[a], pos);
    } else {
      PassInvariant(c, states, steps, a, b, n, nodes, pos, k - 1);
      if steps[k - 1] == ByMonitor(MonitorGlitch) {
        MissesOther(c, states[k - 1], steps[k - 1], nodes, pos);
      }
      InPassStep(c, states[k - 1], steps[k - 1], nodes, pos);
    }
  }

  /** From any statuses whatsoever: after such a pass a node is healthy exactly if its heartbeat age, at the
      monitor's clock reading, is at most the timeout. */
  lemma PassDecides(c: Config, states: seq<State>, steps: seq<Step>, a: nat, b: nat, n: string)
    requires QuietPass(c, states, steps, a, b, n)
    ensures n in states[b].db.nodes
    ensures states[b].db.nodes[n].status == Healthy <==>
            states[b].monitor.now - states[a].db.nodes[n].lastHeartbeat * 1_000_000_000 <= c.timeout
  {
    var nodes := steps[a].monitor.nodes;
    assert Enabled(c, states[a], steps[a]);
    ListingIdsDistinct(states[a].db, nodes);
    assert NodeRow(n, states[a].db.nodes[n]) in Elems(nodes);
    var pos :| 0 <= pos < |nodes| && nodes[pos] == NodeRow(n, states[a].db.nodes[n]);
    PassInvariant(c, states, steps, a, b, n, nodes, pos, b);
  }

  // ---- Stored heartbeats ----

  /** A row's heartbeat is the second in which the stored heartbeat read its clock. */
  ghost predicate BeatsStored(s: State) {
    forall n :: n in s.db.nodes ==> n in s.history.beatAt && s.db.nodes[n].lastHeartbeat == UnixSecond(s.history.beatAt[n])
  }

  lemma BeatStored(c: Config, s: State, step: ClientStep, n: string)
    requires ClientEnabled(c, s, step) && StoresBeat(s, ByClient(step), n)
    requires n in s.db.nodes ==> n in s.history.beatAt && s.db.nodes[n].lastHeartbeat == UnixSecond(s.history.beatAt[n])
    ensures var s' := ApplyClient(c, s, step);
      && (n in s'.db.nodes ==> n in s'.history.beatAt && s'.db.nodes[n].lastHeartbeat == UnixSecond(s'.history.beatAt[n]))
      && (n in s'.db.nodes && (n in s.db.nodes ==> s'.db.nodes[n] != s.db.nodes[n]) ==> s'.db.nodes[n].status == Healthy)
      && (n in s.db.nodes ==> n in s'.db.nodes)
      && s'.monitor == s.monitor && s'.clock == s.clock
  {
  }

  lemma BeatsStoredStep(c: Config, s: State, step: Step)
    requires BeatsStored(s) && Enabled(c, s, step)
    ensures BeatsStored(Apply(c, s, step))
  {
    var s' := Apply(c, s, step);
    forall n | n in s'.db.nodes
      ensures n in s'.history.beatAt && s'.db.nodes[n].lastHeartbeat == UnixSecond(s'.history.beatAt[n])
    {
      if step.ByMonitor? {
        hide Lists, NodeRows, Verdict, StoresBeat;
      } else if StoresBeat(s, step, n) {
        BeatStored(c, s, step.client, n);
      } else {
        OthersLeaveNode(c, s, step, n);
        hide Apply, Enabled, StoresBeat;
      }
    }
  }

  lemma {:induction false} BeatsStoredInRun(c: Config, states: seq<State>, steps: seq<Step>, i: nat)
    requires IsRunFromInit(c, states, steps) && i < |states|
    ensures BeatsStored(states[i])
  {
    if i > 0 {
      BeatsStoredInRun(c, states, steps, i - 1);
      BeatsStoredStep(c, states[i - 1], steps[i - 1]);
    }
  }

  /** A node silent since `t` is down after the first complete pass that reads the clock later than t + timeout. */
  lemma SilentNodeGoesDown(c: Config, states: seq<State>, steps: seq<Step>, a: nat, b: nat, n: string, t: int)
    requires IsRunFromInit(c, states, steps) && QuietPass(c, states, steps, a, b, n)
    requires n in states[a].history.beatAt && states[a].history.beatAt[n] <= t && states[b].monitor.now > t + c.timeout
    ensures n in states[b].db.nodes && states[b].db.nodes[n].status == Down
  {
    BeatsStoredInRun(c, states, steps, a);
    PassDecides(c, states, steps, a, b, n);
  }

  /** A node marked down although it is fresh is healthy again after the next quiet pass during which it stays fresh. */
  lemma FreshNodeRestored(c: Config, states: seq<State>, steps: seq<Step>, a: nat, b: nat, n: string)
    requires IsRunFromInit(c, states, steps) && QuietPass(c, states, steps, a, b, n)
    requires n in states[a].history.beatAt
    requires states[b].monitor.now - states[a].history.beatAt[n] + 999_999_999 <= c.timeout
    ensures n in states[b].db.nodes && states[b].db.nodes[n].status == Healthy
  {
    BeatsStoredInRun(c, states, steps, a);
    PassDecides(c, states, steps, a, b, n);
  }

  // ---- A regularly beating node is never marked down ----

  /** Whenever `n` is registered, its last stored heartbeat was taken at most `h` ago. */
  ghost predicate Regular(states: seq<State>, n: string, h: int) {
    forall i :: 0 <= i < |states| && n in states[i].db.nodes ==>
      n in states[i].history.beatAt && states[i].clock - states[i].history.beatAt[n] <= h
  }

  /** The monitor reads its clock at most `delay` after listing the nodes. */
  ghost predicate Prompt(states: seq<State>, delay: int) {
    forall i :: 0 <= i < |states| && states[i].monitor.Passing? ==> states[i].monitor.now - states[i].monitor.listedAt <= delay
  }

  /** The node is healthy, and so is every listed copy of its row, each at most `h` (and a second) old when listed. */
  ghost predicate Fresh(s: State, n: string, h: int) {
    && (n in s.db.nodes ==> s.db.nodes[n].status == Healthy)
    && (s.monitor.Listed? || s.monitor.Passing? ==>
          forall i :: 0 <= i < |s.monitor.nodes| && s.monitor.nodes[i].id == n ==>
            && s.monitor.nodes[i].node.status == Healthy
            && s.monitor.listedAt - s.monitor.nodes[i].node.lastHeartbeat * SECOND <= h + SECOND - 1)
  }

  lemma FreshMonitorStep(c: Config, s: State, step: MonitorStep, n: string, h: int, delay: int)
    requires MonitorEnabled(s, step) && BeatsStored(s) && Fresh(s, n, h)
    requires n in s.db.nodes ==> n in s.history.beatAt && s.clock - s.history.beatAt[n] <= h
    requires s.monitor.Passing? ==> s.monitor.now - s.monitor.listedAt <= delay
    requires h + delay + SECOND - 1 <= c.timeout
    ensures Fresh(ApplyMonitor(c, s, step), n, h)
  {
    if step.MonitorList? {
      ListingIdsDistinct(s.db, step.nodes);
    }
    hide Lists, NodeRows;
  }

  lemma FreshStep(c: Config, s: State, step: Step, n: string, h: int, delay: int)
    requires Enabled(c, s, step) && BeatsStored(s) && Fresh(s, n, h)
    requires n in s.db.nodes ==> n in s.history.beatAt && s.clock - s.history.beatAt[n] <= h
    requires s.monitor.Passing? ==> s.monitor.now - s.monitor.listedAt <= delay
    requires h + delay + SECOND - 1 <= c.timeout
    ensures Fresh(Apply(c, s, step), n, h)
  {
    if step.ByMonitor? {
      FreshMonitorStep(c, s, step.monitor, n, h, delay);
      hide Fresh, BeatsStored, ApplyMonitor, MonitorEnabled;
    } else if StoresBeat(s, step, n) {
      BeatStored(c, s, step.client, n);
    } else {
      OthersLeaveNode(c, s, step, n);
      hide Apply, Enabled, StoresBeat, BeatsStored;
    }
  }

  /** If H plus the delay plus a second (less a nanosecond) does not exceed the timeout, a node whose heartbeats
      are at most H apart is healthy in every state of the run. */
  lemma {:induction false} RegularNodeStaysHealthy(
    c: Config, states: seq<State>, steps: seq<Step>, i: nat, n: string, h: int, delay: int)
    requires IsRunFromInit(c, states, steps) && i < |states|
    requires Regular(states, n, h) && Prompt(states, delay)
    requires h + delay + 999_999_999 <= c.timeout
    ensures Fresh(states[i], n, h)
    ensures n in states[i].db.nodes ==> states[i].db.nodes[n].status == Healthy
  {
    if i > 0 {
      RegularNodeStaysHealthy(c, states, steps, i - 1, n, h, delay);
      BeatsStoredInRun(c, states, steps, i - 1);
      hide Fresh, BeatsStored;
      FreshStep(c, states[i - 1], steps[i - 1], n, h, delay);
    }
    FreshIsHealthy(states[i], n, h);
  }

  lemma FreshIsHealthy(s: State, n: string, h: int)
    requires Fresh(s, n, h)
    ensures n in s.db.nodes ==> s.db.nodes[n].status == Healthy
  {
  }

  // ---- The bound is sharp ----

  ghost function Last(states: seq<State>): State
    requires states != []
  {
    states[|states| - 1]
  }

  /** A run so far in which `n` beats at most `h` apart and the monitor is at most `delay` late. */
  ghost predicate TimelyRun(c: Config, states: seq<State>, steps: seq<Step>, n: string, h: int, delay: int) {
    IsRunFromInit(c, states, steps) && Regular(states, n, h) && Prompt(states, delay)
  }

  ghost predicate TimelyState(s: State, n: string, h: int, delay: int) {
    && (n in s.db.nodes ==> n in s.history.beatAt && s.clock - s.history.beatAt[n] <= h)
    && (s.monitor.Passing? ==> s.monitor.now - s.monitor.listedAt <= delay)
  }

  lemma Extend(c: Config, states: seq<State>, steps: seq<Step>, step: Step, n: string, h: int, delay: int)
    returns (states': seq<State>, steps': seq<Step>)
    requires TimelyRun(c, states, steps, n, h, delay) && Enabled(c, Last(states), step)
    requires TimelyState(Apply(c, Last(states), step), n, h, delay)
    ensures states' != [] && TimelyRun(c, states', steps', n, h, delay)
    ensures Last(states') == Apply(c, Last(states), step)
  {
    var next := Apply(c, Last(states), step);
    states', steps' := states + [next], steps + [step];
    hide Enabled, Apply;
    assert forall i :: 0 <= i < |states| ==> states'[i] == states[i];
    forall i | 0 <= i < |steps'|
      ensures Enabled(c, states'[i], steps'[i]) && states'[i + 1] == Apply(c, states'[i], steps'[i])
    {
      if i < |steps| {
        assert steps'[i] == steps[i];
      }
    }
  }

  /** Delivers a heartbeat of `n` that reads the current clock. */
  lemma DeliverBeat(c: Config, states: seq<State>, steps: seq<Step>, n: string, address: string, h: int, delay: int)
    returns (states': seq<State>, steps': seq<Step>)
    requires TimelyRun(c, states, steps, n, h, delay) && n != "" && h >= 0 && Last(states).clients == map[]
    requires TimelyState(Last(states), n, h, delay)
    ensures states' != [] && TimelyRun(c, states', steps', n, h, delay)
    ensures var s := Last(states);
            Last(states') == s.(db := s.db.(nodes := s.db.nodes[n := Node(address, Healthy, UnixSecond(s.clock))]),
                                history := s.history.(beatAt := s.history.beatAt[n := s.clock]))
  {
    var s := Last(states);
    states', steps' := Extend(c, states, steps, ByClient(BeatStart(0, n, address)), n, h, delay);
    hide TimelyRun;
    var known := n in s.db.nodes;
    assert Last(states').clients == map[0 := Beating(n, address, s.clock)];
    states', steps' := Extend(c, states', steps', ByClient(BeatUpdate(0)), n, h, delay);
    if !known {
      assert Last(states').clients == map[0 := Inserting(n, address, s.clock)];
      states', steps' := Extend(c, states', steps', ByClient(BeatInsert(0)), n, h, delay);
    }
    assert Last(states').clients == map[];
  }

  /** Time passes for `span` while `n` keeps beating and the monitor holds its list. */
  lemma BeatOn(c: Config, states: seq<State>, steps: seq<Step>, n: string, h: int, delay: int, span: int)
    returns (states': seq<State>, steps': seq<Step>)
    requires TimelyRun(c, states, steps, n, h, delay) && n != "" && 0 <= span && (h > 0 || (h == 0 && span == 0))
    requires Last(states).clients == map[] && Last(states).monitor.Listed?
    requires n in Last(states).db.nodes && TimelyState(Last(states), n, h, delay)
    ensures TimelyRun(c, states', steps', n, h, delay) && TimelyState(Last(states'), n, h, delay)
    ensures Last(states').clients == map[] && Last(states').monitor == Last(states).monitor
    ensures Last(states').clock == Last(states).clock + span && n in Last(states').db.nodes
  {
    states', steps' := states, steps;
    assert states != [];
    hide TimelyRun;
    var left := span;
    while left > 0
      invariant 0 <= left && states' != []
      invariant TimelyRun(c, states', steps', n, h, delay) && TimelyState(Last(states'), n, h, delay)
      invariant Last(states').clients == map[] && Last(states').monitor == Last(states).monitor
      invariant Last(states').clock == Last(states).clock + span - left && n in Last(states').db.nodes
    {
      var pause := if left < h then left else h;
      states', steps' := DeliverBeat(c, states', steps', n, "", h, delay);
      states', steps' := Extend(c, states', steps', Tick(pause), n, h, delay);
      left := left - pause;
    }
  }

  /** One nanosecond less of timeout, and some run with the same spacing and delay marks the node down. */
  lemma BoundIsSharp(c: Config, n: string, h: int, delay: int) returns (states: seq<State>, steps: seq<Step>)
    requires n != "" && 0 <= delay && (h > 0 || (h == 0 && delay == 0)) && c.timeout < h + delay + 999_999_999
    ensures IsRunFromInit(c, states, steps) && Regular(states, n, h) && Prompt(states, delay)
    ensures n in Last(states).db.nodes && Last(states).db.nodes[n].status == Down
  {
    var start := State(EmptyDb, SECOND - 1, map[], Resting, Idle, map[], EmptyHistory);
    states, steps := [start], [];
    assert TimelyRun(c, states, steps, n, h, delay);
    hide TimelyRun;
    states, steps := DeliverBeat(c, states, steps, n, "", h, delay);
    states, steps := Extend(c, states, steps, Tick(h), n, h, delay);
    var row := NodeRow(n, Node("", Healthy, 0));
    assert UnixSecond(SECOND - 1) == 0;
    assert Last(states).db.nodes == map[n := row.node];
    assert NodeRows(Last(states).db) == {row};
    assert Lists([row], {row});
    states, steps := Extend(c, states, steps, ByMonitor(MonitorList([row])), n, h, delay);
    states, steps := BeatOn(c, states, steps, n, h, delay, delay);
    states, steps := Extend(c, states, steps, ByMonitor(MonitorClock), n, h, delay);
    assert Last(states).monitor == Passing([row], SECOND - 1 + h, SECOND - 1 + h + delay, 0);
    assert Verdict(row.node, SECOND - 1 + h + delay, c.timeout) == Some(Down);
    states, steps := Extend(c, states, steps, ByMonitor(MonitorNode), n, h, delay);
    TimelyRunParts(c, states, steps, n, h, delay);
  }

  lemma TimelyRunParts(c: Config, states: seq<State>, steps: seq<Step>, n: string, h: int, delay: int)
    requires TimelyRun(c, states, steps, n, h, delay)
    ensures IsRunFromInit(c, states, steps) && Regular(states, n, h) && Prompt(states, delay)
  {
  }
}
