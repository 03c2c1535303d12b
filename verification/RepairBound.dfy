/** How far above the replication factor repair can lift a chunk while node statuses change and queries fail. */
module RepairBound {
  import opened Prelude
  import opened Tables
  import opened ControlPlane
  import opened ControlPlaneSafety
  import opened ControlPlaneTheorems
  import InterleavedScan
  import ChunkFile
  import CopyChunk
  import Repair

  // ---- What the counting loop saw ----

  /** The node whose health the counting loop asks for next. */
  ghost function Queried(s: State): Option<string> {
    if s.scanner.Scanning? && s.scanner.phase.Counting? && s.scanner.phase.next < |s.scanner.locations|
    then Some(s.scanner.locations[s.scanner.phase.next]) else None
  }

  /** The counting loop asks for `n` and gets an answer, or an error. */
  ghost predicate Asks(s: State, step: Step, n: string) {
    Queried(s) == Some(n) && (step == ByScanner(ScanHealth) || step == ByScanner(ScanGlitch))
  }

  /** It asks for `n` and is told that `n` is healthy. */
  ghost predicate Counts(s: State, step: Step, n: string) {
    Queried(s) == Some(n) && step == ByScanner(ScanHealth) && n in HealthyIds(s.db)
  }

  /** Nodes counted as healthy in steps b+1 to e-1. */
  ghost function Seen(states: seq<State>, steps: seq<Step>, b: nat, e: nat): set<string>
    requires e <= |steps| && e <= |states|
  {
    set i | b < i < e && Queried(states[i]).Some? && Counts(states[i], steps[i], Queried(states[i]).value) :: Queried(states[i]).value
  }

  /** Nodes asked for in those steps. */
  ghost function Asked(states: seq<State>, steps: seq<Step>, b: nat, e: nat): set<string>
    requires e <= |steps| && e <= |states|
  {
    set i | b < i < e && Queried(states[i]).Some? && Asks(states[i], steps[i], Queried(states[i]).value) :: Queried(states[i]).value
  }

  lemma SeenGrows(states: seq<State>, steps: seq<Step>, b: nat, e: nat)
    requires b < e < |steps| && e < |states|
    ensures Seen(states, steps, b, e + 1) == Seen(states, steps, b, e) + NewlySeen(states[e], steps[e])
  {
    hide Counts, Queried;
  }

  lemma AskedGrows(states: seq<State>, steps: seq<Step>, b: nat, e: nat)
    requires b < e < |steps| && e < |states|
    ensures Asked(states, steps, b, e + 1) == Asked(states, steps, b, e) + NewlyAsked(states[e], steps[e])
  {
    hide Asks, Queried;
  }

  ghost function NewlySeen(s: State, step: Step): set<string> {
    if Queried(s).Some? && Counts(s, step, Queried(s).value) then {Queried(s).value} else {}
  }

  ghost function NewlyAsked(s: State, step: Step): set<string> {
    if Queried(s).Some? && Asks(s, step, Queried(s).value) then {Queried(s).value} else {}
  }

  // ---- The turn of one chunk ----

  ghost predicate AtWork(k: Scanner) {
    k.Scanning? && !k.phase.Next?
  }

  ghost predicate SameChunk(k: Scanner, k': Scanner)
    requires k.Scanning? && k'.Scanning?
  {
    k'.chunks == k.chunks && k'.index == k.index && k'.locations == k.locations
  }

  /** Step `b` reads the locations of a chunk, and up to state `e` repair is at work on that chunk. */
  ghost predicate Turn(c: Config, states: seq<State>, steps: seq<Step>, b: nat, e: nat) {
    && IsRunFromInit(c, states, steps) && b < e < |states|
    && steps[b].ByScanner? && steps[b].scan.ScanLocations?
    && (forall k :: b < k <= e ==> AtWork(states[k].scanner) && SameChunk(states[b + 1].scanner, states[k].scanner))
    && states[b + 1].scanner.phase == Counting(0, 0)
  }

  lemma WorkContinues(c: Config, s: State, step: Step)
    requires Enabled(c, s, step) && AtWork(Apply(c, s, step).scanner)
    ensures var k' := Apply(c, s, step).scanner;
            if AtWork(s.scanner) then SameChunk(s.scanner, k')
            else step.ByScanner? && step.scan.ScanLocations? && k'.phase == Counting(0, 0)
  {
    hide ApplyTransfer, Lists, Find, Repair.FirstWithout, HealthyIds, HealthyRows;
    if step.ByScanner? {
      if step.scan.ScanFetch? || step.scan.ScanStore? || step.scan.ScanRecord? {
        TransferContinues(c, s, step.scan);
      }
    } else if !step.Restart? {
      InterleavedScan.SameScanner(c, s, step);
      hide Enabled, Apply;
    }
  }

  lemma TransferContinues(c: Config, s: State, step: ScanStep)
    requires ScanEnabled(s, step) && (step.ScanFetch? || step.ScanStore? || step.ScanRecord?)
    requires AtWork(ApplyTransfer(c, s, step).scanner)
    ensures AtWork(s.scanner) && SameChunk(s.scanner, ApplyTransfer(c, s, step).scanner)
  {
    hide CopyChunk.Read, ChunkFile.PutChunk, InsertLocation;
  }

  /** Repair at work on a chunk has read its locations at some earlier step. */
  lemma {:induction false} TurnBegins(c: Config, states: seq<State>, steps: seq<Step>, e: nat) returns (b: nat)
    requires IsRunFromInit(c, states, steps) && e < |states| && AtWork(states[e].scanner)
    ensures Turn(c, states, steps, b, e)
  {
    RunLength(c, states, steps);
    assert e > 0;
    RunStep(c, states, steps, e - 1);
    hide IsRunFromInit, Enabled, Apply;
    WorkContinues(c, states[e - 1], steps[e - 1]);
    if AtWork(states[e - 1].scanner) {
      b := TurnBegins(c, states, steps, e - 1);
    } else {
      b := e - 1;
    }
  }

  /** The count is the number of nodes seen; afterwards that number is below the factor, and all holders were asked. */
  ghost predicate CountRight(r: int, k: Scanner, seen: set<string>, asked: set<string>)
    requires AtWork(k)
  {
    && seen <= Elems(k.locations)
    && if k.phase.Counting? then
         var n := if k.phase.next < |k.locations| then k.phase.next else |k.locations|;
         k.phase.healthy == |seen| && seen <= Elems(k.locations[..n]) && Elems(k.locations[..n]) <= asked
       else |seen| < r && Elems(k.locations) <= asked
  }

  /** The counter goes up for a healthy node, and the loop goes on. */
  lemma QueryResult(c: Config, s: State, step: Step)
    requires Enabled(c, s, step) && AtWork(s.scanner) && s.scanner.phase.Counting? && "" !in HealthyIds(s.db)
    requires step == ByScanner(ScanHealth) || step == ByScanner(ScanGlitch)
    ensures var (k, h) := (s.scanner, s.scanner.phase.healthy);
            Apply(c, s, step).scanner == k.(phase := Counting(k.phase.next + 1, h + |NewlySeen(s, step)|))
    ensures NewlySeen(s, step) <= NewlyAsked(s, step)
    ensures NewlyAsked(s, step) ==
      if s.scanner.phase.next < |s.scanner.locations| then {s.scanner.locations[s.scanner.phase.next]} else {}
  {
    hide HealthyIds;
  }

  lemma QueryCounts(r: int, k: Scanner, seen: set<string>, asked: set<string>, answer: set<string>, query: set<string>)
    requires AtWork(k) && k.phase.Counting? && NoDup(k.locations) && CountRight(r, k, seen, asked)
    requires query == if k.phase.next < |k.locations| then {k.locations[k.phase.next]} else {}
    requires answer == {} || answer == query
    ensures CountRight(r, k.(phase := Counting(k.phase.next + 1, k.phase.healthy + |answer|)), seen + answer, asked + query)
  {
    hide Elems, NoDup;
    var q, n := k.locations, k.phase.next;
    if n < |q| {
      InterleavedScan.PrefixElems(q, n);
      NotBefore(q, n);
      AnswerCounts(seen, answer, q[n]);
    } else {
      assert q[..|q|] == q;
    }
  }

  lemma NotBefore(q: seq<string>, n: nat)
    requires NoDup(q) && n < |q|
    ensures q[n] !in Elems(q[..n]) && q[n] in Elems(q)
  {
  }

  lemma AnswerCounts(seen: set<string>, answer: set<string>, n: string)
    requires n !in seen && (answer == {} || answer == {n})
    ensures |seen + answer| == |seen| + |answer|
  {
    if answer == {} {
      assert seen + answer == seen;
    }
  }

  lemma DecisionCounts(c: Config, s: State, seen: set<string>, asked: set<string>)
    requires ScanEnabled(s, ScanDecide) && AtWork(s.scanner) && CountRight(c.r, s.scanner, seen, asked)
    requires AtWork(ApplyDecide(c, s).scanner)
    ensures CountRight(c.r, ApplyDecide(c, s).scanner, seen, asked)
  {
    var q := s.scanner.locations;
    assert q[..|q|] == q;
    hide Elems;
  }

  lemma NothingNew(c: Config, s: State, step: Step)
    requires !(step == ByScanner(ScanHealth) || step == ByScanner(ScanGlitch)) || !(s.scanner.Scanning? && s.scanner.phase.Counting?)
    ensures NewlySeen(s, step) == {} && NewlyAsked(s, step) == {}
  {
  }

  lemma LaterPhase(c: Config, s: State, step: Step)
    requires Enabled(c, s, step) && AtWork(s.scanner) && AtWork(Apply(c, s, step).scanner)
    requires step != ByScanner(ScanDecide) && !s.scanner.phase.Counting?
    ensures !Apply(c, s, step).scanner.phase.Counting?
  {
    if step.ByScanner? {
      hide CopyChunk.Read, ChunkFile.PutChunk, InsertLocation, Lists, Find, Repair.FirstWithout, HealthyIds, HealthyRows;
    } else if !step.Restart? {
      InterleavedScan.SameScanner(c, s, step);
      hide Enabled, Apply;
    }
  }

  lemma CountingWaits(c: Config, s: State, step: Step)
    requires Enabled(c, s, step) && AtWork(s.scanner) && s.scanner.phase.Counting? && AtWork(Apply(c, s, step).scanner)
    requires step != ByScanner(ScanDecide) && step != ByScanner(ScanHealth) && step != ByScanner(ScanGlitch)
    ensures Apply(c, s, step).scanner == s.scanner
  {
    if step.ByScanner? {
      hide Lists;
    } else if !step.Restart? {
      InterleavedScan.SameScanner(c, s, step);
      hide Enabled, Apply;
    }
  }

  /** A step that leaves repair at work on its chunk. */
  ghost predicate WorkStep(c: Config, s: State, step: Step, s': State) {
    Enabled(c, s, step) && s' == Apply(c, s, step) && AtWork(s.scanner) && AtWork(s'.scanner)
  }

  lemma QueryStep(c: Config, s: State, step: Step, s': State, seen: set<string>, asked: set<string>)
    requires Sound(c, s) && WorkStep(c, s, step, s') && AtWork(s.scanner) && AtWork(s'.scanner)
    requires CountRight(c.r, s.scanner, seen, asked) && s.scanner.phase.Counting?
    requires step == ByScanner(ScanHealth) || step == ByScanner(ScanGlitch)
    ensures CountRight(c.r, s'.scanner, seen + NewlySeen(s, step), asked + NewlyAsked(s, step))
  {
    hide Sound, Enabled, Apply, CountRight, Elems, NoDup, HealthyIds;
    InterleavedScan.NoEmptyName(c, s);
    LocationsDistinct(c, s);
    QueryResult(c, s, step);
    AnswerIsQuery(s, step);
    hide NewlySeen, NewlyAsked;
    QueryCounts(c.r, s.scanner, seen, asked, NewlySeen(s, step), NewlyAsked(s, step));
  }

  lemma QuietStep(c: Config, s: State, step: Step, s': State, seen: set<string>, asked: set<string>)
    requires WorkStep(c, s, step, s') && AtWork(s.scanner) && AtWork(s'.scanner)
    requires CountRight(c.r, s.scanner, seen, asked) && step != ByScanner(ScanDecide)
    requires s.scanner.phase.Counting? ==> step != ByScanner(ScanHealth) && step != ByScanner(ScanGlitch)
    ensures CountRight(c.r, s'.scanner, seen + NewlySeen(s, step), asked + NewlyAsked(s, step))
  {
    hide Enabled, Apply, Elems;
    NothingNew(c, s, step);
    if s.scanner.phase.Counting? {
      CountingWaits(c, s, step);
    } else {
      LaterPhase(c, s, step);
      WorkContinues(c, s, step);
    }
  }

  lemma CountStep(c: Config, s: State, step: Step, s': State, seen: set<string>, asked: set<string>)
    requires Sound(c, s) && WorkStep(c, s, step, s') && AtWork(s.scanner) && AtWork(s'.scanner)
    requires CountRight(c.r, s.scanner, seen, asked)
    ensures CountRight(c.r, s'.scanner, seen + NewlySeen(s, step), asked + NewlyAsked(s, step))
  {
    hide Sound, CountRight, NewlySeen, NewlyAsked, Enabled, Apply;
    if step == ByScanner(ScanDecide) {
      DecisionStep(c, s, seen, asked);
    } else if s.scanner.phase.Counting? && (step == ByScanner(ScanHealth) || step == ByScanner(ScanGlitch)) {
      hide WorkStep;
      QueryStep(c, s, step, s', seen, asked);
    } else {
      hide WorkStep;
      QuietStep(c, s, step, s', seen, asked);
    }
  }

  lemma AnswerIsQuery(s: State, step: Step)
    ensures NewlySeen(s, step) == {} || NewlySeen(s, step) == NewlyAsked(s, step)
  {
    hide HealthyIds, Queried;
  }

  lemma DecisionStep(c: Config, s: State, seen: set<string>, asked: set<string>)
    requires Enabled(c, s, ByScanner(ScanDecide)) && AtWork(s.scanner) && AtWork(Apply(c, s, ByScanner(ScanDecide)).scanner)
    requires CountRight(c.r, s.scanner, seen, asked)
    ensures CountRight(c.r, Apply(c, s, ByScanner(ScanDecide)).scanner,
                       seen + NewlySeen(s, ByScanner(ScanDecide)), asked + NewlyAsked(s, ByScanner(ScanDecide)))
  {
    NothingNew(c, s, ByScanner(ScanDecide));
    hide CountRight, NewlySeen, NewlyAsked;
    DecisionCounts(c, s, seen, asked);
    assert seen + {} == seen && asked + {} == asked;
  }

  lemma LocationsDistinct(c: Config, s: State)
    requires Sound(c, s) && AtWork(s.scanner)
    ensures NoDup(s.scanner.locations) && s.scanner.index < |s.scanner.chunks|
    ensures Elems(s.scanner.locations) == Replicas(s.db, s.scanner.chunks[s.scanner.index])
  {
    hide DataSound, ClientsSound, Conserved;
  }

  lemma TurnParts(c: Config, states: seq<State>, steps: seq<Step>, b: nat, e: nat, k: nat)
    requires Turn(c, states, steps, b, e) && b < k <= e
    ensures |states| == |steps| + 1 && IsRunFromInit(c, states, steps) && b < e < |states|
    ensures AtWork(states[k].scanner) && states[b + 1].scanner.Scanning? && SameChunk(states[b + 1].scanner, states[k].scanner)
    ensures states[b + 1].scanner.phase == Counting(0, 0)
    ensures k < e ==> Enabled(c, states[k], steps[k]) && states[k + 1] == Apply(c, states[k], steps[k])
  {
    hide Enabled, Apply;
  }

  lemma {:induction false} CountRightInTurn(c: Config, states: seq<State>, steps: seq<Step>, b: nat, e: nat, k: nat)
    requires Turn(c, states, steps, b, e) && b < k <= e
    ensures k <= |steps| && AtWork(states[k].scanner)
    ensures CountRight(c.r, states[k].scanner, Seen(states, steps, b, k), Asked(states, steps, b, k))
    decreases k
  {
    hide Turn, IsRunFromInit, Enabled, Apply, Sound, SameChunk, CountRight, Seen, Asked, NewlySeen, NewlyAsked;
    TurnParts(c, states, steps, b, e, k);
    if k == b + 1 {
      NothingSeenYet(c.r, states, steps, b);
    } else {
      TurnParts(c, states, steps, b, e, k - 1);
      CountRightInTurn(c, states, steps, b, e, k - 1);
      Safety(c, states, steps, k - 1);
      CountStep(c, states[k - 1], steps[k - 1], states[k], Seen(states, steps, b, k - 1), Asked(states, steps, b, k - 1));
      SeenGrows(states, steps, b, k - 1);
      AskedGrows(states, steps, b, k - 1);
    }
  }

  lemma NothingSeenYet(r: int, states: seq<State>, steps: seq<Step>, b: nat)
    requires b + 1 <= |steps| && b + 1 < |states| && AtWork(states[b + 1].scanner)
    requires states[b + 1].scanner.phase == Counting(0, 0)
    ensures CountRight(r, states[b + 1].scanner, Seen(states, steps, b, b + 1), Asked(states, steps, b, b + 1))
  {
    assert states[b + 1].scanner.locations[..0] == [];
    hide Queried, Counts, Asks;
  }

  // ---- The balance when a copy is recorded ----

  /** Holders that are healthy although the count did not include them. */
  ghost function Missed(holders: set<string>, healthy: set<string>, seen: set<string>): set<string> {
    holders * healthy - seen
  }

  lemma Balance(holders: set<string>, healthy: set<string>, seen: set<string>, t: string)
    requires seen <= holders && t !in holders
    ensures |(holders + {t}) * healthy|
            == |seen| - |seen - healthy| + |Missed(holders, healthy, seen)| + if t in healthy then 1 else 0
  {
    var alive := holders * healthy;
    assert alive == (seen * healthy) + Missed(holders, healthy, seen);
    assert |alive| == |seen * healthy| + |Missed(holders, healthy, seen)|;
    assert seen == (seen * healthy) + (seen - healthy);
    assert |seen| == |seen * healthy| + |seen - healthy|;
    if t in healthy {
      assert (holders + {t}) * healthy == alive + {t};
    } else {
      assert (holders + {t}) * healthy == alive;
    }
  }

  /** The target joined the holders that were listed. */
  ghost predicate Recorded(s: State, s': State) {
    && s.scanner.Scanning? && s.scanner.index < |s.scanner.chunks| && s.scanner.phase.Recording?
    && Replicas(s'.db, s.scanner.chunks[s.scanner.index]) == Elems(s.scanner.locations) + {s.scanner.phase.target.id}
    && s.scanner.phase.target.id !in Elems(s.scanner.locations)
    && HealthyIds(s'.db) == HealthyIds(s.db)
  }

  lemma RecordAdds(c: Config, s: State)
    requires Sound(c, s) && ScanEnabled(s, ScanRecord)
    ensures Recorded(s, ApplyScan(c, s, ScanRecord))
  {
    var k := s.scanner;
    hide Shape, Lifecycle, Rows, Plans, ClientsSound, Conserved;
    RecordingFits(s.db, s.history, k);
    Repair.RowAdded(s.db, ApplyScan(c, s, ScanRecord).db, k.chunks[k.index], k.phase.target.id);
    hide Replicas, HealthyIds;
  }

  /** In every run, when a copy is recorded: the healthy holders are those counted, fewer than the factor, less those
      fallen since, plus those the count missed, plus the new one if it is still healthy. */
  lemma RecordBalance(c: Config, states: seq<State>, steps: seq<Step>, b: nat, e: nat)
    requires Turn(c, states, steps, b, e) && e < |steps| && steps[e] == ByScanner(ScanRecord)
    ensures |states| == |steps| + 1 && AtWork(states[e].scanner) && states[e].scanner.phase.Recording?
    ensures states[e].scanner.index < |states[e].scanner.chunks|
    ensures var (k, seen, healthy) := (states[e].scanner, Seen(states, steps, b, e), HealthyIds(states[e + 1].db));
            && healthy == HealthyIds(states[e].db)
            && |seen| < c.r && seen <= Elems(k.locations) <= Asked(states, steps, b, e)
            && |Replicas(states[e + 1].db, k.chunks[k.index]) * healthy|
               == |seen| - |seen - healthy| + |Missed(Elems(k.locations), healthy, seen)|
                  + if k.phase.target.id in healthy then 1 else 0
  {
    TurnParts(c, states, steps, b, e, e);
    RunStep(c, states, steps, e);
    Safety(c, states, steps, e);
    CountRightInTurn(c, states, steps, b, e, e);
    hide Turn, IsRunFromInit, Sound, Seen, Asked, Replicas, HealthyIds, ApplyScan, Elems;
    RecordAdds(c, states[e]);
    Balance(Elems(states[e].scanner.locations), HealthyIds(states[e].db), Seen(states, steps, b, e), states[e].scanner.phase.target.id);
  }

  // ---- When the count can miss a holder ----

  /** The query for `n` failed. */
  ghost predicate Skipped(states: seq<State>, steps: seq<Step>, b: nat, e: nat, n: string)
    requires e <= |steps| && e <= |states|
  {
    exists i :: b < i < e && Queried(states[i]) == Some(n) && steps[i] == ByScanner(ScanGlitch)
  }

  /** After its query `n` became healthy. */
  ghost predicate Rose(states: seq<State>, steps: seq<Step>, b: nat, e: nat, n: string)
    requires e <= |steps| && e < |states|
  {
    exists i, k :: b < i <= k < e && Asks(states[i], steps[i], n)
                   && n !in HealthyIds(states[k].db) && n in HealthyIds(states[k + 1].db)
  }

  lemma {:induction false} RisesBetween(states: seq<State>, i: nat, e: nat, n: string) returns (k: nat)
    requires i < e < |states| && n !in HealthyIds(states[i].db) && n in HealthyIds(states[e].db)
    ensures i <= k < e && n !in HealthyIds(states[k].db) && n in HealthyIds(states[k + 1].db)
    decreases e
  {
    hide HealthyIds;
    if n in HealthyIds(states[e - 1].db) {
      k := RisesBetween(states, i, e - 1, n);
    } else {
      k := e - 1;
    }
  }

  /** A healthy holder that was not counted had its query fail, or became healthy after it. */
  lemma MissedMeans(c: Config, states: seq<State>, steps: seq<Step>, b: nat, e: nat, n: string)
    requires Turn(c, states, steps, b, e) && e < |steps| && steps[e] == ByScanner(ScanRecord)
    requires |states| == |steps| + 1 && AtWork(states[e].scanner)
    requires n in Missed(Elems(states[e].scanner.locations), HealthyIds(states[e].db), Seen(states, steps, b, e))
    ensures Skipped(states, steps, b, e, n) || Rose(states, steps, b, e, n)
  {
    RecordBalance(c, states, steps, b, e);
    hide Turn, HealthyIds, Elems;
    assert n in Asked(states, steps, b, e);
    var i :| b < i < e && Queried(states[i]) == Some(n) && Asks(states[i], steps[i], n);
    if steps[i] == ByScanner(ScanHealth) {
      assert !Counts(states[i], steps[i], n);
      var k := RisesBetween(states, i, e, n);
      hide Asks, Queried;
    }
  }

  /** If between its own query and the recording no holder became healthy, and no query failed, a recorded copy leaves at
      most R healthy holders. Nodes may go down, other copies fail, and clients do what they like. */
  lemma RecordStaysWithinFactor(c: Config, states: seq<State>, steps: seq<Step>, b: nat, e: nat)
    requires Turn(c, states, steps, b, e) && e < |steps| && steps[e] == ByScanner(ScanRecord)
    requires |states| == |steps| + 1 && AtWork(states[e].scanner)
    requires forall n :: n in states[e].scanner.locations ==> !Skipped(states, steps, b, e, n) && !Rose(states, steps, b, e, n)
    ensures states[e].scanner.index < |states[e].scanner.chunks|
    ensures |Replicas(states[e + 1].db, states[e].scanner.chunks[states[e].scanner.index]) * HealthyIds(states[e + 1].db)| <= c.r
  {
    RecordBalance(c, states, steps, b, e);
    var k, healthy, seen := states[e].scanner, HealthyIds(states[e].db), Seen(states, steps, b, e);
    hide Turn, HealthyIds, Seen, Asked, Skipped, Rose, Replicas, AtWork;
    forall n | n in Missed(Elems(k.locations), healthy, seen) ensures false {
      MissedMeans(c, states, steps, b, e, n);
    }
    assert Missed(Elems(k.locations), healthy, seen) == {};
  }
}
