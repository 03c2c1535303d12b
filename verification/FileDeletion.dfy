/** Deleting a file in the state machine: what the two statements reach, and that nothing brings the file back. */
module FileDeletion {
  import opened Prelude
  import opened Tables
  import opened ControlPlane
  import opened ControlPlaneTheorems
  import opened FileLifecycle
  import ControlPlaneSafety
  import ChunkPlan
  import InterleavedScan
  import Registry

  /** Every pending delete has found its file. */
  ghost predicate DeletersKnow(s: State) {
    forall t :: t in s.clients && s.clients[t].Deleting? ==> s.clients[t].fileId in s.db.files
  }

  /** Pending deletes come from DeleteRead only. */
  lemma DeletersStay(c: Config, s: State, step: Step, t: nat)
    requires Enabled(c, s, step) && t in Apply(c, s, step).clients && Apply(c, s, step).clients[t].Deleting?
    ensures var f := Apply(c, s, step).clients[t].fileId;
            (t in s.clients && s.clients[t] == Deleting(f)) || f in s.db.files
  {
    hide ChunkPlan.ChunkCount, ChunkPlan.PlanRows, PrepareRows, CommitWrites, AfterCommit, Lists, HealthyRows, Registry.Verdict;
    if step.ByScanner? {
      hide ScanEnabled, ApplyScan;
      InterleavedScan.ScanKeepsClients(c, s, step.scan);
    }
  }

  lemma DeletersKnowStep(c: Config, s: State, step: Step)
    requires DeletersKnow(s) && Enabled(c, s, step) && OnlyGrows(s, Apply(c, s, step))
    ensures DeletersKnow(Apply(c, s, step))
  {
    var s' := Apply(c, s, step);
    hide Enabled, Apply, TablesGrow, HistoryGrows;
    forall t | t in s'.clients && s'.clients[t].Deleting? ensures s'.clients[t].fileId in s'.db.files {
      DeletersStay(c, s, step, t);
    }
  }

  lemma FirstKnows(c: Config, states: seq<State>, steps: seq<Step>)
    requires IsRunFromInit(c, states, steps)
    ensures DeletersKnow(states[0])
  {
  }

  lemma {:induction false} DeletersKnowInRun(c: Config, states: seq<State>, steps: seq<Step>, i: nat)
    requires IsRunFromInit(c, states, steps) && i < |states|
    ensures DeletersKnow(states[i])
  {
    RunLength(c, states, steps);
    FirstKnows(c, states, steps);
    hide IsRunFromInit, Enabled, Apply, ControlPlaneSafety.Sound, OnlyGrows, DeletersKnow;
    if i > 0 {
      DeletersKnowInRun(c, states, steps, i - 1);
      ControlPlaneSafety.Safety(c, states, steps, i - 1);
      RunStep(c, states, steps, i - 1);
      Grows(c, states[i - 1], steps[i - 1]);
      DeletersKnowStep(c, states[i - 1], steps[i - 1]);
    }
  }

  lemma DeleteWrites(c: Config, s: State, t: nat)
    requires Enabled(c, s, ByClient(DeleteWrite(t))) && s.clients[t].fileId in s.db.files
    ensures var (f, after) := (s.clients[t].fileId, Apply(c, s, ByClient(DeleteWrite(t))));
            f in after.db.files && after.db.files[f] == File(s.db.files[f].name, s.db.files[f].size, FileStatus.Deleted)
  {
  }

  lemma DeletedStays(s: State, s': State, f: string)
    requires OnlyGrows(s, s') && f in s.db.files && s.db.files[f].status == FileStatus.Deleted
    ensures f in s'.db.files && s'.db.files[f] == s.db.files[f]
  {
    hide TablesGrow, HistoryGrows;
  }

  /** After the second statement of a delete the file is deleted, in every later state too; none of its chunks is
      scanned, and a session of it that was never finished can no longer be committed, whatever the map. */
  lemma DeletedForGood(c: Config, states: seq<State>, steps: seq<Step>, j: nat, i: nat, t: nat, f: string)
    requires IsRunFromInit(c, states, steps) && j < i < |states|
    requires steps[j] == ByClient(DeleteWrite(t)) && t in states[j].clients && states[j].clients[t] == Deleting(f)
    ensures f in states[i].db.files && states[i].db.files[f].status == FileStatus.Deleted
    ensures f in states[j].db.files && states[i].db.files[f].name == states[j].db.files[f].name
            && states[i].db.files[f].size == states[j].db.files[f].size
    ensures forall x :: x in states[i].db.chunks && states[i].db.chunks[x].fileId == f ==> x !in CommittedChunks(states[i].db)
    ensures forall q, m :: q in states[i].db.sessions && states[i].db.sessions[q].fileId == f
                           && states[i].db.sessions[q].status == Preparing ==>
              !CommitSucceeds(states[i].db, c.r, q, m) && ApplyCommit(c, states[i], q, m) == states[i]
  {
    RunLength(c, states, steps);
    DeletersKnowInRun(c, states, steps, j);
    RunStep(c, states, steps, j);
    GrowsOverRun(c, states, steps, j + 1, i);
    DeleteWrites(c, states[j], t);
    hide IsRunFromInit, Enabled, Apply, OnlyGrows, DeletersKnow;
    DeletedStays(states[j + 1], states[i], f);
    forall q, m | q in states[i].db.sessions && states[i].db.sessions[q].fileId == f && states[i].db.sessions[q].status == Preparing
      ensures !CommitSucceeds(states[i].db, c.r, q, m) && ApplyCommit(c, states[i], q, m) == states[i]
    {
      CommitRefused(states[i].db, c.r, q, m);
      hide Covers, RowsOf;
    }
  }
}
