/** The byte counter under concurrent Puts and Deletes, interleaved at their file-system calls. */
module ByteAccounting {
  import opened Prelude
  import opened ChunkFile

  /** Where a call stands. */
  datatype Call =
    | Checked(id: string, data: Bytes)                            // Put: the open said "absent"
    | Writing(id: string, data: Bytes, temp: string, stage: nat)  // Put: temporary file being written
    | Renamed(id: string, size: int)                              // Put: visible, not yet counted
    | Statted(id: string, size: int)                              // Delete: size read
    | Unlinked(id: string, size: int)                             // Delete: removed, not yet subtracted

  /** `drift` sums up what overlapping calls make the counter lose track of. */
  datatype State = State(files: Files, used: int, calls: map<nat, Call>, drift: int)

  datatype Config = Config(sha: Sha, base: string)

  datatype Step =
    | PutStart(call: nat, id: string, data: Bytes)
    | PutTemp(call: nat, suffix: string)
    | PutWrite(call: nat)
    | PutRename(call: nat)
    | PutCount(call: nat)
    | DeleteStat(call: nat, id: string)
    | DeleteUnlink(call: nat)
    | DeleteCount(call: nat)

  function FileSize(files: Files, p: string): int {
    if p in files then |files[p]| else 0
  }

  predicate Enabled(c: Config, s: State, step: Step) {
    match step
    case PutStart(t, id, data) => t !in s.calls && PlainId(id)
    case PutTemp(t, suffix) => t in s.calls && s.calls[t].Checked? && TempPath(c.base, s.calls[t].id, suffix) !in s.files
    case PutWrite(t) => t in s.calls && s.calls[t].Writing? && s.calls[t].stage < LAST_STAGE
    case PutRename(t) => t in s.calls && s.calls[t].Writing? && s.calls[t].stage == LAST_STAGE && s.calls[t].temp in s.files
    case PutCount(t) => t in s.calls && s.calls[t].Renamed?
    case DeleteStat(t, id) => t !in s.calls && PlainId(id)
    case DeleteUnlink(t) => t in s.calls && s.calls[t].Statted?
    case DeleteCount(t) => t in s.calls && s.calls[t].Unlinked?
  }

  function Apply(c: Config, s: State, step: Step): State
    requires Enabled(c, s, step)
  {
    match step
    case PutStart(t, id, data) =>
      // Too large, or present (idempotent or mismatch): the call returns without a file-system change.
      if |data| > MAX_SIZE || Path(c.base, id) in s.files then s
      else s.(calls := s.calls[t := Checked(id, data)])
    case PutTemp(t, suffix) =>
      var k := s.calls[t];
      var temp := TempPath(c.base, k.id, suffix);
      s.(files := s.files[temp := []], calls := s.calls[t := Writing(k.id, k.data, temp, 0)])
    case PutWrite(t) =>
      var k := s.calls[t];
      s.(files := s.files[k.temp := Written(c.sha, k.data, k.stage + 1)], calls := s.calls[t := k.(stage := k.stage + 1)])
    case PutRename(t) =>
      var k := s.calls[t];
      var p := Path(c.base, k.id);
      s.(files := (s.files - {k.temp})[p := s.files[k.temp]],
         calls := s.calls[t := Renamed(k.id, HEADER_SIZE + |k.data|)],
         drift := s.drift + FileSize(s.files, p))
    case PutCount(t) => s.(used := s.used + s.calls[t].size, calls := s.calls - {t})
    case DeleteStat(t, id) =>
      var p := Path(c.base, id);
      if p !in s.files then s else s.(calls := s.calls[t := Statted(id, |s.files[p]|)])
    case DeleteUnlink(t) =>
      var k := s.calls[t];
      var p := Path(c.base, k.id);
      if p !in s.files then s.(calls := s.calls - {t})
      else s.(files := s.files - {p}, calls := s.calls[t := Unlinked(k.id, k.size)],
              drift := s.drift + |s.files[p]| - k.size)
    case DeleteCount(t) => s.(used := s.used - s.calls[t].size, calls := s.calls - {t})
  }

  /** A freshly opened store: the counter is the scan, leftovers included. */
  ghost predicate Init(s: State) {
    s.calls == map[] && s.drift == 0 && s.used == TotalBytes(s.files)
  }

  ghost predicate IsRun(c: Config, states: seq<State>, steps: seq<Step>) {
    && |states| == |steps| + 1
    && forall i :: 0 <= i < |steps| ==> Enabled(c, states[i], steps[i]) && states[i + 1] == Apply(c, states[i], steps[i])
  }

  // ---- What the counter should say ----

  function Owed(k: Call): int {
    match k
    case Renamed(_, size) => size
    case Unlinked(_, size) => -size
    case _ => 0
  }

  ghost function OwedBy(calls: map<nat, Call>, keys: set<nat>): int
    requires keys <= calls.Keys
  {
    if keys == {} then 0 else var k :| k in keys; Owed(calls[k]) + OwedBy(calls, keys - {k})
  }

  /** Renamed-but-uncounted minus removed-but-unsubtracted bytes. */
  ghost function Outstanding(calls: map<nat, Call>): int {
    OwedBy(calls, calls.Keys)
  }

  ghost function LiveTemps(calls: map<nat, Call>): set<string> {
    set t | t in calls && calls[t].Writing? :: calls[t].temp
  }

  /** Bytes of every file that is not a temporary of a running Put. */
  ghost function Visible(s: State): int {
    TotalOf(s.files, s.files.Keys - LiveTemps(s.calls))
  }

  ghost predicate Balanced(s: State) {
    s.used + Outstanding(s.calls) == Visible(s) + s.drift
  }

  /** Temporaries exist, hold what was written so far, and belong to one call each. */
  ghost predicate TempsOwned(c: Config, s: State) {
    && (forall t :: t in s.calls ==> PlainId(s.calls[t].id))
    && (forall t :: t in s.calls && s.calls[t].Writing? ==>
          && s.calls[t].temp in s.files
          && s.files[s.calls[t].temp] == Written(c.sha, s.calls[t].data, s.calls[t].stage)
          && exists suffix :: s.calls[t].temp == TempPath(c.base, s.calls[t].id, suffix))
    && (forall t, u :: t in s.calls && u in s.calls && t != u && s.calls[t].Writing? && s.calls[u].Writing?
          ==> s.calls[t].temp != s.calls[u].temp)
  }

  ghost predicate InPut(k: Call, id: string) {
    (k.Checked? || k.Writing?) && k.id == id
  }

  /** No two Puts between absence check and rename of one ID; no such Put beside a Delete past its stat. */
  ghost predicate Exclusive(s: State) {
    && (forall t, u :: t in s.calls && u in s.calls && t != u && (s.calls[t].Checked? || s.calls[t].Writing?)
          ==> !InPut(s.calls[u], s.calls[t].id))
    && (forall t, u :: t in s.calls && u in s.calls && s.calls[t].Statted? ==> !InPut(s.calls[u], s.calls[t].id))
  }

  // ---- Sums over calls ----

  lemma {:induction false} OwedRemove(calls: map<nat, Call>, keys: set<nat>, k: nat)
    requires keys <= calls.Keys && k in keys
    ensures OwedBy(calls, keys) == Owed(calls[k]) + OwedBy(calls, keys - {k})
    decreases |keys|
  {
    var j :| j in keys && OwedBy(calls, keys) == Owed(calls[j]) + OwedBy(calls, keys - {j});
    if j != k {
      OwedRemove(calls, keys - {j}, k);
      OwedRemove(calls, keys - {k}, j);
      assert keys - {j} - {k} == keys - {k} - {j};
    }
  }

  lemma {:induction false} OwedFrame(a: map<nat, Call>, b: map<nat, Call>, keys: set<nat>)
    requires keys <= a.Keys && keys <= b.Keys && forall k :: k in keys ==> a[k] == b[k]
    ensures OwedBy(a, keys) == OwedBy(b, keys)
    decreases |keys|
  {
    if keys != {} {
      var k :| k in keys;
      OwedRemove(a, keys, k);
      OwedRemove(b, keys, k);
      OwedFrame(a, b, keys - {k});
    }
  }

  lemma OutstandingSet(calls: map<nat, Call>, t: nat, k: Call)
    ensures Outstanding(calls[t := k]) == Outstanding(calls) + Owed(k) - if t in calls then Owed(calls[t]) else 0
  {
    var after := calls[t := k];
    OwedRemove(after, after.Keys, t);
    var rest := after.Keys - {t};
    OwedFrame(calls, after, rest);
    if t in calls {
      OwedRemove(calls, calls.Keys, t);
      assert calls.Keys - {t} == rest;
    } else {
      assert calls.Keys == rest;
    }
  }

  lemma OutstandingDrop(calls: map<nat, Call>, t: nat)
    requires t in calls
    ensures Outstanding(calls - {t}) == Outstanding(calls) - Owed(calls[t])
  {
    OwedRemove(calls, calls.Keys, t);
    assert (calls - {t}).Keys == calls.Keys - {t};
    OwedFrame(calls, calls - {t}, calls.Keys - {t});
  }

  // ---- One step ----

  lemma TempIsNoPlainPath(c: Config, s: State, t: nat)
    requires TempsOwned(c, s) && t in s.calls && s.calls[t].Writing?
    ensures forall id :: PlainId(id) ==> s.calls[t].temp != Path(c.base, id)
  {
    var suffix :| s.calls[t].temp == TempPath(c.base, s.calls[t].id, suffix);
    forall id | PlainId(id) ensures s.calls[t].temp != Path(c.base, id) {
      TempIsNoChunk(c.base, s.calls[t].id, suffix, id);
    }
  }

  lemma PathNotLive(c: Config, s: State, id: string)
    requires TempsOwned(c, s) && PlainId(id)
    ensures Path(c.base, id) !in LiveTemps(s.calls)
  {
    forall t | t in s.calls && s.calls[t].Writing? ensures s.calls[t].temp != Path(c.base, id) {
      TempIsNoPlainPath(c, s, t);
    }
  }

  lemma TempsOwnedStep(c: Config, s: State, step: Step)
    requires TempsOwned(c, s) && Enabled(c, s, step)
    ensures TempsOwned(c, Apply(c, s, step))
  {
    var s' := Apply(c, s, step);
    if step.PutRename? {
      PathNotLive(c, s, s.calls[step.call].id);
    } else if step.DeleteUnlink? {
      PathNotLive(c, s, s.calls[step.call].id);
    }
  }

  lemma PutTempBalanced(c: Config, s: State, t: nat, suffix: string)
    requires TempsOwned(c, s) && Balanced(s) && Enabled(c, s, PutTemp(t, suffix))
    ensures Balanced(Apply(c, s, PutTemp(t, suffix)))
  {
    var s' := Apply(c, s, PutTemp(t, suffix));
    var temp := s'.calls[t].temp;
    OutstandingSet(s.calls, t, s'.calls[t]);
    assert LiveTemps(s'.calls) == LiveTemps(s.calls) + {temp} by {
      assert s'.calls[t].temp in LiveTemps(s'.calls);
      forall x | x in LiveTemps(s.calls) ensures x in LiveTemps(s'.calls) {
        var u :| u in s.calls && s.calls[u].Writing? && s.calls[u].temp == x;
        assert s'.calls[u] == s.calls[u];
      }
    }
    assert s'.files.Keys - LiveTemps(s'.calls) == s.files.Keys - LiveTemps(s.calls);
    TotalFrame(s.files, s'.files, s.files.Keys - LiveTemps(s.calls));
  }

  lemma PutWriteBalanced(c: Config, s: State, t: nat)
    requires TempsOwned(c, s) && Balanced(s) && Enabled(c, s, PutWrite(t))
    ensures Balanced(Apply(c, s, PutWrite(t)))
  {
    var s' := Apply(c, s, PutWrite(t));
    OutstandingSet(s.calls, t, s'.calls[t]);
    assert LiveTemps(s'.calls) == LiveTemps(s.calls) by {
      assert s'.calls[t].temp == s.calls[t].temp;
      forall x | x in LiveTemps(s.calls) ensures x in LiveTemps(s'.calls) {
        var u :| u in s.calls && s.calls[u].Writing? && s.calls[u].temp == x;
        assert s'.calls[u].Writing? && s'.calls[u].temp == x;
      }
    }
    assert s.calls[t].temp in LiveTemps(s.calls);
    assert s'.files.Keys == s.files.Keys;
    TotalFrame(s.files, s'.files, s.files.Keys - LiveTemps(s.calls));
  }

  lemma PutRenameBalanced(c: Config, s: State, t: nat)
    requires TempsOwned(c, s) && Balanced(s) && Enabled(c, s, PutRename(t))
    ensures Balanced(Apply(c, s, PutRename(t)))
  {
    var s' := Apply(c, s, PutRename(t));
    var k := s.calls[t];
    var p := Path(c.base, k.id);
    PathNotLive(c, s, k.id);
    TempIsNoPlainPath(c, s, t);
    OutstandingSet(s.calls, t, s'.calls[t]);
    assert LiveTemps(s'.calls) == LiveTemps(s.calls) - {k.temp} by {
      forall x | x in LiveTemps(s.calls) - {k.temp} ensures x in LiveTemps(s'.calls) {
        var u :| u in s.calls && s.calls[u].Writing? && s.calls[u].temp == x;
        assert s'.calls[u] == s.calls[u];
      }
    }
    var seen, seen' := s.files.Keys - LiveTemps(s.calls), s'.files.Keys - LiveTemps(s'.calls);
    assert k.temp in LiveTemps(s.calls);
    assert seen' == seen + {p};
    assert |s'.files[p]| == HEADER_SIZE + |k.data|;
    TotalRemove(s'.files, seen', p);
    assert seen' - {p} == seen - {p};
    TotalFrame(s.files, s'.files, seen - {p});
    if p in s.files {
      TotalRemove(s.files, seen, p);
    } else {
      assert seen - {p} == seen;
    }
  }

  lemma DeleteUnlinkBalanced(c: Config, s: State, t: nat)
    requires TempsOwned(c, s) && Balanced(s) && Enabled(c, s, DeleteUnlink(t))
    ensures Balanced(Apply(c, s, DeleteUnlink(t)))
  {
    var s' := Apply(c, s, DeleteUnlink(t));
    var k := s.calls[t];
    var p := Path(c.base, k.id);
    PathNotLive(c, s, k.id);
    SameLiveTemps(s.calls, s'.calls);
    var seen := s.files.Keys - LiveTemps(s.calls);
    if p in s.files {
      OutstandingSet(s.calls, t, s'.calls[t]);
      TotalRemove(s.files, seen, p);
      assert s'.files.Keys - LiveTemps(s'.calls) == seen - {p};
      TotalFrame(s.files, s'.files, seen - {p});
    } else {
      OutstandingDrop(s.calls, t);
    }
  }

  lemma SameLiveTemps(a: map<nat, Call>, b: map<nat, Call>)
    requires forall t :: t in a && a[t].Writing? ==> t in b && b[t] == a[t]
    requires forall t :: t in b && b[t].Writing? ==> t in a && a[t] == b[t]
    ensures LiveTemps(a) == LiveTemps(b)
  {
  }

  lemma BalancedStep(c: Config, s: State, step: Step)
    requires TempsOwned(c, s) && Balanced(s) && Enabled(c, s, step)
    ensures Balanced(Apply(c, s, step))
  {
    var s' := Apply(c, s, step);
    match step
    case PutTemp(t, suffix) => PutTempBalanced(c, s, t, suffix);
    case PutWrite(t) => PutWriteBalanced(c, s, t);
    case PutRename(t) => PutRenameBalanced(c, s, t);
    case DeleteUnlink(t) => DeleteUnlinkBalanced(c, s, t);
    case PutStart(t, _, _) =>
      if s' != s {
        SameLiveTemps(s.calls, s'.calls);
        OutstandingSet(s.calls, t, s'.calls[t]);
      }
    case DeleteStat(t, _) =>
      if s' != s {
        SameLiveTemps(s.calls, s'.calls);
        OutstandingSet(s.calls, t, s'.calls[t]);
      }
    case PutCount(t) =>
      SameLiveTemps(s.calls, s'.calls);
      OutstandingDrop(s.calls, t);
    case DeleteCount(t) =>
      SameLiveTemps(s.calls, s'.calls);
      OutstandingDrop(s.calls, t);
  }

  // ---- Whole runs ----

  lemma InitBalanced(c: Config, s: State)
    requires Init(s)
    ensures TempsOwned(c, s) && Balanced(s)
  {
    assert s.files.Keys - LiveTemps(s.calls) == s.files.Keys;
  }

  /** In every run whatsoever, the counter is off by the outstanding amounts and the drift, and by nothing else. */
  lemma {:induction false} Accounting(c: Config, states: seq<State>, steps: seq<Step>, i: nat)
    requires IsRun(c, states, steps) && Init(states[0]) && i < |states|
    ensures TempsOwned(c, states[i]) && Balanced(states[i])
  {
    if i == 0 {
      InitBalanced(c, states[0]);
    } else {
      Accounting(c, states, steps, i - 1);
      TempsOwnedStep(c, states[i - 1], steps[i - 1]);
      BalancedStep(c, states[i - 1], steps[i - 1]);
    }
  }

  /** What exclusion keeps true: a Put's target stays absent, a Delete's target keeps the size read. */
  ghost predicate Undisturbed(c: Config, s: State) {
    && s.drift == 0
    && (forall t :: t in s.calls && (s.calls[t].Checked? || s.calls[t].Writing?) ==> Path(c.base, s.calls[t].id) !in s.files)
    && (forall t :: t in s.calls && s.calls[t].Statted? && Path(c.base, s.calls[t].id) in s.files
          ==> |s.files[Path(c.base, s.calls[t].id)]| == s.calls[t].size)
  }

  lemma UndisturbedStep(c: Config, s: State, step: Step)
    requires TempsOwned(c, s) && Exclusive(s) && Undisturbed(c, s) && Enabled(c, s, step)
    ensures Undisturbed(c, Apply(c, s, step))
  {
    var s' := Apply(c, s, step);
    match step
    case PutTemp(t, suffix) =>
      forall u | u in s.calls ensures Path(c.base, s.calls[u].id) != s'.calls[t].temp {
        TempIsNoChunk(c.base, s.calls[t].id, suffix, s.calls[u].id);
      }
    case PutWrite(t) =>
      TempIsNoPlainPath(c, s, t);
    case PutRename(t) =>
      TempIsNoPlainPath(c, s, t);
      forall u | u in s.calls && u != t && (InPut(s.calls[u], s.calls[u].id) || s.calls[u].Statted?)
        ensures Path(c.base, s.calls[u].id) != Path(c.base, s.calls[t].id)
      {
        if Path(c.base, s.calls[u].id) == Path(c.base, s.calls[t].id) {
          PathInjective(c.base, s.calls[u].id, s.calls[t].id);
        }
      }
    case _ =>
  }

  /** If overlapping calls exclude each other per ID, the counter is exact up to the outstanding amounts,
      and equals a fresh scan whenever no call is running. */
  lemma {:induction false} ExclusiveAccounting(c: Config, states: seq<State>, steps: seq<Step>, i: nat)
    requires IsRun(c, states, steps) && Init(states[0]) && i < |states|
    requires forall j :: 0 <= j < |states| ==> Exclusive(states[j])
    ensures Undisturbed(c, states[i])
    ensures states[i].used + Outstanding(states[i].calls) == Visible(states[i])
    ensures states[i].calls == map[] ==> states[i].used == TotalBytes(states[i].files)
  {
    Accounting(c, states, steps, i);
    if i > 0 {
      ExclusiveAccounting(c, states, steps, i - 1);
      Accounting(c, states, steps, i - 1);
      UndisturbedStep(c, states[i - 1], steps[i - 1]);
    }
    if states[i].calls == map[] {
      assert states[i].files.Keys - LiveTemps(states[i].calls) == states[i].files.Keys;
    }
  }

  /** With no call running, the counter equals a fresh scan exactly when nothing has drifted. */
  lemma QuiescentExact(c: Config, states: seq<State>, steps: seq<Step>, i: nat)
    requires IsRun(c, states, steps) && Init(states[0]) && i < |states| && states[i].calls == map[]
    ensures states[i].used == TotalBytes(states[i].files) <==> states[i].drift == 0
  {
    Accounting(c, states, steps, i);
    assert states[i].files.Keys - LiveTemps(states[i].calls) == states[i].files.Keys;
  }

  /** The steps after which the counter no longer matches: a rename over a file that appeared since the absence check,
      and an unlink of a file whose size changed since the stat. */
  predicate Disturbs(c: Config, s: State, step: Step)
    requires Enabled(c, s, step)
  {
    match step
    case PutRename(t) => Path(c.base, s.calls[t].id) in s.files
    case DeleteUnlink(t) =>
      var p := Path(c.base, s.calls[t].id); p in s.files && |s.files[p]| != s.calls[t].size
    case _ => false
  }

  /** If no step so far was of that kind, the counter is exact up to the outstanding amounts, and at quiescence it
      equals a fresh scan. */
  lemma {:induction false} CalmRunsAreExact(c: Config, states: seq<State>, steps: seq<Step>, i: nat)
    requires IsRun(c, states, steps) && Init(states[0]) && i < |states|
    requires forall j :: 0 <= j < i ==> !Disturbs(c, states[j], steps[j])
    ensures states[i].drift == 0
    ensures states[i].used + Outstanding(states[i].calls) == Visible(states[i])
    ensures states[i].calls == map[] ==> states[i].used == TotalBytes(states[i].files)
  {
    Accounting(c, states, steps, i);
    if i > 0 {
      CalmRunsAreExact(c, states, steps, i - 1);
      assert !Disturbs(c, states[i - 1], steps[i - 1]);
    }
    if states[i].calls == map[] {
      QuiescentExact(c, states, steps, i);
    }
  }

  // ---- No reader ever sees a partial file ----

  /** The Puts started in the first `i` steps. */
  ghost function Puts(steps: seq<Step>, i: nat): set<(string, Bytes)>
    requires i <= |steps|
  {
    set j | 0 <= j < i && steps[j].PutStart? :: (steps[j].id, steps[j].data)
  }

  /** The file of every plain ID is the initial one, or the complete encoding of some Put of that ID. */
  ghost predicate FilesWhole(c: Config, initial: Files, s: State, puts: set<(string, Bytes)>) {
    forall id :: PlainId(id) && Path(c.base, id) in s.files ==> FileWhole(c, initial, s.files, id, puts)
  }

  ghost predicate FileWhole(c: Config, initial: Files, files: Files, id: string, puts: set<(string, Bytes)>)
    requires Path(c.base, id) in files
  {
    var p := Path(c.base, id);
    || (p in initial && files[p] == initial[p])
    || (exists data :: (id, data) in puts && |data| <= MAX_SIZE && files[p] == Encode(c.sha, data))
  }

  ghost predicate CallsStarted(s: State, puts: set<(string, Bytes)>) {
    forall t :: t in s.calls && (s.calls[t].Checked? || s.calls[t].Writing?) ==>
      (s.calls[t].id, s.calls[t].data) in puts && |s.calls[t].data| <= MAX_SIZE
  }

  lemma CallsStartedStep(c: Config, s: State, step: Step, puts: set<(string, Bytes)>, puts': set<(string, Bytes)>)
    requires Enabled(c, s, step) && CallsStarted(s, puts) && puts <= puts'
    requires step.PutStart? ==> (step.id, step.data) in puts'
    ensures CallsStarted(Apply(c, s, step), puts')
  {
    hide Path, PlainId, Written, TempPath;
  }

  lemma RenamedWhole(c: Config, initial: Files, s: State, t: nat, puts: set<(string, Bytes)>)
    requires TempsOwned(c, s) && CallsStarted(s, puts) && FilesWhole(c, initial, s, puts) && Enabled(c, s, PutRename(t))
    ensures FilesWhole(c, initial, Apply(c, s, PutRename(t)), puts)
  {
    var k, s' := s.calls[t], Apply(c, s, PutRename(t));
    var p := Path(c.base, k.id);
    assert s'.files[p] == Encode(c.sha, k.data);
    forall id | PlainId(id) && Path(c.base, id) in s'.files ensures FileWhole(c, initial, s'.files, id, puts) {
      if Path(c.base, id) == p {
        PathInjective(c.base, id, k.id);
      } else {
        assert FileWhole(c, initial, s.files, id, puts);
      }
    }
  }

  lemma FilesWholeStep(c: Config, initial: Files, s: State, step: Step, puts: set<(string, Bytes)>, puts': set<(string, Bytes)>)
    requires TempsOwned(c, s) && CallsStarted(s, puts) && FilesWhole(c, initial, s, puts) && puts <= puts'
    requires Enabled(c, s, step)
    ensures FilesWhole(c, initial, Apply(c, s, step), puts')
  {
    var s' := Apply(c, s, step);
    if step.PutRename? {
      RenamedWhole(c, initial, s, step.call, puts);
      hide Apply, Enabled, TempsOwned, CallsStarted;
    } else {
      forall id | PlainId(id) && Path(c.base, id) in s'.files
        ensures Path(c.base, id) in s.files && s'.files[Path(c.base, id)] == s.files[Path(c.base, id)]
      {
        if step.PutTemp? {
          TempIsNoChunk(c.base, s.calls[step.call].id, step.suffix, id);
        } else if step.PutWrite? {
          TempIsNoPlainPath(c, s, step.call);
        }
        hide TempsOwned, CallsStarted, Path, TempPath, PlainId, Written;
      }
      hide Apply, Enabled, TempsOwned, CallsStarted;
    }
    forall id | PlainId(id) && Path(c.base, id) in s'.files ensures FileWhole(c, initial, s'.files, id, puts') {
      if !step.PutRename? {
        assert FileWhole(c, initial, s.files, id, puts);
      } else {
        assert FileWhole(c, initial, s'.files, id, puts);
      }
    }
  }

  lemma {:induction false} WholeInRun(c: Config, states: seq<State>, steps: seq<Step>, i: nat)
    requires IsRun(c, states, steps) && Init(states[0]) && i < |states|
    ensures CallsStarted(states[i], Puts(steps, i)) && FilesWhole(c, states[0].files, states[i], Puts(steps, i))
  {
    if i > 0 {
      WholeInRun(c, states, steps, i - 1);
      Accounting(c, states, steps, i - 1);
      assert Puts(steps, i - 1) <= Puts(steps, i);
      assert Enabled(c, states[i - 1], steps[i - 1]) && states[i] == Apply(c, states[i - 1], steps[i - 1]);
      hide Enabled, Apply, TempsOwned, CallsStarted, FilesWhole, Balanced;
      CallsStartedStep(c, states[i - 1], steps[i - 1], Puts(steps, i - 1), Puts(steps, i));
      FilesWholeStep(c, states[0].files, states[i - 1], steps[i - 1], Puts(steps, i - 1), Puts(steps, i));
    }
  }

  /** In every state of every run, and so for concurrent readers and after a crash with any number of calls in flight:
      a plain ID reads as it did at first, or not at all, or as exactly the data of some Put of it. */
  lemma ReadersSeeWholeChunks(c: Config, states: seq<State>, steps: seq<Step>, i: nat, id: string)
    requires IsRun(c, states, steps) && Init(states[0]) && i < |states| && PlainId(id)
    ensures var read := GetChunk(c.sha, c.base, states[i].files, id);
            || read == Err(NotFound)
            || read == GetChunk(c.sha, c.base, states[0].files, id)
            || (read.Ok? && (id, read.value) in Puts(steps, i))
  {
    WholeInRun(c, states, steps, i);
    var p := Path(c.base, id);
    if p in states[i].files {
      assert FileWhole(c, states[0].files, states[i].files, id, Puts(steps, i));
      if !(p in states[0].files && states[i].files[p] == states[0].files[p]) {
        var data :| (id, data) in Puts(steps, i) && |data| <= MAX_SIZE && states[i].files[p] == Encode(c.sha, data);
        MaxSizeFits();
        IntactIffEncoded(c.sha, states[i].files[p], data);
      }
    }
    hide IsRun, Puts, Path, PlainId, Encode, Intact;
  }

  // ---- Without exclusion the counter goes wrong ----

  ghost function Last(states: seq<State>): State
    requires states != []
  {
    states[|states| - 1]
  }

  lemma Extend(c: Config, states: seq<State>, steps: seq<Step>, step: Step)
    requires IsRun(c, states, steps) && Enabled(c, Last(states), step)
    ensures IsRun(c, states + [Apply(c, Last(states), step)], steps + [step])
  {
    var states', steps' := states + [Apply(c, Last(states), step)], steps + [step];
    forall i | 0 <= i < |steps'|
      ensures Enabled(c, states'[i], steps'[i]) && states'[i + 1] == Apply(c, states'[i], steps'[i])
    {
      if i < |steps| {
        assert states'[i] == states[i] && states'[i + 1] == states[i + 1];
      }
    }
  }

  /** No Delete takes part. */
  ghost predicate PutsOnly(steps: seq<Step>) {
    forall i :: 0 <= i < |steps| ==> !steps[i].DeleteStat? && !steps[i].DeleteUnlink? && !steps[i].DeleteCount?
  }

  /** The three writes of one Put, after its temporary file was created. */
  lemma WriteStages(c: Config, states: seq<State>, steps: seq<Step>, t: nat, temp: string)
    returns (states': seq<State>, steps': seq<Step>)
    requires IsRun(c, states, steps) && t in Last(states).calls && Last(states).calls[t].Writing?
    requires Last(states).calls[t].stage == 0 && Last(states).calls[t].temp == temp
    requires temp in Last(states).files && Last(states).files[temp] == []
    ensures IsRun(c, states', steps') && (PutsOnly(steps) ==> PutsOnly(steps'))
    ensures var s, k := Last(states), Last(states).calls[t];
            Last(states') == s.(files := s.files[temp := Encode(c.sha, k.data)],
                                calls := s.calls[t := Writing(k.id, k.data, temp, LAST_STAGE)])
    ensures states <= states'
  {
    var s, k := Last(states), Last(states).calls[t];
    states', steps' := states, steps;
    assert Written(c.sha, k.data, LAST_STAGE) == Encode(c.sha, k.data);
    assert s.files == s.files[temp := Written(c.sha, k.data, 0)];
    hide Written, Encode;
    for stage := 0 to LAST_STAGE
      invariant IsRun(c, states', steps') && states <= states' && (PutsOnly(steps) ==> PutsOnly(steps'))
      invariant Last(states') == s.(files := s.files[temp := Written(c.sha, k.data, stage)],
                                    calls := s.calls[t := Writing(k.id, k.data, temp, stage)])
    {
      Extend(c, states', steps', PutWrite(t));
      var next := Apply(c, Last(states'), PutWrite(t));
      WriteStage(c, s, Last(states'), t, temp, stage);
      states', steps' := states' + [next], steps' + [PutWrite(t)];
    }
  }

  lemma WriteStage(c: Config, s: State, now: State, t: nat, temp: string, stage: nat)
    requires t in s.calls && s.calls[t].Writing? && stage < LAST_STAGE
    requires now == s.(files := s.files[temp := Written(c.sha, s.calls[t].data, stage)],
                       calls := s.calls[t := Writing(s.calls[t].id, s.calls[t].data, temp, stage)])
    ensures Enabled(c, now, PutWrite(t))
    ensures Apply(c, now, PutWrite(t)) == s.(files := s.files[temp := Written(c.sha, s.calls[t].data, stage + 1)],
                                             calls := s.calls[t := Writing(s.calls[t].id, s.calls[t].data, temp, stage + 1)])
  {
    hide Written;
  }

  /** The rename of one Put. */
  lemma RenameOut(c: Config, states: seq<State>, steps: seq<Step>, t: nat, files: Files, temp: string)
    returns (states': seq<State>, steps': seq<Step>)
    requires IsRun(c, states, steps) && t in Last(states).calls && Last(states).calls[t].Writing?
    requires Last(states).calls[t].stage == LAST_STAGE && Last(states).calls[t].temp == temp
    requires temp !in files && temp != Path(c.base, Last(states).calls[t].id)
    requires Last(states).files == files[temp := Encode(c.sha, Last(states).calls[t].data)]
    ensures IsRun(c, states', steps') && states <= states' && (PutsOnly(steps) ==> PutsOnly(steps'))
    ensures var s, k := Last(states), Last(states).calls[t];
            var p := Path(c.base, k.id);
            Last(states') == s.(files := files[p := Encode(c.sha, k.data)],
                                calls := s.calls[t := Renamed(k.id, HEADER_SIZE + |k.data|)],
                                drift := s.drift + FileSize(files, p))
  {
    hide Path, Encode;
    Extend(c, states, steps, PutRename(t));
    states', steps' := states + [Apply(c, Last(states), PutRename(t))], steps + [PutRename(t)];
    assert files[temp := Encode(c.sha, Last(states).calls[t].data)] - {temp} == files;
  }

  /** Runs one Put from its absence check to just after its rename. */
  lemma WriteOut(c: Config, states: seq<State>, steps: seq<Step>, t: nat, suffix: string)
    returns (states': seq<State>, steps': seq<Step>)
    requires IsRun(c, states, steps) && t in Last(states).calls && Last(states).calls[t].Checked?
    requires PlainId(Last(states).calls[t].id) && TempPath(c.base, Last(states).calls[t].id, suffix) !in Last(states).files
    ensures IsRun(c, states', steps') && states <= states' && (PutsOnly(steps) ==> PutsOnly(steps'))
    ensures var s, k := Last(states), Last(states).calls[t];
            var p := Path(c.base, k.id);
            Last(states') == s.(files := s.files[p := Encode(c.sha, k.data)],
                                calls := s.calls[t := Renamed(k.id, HEADER_SIZE + |k.data|)],
                                drift := s.drift + FileSize(s.files, p))
  {
    var s, k := Last(states), Last(states).calls[t];
    var temp := TempPath(c.base, k.id, suffix);
    TempIsNoChunk(c.base, k.id, suffix, k.id);
    Extend(c, states, steps, PutTemp(t, suffix));
    states', steps' := states + [Apply(c, s, PutTemp(t, suffix))], steps + [PutTemp(t, suffix)];
    hide IsRun, Path, TempPath, Encode, PlainId;
    states', steps' := WriteStages(c, states', steps', t, temp);
    assert Last(states').files == s.files[temp := Encode(c.sha, k.data)];
    states', steps' := RenameOut(c, states', steps', t, s.files, temp);
    assert s.calls[t := Last(states').calls[t]] == Last(states').calls;
  }

  /** Two overlapping Puts of one absent ID leave the counter too high by the whole file, for every ID and payload. */
  lemma OverlappingPutsMiscount(c: Config, id: string, data: Bytes) returns (states: seq<State>, steps: seq<Step>)
    requires PlainId(id) && |data| <= MAX_SIZE
    ensures IsRun(c, states, steps) && Init(states[0])
    ensures Last(states).calls == map[]
    ensures Last(states).used == TotalBytes(Last(states).files) + 40 + |data|
  {
    var start := State(map[], 0, map[], 0);
    states, steps := [start], [];
    Extend(c, states, steps, PutStart(0, id, data));
    states, steps := states + [Apply(c, Last(states), PutStart(0, id, data))], steps + [PutStart(0, id, data)];
    Extend(c, states, steps, PutStart(1, id, data));
    states, steps := states + [Apply(c, Last(states), PutStart(1, id, data))], steps + [PutStart(1, id, data)];
    states, steps := WriteOut(c, states, steps, 0, "0");
    TempIsNoChunk(c.base, id, "0", id);
    states, steps := WriteOut(c, states, steps, 1, "0");
    var file := Encode(c.sha, data);
    var p := Path(c.base, id);
    assert Last(states).files == map[p := file];
    assert Last(states).drift == |file|;
    Extend(c, states, steps, PutCount(0));
    states, steps := states + [Apply(c, Last(states), PutCount(0))], steps + [PutCount(0)];
    Extend(c, states, steps, PutCount(1));
    states, steps := states + [Apply(c, Last(states), PutCount(1))], steps + [PutCount(1)];
    assert Last(states).calls == map[];
    Accounting(c, states, steps, |states| - 1);
    assert Last(states).files.Keys - LiveTemps(Last(states).calls) == Last(states).files.Keys;
  }

  /** Two overlapping Deletes of one chunk remove it once and count it once, for every ID and payload. */
  lemma OverlappingDeletesCountOnce(c: Config, id: string, data: Bytes) returns (states: seq<State>, steps: seq<Step>)
    requires PlainId(id)
    ensures IsRun(c, states, steps) && Init(states[0]) && states[0].files == map[Path(c.base, id) := Encode(c.sha, data)]
    ensures steps == [DeleteStat(0, id), DeleteStat(1, id), DeleteUnlink(0), DeleteUnlink(1), DeleteCount(0)]
    ensures Last(states).calls == map[] && Last(states).files == map[] && Last(states).used == 0
  {
    var p, file := Path(c.base, id), Encode(c.sha, data);
    TotalMeaning(p, file);
    hide Path, Encode, PlainId, TotalBytes;
    var start := State(map[p := file], |file|, map[], 0);
    states, steps := [start], [];
    Extend(c, states, steps, DeleteStat(0, id));
    states, steps := states + [Apply(c, Last(states), DeleteStat(0, id))], steps + [DeleteStat(0, id)];
    Extend(c, states, steps, DeleteStat(1, id));
    states, steps := states + [Apply(c, Last(states), DeleteStat(1, id))], steps + [DeleteStat(1, id)];
    assert Last(states).calls == map[0 := Statted(id, |file|), 1 := Statted(id, |file|)];
    hide IsRun;
    Extend(c, states, steps, DeleteUnlink(0));
    states, steps := states + [Apply(c, Last(states), DeleteUnlink(0))], steps + [DeleteUnlink(0)];
    assert Last(states).files == map[];
    Extend(c, states, steps, DeleteUnlink(1));
    states, steps := states + [Apply(c, Last(states), DeleteUnlink(1))], steps + [DeleteUnlink(1)];
    assert Last(states).calls == map[0 := Unlinked(id, |file|)];
    Extend(c, states, steps, DeleteCount(0));
    states, steps := states + [Apply(c, Last(states), DeleteCount(0))], steps + [DeleteCount(0)];
    assert Last(states).calls == map[];
  }
}
