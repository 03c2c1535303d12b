/** What readers of plain IDs see of the concurrent store: every step is no change, or one whole Put or Delete. */
module ConcurrentReads {
  import opened Prelude
  import opened ChunkFile
  import opened ByteAccounting
  import WriteOnceMap

  /** Both directory trees have the same files for plain IDs. */
  ghost predicate SamePlain(base: string, a: Files, b: Files) {
    forall id :: PlainId(id) ==>
      && (Path(base, id) in a <==> Path(base, id) in b)
      && (Path(base, id) in a ==> a[Path(base, id)] == b[Path(base, id)])
  }

  lemma SamePlainReads(sha: Sha, base: string, a: Files, b: Files, id: string)
    requires SamePlain(base, a, b) && PlainId(id)
    ensures GetChunk(sha, base, a, id) == GetChunk(sha, base, b, id)
  {
    hide Path, PlainId, Intact;
  }

  // ---- One step ----

  /** The operation that takes effect in this step: a Put at its rename, or at its check when it finds a file or too
      much data; a Delete at its unlink, or at its stat when it finds nothing. */
  function Effect(c: Config, s: State, step: Step): Option<WriteOnceMap.Op>
    requires Enabled(c, s, step)
  {
    match step
    case PutStart(t, id, data) =>
      if |data| > MAX_SIZE || Path(c.base, id) in s.files then Some(WriteOnceMap.Put(id, data)) else None
    case PutRename(t) => Some(WriteOnceMap.Put(s.calls[t].id, s.calls[t].data))
    case DeleteStat(t, id) => if Path(c.base, id) !in s.files then Some(WriteOnceMap.Delete(id)) else None
    case DeleteUnlink(t) => Some(WriteOnceMap.Delete(s.calls[t].id))
    case _ => None
  }

  /** A rename lands on an existing file: possible only when Puts of one ID overlap. */
  predicate Overwrites(c: Config, s: State, step: Step)
    requires Enabled(c, s, step)
  {
    step.PutRename? && Path(c.base, s.calls[step.call].id) in s.files
  }

  /** The files after one operation, all at once; an overwriting rename replaces what it finds. */
  function Atomic(c: Config, s: State, step: Step): Files
    requires Enabled(c, s, step)
  {
    if Overwrites(c, s, step) then
      OverwriteChunk(c.sha, c.base, s.files, s.calls[step.call].id, s.calls[step.call].data)
    else match Effect(c, s, step)
      case None => s.files
      case Some(op) => WriteOnceMap.FileStep(c.sha, c.base, s.files, op).1
  }

  /** A temporary file coming, growing or going is invisible. */
  lemma TempInvisible(c: Config, s: State, step: Step)
    requires TempsOwned(c, s) && Enabled(c, s, step) && (step.PutTemp? || step.PutWrite?)
    ensures SamePlain(c.base, Apply(c, s, step).files, s.files)
  {
    var s' := Apply(c, s, step);
    forall id | PlainId(id)
      ensures Path(c.base, id) in s'.files <==> Path(c.base, id) in s.files
      ensures Path(c.base, id) in s.files ==> s'.files[Path(c.base, id)] == s.files[Path(c.base, id)]
    {
      if step.PutTemp? {
        TempIsNoChunk(c.base, s.calls[step.call].id, step.suffix, id);
      } else {
        TempIsNoPlainPath(c, s, step.call);
      }
      hide TempsOwned, Path, TempPath, PlainId, Written;
    }
  }

  lemma RenameIsPut(c: Config, s: State, t: nat)
    requires TempsOwned(c, s) && Enabled(c, s, PutRename(t)) && |s.calls[t].data| <= MAX_SIZE
    ensures SamePlain(c.base, Apply(c, s, PutRename(t)).files, Atomic(c, s, PutRename(t)))
  {
    var k := s.calls[t];
    TempIsNoPlainPath(c, s, t);
    assert s.files[k.temp] == Encode(c.sha, k.data);
    assert Atomic(c, s, PutRename(t)) == s.files[Path(c.base, k.id) := Encode(c.sha, k.data)];
    hide TempsOwned, Atomic, Path, PlainId, Written, Encode;
  }

  /** Without any assumption on overlaps: a step changes what plain IDs hold exactly as its operation would at once. */
  lemma StepIsAtomic(c: Config, s: State, step: Step, puts: set<(string, Bytes)>)
    requires TempsOwned(c, s) && CallsStarted(s, puts) && Enabled(c, s, step)
    ensures SamePlain(c.base, Apply(c, s, step).files, Atomic(c, s, step))
  {
    if step.PutTemp? || step.PutWrite? {
      TempInvisible(c, s, step);
      hide TempsOwned, CallsStarted, SamePlain, Apply, Path, PlainId;
    } else if step.PutRename? {
      RenameIsPut(c, s, step.call);
      hide TempsOwned, SamePlain, Apply, Atomic, Path, PlainId;
    } else {
      assert Apply(c, s, step).files == Atomic(c, s, step) by {
        hide Path, PlainId, TempPath, Encode, TempsOwned, CallsStarted, HeaderMatches;
      }
      hide TempsOwned, CallsStarted, Apply, Atomic, Path, PlainId;
    }
  }

  /** A plain ID's content changes only when it is unlinked or renamed onto, and then to just this. */
  lemma ReadAfterStep(c: Config, s: State, step: Step, puts: set<(string, Bytes)>, id: string)
    requires TempsOwned(c, s) && CallsStarted(s, puts) && Enabled(c, s, step) && PlainId(id)
    ensures GetChunk(c.sha, c.base, Apply(c, s, step).files, id) ==
      if step.DeleteUnlink? && s.calls[step.call].id == id then Err(NotFound)
      else if step.PutRename? && s.calls[step.call].id == id then Ok(s.calls[step.call].data)
      else GetChunk(c.sha, c.base, s.files, id)
  {
    StepIsAtomic(c, s, step, puts);
    SamePlainReads(c.sha, c.base, Apply(c, s, step).files, Atomic(c, s, step), id);
    if step.PutRename? {
      RenameReads(c, s, step.call, puts, id);
    } else if step.DeleteUnlink? {
      if Path(c.base, s.calls[step.call].id) == Path(c.base, id) {
        PathInjective(c.base, s.calls[step.call].id, id);
      }
    }
    hide TempsOwned, CallsStarted, Apply, SamePlain, Path, PlainId, Intact, Encode, HeaderMatches;
  }

  lemma RenameReads(c: Config, s: State, t: nat, puts: set<(string, Bytes)>, id: string)
    requires CallsStarted(s, puts) && Enabled(c, s, PutRename(t))
    ensures GetChunk(c.sha, c.base, Atomic(c, s, PutRename(t)), id) ==
      if s.calls[t].id == id then Ok(s.calls[t].data) else GetChunk(c.sha, c.base, s.files, id)
  {
    var k := s.calls[t];
    MaxSizeFits();
    IntactIffEncoded(c.sha, Encode(c.sha, k.data), k.data);
    if Path(c.base, k.id) == Path(c.base, id) {
      PathInjective(c.base, k.id, id);
    }
    hide Path, Encode, Intact, HeaderMatches;
  }

  // ---- Runs in which calls exclude each other ----

  /** A run of a freshly opened store in which calls on one ID exclude each other. */
  ghost predicate ExclusiveRun(c: Config, states: seq<State>, steps: seq<Step>) {
    IsRun(c, states, steps) && Init(states[0]) && forall k :: 0 <= k < |states| ==> Exclusive(states[k])
  }

  ghost predicate Sound(c: Config, s: State, puts: set<(string, Bytes)>) {
    TempsOwned(c, s) && CallsStarted(s, puts) && Undisturbed(c, s)
  }

  lemma SoundInRun(c: Config, states: seq<State>, steps: seq<Step>, k: nat)
    requires ExclusiveRun(c, states, steps) && k < |steps|
    ensures |states| == |steps| + 1 && Sound(c, states[k], Puts(steps, k))
    ensures Enabled(c, states[k], steps[k]) && states[k + 1] == Apply(c, states[k], steps[k])
  {
    hide Enabled, Apply, Undisturbed, TempsOwned, CallsStarted, FilesWhole, Balanced, Exclusive;
    Accounting(c, states, steps, k);
    WholeInRun(c, states, steps, k);
    ExclusiveAccounting(c, states, steps, k);
  }

  lemma ReadStays(c: Config, s: State, step: Step, puts: set<(string, Bytes)>, id: string)
    requires Sound(c, s, puts) && Enabled(c, s, step) && PlainId(id) && GetChunk(c.sha, c.base, s.files, id).Ok?
    requires !(step.DeleteUnlink? && s.calls[step.call].id == id)
    ensures GetChunk(c.sha, c.base, Apply(c, s, step).files, id) == GetChunk(c.sha, c.base, s.files, id)
  {
    NoOverwrite(c, s, step, id);
    ReadAfterStep(c, s, step, puts, id);
    hide TempsOwned, CallsStarted, Undisturbed, Apply, GetChunk, PlainId;
  }

  /** This step removes the file of `id`. */
  predicate Unlinks(s: State, step: Step, id: string) {
    step.DeleteUnlink? && step.call in s.calls && s.calls[step.call].id == id
  }

  /** A readable plain ID stays as it is until it is unlinked. */
  lemma {:induction false} ReadsStayUntilUnlinked(c: Config, states: seq<State>, steps: seq<Step>, i: nat, j: nat, id: string)
    requires ExclusiveRun(c, states, steps) && i <= j <= |steps| && |states| == |steps| + 1 && PlainId(id)
    requires forall k :: i <= k < j ==> !Unlinks(states[k], steps[k], id)
    requires GetChunk(c.sha, c.base, states[i].files, id).Ok?
    ensures GetChunk(c.sha, c.base, states[j].files, id) == GetChunk(c.sha, c.base, states[i].files, id)
    decreases j
  {
    hide ExclusiveRun, Sound, Enabled, Apply, GetChunk, PlainId;
    if j > i {
      ReadsStayUntilUnlinked(c, states, steps, i, j - 1, id);
      SoundInRun(c, states, steps, j - 1);
      assert !Unlinks(states[j - 1], steps[j - 1], id);
      if steps[j - 1].DeleteUnlink? {
        UnlinksCalled(c, states[j - 1], steps[j - 1]);
      }
      ReadStays(c, states[j - 1], steps[j - 1], Puts(steps, j - 1), id);
    }
  }

  lemma UnlinksCalled(c: Config, s: State, step: Step)
    requires Enabled(c, s, step) && step.DeleteUnlink?
    ensures step.call in s.calls
  {
  }

  lemma NoOverwrite(c: Config, s: State, step: Step, id: string)
    requires Undisturbed(c, s) && Enabled(c, s, step)
    ensures !Overwrites(c, s, step)
    ensures step.PutRename? && s.calls[step.call].id == id ==> GetChunk(c.sha, c.base, s.files, id).Err?
  {
  }

  lemma RunStarts(c: Config, states: seq<State>, steps: seq<Step>)
    requires ExclusiveRun(c, states, steps)
    ensures IsRun(c, states, steps) && |states| == |steps| + 1
  {
  }

  /** The map after the operations that took effect in the first `i` steps. */
  ghost function MapAfter(c: Config, states: seq<State>, steps: seq<Step>, m: WriteOnceMap.Chunks, i: nat): WriteOnceMap.Chunks
    requires IsRun(c, states, steps) && i < |states|
  {
    if i == 0 then m
    else
      var before := MapAfter(c, states, steps, m, i - 1);
      match Effect(c, states[i - 1], steps[i - 1])
      case None => before
      case Some(op) => WriteOnceMap.MapStep(before, op).1
  }

  lemma SamePlainRepresents(sha: Sha, base: string, a: Files, b: Files, m: WriteOnceMap.Chunks)
    requires SamePlain(base, a, b) && WriteOnceMap.Represents(sha, base, b, m)
    ensures WriteOnceMap.Represents(sha, base, a, m)
  {
    hide Path, PlainId, Encode;
  }

  lemma EffectRefines(c: Config, s: State, step: Step, m: WriteOnceMap.Chunks, puts: set<(string, Bytes)>, payloads: set<Bytes>)
    requires TempsOwned(c, s) && CallsStarted(s, puts) && Undisturbed(c, s) && Enabled(c, s, step)
    requires WriteOnceMap.Represents(c.sha, c.base, s.files, m)
    requires Separates(c.sha, payloads) && m.Values <= payloads && (step.PutStart? ==> step.data in payloads)
    requires forall p :: p in puts ==> p.1 in payloads
    ensures var m' := match Effect(c, s, step) case None => m case Some(op) => WriteOnceMap.MapStep(m, op).1;
            WriteOnceMap.Represents(c.sha, c.base, Atomic(c, s, step), m') && m'.Values <= payloads
  {
    NoOverwrite(c, s, step, "");
    match Effect(c, s, step)
    case None =>
    case Some(op) =>
      EffectKnown(c, s, step, puts, payloads);
      hide TempsOwned, CallsStarted, Undisturbed, Enabled, Effect, Path, PlainId, Encode;
      WriteOnceMap.ValuesStay(m, op, payloads);
      match op {
        case Put(id, data) => WriteOnceMap.PutRefines(c.sha, c.base, s.files, m, id, data);
        case Delete(id) => WriteOnceMap.DeleteRefines(c.sha, c.base, s.files, m, id);
        case Get(_) =>
      }
  }

  lemma EffectKnown(c: Config, s: State, step: Step, puts: set<(string, Bytes)>, payloads: set<Bytes>)
    requires TempsOwned(c, s) && CallsStarted(s, puts) && Enabled(c, s, step)
    requires (step.PutStart? ==> step.data in payloads) && forall p :: p in puts ==> p.1 in payloads
    ensures Effect(c, s, step).Some? ==>
      var op := Effect(c, s, step).value;
      PlainId(op.id) && !op.Get? && (op.Put? ==> op.data in payloads)
  {
    hide PlainId, Path, Written, TempPath;
  }

  /** The concurrent store refines the write-once map: whatever the interleaving, as long as calls on one ID exclude each
      other, its plain files are at all times those of the map after the operations that took effect, in that order. */
  lemma {:induction false} ConcurrentRunRefines(
    c: Config, states: seq<State>, steps: seq<Step>, m: WriteOnceMap.Chunks, payloads: set<Bytes>, i: nat)
    requires ExclusiveRun(c, states, steps) && i < |states|
    requires WriteOnceMap.Represents(c.sha, c.base, states[0].files, m)
    requires Separates(c.sha, payloads) && m.Values <= payloads
    requires forall k :: 0 <= k < |steps| && steps[k].PutStart? ==> steps[k].data in payloads
    ensures WriteOnceMap.Represents(c.sha, c.base, states[i].files, MapAfter(c, states, steps, m, i))
    ensures MapAfter(c, states, steps, m, i).Values <= payloads
  {
    RunStarts(c, states, steps);
    hide ExclusiveRun, Sound, Enabled, Apply, Separates, Effect, WriteOnceMap.Represents, WriteOnceMap.MapStep, Puts;
    if i > 0 {
      ConcurrentRunRefines(c, states, steps, m, payloads, i - 1);
      SoundInRun(c, states, steps, i - 1);
      PutsKnown(steps, i - 1, payloads);
      EffectRefinesStep(c, states[i - 1], steps[i - 1], MapAfter(c, states, steps, m, i - 1), Puts(steps, i - 1), payloads);
    }
  }

  lemma PutsKnown(steps: seq<Step>, i: nat, payloads: set<Bytes>)
    requires i <= |steps| && forall k :: 0 <= k < |steps| && steps[k].PutStart? ==> steps[k].data in payloads
    ensures forall p :: p in Puts(steps, i) ==> p.1 in payloads
  {
  }

  lemma EffectRefinesStep(c: Config, s: State, step: Step, m: WriteOnceMap.Chunks, puts: set<(string, Bytes)>, payloads: set<Bytes>)
    requires Sound(c, s, puts) && Enabled(c, s, step) && WriteOnceMap.Represents(c.sha, c.base, s.files, m)
    requires Separates(c.sha, payloads) && m.Values <= payloads && (step.PutStart? ==> step.data in payloads)
    requires forall p :: p in puts ==> p.1 in payloads
    ensures var m' := match Effect(c, s, step) case None => m case Some(op) => WriteOnceMap.MapStep(m, op).1;
            WriteOnceMap.Represents(c.sha, c.base, Apply(c, s, step).files, m') && m'.Values <= payloads
  {
    hide TempsOwned, CallsStarted, Undisturbed, Apply, Enabled, Effect, Atomic, SamePlain, Separates, WriteOnceMap.Represents, WriteOnceMap.MapStep;
    StepIsAtomic(c, s, step, puts);
    EffectRefines(c, s, step, m, puts, payloads);
    SamePlainRepresents(c.sha, c.base, Apply(c, s, step).files, Atomic(c, s, step),
      match Effect(c, s, step) case None => m case Some(op) => WriteOnceMap.MapStep(m, op).1);
  }

  // ---- Without exclusion a chunk can be replaced ----

  /** Two overlapping Puts of one absent ID, no Delete: the ID reads as `first`, and later as `second`. */
  lemma OverlappingPutsOverwrite(c: Config, id: string, first: Bytes, second: Bytes)
    returns (states: seq<State>, steps: seq<Step>, i: nat)
    requires PlainId(id) && |first| <= MAX_SIZE && |second| <= MAX_SIZE
    ensures IsRun(c, states, steps) && Init(states[0]) && PutsOnly(steps) && i < |states|
    ensures GetChunk(c.sha, c.base, states[i].files, id) == Ok(first)
    ensures GetChunk(c.sha, c.base, Last(states).files, id) == Ok(second)
  {
    var start := State(map[], 0, map[], 0);
    states, steps := [start], [];
    Extend(c, states, steps, PutStart(0, id, first));
    states, steps := states + [Apply(c, Last(states), PutStart(0, id, first))], steps + [PutStart(0, id, first)];
    Extend(c, states, steps, PutStart(1, id, second));
    states, steps := states + [Apply(c, Last(states), PutStart(1, id, second))], steps + [PutStart(1, id, second)];
    MaxSizeFits();
    IntactIffEncoded(c.sha, Encode(c.sha, first), first);
    IntactIffEncoded(c.sha, Encode(c.sha, second), second);
    assert Last(states).calls == map[0 := Checked(id, first), 1 := Checked(id, second)];
    hide IsRun, Encode, Intact, TotalBytes;
    states, steps := WriteOut(c, states, steps, 0, "0");
    i := |states| - 1;
    TempIsNoChunk(c.base, id, "0", id);
    hide Path, TempPath, PlainId;
    states, steps := WriteOut(c, states, steps, 1, "0");
  }
}
