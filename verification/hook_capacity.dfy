/** The 100-file cap of the buffer: an invariant of runs that do not overlap, whatever they are
    answered and wherever they crash, and no invariant of overlapping ones
    (cmd/sessionlens-hook/main.go). */
module HookCapacity {
  import opened HookNames
  import opened HookProtocol
  import opened HookRuns
  import opened HookRecovery
  import opened HookSafety
  import opened Sets

  /** The buffer files, plain and claimed. */
  function Files(dir: Directory): set<Name> {
    set n | n in dir && !n.Temp?
  }

  /** Until it has finished. */
  predicate Live(pc: Pc) {
    !pc.Finished?
  }

  function LiveOnes(s: State): set<nat> {
    set p | p in s.procs && Live(s.procs[p])
  }

  /** The operations that the cap depends on succeed: those that bring claimed files back or remove
      files. */
  predicate KeepsFiles(act: Act) {
    match act
    case Reclaim(ok) => ok
    case PutBack(ok) => ok
    case Remove(ok) => ok
    case Evict(ok) => ok
    case _ => true
  }

  /** At most `m` processes live at a time, with file names that increase with time. */
  ghost predicate Fair(s: State, a: Action, m: nat) {
    && Enabled(s, a)
    && (a.Spawn? ==> |LiveOnes(s)| < m)
    && (a.Do? ==> KeepsFiles(a.act))
    && (a.Do? && a.act.Open? ==> forall u :: u in s.used ==> Before(u, a.act.base))
  }

  ghost predicate IsFairRun(s: State, acts: seq<Action>, m: nat)
    decreases |acts|
  {
    acts == [] || (Fair(s, acts[0], m) && IsFairRun(Step(s, acts[0]), acts[1..], m))
  }

  lemma {:induction false} FairRunIsRun(s: State, acts: seq<Action>, m: nat)
    requires IsFairRun(s, acts, m)
    ensures IsRun(s, acts)
    decreases |acts|
  {
    if acts != [] {
      FairRunIsRun(Step(s, acts[0]), acts[1..], m);
    }
  }

  /** Evicted events are older than everything still in the buffer. */
  ghost predicate OldestFirst(s: State) {
    && s.evicted <= s.used
    && forall e, n :: e in s.evicted && n in Files(s.dir) ==> Before(e, n.base)
  }

  /** `victims` are plain files, and older than all other files. */
  ghost predicate Doomed(dir: Directory, victims: seq<Base>) {
    && Sorted(victims)
    && (forall v :: v in victims ==> Plain(v) in dir)
    && forall v, n :: v in victims && n in Files(dir) && n.base !in victims ==> Before(v, n.base)
  }

  ghost predicate PcBounded(s: State, pid: nat, pc: Pc) {
    match pc
    case Starting => true
    case Reclaiming(stale) => forall n :: n in s.dir && n.Claimed? ==> n in stale
    case Reading(todo) => todo != [] && OnlyClaim(s.dir, Claimed(todo[0], pid))
    case Posting(_, _, todo) => todo != [] && OnlyClaim(s.dir, Claimed(todo[0], pid))
    case PuttingBack(todo) => todo != [] && OnlyClaim(s.dir, Claimed(todo[0], pid))
    case Removing(todo) => todo != [] && OnlyClaim(s.dir, Claimed(todo[0], pid))
    case Evicting(_, victims) =>
      NoClaims(s.dir) && Doomed(s.dir, victims) && |Files(s.dir)| - |victims| == BUFFER_CAP - 1
    case Opening(_) => |Files(s.dir)| < BUFFER_CAP
    case Filling(_, b) => |Files(s.dir)| < BUFFER_CAP && forall e :: e in s.evicted ==> Before(e, b)
    case Publishing(_, b) => |Files(s.dir)| < BUFFER_CAP && forall e :: e in s.evicted ==> Before(e, b)
    case Finished => true
    case _ => NoClaims(s.dir)
  }

  ghost predicate Bounded(s: State, cap: nat) {
    && Inv(s)
    && BUFFER_CAP <= cap
    && |Files(s.dir)| <= cap
    && OldestFirst(s)
    && (forall p, q :: p in LiveOnes(s) && q in LiveOnes(s) ==> p == q)
    && forall p :: p in s.procs ==> PcBounded(s, p, s.procs[p])
  }

  // --- Keeping the bound ---

  lemma FilesAfterMove(dir: Directory, from: Name, to: Name)
    requires !from.Temp? && !to.Temp? && from.base == to.base && from != to && OnePlace(dir)
    ensures |Files(Rename(dir, from, to))| == |Files(dir)|
    ensures forall n :: n in Files(Rename(dir, from, to)) ==> exists m :: m in Files(dir) && m.base == n.base
  {
    var dir' := Rename(dir, from, to);
    if from in dir {
      assert to !in dir;
      assert Files(dir') == Files(dir) - {from} + {to};
      forall n | n in Files(dir')
        ensures exists m :: m in Files(dir) && m.base == n.base
      {
        if n == to {
          assert from in Files(dir);
        } else {
          assert n in Files(dir);
        }
      }
    }
  }

  lemma MoveBounded(s: State, s': State, cap: nat, from: Name, to: Name)
    requires Bounded(s, cap) && !from.Temp? && !to.Temp? && from.base == to.base && from != to
    requires s'.dir == Rename(s.dir, from, to) && s'.evicted == s.evicted && s'.used == s.used
    ensures |Files(s'.dir)| <= cap && OldestFirst(s')
  {
    FilesAfterMove(s.dir, from, to);
  }

  /** What is left to show of a step. */
  lemma StepBounded(s: State, s': State, cap: nat, pid: nat)
    requires Bounded(s, cap) && pid in s.procs && Live(s.procs[pid]) && Inv(s')
    requires pid in s'.procs && s'.procs == s.procs[pid := s'.procs[pid]] && PcBounded(s', pid, s'.procs[pid])
    requires OldestFirst(s') && |Files(s'.dir)| <= cap
    ensures Bounded(s', cap)
  {
    assert pid in LiveOnes(s);
    forall p | p in s'.procs && p != pid
      ensures s'.procs[p] == Finished
    {
      assert p !in LiveOnes(s);
    }
  }

  lemma ReclaimBounded(s: State, cap: nat, pid: nat)
    requires Bounded(s, cap) && pid in s.procs && Waiting(s.procs[pid], Reclaim(true))
    ensures Bounded(DoReclaim(s, pid, s.procs[pid].stale, true), cap)
  {
    var stale := s.procs[pid].stale;
    var s' := DoReclaim(s, pid, stale, true);
    ReclaimKeepsInv(s, pid, true);
    assert PcOk(s, s.procs[pid]) && PcBounded(s, pid, s.procs[pid]) && stale[0] in stale;
    MoveBounded(s, s', cap, stale[0], Plain(stale[0].base));
    forall n | n in s'.dir && n.Claimed?
      ensures n in stale[1..]
    {
      assert n in s.dir && n != stale[0] && n in stale;
    }
    StepBounded(s, s', cap, pid);
  }

  lemma ClaimBounded(s: State, cap: nat, pid: nat, ok: bool)
    requires Bounded(s, cap) && pid in s.procs && Waiting(s.procs[pid], Claim(ok))
    ensures Bounded(DoClaim(s, pid, s.procs[pid].todo, ok), cap)
  {
    var todo := s.procs[pid].todo;
    var s' := DoClaim(s, pid, todo, ok);
    ClaimKeepsInv(s, pid, ok);
    assert PcBounded(s, pid, s.procs[pid]);
    if ok && Plain(todo[0]) in s.dir {
      MoveBounded(s, s', cap, Plain(todo[0]), Claimed(todo[0], pid));
    }
    StepBounded(s, s', cap, pid);
  }

  lemma PutBackBounded(s: State, cap: nat, pid: nat)
    requires Bounded(s, cap) && pid in s.procs && Waiting(s.procs[pid], PutBack(true))
    ensures Bounded(DoPutBack(s, pid, s.procs[pid].todo, true), cap)
  {
    var todo := s.procs[pid].todo;
    var s' := DoPutBack(s, pid, todo, true);
    PutBackKeepsInv(s, pid, true);
    assert PcBounded(s, pid, s.procs[pid]);
    MoveBounded(s, s', cap, Claimed(todo[0], pid), Plain(todo[0]));
    assert NoClaims(s'.dir);
    StepBounded(s, s', cap, pid);
  }

  lemma RemoveBounded(s: State, cap: nat, pid: nat)
    requires Bounded(s, cap) && pid in s.procs && Waiting(s.procs[pid], Remove(true))
    ensures Bounded(DoRemove(s, pid, s.procs[pid].todo, true), cap)
  {
    var todo := s.procs[pid].todo;
    var s' := DoRemove(s, pid, todo, true);
    RemoveKeepsInv(s, pid, true);
    assert PcBounded(s, pid, s.procs[pid]);
    OnlyClaimRemoved(s.dir, Claimed(todo[0], pid));
    FewerBounded(s, s', cap, pid);
  }

  lemma OnlyClaimRemoved(dir: Directory, n: Name)
    requires OnlyClaim(dir, n)
    ensures Files(dir - {n}) <= Files(dir) && NoClaims(dir - {n})
  {
  }

  lemma FewerBounded(s: State, s': State, cap: nat, pid: nat)
    requires Bounded(s, cap) && pid in s.procs && Live(s.procs[pid]) && Inv(s')
    requires pid in s'.procs && s'.procs == s.procs[pid := s'.procs[pid]] && PcBounded(s', pid, s'.procs[pid])
    requires Files(s'.dir) <= Files(s.dir) && s'.evicted == s.evicted && s.used == s'.used
    ensures Bounded(s', cap)
  {
    SubsetSize(Files(s'.dir), Files(s.dir));
    StepBounded(s, s', cap, pid);
  }

  /** A process that leaves the buffer files alone. */
  lemma StayBounded(s: State, s': State, cap: nat, pid: nat)
    requires Bounded(s, cap) && pid in s.procs && Live(s.procs[pid]) && Inv(s')
    requires pid in s'.procs && s'.procs == s.procs[pid := s'.procs[pid]] && PcBounded(s', pid, s'.procs[pid])
    requires Files(s'.dir) == Files(s.dir) && s'.evicted == s.evicted && s.used <= s'.used
    ensures Bounded(s', cap)
  {
    StepBounded(s, s', cap, pid);
  }

  lemma {:induction false} PlainCount(dir: Directory, files: seq<Base>)
    requires IsPlainListing(dir, files) && NoClaims(dir)
    ensures |Files(dir)| == |files|
  {
    SortedCount(files);
    var plain := set b | b in files :: Plain(b);
    assert Files(dir) == plain;
  }

  lemma {:induction false} SortedCount(files: seq<Base>)
    requires Sorted(files)
    ensures |(set b | b in files :: Plain(b))| == |files|
    decreases |files|
  {
    if files != [] {
      var rest := files[..|files| - 1];
      var last := files[|files| - 1];
      SortedCount(rest);
      assert (set b | b in files :: Plain(b)) == (set b | b in rest :: Plain(b)) + {Plain(last)} by {
        assert files == rest + [last];
      }
      assert last !in rest;
    }
  }

  lemma CapBounded(s: State, cap: nat, pid: nat, files: seq<Base>)
    requires Bounded(s, cap) && pid in s.procs && s.procs[pid].Capping? && IsPlainListing(s.dir, files)
    ensures Bounded(At(s, pid, AfterEvict(s.procs[pid].event, Victims(files))), cap)
  {
    var pc := AfterEvict(s.procs[pid].event, Victims(files));
    LookKeepsInv(s, pid, pc);
    assert PcBounded(s, pid, s.procs[pid]);
    PlainCount(s.dir, files);
    var victims := Victims(files);
    forall v, n | v in victims && n in Files(s.dir) && n.base !in victims
      ensures Before(v, n.base)
    {
      assert n == Plain(n.base) && n.base in files;
      assert forall k :: 0 <= k < |victims| ==> files[k] == victims[k] && victims[k] in victims;
      var i :| 0 <= i < |victims| && victims[i] == v;
      var j :| 0 <= j < |files| && files[j] == n.base;
      assert files[i] == v;
    }
    StayBounded(s, At(s, pid, pc), cap, pid);
  }

  /** Removing the first victim leaves the others doomed, and everything left is younger. */
  lemma DoomedTail(dir: Directory, victims: seq<Base>)
    requires victims != [] && Doomed(dir, victims) && NoClaims(dir)
    ensures Doomed(dir - {Plain(victims[0])}, victims[1..])
    ensures forall n :: n in Files(dir) && n != Plain(victims[0]) ==> Before(victims[0], n.base)
  {
    var v := victims[0];
    var dir' := dir - {Plain(v)};
    assert victims == [v] + victims[1..];
    forall u | u in victims[1..]
      ensures Before(v, u)
    {
      var i :| 0 <= i < |victims| - 1 && victims[1..][i] == u;
      assert victims[i + 1] == u;
    }
    assert forall u :: u in victims[1..] ==> u in victims && u != v && Plain(u) in dir';
    forall u, n | u in victims[1..] && n in Files(dir') && n.base !in victims[1..]
      ensures Before(u, n.base)
    {
      assert n.base != v;
    }
    forall n | n in Files(dir) && n != Plain(v)
      ensures Before(v, n.base)
    {
      assert v in victims && n.base != v;
    }
  }

  lemma EvictBounded(s: State, cap: nat, pid: nat)
    requires Bounded(s, cap) && pid in s.procs && Waiting(s.procs[pid], Evict(true))
    ensures var pc := s.procs[pid]; Bounded(DoEvict(s, pid, pc.event, pc.victims, true), cap)
  {
    var pc := s.procs[pid];
    var s' := DoEvict(s, pid, pc.event, pc.victims, true);
    EvictKeepsInv(s, pid, true);
    assert PcBounded(s, pid, pc);
    var v := pc.victims[0];
    DoomedTail(s.dir, pc.victims);
    assert Plain(v) in s.dir && v in s.written;
    EvictedFiles(s.dir, pc.victims);
    EvictedOldest(s, s', v);
    NextVictims(s', pid, pc.event, pc.victims[1..]);
    StepBounded(s, s', cap, pid);
  }

  lemma EvictedOldest(s: State, s': State, v: Base)
    requires OldestFirst(s) && s'.evicted == s.evicted + {v} && s'.used == s.used && v in s.used
    requires Files(s'.dir) == Files(s.dir) - {Plain(v)}
    requires forall n :: n in Files(s.dir) && n != Plain(v) ==> Before(v, n.base)
    ensures OldestFirst(s')
  {
  }

  lemma NextVictims(s: State, pid: nat, e: Event, victims: seq<Base>)
    requires NoClaims(s.dir) && Doomed(s.dir, victims) && |Files(s.dir)| - |victims| == BUFFER_CAP - 1
    ensures PcBounded(s, pid, AfterEvict(e, victims))
  {
  }

  lemma EvictedFiles(dir: Directory, victims: seq<Base>)
    requires victims != [] && Plain(victims[0]) in dir && NoClaims(dir)
    ensures var dir' := dir - {Plain(victims[0])};
            Files(dir') == Files(dir) - {Plain(victims[0])} && |Files(dir')| == |Files(dir)| - 1 && NoClaims(dir')
    ensures |victims[1..]| == |victims| - 1
  {
    assert Files(dir - {Plain(victims[0])}) == Files(dir) - {Plain(victims[0])};
    assert Plain(victims[0]) in Files(dir);
  }

  lemma PublishBounded(s: State, cap: nat, pid: nat, ok: bool)
    requires Bounded(s, cap) && pid in s.procs && s.procs[pid].Publishing?
    ensures var pc := s.procs[pid]; Bounded(DoPublish(s, pid, pc.event, pc.base, ok), cap)
  {
    var pc := s.procs[pid];
    var s' := DoPublish(s, pid, pc.event, pc.base, ok);
    PublishKeepsInv(s, pid, ok);
    assert PcBounded(s, pid, pc) && PcOk(s, pc);
    PublishedFiles(s.dir, pc.base);
    OldestStays(s, s', pc.base);
    StepBounded(s, s', cap, pid);
  }

  lemma OldestStays(s: State, s': State, b: Base)
    requires OldestFirst(s) && s'.evicted == s.evicted && s'.used == s.used
    requires Files(s'.dir) <= Files(s.dir) + {Plain(b)} && forall e :: e in s.evicted ==> Before(e, b)
    ensures OldestFirst(s')
  {
  }

  /** The new file is one more buffer file. */
  lemma PublishedFiles(dir: Directory, b: Base)
    ensures Files(Rename(dir, Temp(b), Plain(b))) <= Files(dir) + {Plain(b)}
    ensures |Files(Rename(dir, Temp(b), Plain(b)))| <= |Files(dir)| + 1
  {
    var dir' := Rename(dir, Temp(b), Plain(b));
    if Temp(b) in dir {
      assert Files(dir') == Files(dir) + {Plain(b)};
    }
  }

  lemma LifeBounded(s: State, cap: nat, a: Action)
    requires Bounded(s, cap) && Fair(s, a, 1) && !a.Do?
    ensures Bounded(Step(s, a), cap)
  {
    var s' := Step(s, a);
    StepKeepsInv(s, a);
    if a.Spawn? {
      assert LiveOnes(s) == {};
      assert LiveOnes(s') == {a.pid};
    } else {
      assert LiveOnes(s') <= LiveOnes(s);
    }
    forall p | p in s'.procs
      ensures PcBounded(s', p, s'.procs[p])
    {
      assert p in s.procs ==> PcBounded(s, p, s.procs[p]);
    }
  }

  lemma SoloStep(s: State, cap: nat, a: Action)
    requires Bounded(s, cap) && Fair(s, a, 1)
    ensures Bounded(Step(s, a), cap)
  {
    if a.Do? {
      SoloAct(s, cap, a.pid, a.act);
    } else {
      LifeBounded(s, cap, a);
    }
  }

  lemma SoloAct(s: State, cap: nat, pid: nat, act: Act)
    requires Bounded(s, cap) && Fair(s, Do(pid, act), 1)
    ensures Bounded(StepAct(s, pid, s.procs[pid], act), cap)
  {
    match act
    case Reclaim(_) => ReclaimBounded(s, cap, pid);
    case Claim(ok) => ClaimBounded(s, cap, pid, ok);
    case PutBack(_) => PutBackBounded(s, cap, pid);
    case Remove(_) => RemoveBounded(s, cap, pid);
    case ListForCap(files) => CapBounded(s, cap, pid, files);
    case Evict(_) => EvictBounded(s, cap, pid);
    case Publish(ok) => PublishBounded(s, cap, pid, ok);
    case Open(b, ok) => OpenBounded(s, cap, pid, b, ok);
    case Fill(ok) => FillBounded(s, cap, pid, ok);
    case _ => OtherBounded(s, cap, pid, act);
  }

  lemma OtherBounded(s: State, cap: nat, pid: nat, act: Act)
    requires Bounded(s, cap) && pid in s.procs
    requires Waiting(s.procs[pid], act) && Answers(s, act)
    requires act.ListStale? || act.ListPlain? || act.Read? || act.Try? || act.Begin? || act.Quit?
    ensures Bounded(StepAct(s, pid, s.procs[pid], act), cap)
  {
    var s' := StepAct(s, pid, s.procs[pid], act);
    ActKeepsInv(s, pid, act);
    OtherPcBounded(s, pid, act);
    StayBounded(s, s', cap, pid);
  }

  lemma OtherPcBounded(s: State, pid: nat, act: Act)
    requires pid in s.procs && PcBounded(s, pid, s.procs[pid]) && Waiting(s.procs[pid], act) && Answers(s, act)
    requires act.ListStale? || act.ListPlain? || act.Read? || act.Try? || act.Begin? || act.Quit?
    ensures var s' := StepAct(s, pid, s.procs[pid], act);
            && s'.dir == s.dir && s'.evicted == s.evicted && s'.used == s.used
            && pid in s'.procs && s'.procs == s.procs[pid := s'.procs[pid]] && PcBounded(s', pid, s'.procs[pid])
  {
  }

  lemma OpenBounded(s: State, cap: nat, pid: nat, b: Base, ok: bool)
    requires Bounded(s, cap) && pid in s.procs && s.procs[pid].Opening? && b !in s.used
    requires forall u :: u in s.used ==> Before(u, b)
    ensures Bounded(DoOpen(s, pid, s.procs[pid].event, b, ok), cap)
  {
    var s' := DoOpen(s, pid, s.procs[pid].event, b, ok);
    OpenKeepsInv(s, pid, b, ok);
    assert PcBounded(s, pid, s.procs[pid]);
    assert Files(s'.dir) == Files(s.dir);
    StayBounded(s, s', cap, pid);
  }

  lemma FillBounded(s: State, cap: nat, pid: nat, ok: bool)
    requires Bounded(s, cap) && pid in s.procs && s.procs[pid].Filling?
    ensures var pc := s.procs[pid]; Bounded(DoFill(s, pid, pc.event, pc.base, ok), cap)
  {
    var s' := DoFill(s, pid, s.procs[pid].event, s.procs[pid].base, ok);
    FillKeepsInv(s, pid, ok);
    assert PcBounded(s, pid, s.procs[pid]);
    assert Files(s'.dir) == Files(s.dir);
    StayBounded(s, s', cap, pid);
  }

  lemma {:induction false} SoloRun(s: State, cap: nat, acts: seq<Action>)
    requires Bounded(s, cap) && IsFairRun(s, acts, 1) && IsRun(s, acts)
    ensures Bounded(After(s, acts), cap)
    decreases |acts|
  {
    if acts != [] {
      SoloStep(s, cap, acts[0]);
      SoloRun(Step(s, acts[0]), cap, acts[1..]);
    }
  }

  // --- One process at a time ---

  /** A buffer from which the cap is to be kept: nobody is at work, and nothing evicted earlier is
      younger than what is there. */
  ghost predicate Idle(s: State) {
    Inv(s) && LiveOnes(s) == {} && OldestFirst(s)
  }

  lemma IdleBounded(s: State, cap: nat)
    requires Idle(s) && BUFFER_CAP <= cap && |Files(s.dir)| <= cap
    ensures Bounded(s, cap)
  {
    forall p | p in s.procs
      ensures s.procs[p] == Finished
    {
      assert p !in LiveOnes(s);
    }
  }

  /** Runs that do not overlap keep the buffer, plain and claimed files together, at 100 files or
      fewer, and evict only events older than every event they leave. */
  lemma CapHolds(s0: State, acts: seq<Action>)
    requires Idle(s0) && |Files(s0.dir)| <= 100 && IsFairRun(s0, acts, 1)
    ensures IsRun(s0, acts)
    ensures var s := After(s0, acts);
            && |Files(s.dir)| <= 100
            && forall e, n :: e in s.evicted && n in Files(s.dir) ==> Before(e, n.base)
  {
    FairRunIsRun(s0, acts, 1);
    IdleBounded(s0, 100);
    SoloRun(s0, 100, acts);
  }

  /** The cap repairs itself: from an overfull buffer, the next process to write its event makes
      room below the cap first. */
  lemma CapIsRestored(s0: State, acts: seq<Action>, pid: nat)
    requires Idle(s0) && IsFairRun(s0, acts, 1)
    ensures IsRun(s0, acts)
    ensures var s := After(s0, acts);
            && (|Files(s.dir)| <= 100 || |Files(s.dir)| <= |Files(s0.dir)|)
            && (pid in s.procs && s.procs[pid].Publishing? ==> |Files(s.dir)| < 100)
  {
    FairRunIsRun(s0, acts, 1);
    var cap := if |Files(s0.dir)| <= 100 then 100 else |Files(s0.dir)|;
    IdleBounded(s0, cap);
    SoloRun(s0, cap, acts);
    var s := After(s0, acts);
    if pid in s.procs && s.procs[pid].Publishing? {
      assert PcBounded(s, pid, s.procs[pid]);
    }
  }

  /** Eviction stops at once: a process evicts only while 100 files or more are there, and goes on
      to write its event when exactly 99 are left. */
  lemma EvictsJustEnough(s0: State, acts: seq<Action>, pid: nat)
    requires Idle(s0) && IsFairRun(s0, acts + [Do(pid, Evict(true))], 1)
    ensures IsRun(s0, acts) && pid in After(s0, acts).procs && Waiting(After(s0, acts).procs[pid], Evict(true))
    ensures var s := After(s0, acts);
            var left := Files(Step(s, Do(pid, Evict(true))).dir);
            && |Files(s.dir)| >= 100 && |left| == |Files(s.dir)| - 1
            && (Step(s, Do(pid, Evict(true))).procs[pid].Opening? <==> |left| == 99)
  {
    var a := Do(pid, Evict(true));
    FairRunSplit(s0, acts, a, 1);
    FairRunIsRun(s0, acts, 1);
    var cap := if |Files(s0.dir)| <= 100 then 100 else |Files(s0.dir)|;
    IdleBounded(s0, cap);
    SoloRun(s0, cap, acts);
    var s := After(s0, acts);
    var pc := s.procs[pid];
    assert PcBounded(s, pid, pc);
    assert pc.victims[0] in pc.victims;
    EvictedFiles(s.dir, pc.victims);
  }

  lemma {:induction false} FairRunSplit(s: State, acts: seq<Action>, a: Action, m: nat)
    requires IsFairRun(s, acts + [a], m)
    ensures IsFairRun(s, acts, m) && IsRun(s, acts) && Fair(After(s, acts), a, m)
    decreases |acts|
  {
    if acts == [] {
      assert [] + [a] == [a];
    } else {
      assert (acts + [a])[1..] == acts[1..] + [a];
      FairRunSplit(Step(s, acts[0]), acts[1..], a, m);
    }
  }

  // --- Overlapping runs ---

  /** `n` processes were refused while the buffer was empty and all saw room in it; the first `m`
      have since written their events. */
  function Crowd(e: Event, n: nat, m: nat): (s: State)
    requires m <= n
    ensures forall p: nat :: p in s.procs <==> p < n
    ensures forall p: nat :: m <= p < n ==> s.procs[p] == Opening(e)
    ensures forall x :: x in s.dir ==> x.Plain? && x.base.stamp < m
    ensures forall b :: b in s.used ==> b.stamp < m
    decreases n, m
  {
    if m > 0 then
      var s, b := Crowd(e, n, m - 1), Base(m - 1, 0);
      At(s, m - 1, Finished).(dir := s.dir[Plain(b) := Whole(e)], written := s.written[b := e], used := s.used + {b})
    else if n > 0 then
      var s := Crowd(e, n - 1, 0);
      At(s, n - 1, Opening(e)).(posts := s.posts + [Post(n - 1, Own, Whole(e), Status(404))])
    else
      INIT
  }

  /** A process starts on an empty buffer, is refused, and finds room for its event. */
  lemma OneMoreRefused(s: State, e: Event, pid: nat) returns (acts: seq<Action>)
    requires pid !in s.procs && s.dir == map[]
    ensures Leads(s, acts, At(s, pid, Opening(e)).(posts := s.posts + [Post(pid, Own, Whole(e), Status(404))]))
  {
    var s1 := At(s, pid, Drained);
    DrainNothing(s, pid);
    var first := [Spawn(pid), Do(pid, ListStale([])), Do(pid, ListPlain([]))];
    var s2 := At(s, pid, Capping(e)).(posts := s.posts + [Post(pid, Own, Whole(e), Status(404))]);
    assert Step(Step(s1, Do(pid, Begin(e))), Do(pid, Try(REFUSED))) == s2;
    TwoSteps(s1, Do(pid, Begin(e)), Do(pid, Try(REFUSED)));
    LeadsOn(s, first, s1, [Do(pid, Begin(e)), Do(pid, Try(REFUSED))], s2);
    var s3 := At(s2, pid, Opening(e));
    assert Step(s2, Do(pid, ListForCap([]))) == s3;
    OneStep(s2, Do(pid, ListForCap([])));
    acts := first + [Do(pid, Begin(e)), Do(pid, Try(REFUSED))];
    LeadsOn(s, acts, s2, [Do(pid, ListForCap([]))], s3);
    acts := acts + [Do(pid, ListForCap([]))];
    assert s3 == At(s, pid, Opening(e)).(posts := s2.posts);
  }

  lemma DrainNothing(s: State, pid: nat)
    requires pid !in s.procs && s.dir == map[]
    ensures Leads(s, [Spawn(pid), Do(pid, ListStale([])), Do(pid, ListPlain([]))], At(s, pid, Drained))
  {
    assert Step(s, Spawn(pid)) == At(s, pid, Starting);
    assert Step(At(s, pid, Starting), Do(pid, ListStale([]))) == At(s, pid, Listing);
    assert Step(At(s, pid, Listing), Do(pid, ListPlain([]))) == At(s, pid, Drained);
    ThreeSteps(s, Spawn(pid), Do(pid, ListStale([])), Do(pid, ListPlain([])));
  }

  lemma OneMoreWritten(e: Event, n: nat, m: nat) returns (acts: seq<Action>)
    requires m < n
    ensures Leads(Crowd(e, n, m), acts, Crowd(e, n, m + 1))
  {
    var s := Crowd(e, n, m);
    var b := Base(m, 0);
    acts := [Do(m, Open(b, true)), Do(m, Fill(true)), Do(m, Publish(true))];
    assert Temp(b) !in s.dir && Plain(b) !in s.dir;
    WriteSteps(s, m, e, b);
  }

  lemma {:induction false} CrowdForms(e: Event, n: nat, m: nat) returns (acts: seq<Action>)
    requires m <= n
    ensures Leads(INIT, acts, Crowd(e, n, m))
  {
    if n == 0 {
      acts := [];
      assert Crowd(e, 0, 0) == INIT;
    } else if m == 0 {
      acts := CrowdForms(e, n - 1, 0);
      assert Crowd(e, n - 1, 0).dir == map[];
      var more := OneMoreRefused(Crowd(e, n - 1, 0), e, n - 1);
      LeadsOn(INIT, acts, Crowd(e, n - 1, 0), more, Crowd(e, n, 0));
      acts := acts + more;
    } else {
      acts := CrowdForms(e, n, m - 1);
      var more := OneMoreWritten(e, n, m - 1);
      LeadsOn(INIT, acts, Crowd(e, n, m - 1), more, Crowd(e, n, m));
      acts := acts + more;
    }
  }

  /** When processes overlap nothing bounds the buffer: for every `n` some run from the empty
      buffer leaves `n` files in it. */
  lemma OverlapBreaksCap(n: nat) returns (acts: seq<Action>)
    ensures IsRun(INIT, acts) && |Files(After(INIT, acts).dir)| == n
  {
    var e := Event("session", Row("", "", "", 0, 0, 0, 0, 0.0, "", 0, ""));
    acts := CrowdForms(e, n, n);
    CrowdCount(e, n, n);
  }

  lemma FilesGain(dir: Directory, b: Base, e: Event)
    requires Plain(b) !in dir
    ensures |Files(dir[Plain(b) := Whole(e)])| == |Files(dir)| + 1
  {
    assert Files(dir[Plain(b) := Whole(e)]) == Files(dir) + {Plain(b)};
  }

  lemma {:induction false} CrowdCount(e: Event, n: nat, m: nat)
    requires m <= n
    ensures |Files(Crowd(e, n, m).dir)| == m
  {
    if m > 0 {
      CrowdCount(e, n, m - 1);
      FilesGain(Crowd(e, n, m - 1).dir, Base(m - 1, 0), e);
    } else {
      assert Files(Crowd(e, n, m).dir) == {};
    }
  }

  // --- Two processes are enough ---

  /** Steps that all succeed, of processes that have started before. */
  predicate Plainly(acts: seq<Action>) {
    forall i :: 0 <= i < |acts| ==> acts[i].Do? && Succeeds(acts[i].act)
  }

  /** Fair steps to a state, every file operation succeeding. */
  ghost predicate Works(s: State, acts: seq<Action>, t: State, m: nat) {
    && Leads(s, acts, t) && IsFairRun(s, acts, m)
    && forall i :: 0 <= i < |acts| && acts[i].Do? ==> Succeeds(acts[i].act)
  }

  lemma {:induction false} FairConcat(s: State, xs: seq<Action>, ys: seq<Action>, m: nat)
    requires IsFairRun(s, xs, m) && IsRun(s, xs) && IsFairRun(After(s, xs), ys, m)
    ensures IsFairRun(s, xs + ys, m)
    decreases |xs|
  {
    if xs == [] {
      assert xs + ys == ys;
    } else {
      FairConcat(Step(s, xs[0]), xs[1..], ys, m);
      assert (xs + ys)[1..] == xs[1..] + ys;
    }
  }

  lemma WorksOn(s: State, xs: seq<Action>, t: State, ys: seq<Action>, u: State, m: nat)
    requires Works(s, xs, t, m) && Works(t, ys, u, m)
    ensures Works(s, xs + ys, u, m)
  {
    LeadsOn(s, xs, t, ys, u);
    FairConcat(s, xs, ys, m);
  }

  /** Steps that start no process and draw no name are fair however many processes there are. */
  lemma {:induction false} PlainlyFair(s: State, acts: seq<Action>, m: nat)
    requires IsRun(s, acts) && Plainly(acts) && forall i :: 0 <= i < |acts| ==> !acts[i].act.Open?
    ensures IsFairRun(s, acts, m)
    decreases |acts|
  {
    if acts != [] {
      assert forall i :: 0 <= i < |acts| - 1 ==> acts[1..][i] == acts[i + 1];
      PlainlyFair(Step(s, acts[0]), acts[1..], m);
    }
  }

  lemma PlainlyWorks(s: State, acts: seq<Action>, t: State, m: nat)
    requires Leads(s, acts, t) && Plainly(acts) && forall i :: 0 <= i < |acts| ==> !acts[i].act.Open?
    ensures Works(s, acts, t, m)
  {
    PlainlyFair(s, acts, m);
  }

  lemma DrainWorks(s: State, acts: seq<Action>, t: State, pid: nat, m: nat)
    requires Leads(s, acts, t) && Drains(acts, pid)
    ensures Works(s, acts, t, m)
  {
    PlainlyWorks(s, acts, t, m);
  }

  lemma StepWorks(s: State, a: Action, m: nat)
    requires Fair(s, a, m) && (a.Do? ==> Succeeds(a.act))
    ensures Works(s, [a], Step(s, a), m)
  {
    OneStep(s, a);
    assert [a][1..] == [];
  }

  function Shelf(n: nat): set<Base> {
    set i | 0 <= i < n :: Base(i, 0)
  }

  /** The buffer consists of `n` plain files, named in order. */
  ghost predicate HasShelf(s: State, n: nat) {
    && Inv(s) && s.used == Shelf(n)
    && forall x :: x in s.dir <==> x.Plain? && x.base in Shelf(n)
  }

  lemma {:induction false} ShelfCount(dir: Directory, n: nat)
    requires forall x :: x in dir <==> x.Plain? && x.base in Shelf(n)
    ensures |Files(dir)| == n
  {
    ShelfSize(n);
    assert Files(dir) == set i | 0 <= i < n :: Plain(Base(i, 0));
  }

  lemma {:induction false} ShelfSize(n: nat)
    ensures |(set i | 0 <= i < n :: Plain(Base(i, 0)))| == n
  {
    if n > 0 {
      ShelfSize(n - 1);
      assert (set i | 0 <= i < n :: Plain(Base(i, 0)))
             == (set i | 0 <= i < n - 1 :: Plain(Base(i, 0))) + {Plain(Base(n - 1, 0))};
    }
  }

  /** The rest of a process's life up to the point where it has found room for its event. */
  lemma RefusedToo(s: State, pid: nat, e: Event, files: seq<Base>) returns (acts: seq<Action>, t: State)
    requires pid in s.procs && s.procs[pid] == Drained && IsPlainListing(s.dir, files) && |files| < BUFFER_CAP
    ensures Leads(s, acts, t) && Plainly(acts) && forall i :: 0 <= i < |acts| ==> !acts[i].act.Open?
    ensures t == s.(procs := s.procs[pid := Opening(e)], posts := t.posts)
  {
    var s1 := At(s, pid, Capping(e)).(posts := s.posts + [Post(pid, Own, Whole(e), Status(404))]);
    assert Step(Step(s, Do(pid, Begin(e))), Do(pid, Try(REFUSED))) == s1;
    TwoSteps(s, Do(pid, Begin(e)), Do(pid, Try(REFUSED)));
    t := At(s1, pid, Opening(e));
    assert Step(s1, Do(pid, ListForCap(files))) == t;
    OneStep(s1, Do(pid, ListForCap(files)));
    LeadsOn(s, [Do(pid, Begin(e)), Do(pid, Try(REFUSED))], s1, [Do(pid, ListForCap(files))], t);
    acts := [Do(pid, Begin(e)), Do(pid, Try(REFUSED))] + [Do(pid, ListForCap(files))];
    assert t.procs == s.procs[pid := Opening(e)];
  }

  /** A process that has started is refused with every file of the buffer. */
  lemma DrainedInVain(s: State, pid: nat) returns (acts: seq<Action>, t: State, files: seq<Base>)
    requires pid in s.procs && s.procs[pid] == Starting && NoClaims(s.dir)
    ensures Leads(s, acts, t) && Drains(acts, pid) && IsPlainListing(s.dir, files)
    ensures t == s.(procs := s.procs[pid := Drained], posts := t.posts)
  {
    var more, s1;
    acts, s1, files := StartDrain(s, pid);
    more, t := RefuseFirst(s1, pid, files, |files|);
    LeadsOn(s, acts, s1, more, t);
    acts := acts + more;
    assert t.procs == s.procs[pid := Drained];
  }

  lemma ShelfKept(s: State, t: State, n: nat)
    requires HasShelf(s, n) && Inv(t) && t.used == s.used && t.dir == s.dir
    ensures HasShelf(t, n)
  {
  }

  lemma ShelfRoom(s: State, n: nat, files: seq<Base>)
    requires HasShelf(s, n) && IsPlainListing(s.dir, files)
    ensures NoClaims(s.dir) && |files| == n
  {
    ShelfCount(s.dir, n);
    PlainCount(s.dir, files);
  }

  lemma ShelfStays(s: State, n: nat, pid: nat)
    requires HasShelf(s, n) && pid !in s.procs
    ensures HasShelf(At(s, pid, Starting), n)
  {
    StepKeepsInv(s, Spawn(pid));
  }

  /** A process comes, is refused throughout, and finds room for its event. */
  lemma Visit(s: State, pid: nat, e: Event, n: nat, m: nat) returns (acts: seq<Action>, t: State)
    requires HasShelf(s, n) && n < BUFFER_CAP && pid !in s.procs && |LiveOnes(s)| < m
    ensures Works(s, acts, t, m) && HasShelf(t, n)
    ensures t == s.(procs := s.procs[pid := Opening(e)], posts := t.posts)
  {
    var s1 := At(s, pid, Starting);
    StepWorks(s, Spawn(pid), m);
    ShelfStays(s, n, pid);
    var more;
    more, t := VisitFrom(s1, pid, e, n, m);
    WorksOn(s, [Spawn(pid)], s1, more, t, m);
    acts := [Spawn(pid)] + more;
    assert t.procs == s.procs[pid := Opening(e)];
  }

  lemma VisitFrom(s: State, pid: nat, e: Event, n: nat, m: nat) returns (acts: seq<Action>, t: State)
    requires HasShelf(s, n) && n < BUFFER_CAP && pid in s.procs && s.procs[pid] == Starting
    ensures Works(s, acts, t, m) && HasShelf(t, n)
    ensures t == s.(procs := s.procs[pid := Opening(e)], posts := t.posts)
  {
    var first, s1, files := DrainedInVain(s, pid);
    DrainWorks(s, first, s1, pid, m);
    ShelfRoom(s, n, files);
    var last;
    last, t := RefusedToo(s1, pid, e, files);
    PlainlyWorks(s1, last, t, m);
    WorksOn(s, first, s1, last, t, m);
    acts := first + last;
    RunKeepsInv(s, acts);
    assert t.procs == s.procs[pid := Opening(e)];
    ShelfKept(s, t, n);
  }

  /** It writes its event under the next name. */
  lemma WriteNext(s: State, pid: nat, e: Event, n: nat, m: nat) returns (acts: seq<Action>, t: State)
    requires HasShelf(s, n) && pid in s.procs && s.procs[pid] == Opening(e)
    ensures Works(s, acts, t, m) && HasShelf(t, n + 1)
    ensures t.procs == s.procs[pid := Finished] && t.evicted == s.evicted
  {
    var b := Base(n, 0);
    assert b !in Shelf(n) && Shelf(n + 1) == Shelf(n) + {b};
    WriteSteps(s, pid, e, b);
    var open, rest := Do(pid, Open(b, true)), [Do(pid, Fill(true)), Do(pid, Publish(true))];
    acts := [open] + rest;
    assert acts == [open, Do(pid, Fill(true)), Do(pid, Publish(true))];
    t := After(s, acts);
    assert Fair(s, open, m);
    assert acts[1..] == rest;
    PlainlyFair(Step(s, open), rest, m);
    RunKeepsInv(s, acts);
  }

  /** A process comes, writes its event and goes. */
  lemma AddFile(s: State, e: Event, n: nat) returns (acts: seq<Action>, t: State)
    requires HasShelf(s, n) && n < BUFFER_CAP && s.procs == map[] && s.evicted == {}
    ensures Works(s, acts, t, 1) && HasShelf(t, n + 1) && t.procs == map[] && t.evicted == {}
  {
    assert LiveOnes(s) == {};
    var first, s1 := Visit(s, 1, e, n, 1);
    var second, s2 := WriteNext(s1, 1, e, n, 1);
    t := Leave(s2, 1, n + 1);
    WorksOn(s, first, s1, second, s2, 1);
    WorksOn(s, first + second, s2, [Crash(1)], t, 1);
    acts := first + second + [Crash(1)];
  }

  lemma Leave(s: State, pid: nat, n: nat) returns (t: State)
    requires HasShelf(s, n) && s.procs.Keys == {pid}
    ensures Works(s, [Crash(pid)], t, 1) && HasShelf(t, n) && t.procs == map[] && t.evicted == s.evicted
  {
    t := Step(s, Crash(pid));
    StepWorks(s, Crash(pid), 1);
    StepKeepsInv(s, Crash(pid));
    assert t.procs == map[];
  }

  /** One process after the other fills the buffer with `n` files. */
  lemma {:induction false} FillUp(e: Event, n: nat) returns (acts: seq<Action>, t: State)
    requires n <= BUFFER_CAP
    ensures Works(INIT, acts, t, 1) && HasShelf(t, n) && t.procs == map[] && t.evicted == {}
  {
    if n == 0 {
      acts, t := [], INIT;
    } else {
      var s, more;
      acts, s := FillUp(e, n - 1);
      more, t := AddFile(s, e, n - 1);
      WorksOn(INIT, acts, s, more, t, 1);
      acts := acts + more;
    }
  }

  lemma {:induction false} MoreRoomForProcesses(s: State, acts: seq<Action>, k: nat, m: nat)
    requires IsFairRun(s, acts, k) && k <= m
    ensures IsFairRun(s, acts, m)
    decreases |acts|
  {
    if acts != [] {
      MoreRoomForProcesses(Step(s, acts[0]), acts[1..], k, m);
    }
  }

  /** Two processes at a time, with nothing failing on disk and names in the order of time, can leave
      101 files in the buffer. */
  lemma TwoBreakCap() returns (acts: seq<Action>)
    ensures IsRun(INIT, acts) && IsFairRun(INIT, acts, 2)
    ensures forall i :: 0 <= i < |acts| && acts[i].Do? ==> Succeeds(acts[i].act)
    ensures |Files(After(INIT, acts).dir)| == 101
  {
    var e := Event("session", Row("", "", "", 0, 0, 0, 0, 0.0, "", 0, ""));
    var s0, s1, s2, s3, s4, more;
    acts, s0 := FillUp(e, 99);
    MoreRoomForProcesses(INIT, acts, 1, 2);
    assert LiveOnes(s0) == {};
    more, s1 := Visit(s0, 1, e, 99, 2);
    WorksOn(INIT, acts, s0, more, s1, 2);
    acts := acts + more;
    assert LiveOnes(s1) == {1};
    more, s2 := Visit(s1, 2, e, 99, 2);
    WorksOn(INIT, acts, s1, more, s2, 2);
    acts := acts + more;
    more, s3 := WriteNext(s2, 1, e, 99, 2);
    WorksOn(INIT, acts, s2, more, s3, 2);
    acts := acts + more;
    more, s4 := WriteNext(s3, 2, e, 100, 2);
    WorksOn(INIT, acts, s3, more, s4, 2);
    acts := acts + more;
    ShelfCount(s4.dir, 101);
  }

  /** The cap is an invariant of the fair runs with at most `m` live processes. */
  ghost predicate CapIsKept(m: nat) {
    forall s0, acts :: Idle(s0) && |Files(s0.dir)| <= 100 && IsRun(s0, acts) && IsFairRun(s0, acts, m) ==>
                         |Files(After(s0, acts).dir)| <= 100
  }

  /** The exact condition: the cap is kept if and only if no two processes live at the same time. */
  lemma CapExactly(m: nat)
    ensures CapIsKept(m) <==> m <= 1
  {
    if m <= 1 {
      forall s0, acts | Idle(s0) && |Files(s0.dir)| <= 100 && IsRun(s0, acts) && IsFairRun(s0, acts, m)
        ensures |Files(After(s0, acts).dir)| <= 100
      {
        MoreRoomForProcesses(s0, acts, m, 1);
        CapHolds(s0, acts);
      }
    } else {
      var acts := TwoBreakCap();
      MoreRoomForProcesses(INIT, acts, 2, m);
      assert Idle(INIT) && Files(INIT.dir) == {};
    }
  }
}
