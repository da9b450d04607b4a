/** Crash recovery of the buffer: drains that crash anywhere, followed by one that completes, leave
    the server's table and the buffer exactly as one uninterrupted drain does
    (cmd/sessionlens-hook/main.go, internal/db/db.go). */
module HookRecovery {
  import opened HookNames
  import opened HookProtocol
  import opened HookRuns

  // --- The runs considered ---

  /** One process at a time; it may crash anywhere, but its file operations succeed. */
  ghost predicate Solo(s: State, a: Action) {
    && Enabled(s, a)
    && (a.Spawn? ==> s.procs == map[])
    && (a.Do? ==> Succeeds(a.act))
  }

  predicate Taken(r: Reply) {
    r.Status? && 200 <= r.code < 300
  }

  /** Drains only, every POST answered with a 2xx. */
  ghost predicate IsDrainRun(s: State, acts: seq<Action>)
    decreases |acts|
  {
    acts == [] ||
    (var a := acts[0];
     && Solo(s, a)
     && (a.Do? ==> PartOfDrain(a.act) && (a.act.Try? ==> Taken(a.act.answer.reply)))
     && IsDrainRun(Step(s, a), acts[1..]))
  }

  lemma {:induction false} DrainRunIsRun(s: State, acts: seq<Action>)
    requires IsDrainRun(s, acts)
    ensures IsRun(s, acts)
    decreases |acts|
  {
    if acts != [] {
      DrainRunIsRun(Step(s, acts[0]), acts[1..]);
    }
  }

  // --- What a drain should achieve ---

  /** Upserting the events in order. */
  function Replay(t: Table, events: seq<Event>): Table {
    if events == [] then t else Upsert(Replay(t, events[..|events| - 1]), events[|events| - 1])
  }

  /** The buffered events, oldest first. */
  function EventsOf(written: map<Base, Event>, names: seq<Base>): seq<Event>
    requires forall b :: b in names ==> b in written
  {
    seq(|names|, i requires 0 <= i < |names| => written[names[i]])
  }

  /** `names` lists the buffer's events, oldest first, wherever crashes have left them. */
  ghost predicate Holds(dir: Directory, names: seq<Base>) {
    && Sorted(names)
    && forall b :: b in names <==> Stored(dir, b)
  }

  /** Posting an event twice in a row is posting it once. */
  lemma ReplayTwice(t: Table, events: seq<Event>, k: nat)
    requires k < |events|
    ensures Upsert(Replay(t, events[..k]), events[k]) == Replay(t, events[..k + 1])
    ensures Upsert(Replay(t, events[..k + 1]), events[k]) == Replay(t, events[..k + 1])
  {
    assert events[..k + 1][..k] == events[..k];
  }

  lemma {:induction false} SortedUnique(xs: seq<Base>, ys: seq<Base>)
    requires Sorted(xs) && Sorted(ys) && forall b :: b in xs <==> b in ys
    ensures xs == ys
    decreases |xs|
  {
    assert ys != [] ==> ys[0] in ys;
    if xs != [] {
      assert xs[0] in xs && xs[0] in ys;
      var i :| 0 <= i < |ys| && ys[i] == xs[0];
      assert ys[0] in xs;
      var j :| 0 <= j < |xs| && xs[j] == ys[0];
      assert i == 0;
      forall b
        ensures b in xs[1..] <==> b in ys[1..]
      {
        if b in xs[1..] {
          var m :| 1 <= m < |xs| && xs[m] == b;
          assert b in ys;
        }
        if b in ys[1..] {
          var m :| 1 <= m < |ys| && ys[m] == b;
          assert b in xs;
        }
      }
      SortedUnique(xs[1..], ys[1..]);
    }
  }

  // --- The invariant over crashes ---

  ghost predicate OnlyClaim(dir: Directory, n: Name) {
    n in dir && forall m :: m in dir && m.Claimed? ==> m == n
  }

  /** How far a live process has come when the first `k` of `names` are done with. */
  ghost predicate PcFits(s: State, names: seq<Base>, k: nat, events: seq<Event>, t0: Table, pid: nat, pc: Pc)
    requires k <= |names| == |events|
  {
    match pc
    case Starting => true
    case Reclaiming(stale) => forall n :: n in s.dir && n.Claimed? ==> n in stale
    case Listing => NoClaims(s.dir)
    case Draining(todo) => todo == names[k..] && todo != [] && NoClaims(s.dir)
    case Reading(todo) => todo == names[k..] && todo != [] && OnlyClaim(s.dir, Claimed(names[k], pid))
    case Posting(_, _, todo) => todo == names[k..] && todo != [] && OnlyClaim(s.dir, Claimed(names[k], pid))
    case Removing(todo) =>
      && todo == names[k..] && todo != [] && OnlyClaim(s.dir, Claimed(names[k], pid))
      && s.table == Replay(t0, events[..k + 1])
    case Drained => k == |names|
    case _ => false
  }

  /** The first `k` events are in the table and out of the buffer, the rest are in the buffer; the
      next one may already be in the table too. */
  ghost predicate Progress(s: State, names: seq<Base>, k: nat, events: seq<Event>, t0: Table) {
    && Inv(s)
    && k <= |names| == |events|
    && Sorted(names)
    && (forall b :: b in names ==> b in s.written)
    && events == EventsOf(s.written, names)
    && (forall b :: b in names[k..] <==> Stored(s.dir, b))
    && (s.table == Replay(t0, events[..k]) || (k < |names| && s.table == Replay(t0, events[..k + 1])))
    && (forall p, q :: p in s.procs && q in s.procs ==> p == q)
    && forall p :: p in s.procs ==> PcFits(s, names, k, events, t0, p, s.procs[p])
  }

  lemma SortedTail(names: seq<Base>, k: nat)
    requires Sorted(names) && k <= |names|
    ensures Sorted(names[k..])
  {
  }

  lemma ReclaimProgress(s: State, names: seq<Base>, k: nat, events: seq<Event>, t0: Table, pid: nat)
    requires Progress(s, names, k, events, t0)
    requires pid in s.procs && Waiting(s.procs[pid], Reclaim(true))
    ensures Progress(DoReclaim(s, pid, s.procs[pid].stale, true), names, k, events, t0)
  {
    var stale := s.procs[pid].stale;
    var s' := DoReclaim(s, pid, stale, true);
    ReclaimKeepsInv(s, pid, true);
    assert PcOk(s, s.procs[pid]) && stale[0] in stale;
    forall b
      ensures Stored(s'.dir, b) <==> Stored(s.dir, b)
    {
      StoredAfterMove(s.dir, stale[0], Plain(stale[0].base), b);
    }
    forall n | n in s'.dir && n.Claimed?
      ensures n in stale[1..]
    {
      assert n in s.dir && n != stale[0] && n in stale;
    }
  }

  lemma ListPlainProgress(s: State, names: seq<Base>, k: nat, events: seq<Event>, t0: Table, pid: nat, files: seq<Base>)
    requires Progress(s, names, k, events, t0)
    requires pid in s.procs && s.procs[pid].Listing? && IsPlainListing(s.dir, files)
    ensures Progress(At(s, pid, AfterFile(files)), names, k, events, t0)
  {
    LookKeepsInv(s, pid, AfterFile(files));
    SortedTail(names, k);
    forall b
      ensures b in files <==> b in names[k..]
    {
      StoredPlain(s.dir, b);
    }
    SortedUnique(files, names[k..]);
  }

  lemma ClaimProgress(s: State, names: seq<Base>, k: nat, events: seq<Event>, t0: Table, pid: nat)
    requires Progress(s, names, k, events, t0)
    requires pid in s.procs && Waiting(s.procs[pid], Claim(true))
    ensures Progress(DoClaim(s, pid, s.procs[pid].todo, true), names, k, events, t0)
  {
    var todo := s.procs[pid].todo;
    var s' := DoClaim(s, pid, todo, true);
    ClaimKeepsInv(s, pid, true);
    assert todo[0] == names[k] && names[k] in names[k..];
    StoredPlain(s.dir, names[k]);
    forall b
      ensures Stored(s'.dir, b) <==> Stored(s.dir, b)
    {
      StoredAfterMove(s.dir, Plain(todo[0]), Claimed(todo[0], pid), b);
    }
  }

  lemma TryProgress(s: State, names: seq<Base>, k: nat, events: seq<Event>, t0: Table, pid: nat, a: Answer)
    requires Progress(s, names, k, events, t0)
    requires pid in s.procs && s.procs[pid].Posting? && Possible(a) && Taken(a.reply)
    ensures var pc := s.procs[pid];
            pc.todo != [] && Progress(DoTry(s, pid, pc.body, pc.tries, pc.todo, a), names, k, events, t0)
  {
    var pc := s.procs[pid];
    TryKeepsInv(s, pid, a);
    assert PcOk(s, pc);
    assert pc.todo[0] == names[k];
    assert pc.body == Whole(events[k]);
    ReplayTwice(t0, events, k);
  }

  lemma RemoveProgress(s: State, names: seq<Base>, k: nat, events: seq<Event>, t0: Table, pid: nat)
    requires Progress(s, names, k, events, t0)
    requires pid in s.procs && Waiting(s.procs[pid], Remove(true))
    ensures k < |names| && Progress(DoRemove(s, pid, s.procs[pid].todo, true), names, k + 1, events, t0)
  {
    var todo := s.procs[pid].todo;
    var s' := DoRemove(s, pid, todo, true);
    RemoveKeepsInv(s, pid, true);
    assert todo[0] == names[k] && todo[1..] == names[k + 1..];
    assert PcFits(s, names, k, events, t0, pid, s.procs[pid]);
    assert NoClaims(s'.dir) && s'.table == Replay(t0, events[..k + 1]);
    RestStored(s.dir, names, k, Claimed(names[k], pid));
  }

  lemma RestStored(dir: Directory, names: seq<Base>, k: nat, gone: Name)
    requires OnePlace(dir) && gone in dir && !gone.Temp?
    requires Sorted(names) && k < |names| && gone.base == names[k]
    requires forall b :: b in names[k..] <==> Stored(dir, b)
    ensures forall b :: b in names[k + 1..] <==> Stored(dir - {gone}, b)
  {
    assert names[k..] == [names[k]] + names[k + 1..];
    assert names[k] !in names[k + 1..];
    forall b
      ensures b in names[k + 1..] <==> Stored(dir - {gone}, b)
    {
      StoredAfterRemove(dir, gone, b);
    }
  }

  /** Removing the only file of an event removes that event and no other. */
  lemma StoredAfterRemove(dir: Directory, gone: Name, b: Base)
    requires OnePlace(dir) && gone in dir && !gone.Temp?
    ensures Stored(dir - {gone}, b) <==> Stored(dir, b) && b != gone.base
  {
    if Stored(dir, b) && b != gone.base {
      var n :| n in dir && !n.Temp? && n.base == b;
      assert n in dir - {gone};
    }
  }

  /** A process that only looks at the directory. */
  lemma LookProgress(s: State, names: seq<Base>, k: nat, events: seq<Event>, t0: Table, pid: nat, pc: Pc)
    requires Progress(s, names, k, events, t0)
    requires pid in s.procs && !Creating(pc) && PcOk(s, pc)
    requires PcFits(s, names, k, events, t0, pid, pc)
    ensures Progress(At(s, pid, pc), names, k, events, t0)
  {
    LookKeepsInv(s, pid, pc);
  }

  lemma ReadProgress(s: State, names: seq<Base>, k: nat, events: seq<Event>, t0: Table, pid: nat)
    requires Progress(s, names, k, events, t0)
    requires pid in s.procs && Waiting(s.procs[pid], Read(true))
    ensures Progress(DoRead(s, pid, s.procs[pid].todo, true), names, k, events, t0)
  {
    var todo := s.procs[pid].todo;
    assert todo[0] == names[k];
    LookProgress(s, names, k, events, t0, pid, Posting(s.dir[Claimed(todo[0], pid)], 0, todo));
  }

  lemma LifeProgress(s: State, names: seq<Base>, k: nat, events: seq<Event>, t0: Table, a: Action)
    requires Progress(s, names, k, events, t0) && Solo(s, a) && !a.Do?
    ensures Progress(Step(s, a), names, k, events, t0)
  {
    StepKeepsInv(s, a);
  }

  lemma DrainStep(s: State, names: seq<Base>, k: nat, events: seq<Event>, t0: Table, a: Action) returns (k': nat)
    requires Progress(s, names, k, events, t0) && Solo(s, a)
    requires a.Do? ==> PartOfDrain(a.act) && (a.act.Try? ==> Taken(a.act.answer.reply))
    ensures Progress(Step(s, a), names, k', events, t0)
  {
    k' := k;
    if !a.Do? {
      LifeProgress(s, names, k, events, t0, a);
    } else {
      var pid := a.pid;
      assert PcFits(s, names, k, events, t0, pid, s.procs[pid]);
      match a.act
      case ListStale(stale) => LookProgress(s, names, k, events, t0, pid, AfterReclaim(stale));
      case Reclaim(_) => ReclaimProgress(s, names, k, events, t0, pid);
      case ListPlain(files) => ListPlainProgress(s, names, k, events, t0, pid, files);
      case Claim(_) => ClaimProgress(s, names, k, events, t0, pid);
      case Read(_) => ReadProgress(s, names, k, events, t0, pid);
      case Try(answer) => TryProgress(s, names, k, events, t0, pid, answer);
      case Remove(_) =>
        RemoveProgress(s, names, k, events, t0, pid);
        k' := k + 1;
      case _ =>
    }
  }

  lemma {:induction false} DrainRun(s: State, names: seq<Base>, k: nat, events: seq<Event>, t0: Table,
                                    acts: seq<Action>)
    returns (k': nat)
    requires Progress(s, names, k, events, t0) && IsDrainRun(s, acts) && IsRun(s, acts)
    ensures Progress(After(s, acts), names, k', events, t0)
    decreases |acts|
  {
    if acts == [] {
      k' := k;
    } else {
      k' := DrainStep(s, names, k, events, t0, acts[0]);
      k' := DrainRun(Step(s, acts[0]), names, k', events, t0, acts[1..]);
    }
  }

  // --- The theorem ---

  /** From any buffer that earlier crashes may have left behind: however many drains crash, and
      wherever, once one completes the table holds the buffered events upserted oldest first and
      the buffer is empty. */
  lemma DrainsRecover(s0: State, names: seq<Base>, acts: seq<Action>, pid: nat)
    requires Inv(s0) && s0.procs == map[] && Holds(s0.dir, names)
    requires IsDrainRun(s0, acts)
    ensures IsRun(s0, acts) && forall b :: b in names ==> b in s0.written
    ensures var s := After(s0, acts);
            pid in s.procs && s.procs[pid] == Drained ==>
              && s.table == Replay(s0.table, EventsOf(s0.written, names))
              && forall b :: !Stored(s.dir, b)
  {
    DrainRunIsRun(s0, acts);
    forall b | b in names
      ensures b in s0.written
    {
      var n :| n in s0.dir && !n.Temp? && n.base == b;
    }
    var events := EventsOf(s0.written, names);
    assert names[0..] == names;
    var k := DrainRun(s0, names, 0, events, s0.table, acts);
    var s := After(s0, acts);
    if pid in s.procs && s.procs[pid] == Drained {
      assert PcFits(s, names, k, events, s0.table, pid, Drained);
      assert events[..k] == events && names[k..] == [];
    }
  }

  predicate Uninterrupted(acts: seq<Action>) {
    forall i :: 0 <= i < |acts| ==> !acts[i].Crash?
  }

  /** Crashing drains followed by a completed one are indistinguishable, at the server and in the
      buffer, from one drain that nothing interrupted. */
  lemma CrashesLeaveNoTrace(s0: State, names: seq<Base>, once: seq<Action>, p: nat, crashing: seq<Action>, q: nat)
    requires Inv(s0) && s0.procs == map[] && Holds(s0.dir, names)
    requires IsDrainRun(s0, once) && IsRun(s0, once) && Uninterrupted(once)
    requires IsDrainRun(s0, crashing) && IsRun(s0, crashing)
    requires p in After(s0, once).procs && After(s0, once).procs[p] == Drained
    requires q in After(s0, crashing).procs && After(s0, crashing).procs[q] == Drained
    ensures After(s0, crashing).table == After(s0, once).table
    ensures forall b :: !Stored(After(s0, crashing).dir, b) && !Stored(After(s0, once).dir, b)
  {
    DrainsRecover(s0, names, once, p);
    DrainsRecover(s0, names, crashing, q);
  }
}
