/** When a claim keeps other processes out, and when it does not: exactly as long as no process takes
    back the claim of a live one (cmd/sessionlens-hook/main.go). */
module HookExclusion {
  import opened HookNames
  import opened HookProtocol
  import opened HookRuns

  /** The process works on the file it has claimed for `b`. */
  predicate Holding(pc: Pc, b: Base) {
    match pc
    case Reading(todo) => todo != [] && todo[0] == b
    case Posting(_, _, todo) => todo != [] && todo[0] == b
    case PuttingBack(todo) => todo != [] && todo[0] == b
    case Removing(todo) => todo != [] && todo[0] == b
    case _ => false
  }

  /** The claimed file of everyone who holds one is still there. */
  ghost predicate HeldIsClaimed(s: State) {
    forall p, b :: p in s.procs && Holding(s.procs[p], b) ==> Claimed(b, p) in s.dir
  }

  ghost predicate OneHolder(s: State) {
    forall p, q, b :: p in s.procs && q in s.procs && Holding(s.procs[p], b) && Holding(s.procs[q], b) ==> p == q
  }

  /** Someone takes back the claim that a live process holds. */
  ghost predicate Theft(s: State, a: Action) {
    && a.Do? && a.act == Reclaim(true) && a.pid in s.procs && Waiting(s.procs[a.pid], a.act)
    && var n := s.procs[a.pid].stale[0];
       && n in s.dir && n.Claimed? && n.pid in s.procs && Holding(s.procs[n.pid], n.base)
  }

  ghost predicate NoTheft(s: State, acts: seq<Action>)
    requires IsRun(s, acts)
    decreases |acts|
  {
    acts == [] || (!Theft(s, acts[0]) && NoTheft(Step(s, acts[0]), acts[1..]))
  }

  /** One file per event, so one holder per event. */
  lemma ClaimedOnce(s: State)
    requires Inv(s) && HeldIsClaimed(s)
    ensures OneHolder(s)
  {
    forall p, q, b | p in s.procs && q in s.procs && Holding(s.procs[p], b) && Holding(s.procs[q], b)
      ensures p == q
    {
      assert Claimed(b, p) in s.dir && Claimed(b, q) in s.dir;
    }
  }

  /** Taking back another claim leaves this one where it is. */
  lemma ReclaimLeaves(s: State, pid: nat, ok: bool, p: nat, b: Base)
    requires Enabled(s, Do(pid, Reclaim(ok))) && !Theft(s, Do(pid, Reclaim(ok)))
    requires p in s.procs && Holding(s.procs[p], b) && Claimed(b, p) in s.dir
    ensures Claimed(b, p) in DoReclaim(s, pid, s.procs[pid].stale, ok).dir
  {
    assert ok ==> s.procs[pid].stale[0] != Claimed(b, p);
  }

  /** A process's other operations touch no claim but its own. */
  lemma OwnFilesOnly(s: State, pid: nat, act: Act, p: nat, b: Base)
    requires Enabled(s, Do(pid, act)) && !act.Reclaim? && p != pid && Claimed(b, p) in s.dir
    ensures Claimed(b, p) in StepAct(s, pid, s.procs[pid], act).dir
  {
  }

  /** A step of another process leaves a held claim where it is, unless it is a theft. */
  lemma OthersLeaveClaims(s: State, pid: nat, act: Act, p: nat, b: Base)
    requires Enabled(s, Do(pid, act)) && !Theft(s, Do(pid, act))
    requires p != pid && p in s.procs && Holding(s.procs[p], b) && Claimed(b, p) in s.dir
    ensures Claimed(b, p) in StepAct(s, pid, s.procs[pid], act).dir
  {
    if act.Reclaim? {
      ReclaimLeaves(s, pid, act.ok, p, b);
    } else {
      OwnFilesOnly(s, pid, act, p, b);
    }
  }

  lemma OtherActsRelease(s: State, pid: nat, act: Act, b: Base)
    requires Enabled(s, Do(pid, act)) && !act.Claim? && !act.Read? && !act.Try?
    ensures !Holding(StepAct(s, pid, s.procs[pid], act).procs[pid], b)
  {
  }

  lemma LookingKeepsHold(s: State, pid: nat, act: Act, b: Base)
    requires Enabled(s, Do(pid, act)) && (act.Read? || act.Try?)
    ensures var s' := StepAct(s, pid, s.procs[pid], act);
            s'.dir == s.dir && (Holding(s'.procs[pid], b) ==> Holding(s.procs[pid], b))
  {
  }

  lemma ClaimTakesHold(s: State, pid: nat, ok: bool, b: Base)
    requires Enabled(s, Do(pid, Claim(ok)))
    requires Holding(DoClaim(s, pid, s.procs[pid].todo, ok).procs[pid], b)
    ensures Claimed(b, pid) in DoClaim(s, pid, s.procs[pid].todo, ok).dir
  {
  }

  /** A process that goes on holding a file goes on finding it. */
  lemma HolderKeepsClaim(s: State, pid: nat, act: Act, b: Base)
    requires HeldIsClaimed(s) && Enabled(s, Do(pid, act))
    requires Holding(StepAct(s, pid, s.procs[pid], act).procs[pid], b)
    ensures Claimed(b, pid) in StepAct(s, pid, s.procs[pid], act).dir
  {
    if act.Claim? {
      ClaimTakesHold(s, pid, act.ok, b);
    } else if act.Read? || act.Try? {
      LookingKeepsHold(s, pid, act, b);
    } else {
      OtherActsRelease(s, pid, act, b);
    }
  }

  lemma ActKeepsHeld(s: State, pid: nat, act: Act)
    requires Inv(s) && HeldIsClaimed(s) && Enabled(s, Do(pid, act)) && !Theft(s, Do(pid, act))
    ensures HeldIsClaimed(StepAct(s, pid, s.procs[pid], act))
  {
    var s' := StepAct(s, pid, s.procs[pid], act);
    forall p, b | p in s'.procs && Holding(s'.procs[p], b)
      ensures Claimed(b, p) in s'.dir
    {
      if p == pid {
        HolderKeepsClaim(s, pid, act, b);
      } else {
        assert s'.procs[p] == s.procs[p];
        assert Holding(s.procs[p], b);
        OthersLeaveClaims(s, pid, act, p, b);
      }
    }
  }

  lemma StepKeepsHeld(s: State, a: Action)
    requires Inv(s) && HeldIsClaimed(s) && Enabled(s, a) && !Theft(s, a)
    ensures HeldIsClaimed(Step(s, a))
  {
    if a.Do? {
      ActKeepsHeld(s, a.pid, a.act);
    } else {
      var s' := Step(s, a);
      forall p, b | p in s'.procs && Holding(s'.procs[p], b)
        ensures Claimed(b, p) in s'.dir
      {
        assert Holding(s.procs[p], b);
      }
    }
  }

  lemma {:induction false} RunKeepsHeld(s: State, acts: seq<Action>)
    requires Inv(s) && HeldIsClaimed(s) && IsRun(s, acts) && NoTheft(s, acts)
    ensures Inv(After(s, acts)) && HeldIsClaimed(After(s, acts))
    decreases |acts|
  {
    if acts != [] {
      StepKeepsInv(s, acts[0]);
      StepKeepsHeld(s, acts[0]);
      RunKeepsHeld(Step(s, acts[0]), acts[1..]);
    }
  }

  /** In every run in which no live process's claim is taken back, at most one live process works on
      an event's file, and its claimed file is there. */
  lemma ClaimsExclude(acts: seq<Action>)
    requires IsRun(INIT, acts) && NoTheft(INIT, acts)
    ensures OneHolder(After(INIT, acts)) && HeldIsClaimed(After(INIT, acts))
  {
    RunKeepsHeld(INIT, acts);
    ClaimedOnce(After(INIT, acts));
  }

  /** Once a live process's claim is taken back, a new process can come to hold the same event, by
      steps that all succeed. */
  lemma TheftLetsAnotherIn(s: State, a: Action) returns (acts: seq<Action>, victim: nat, other: nat, b: Base)
    requires Inv(s) && Enabled(s, a) && Theft(s, a)
    ensures IsRun(Step(s, a), acts) && victim != other && other !in s.procs
    ensures forall i :: 0 <= i < |acts| && acts[i].Do? ==> acts[i].pid == other && Succeeds(acts[i].act)
    ensures var t := After(Step(s, a), acts);
            && victim in t.procs && Holding(t.procs[victim], b)
            && other in t.procs && Holding(t.procs[other], b)
  {
    var n := s.procs[a.pid].stale[0];
    victim, b := n.pid, n.base;
    var s1 := Step(s, a);
    assert Plain(b) in s1.dir && Stored(s1.dir, b);
    other := FreshPid(s1.procs);
    var t, todo;
    acts, t, todo := ComeAndClaim(s1, other, b);
    assert Holding(t.procs[other], b) && t.procs[victim] == s.procs[victim];
  }

  /** A new process comes to hold a buffered event. */
  lemma ComeAndClaim(s: State, pid: nat, b: Base) returns (acts: seq<Action>, t: State, todo: seq<Base>)
    requires pid !in s.procs && Stored(s.dir, b)
    ensures Leads(s, acts, t) && todo != [] && todo[0] == b && t.procs == s.procs[pid := Reading(todo)]
    ensures forall i :: 0 <= i < |acts| && acts[i].Do? ==> acts[i].pid == pid && Succeeds(acts[i].act)
  {
    var s1, s2 := At(s, pid, Starting), s;
    OneStep(s, Spawn(pid));
    var more;
    more, s2, todo := ReachFile(s1, pid, b);
    LeadsOn(s, [Spawn(pid)], s1, more, s2);
    t := Step(s2, Do(pid, Claim(true)));
    OneStep(s2, Do(pid, Claim(true)));
    LeadsOn(s, [Spawn(pid)] + more, s2, [Do(pid, Claim(true))], t);
    acts := [Spawn(pid)] + more + [Do(pid, Claim(true))];
    assert t.procs == s.procs[pid := Reading(todo)];
  }

  /** However the processes go on without theft, no two of them hold one event. */
  ghost predicate ExcludesOn(s: State) {
    forall acts :: IsRun(s, acts) && NoTheft(s, acts) ==> OneHolder(After(s, acts))
  }

  // --- A second holder without any further theft ---

  /** The claims are left alone, and so are the files before `b`. */
  lemma {:induction false} SkipStale(s: State, pid: nat, stale: seq<Name>) returns (acts: seq<Action>)
    requires pid in s.procs && s.procs[pid] == AfterReclaim(stale)
    ensures Leads(s, acts, At(s, pid, Listing)) && NoTheft(s, acts)
    decreases |stale|
  {
    if stale == [] {
      acts := [];
      assert At(s, pid, Listing) == s;
    } else {
      var a := Do(pid, Reclaim(false));
      OneStep(s, a);
      acts := SkipStale(Step(s, a), pid, stale[1..]);
      LeadsOn(s, [a], Step(s, a), acts, At(s, pid, Listing));
      assert ([a] + acts)[1..] == acts;
      acts := [a] + acts;
    }
  }

  lemma {:induction false} SkipFiles(s: State, pid: nat, todo: seq<Base>, k: nat) returns (acts: seq<Action>)
    requires k < |todo| && pid in s.procs && s.procs[pid] == Draining(todo)
    ensures Leads(s, acts, At(s, pid, Draining(todo[k..]))) && NoTheft(s, acts)
    decreases k
  {
    if k == 0 {
      acts := [];
      assert todo[0..] == todo && At(s, pid, Draining(todo)) == s;
    } else {
      var a := Do(pid, Claim(false));
      OneStep(s, a);
      acts := SkipFiles(Step(s, a), pid, todo[1..], k - 1);
      assert todo[1..][k - 1..] == todo[k..];
      LeadsOn(s, [a], Step(s, a), acts, At(s, pid, Draining(todo[k..])));
      assert ([a] + acts)[1..] == acts;
      acts := [a] + acts;
    }
  }

  lemma {:induction false} NoTheftConcat(s: State, xs: seq<Action>, ys: seq<Action>)
    requires IsRun(s, xs) && NoTheft(s, xs) && IsRun(After(s, xs), ys) && NoTheft(After(s, xs), ys)
    ensures IsRun(s, xs + ys) && NoTheft(s, xs + ys)
    decreases |xs|
  {
    RunConcat(s, xs, ys);
    if xs == [] {
      assert xs + ys == ys;
    } else {
      NoTheftConcat(Step(s, xs[0]), xs[1..], ys);
      assert (xs + ys)[1..] == xs[1..] + ys;
    }
  }

  lemma Join(s: State, xs: seq<Action>, t: State, ys: seq<Action>, u: State)
    requires Leads(s, xs, t) && NoTheft(s, xs) && Leads(t, ys, u) && NoTheft(t, ys)
    ensures Leads(s, xs + ys, u) && NoTheft(s, xs + ys)
  {
    LeadsOn(s, xs, t, ys, u);
    NoTheftConcat(s, xs, ys);
  }

  lemma HonestStep(s: State, a: Action)
    requires Enabled(s, a) && !Theft(s, a)
    ensures Leads(s, [a], Step(s, a)) && NoTheft(s, [a])
  {
    OneStep(s, a);
    assert [a][1..] == [];
  }

  lemma StartQuietly(s: State, pid: nat, stale: seq<Name>)
    requires pid !in s.procs && IsStaleListing(s.dir, stale)
    ensures var acts := [Spawn(pid)] + [Do(pid, ListStale(stale))];
            Leads(s, acts, At(s, pid, AfterReclaim(stale))) && NoTheft(s, acts)
  {
    var s1, s2 := At(s, pid, Starting), At(s, pid, AfterReclaim(stale));
    assert Step(s, Spawn(pid)) == s1 && Step(s1, Do(pid, ListStale(stale))) == s2;
    HonestStep(s, Spawn(pid));
    HonestStep(s1, Do(pid, ListStale(stale)));
    Join(s, [Spawn(pid)], s1, [Do(pid, ListStale(stale))], s2);
  }

  lemma ListPlainQuietly(s: State, pid: nat, files: seq<Base>)
    requires IsPlainListing(s.dir, files)
    ensures var s1 := At(s, pid, Listing);
            Leads(s1, [Do(pid, ListPlain(files))], At(s, pid, AfterFile(files)))
            && NoTheft(s1, [Do(pid, ListPlain(files))])
  {
    var s1 := At(s, pid, Listing);
    assert Step(s1, Do(pid, ListPlain(files))) == At(s, pid, AfterFile(files));
    HonestStep(s1, Do(pid, ListPlain(files)));
  }

  /** A new process starts and lists the buffer, and touches nothing. */
  lemma ListQuietly(s: State, pid: nat, files: seq<Base>) returns (acts: seq<Action>)
    requires pid !in s.procs && IsPlainListing(s.dir, files)
    ensures Leads(s, acts, At(s, pid, AfterFile(files))) && NoTheft(s, acts)
  {
    var stale := StaleListing(s.dir);
    StartQuietly(s, pid, stale);
    var s2, s3 := At(s, pid, AfterReclaim(stale)), At(s, pid, Listing);
    var more := SkipStale(s2, pid, stale);
    assert At(s2, pid, Listing) == s3;
    acts := [Spawn(pid)] + [Do(pid, ListStale(stale))];
    Join(s, acts, s2, more, s3);
    ListPlainQuietly(s, pid, files);
    Join(s, acts + more, s3, [Do(pid, ListPlain(files))], At(s, pid, AfterFile(files)));
    acts := acts + more + [Do(pid, ListPlain(files))];
  }

  lemma ClaimHere(s: State, pid: nat, todo: seq<Base>) returns (t: State)
    requires todo != [] && Plain(todo[0]) in s.dir
    ensures var s1 := At(s, pid, Draining(todo));
            Leads(s1, [Do(pid, Claim(true))], t) && NoTheft(s1, [Do(pid, Claim(true))])
    ensures t.procs == s.procs[pid := Reading(todo)]
  {
    var s1 := At(s, pid, Draining(todo));
    t := Step(s1, Do(pid, Claim(true)));
    HonestStep(s1, Do(pid, Claim(true)));
    assert t.procs == s1.procs[pid := Reading(todo)];
  }

  lemma GoTo(s: State, pid: nat, files: seq<Base>, k: nat) returns (acts: seq<Action>)
    requires k < |files|
    ensures var s1 := At(s, pid, Draining(files));
            Leads(s1, acts, At(s, pid, Draining(files[k..]))) && NoTheft(s1, acts)
  {
    var s1 := At(s, pid, Draining(files));
    acts := SkipFiles(s1, pid, files, k);
    assert At(s1, pid, Draining(files[k..])) == At(s, pid, Draining(files[k..]));
  }

  /** A new process claims a plain file and touches nothing else. */
  lemma ClaimQuietly(s: State, pid: nat, b: Base) returns (acts: seq<Action>, t: State, todo: seq<Base>)
    requires pid !in s.procs && Plain(b) in s.dir
    ensures Leads(s, acts, t) && NoTheft(s, acts)
    ensures todo != [] && todo[0] == b && t.procs == s.procs[pid := Reading(todo)]
  {
    var files := PlainListing(s.dir);
    assert b in files;
    var k :| 0 <= k < |files| && files[k] == b;
    todo := files[k..];
    var first := ListQuietly(s, pid, files);
    var second := GoTo(s, pid, files, k);
    t := ClaimHere(s, pid, todo);
    Join(s, first, At(s, pid, Draining(files)), second, At(s, pid, Draining(todo)));
    Join(s, first + second, At(s, pid, Draining(todo)), [Do(pid, Claim(true))], t);
    acts := first + second + [Do(pid, Claim(true))];
  }

  /** The exact condition. Where everyone's claim is in place, exclusion survives a step, and every
      theft-free way of going on from it, if and only if the step is not itself a theft. */
  lemma ExclusionExactly(s: State, a: Action)
    requires Inv(s) && HeldIsClaimed(s) && Enabled(s, a)
    ensures ExcludesOn(Step(s, a)) <==> !Theft(s, a)
  {
    var s1 := Step(s, a);
    StepKeepsInv(s, a);
    if Theft(s, a) {
      var n := s.procs[a.pid].stale[0];
      assert Plain(n.base) in s1.dir;
      var q := FreshPid(s1.procs);
      var acts, t, todo := ClaimQuietly(s1, q, n.base);
      assert Holding(t.procs[n.pid], n.base) && Holding(t.procs[q], n.base) && q != n.pid;
      assert !OneHolder(After(s1, acts));
    } else {
      StepKeepsHeld(s, a);
      forall acts | IsRun(s1, acts) && NoTheft(s1, acts)
        ensures OneHolder(After(s1, acts))
      {
        RunKeepsHeld(s1, acts);
        ClaimedOnce(After(s1, acts));
      }
    }
  }
}
