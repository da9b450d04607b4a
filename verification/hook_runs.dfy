/** Building runs of the buffer protocol: what a process can do from a given state
    (cmd/sessionlens-hook/main.go). */
module HookRuns {
  import opened HookNames
  import opened HookProtocol
  import opened Sets

  // --- Joining steps ---

  const OK := Answer(Status(200), true)
  const REFUSED := Answer(Status(404), false)

  /** `acts` leads from `s` to `t`. */
  ghost predicate Leads(s: State, acts: seq<Action>, t: State) {
    IsRun(s, acts) && After(s, acts) == t
  }

  lemma LeadsOn(s: State, xs: seq<Action>, t: State, ys: seq<Action>, u: State)
    requires Leads(s, xs, t) && Leads(t, ys, u)
    ensures Leads(s, xs + ys, u)
  {
    RunConcat(s, xs, ys);
  }

  lemma OneStep(s: State, a: Action)
    requires Enabled(s, a)
    ensures Leads(s, [a], Step(s, a))
  {
    assert [a][1..] == [];
    assert IsRun(Step(s, a), []);
  }

  lemma TwoSteps(s: State, a: Action, b: Action)
    requires Enabled(s, a) && Enabled(Step(s, a), b)
    ensures Leads(s, [a, b], Step(Step(s, a), b))
  {
    OneStep(s, a);
    OneStep(Step(s, a), b);
    LeadsOn(s, [a], Step(s, a), [b], Step(Step(s, a), b));
    assert [a] + [b] == [a, b];
  }

  lemma ThreeSteps(s: State, a: Action, b: Action, c: Action)
    requires Enabled(s, a) && Enabled(Step(s, a), b) && Enabled(Step(Step(s, a), b), c)
    ensures Leads(s, [a, b, c], Step(Step(Step(s, a), b), c))
  {
    TwoSteps(s, a, b);
    OneStep(Step(Step(s, a), b), c);
    LeadsOn(s, [a, b], Step(Step(s, a), b), [c], Step(Step(Step(s, a), b), c));
    assert [a, b] + [c] == [a, b, c];
  }

  // --- Steps as the code makes them when the disk works ---

  predicate Succeeds(act: Act) {
    match act
    case Reclaim(ok) => ok
    case Claim(ok) => ok
    case Read(ok) => ok
    case PutBack(ok) => ok
    case Remove(ok) => ok
    case Evict(ok) => ok
    case Open(_, ok) => ok
    case Fill(ok) => ok
    case Publish(ok) => ok
    case _ => true
  }

  predicate PartOfDrain(act: Act) {
    act.ListStale? || act.Reclaim? || act.ListPlain? || act.Claim? || act.Read? || act.Try?
    || act.PutBack? || act.Remove?
  }

  ghost predicate NoClaims(dir: Directory) {
    forall n :: n in dir ==> !n.Claimed?
  }

  lemma StoredPlain(dir: Directory, b: Base)
    requires NoClaims(dir)
    ensures Stored(dir, b) <==> Plain(b) in dir
  {
  }

  /** A rename within one base name moves no event in or out. */
  lemma StoredAfterMove(dir: Directory, from: Name, to: Name, b: Base)
    requires !from.Temp? && !to.Temp? && from.base == to.base
    ensures Stored(Rename(dir, from, to), b) <==> Stored(dir, b)
  {
    var dir' := Rename(dir, from, to);
    if Stored(dir, b) {
      var n :| n in dir && !n.Temp? && n.base == b;
      assert n in dir' || (n == from && to in dir');
    }
    if Stored(dir', b) {
      var n :| n in dir' && !n.Temp? && n.base == b;
      assert n in dir || (n == to && from in dir);
    }
  }

  // --- Listings ---

  /** Where `b` goes in a sorted listing. */
  function Insert(files: seq<Base>, b: Base): (r: seq<Base>)
    requires Sorted(files) && b !in files
    ensures Sorted(r) && forall x :: x in r <==> x in files || x == b
  {
    if files == [] || Before(b, files[0]) then
      assert [b] + files == [b] + files;
      [b] + files
    else
      var rest := Insert(files[1..], b);
      assert files == [files[0]] + files[1..];
      assert forall i :: 0 <= i < |rest| ==> rest[i] in rest && Before(files[0], rest[i]);
      [files[0]] + rest
  }

  lemma {:induction false} InAgeOrder(bases: set<Base>) returns (files: seq<Base>)
    ensures Sorted(files) && forall b :: b in files <==> b in bases
    decreases |bases|
  {
    if bases == {} {
      files := [];
    } else {
      var b :| b in bases;
      var rest := InAgeOrder(bases - {b});
      files := Insert(rest, b);
    }
  }

  lemma PlainListing(dir: Directory) returns (files: seq<Base>)
    ensures IsPlainListing(dir, files)
  {
    var bases := set n | n in dir && n.Plain? :: n.base;
    forall b
      ensures b in bases <==> Plain(b) in dir
    {
      assert Plain(b).base == b;
    }
    files := InAgeOrder(bases);
  }

  lemma StaleListing(dir: Directory) returns (stale: seq<Name>)
    ensures IsStaleListing(dir, stale)
  {
    stale := SomeOrder(set n | n in dir && n.Claimed?);
  }

  lemma FreshPid(procs: map<nat, Pc>) returns (pid: nat)
    ensures pid !in procs
  {
    pid := FreshNumber(procs.Keys);
  }

  lemma FreshBase(used: set<Base>) returns (b: Base)
    ensures b !in used
  {
    var stamp := FreshNumber(set u | u in used :: u.stamp);
    b := Base(stamp, 0);
    assert b in used ==> b.stamp in (set u | u in used :: u.stamp);
  }

  // --- A drain, step by step ---

  /** Steps of a draining process whose file operations succeed. */
  predicate Drains(acts: seq<Action>, pid: nat) {
    forall i :: 0 <= i < |acts| ==>
                  acts[i].Do? && acts[i].pid == pid && PartOfDrain(acts[i].act) && Succeeds(acts[i].act)
  }

  /** Only the directory, the process and the record of attempts have changed, and no event has
      entered or left the buffer. */
  ghost predicate OnlyDrained(s: State, t: State, pid: nat, pc: Pc) {
    && t == s.(dir := t.dir, procs := t.procs, posts := t.posts)
    && t.procs == s.procs[pid := pc]
    && s.posts <= t.posts
    && forall b :: Stored(t.dir, b) <==> Stored(s.dir, b)
  }

  lemma {:induction false} ReclaimRest(s: State, pid: nat, stale: seq<Name>) returns (acts: seq<Action>, t: State)
    requires pid in s.procs && s.procs[pid] == AfterReclaim(stale)
    requires forall n :: n in stale ==> n.Claimed?
    requires forall n :: n in s.dir && n.Claimed? ==> n in stale
    ensures Leads(s, acts, t) && Drains(acts, pid) && OnlyDrained(s, t, pid, Listing) && NoClaims(t.dir)
    ensures stale == [] ==> t.dir == s.dir
    decreases |stale|
  {
    if stale == [] {
      acts, t := [], s;
    } else {
      var a := Do(pid, Reclaim(true));
      var n := stale[0];
      assert n in stale && stale == [n] + stale[1..];
      var s1 := Step(s, a);
      OneStep(s, a);
      forall b
        ensures Stored(s1.dir, b) <==> Stored(s.dir, b)
      {
        StoredAfterMove(s.dir, n, Plain(n.base), b);
      }
      acts, t := ReclaimRest(s1, pid, stale[1..]);
      LeadsOn(s, [a], s1, acts, t);
      acts := [a] + acts;
    }
  }

  /** A process that has just started takes back all claims and lists the buffer. */
  lemma StartDrain(s: State, pid: nat) returns (acts: seq<Action>, t: State, files: seq<Base>)
    requires pid in s.procs && s.procs[pid] == Starting
    ensures Leads(s, acts, t) && Drains(acts, pid)
    ensures OnlyDrained(s, t, pid, AfterFile(files)) && IsPlainListing(t.dir, files) && NoClaims(t.dir)
    ensures NoClaims(s.dir) ==> t.dir == s.dir
  {
    var stale := StaleListing(s.dir);
    assert NoClaims(s.dir) && stale != [] ==> stale[0] in stale;
    var s1 := At(s, pid, AfterReclaim(stale));
    OneStep(s, Do(pid, ListStale(stale)));
    var rest, s2 := ReclaimRest(s1, pid, stale);
    LeadsOn(s, [Do(pid, ListStale(stale))], s1, rest, s2);
    files := PlainListing(s2.dir);
    t := At(s2, pid, AfterFile(files));
    OneStep(s2, Do(pid, ListPlain(files)));
    LeadsOn(s, [Do(pid, ListStale(stale))] + rest, s2, [Do(pid, ListPlain(files))], t);
    acts := [Do(pid, ListStale(stale))] + rest + [Do(pid, ListPlain(files))];
  }

  /** The next file is claimed, read, refused and put back: the directory is as it was. */
  lemma RefuseOne(s: State, pid: nat, todo: seq<Base>) returns (acts: seq<Action>, t: State)
    requires pid in s.procs && todo != [] && s.procs[pid] == Draining(todo)
    requires Plain(todo[0]) in s.dir && Claimed(todo[0], pid) !in s.dir
    ensures Leads(s, acts, t) && Drains(acts, pid)
    ensures OnlyDrained(s, t, pid, AfterFile(todo[1..])) && t.dir == s.dir
  {
    var plain, claimed := Plain(todo[0]), Claimed(todo[0], pid);
    var body := s.dir[plain];
    var dir := Rename(s.dir, plain, claimed);
    var s1 := At(s, pid, Reading(todo)).(dir := dir);
    assert Step(s, Do(pid, Claim(true))) == s1;
    var s2 := At(s, pid, Posting(body, 0, todo)).(dir := dir);
    assert Step(s1, Do(pid, Read(true))) == s2;
    TwoSteps(s, Do(pid, Claim(true)), Do(pid, Read(true)));
    t := At(s, pid, AfterFile(todo[1..])).(posts := s.posts + [Post(pid, File(todo[0]), body, Status(404))]);
    RefuseEnd(s, pid, todo, body, dir, s2, t);
    LeadsOn(s, [Do(pid, Claim(true)), Do(pid, Read(true))], s2, [Do(pid, Try(REFUSED)), Do(pid, PutBack(true))], t);
    acts := [Do(pid, Claim(true)), Do(pid, Read(true))] + [Do(pid, Try(REFUSED)), Do(pid, PutBack(true))];
  }

  lemma RefuseEnd(s: State, pid: nat, todo: seq<Base>, body: Content, dir: Directory, s2: State, t: State)
    requires todo != [] && Plain(todo[0]) in s.dir && Claimed(todo[0], pid) !in s.dir
    requires dir == Rename(s.dir, Plain(todo[0]), Claimed(todo[0], pid)) && body == s.dir[Plain(todo[0])]
    requires s2 == At(s, pid, Posting(body, 0, todo)).(dir := dir)
    requires t == At(s, pid, AfterFile(todo[1..])).(posts := s.posts + [Post(pid, File(todo[0]), body, Status(404))])
    ensures Leads(s2, [Do(pid, Try(REFUSED)), Do(pid, PutBack(true))], t)
  {
    var s3 := At(s, pid, PuttingBack(todo)).(dir := dir, posts := t.posts);
    assert Step(s2, Do(pid, Try(REFUSED))) == s3;
    assert Rename(dir, Claimed(todo[0], pid), Plain(todo[0])) == s.dir;
    assert Step(s3, Do(pid, PutBack(true))) == t;
    TwoSteps(s2, Do(pid, Try(REFUSED)), Do(pid, PutBack(true)));
  }

  /** The first `k` files are refused and put back. */
  lemma {:induction false} RefuseFirst(s: State, pid: nat, todo: seq<Base>, k: nat)
    returns (acts: seq<Action>, t: State)
    requires pid in s.procs && k <= |todo| && s.procs[pid] == AfterFile(todo) && NoClaims(s.dir)
    requires forall b :: b in todo ==> Plain(b) in s.dir
    ensures Leads(s, acts, t) && Drains(acts, pid)
    ensures OnlyDrained(s, t, pid, AfterFile(todo[k..])) && t.dir == s.dir
    decreases k
  {
    if k == 0 {
      acts, t := [], s;
      assert todo[0..] == todo;
    } else {
      var first, s1 := RefuseOne(s, pid, todo);
      var rest;
      rest, t := RefuseFirst(s1, pid, todo[1..], k - 1);
      assert todo[1..][k - 1..] == todo[k..];
      LeadsOn(s, first, s1, rest, t);
      acts := first + rest;
    }
  }

  /** Whatever is in the buffer, and wherever its file is, a new process can come to claim it. */
  lemma ReachFile(s: State, pid: nat, b: Base) returns (acts: seq<Action>, t: State, todo: seq<Base>)
    requires pid in s.procs && s.procs[pid] == Starting && Stored(s.dir, b)
    ensures Leads(s, acts, t) && Drains(acts, pid)
    ensures todo != [] && todo[0] == b && OnlyDrained(s, t, pid, Draining(todo)) && Plain(b) in t.dir
  {
    var first, s1, files := StartDrain(s, pid);
    StoredPlain(s1.dir, b);
    assert Stored(s1.dir, b);
    var k :| 0 <= k < |files| && files[k] == b;
    var rest;
    rest, t := RefuseFirst(s1, pid, files, k);
    LeadsOn(s, first, s1, rest, t);
    acts, todo := first + rest, files[k..];
  }

  // --- Writing ---

  /** The three steps of writing a file, taken together. */
  lemma WriteSteps(s: State, pid: nat, e: Event, b: Base)
    requires pid in s.procs && s.procs[pid] == Opening(e)
    requires b !in s.used && Temp(b) !in s.dir && Plain(b) !in s.dir
    ensures Leads(s, [Do(pid, Open(b, true)), Do(pid, Fill(true)), Do(pid, Publish(true))],
                  At(s, pid, Finished).(dir := s.dir[Plain(b) := Whole(e)], written := s.written[b := e],
                      used := s.used + {b}))
  {
    var s1 := At(s, pid, Filling(e, b)).(dir := s.dir[Temp(b) := Torn], used := s.used + {b});
    assert Step(s, Do(pid, Open(b, true))) == s1;
    var s2 := At(s1, pid, Publishing(e, b)).(dir := s.dir[Temp(b) := Whole(e)]);
    assert s1.dir[Temp(b) := Whole(e)] == s2.dir;
    assert Step(s1, Do(pid, Fill(true))) == s2;
    assert Rename(s2.dir, Temp(b), Plain(b)) == s.dir[Plain(b) := Whole(e)];
    assert s2.procs[pid := Finished] == s.procs[pid := Finished];
    ThreeSteps(s, Do(pid, Open(b, true)), Do(pid, Fill(true)), Do(pid, Publish(true)));
  }
}
