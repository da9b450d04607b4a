/** Safety of the buffer over whole runs of any number of overlapping, crashing hook processes, and
    what overlapping processes do break (cmd/sessionlens-hook/main.go). */
module HookSafety {
  import opened HookNames
  import opened HookProtocol
  import opened HookRuns

  /** No event is lost: whatever was ever renamed into the buffer is still in a buffer file, or
      was sent, whole, in an attempt answered below 400, or was evicted to make room. */
  lemma NoEventLost(acts: seq<Action>, b: Base)
    requires IsRun(INIT, acts) && b in After(INIT, acts).written
    ensures var s := After(INIT, acts);
            || (exists n :: n in s.dir && !n.Temp? && n.base == b && s.dir[n] == Whole(s.written[b]))
            || (exists i :: 0 <= i < |s.posts| && s.posts[i].reply.Status? && s.posts[i].reply.code < 400
                            && s.posts[i].source == File(b) && s.posts[i].body == Whole(s.written[b]))
            || b in s.evicted
  {
    RunKeepsInv(INIT, acts);
    var s := After(INIT, acts);
    if Stored(s.dir, b) {
      var n :| n in s.dir && !n.Temp? && n.base == b;
      assert s.dir[n] == Whole(s.written[b]);
    } else if Delivered(s.posts, b) {
      var i :| 0 <= i < |s.posts| && s.posts[i].source == File(b)
               && s.posts[i].reply.Status? && s.posts[i].reply.code < 400;
      assert s.posts[i].body == Whole(s.written[b]);
    }
  }

  /** At most one of `f.json` and its claimed forms exists, and it holds, whole, the event that was
      written under that name: nobody ever reads a half-written event or posts another one's body. */
  lemma OneFilePerEvent(acts: seq<Action>, m: Name, n: Name)
    requires IsRun(INIT, acts) && m.base == n.base && !m.Temp? && !n.Temp?
    requires m in After(INIT, acts).dir && n in After(INIT, acts).dir
    ensures var s := After(INIT, acts);
            m == n && m.base in s.written && s.dir[m] == Whole(s.written[m.base])
  {
    RunKeepsInv(INIT, acts);
  }

  /** The source and target of the rename a process is about to make. */
  function RenameAhead(pid: nat, pc: Pc): (Name, Name)
    requires pc.Publishing? || (pc.Reclaiming? && pc.stale != [])
             || ((pc.Draining? || pc.PuttingBack?) && pc.todo != [])
  {
    match pc
    case Reclaiming(stale) => (stale[0], Plain(stale[0].base))
    case Draining(todo) => (Plain(todo[0]), Claimed(todo[0], pid))
    case PuttingBack(todo) => (Claimed(todo[0], pid), Plain(todo[0]))
    case Publishing(_, b) => (Temp(b), Plain(b))
  }

  /** No rename in any run overwrites a file. */
  lemma RenamesNeverOverwrite(acts: seq<Action>, pid: nat, act: Act)
    requires IsRun(INIT, acts) && pid in After(INIT, acts).procs
    requires act.Reclaim? || act.Claim? || act.PutBack? || act.Publish?
    requires Waiting(After(INIT, acts).procs[pid], act)
    ensures var s := After(INIT, acts);
            var (from, to) := RenameAhead(pid, s.procs[pid]);
            from in s.dir ==> to !in s.dir
  {
    RunKeepsInv(INIT, acts);
    var s := After(INIT, acts);
    assert PcOk(s, s.procs[pid]);
    if act.Reclaim? {
      assert s.procs[pid].stale[0] in s.procs[pid].stale;
    }
  }

  // --- What does not hold when processes overlap ---

  /** The history of a process whose one attempt was refused and that buffered its event. */
  function Buffered(e: Event, b: Base, name: Name, procs: map<nat, Pc>): State {
    State(map[name := Whole(e)], procs, map[], map[b := e], {b}, [Post(1, Own, Whole(e), Status(404))], {})
  }

  /** Process 1 fails to post its event and buffers it: a 404 is not dropped. */
  lemma BufferOne(e: Event, b: Base) returns (acts: seq<Action>)
    ensures Leads(INIT, acts, Buffered(e, b, Plain(b), map[1 := Finished]))
  {
    var s1 := INIT.(procs := map[1 := Listing]);
    assert Step(Step(INIT, Spawn(1)), Do(1, ListStale([]))) == s1;
    TwoSteps(INIT, Spawn(1), Do(1, ListStale([])));
    var s2 := INIT.(procs := map[1 := Sending(e, 0)]);
    var s3 := INIT.(procs := map[1 := Opening(e)], posts := [Post(1, Own, Whole(e), Status(404))]);
    BufferOneMiddle(e, s1, s2, s3);
    var s4 := Buffered(e, b, Plain(b), map[1 := Finished]);
    BufferOneEnd(e, b, s3);
    var w := [Do(1, Open(b, true)), Do(1, Fill(true)), Do(1, Publish(true))];
    LeadsOn(s2, [Do(1, Try(REFUSED)), Do(1, ListForCap([]))], s3, w, s4);
    LeadsOn(s1, [Do(1, ListPlain([])), Do(1, Begin(e))], s2, [Do(1, Try(REFUSED)), Do(1, ListForCap([]))] + w, s4);
    acts := [Do(1, ListPlain([])), Do(1, Begin(e))] + ([Do(1, Try(REFUSED)), Do(1, ListForCap([]))] + w);
    LeadsOn(INIT, [Spawn(1), Do(1, ListStale([]))], s1, acts, s4);
    acts := [Spawn(1), Do(1, ListStale([]))] + acts;
  }

  lemma BufferOneEnd(e: Event, b: Base, s3: State)
    requires s3 == INIT.(procs := map[1 := Opening(e)], posts := [Post(1, Own, Whole(e), Status(404))])
    ensures Leads(s3, [Do(1, Open(b, true)), Do(1, Fill(true)), Do(1, Publish(true))],
                  Buffered(e, b, Plain(b), map[1 := Finished]))
  {
    WriteSteps(s3, 1, e, b);
    assert s3.dir[Plain(b) := Whole(e)] == map[Plain(b) := Whole(e)];
    assert At(s3, 1, Finished).procs == map[1 := Finished];
  }

  lemma BufferOneMiddle(e: Event, s1: State, s2: State, s3: State)
    requires s1 == INIT.(procs := map[1 := Listing])
    requires s2 == INIT.(procs := map[1 := Sending(e, 0)])
    requires s3 == INIT.(procs := map[1 := Opening(e)], posts := [Post(1, Own, Whole(e), Status(404))])
    ensures Leads(s1, [Do(1, ListPlain([])), Do(1, Begin(e))], s2)
    ensures Leads(s2, [Do(1, Try(REFUSED)), Do(1, ListForCap([]))], s3)
  {
    assert Step(Step(s1, Do(1, ListPlain([]))), Do(1, Begin(e))) == s2;
    TwoSteps(s1, Do(1, ListPlain([])), Do(1, Begin(e)));
    assert Step(Step(s2, Do(1, Try(REFUSED))), Do(1, ListForCap([]))) == s3;
    TwoSteps(s2, Do(1, Try(REFUSED)), Do(1, ListForCap([])));
  }

  /** A process finds the plain file, claims it and reads it. */
  lemma Seize(e: Event, b: Base, pid: nat, procs: map<nat, Pc>)
    requires pid in procs && procs[pid] == Listing
    ensures Leads(Buffered(e, b, Plain(b), procs), [Do(pid, ListPlain([b])), Do(pid, Claim(true)), Do(pid, Read(true))],
                  Buffered(e, b, Claimed(b, pid), procs[pid := Posting(Whole(e), 0, [b])]))
  {
    var s := Buffered(e, b, Plain(b), procs);
    var s1 := s.(procs := procs[pid := Draining([b])]);
    assert Step(s, Do(pid, ListPlain([b]))) == s1;
    var s2 := Buffered(e, b, Claimed(b, pid), procs[pid := Reading([b])]);
    assert Step(s1, Do(pid, Claim(true))) == s2;
    assert Step(s2, Do(pid, Read(true))) ==
           Buffered(e, b, Claimed(b, pid), procs[pid := Posting(Whole(e), 0, [b])]);
    ThreeSteps(s, Do(pid, ListPlain([b])), Do(pid, Claim(true)), Do(pid, Read(true)));
  }

  /** Process 3 takes the file of the live process 2 back to its plain name. */
  lemma Steal(e: Event, b: Base, procs: map<nat, Pc>)
    requires 3 !in procs
    ensures Leads(Buffered(e, b, Claimed(b, 2), procs),
                  [Spawn(3), Do(3, ListStale([Claimed(b, 2)])), Do(3, Reclaim(true))],
                  Buffered(e, b, Plain(b), procs[3 := Listing]))
  {
    var s := Buffered(e, b, Claimed(b, 2), procs);
    var s1 := s.(procs := procs[3 := Starting]);
    assert Step(s, Spawn(3)) == s1;
    var s2 := s.(procs := procs[3 := Reclaiming([Claimed(b, 2)])]);
    assert Step(s1, Do(3, ListStale([Claimed(b, 2)]))) == s2;
    assert Step(s2, Do(3, Reclaim(true))) == Buffered(e, b, Plain(b), procs[3 := Listing]);
    ThreeSteps(s, Spawn(3), Do(3, ListStale([Claimed(b, 2)])), Do(3, Reclaim(true)));
  }

  /** Process 2 claims and reads the buffered file. */
  lemma ClaimOnce(e: Event, b: Base) returns (acts: seq<Action>)
    ensures Leads(INIT, acts, Buffered(e, b, Claimed(b, 2), map[1 := Finished, 2 := Posting(Whole(e), 0, [b])]))
  {
    acts := BufferOne(e, b);
    var s0 := Buffered(e, b, Plain(b), map[1 := Finished]);
    var p1 := map[1 := Finished, 2 := Listing];
    var s1 := Buffered(e, b, Plain(b), p1);
    assert Step(Step(s0, Spawn(2)), Do(2, ListStale([]))) == s1;
    TwoSteps(s0, Spawn(2), Do(2, ListStale([])));
    LeadsOn(INIT, acts, s0, [Spawn(2), Do(2, ListStale([]))], s1);
    acts := acts + [Spawn(2), Do(2, ListStale([]))];
    Seize(e, b, 2, p1);
    var p2 := p1[2 := Posting(Whole(e), 0, [b])];
    assert p2 == map[1 := Finished, 2 := Posting(Whole(e), 0, [b])];
    var w := [Do(2, ListPlain([b])), Do(2, Claim(true)), Do(2, Read(true))];
    LeadsOn(INIT, acts, s1, w, Buffered(e, b, Claimed(b, 2), p2));
    acts := acts + w;
  }

  /** While process 2 is about to post it, process 3 takes, claims and reads the same file. */
  lemma ClaimTwice(e: Event, b: Base, p2: map<nat, Pc>) returns (acts: seq<Action>)
    requires p2 == map[1 := Finished, 2 := Posting(Whole(e), 0, [b])]
    ensures Leads(INIT, acts, Buffered(e, b, Claimed(b, 3), p2[3 := Posting(Whole(e), 0, [b])]))
  {
    acts := ClaimOnce(e, b);
    Steal(e, b, p2);
    var p3 := p2[3 := Listing];
    var w3 := [Spawn(3), Do(3, ListStale([Claimed(b, 2)])), Do(3, Reclaim(true))];
    LeadsOn(INIT, acts, Buffered(e, b, Claimed(b, 2), p2), w3, Buffered(e, b, Plain(b), p3));
    acts := acts + w3;
    Seize(e, b, 3, p3);
    assert p3[3 := Posting(Whole(e), 0, [b])] == p2[3 := Posting(Whole(e), 0, [b])];
    var w4 := [Do(3, ListPlain([b])), Do(3, Claim(true)), Do(3, Read(true))];
    LeadsOn(INIT, acts, Buffered(e, b, Plain(b), p3), w4,
            Buffered(e, b, Claimed(b, 3), p2[3 := Posting(Whole(e), 0, [b])]));
    acts := acts + w4;
  }

  /** A claim does not keep others out: there is a run in which two live processes post the same
      buffered event and the server accepts it twice. */
  lemma ClaimsDoNotExclude(e: Event, b: Base) returns (acts: seq<Action>)
    ensures IsRun(INIT, acts)
    ensures var posts := After(INIT, acts).posts;
            && |posts| == 3
            && posts[1] == Post(3, File(b), Whole(e), Status(200))
            && posts[2] == Post(2, File(b), Whole(e), Status(200))
  {
    var p2 := map[1 := Finished, 2 := Posting(Whole(e), 0, [b])];
    acts := ClaimTwice(e, b, p2);
    var s3 := Buffered(e, b, Claimed(b, 3), p2[3 := Posting(Whole(e), 0, [b])]);
    var s4 := Step(Step(s3, Do(3, Try(OK))), Do(2, Try(OK)));
    TwoSteps(s3, Do(3, Try(OK)), Do(2, Try(OK)));
    LeadsOn(INIT, acts, s3, [Do(3, Try(OK)), Do(2, Try(OK))], s4);
    acts := acts + [Do(3, Try(OK)), Do(2, Try(OK))];
    assert s4.posts == [Post(1, Own, Whole(e), Status(404)), Post(3, File(b), Whole(e), Status(200)),
                        Post(2, File(b), Whole(e), Status(200))];
  }
}
