/** What becomes of a session's row on the server while buffered events of the same session are
    about: exactly when it stays, and how an older event overwrites a newer one
    (cmd/sessionlens-hook/main.go, internal/db/db.go). */
module HookTable {
  import opened HookNames
  import opened HookProtocol
  import opened HookRuns
  import opened HookSafety

  /** An event that would replace this row by another. */
  predicate Replaces(e: Event, id: string, row: Row) {
    e.id == id && e.row != row
  }

  /** Such an event is in the process's hands: being posted, or on its way into the buffer. */
  predicate Carries(pc: Pc, id: string, row: Row) {
    match pc
    case Posting(body, _, _) => body.Whole? && Replaces(body.event, id, row)
    case Sending(e, _) => Replaces(e, id, row)
    case Capping(e) => Replaces(e, id, row)
    case Evicting(e, _) => Replaces(e, id, row)
    case Opening(e) => Replaces(e, id, row)
    case Filling(e, _) => Replaces(e, id, row)
    case Publishing(e, _) => Replaces(e, id, row)
    case _ => false
  }

  ghost predicate Buffers(s: State, b: Base, id: string, row: Row) {
    Stored(s.dir, b) && b in s.written && Replaces(s.written[b], id, row)
  }

  /** Such an event is in the buffer, or in the hands of a process. */
  ghost predicate Threatened(s: State, id: string, row: Row) {
    || (exists b :: Buffers(s, b, id, row))
    || exists p :: p in s.procs && Carries(s.procs[p], id, row)
  }

  ghost predicate HasRow(s: State, id: string, row: Row) {
    id in s.table && s.table[id] == row
  }

  /** No session reports another row for this id. */
  predicate Quiet(acts: seq<Action>, id: string, row: Row) {
    forall i :: 0 <= i < |acts| && acts[i].Do? && acts[i].act.Begin? ==> !Replaces(acts[i].act.event, id, row)
  }

  // --- It stays where nothing threatens it ---

  /** A rename within one base name brings no event into the buffer. */
  lemma MoveStores(dir: Directory, from: Name, to: Name, b: Base)
    requires !from.Temp? && !to.Temp? && from.base == to.base && Stored(Rename(dir, from, to), b)
    ensures Stored(dir, b)
  {
    StoredAfterMove(dir, from, to, b);
  }

  /** Files that were there before. */
  lemma SubsetStores(dir: Directory, dir': Directory, b: Base)
    requires (forall n :: n in dir' && !n.Temp? ==> n in dir) && Stored(dir', b)
    ensures Stored(dir, b)
  {
  }

  /** Only a temporary file is new. */
  lemma WriteStores(s: State, pid: nat, act: Act, b: Base)
    requires Enabled(s, Do(pid, act)) && !act.Reclaim? && !act.Claim? && !act.PutBack? && !act.Publish?
    requires Stored(StepAct(s, pid, s.procs[pid], act).dir, b)
    ensures Stored(s.dir, b)
  {
    SubsetStores(s.dir, StepAct(s, pid, s.procs[pid], act).dir, b);
  }

  lemma PublishStores(dir: Directory, b: Base, c: Base)
    requires Stored(Rename(dir, Temp(b), Plain(b)), c) && c != b
    ensures Stored(dir, c)
  {
    var n :| n in Rename(dir, Temp(b), Plain(b)) && !n.Temp? && n.base == c;
    assert n in dir;
  }

  /** A buffered event was there before, or has just been written. */
  lemma NewlyStored(s: State, pid: nat, act: Act, b: Base)
    requires Inv(s) && Enabled(s, Do(pid, act))
    requires Stored(StepAct(s, pid, s.procs[pid], act).dir, b)
    ensures Stored(s.dir, b) || (act == Publish(true) && s.procs[pid].base == b)
  {
    var pc := s.procs[pid];
    if act == Reclaim(true) {
      assert PcOk(s, pc) && pc.stale[0] in pc.stale;
      MoveStores(s.dir, pc.stale[0], Plain(pc.stale[0].base), b);
    } else if act == Claim(true) {
      if Plain(pc.todo[0]) in s.dir {
        MoveStores(s.dir, Plain(pc.todo[0]), Claimed(pc.todo[0], pid), b);
      }
    } else if act == PutBack(true) {
      MoveStores(s.dir, Claimed(pc.todo[0], pid), Plain(pc.todo[0]), b);
    } else if act == Publish(true) {
      if b != pc.base && Temp(pc.base) in s.dir {
        PublishStores(s.dir, pc.base, b);
      }
    } else if !act.Reclaim? && !act.Claim? && !act.PutBack? && !act.Publish? {
      WriteStores(s, pid, act, b);
    }
  }

  lemma NothingNewBuffered(s: State, pid: nat, act: Act, id: string, row: Row, b: Base)
    requires Inv(s) && Enabled(s, Do(pid, act)) && !Threatened(s, id, row)
    ensures !Buffers(StepAct(s, pid, s.procs[pid], act), b, id, row)
  {
    var s' := StepAct(s, pid, s.procs[pid], act);
    assert !Buffers(s, b, id, row) && !Carries(s.procs[pid], id, row);
    if Stored(s'.dir, b) {
      NewlyStored(s, pid, act, b);
    }
    assert b in s.written && s'.written[b] != s.written[b] ==> act.Publish?;
  }

  lemma NothingNewCarried(s: State, pid: nat, act: Act, id: string, row: Row)
    requires Inv(s) && Enabled(s, Do(pid, act)) && !Threatened(s, id, row)
    requires act.Begin? ==> !Replaces(act.event, id, row)
    ensures !Carries(StepAct(s, pid, s.procs[pid], act).procs[pid], id, row)
  {
    assert !Carries(s.procs[pid], id, row);
    if act.Read? {
      ReadCarries(s, pid, act.ok, id, row);
    } else {
      OthersPassOn(s, pid, act, id, row);
    }
  }

  /** What a process carries after a step it carried before, unless it has just read or begun. */
  lemma OthersPassOn(s: State, pid: nat, act: Act, id: string, row: Row)
    requires pid in s.procs && Waiting(s.procs[pid], act) && !act.Read? && !Carries(s.procs[pid], id, row)
    requires act.Begin? ==> !Replaces(act.event, id, row)
    ensures !Carries(StepAct(s, pid, s.procs[pid], act).procs[pid], id, row)
  {
    if act.Try? || act.Begin? {
      OffersOn(s, pid, act, id, row);
    } else if act.ListForCap? || act.Evict? || act.Open? || act.Fill? || act.Publish? {
      BuffersOn(s, pid, act, id, row);
    } else {
      EmptyHanded(s, pid, act, id, row);
    }
  }

  lemma EmptyHanded(s: State, pid: nat, act: Act, id: string, row: Row)
    requires pid in s.procs && Waiting(s.procs[pid], act)
    requires act.ListStale? || act.Reclaim? || act.ListPlain? || act.Claim? || act.PutBack? || act.Remove? || act.Quit?
    ensures !Carries(StepAct(s, pid, s.procs[pid], act).procs[pid], id, row)
  {
  }

  lemma BuffersOn(s: State, pid: nat, act: Act, id: string, row: Row)
    requires pid in s.procs && Waiting(s.procs[pid], act) && !Carries(s.procs[pid], id, row)
    requires act.ListForCap? || act.Evict? || act.Open? || act.Fill? || act.Publish?
    ensures !Carries(StepAct(s, pid, s.procs[pid], act).procs[pid], id, row)
  {
  }

  lemma OffersOn(s: State, pid: nat, act: Act, id: string, row: Row)
    requires pid in s.procs && Waiting(s.procs[pid], act) && !Carries(s.procs[pid], id, row)
    requires act.Try? || act.Begin?
    requires act.Begin? ==> !Replaces(act.event, id, row)
    ensures !Carries(StepAct(s, pid, s.procs[pid], act).procs[pid], id, row)
  {
  }

  lemma ReadCarries(s: State, pid: nat, ok: bool, id: string, row: Row)
    requires Inv(s) && Enabled(s, Do(pid, Read(ok))) && forall b :: !Buffers(s, b, id, row)
    ensures !Carries(DoRead(s, pid, s.procs[pid].todo, ok).procs[pid], id, row)
  {
    var n := Claimed(s.procs[pid].todo[0], pid);
    assert n in s.dir ==> Stored(s.dir, n.base) && !Buffers(s, n.base, id, row);
  }

  lemma RowSurvives(s: State, pid: nat, act: Act, id: string, row: Row)
    requires Inv(s) && Enabled(s, Do(pid, act)) && !Threatened(s, id, row) && HasRow(s, id, row)
    ensures HasRow(StepAct(s, pid, s.procs[pid], act), id, row)
  {
    assert !Carries(s.procs[pid], id, row);
  }

  lemma ActKeepsRow(s: State, pid: nat, act: Act, id: string, row: Row)
    requires Inv(s) && Enabled(s, Do(pid, act)) && !Threatened(s, id, row) && HasRow(s, id, row)
    requires act.Begin? ==> !Replaces(act.event, id, row)
    ensures var s' := StepAct(s, pid, s.procs[pid], act); !Threatened(s', id, row) && HasRow(s', id, row)
  {
    var s' := StepAct(s, pid, s.procs[pid], act);
    RowSurvives(s, pid, act, id, row);
    forall b
      ensures !Buffers(s', b, id, row)
    {
      NothingNewBuffered(s, pid, act, id, row, b);
    }
    NothingNewCarried(s, pid, act, id, row);
    forall p | p in s'.procs
      ensures !Carries(s'.procs[p], id, row)
    {
      assert p != pid ==> s'.procs[p] == s.procs[p];
    }
  }

  lemma StepKeepsRow(s: State, a: Action, id: string, row: Row)
    requires Inv(s) && Enabled(s, a) && !Threatened(s, id, row) && HasRow(s, id, row) && Quiet([a], id, row)
    ensures !Threatened(Step(s, a), id, row) && HasRow(Step(s, a), id, row)
  {
    if a.Do? {
      assert [a][0] == a;
      ActKeepsRow(s, a.pid, a.act, id, row);
    } else {
      assert forall b :: Buffers(Step(s, a), b, id, row) ==> Buffers(s, b, id, row);
    }
  }

  lemma {:induction false} RowStays(s: State, acts: seq<Action>, id: string, row: Row)
    requires Inv(s) && IsRun(s, acts) && !Threatened(s, id, row) && HasRow(s, id, row) && Quiet(acts, id, row)
    ensures HasRow(After(s, acts), id, row)
    decreases |acts|
  {
    if acts != [] {
      StepKeepsInv(s, acts[0]);
      StepKeepsRow(s, acts[0], id, row);
      RowStays(Step(s, acts[0]), acts[1..], id, row);
    }
  }

  // --- It can go where something does ---

  /** The process posts the event it holds and the server stores it. */
  lemma PostNow(s: State, pid: nat, e: Event)
    requires pid in s.procs
    requires (s.procs[pid].Sending? && s.procs[pid].event == e)
             || (s.procs[pid].Posting? && s.procs[pid].body == Whole(e) && s.procs[pid].todo != [])
    ensures Leads(s, [Do(pid, Try(OK))], Step(s, Do(pid, Try(OK)))) && HasRow(Step(s, Do(pid, Try(OK))), e.id, e.row)
  {
    OneStep(s, Do(pid, Try(OK)));
  }

  /** A buffered event, wherever crashes have left its file, can be drained, and then its row is
      the session's, whatever was there before. */
  lemma StoredOverwrites(s: State, b: Base) returns (acts: seq<Action>)
    requires Inv(s) && Stored(s.dir, b)
    ensures b in s.written && IsRun(s, acts) && HasRow(After(s, acts), s.written[b].id, s.written[b].row)
    ensures BeginsNothing(acts)
  {
    var pid := FreshPid(s.procs);
    var t, todo;
    acts, t, todo := FetchFile(s, pid, b);
    PostNow(t, pid, s.written[b]);
    LeadsOn(s, acts, t, [Do(pid, Try(OK))], Step(t, Do(pid, Try(OK))));
    acts := acts + [Do(pid, Try(OK))];
  }

  predicate BeginsNothing(acts: seq<Action>) {
    forall i :: 0 <= i < |acts| ==> !(acts[i].Do? && acts[i].act.Begin?)
  }

  /** A new process comes to hold the body of a buffered event. */
  lemma FetchFile(s: State, pid: nat, b: Base) returns (acts: seq<Action>, t: State, todo: seq<Base>)
    requires Inv(s) && pid !in s.procs && Stored(s.dir, b)
    ensures Leads(s, acts, t) && BeginsNothing(acts)
    ensures b in s.written && todo != [] && pid in t.procs && t.procs[pid] == Posting(Whole(s.written[b]), 0, todo)
  {
    var s1;
    acts, s1, todo := ApproachFile(s, pid, b);
    t := SeizeAndRead(s1, pid, todo);
    LeadsOn(s, acts, s1, [Do(pid, Claim(true)), Do(pid, Read(true))], t);
    acts := acts + [Do(pid, Claim(true)), Do(pid, Read(true))];
  }

  lemma ApproachFile(s: State, pid: nat, b: Base) returns (acts: seq<Action>, t: State, todo: seq<Base>)
    requires Inv(s) && pid !in s.procs && Stored(s.dir, b)
    ensures Leads(s, acts, t) && BeginsNothing(acts) && Inv(t) && t.written == s.written
    ensures todo != [] && todo[0] == b && pid in t.procs && t.procs[pid] == Draining(todo) && Plain(b) in t.dir
  {
    var s1 := At(s, pid, Starting);
    OneStep(s, Spawn(pid));
    var more;
    more, t, todo := ReachFile(s1, pid, b);
    LeadsOn(s, [Spawn(pid)], s1, more, t);
    acts := [Spawn(pid)] + more;
    RunKeepsInv(s, acts);
  }

  lemma SeizeAndRead(s: State, pid: nat, todo: seq<Base>) returns (t: State)
    requires Inv(s) && pid in s.procs && todo != [] && s.procs[pid] == Draining(todo) && Plain(todo[0]) in s.dir
    ensures Leads(s, [Do(pid, Claim(true)), Do(pid, Read(true))], t)
    ensures todo[0] in s.written && pid in t.procs && t.procs[pid] == Posting(Whole(s.written[todo[0]]), 0, todo)
  {
    t := Step(Step(s, Do(pid, Claim(true))), Do(pid, Read(true)));
    TwoSteps(s, Do(pid, Claim(true)), Do(pid, Read(true)));
  }

  /** How far an event in a process's hands is from the server. */
  function Distance(pc: Pc): nat {
    match pc
    case Capping(_) => 5
    case Evicting(_, _) => 4
    case Opening(_) => 3
    case Filling(_, _) => 2
    case Publishing(_, _) => 1
    case _ => 0
  }

  function Left(pc: Pc): nat {
    if pc.Evicting? then |pc.victims| else 0
  }

  /** The step that takes an event on into the buffer. */
  lemma Advance(s: State, pid: nat, id: string, row: Row) returns (act: Act)
    requires Inv(s) && pid in s.procs && Carries(s.procs[pid], id, row) && Distance(s.procs[pid]) > 1
    ensures Enabled(s, Do(pid, act)) && !act.Begin?
    ensures pid in Step(s, Do(pid, act)).procs && Inv(Step(s, Do(pid, act)))
    ensures var pc, pc' := s.procs[pid], Step(s, Do(pid, act)).procs[pid];
            && Carries(pc', id, row) && Distance(pc') > 0
            && (Distance(pc') < Distance(pc) || (Distance(pc') == Distance(pc) && Left(pc') < Left(pc)))
  {
    act := NextAct(s, pid);
    StepKeepsInv(s, Do(pid, act));
    NextIsNearer(s, pid, act, id, row);
  }

  predicate GoesOn(pc: Pc, act: Act) {
    match pc
    case Capping(_) => act.ListForCap?
    case Evicting(_, victims) => victims != [] && act == Evict(true)
    case Opening(_) => act.Open? && act.ok
    case Filling(_, _) => act == Fill(true)
    case _ => false
  }

  lemma NextAct(s: State, pid: nat) returns (act: Act)
    requires Inv(s) && pid in s.procs && Distance(s.procs[pid]) > 1
    ensures Enabled(s, Do(pid, act)) && GoesOn(s.procs[pid], act)
  {
    assert PcOk(s, s.procs[pid]);
    match s.procs[pid]
    case Capping(_) =>
      var files := PlainListing(s.dir);
      act := ListForCap(files);
    case Evicting(_, victims) =>
      act := Evict(true);
    case Opening(_) =>
      var b := FreshBase(s.used);
      act := Open(b, true);
    case Filling(_, _) =>
      act := Fill(true);
  }

  lemma NextIsNearer(s: State, pid: nat, act: Act, id: string, row: Row)
    requires Enabled(s, Do(pid, act)) && GoesOn(s.procs[pid], act) && Carries(s.procs[pid], id, row)
    ensures var pc, pc' := s.procs[pid], StepAct(s, pid, s.procs[pid], act).procs[pid];
            && Carries(pc', id, row) && Distance(pc') > 0
            && (Distance(pc') < Distance(pc) || (Distance(pc') == Distance(pc) && Left(pc') < Left(pc)))
  {
  }

  ghost predicate Replaced(s: State, id: string, row: Row) {
    id in s.table && s.table[id] != row
  }

  lemma PublishedOverwrites(s: State, pid: nat, id: string, row: Row) returns (acts: seq<Action>)
    requires Inv(s) && pid in s.procs && s.procs[pid].Publishing? && Replaces(s.procs[pid].event, id, row)
    ensures IsRun(s, acts) && Quiet(acts, id, row) && Replaced(After(s, acts), id, row)
  {
    var a := Do(pid, Publish(true));
    var b := s.procs[pid].base;
    var s1 := Step(s, a);
    assert PcOk(s, s.procs[pid]);
    StepKeepsInv(s, a);
    OneStep(s, a);
    assert Plain(b) in s1.dir && s1.written[b] == s.procs[pid].event;
    var rest := StoredOverwrites(s1, b);
    RunConcat(s, [a], rest);
    acts := [a] + rest;
  }

  lemma PostedOverwrites(s: State, pid: nat, id: string, row: Row) returns (acts: seq<Action>)
    requires Inv(s) && pid in s.procs && Carries(s.procs[pid], id, row) && Distance(s.procs[pid]) == 0
    ensures IsRun(s, acts) && Quiet(acts, id, row) && Replaced(After(s, acts), id, row)
  {
    var pc := s.procs[pid];
    assert PcOk(s, pc);
    PostNow(s, pid, if pc.Sending? then pc.event else pc.body.event);
    acts := [Do(pid, Try(OK))];
  }

  /** One step more at the front. */
  lemma StepFirst(s: State, pid: nat, act: Act, rest: seq<Action>, id: string, row: Row)
    requires Enabled(s, Do(pid, act)) && !act.Begin?
    requires var s1 := Step(s, Do(pid, act)); IsRun(s1, rest) && Replaced(After(s1, rest), id, row)
    requires Quiet(rest, id, row)
    ensures var acts := [Do(pid, act)] + rest;
            IsRun(s, acts) && Quiet(acts, id, row) && Replaced(After(s, acts), id, row)
  {
    OneStep(s, Do(pid, act));
    RunConcat(s, [Do(pid, act)], rest);
  }

  /** An event in a process's hands can reach the server. */
  lemma {:induction false} CarriedOverwrites(s: State, pid: nat, id: string, row: Row) returns (acts: seq<Action>)
    requires Inv(s) && pid in s.procs && Carries(s.procs[pid], id, row)
    ensures IsRun(s, acts) && Quiet(acts, id, row) && Replaced(After(s, acts), id, row)
    decreases Distance(s.procs[pid]), Left(s.procs[pid])
  {
    if Distance(s.procs[pid]) == 0 {
      acts := PostedOverwrites(s, pid, id, row);
    } else if Distance(s.procs[pid]) == 1 {
      acts := PublishedOverwrites(s, pid, id, row);
    } else {
      var act := Advance(s, pid, id, row);
      var rest := CarriedOverwrites(Step(s, Do(pid, act)), pid, id, row);
      StepFirst(s, pid, act, rest, id, row);
      acts := [Do(pid, act)] + rest;
    }
  }

  lemma ThreatsComeTrue(s: State, id: string, row: Row) returns (acts: seq<Action>)
    requires Inv(s) && Threatened(s, id, row)
    ensures IsRun(s, acts) && Quiet(acts, id, row) && Replaced(After(s, acts), id, row)
  {
    if b :| Buffers(s, b, id, row) {
      acts := StoredOverwrites(s, b);
    } else {
      var p :| p in s.procs && Carries(s.procs[p], id, row);
      acts := CarriedOverwrites(s, p, id, row);
    }
  }

  /** The row stays in every continuation in which no session reports another one. */
  ghost predicate Settled(s: State, id: string, row: Row) {
    forall acts :: IsRun(s, acts) && Quiet(acts, id, row) ==> HasRow(After(s, acts), id, row)
  }

  /** The exact condition: the row of a session is settled if and only if no event that would replace
      it is in the buffer or in the hands of a process. */
  lemma RowSettledExactly(s: State, id: string, row: Row)
    requires Inv(s) && HasRow(s, id, row)
    ensures Settled(s, id, row) <==> !Threatened(s, id, row)
  {
    if Threatened(s, id, row) {
      var acts := ThreatsComeTrue(s, id, row);
      assert !HasRow(After(s, acts), id, row);
    } else {
      forall acts | IsRun(s, acts) && Quiet(acts, id, row)
        ensures HasRow(After(s, acts), id, row)
      {
        RowStays(s, acts, id, row);
      }
    }
  }

  // --- A newer row lost to an older event ---

  /** A process done draining begins its event, and the server stores it. */
  lemma BeginAndDeliver(s: State, pid: nat, event: Event) returns (acts: seq<Action>, t: State)
    requires pid in s.procs && s.procs[pid] == Drained
    ensures Leads(s, acts, t) && HasRow(t, event.id, event.row)
    ensures t.dir == s.dir && t.written == s.written
  {
    var begin, try := Do(pid, Begin(event)), Do(pid, Try(OK));
    acts, t := [begin, try], Step(Step(s, begin), try);
    TwoSteps(s, begin, try);
  }

  /** A process is refused when it drains the older event, then delivers the newer one. */
  lemma NewerGetsThrough(older: Event, newer: Event, b: Base) returns (acts: seq<Action>, t: State)
    ensures Leads(INIT, acts, t) && HasRow(t, newer.id, newer.row)
    ensures Stored(t.dir, b) && b in t.written && t.written[b] == older
  {
    acts := BufferOne(older, b);
    var s0 := Buffered(older, b, Plain(b), map[1 := Finished]);
    var s1 := At(s0, 2, Starting);
    OneStep(s0, Spawn(2));
    LeadsOn(INIT, acts, s0, [Spawn(2)], s1);
    acts := acts + [Spawn(2)];
    assert Plain(b) in s0.dir && Stored(s0.dir, b);
    var more, s2, files := StartDrain(s1, 2);
    LeadsOn(INIT, acts, s1, more, s2);
    acts := acts + more;
    var s3;
    more, s3 := RefuseFirst(s2, 2, files, |files|);
    LeadsOn(INIT, acts, s2, more, s3);
    acts := acts + more;
    more, t := BeginAndDeliver(s3, 2, newer);
    LeadsOn(INIT, acts, s3, more, t);
    acts := acts + more;
  }

  /** The server's row can regress: the older event of a session is buffered, its drain is refused,
      the newer event is accepted, and a later drain puts the older row back. */
  lemma RowRegresses(older: Event, newer: Event, b: Base) returns (acts: seq<Action>, more: seq<Action>)
    requires older.id == newer.id
    ensures IsRun(INIT, acts) && HasRow(After(INIT, acts), newer.id, newer.row)
    ensures IsRun(INIT, acts + more) && HasRow(After(INIT, acts + more), older.id, older.row)
    ensures BeginsNothing(more)
  {
    var t;
    acts, t := NewerGetsThrough(older, newer, b);
    RunKeepsInv(INIT, acts);
    more := StoredOverwrites(t, b);
    RunConcat(INIT, acts, more);
  }
}
