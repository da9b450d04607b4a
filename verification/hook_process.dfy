/** The hook's own code, statement by statement, as one process runs it without being interleaved
    (cmd/sessionlens-hook/main.go). Its methods are proved to be runs of `HookProtocol`, so that what
    is proved of the protocol is proved of them. */
module HookProcess {
  import opened HookNames
  import opened HookProtocol
  import opened HookRuns
  import opened HookRecovery
  import opened HookSafety

  // --- Listing a directory ---

  method GlobPlain(dir: Directory) returns (files: seq<Base>)
    ensures IsPlainListing(dir, files)
  {
    files := [];
    var left := set n | n in dir && n.Plain?;
    while left != {}
      invariant left <= set n | n in dir && n.Plain?
      invariant Sorted(files)
      invariant forall b :: b in files <==> Plain(b) in dir && Plain(b) !in left
      decreases left
    {
      var n :| n in left;
      files := Insert(files, n.base);
      left := left - {n};
    }
  }

  method GlobStale(dir: Directory) returns (stale: seq<Name>)
    ensures IsStaleListing(dir, stale)
  {
    stale := [];
    var left := set n | n in dir && n.Claimed?;
    while left != {}
      invariant left <= set n | n in dir && n.Claimed?
      invariant forall n :: n in stale <==> n in dir && n.Claimed? && n !in left
      decreases left
    {
      var n :| n in left;
      stale := stale + [n];
      left := left - {n};
    }
  }

  lemma RunSnoc(s: State, acts: seq<Action>, a: Action)
    requires IsRun(s, acts) && Enabled(After(s, acts), a)
    ensures IsRun(s, acts + [a]) && After(s, acts + [a]) == Step(After(s, acts), a)
  {
    OneStep(After(s, acts), a);
    LeadsOn(s, acts, After(s, acts), [a], Step(After(s, acts), a));
  }

  lemma {:induction false} DrainRunSnoc(s: State, acts: seq<Action>, a: Action)
    requires IsDrainRun(s, acts) && IsRun(s, acts) && Solo(After(s, acts), a)
    requires a.Do? ==> PartOfDrain(a.act) && (a.act.Try? ==> Taken(a.act.answer.reply))
    ensures IsDrainRun(s, acts + [a])
    decreases |acts|
  {
    if acts == [] {
      assert [] + [a] == [a] && [a][1..] == [];
      assert IsDrainRun(Step(s, a), []);
    } else {
      DrainRunSnoc(Step(s, acts[0]), acts[1..], a);
      assert (acts + [a])[1..] == acts[1..] + [a];
    }
  }

  /** Why an event is being posted, and where the process stands while trying and afterwards. */
  datatype Purpose = ForFile(todo: seq<Base>) | ForOwn(event: Event) {
    predicate Ready(body: Content) {
      if ForFile? then todo != [] else body == Whole(event)
    }

    function Origin(): Source
      requires ForFile? ==> todo != []
    {
      if ForFile? then File(todo[0]) else Own
    }
  }

  function Trying(purpose: Purpose, body: Content, tries: nat): Pc {
    match purpose
    case ForFile(todo) => Posting(body, tries, todo)
    case ForOwn(e) => Sending(e, tries)
  }

  function Tried(purpose: Purpose, ok: bool): Pc {
    match purpose
    case ForFile(todo) => if ok then Removing(todo) else PuttingBack(todo)
    case ForOwn(e) => if ok then Finished else Capping(e)
  }

  /** What standard input and the transcript it names amount to. */
  datatype Input = Unreadable | Report(event: Event)

  /** The directory after the plain files of these events are gone. */
  function Without(dir: Directory, victims: seq<Base>): Directory {
    if victims == [] then dir else Without(dir, victims[..|victims| - 1]) - {Plain(victims[|victims| - 1])}
  }

  lemma {:induction false} WithoutExactly(dir: Directory, victims: seq<Base>, n: Name)
    ensures n in Without(dir, victims) <==> n in dir && !(n.Plain? && n.base in victims)
    ensures n in Without(dir, victims) ==> Without(dir, victims)[n] == dir[n]
    decreases |victims|
  {
    if victims != [] {
      var last := victims[|victims| - 1];
      assert victims == victims[..|victims| - 1] + [last];
      WithoutExactly(dir, victims[..|victims| - 1], n);
    }
  }

  lemma WithoutNext(dir: Directory, victims: seq<Base>, k: nat)
    requires k < |victims|
    ensures Without(dir, victims[..k + 1]) == Without(dir, victims[..k]) - {Plain(victims[k])}
  {
    assert victims[..k + 1][..k] == victims[..k];
  }

  /** Of the files listed, exactly the newest 99 are left. */
  ghost predicate NewestLeft(dir: Directory, listing: seq<Base>) {
    forall k :: 0 <= k < |listing| ==> (Plain(listing[k]) in dir <==> k >= |listing| - 99)
  }

  /** Nothing is gone but plain files of these events, and nothing has changed. */
  ghost predicate OnlyGone(was: Directory, dir: Directory, victims: seq<Base>) {
    && (forall n :: n in dir ==> n in was && dir[n] == was[n])
    && forall n :: n in was && n !in dir ==> n.Plain? && n.base in victims
  }

  /** The first `k` removals are made; on a working disk they took their files away. */
  ghost predicate Cleared(was: Directory, dir: Directory, victims: seq<Base>, k: nat, working: bool)
    requires k <= |victims|
  {
    OnlyGone(was, dir, victims) && (working ==> dir == Without(was, victims[..k]))
  }

  lemma ClearedNext(was: Directory, dir: Directory, dir': Directory, victims: seq<Base>, k: nat, working: bool)
    requires k < |victims| && Cleared(was, dir, victims, k, working)
    requires dir' == dir - {Plain(victims[k])} || (!working && dir' == dir)
    ensures Cleared(was, dir', victims, k + 1, working)
  {
    WithoutNext(was, victims, k);
  }

  lemma OldestGone(was: Directory, dir: Directory, listing: seq<Base>)
    requires OnlyGone(was, dir, Victims(listing))
    ensures forall n :: n in was && n !in dir ==> exists k :: 0 <= k < |listing| - 99 && n == Plain(listing[k])
  {
    forall n | n in was && n !in dir
      ensures exists k :: 0 <= k < |listing| - 99 && n == Plain(listing[k])
    {
      VictimsAreOldest(listing, n.base);
    }
  }

  lemma VictimsAreOldest(listing: seq<Base>, v: Base)
    requires v in Victims(listing)
    ensures exists k :: 0 <= k < |listing| - 99 && Plain(v) == Plain(listing[k])
  {
    var victims := Victims(listing);
    var k :| 0 <= k < |victims| && victims[k] == v;
    assert listing[k] == v;
  }

  lemma RoomMade(was: Directory, listing: seq<Base>)
    requires IsPlainListing(was, listing)
    ensures NewestLeft(Without(was, Victims(listing)), listing)
  {
    var victims := Victims(listing);
    forall k | 0 <= k < |listing|
      ensures Plain(listing[k]) in Without(was, victims) <==> k >= |listing| - 99
    {
      WithoutExactly(was, victims, Plain(listing[k]));
      if k < |listing| - 99 {
        assert victims[k] == listing[k];
      } else {
        assert forall i :: 0 <= i < |victims| ==> victims[i] == listing[i] && Before(listing[i], listing[k]);
      }
    }
  }

  lemma RoomTaken(dir: Directory, listing: seq<Base>, b: Base, content: Content)
    requires NewestLeft(dir, listing) && b !in listing
    ensures NewestLeft((dir - {Temp(b)})[Plain(b) := content], listing)
  {
  }

  ghost predicate DeliveredBy(posts: seq<Post>, pid: nat, event: Event) {
    exists i :: 0 <= i < |posts| && posts[i].pid == pid && posts[i].source == Own
                && posts[i].body == Whole(event) && posts[i].reply.Status? && posts[i].reply.code < 400
  }

  lemma LastDelivers(posts: seq<Post>, pid: nat, event: Event, reply: Reply)
    requires |posts| > 0 && posts[|posts| - 1] == Post(pid, Own, Whole(event), reply) && Accepted(reply)
    ensures DeliveredBy(posts, pid, event)
  {
  }

  function AnswerIn(mishaps: map<nat, Answer>, i: nat): Answer {
    if i in mishaps then mishaps[i] else OK
  }

  /** A call of `postWithRetry` while it runs: what it posts, and what it started from. */
  datatype Call = Call(pid: nat, mishaps: map<nat, Answer>, source: Source, body: Content, first: nat,
                       posts: seq<Post>, table: Table)

  /** The attempts up to number `to` are on record. */
  ghost predicate Recorded(c: Call, to: nat, posts: seq<Post>) {
    && c.first <= to && c.posts <= posts && |posts| == |c.posts| + (to - c.first)
    && forall i :: |c.posts| <= i < |posts| ==>
         posts[i] == Post(c.pid, c.source, c.body, AnswerIn(c.mishaps, c.first + (i - |c.posts|)).reply)
  }

  /** All attempts so far may be retried. */
  ghost predicate AllRetried(c: Call, to: nat, posts: seq<Post>, table: Table) {
    && Recorded(c, to, posts)
    && (forall j :: c.first <= j < to ==> Retryable(AnswerIn(c.mishaps, j).reply))
    && (c.first == to ==> table == c.table)
  }

  /** A whole call: as many attempts as it takes. */
  ghost predicate Attempted(c: Call, to: nat, posts: seq<Post>, table: Table, ok: bool) {
    && Recorded(c, to, posts) && c.first < to <= c.first + ATTEMPTS
    && (ok <==> Accepted(AnswerIn(c.mishaps, to - 1).reply))
    && (forall j :: c.first <= j < to - 1 ==> Retryable(AnswerIn(c.mishaps, j).reply))
    && (to < c.first + ATTEMPTS ==> !Retryable(AnswerIn(c.mishaps, to - 1).reply))
    && (to == c.first + 1 ==> table == Apply(c.table, c.body, AnswerIn(c.mishaps, c.first)))
  }

  /** Where a call stands after `i` attempts that may be retried. */
  ghost predicate Underway(c: Call, purpose: Purpose, i: nat, to: nat, pc: Pc, posts: seq<Post>, table: Table) {
    && pc == (if i < ATTEMPTS then Trying(purpose, c.body, i) else Tried(purpose, false))
    && to == c.first + i
    && if i < ATTEMPTS then AllRetried(c, to, posts, table) else Attempted(c, to, posts, table, false)
  }

  lemma OneMoreAttempt(c: Call, to: nat, posts: seq<Post>, posts': seq<Post>, table: Table, table': Table)
    requires to < c.first + ATTEMPTS && AllRetried(c, to, posts, table)
    requires table' == Apply(table, c.body, AnswerIn(c.mishaps, to))
    requires posts' == posts + [Post(c.pid, c.source, c.body, AnswerIn(c.mishaps, to).reply)]
    ensures var reply := AnswerIn(c.mishaps, to).reply;
            && (Retryable(reply) ==> AllRetried(c, to + 1, posts', table'))
            && (!Retryable(reply) || to + 1 == c.first + ATTEMPTS ==>
                  Attempted(c, to + 1, posts', table', Accepted(reply)))
  {
  }

  predicate Below400(r: Reply) {
    r.Status? && r.code < 400
  }

  /** The attempts from one point on. */
  ghost predicate TriedFor(posts: seq<Post>, since: nat, b: Base) {
    exists i :: since <= i < |posts| && posts[i].source == File(b)
  }

  ghost predicate TakenFrom(posts: seq<Post>, since: nat, b: Base) {
    exists i :: since <= i < |posts| && posts[i].source == File(b)
                && posts[i].reply.Status? && posts[i].reply.code < 400
  }

  /** Since then the file has been tried, and is gone exactly if an attempt was answered below
      400. */
  ghost predicate Settled(posts: seq<Post>, since: nat, dir: Directory, b: Base) {
    TriedFor(posts, since, b) && (Plain(b) in dir <==> !TakenFrom(posts, since, b))
  }

  /** Attempts for another file do not matter. */
  lemma OthersTried(posts: seq<Post>, more: seq<Post>, since: nat, b: Base, other: Base)
    requires b != other && since <= |posts|
    requires forall i :: 0 <= i < |more| ==> more[i].source == File(other)
    ensures TriedFor(posts + more, since, b) <==> TriedFor(posts, since, b)
    ensures TakenFrom(posts + more, since, b) <==> TakenFrom(posts, since, b)
  {
    var all := posts + more;
    if i :| since <= i < |posts| && posts[i].source == File(b) {
      assert all[i].source == File(b);
    }
    if i :| since <= i < |posts| && posts[i].source == File(b) && Below400(posts[i].reply) {
      assert all[i].source == File(b) && Below400(all[i].reply);
    }
  }

  /** What a call for one file adds: attempts for it, all but the last refused. */
  ghost predicate OneFileTried(was: seq<Post>, posts: seq<Post>, b: Base, ok: bool) {
    && was < posts
    && (forall i :: |was| <= i < |posts| ==> posts[i].source == File(b))
    && (forall i :: |was| <= i < |posts| - 1 ==> !Below400(posts[i].reply))
    && (ok <==> Below400(posts[|posts| - 1].reply))
  }

  lemma RecordedTries(c: Call, to: nat, posts: seq<Post>, b: Base, ok: bool)
    requires Recorded(c, to, posts) && c.source == File(b) && c.first < to
    requires forall i :: c.first <= i < to - 1 ==>
               AnswerIn(c.mishaps, i).reply.Lost? || AnswerIn(c.mishaps, i).reply.code >= 500
    requires ok <==> Below400(AnswerIn(c.mishaps, to - 1).reply)
    ensures OneFileTried(c.posts, posts, b, ok)
  {
    assert posts[|posts| - 1].reply == AnswerIn(c.mishaps, to - 1).reply;
  }

  lemma OwnTried(was: seq<Post>, posts: seq<Post>, since: nat, b: Base, ok: bool)
    requires since <= |was| && !TriedFor(was, since, b) && OneFileTried(was, posts, b, ok)
    ensures TriedFor(posts, since, b) && (TakenFrom(posts, since, b) <==> ok)
  {
    var last := |posts| - 1;
    assert posts[last].source == File(b);
    assert forall i :: since <= i < |was| ==> posts[i] == was[i];
  }

  /** The first `k` files listed are settled, the others are there and untried. */
  ghost predicate SettledSoFar(listing: seq<Base>, k: nat, posts: seq<Post>, since: nat, dir: Directory)
    requires k <= |listing|
  {
    && since <= |posts| && NoClaims(dir)
    && (forall n :: n in dir && n.Plain? ==> n.base in listing)
    && (forall j :: 0 <= j < k ==> Settled(posts, since, dir, listing[j]))
    && forall j :: k <= j < |listing| ==> !TriedFor(posts, since, listing[j]) && Plain(listing[j]) in dir
  }

  lemma OneMoreSettled(listing: seq<Base>, k: nat, was: seq<Post>, posts: seq<Post>, since: nat, dir: Directory,
                       dir': Directory, ok: bool)
    requires Sorted(listing) && k < |listing| && SettledSoFar(listing, k, was, since, dir)
    requires OneFileTried(was, posts, listing[k], ok)
    requires dir' == if ok then dir - {Plain(listing[k])} else dir
    ensures SettledSoFar(listing, k + 1, posts, since, dir')
  {
    OwnTried(was, posts, since, listing[k], ok);
    assert posts == was + posts[|was|..];
    forall j | 0 <= j < |listing| && j != k
      ensures listing[j] != listing[k]
      ensures TriedFor(posts, since, listing[j]) <==> TriedFor(was, since, listing[j])
      ensures TakenFrom(posts, since, listing[j]) <==> TakenFrom(was, since, listing[j])
    {
      assert listing[j] != listing[k];
      OthersTried(was, posts[|was|..], since, listing[j], listing[k]);
    }
  }

  lemma NothingTriedYet(listing: seq<Base>, posts: seq<Post>, dir: Directory)
    requires IsPlainListing(dir, listing) && NoClaims(dir)
    ensures SettledSoFar(listing, 0, posts, |posts|, dir)
  {
    assert forall j :: 0 <= j < |listing| ==> listing[j] in listing;
  }

  /** At the end every event that was stored has been tried, and is stored still exactly if it was
      refused every time. */
  lemma AllSettled(listing: seq<Base>, posts: seq<Post>, since: nat, dir: Directory, b: Base)
    requires SettledSoFar(listing, |listing|, posts, since, dir)
    ensures b in listing ==> TriedFor(posts, since, b) && (Stored(dir, b) <==> !TakenFrom(posts, since, b))
    ensures Stored(dir, b) ==> b in listing
  {
    StoredPlain(dir, b);
    if b in listing {
      var j :| 0 <= j < |listing| && listing[j] == b;
      assert Settled(posts, since, dir, listing[j]);
    }
  }

  class Hook {
    const pid: nat
    /** The answers to this process's i-th POSTs, where they are not a plain 200. */
    const mishaps: map<nat, Answer>
    /** Which of its file operations fail. */
    const faults: set<nat>

    /** The buffer directory and the server's table. */
    var files: Directory
    var table: Table
    var sent: nat
    var ops: nat

    /** Where the process was started, and the protocol steps it has made since. */
    ghost const start: State
    ghost var trace: seq<Action>
    ghost var now: State

    constructor (pid: nat, mishaps: map<nat, Answer>, faults: set<nat>, start: State)
      requires forall i :: i in mishaps ==> Possible(mishaps[i])
      requires pid !in start.procs
      ensures Valid() && trace == [Spawn(pid)] && now == At(start, pid, Starting)
      ensures this.pid == pid && this.mishaps == mishaps && this.faults == faults && this.start == start
    {
      this.pid, this.mishaps, this.faults := pid, mishaps, faults;
      this.files, this.table, this.sent, this.ops := start.dir, start.table, 0, 0;
      this.start, this.trace, this.now := start, [Spawn(pid)], Step(start, Spawn(pid));
      OneStep(start, Spawn(pid));
    }

    /** The process has only gone on from an earlier point, and drawn no file name since. */
    ghost predicate Since(earlier: seq<Action>, past: State)
      reads this
    {
      earlier <= trace && now.used == past.used
    }

    function AnswerTo(i: nat): Answer {
      AnswerIn(mishaps, i)
    }

    predicate Works(i: nat) {
      i !in faults
    }

    /** The steps made are a run of the protocol, and lead where the process is now. */
    ghost predicate Running()
      reads this
    {
      Leads(start, trace, now) && pid in now.procs
    }

    /** The files and the table are those of a run of the protocol. */
    ghost predicate Valid()
      reads this
    {
      && (forall i :: i in mishaps ==> Possible(mishaps[i]))
      && Running() && now.dir == files && now.table == table
    }

    ghost function Pc(): Pc
      reads this
      requires Running()
    {
      now.procs[pid]
    }

    /** Every file operation succeeds and every POST is answered with a 2xx. */
    ghost predicate AllGood()
      reads this
    {
      faults == {} && forall i :: i in mishaps ==> Taken(mishaps[i].reply)
    }

    /** As long as all goes well, a process started alone has made an uninterrupted drain. */
    ghost predicate DrainingWell()
      reads this
    {
      AllGood() && start.procs == map[] ==> IsDrainRun(start, trace) && Uninterrupted(trace)
    }

    /** One step of the protocol. */
    ghost method Did(act: Act)
      requires Running() && Waiting(Pc(), act) && Answers(now, act)
      modifies this`trace, this`now
      ensures Running() && now == StepAct(old(now), pid, old(Pc()), act)
      ensures trace == old(trace) + [Do(pid, act)]
      ensures old(DrainingWell()) && PartOfDrain(act)
              && (AllGood() ==> Succeeds(act) && (act.Try? ==> Taken(act.answer.reply)))
              ==> DrainingWell()
    {
      RunSnoc(start, trace, Do(pid, act));
      if DrainingWell() && PartOfDrain(act) && AllGood() && start.procs == map[] {
        if Succeeds(act) && (act.Try? ==> Taken(act.answer.reply)) {
          DrainRunSnoc(start, trace, Do(pid, act));
        }
      }
      trace, now := trace + [Do(pid, act)], Step(now, Do(pid, act));
    }

    /** `postWithRetry`, for a claimed file or for the process's own event. It stops at the first
        answer that is neither a network error nor a 5xx, after four attempts at the latest, and
        succeeds exactly if the last answer was below 400. */
    method PostWithRetry(body: Content, ghost purpose: Purpose) returns (ok: bool)
      requires Valid() && Pc() == Trying(purpose, body, 0) && purpose.Ready(body)
      modifies this`table, this`sent, this`trace, this`now
      ensures Valid() && Pc() == Tried(purpose, ok)
      ensures purpose.ForFile? && old(DrainingWell()) ==> DrainingWell()
      ensures Since(old(trace), old(now)) && old(sent) < sent <= old(sent) + 4
      ensures var last := AnswerTo(sent - 1).reply;
              && (ok <==> last.Status? && last.code < 400)
              && (sent < old(sent) + 4 ==> last.Status? && last.code < 500)
      ensures forall i :: old(sent) <= i < sent - 1 ==> AnswerTo(i).reply.Lost? || AnswerTo(i).reply.code >= 500
      ensures Recorded(Call(pid, mishaps, purpose.Origin(), body, old(sent), old(now.posts), old(table)),
                       sent, now.posts)
      ensures Taken(AnswerTo(old(sent)).reply) ==>
                ok && table == if body.Whole? then old(table)[body.event.id := body.event.row] else old(table)
    {
      ok := RetryLoop(body, purpose);
    }

    method RetryLoop(body: Content, ghost purpose: Purpose) returns (ok: bool)
      requires Valid() && Pc() == Trying(purpose, body, 0) && purpose.Ready(body)
      modifies this`table, this`sent, this`trace, this`now
      ensures Valid() && Pc() == Tried(purpose, ok)
      ensures purpose.ForFile? && old(DrainingWell()) ==> DrainingWell()
      ensures Since(old(trace), old(now))
      ensures Attempted(Call(pid, mishaps, purpose.Origin(), body, old(sent), old(now.posts), old(table)),
                        sent, now.posts, table, ok)
    {
      ghost var c := Call(pid, mishaps, purpose.Origin(), body, sent, now.posts, table);
      for i := 0 to ATTEMPTS
        invariant Valid() && Since(old(trace), old(now))
        invariant purpose.ForFile? && old(DrainingWell()) ==> DrainingWell()
        invariant Underway(c, purpose, i, sent, Pc(), now.posts, table)
      {
        var reply := Attempt(body, i, purpose, c);
        if reply.Lost? {
          continue;
        }
        if reply.code >= 500 {
          continue;
        }
        if reply.code >= 400 {
          return false;
        }
        return true;
      }
      ok := false;
    }

    method Attempt(body: Content, ghost tries: nat, ghost purpose: Purpose, ghost c: Call) returns (reply: Reply)
      requires Valid() && purpose.Ready(body) && tries < ATTEMPTS
      requires c.pid == pid && c.mishaps == mishaps && c.source == purpose.Origin() && c.body == body
      requires Underway(c, purpose, tries, sent, Pc(), now.posts, table)
      modifies this`table, this`sent, this`trace, this`now
      ensures Valid() && Since(old(trace), old(now))
      ensures purpose.ForFile? && old(DrainingWell()) ==> DrainingWell()
      ensures Retryable(reply) ==> Underway(c, purpose, tries + 1, sent, Pc(), now.posts, table)
      ensures !Retryable(reply) ==>
                Pc() == Tried(purpose, Accepted(reply)) && Attempted(c, sent, now.posts, table, Accepted(reply))
    {
      var a := AnswerTo(sent);
      ghost var posts, tabled := now.posts, table;
      reply, sent, table := a.reply, sent + 1, Apply(table, body, a);
      Did(Try(a));
      OneMoreAttempt(c, sent - 1, posts, now.posts, tabled, table);
    }

    /** `os.Rename`: fails when the operation does, or when the source is gone. */
    method RenameFile(from: Name, to: Name) returns (ok: bool)
      modifies this`files, this`ops
      ensures ops == old(ops) + 1
      ensures ok <==> Works(old(ops)) && from in old(files)
      ensures files == if Works(old(ops)) then Rename(old(files), from, to) else old(files)
    {
      ok := Works(ops) && from in files;
      if ok {
        files := (files - {from})[to := files[from]];
      }
      ops := ops + 1;
    }

    /** The first loop of `drainBuffer`: claimed files, of whatever process, become plain again. */
    method ReclaimAll()
      requires Valid() && DrainingWell() && Pc() == Starting
      modifies this`files, this`ops, this`trace, this`now
      ensures Valid() && DrainingWell() && Pc() == Listing && Since(old(trace), old(now))
      ensures faults == {} ==> NoClaims(files)
      ensures now.posts == old(now.posts) && forall b :: Stored(files, b) <==> Stored(old(files), b)
    {
      var stale := GlobStale(files);
      Did(ListStale(stale));
      var k := 0;
      while k < |stale|
        invariant 0 <= k <= |stale| && forall n :: n in stale ==> n.Claimed?
        invariant faults == {} ==> forall n :: n in files && n.Claimed? ==> n in stale[k..]
        invariant now.posts == old(now.posts) && forall b :: Stored(files, b) <==> Stored(old(files), b)
        invariant Valid() && DrainingWell() && Pc() == AfterReclaim(stale[k..]) && Since(old(trace), old(now))
      {
        ReclaimOne(stale[k..]);
        assert stale[k..][1..] == stale[k + 1..];
        k := k + 1;
      }
    }

    method ReclaimOne(stale: seq<Name>)
      requires Valid() && DrainingWell() && stale != [] && stale[0].Claimed? && Pc() == Reclaiming(stale)
      modifies this`files, this`ops, this`trace, this`now
      ensures Valid() && DrainingWell() && Pc() == AfterReclaim(stale[1..]) && Since(old(trace), old(now))
      ensures now.posts == old(now.posts) && forall b :: Stored(files, b) <==> Stored(old(files), b)
      ensures forall n :: n in files && n.Claimed? ==> n in old(files)
      ensures faults == {} ==> stale[0] !in files
    {
      ghost var at := ops;
      var _ := RenameFile(stale[0], Plain(stale[0].base));
      Did(Reclaim(Works(at)));
      forall b
        ensures Stored(files, b) <==> Stored(old(files), b)
      {
        StoredAfterMove(old(files), stale[0], Plain(stale[0].base), b);
      }
    }

    /** `drainBuffer`. It is a run of the protocol that ends with the drain done. Started alone on
        a buffer holding `names`, with every operation succeeding and every POST taken, it leaves
        the buffer empty and the table with the events upserted oldest first. */
    method DrainBuffer(ghost names: seq<Base>)
      requires Valid() && trace == [Spawn(pid)] && now == At(start, pid, Starting)
      requires Inv(start) && Holds(start.dir, names)
      modifies this
      ensures Valid() && Pc() == Drained && Since(old(trace), old(now))
      ensures forall b :: b in names ==> b in start.written
      ensures AllGood() && start.procs == map[] ==>
                && table == Replay(start.table, EventsOf(start.written, names))
                && forall b :: !Stored(files, b)
      ensures faults == {} ==>
                && (forall b :: b in names ==>
                      && (exists i :: |start.posts| <= i < |now.posts| && now.posts[i].source == File(b))
                      && (Stored(files, b) <==>
                            !exists i :: |start.posts| <= i < |now.posts| && now.posts[i].source == File(b)
                                         && now.posts[i].reply.Status? && now.posts[i].reply.code < 400))
                && forall b :: Stored(files, b) ==> b in names
    {
      assert DrainingWell() by {
        if start.procs == map[] {
          assert trace[1..] == [];
          assert IsDrainRun(Step(start, trace[0]), []);
        }
      }
      ReclaimAll();
      ghost var listing := DrainListed();
      if faults == {} {
        forall b
          ensures b in listing <==> b in names
          ensures b in names ==>
                    && TriedFor(now.posts, |start.posts|, b)
                    && (Stored(files, b) <==> !TakenFrom(now.posts, |start.posts|, b))
          ensures Stored(files, b) ==> b in names
        {
          AllSettled(listing, now.posts, |start.posts|, files, b);
        }
      }
      forall b | b in names
        ensures b in start.written
      {
        var n :| n in start.dir && !n.Temp? && n.base == b;
      }
      if AllGood() && start.procs == map[] {
        DrainsRecover(start, names, trace, pid);
      }
    }

    /** The second half of `drainBuffer`: the files listed, one after the other. */
    method DrainListed() returns (ghost listed: seq<Base>)
      requires Valid() && DrainingWell() && Pc() == Listing
      modifies this
      ensures Valid() && DrainingWell() && Pc() == Drained && Since(old(trace), old(now))
      ensures IsPlainListing(old(files), listed)
      ensures faults == {} && NoClaims(old(files)) ==>
                SettledSoFar(listed, |listed|, now.posts, |old(now.posts)|, files)
    {
      var listing := GlobPlain(files);
      listed := listing;
      Did(ListPlain(listing));
      if faults == {} && NoClaims(files) {
        NothingTriedYet(listing, now.posts, files);
      }
      var k := 0;
      while k < |listing|
        invariant 0 <= k <= |listing|
        invariant Valid() && DrainingWell() && Pc() == AfterFile(listing[k..])
        invariant Since(old(trace), old(now))
        invariant faults == {} && NoClaims(old(files)) ==>
                    SettledSoFar(listing, k, now.posts, |old(now.posts)|, files)
      {
        DrainNext(listing, k, |old(now.posts)|);
        k := k + 1;
      }
    }

    method DrainNext(listing: seq<Base>, k: nat, ghost since: nat)
      requires Valid() && DrainingWell() && k < |listing| && Sorted(listing) && Pc() == AfterFile(listing[k..])
      modifies this
      ensures Valid() && DrainingWell() && Pc() == AfterFile(listing[k + 1..]) && Since(old(trace), old(now))
      ensures faults == {} && SettledSoFar(listing, k, old(now.posts), since, old(files)) ==>
                SettledSoFar(listing, k + 1, now.posts, since, files)
    {
      ghost var posted := DrainOne(listing[k..]);
      assert listing[k..][1..] == listing[k + 1..];
      if faults == {} && SettledSoFar(listing, k, old(now.posts), since, old(files)) {
        OneMoreSettled(listing, k, old(now.posts), now.posts, since, old(files), files, posted);
      }
    }

    /** The body of `drainBuffer`'s loop: a file that could not be claimed is skipped, one that
        could not be read or posted is put back, one that was posted is removed. */
    method DrainOne(todo: seq<Base>) returns (ghost posted: bool)
      requires Valid() && DrainingWell() && todo != [] && Pc() == Draining(todo)
      modifies this
      ensures Valid() && DrainingWell() && Pc() == AfterFile(todo[1..]) && Since(old(trace), old(now))
      ensures faults == {} && Plain(todo[0]) in old(files) && Claimed(todo[0], pid) !in old(files) ==>
                && sent > old(sent)
                && posted == (AnswerTo(sent - 1).reply.Status? && AnswerTo(sent - 1).reply.code < 400)
                && OneFileTried(old(now.posts), now.posts, todo[0], posted)
                && files == if posted then old(files) - {Plain(todo[0])} else old(files)
    {
      var renamed := Take(todo);
      if !renamed {
        return false;
      }
      posted := Settle(todo);
    }

    /** What the loop body does with a file it has claimed. */
    method Settle(todo: seq<Base>) returns (ghost posted: bool)
      requires Valid() && DrainingWell() && todo != [] && Pc() == Reading(todo)
      modifies this
      ensures Valid() && DrainingWell() && Pc() == AfterFile(todo[1..]) && Since(old(trace), old(now))
      ensures faults == {} && Claimed(todo[0], pid) in old(files) ==>
                && sent > old(sent) && posted == Accepted(AnswerTo(sent - 1).reply)
                && OneFileTried(old(now.posts), now.posts, todo[0], posted)
                && files == if posted then old(files) - {Claimed(todo[0], pid)}
                            else Rename(old(files), Claimed(todo[0], pid), Plain(todo[0]))
    {
      var body, readable := ReadClaimed(todo);
      if !readable {
        GiveBack(todo);
        return false;
      }
      posted := Deliver(todo, body);
    }

    method PostFile(todo: seq<Base>, body: Content) returns (ok: bool)
      requires Valid() && DrainingWell() && todo != [] && Pc() == Posting(body, 0, todo)
      modifies this`table, this`sent, this`trace, this`now
      ensures Valid() && DrainingWell() && Since(old(trace), old(now))
      ensures Pc() == if ok then Removing(todo) else PuttingBack(todo)
      ensures sent > old(sent) && ok == Accepted(AnswerTo(sent - 1).reply)
      ensures OneFileTried(old(now.posts), now.posts, todo[0], ok)
    {
      ghost var c := Call(pid, mishaps, File(todo[0]), body, sent, now.posts, table);
      ok := PostWithRetry(body, ForFile(todo));
      forall i | old(sent) <= i < sent - 1
        ensures AnswerIn(mishaps, i).reply.Lost? || AnswerIn(mishaps, i).reply.code >= 500
      {
        assert AnswerIn(mishaps, i) == AnswerTo(i);
      }
      RecordedTries(c, sent, now.posts, todo[0], ok);
    }

    method Deliver(todo: seq<Base>, body: Content) returns (ghost posted: bool)
      requires Valid() && DrainingWell() && todo != [] && Pc() == Posting(body, 0, todo)
      modifies this
      ensures Valid() && DrainingWell() && Pc() == AfterFile(todo[1..]) && Since(old(trace), old(now))
      ensures sent > old(sent) && posted == Accepted(AnswerTo(sent - 1).reply)
      ensures OneFileTried(old(now.posts), now.posts, todo[0], posted)
      ensures faults == {} ==>
                files == if posted then old(files) - {Claimed(todo[0], pid)}
                         else Rename(old(files), Claimed(todo[0], pid), Plain(todo[0]))
    {
      var ok := PostFile(todo, body);
      if !ok {
        GiveBack(todo);
        return false;
      }
      Discard(todo);
      posted := true;
    }

    method Take(todo: seq<Base>) returns (ok: bool)
      requires Valid() && DrainingWell() && todo != [] && Pc() == Draining(todo)
      modifies this`files, this`ops, this`trace, this`now
      ensures Valid() && DrainingWell() && Since(old(trace), old(now))
      ensures now.posts == old(now.posts)
      ensures ok <==> Works(old(ops)) && Plain(todo[0]) in old(files)
      ensures files == if ok then Rename(old(files), Plain(todo[0]), Claimed(todo[0], pid)) else old(files)
      ensures Pc() == if ok then Reading(todo) else AfterFile(todo[1..])
    {
      ghost var at := ops;
      ok := RenameFile(Plain(todo[0]), Claimed(todo[0], pid));
      Did(Claim(Works(at)));
    }

    method ReadClaimed(todo: seq<Base>) returns (body: Content, ok: bool)
      requires Valid() && DrainingWell() && todo != [] && Pc() == Reading(todo)
      modifies this`ops, this`trace, this`now
      ensures Valid() && DrainingWell() && Since(old(trace), old(now))
      ensures now.posts == old(now.posts)
      ensures ok <==> Works(old(ops)) && Claimed(todo[0], pid) in files
      ensures ok ==> body == files[Claimed(todo[0], pid)]
      ensures Pc() == if ok then Posting(body, 0, todo) else PuttingBack(todo)
    {
      var claimed := Claimed(todo[0], pid);
      body, ok := Torn, Works(ops) && claimed in files;
      if ok {
        body := files[claimed];
      }
      Did(Read(Works(ops)));
      ops := ops + 1;
    }

    method GiveBack(todo: seq<Base>)
      requires Valid() && DrainingWell() && todo != [] && Pc() == PuttingBack(todo)
      modifies this`files, this`ops, this`trace, this`now
      ensures Valid() && DrainingWell() && Pc() == AfterFile(todo[1..]) && Since(old(trace), old(now))
      ensures now.posts == old(now.posts)
      ensures files == if Works(old(ops)) then Rename(old(files), Claimed(todo[0], pid), Plain(todo[0])) else old(files)
    {
      ghost var at := ops;
      var _ := RenameFile(Claimed(todo[0], pid), Plain(todo[0]));
      Did(PutBack(Works(at)));
    }

    method Discard(todo: seq<Base>)
      requires Valid() && DrainingWell() && todo != [] && Pc() == Removing(todo)
      modifies this`files, this`ops, this`trace, this`now
      ensures Valid() && DrainingWell() && Pc() == AfterFile(todo[1..]) && Since(old(trace), old(now))
      ensures now.posts == old(now.posts)
      ensures files == if Works(old(ops)) then old(files) - {Claimed(todo[0], pid)} else old(files)
    {
      if Works(ops) {
        files := files - {Claimed(todo[0], pid)};
      }
      Did(Remove(Works(ops)));
      ops := ops + 1;
    }

    /** `writeBuffer`: makes room, then writes the event under a temporary name and renames it. */
    method WriteBuffer(e: Event, b: Base) returns (ok: bool, ghost listing: seq<Base>)
      requires Valid() && Pc() == Capping(e) && b !in now.used
      modifies this`files, this`ops, this`trace, this`now
      ensures Valid() && Pc() == Finished && old(trace) <= trace
      ensures IsPlainListing(old(files), listing)
      ensures ok ==> Plain(b) in files && files[Plain(b)] == Whole(e)
      ensures forall n :: n in old(files) && n in files && n !in {Plain(b), Temp(b)} ==> files[n] == old(files)[n]
      ensures forall n :: n in files && n !in {Plain(b), Temp(b)} ==> n in old(files)
      ensures forall n :: n in old(files) && n !in files && n != Temp(b) ==>
                            n == Plain(b) || exists k :: 0 <= k < |listing| - 99 && n == Plain(listing[k])
      ensures faults == {} && b !in listing ==>
                forall k :: 0 <= k < |listing| ==> (Plain(listing[k]) in files <==> k >= |listing| - 99)
      ensures faults == {} ==>
                ok && files == (Without(old(files), Victims(listing)) - {Temp(b)})[Plain(b) := Whole(e)]
    {
      var all := GlobPlain(files);
      listing := all;
      MakeRoom(e, all);
      ghost var cleared := files;
      ok := WriteNew(e, b);
      if faults == {} && b !in listing {
        RoomTaken(cleared, listing, b, Whole(e));
      }
    }

    /** The second half of `writeBuffer`. */
    method WriteNew(e: Event, b: Base) returns (ok: bool)
      requires Valid() && Pc() == Opening(e) && b !in now.used
      modifies this`files, this`ops, this`trace, this`now
      ensures Valid() && Pc() == Finished && old(trace) <= trace
      ensures ok ==> Plain(b) in files && files[Plain(b)] == Whole(e)
      ensures forall n :: n !in {Plain(b), Temp(b)} ==>
                            (n in files <==> n in old(files)) && (n in files ==> files[n] == old(files)[n])
      ensures faults == {} ==> ok && files == (old(files) - {Temp(b)})[Plain(b) := Whole(e)]
    {
      var written := WriteTemp(e, b);
      if !written {
        return false;
      }
      ok := PublishTemp(e, b);
    }

    method PublishTemp(e: Event, b: Base) returns (ok: bool)
      requires Valid() && Pc() == Publishing(e, b)
      modifies this`files, this`ops, this`trace, this`now
      ensures Valid() && Pc() == Finished && old(trace) <= trace
      ensures ok <==> Works(old(ops)) && Temp(b) in old(files)
      ensures files == if Works(old(ops)) then Rename(old(files), Temp(b), Plain(b)) else old(files)
    {
      ghost var at := ops;
      ok := RenameFile(Temp(b), Plain(b));
      Did(Publish(Works(at)));
    }

    /** `os.WriteFile` on the temporary name: the file exists before its content is there. */
    method WriteTemp(e: Event, b: Base) returns (ok: bool)
      requires Valid() && Pc() == Opening(e) && b !in now.used
      modifies this`files, this`ops, this`trace, this`now
      ensures Valid() && Pc() == (if ok then Publishing(e, b) else Finished) && old(trace) <= trace
      ensures ok ==> files == old(files)[Temp(b) := Whole(e)]
      ensures forall n :: n != Temp(b) ==>
                            (n in files <==> n in old(files)) && (n in files ==> files[n] == old(files)[n])
      ensures faults == {} ==> ok
    {
      ok := CreateTemp(e, b);
      if !ok {
        return;
      }
      ok := FillTemp(e, b);
    }

    method FillTemp(e: Event, b: Base) returns (ok: bool)
      requires Valid() && Pc() == Filling(e, b)
      modifies this`files, this`ops, this`trace, this`now
      ensures Valid() && Pc() == (if ok then Publishing(e, b) else Finished) && old(trace) <= trace
      ensures ok <==> Works(old(ops))
      ensures files == if ok then old(files)[Temp(b) := Whole(e)] else old(files)
    {
      ok := Works(ops);
      if ok {
        files := files[Temp(b) := Whole(e)];
      }
      Did(Fill(ok));
      ops := ops + 1;
    }

    method CreateTemp(e: Event, b: Base) returns (ok: bool)
      requires Valid() && Pc() == Opening(e) && b !in now.used
      modifies this`files, this`ops, this`trace, this`now
      ensures Valid() && Pc() == (if ok then Filling(e, b) else Finished) && old(trace) <= trace
      ensures ok <==> Works(old(ops))
      ensures files == if ok then old(files)[Temp(b) := Torn] else old(files)
    {
      ok := Works(ops);
      if ok {
        files := files[Temp(b) := Torn];
      }
      Did(Open(b, ok));
      ops := ops + 1;
    }

    /** The eviction loop of `writeBuffer`. */
    method MakeRoom(e: Event, listing: seq<Base>)
      requires Valid() && Pc() == Capping(e) && IsPlainListing(files, listing)
      modifies this`files, this`ops, this`trace, this`now
      ensures Valid() && Pc() == Opening(e) && Since(old(trace), old(now))
      ensures forall n :: n in files ==> n in old(files) && files[n] == old(files)[n]
      ensures forall n :: n in old(files) && n !in files ==>
                            exists k :: 0 <= k < |listing| - 99 && n == Plain(listing[k])
      ensures faults == {} ==> forall k :: 0 <= k < |listing| ==> (Plain(listing[k]) in files <==> k >= |listing| - 99)
      ensures faults == {} ==> files == Without(old(files), Victims(listing))
    {
      Did(ListForCap(listing));
      RemoveAll(e, Victims(listing));
      assert Victims(listing)[..|Victims(listing)|] == Victims(listing);
      OldestGone(old(files), files, listing);
      RoomMade(old(files), listing);
    }

    method RemoveAll(e: Event, victims: seq<Base>)
      requires Valid() && Pc() == AfterEvict(e, victims)
      modifies this`files, this`ops, this`trace, this`now
      ensures Valid() && Pc() == Opening(e) && Since(old(trace), old(now))
      ensures Cleared(old(files), files, victims, |victims|, faults == {})
    {
      var k := 0;
      while k < |victims|
        invariant 0 <= k <= |victims|
        invariant Valid() && Pc() == AfterEvict(e, victims[k..]) && Since(old(trace), old(now))
        invariant Cleared(old(files), files, victims, k, faults == {})
      {
        RemoveNext(e, victims, k, old(files));
        k := k + 1;
      }
    }

    method RemoveNext(e: Event, victims: seq<Base>, k: nat, ghost was: Directory)
      requires Valid() && k < |victims| && Pc() == AfterEvict(e, victims[k..])
      requires Cleared(was, files, victims, k, faults == {})
      modifies this`files, this`ops, this`trace, this`now
      ensures Valid() && Pc() == AfterEvict(e, victims[k + 1..]) && Since(old(trace), old(now))
      ensures Cleared(was, files, victims, k + 1, faults == {})
    {
      RemoveVictim(e, victims[k..]);
      assert victims[k..][0] == victims[k] && victims[k..][1..] == victims[k + 1..];
      ClearedNext(was, old(files), files, victims, k, faults == {});
    }

    method RemoveVictim(e: Event, victims: seq<Base>)
      requires Valid() && victims != [] && Pc() == Evicting(e, victims)
      modifies this`files, this`ops, this`trace, this`now
      ensures Valid() && Pc() == AfterEvict(e, victims[1..]) && Since(old(trace), old(now))
      ensures files == if Works(old(ops)) then old(files) - {Plain(victims[0])} else old(files)
    {
      if Works(ops) {
        files := files - {Plain(victims[0])};
      }
      Did(Evict(Works(ops)));
      ops := ops + 1;
      assert Works(ops - 1) && Plain(victims[0]) !in old(files) ==> files == old(files);
    }

    /** This process has posted its own event and was not refused. */
    ghost predicate OwnDelivered(event: Event)
      reads this
    {
      DeliveredBy(now.posts, pid, event)
    }

    /** `run`: drain, then post the event read from the transcript, then buffer it if that failed.
        Input from which no event can be read ends the run after the drain. */
    method Run(input: Input, b: Base, ghost names: seq<Base>)
      requires Valid() && trace == [Spawn(pid)] && now == At(start, pid, Starting)
      requires Inv(start) && Holds(start.dir, names)
      requires b !in start.used
      modifies this
      ensures Valid() && Pc() == Finished && old(trace) <= trace
      ensures Inv(now)
      ensures faults == {} && input.Report? ==>
                && sent > 0
                && (Plain(b) in files <==> !(AnswerTo(sent - 1).reply.Status? && AnswerTo(sent - 1).reply.code < 400))
                && (Plain(b) in files ==> files[Plain(b)] == Whole(input.event))
                && (Plain(b) !in files ==> OwnDelivered(input.event))
      ensures forall n :: n in names ==> n in start.written
      ensures AllGood() && start.procs == map[] ==>
                var drained := Replay(start.table, EventsOf(start.written, names));
                && table == (if input.Report? then drained[input.event.id := input.event.row] else drained)
                && forall n :: !Stored(files, n)
    {
      DrainBuffer(names);
      RunKeepsInv(start, trace);
      assert Plain(b) !in files;
      HandOver(input, b);
      RunKeepsInv(start, trace);
    }

    /** `run` once the buffer is drained. */
    method HandOver(input: Input, b: Base)
      requires Valid() && Pc() == Drained && b !in now.used && Plain(b) !in files
      modifies this
      ensures Valid() && Pc() == Finished && old(trace) <= trace
      ensures faults == {} && input.Report? ==>
                && sent > 0
                && (Plain(b) in files <==> !(AnswerTo(sent - 1).reply.Status? && AnswerTo(sent - 1).reply.code < 400))
                && (Plain(b) in files ==> files[Plain(b)] == Whole(input.event))
                && (Plain(b) !in files ==> OwnDelivered(input.event))
      ensures AllGood() ==>
                && files == old(files)
                && table == if input.Report? then old(table)[input.event.id := input.event.row] else old(table)
    {
      if input.Unreadable? {
        Did(Quit);
        return;
      }
      PostOwn(input.event, b);
    }

    /** The end of `run`. */
    method PostOwn(event: Event, b: Base)
      requires Valid() && Pc() == Drained && b !in now.used && Plain(b) !in files
      modifies this
      ensures Valid() && Pc() == Finished && old(trace) <= trace && sent > old(sent)
      ensures Accepted(AnswerTo(sent - 1).reply) ==> Plain(b) !in files && OwnDelivered(event)
      ensures faults == {} && !Accepted(AnswerTo(sent - 1).reply) ==>
                Plain(b) in files && files[Plain(b)] == Whole(event)
      ensures AllGood() ==> table == old(table)[event.id := event.row] && files == old(files)
    {
      var ok := OfferOwn(event);
      if !ok {
        BufferOwn(event, b);
      }
    }

    method OfferOwn(event: Event) returns (ok: bool)
      requires Valid() && Pc() == Drained
      modifies this`table, this`sent, this`trace, this`now
      ensures Valid() && Pc() == (if ok then Finished else Capping(event)) && Since(old(trace), old(now))
      ensures sent > old(sent) && ok == Accepted(AnswerTo(sent - 1).reply) && (ok ==> OwnDelivered(event))
      ensures AllGood() ==> ok && table == old(table)[event.id := event.row]
    {
      Did(Begin(event));
      ok := PostWithRetry(Whole(event), ForOwn(event));
      if ok {
        assert now.posts[|now.posts| - 1] == Post(pid, Own, Whole(event), AnswerTo(sent - 1).reply);
        LastDelivers(now.posts, pid, event, AnswerTo(sent - 1).reply);
      }
    }

    method BufferOwn(event: Event, b: Base)
      requires Valid() && Pc() == Capping(event) && b !in now.used
      modifies this`files, this`ops, this`trace, this`now
      ensures Valid() && Pc() == Finished && old(trace) <= trace
      ensures faults == {} ==> Plain(b) in files && files[Plain(b)] == Whole(event)
    {
      var _, _ := WriteBuffer(event, b);
    }
  }
}
