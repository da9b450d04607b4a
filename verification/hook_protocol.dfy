/** The hook's on-disk buffer as a protocol between any number of hook processes
    (cmd/sessionlens-hook/main.go). Every file operation and every POST attempt is one atomic step;
    a process may crash before any of them, and any file operation may fail. */
module HookProtocol {
  import opened HookNames

  // --- Events, files and the server ---

  datatype Row = Row(projectPath: string, startedAt: string, endedAt: string,
                     inputTokens: int, outputTokens: int, cacheReadTokens: int, cacheWriteTokens: int,
                     totalCostUSD: real, model: string, turns: int, rawPayload: string)

  datatype Event = Event(id: string, row: Row)

  /** What a file holds: a whole event, or the beginning of one still being written. */
  datatype Content = Whole(event: Event) | Torn

  type Directory = map<Name, Content>
  type Table = map<string, Row>

  /** The reply the hook sees. */
  datatype Reply = Lost | Status(code: int)

  /** A reply together with what the hook cannot see: whether the server stored the event. */
  datatype Answer = Answer(reply: Reply, applied: bool)

  predicate Possible(a: Answer) {
    a.reply.Status? && 200 <= a.reply.code < 300 ==> a.applied
  }

  predicate Accepted(r: Reply) {
    r.Status? && r.code < 400
  }

  predicate Retryable(r: Reply) {
    r.Lost? || r.code >= 500
  }

  /** `UpsertSession`: insert or overwrite the row with this id. */
  function Upsert(t: Table, e: Event): Table {
    t[e.id := e.row]
  }

  function Apply(t: Table, body: Content, a: Answer): Table {
    if a.applied && body.Whole? then Upsert(t, body.event) else t
  }

  const BUFFER_CAP := 100

  /** One attempt, then one after each of the three back-off waits. */
  const ATTEMPTS := 4

  /** `os.Rename`: replaces the target; does nothing when the source is gone. */
  function Rename(dir: Directory, from: Name, to: Name): Directory {
    if from in dir then (dir - {from})[to := dir[from]] else dir
  }

  // --- Program counters ---

  /** Where a process stands; each constructor waits for the one operation its name says. */
  datatype Pc =
    | Starting
    | Reclaiming(stale: seq<Name>)
    | Listing
    | Draining(todo: seq<Base>)
    | Reading(todo: seq<Base>)
    | Posting(body: Content, tries: nat, todo: seq<Base>)
    | PuttingBack(todo: seq<Base>)
    | Removing(todo: seq<Base>)
    | Drained
    | Sending(event: Event, tries: nat)
    | Capping(event: Event)
    | Evicting(event: Event, victims: seq<Base>)
    | Opening(event: Event)
    | Filling(event: Event, base: Base)
    | Publishing(event: Event, base: Base)
    | Finished

  /** A POST attempt; `source` is the buffer file it came from, none for a process's own event. */
  datatype Source = Own | File(base: Base)
  datatype Post = Post(pid: nat, source: Source, body: Content, reply: Reply)

  /** The directory, the processes and the server, followed by history: every event renamed into
      the buffer, every base name drawn, every attempt made, every event evicted. */
  datatype State = State(
    dir: Directory,
    procs: map<nat, Pc>,
    table: Table,
    written: map<Base, Event>,
    used: set<Base>,
    posts: seq<Post>,
    evicted: set<Base>)

  const INIT := State(map[], map[], map[], map[], {}, [], {})

  datatype Act =
    | ListStale(stale: seq<Name>)
    | Reclaim(ok: bool)
    | ListPlain(files: seq<Base>)
    | Claim(ok: bool)
    | Read(ok: bool)
    | Try(answer: Answer)
    | PutBack(ok: bool)
    | Remove(ok: bool)
    | Begin(event: Event)
    | Quit
    | ListForCap(files: seq<Base>)
    | Evict(ok: bool)
    | Open(base: Base, ok: bool)
    | Fill(ok: bool)
    | Publish(ok: bool)

  datatype Action = Spawn(pid: nat) | Crash(pid: nat) | Do(pid: nat, act: Act)

  // --- Steps ---

  predicate Sorted(files: seq<Base>) {
    forall i, j :: 0 <= i < j < |files| ==> Before(files[i], files[j])
  }

  /** The glob `*.json`, in name order. */
  ghost predicate IsPlainListing(dir: Directory, files: seq<Base>) {
    && Sorted(files)
    && forall b :: b in files <==> Plain(b) in dir
  }

  /** The glob `*.json.processing-*`. */
  ghost predicate IsStaleListing(dir: Directory, stale: seq<Name>) {
    forall n :: n in stale <==> n in dir && n.Claimed?
  }

  /** The operation a process is waiting to make. */
  predicate Waiting(pc: Pc, act: Act) {
    match act
    case ListStale(_) => pc.Starting?
    case Reclaim(_) => pc.Reclaiming? && pc.stale != []
    case ListPlain(_) => pc.Listing?
    case Claim(_) => pc.Draining? && pc.todo != []
    case Read(_) => pc.Reading? && pc.todo != []
    case Try(_) => pc.Sending? || (pc.Posting? && pc.todo != [])
    case PutBack(_) => pc.PuttingBack? && pc.todo != []
    case Remove(_) => pc.Removing? && pc.todo != []
    case Begin(_) => pc.Drained?
    case Quit => pc.Drained?
    case ListForCap(_) => pc.Capping?
    case Evict(_) => pc.Evicting? && pc.victims != []
    case Open(_, _) => pc.Opening?
    case Fill(_) => pc.Filling?
    case Publish(_) => pc.Publishing?
  }

  /** What the directory and the clock can answer. A new file's name comes from the nanosecond
      clock and six random digits: it is taken to be new. */
  ghost predicate Answers(s: State, act: Act) {
    match act
    case ListStale(stale) => IsStaleListing(s.dir, stale)
    case ListPlain(files) => IsPlainListing(s.dir, files)
    case ListForCap(files) => IsPlainListing(s.dir, files)
    case Try(a) => Possible(a)
    case Open(b, _) => b !in s.used
    case _ => true
  }

  ghost predicate Enabled(s: State, a: Action) {
    match a
    case Spawn(pid) => pid !in s.procs
    case Crash(pid) => pid in s.procs
    case Do(pid, act) => pid in s.procs && Waiting(s.procs[pid], act) && Answers(s, act)
  }

  function AfterReclaim(stale: seq<Name>): Pc {
    if stale == [] then Listing else Reclaiming(stale)
  }

  function AfterFile(todo: seq<Base>): Pc {
    if todo == [] then Drained else Draining(todo)
  }

  function AfterEvict(e: Event, victims: seq<Base>): Pc {
    if victims == [] then Opening(e) else Evicting(e, victims)
  }

  /** The oldest files, enough of them that one more file fits under the cap. */
  function Victims(files: seq<Base>): seq<Base> {
    if |files| >= BUFFER_CAP then files[..|files| - BUFFER_CAP + 1] else []
  }

  function At(s: State, pid: nat, pc: Pc): State {
    s.(procs := s.procs[pid := pc])
  }

  function DoReclaim(s: State, pid: nat, stale: seq<Name>, ok: bool): State
    requires stale != []
  {
    At(s, pid, AfterReclaim(stale[1..]))
      .(dir := if ok then Rename(s.dir, stale[0], Plain(stale[0].base)) else s.dir)
  }

  function DoClaim(s: State, pid: nat, todo: seq<Base>, ok: bool): State
    requires todo != []
  {
    if ok && Plain(todo[0]) in s.dir
    then At(s, pid, Reading(todo)).(dir := Rename(s.dir, Plain(todo[0]), Claimed(todo[0], pid)))
    else At(s, pid, AfterFile(todo[1..]))
  }

  function DoRead(s: State, pid: nat, todo: seq<Base>, ok: bool): State
    requires todo != []
  {
    var n := Claimed(todo[0], pid);
    At(s, pid, if ok && n in s.dir then Posting(s.dir[n], 0, todo) else PuttingBack(todo))
  }

  function DoTry(s: State, pid: nat, body: Content, tries: nat, todo: seq<Base>, a: Answer): State
    requires todo != []
  {
    var next :=
      if Accepted(a.reply) then Removing(todo)
      else if Retryable(a.reply) && tries + 1 < ATTEMPTS then Posting(body, tries + 1, todo)
      else PuttingBack(todo);
    At(s, pid, next).(table := Apply(s.table, body, a),
                      posts := s.posts + [Post(pid, File(todo[0]), body, a.reply)])
  }

  function DoPutBack(s: State, pid: nat, todo: seq<Base>, ok: bool): State
    requires todo != []
  {
    At(s, pid, AfterFile(todo[1..]))
      .(dir := if ok then Rename(s.dir, Claimed(todo[0], pid), Plain(todo[0])) else s.dir)
  }

  function DoRemove(s: State, pid: nat, todo: seq<Base>, ok: bool): State
    requires todo != []
  {
    At(s, pid, AfterFile(todo[1..])).(dir := if ok then s.dir - {Claimed(todo[0], pid)} else s.dir)
  }

  function DoSend(s: State, pid: nat, e: Event, tries: nat, a: Answer): State {
    var next :=
      if Accepted(a.reply) then Finished
      else if Retryable(a.reply) && tries + 1 < ATTEMPTS then Sending(e, tries + 1)
      else Capping(e);
    At(s, pid, next).(table := Apply(s.table, Whole(e), a),
                      posts := s.posts + [Post(pid, Own, Whole(e), a.reply)])
  }

  function DoEvict(s: State, pid: nat, e: Event, victims: seq<Base>, ok: bool): State
    requires victims != []
  {
    var s' := At(s, pid, AfterEvict(e, victims[1..]));
    if ok && Plain(victims[0]) in s.dir
    then s'.(dir := s.dir - {Plain(victims[0])}, evicted := s.evicted + {victims[0]})
    else s'
  }

  function DoOpen(s: State, pid: nat, e: Event, b: Base, ok: bool): State {
    if ok
    then At(s, pid, Filling(e, b)).(dir := s.dir[Temp(b) := Torn], used := s.used + {b})
    else At(s, pid, Finished).(used := s.used + {b})
  }

  function DoFill(s: State, pid: nat, e: Event, b: Base, ok: bool): State {
    if ok
    then At(s, pid, Publishing(e, b)).(dir := s.dir[Temp(b) := Whole(e)])
    else At(s, pid, Finished)
  }

  function DoPublish(s: State, pid: nat, e: Event, b: Base, ok: bool): State {
    if ok && Temp(b) in s.dir
    then At(s, pid, Finished).(dir := Rename(s.dir, Temp(b), Plain(b)), written := s.written[b := e])
    else At(s, pid, Finished)
  }

  function StepAct(s: State, pid: nat, pc: Pc, act: Act): State
    requires Waiting(pc, act)
  {
    match act
    case ListStale(stale) => At(s, pid, AfterReclaim(stale))
    case Reclaim(ok) => DoReclaim(s, pid, pc.stale, ok)
    case ListPlain(files) => At(s, pid, AfterFile(files))
    case Claim(ok) => DoClaim(s, pid, pc.todo, ok)
    case Read(ok) => DoRead(s, pid, pc.todo, ok)
    case Try(a) => if pc.Posting? then DoTry(s, pid, pc.body, pc.tries, pc.todo, a)
                   else DoSend(s, pid, pc.event, pc.tries, a)
    case PutBack(ok) => DoPutBack(s, pid, pc.todo, ok)
    case Remove(ok) => DoRemove(s, pid, pc.todo, ok)
    case Begin(e) => At(s, pid, Sending(e, 0))
    case Quit => At(s, pid, Finished)
    case ListForCap(files) => At(s, pid, AfterEvict(pc.event, Victims(files)))
    case Evict(ok) => DoEvict(s, pid, pc.event, pc.victims, ok)
    case Open(b, ok) => DoOpen(s, pid, pc.event, b, ok)
    case Fill(ok) => DoFill(s, pid, pc.event, pc.base, ok)
    case Publish(ok) => DoPublish(s, pid, pc.event, pc.base, ok)
  }

  function Step(s: State, a: Action): State
    requires a.Do? ==> a.pid in s.procs && Waiting(s.procs[a.pid], a.act)
  {
    match a
    case Spawn(pid) => At(s, pid, Starting)
    case Crash(pid) => s.(procs := s.procs - {pid})
    case Do(pid, act) => StepAct(s, pid, s.procs[pid], act)
  }

  // --- Runs ---

  ghost predicate IsRun(s: State, acts: seq<Action>)
    decreases |acts|
  {
    acts == [] || (Enabled(s, acts[0]) && IsRun(Step(s, acts[0]), acts[1..]))
  }

  ghost function After(s: State, acts: seq<Action>): State
    requires IsRun(s, acts)
    decreases |acts|
  {
    if acts == [] then s else After(Step(s, acts[0]), acts[1..])
  }

  lemma {:induction false} RunConcat(s: State, xs: seq<Action>, ys: seq<Action>)
    requires IsRun(s, xs) && IsRun(After(s, xs), ys)
    ensures IsRun(s, xs + ys) && After(s, xs + ys) == After(After(s, xs), ys)
    decreases |xs|
  {
    if xs == [] {
      assert xs + ys == ys;
    } else {
      RunConcat(Step(s, xs[0]), xs[1..], ys);
      assert (xs + ys)[1..] == xs[1..] + ys;
    }
  }

  // --- What every step keeps ---

  /** Some buffer file, plain or claimed, holds the event. */
  ghost predicate Stored(dir: Directory, b: Base) {
    exists n :: n in dir && !n.Temp? && n.base == b
  }

  /** Some attempt to post this buffer file was answered below 400. */
  ghost predicate Delivered(posts: seq<Post>, b: Base) {
    exists i :: 0 <= i < |posts| && posts[i].source == File(b) && posts[i].reply.Status? && posts[i].reply.code < 400
  }

  /** Every buffer file holds, whole, the event that was written under its base name. */
  ghost predicate BodiesIntact(s: State) {
    forall n :: n in s.dir && !n.Temp? ==> n.base in s.written && s.dir[n] == Whole(s.written[n.base])
  }

  /** No event sits under two names. */
  ghost predicate OnePlace(dir: Directory) {
    forall m, n :: m in dir && n in dir && !m.Temp? && !n.Temp? && m.base == n.base ==> m == n
  }

  /** Every attempt made from a buffer file carried the event written there. */
  ghost predicate PostsIntact(s: State) {
    forall i :: 0 <= i < |s.posts| && s.posts[i].source.File? ==>
                  var b := s.posts[i].source.base;
                  b in s.written && s.posts[i].body == Whole(s.written[b])
  }

  predicate Creating(pc: Pc) {
    pc.Filling? || pc.Publishing?
  }

  ghost predicate PcOk(s: State, pc: Pc) {
    match pc
    case Reclaiming(stale) => forall n :: n in stale ==> n.Claimed?
    case Posting(body, tries, todo) =>
      todo != [] && todo[0] in s.written && body == Whole(s.written[todo[0]]) && tries < ATTEMPTS
    case Removing(todo) => todo != [] && Delivered(s.posts, todo[0])
    case Sending(_, tries) => tries < ATTEMPTS
    case Evicting(_, victims) => victims != []
    case Filling(_, b) => b in s.used && b !in s.written
    case Publishing(e, b) =>
      b in s.used && b !in s.written && Temp(b) in s.dir && s.dir[Temp(b)] == Whole(e)
    case _ => true
  }

  ghost predicate ProcsOk(s: State) {
    forall p :: p in s.procs ==> PcOk(s, s.procs[p])
  }

  ghost predicate CreatorsDiffer(s: State) {
    forall p, q :: p in s.procs && q in s.procs && p != q && Creating(s.procs[p]) && Creating(s.procs[q])
                   ==> s.procs[p].base != s.procs[q].base
  }

  /** No event ever renamed into the buffer is lost. */
  ghost predicate NothingLost(s: State) {
    forall b :: b in s.written ==> Stored(s.dir, b) || Delivered(s.posts, b) || b in s.evicted
  }

  ghost predicate Inv(s: State) {
    && s.written.Keys <= s.used
    && BodiesIntact(s)
    && OnePlace(s.dir)
    && PostsIntact(s)
    && ProcsOk(s)
    && CreatorsDiffer(s)
    && NothingLost(s)
  }

  // --- Keeping it: the three shapes of change ---

  /** A step that renames within one base name, or touches no buffer file. */
  ghost predicate SameEvents(s: State, s': State) {
    && s'.written == s.written
    && (forall b :: Stored(s.dir, b) ==> Stored(s'.dir, b))
    && BodiesIntact(s')
    && OnePlace(s'.dir)
  }

  lemma MoveKeeps(s: State, from: Name, to: Name, s': State)
    requires BodiesIntact(s) && OnePlace(s.dir)
    requires !from.Temp? && !to.Temp? && from.base == to.base && from != to
    requires s'.written == s.written && s'.dir == Rename(s.dir, from, to)
    ensures SameEvents(s, s')
    ensures from in s.dir ==> to !in s.dir
  {
    forall b | Stored(s.dir, b)
      ensures Stored(s'.dir, b)
    {
      var n :| n in s.dir && !n.Temp? && n.base == b;
      if n == from {
        assert to in s'.dir;
      } else {
        assert n in s'.dir;
      }
    }
  }

  /** History only grows, and nobody writes under a name that another process is creating. */
  ghost predicate Extends(s: State, s': State, pid: nat) {
    && s.written.Keys <= s'.written.Keys
    && (forall b :: b in s.written ==> s'.written[b] == s.written[b])
    && s.used <= s'.used
    && s.posts <= s'.posts
    && s'.procs.Keys == s.procs.Keys + {pid}
    && forall p :: p in s.procs && p != pid ==>
                     && s'.procs[p] == s.procs[p]
                     && (Creating(s.procs[p]) ==>
                           var b := s.procs[p].base;
                           && b !in s'.written
                           && (Temp(b) in s.dir ==> Temp(b) in s'.dir && s'.dir[Temp(b)] == s.dir[Temp(b)]))
  }

  lemma DeliveredStays(posts: seq<Post>, posts': seq<Post>, b: Base)
    requires Delivered(posts, b) && posts <= posts'
    ensures Delivered(posts', b)
  {
    var i :| 0 <= i < |posts| && posts[i].source == File(b) && posts[i].reply.Status? && posts[i].reply.code < 400;
    assert posts'[i] == posts[i];
  }

  lemma OtherUnmoved(s: State, s': State, pid: nat, p: nat)
    requires ProcsOk(s) && Extends(s, s', pid) && p in s'.procs && p != pid
    ensures PcOk(s', s'.procs[p])
  {
    assert p in s.procs && s'.procs[p] == s.procs[p];
    assert PcOk(s, s.procs[p]);
    if s.procs[p].Removing? {
      DeliveredStays(s.posts, s'.posts, s.procs[p].todo[0]);
    }
  }

  /** What a process knows stays true while others act. */
  lemma OthersUnmoved(s: State, s': State, pid: nat)
    requires ProcsOk(s) && CreatorsDiffer(s) && Extends(s, s', pid)
    requires pid in s'.procs && PcOk(s', s'.procs[pid])
    requires Creating(s'.procs[pid]) ==>
               || s'.procs[pid].base !in s.used
               || (pid in s.procs && Creating(s.procs[pid]) && s.procs[pid].base == s'.procs[pid].base)
    ensures ProcsOk(s') && CreatorsDiffer(s')
  {
    forall p | p in s'.procs && p != pid
      ensures PcOk(s', s'.procs[p])
    {
      OtherUnmoved(s, s', pid, p);
    }
    forall p | p in s'.procs && p != pid && Creating(s'.procs[p])
      ensures s'.procs[p].base in s.used
    {
      assert PcOk(s, s.procs[p]);
    }
  }

  /** A step within one process that keeps the written events and only renames or reads. */
  lemma SameEventsKeepInv(s: State, s': State, pid: nat)
    requires Inv(s) && pid in s.procs && SameEvents(s, s')
    requires s'.used == s.used && s'.posts == s.posts && s'.evicted == s.evicted
    requires pid in s'.procs && s'.procs == s.procs[pid := s'.procs[pid]] && PcOk(s', s'.procs[pid])
    requires !Creating(s'.procs[pid])
    requires forall b :: Temp(b) in s.dir ==> Temp(b) in s'.dir && s'.dir[Temp(b)] == s.dir[Temp(b)]
    ensures Inv(s')
  {
    forall p | p in s.procs && Creating(s.procs[p])
      ensures s.procs[p].base !in s.written
    {
      assert PcOk(s, s.procs[p]);
    }
    OthersUnmoved(s, s', pid);
    forall b | b in s'.written
      ensures Stored(s'.dir, b) || Delivered(s'.posts, b) || b in s'.evicted
    {
    }
  }

  lemma ReclaimKeepsInv(s: State, pid: nat, ok: bool)
    requires Inv(s) && pid in s.procs && Waiting(s.procs[pid], Reclaim(ok))
    ensures Inv(DoReclaim(s, pid, s.procs[pid].stale, ok))
  {
    var stale := s.procs[pid].stale;
    var s' := DoReclaim(s, pid, stale, ok);
    assert PcOk(s, s.procs[pid]);
    assert stale[0] in stale;
    if ok {
      MoveKeeps(s, stale[0], Plain(stale[0].base), s');
    }
    SameEventsKeepInv(s, s', pid);
  }

  lemma ClaimKeepsInv(s: State, pid: nat, ok: bool)
    requires Inv(s) && pid in s.procs && Waiting(s.procs[pid], Claim(ok))
    ensures Inv(DoClaim(s, pid, s.procs[pid].todo, ok))
  {
    var todo := s.procs[pid].todo;
    var s' := DoClaim(s, pid, todo, ok);
    if ok && Plain(todo[0]) in s.dir {
      MoveKeeps(s, Plain(todo[0]), Claimed(todo[0], pid), s');
    }
    SameEventsKeepInv(s, s', pid);
  }

  lemma ReadKeepsInv(s: State, pid: nat, ok: bool)
    requires Inv(s) && pid in s.procs && Waiting(s.procs[pid], Read(ok))
    ensures Inv(DoRead(s, pid, s.procs[pid].todo, ok))
  {
    SameEventsKeepInv(s, DoRead(s, pid, s.procs[pid].todo, ok), pid);
  }

  lemma PutBackKeepsInv(s: State, pid: nat, ok: bool)
    requires Inv(s) && pid in s.procs && Waiting(s.procs[pid], PutBack(ok))
    ensures Inv(DoPutBack(s, pid, s.procs[pid].todo, ok))
  {
    var todo := s.procs[pid].todo;
    var s' := DoPutBack(s, pid, todo, ok);
    if ok {
      MoveKeeps(s, Claimed(todo[0], pid), Plain(todo[0]), s');
    }
    SameEventsKeepInv(s, s', pid);
  }

  /** One more attempt on record. */
  lemma AttemptKeepsInv(s: State, s': State, pid: nat, post: Post)
    requires Inv(s) && pid in s.procs
    requires s' == s.(procs := s'.procs, table := s'.table, posts := s.posts + [post])
    requires pid in s'.procs && s'.procs == s.procs[pid := s'.procs[pid]] && PcOk(s', s'.procs[pid])
    requires !Creating(s'.procs[pid])
    requires post.source.File? ==>
               post.source.base in s.written && post.body == Whole(s.written[post.source.base])
    ensures Inv(s')
  {
    assert s.posts <= s'.posts;
    forall p | p in s.procs && Creating(s.procs[p])
      ensures s.procs[p].base !in s.written
    {
      assert PcOk(s, s.procs[p]);
    }
    OthersUnmoved(s, s', pid);
    forall b | b in s'.written
      ensures Stored(s'.dir, b) || Delivered(s'.posts, b) || b in s'.evicted
    {
      if Delivered(s.posts, b) {
        DeliveredStays(s.posts, s'.posts, b);
      }
    }
  }

  lemma TryKeepsInv(s: State, pid: nat, a: Answer)
    requires Inv(s) && pid in s.procs && s.procs[pid].Posting?
    ensures var pc := s.procs[pid]; pc.todo != [] && Inv(DoTry(s, pid, pc.body, pc.tries, pc.todo, a))
  {
    var pc := s.procs[pid];
    assert PcOk(s, pc);
    var s' := DoTry(s, pid, pc.body, pc.tries, pc.todo, a);
    var post := Post(pid, File(pc.todo[0]), pc.body, a.reply);
    assert s'.posts[|s.posts|] == post;
    AttemptKeepsInv(s, s', pid, post);
  }

  lemma SendKeepsInv(s: State, pid: nat, a: Answer)
    requires Inv(s) && pid in s.procs && s.procs[pid].Sending?
    ensures var pc := s.procs[pid]; Inv(DoSend(s, pid, pc.event, pc.tries, a))
  {
    var pc := s.procs[pid];
    assert PcOk(s, pc);
    AttemptKeepsInv(s, DoSend(s, pid, pc.event, pc.tries, a), pid, Post(pid, Own, Whole(pc.event), a.reply));
  }

  /** A buffer file goes, its event delivered or evicted. */
  lemma DropKeepsInv(s: State, s': State, pid: nat, gone: Name)
    requires Inv(s) && pid in s.procs && !gone.Temp?
    requires s' == s.(procs := s'.procs, dir := s.dir - {gone}, evicted := s'.evicted)
    requires s.evicted <= s'.evicted && (Delivered(s.posts, gone.base) || gone.base in s'.evicted)
    requires pid in s'.procs && s'.procs == s.procs[pid := s'.procs[pid]] && PcOk(s', s'.procs[pid])
    requires !Creating(s'.procs[pid])
    ensures Inv(s')
  {
    forall p | p in s.procs && Creating(s.procs[p])
      ensures s.procs[p].base !in s.written
    {
      assert PcOk(s, s.procs[p]);
    }
    OthersUnmoved(s, s', pid);
    forall b | b in s'.written
      ensures Stored(s'.dir, b) || Delivered(s'.posts, b) || b in s'.evicted
    {
      if Stored(s.dir, b) && b != gone.base {
        var n :| n in s.dir && !n.Temp? && n.base == b;
        assert n in s'.dir;
      }
    }
  }

  lemma RemoveKeepsInv(s: State, pid: nat, ok: bool)
    requires Inv(s) && pid in s.procs && Waiting(s.procs[pid], Remove(ok))
    ensures Inv(DoRemove(s, pid, s.procs[pid].todo, ok))
  {
    var todo := s.procs[pid].todo;
    var s' := DoRemove(s, pid, todo, ok);
    assert PcOk(s, s.procs[pid]);
    if ok {
      DropKeepsInv(s, s', pid, Claimed(todo[0], pid));
    } else {
      SameEventsKeepInv(s, s', pid);
    }
  }

  lemma EvictKeepsInv(s: State, pid: nat, ok: bool)
    requires Inv(s) && pid in s.procs && Waiting(s.procs[pid], Evict(ok))
    ensures var pc := s.procs[pid]; Inv(DoEvict(s, pid, pc.event, pc.victims, ok))
  {
    var pc := s.procs[pid];
    var s' := DoEvict(s, pid, pc.event, pc.victims, ok);
    if ok && Plain(pc.victims[0]) in s.dir {
      DropKeepsInv(s, s', pid, Plain(pc.victims[0]));
    } else {
      SameEventsKeepInv(s, s', pid);
    }
  }

  /** A process that creates a file is the only one to write under its base name. */
  lemma CreatorAlone(s: State, pid: nat, b: Base)
    requires ProcsOk(s) && CreatorsDiffer(s)
    requires b in s.used ==> pid in s.procs && Creating(s.procs[pid]) && s.procs[pid].base == b
    ensures forall p :: p in s.procs && p != pid && Creating(s.procs[p]) ==>
                          s.procs[p].base != b && s.procs[p].base !in s.written
  {
    forall p | p in s.procs && p != pid && Creating(s.procs[p])
      ensures s.procs[p].base != b && s.procs[p].base !in s.written
    {
      assert PcOk(s, s.procs[p]);
    }
  }

  /** Only temporary files change. */
  lemma TempWriteKeepsInv(s: State, s': State, pid: nat, b: Base)
    requires Inv(s) && pid in s.procs
    requires b in s.used ==> Creating(s.procs[pid]) && s.procs[pid].base == b
    requires s' == s.(procs := s'.procs, dir := s'.dir, used := s.used + {b})
    requires forall n :: n != Temp(b) ==>
                           (n in s'.dir <==> n in s.dir) && (n in s.dir ==> s'.dir[n] == s.dir[n])
    requires pid in s'.procs && s'.procs == s.procs[pid := s'.procs[pid]] && PcOk(s', s'.procs[pid])
    requires Creating(s'.procs[pid]) ==> s'.procs[pid].base == b
    ensures Inv(s')
  {
    CreatorAlone(s, pid, b);
    OthersUnmoved(s, s', pid);
    forall c | Stored(s.dir, c)
      ensures Stored(s'.dir, c)
    {
      var n :| n in s.dir && !n.Temp? && n.base == c;
      assert n in s'.dir;
    }
  }

  lemma OpenKeepsInv(s: State, pid: nat, b: Base, ok: bool)
    requires Inv(s) && pid in s.procs && s.procs[pid].Opening? && b !in s.used
    ensures Inv(DoOpen(s, pid, s.procs[pid].event, b, ok))
  {
    TempWriteKeepsInv(s, DoOpen(s, pid, s.procs[pid].event, b, ok), pid, b);
  }

  lemma FillKeepsInv(s: State, pid: nat, ok: bool)
    requires Inv(s) && pid in s.procs && s.procs[pid].Filling?
    ensures var pc := s.procs[pid]; Inv(DoFill(s, pid, pc.event, pc.base, ok))
  {
    var pc := s.procs[pid];
    assert PcOk(s, pc);
    var s' := DoFill(s, pid, pc.event, pc.base, ok);
    assert s'.used == s.used + {pc.base};
    TempWriteKeepsInv(s, s', pid, pc.base);
  }

  lemma PublishKeepsInv(s: State, pid: nat, ok: bool)
    requires Inv(s) && pid in s.procs && s.procs[pid].Publishing?
    ensures var pc := s.procs[pid]; Inv(DoPublish(s, pid, pc.event, pc.base, ok))
  {
    var pc := s.procs[pid];
    var b := pc.base;
    var s' := DoPublish(s, pid, pc.event, b, ok);
    assert PcOk(s, pc);
    CreatorAlone(s, pid, b);
    OthersUnmoved(s, s', pid);
    PublishPlaces(s, s', b, pc.event, ok);
  }

  /** The new file holds the event that is now written, and nothing else has moved. */
  lemma PublishPlaces(s: State, s': State, b: Base, e: Event, ok: bool)
    requires BodiesIntact(s) && OnePlace(s.dir) && NothingLost(s)
    requires b !in s.written && Temp(b) in s.dir && s.dir[Temp(b)] == Whole(e)
    requires s'.posts == s.posts && s'.evicted == s.evicted
    requires s'.dir == if ok then Rename(s.dir, Temp(b), Plain(b)) else s.dir
    requires s'.written == if ok then s.written[b := e] else s.written
    ensures BodiesIntact(s') && OnePlace(s'.dir) && NothingLost(s')
  {
    forall c | c in s'.written
      ensures Stored(s'.dir, c) || Delivered(s'.posts, c) || c in s'.evicted
    {
      if ok && Stored(s.dir, c) {
        PublishStored(s.dir, b, c);
      } else if c !in s.written {
        assert Plain(c) in s'.dir;
      }
    }
  }

  lemma PublishStored(dir: Directory, b: Base, c: Base)
    requires Stored(dir, c)
    ensures Stored(Rename(dir, Temp(b), Plain(b)), c)
  {
    var n :| n in dir && !n.Temp? && n.base == c;
    assert n in Rename(dir, Temp(b), Plain(b));
  }

  lemma LookKeepsInv(s: State, pid: nat, pc: Pc)
    requires Inv(s) && pid in s.procs && !Creating(pc) && PcOk(s, pc)
    ensures Inv(At(s, pid, pc))
  {
    SameEventsKeepInv(s, At(s, pid, pc), pid);
  }

  lemma ActKeepsInv(s: State, pid: nat, act: Act)
    requires Inv(s) && pid in s.procs && Waiting(s.procs[pid], act) && Answers(s, act)
    ensures Inv(StepAct(s, pid, s.procs[pid], act))
  {
    match act
    case ListStale(stale) => LookKeepsInv(s, pid, AfterReclaim(stale));
    case Reclaim(ok) => ReclaimKeepsInv(s, pid, ok);
    case ListPlain(files) => LookKeepsInv(s, pid, AfterFile(files));
    case Claim(ok) => ClaimKeepsInv(s, pid, ok);
    case Read(ok) => ReadKeepsInv(s, pid, ok);
    case Try(a) =>
      if s.procs[pid].Posting? {
        TryKeepsInv(s, pid, a);
      } else {
        SendKeepsInv(s, pid, a);
      }
    case PutBack(ok) => PutBackKeepsInv(s, pid, ok);
    case Remove(ok) => RemoveKeepsInv(s, pid, ok);
    case Begin(e) => LookKeepsInv(s, pid, Sending(e, 0));
    case Quit => LookKeepsInv(s, pid, Finished);
    case ListForCap(files) => LookKeepsInv(s, pid, AfterEvict(s.procs[pid].event, Victims(files)));
    case Evict(ok) => EvictKeepsInv(s, pid, ok);
    case Open(b, ok) => OpenKeepsInv(s, pid, b, ok);
    case Fill(ok) => FillKeepsInv(s, pid, ok);
    case Publish(ok) => PublishKeepsInv(s, pid, ok);
  }

  lemma SpawnKeepsInv(s: State, pid: nat)
    requires Inv(s) && Enabled(s, Spawn(pid))
    ensures Inv(Step(s, Spawn(pid)))
  {
    var s' := Step(s, Spawn(pid));
    assert s'.procs == s.procs[pid := Starting] && s' == s.(procs := s'.procs);
    forall p | p in s'.procs
      ensures PcOk(s', s'.procs[p])
    {
      assert p != pid ==> PcOk(s, s.procs[p]);
    }
    assert CreatorsDiffer(s');
  }

  lemma CrashKeepsInv(s: State, pid: nat)
    requires Inv(s) && Enabled(s, Crash(pid))
    ensures Inv(Step(s, Crash(pid)))
  {
    var s' := Step(s, Crash(pid));
    forall p | p in s'.procs
      ensures PcOk(s', s'.procs[p])
    {
      assert PcOk(s, s.procs[p]);
    }
  }

  lemma StepKeepsInv(s: State, a: Action)
    requires Inv(s) && Enabled(s, a)
    ensures Inv(Step(s, a))
  {
    match a
    case Spawn(pid) => SpawnKeepsInv(s, pid);
    case Crash(pid) => CrashKeepsInv(s, pid);
    case Do(pid, act) => ActKeepsInv(s, pid, act);
  }

  lemma {:induction false} RunKeepsInv(s: State, acts: seq<Action>)
    requires Inv(s) && IsRun(s, acts)
    ensures Inv(After(s, acts))
    decreases |acts|
  {
    if acts != [] {
      StepKeepsInv(s, acts[0]);
      RunKeepsInv(Step(s, acts[0]), acts[1..]);
    }
  }
}
