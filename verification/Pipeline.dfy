/**
 * Encoding in parallel: one walker, some workers, an orderer and two queues between them, as steps
 * that a scheduler may take in any order.
 */
module Pipeline {
  import opened Tree

  /** The bytes of a frame, and the length of the text they decode to. */
  datatype Framed = Framed(bytes: seq<Byte>, rawLen: nat)

  /** An encoded part with its index entry, both opaque here. */
  datatype Encoded = Encoded(frame: Framed, entry: nat)

  datatype Frame = PartFrame(number: nat, part: Encoded) | IndexFrame(entries: seq<nat>)

  datatype Cause = Setup(worker: nat) | Encoding(number: nat) | Sink | Walk | NeverArrived | Index

  datatype Message = Made(number: nat, part: Encoded) | Lost(cause: Cause)

  /**
   * What does not depend on the schedule: what each part encodes to, `None` if it cannot be
   * encoded; whether the walk that cuts these parts succeeds; the number of worker threads.
   */
  datatype Config = Config(parts: seq<Option<Encoded>>, walkOk: bool, threads: nat)

  datatype Worker = Starting | Idle | Holding | Busy(number: nat) | Stopped

  datatype Walker = Walking | Ended | Refused

  datatype Orderer = Receiving | Draining | Finished | Broken(cause: Cause)

  datatype Outcome = Running | Success | Failure(cause: Cause)

  datatype State = State(
    next: nat,                  // the number of the next part to send
    walker: Walker,
    jobs: seq<nat>,             // the bounded queue
    lock: Option<nat>,          // the worker that holds the receiving end
    workers: seq<Worker>,
    done: seq<Message>,         // the unbounded queue
    early: map<nat, Encoded>,
    entries: seq<nat>,
    orderer: Orderer,
    seen: seq<Frame>,           // every frame handed to the sink
    outcome: Outcome)

  datatype Step =
    | Send | SendFails | WalkEnds
    | Start(w: nat, ok: bool) | Lock(w: nat) | Receive(w: nat) | NoMore(w: nat) | Encode(w: nat)
    | Take | Hand(accepted: bool) | Rest | Close
    | Finish(written: bool, accepted: bool)

  function Init(c: Config): State {
    State(0, Walking, [], None, seq(c.threads, _ => Starting), [], map[], [], Receiving, [], Running)
  }

  predicate AllStopped(s: State) {
    forall w :: 0 <= w < |s.workers| ==> s.workers[w] == Stopped
  }

  /** The orderer still takes messages. */
  predicate Listening(s: State) {
    s.orderer == Receiving || s.orderer == Draining
  }

  predicate Enabled(c: Config, s: State, step: Step) {
    match step
    case Send => s.walker == Walking && s.next < |c.parts| && |s.jobs| < c.threads && !AllStopped(s)
    case SendFails => s.walker == Walking && s.next < |c.parts| && AllStopped(s)
    case WalkEnds => s.walker == Walking && s.next >= |c.parts|
    case Start(w, _) => w < |s.workers| && s.workers[w] == Starting
    case Lock(w) => w < |s.workers| && s.workers[w] == Idle && s.lock == None
    case Receive(w) => w < |s.workers| && s.workers[w] == Holding && s.jobs != []
    case NoMore(w) => w < |s.workers| && s.workers[w] == Holding && s.jobs == [] && s.walker != Walking
    case Encode(w) => w < |s.workers| && s.workers[w].Busy? && s.workers[w].number < |c.parts|
    case Take => s.orderer == Receiving && s.done != []
    case Hand(_) => s.orderer == Draining && |s.entries| in s.early
    case Rest => s.orderer == Draining && |s.entries| !in s.early
    case Close => s.orderer == Receiving && s.done == [] && AllStopped(s)
    case Finish(_, _) => s.outcome == Running && s.walker != Walking && !Listening(s) && AllStopped(s)
  }

  function EncodedMessage(c: Config, number: nat): Message
    requires number < |c.parts|
  {
    if c.parts[number].Some? then Made(number, c.parts[number].value) else Lost(Encoding(number))
  }

  /** A message goes nowhere once the orderer has stopped. */
  function Report(s: State, m: Message): seq<Message> {
    if Listening(s) then s.done + [m] else s.done
  }

  function Do(c: Config, s: State, step: Step): State
    requires Enabled(c, s, step)
  {
    match step
    case Send => s.(jobs := s.jobs + [s.next], next := s.next + 1)
    case SendFails => s.(walker := Refused)
    case WalkEnds => s.(walker := Ended)
    case Start(w, ok) =>
      if ok then s.(workers := s.workers[w := Idle])
      else s.(workers := s.workers[w := Stopped], done := Report(s, Lost(Setup(w))))
    case Lock(w) => s.(workers := s.workers[w := Holding], lock := Some(w))
    case Receive(w) => s.(workers := s.workers[w := Busy(s.jobs[0])], jobs := s.jobs[1..], lock := None)
    case NoMore(w) => s.(workers := s.workers[w := Stopped], lock := None)
    case Encode(w) =>
      s.(workers := s.workers[w := if Listening(s) then Idle else Stopped],
         done := Report(s, EncodedMessage(c, s.workers[w].number)))
    case Take =>
      var m := s.done[0];
      if m.Made? then s.(done := s.done[1..], early := s.early[m.number := m.part], orderer := Draining)
      else s.(done := s.done[1..], orderer := Broken(m.cause))
    case Hand(accepted) =>
      var k := |s.entries|;
      var part := s.early[k];
      var handed := s.(early := s.early - {k}, seen := s.seen + [PartFrame(k, part)]);
      if accepted then handed.(entries := s.entries + [part.entry]) else handed.(orderer := Broken(Sink))
    case Rest => s.(orderer := Receiving)
    case Close => s.(orderer := if s.early == map[] then Finished else Broken(NeverArrived))
    case Finish(written, accepted) =>
      if s.orderer.Broken? then s.(outcome := Failure(s.orderer.cause))
      else if s.walker == Refused || !c.walkOk then s.(outcome := Failure(Walk))
      else if !written then s.(outcome := Failure(Index))
      else s.(seen := s.seen + [IndexFrame(s.entries)], outcome := if accepted then Success else Failure(Sink))
  }

  /** A run from the start, whatever the scheduler chose. */
  ghost predicate Run(c: Config, states: seq<State>, steps: seq<Step>) {
    && |states| == |steps| + 1
    && states[0] == Init(c)
    && forall i :: 0 <= i < |steps| ==> Enabled(c, states[i], steps[i]) && states[i + 1] == Do(c, states[i], steps[i])
  }

  // ----- where each part is

  function OneBusy(worker: Worker): multiset<nat> {
    if worker.Busy? then multiset{worker.number} else multiset{}
  }

  function AllBusy(workers: seq<Worker>): multiset<nat> {
    if workers == [] then multiset{} else OneBusy(workers[0]) + AllBusy(workers[1..])
  }

  function NumberOf(m: Message): multiset<nat> {
    match m
    case Made(number, _) => multiset{number}
    case Lost(Encoding(number)) => multiset{number}
    case Lost(_) => multiset{}
  }

  function NumbersOf(done: seq<Message>): multiset<nat> {
    if done == [] then multiset{} else NumberOf(done[0]) + NumbersOf(done[1..])
  }

  function UpTo(n: nat): multiset<nat> {
    if n == 0 then multiset{} else UpTo(n - 1) + multiset{n - 1}
  }

  lemma Sums(a: multiset<nat>, b: multiset<nat>, c: multiset<nat>)
    ensures a + (b + c) == (a + b) + c
    ensures a + b == b + a
    ensures a + multiset{} == a
  {
  }

  lemma {:induction false} BusyChanges(workers: seq<Worker>, w: nat, worker: Worker)
    requires w < |workers|
    ensures AllBusy(workers[w := worker]) + OneBusy(workers[w]) == AllBusy(workers) + OneBusy(worker)
    decreases |workers|
  {
    var after := workers[w := worker];
    var now, later := OneBusy(workers[w]), OneBusy(worker);
    assert AllBusy(after) == OneBusy(after[0]) + AllBusy(after[1..]);
    assert AllBusy(workers) == OneBusy(workers[0]) + AllBusy(workers[1..]);
    hide AllBusy, OneBusy;
    if w == 0 {
      assert after[1..] == workers[1..];
      var rest := AllBusy(workers[1..]);
      Sums(later, rest, now);
      Sums(now, rest, later);
      Sums(rest, now, later);
      Sums(rest, later, now);
    } else {
      assert after[1..] == workers[1..][w - 1 := worker];
      assert after[0] == workers[0] && workers[1..][w - 1] == workers[w];
      BusyChanges(workers[1..], w - 1, worker);
      Sums(OneBusy(workers[0]), AllBusy(after[1..]), now);
      Sums(OneBusy(workers[0]), AllBusy(workers[1..]), later);
    }
  }

  lemma BusyStays(workers: seq<Worker>, w: nat, worker: Worker)
    requires w < |workers| && !workers[w].Busy? && !worker.Busy?
    ensures AllBusy(workers[w := worker]) == AllBusy(workers)
  {
    hide AllBusy;
    BusyChanges(workers, w, worker);
    Sums(AllBusy(workers), multiset{}, multiset{});
    Sums(AllBusy(workers[w := worker]), multiset{}, multiset{});
  }

  lemma BusyBegins(workers: seq<Worker>, w: nat, number: nat)
    requires w < |workers| && !workers[w].Busy?
    ensures AllBusy(workers[w := Busy(number)]) == AllBusy(workers) + multiset{number}
  {
    hide AllBusy;
    BusyChanges(workers, w, Busy(number));
    Sums(AllBusy(workers[w := Busy(number)]), multiset{}, multiset{});
  }

  lemma BusyEnds(workers: seq<Worker>, w: nat, worker: Worker)
    requires w < |workers| && workers[w].Busy? && !worker.Busy?
    ensures AllBusy(workers[w := worker]) + multiset{workers[w].number} == AllBusy(workers)
  {
    hide AllBusy;
    BusyChanges(workers, w, worker);
    Sums(AllBusy(workers), multiset{}, multiset{});
  }

  lemma {:induction false} NumbersMore(done: seq<Message>, m: Message)
    ensures NumbersOf(done + [m]) == NumbersOf(done) + NumberOf(m)
    decreases |done|
  {
    if done == [] {
      assert (done + [m])[1..] == [];
    } else {
      assert (done + [m])[1..] == done[1..] + [m];
      NumbersMore(done[1..], m);
    }
  }

  lemma {:induction false} UpToHolds(n: nat, x: nat)
    ensures UpTo(n)[x] == if x < n then 1 else 0
  {
    if n > 0 {
      UpToHolds(n - 1, x);
    }
  }

  // ----- the invariant

  /** The threads and the first queue. */
  ghost predicate Threads(c: Config, s: State) {
    && |s.workers| == c.threads > 0
    && |s.jobs| <= c.threads
    && s.next <= |c.parts|
    && (forall i :: 0 <= i < |s.jobs| ==> s.jobs[i] < s.next)
    && (forall w :: 0 <= w < |s.workers| ==> s.workers[w].Busy? ==> s.workers[w].number < s.next)
    && (forall w :: 0 <= w < |s.workers| ==> (s.workers[w] == Holding <==> s.lock == Some(w)))
    && (s.lock.Some? ==> s.lock.value < |s.workers|)
    && (s.walker == Ended ==> s.next == |c.parts|)
  }

  predicate TrueMessage(c: Config, m: Message) {
    match m
    case Made(number, part) => number < |c.parts| && c.parts[number] == Some(part)
    case Lost(Encoding(number)) => number < |c.parts| && c.parts[number] == None
    case Lost(Setup(w)) => w < c.threads
    case Lost(_) => false
  }

  predicate HasLoss(done: seq<Message>) {
    exists i :: 0 <= i < |done| && done[i].Lost?
  }

  /** Each part sent is in exactly one place, and every message is true. */
  ghost predicate Conserved(c: Config, s: State) {
    && Places(s) == UpTo(s.next)
    && TrueParts(c, s)
  }

  /** The number of every part sent, wherever it is. */
  function Places(s: State): multiset<nat> {
    multiset(s.jobs) + AllBusy(s.workers) + NumbersOf(s.done) + multiset(s.early.Keys) + UpTo(|s.entries|)
  }

  ghost predicate TrueParts(c: Config, s: State) {
    && (forall i :: 0 <= i < |s.done| ==> TrueMessage(c, s.done[i]))
    && (forall q <- s.early :: q < |c.parts| && c.parts[q] == Some(s.early[q]))
  }

  /** While the orderer listens, a worker stops only when all is sent or when it reports an error. */
  ghost predicate Explained(s: State) {
    && (forall w :: 0 <= w < |s.workers| && s.workers[w] == Stopped ==> (s.walker == Ended && s.jobs == []) || HasLoss(s.done))
    && (s.walker == Refused ==> HasLoss(s.done))
    && (s.orderer == Receiving ==> |s.entries| !in s.early)
  }

  /** The parts handed out, in order. */
  function Handed(c: Config, k: nat): seq<Frame>
    requires k <= |c.parts| && forall i :: 0 <= i < k ==> c.parts[i].Some?
  {
    seq(k, i requires 0 <= i < k => PartFrame(i, c.parts[i].value))
  }

  function EntriesOf(c: Config, k: nat): seq<nat>
    requires k <= |c.parts| && forall i :: 0 <= i < k ==> c.parts[i].Some?
  {
    seq(k, i requires 0 <= i < k => c.parts[i].value.entry)
  }

  /** The sink has seen exactly parts 0 to `k`, in order. */
  ghost predicate SeenInOrder(c: Config, s: State, k: nat, frames: seq<Frame>) {
    && |s.entries| <= k <= |c.parts|
    && (forall i :: 0 <= i < k ==> c.parts[i].Some?)
    && frames == Handed(c, k)
    && s.entries == EntriesOf(c, |s.entries|)
  }

  predicate TrueCause(c: Config, cause: Cause) {
    match cause
    case Setup(w) => w < c.threads
    case Encoding(number) => number < |c.parts| && c.parts[number] == None
    case Sink => true
    case Walk => !c.walkOk
    case Index => true
    case NeverArrived => false
  }

  /** What the sink has seen, and why the orderer and the whole ended as they did. */
  ghost predicate Told(c: Config, s: State) {
    && s.orderer != Broken(NeverArrived)
    && match s.outcome
       case Running =>
         && SeenInOrder(c, s, if s.orderer == Broken(Sink) then |s.entries| + 1 else |s.entries|, s.seen)
         && (s.orderer.Broken? ==> TrueCause(c, s.orderer.cause) && s.orderer.cause != Walk)
         && (s.orderer == Finished ==> s.walker == Ended && |s.entries| == |c.parts|)
       case Success =>
         && c.walkOk && |s.entries| == |c.parts|
         && s.seen != [] && s.seen[|s.seen| - 1] == IndexFrame(s.entries)
         && SeenInOrder(c, s, |s.entries|, s.seen[..|s.seen| - 1])
       case Failure(cause) =>
         && TrueCause(c, cause)
         && exists k: nat :: k <= |c.parts| && SeenUpTo(c, s, k)
  }

  /** Parts in order, and perhaps the index behind all of them. */
  ghost predicate SeenUpTo(c: Config, s: State, k: nat) {
    && k <= |c.parts|
    && (forall i :: 0 <= i < k ==> c.parts[i].Some?)
    && (s.seen == Handed(c, k) || (k == |c.parts| && s.seen == Handed(c, k) + [IndexFrame(EntriesOf(c, k))]))
  }

  ghost predicate Inv(c: Config, s: State) {
    && Threads(c, s)
    && (Listening(s) ==> Conserved(c, s) && Explained(s))
    && Told(c, s)
    && (s.outcome != Running ==> s.walker != Walking && !Listening(s) && AllStopped(s))
  }

  // ----- every step keeps it

  lemma ThreadsKept(c: Config, s: State, step: Step)
    requires Threads(c, s) && Enabled(c, s, step)
    ensures Threads(c, Do(c, s, step))
  {
    hide AllStopped;
  }

  lemma KeysLess<V>(m: map<nat, V>, k: nat)
    requires k in m
    ensures multiset((m - {k}).Keys) + multiset{k} == multiset(m.Keys)
  {
    assert (m - {k}).Keys == m.Keys - {k};
  }

  lemma KeysMore<V>(m: map<nat, V>, k: nat, v: V)
    requires k !in m
    ensures multiset(m[k := v].Keys) == multiset(m.Keys) + multiset{k}
  {
    assert m[k := v].Keys == m.Keys + {k};
  }

  /** A part on its way to the orderer is not there yet. */
  lemma NotEarly(c: Config, s: State)
    requires Conserved(c, s) && s.done != [] && s.done[0].Made?
    ensures s.done[0].number !in s.early
  {
    UpToHolds(s.next, s.done[0].number);
    assert NumbersOf(s.done)[s.done[0].number] >= 1;
  }

  lemma QueueKeeps(c: Config, s: State, step: Step)
    requires Enabled(c, s, step) && (step.Send? || step.Receive?)
    ensures Places(Do(c, s, step)) == if step.Send? then Places(s) + multiset{s.next} else Places(s)
    ensures Do(c, s, step).next == if step.Send? then s.next + 1 else s.next
  {
    if step.Receive? {
      ReceiveKeeps(c, s, step.w);
    } else {
      SendKeeps(c, s);
    }
  }

  lemma ReceiveKeeps(c: Config, s: State, w: nat)
    requires Enabled(c, s, Receive(w))
    ensures Places(Do(c, s, Receive(w))) == Places(s) && Do(c, s, Receive(w)).next == s.next
  {
    hide AllStopped, AllBusy, NumbersOf, UpTo;
    BusyBegins(s.workers, w, s.jobs[0]);
    FirstOfQueue(s.jobs);
    Taken(multiset(s.jobs), multiset(s.jobs[1..]), AllBusy(s.workers), AllBusy(s.workers[w := Busy(s.jobs[0])]), NumbersOf(s.done),
          multiset(s.early.Keys), UpTo(|s.entries|), multiset{s.jobs[0]});
  }

  lemma SendKeeps(c: Config, s: State)
    requires Enabled(c, s, Send)
    ensures Places(Do(c, s, Send)) == Places(s) + multiset{s.next} && Do(c, s, Send).next == s.next + 1
  {
    hide AllStopped, AllBusy, NumbersOf, UpTo;
    assert multiset(s.jobs + [s.next]) == multiset(s.jobs) + multiset{s.next};
    Sent(multiset(s.jobs), AllBusy(s.workers), NumbersOf(s.done), multiset(s.early.Keys), UpTo(|s.entries|), multiset{s.next});
  }

  lemma FirstOfQueue(jobs: seq<nat>)
    requires jobs != []
    ensures multiset(jobs) == multiset{jobs[0]} + multiset(jobs[1..])
  {
    assert jobs == [jobs[0]] + jobs[1..];
  }

  lemma Taken(jobs: multiset<nat>, jobsLater: multiset<nat>, busy: multiset<nat>, busyLater: multiset<nat>, done: multiset<nat>,
              early: multiset<nat>, handed: multiset<nat>, moved: multiset<nat>)
    requires jobs == moved + jobsLater && busyLater == busy + moved
    ensures jobsLater + busyLater + done + early + handed == jobs + busy + done + early + handed
  {
  }

  lemma Sent(jobs: multiset<nat>, busy: multiset<nat>, done: multiset<nat>, early: multiset<nat>, handed: multiset<nat>, added: multiset<nat>)
    ensures jobs + added + busy + done + early + handed == jobs + busy + done + early + handed + added
  {
  }

  lemma Moves(jobs: multiset<nat>, busy: multiset<nat>, busyLater: multiset<nat>, done: multiset<nat>, doneLater: multiset<nat>,
              early: multiset<nat>, handed: multiset<nat>, moved: multiset<nat>)
    requires busyLater + moved == busy && doneLater == done + moved
    ensures jobs + busyLater + doneLater + early + handed == jobs + busy + done + early + handed
  {
  }

  lemma WorkersKeep(c: Config, s: State, step: Step)
    requires Enabled(c, s, step) && (step.Start? || step.Lock? || step.NoMore?) && Listening(s)
    ensures Places(Do(c, s, step)) == Places(s) && Do(c, s, step).next == s.next
  {
    hide AllStopped, AllBusy, NumbersOf, UpTo;
    BusyStays(s.workers, step.w, Do(c, s, step).workers[step.w]);
    NumbersMore(s.done, Lost(Setup(step.w)));
    Sums(NumbersOf(s.done), multiset{}, multiset{});
  }

  lemma EncodeKeeps(c: Config, s: State, w: nat)
    requires Enabled(c, s, Encode(w)) && Listening(s)
    ensures Places(Do(c, s, Encode(w))) == Places(s) && Do(c, s, Encode(w)).next == s.next
  {
    hide AllStopped, AllBusy, NumbersOf, UpTo;
    var number := s.workers[w].number;
    BusyEnds(s.workers, w, Idle);
    NumbersMore(s.done, EncodedMessage(c, number));
    Moves(multiset(s.jobs), AllBusy(s.workers), AllBusy(s.workers[w := Idle]), NumbersOf(s.done),
          NumbersOf(s.done + [EncodedMessage(c, number)]), multiset(s.early.Keys), UpTo(|s.entries|), multiset{number});
  }

  lemma QuietKeeps(c: Config, s: State, step: Step)
    requires Enabled(c, s, step) && (step.SendFails? || step.WalkEnds? || step.Rest? || step.Close? || step.Finish?)
    ensures Places(Do(c, s, step)) == Places(s) && Do(c, s, step).next == s.next
  {
    hide AllStopped, AllBusy, NumbersOf, UpTo;
  }

  lemma OrdererKeeps(c: Config, s: State, step: Step)
    requires Enabled(c, s, step) && (step.Take? || step.Hand?)
    requires Conserved(c, s) && Listening(Do(c, s, step))
    ensures Places(Do(c, s, step)) == Places(s) && Do(c, s, step).next == s.next
  {
    if step.Take? {
      TakeKeeps(c, s);
    } else {
      HandKeeps(c, s);
    }
  }

  lemma TakeKeeps(c: Config, s: State)
    requires Enabled(c, s, Take) && Conserved(c, s) && s.done[0].Made?
    ensures Places(Do(c, s, Take)) == Places(s) && Do(c, s, Take).next == s.next
  {
    hide AllStopped, AllBusy, TrueParts, NumbersOf, UpTo, Conserved;
    NotEarly(c, s);
    KeysMore(s.early, s.done[0].number, s.done[0].part);
    FirstMessage(s.done);
    Arrives(multiset(s.jobs), AllBusy(s.workers), NumbersOf(s.done[1..]), multiset(s.early.Keys), UpTo(|s.entries|), multiset{s.done[0].number});
  }

  lemma Arrives(jobs: multiset<nat>, busy: multiset<nat>, done: multiset<nat>, early: multiset<nat>, handed: multiset<nat>, moved: multiset<nat>)
    ensures jobs + busy + done + (early + moved) + handed == jobs + busy + (moved + done) + early + handed
    ensures jobs + busy + done + early + (handed + moved) == jobs + busy + done + (early + moved) + handed
  {
  }

  lemma HandKeeps(c: Config, s: State)
    requires Enabled(c, s, Hand(true))
    ensures Places(Do(c, s, Hand(true))) == Places(s) && Do(c, s, Hand(true)).next == s.next
  {
    var k := |s.entries|;
    KeysLess(s.early, k);
    assert UpTo(k + 1) == UpTo(k) + multiset{k};
    hide AllStopped, AllBusy, NumbersOf, UpTo;
    Arrives(multiset(s.jobs), AllBusy(s.workers), NumbersOf(s.done), multiset((s.early - {k}).Keys), UpTo(k), multiset{k});
  }

  lemma FirstMessage(done: seq<Message>)
    requires done != []
    ensures NumbersOf(done) == NumberOf(done[0]) + NumbersOf(done[1..])
  {
  }

  lemma TruthKept(c: Config, s: State, step: Step)
    requires Threads(c, s) && TrueParts(c, s) && Enabled(c, s, step)
    ensures TrueParts(c, Do(c, s, step))
  {
    hide AllStopped;
  }

  lemma PlacesKept(c: Config, s: State, step: Step)
    requires Conserved(c, s) && Listening(s)
    requires Enabled(c, s, step) && Listening(Do(c, s, step))
    ensures Do(c, s, step).next == if step.Send? then s.next + 1 else s.next
    ensures Places(Do(c, s, step)) == if step.Send? then Places(s) + multiset{s.next} else Places(s)
  {
    hide Places, Conserved, Enabled, Do, Listening;
    if step.Send? || step.Receive? {
      QueueKeeps(c, s, step);
    } else if step.Start? || step.Lock? || step.NoMore? {
      WorkersKeep(c, s, step);
    } else if step.Encode? {
      EncodeKeeps(c, s, step.w);
    } else if step.Take? || step.Hand? {
      OrdererKeeps(c, s, step);
    } else {
      QuietKeeps(c, s, step);
    }
  }

  lemma ConservedKept(c: Config, s: State, step: Step)
    requires Threads(c, s) && Conserved(c, s) && Listening(s)
    requires Enabled(c, s, step) && Listening(Do(c, s, step))
    ensures Conserved(c, Do(c, s, step))
  {
    hide Places, Enabled, Do, Listening, Threads, TrueParts;
    TruthKept(c, s, step);
    PlacesKept(c, s, step);
    assert UpTo(s.next + 1) == UpTo(s.next) + multiset{s.next};
  }

  lemma ExplainedKept(c: Config, s: State, step: Step)
    requires Threads(c, s) && Explained(s) && Listening(s)
    requires Enabled(c, s, step) && Listening(Do(c, s, step))
    ensures Explained(Do(c, s, step))
  {
    var t := Do(c, s, step);
    match step
    case Start(w, ok) =>
      if !ok {
        assert t.done[|s.done|] == Lost(Setup(w));
      }
      LossStays(s, t);
    case Encode(w) =>
      LossStays(s, t);
    case Take =>
      LossLater(s.done);
    case SendFails =>
      assert s.workers[0] == Stopped;
    case _ =>
  }

  lemma LossStays(s: State, t: State)
    requires s.done <= t.done
    ensures HasLoss(s.done) ==> HasLoss(t.done)
  {
    if HasLoss(s.done) {
      var i :| 0 <= i < |s.done| && s.done[i].Lost?;
      assert t.done[i].Lost?;
    }
  }

  lemma LossLater(done: seq<Message>)
    requires done != [] && done[0].Made?
    ensures HasLoss(done) ==> HasLoss(done[1..])
  {
    if HasLoss(done) {
      var i :| 0 <= i < |done| && done[i].Lost?;
      assert done[1..][i - 1].Lost?;
    }
  }

  lemma {:induction false} NoneBusy(workers: seq<Worker>)
    requires forall w :: 0 <= w < |workers| ==> workers[w] == Stopped
    ensures AllBusy(workers) == multiset{}
  {
    if workers != [] {
      NoneBusy(workers[1..]);
    }
  }

  /** When every worker has stopped and no message is left, every part was sent and handed out. */
  lemma AllArrived(c: Config, s: State)
    requires Threads(c, s) && Conserved(c, s) && Explained(s)
    requires s.orderer == Receiving && s.done == [] && AllStopped(s)
    ensures s.walker == Ended && s.early == map[] && |s.entries| == s.next == |c.parts|
  {
    hide TrueParts, AllBusy;
    assert s.workers[0] == Stopped;
    NoneBusy(s.workers);
    var k := |s.entries|;
    assert forall x: nat :: Places(s)[x] == multiset(s.early.Keys)[x] + UpTo(k)[x];
    forall x: nat
      ensures multiset(s.early.Keys)[x] + (if x < k then 1 else 0) == if x < s.next then 1 else 0
    {
      UpToHolds(k, x);
      UpToHolds(s.next, x);
    }
    hide UpTo, Places;
    assert multiset(s.early.Keys)[k] == 0;
    assert s.next <= k;
    forall q: nat
      ensures q !in s.early
    {
      assert multiset(s.early.Keys)[q] == 0;
    }
    assert multiset(s.early.Keys)[s.next] == 0;
  }

  /** A step that leaves the sink and the orderer alone. */
  lemma ToldStays(c: Config, s: State, t: State)
    requires Told(c, s)
    requires t.seen == s.seen && t.entries == s.entries && t.outcome == s.outcome
    requires t.orderer == s.orderer || (Listening(s) && Listening(t))
    requires s.walker == Ended ==> t.walker == Ended
    ensures Told(c, t)
  {
    hide TrueCause, Handed, EntriesOf;
    if s.outcome.Failure? {
      var k: nat :| k <= |c.parts| && SeenUpTo(c, s, k);
      assert SeenUpTo(c, t, k);
    }
  }

  lemma TakeTold(c: Config, s: State)
    requires Inv(c, s) && Enabled(c, s, Take)
    ensures Told(c, Do(c, s, Take))
  {
    hide Handed, EntriesOf, Places, UpTo, AllStopped, HasLoss;
    assert TrueMessage(c, s.done[0]);
  }

  lemma HandTold(c: Config, s: State, accepted: bool)
    requires Inv(c, s) && Enabled(c, s, Hand(accepted))
    ensures Told(c, Do(c, s, Hand(accepted)))
  {
    hide Places, UpTo, AllStopped, HasLoss;
    var k := |s.entries|;
    assert k < |c.parts| && c.parts[k] == Some(s.early[k]);
    assert Handed(c, k + 1) == Handed(c, k) + [PartFrame(k, s.early[k])];
    assert EntriesOf(c, k + 1) == EntriesOf(c, k) + [s.early[k].entry];
  }

  lemma CloseTold(c: Config, s: State)
    requires Inv(c, s) && Enabled(c, s, Close)
    ensures Told(c, Do(c, s, Close))
  {
    hide Places, UpTo, AllStopped, HasLoss, Handed, EntriesOf, Threads, Conserved, Explained, SeenUpTo;
    AllArrived(c, s);
  }

  lemma FinishTold(c: Config, s: State, written: bool, accepted: bool)
    requires Inv(c, s) && Enabled(c, s, Finish(written, accepted))
    ensures Told(c, Do(c, s, Finish(written, accepted)))
  {
    hide Places, UpTo, AllStopped, HasLoss, Handed, EntriesOf;
    var t := Do(c, s, Finish(written, accepted));
    if t.outcome.Failure? {
      if s.orderer == Broken(Sink) {
        assert SeenUpTo(c, t, |s.entries| + 1);
      } else {
        assert SeenUpTo(c, t, |s.entries|);
      }
    }
  }

  lemma InvKept(c: Config, s: State, step: Step)
    requires Inv(c, s) && Enabled(c, s, step)
    ensures Inv(c, Do(c, s, step))
  {
    hide Threads, Conserved, Explained, Told;
    var t := Do(c, s, step);
    ThreadsKept(c, s, step);
    if Listening(t) {
      ConservedKept(c, s, step);
      ExplainedKept(c, s, step);
    }
    match step
    case Take => TakeTold(c, s);
    case Hand(accepted) => HandTold(c, s, accepted);
    case Close => CloseTold(c, s);
    case Finish(written, accepted) => FinishTold(c, s, written, accepted);
    case _ => ToldStays(c, s, t);
  }

  lemma InvInit(c: Config)
    requires c.threads > 0
    ensures Inv(c, Init(c))
  {
    NoneBusyYet(Init(c).workers);
  }

  lemma {:induction false} NoneBusyYet(workers: seq<Worker>)
    requires forall w :: 0 <= w < |workers| ==> workers[w] == Starting
    ensures AllBusy(workers) == multiset{}
  {
    if workers != [] {
      NoneBusyYet(workers[1..]);
    }
  }

  lemma {:induction false} InvAlways(c: Config, states: seq<State>, steps: seq<Step>)
    requires c.threads > 0 && Run(c, states, steps)
    ensures Inv(c, states[|steps|])
    decreases |steps|
  {
    hide Inv, Do, Init;
    if steps == [] {
      InvInit(c);
    } else {
      var n := |steps| - 1;
      InvAlways(c, states[..|steps|], steps[..n]);
      InvKept(c, states[n], steps[n]);
    }
  }

  // ----- what holds of every run

  /** At all times the sink has seen parts 0 to some `k` in walk order, and the index only behind all parts. */
  lemma SinkSeesWalkOrder(c: Config, states: seq<State>, steps: seq<Step>)
    requires c.threads > 0 && Run(c, states, steps)
    ensures exists k: nat :: SeenUpTo(c, states[|steps|], k)
  {
    InvAlways(c, states, steps);
    hide Threads, Conserved, Explained, Run, Handed, EntriesOf;
    var s := states[|steps|];
    match s.outcome
    case Running => assert SeenUpTo(c, s, if s.orderer == Broken(Sink) then |s.entries| + 1 else |s.entries|);
    case Success =>
      assert s.seen == s.seen[..|s.seen| - 1] + [s.seen[|s.seen| - 1]];
      assert SeenUpTo(c, s, |s.entries|);
    case Failure(_) =>
      var k: nat :| k <= |c.parts| && SeenUpTo(c, s, k);
  }

  predicate AllEncode(c: Config) {
    forall i :: 0 <= i < |c.parts| ==> c.parts[i].Some?
  }

  lemma SuccessIsTold(c: Config, states: seq<State>, steps: seq<Step>)
    requires c.threads > 0 && Run(c, states, steps) && states[|steps|].outcome == Success
    ensures c.walkOk && AllEncode(c)
    ensures states[|steps|].seen == Handed(c, |c.parts|) + [IndexFrame(EntriesOf(c, |c.parts|))]
  {
    hide Threads, Conserved, Explained, Do;
    InvAlways(c, states, steps);
    var s := states[|steps|];
    assert s.seen == s.seen[..|s.seen| - 1] + [s.seen[|s.seen| - 1]];
  }

  /** Success means that the walk succeeded, nothing failed in any step, and the sink saw every part in order, then the index. */
  lemma SuccessSeesAll(c: Config, states: seq<State>, steps: seq<Step>)
    requires c.threads > 0 && Run(c, states, steps) && states[|steps|].outcome == Success
    ensures c.walkOk && AllEncode(c)
    ensures forall i :: 0 <= i < |steps| ==> !Faulty(c, states[i], steps[i])
    ensures states[|steps|].seen == Handed(c, |c.parts|) + [IndexFrame(EntriesOf(c, |c.parts|))]
  {
    hide Do, Faulty, Inv;
    forall i | 0 <= i < |steps|
      ensures !Faulty(c, states[i], steps[i])
    {
      if Faulty(c, states[i], steps[i]) {
        NoSuccessAfterAFault(c, states, steps, i, |steps|);
      }
    }
    SuccessIsTold(c, states, steps);
  }

  /** The frames and the index do not depend on the number of threads or on the schedule. */
  lemma ThreadsDoNotMatter(c: Config, threads: nat, left: seq<State>, leftSteps: seq<Step>, right: seq<State>, rightSteps: seq<Step>)
    requires c.threads > 0 && threads > 0
    requires Run(c, left, leftSteps) && left[|leftSteps|].outcome == Success
    requires Run(c.(threads := threads), right, rightSteps) && right[|rightSteps|].outcome == Success
    ensures left[|leftSteps|].seen == right[|rightSteps|].seen
  {
    var d := c.(threads := threads);
    SuccessSeesAll(c, left, leftSteps);
    SuccessSeesAll(d, right, rightSteps);
    assert Handed(c, |c.parts|) == Handed(d, |c.parts|);
    assert EntriesOf(c, |c.parts|) == EntriesOf(d, |c.parts|);
  }

  /** In this step, taken from `s`, the cause comes about. */
  predicate Causes(s: State, step: Step, cause: Cause) {
    match cause
    case Setup(w) => step == Start(w, false)
    case Encoding(number) => step.Encode? && step.w < |s.workers| && s.workers[step.w] == Busy(number)
    case Sink => step == Hand(false) || (step.Finish? && step.written && !step.accepted)
    case Index => step.Finish? && !step.written
    case Walk => step == WalkEnds
    case NeverArrived => step == Close
  }

  /** The cause came about in one of the steps. */
  ghost predicate TookPlace(states: seq<State>, steps: seq<Step>, cause: Cause)
    requires |states| > |steps|
  {
    exists i :: 0 <= i < |steps| && Causes(states[i], steps[i], cause)
  }

  /** The state tells of this cause: on its way to the orderer, as what broke it, or as the outcome. */
  ghost predicate Tells(s: State, cause: Cause) {
    || Lost(cause) in s.done
    || s.orderer == Broken(cause)
    || s.outcome == Failure(cause)
    || (cause == Walk && s.walker == Ended)
  }

  /** A cause comes about in the step that first tells of it. */
  lemma TellsFromStep(c: Config, s: State, step: Step, cause: Cause)
    requires Inv(c, s) && Enabled(c, s, step) && Tells(Do(c, s, step), cause)
    ensures Tells(s, cause) || Causes(s, step, cause)
  {
    hide AllStopped, Threads, Conserved, Explained, Handed, EntriesOf;
  }

  /** Whatever a run tells of took place in it. */
  lemma {:induction false} ToldTookPlace(c: Config, states: seq<State>, steps: seq<Step>, cause: Cause)
    requires c.threads > 0 && Run(c, states, steps) && Tells(states[|steps|], cause)
    ensures TookPlace(states, steps, cause)
    decreases |steps|
  {
    hide Do, Enabled, Causes, Inv;
    if steps != [] {
      hide Tells;
      var n := |steps| - 1;
      InvAlways(c, states[..n + 1], steps[..n]);
      TellsFromStep(c, states[n], steps[n], cause);
      if !Causes(states[n], steps[n], cause) {
        ToldTookPlace(c, states[..n + 1], steps[..n], cause);
        var i :| 0 <= i < n && Causes(states[..n + 1][i], steps[..n][i], cause);
        assert Causes(states[i], steps[i], cause);
      }
    }
  }

  /** If the orderer broke, its cause is the one reported. */
  predicate OrdererWins(s: State) {
    s.outcome.Failure? ==> !Listening(s) && (s.orderer.Broken? ==> s.outcome.cause == s.orderer.cause)
  }

  lemma {:induction false} OrdererAlwaysWins(c: Config, states: seq<State>, steps: seq<Step>)
    requires Run(c, states, steps)
    ensures OrdererWins(states[|steps|])
    decreases |steps|
  {
    hide AllStopped;
    if steps != [] {
      var n := |steps| - 1;
      OrdererAlwaysWins(c, states[..n + 1], steps[..n]);
      WinsOn(c, states[n], steps[n]);
    }
  }

  lemma WinsOn(c: Config, s: State, step: Step)
    requires OrdererWins(s) && Enabled(c, s, step)
    ensures OrdererWins(Do(c, s, step))
  {
    hide AllStopped;
  }

  /**
   * A failure is reported with a cause that took place in the run, and if the orderer broke it is the orderer's:
   * an encoder that was not set up, a part that does not encode, a frame that was refused, an index that was not
   * written, or a walk that failed by itself and not because the orderer stopped. No part ever fails to arrive.
   */
  lemma FailureHasItsCause(c: Config, states: seq<State>, steps: seq<Step>)
    requires c.threads > 0 && Run(c, states, steps)
    ensures var s := states[|steps|];
            && (s.outcome.Failure? ==> TrueCause(c, s.outcome.cause) && TookPlace(states, steps, s.outcome.cause))
            && (s.outcome.Failure? && s.orderer.Broken? ==> s.outcome.cause == s.orderer.cause)
            && (s.orderer.Broken? ==> TookPlace(states, steps, s.orderer.cause))
            && s.orderer != Broken(NeverArrived)
  {
    InvAlways(c, states, steps);
    OrdererAlwaysWins(c, states, steps);
    var s := states[|steps|];
    if s.outcome.Failure? {
      ToldTookPlace(c, states, steps, s.outcome.cause);
    }
    if s.orderer.Broken? {
      ToldTookPlace(c, states, steps, s.orderer.cause);
    }
    hide Threads, Conserved, Explained, Run, Handed, EntriesOf, TookPlace;
  }

  // ----- no deadlock, no endless run

  /** As long as the whole has not ended or a worker has not stopped, some thread can take a step. */
  lemma SomeThreadCanStep(c: Config, s: State)
    requires Inv(c, s) && (s.outcome == Running || !AllStopped(s))
    ensures exists step :: Enabled(c, s, step)
  {
    hide Told, Conserved, Explained;
    if s.orderer == Draining {
      assert Enabled(c, s, if |s.entries| in s.early then Hand(true) else Rest);
    } else if s.walker == Walking && s.next >= |c.parts| {
      assert Enabled(c, s, WalkEnds);
    } else if !AllStopped(s) {
      var w :| 0 <= w < |s.workers| && s.workers[w] != Stopped;
      WorkerCanStep(c, s, w);
    } else if s.walker == Walking {
      assert Enabled(c, s, SendFails);
    } else {
      assert Enabled(c, s, if s.orderer == Receiving then if s.done == [] then Close else Take else Finish(true, true));
    }
  }

  /** While a worker has not stopped, it, the one that holds the queue or the walker can go on. */
  lemma WorkerCanStep(c: Config, s: State, w: nat)
    requires Threads(c, s) && w < |s.workers| && s.workers[w] != Stopped
    requires s.walker == Walking ==> s.next < |c.parts|
    ensures exists step :: Enabled(c, s, step)
  {
    if s.workers[w] == Starting {
      assert Enabled(c, s, Start(w, true));
    } else if s.workers[w].Busy? {
      assert Enabled(c, s, Encode(w));
    } else if s.lock == None {
      assert Enabled(c, s, Lock(w));
    } else if s.jobs != [] {
      assert Enabled(c, s, Receive(s.lock.value));
    } else {
      assert Enabled(c, s, if s.walker == Walking then Send else NoMore(s.lock.value));
    }
  }

  function WorkerWork(worker: Worker): nat {
    match worker
    case Starting => 4
    case Idle => 3
    case Holding => 2
    case Busy(_) => 7
    case Stopped => 0
  }

  function WorkersWork(workers: seq<Worker>): nat {
    if workers == [] then 0 else WorkerWork(workers[0]) + WorkersWork(workers[1..])
  }

  /** What is left to do, weighed so that every step does some of it. */
  function Work(c: Config, s: State): nat
    requires s.next <= |c.parts|
  {
    7 * (|c.parts| - s.next) + 6 * |s.jobs| + WorkersWork(s.workers) + 3 * |s.done| + |s.early|
    + (if s.walker == Walking then 1 else 0)
    + (match s.orderer case Receiving => 1 case Draining => 2 case _ => 0)
    + (if s.outcome == Running then 1 else 0)
  }

  lemma {:induction false} WorkersWorkChanges(workers: seq<Worker>, w: nat, worker: Worker)
    requires w < |workers|
    ensures WorkersWork(workers[w := worker]) + WorkerWork(workers[w]) == WorkersWork(workers) + WorkerWork(worker)
    decreases |workers|
  {
    var after := workers[w := worker];
    if w == 0 {
      assert after[1..] == workers[1..];
    } else {
      assert after[1..] == workers[1..][w - 1 := worker];
      WorkersWorkChanges(workers[1..], w - 1, worker);
    }
  }

  lemma WorkerStepsEnd(c: Config, s: State, step: Step)
    requires s.next <= |c.parts| && Enabled(c, s, step)
    requires step.Start? || step.Lock? || step.Receive? || step.NoMore? || step.Encode?
    ensures Work(c, Do(c, s, step)) < Work(c, s)
  {
    hide WorkersWork;
    WorkersWorkChanges(s.workers, step.w, Do(c, s, step).workers[step.w]);
  }

  lemma OrdererStepsEnd(c: Config, s: State, step: Step)
    requires s.next <= |c.parts| && Enabled(c, s, step) && (step.Take? || step.Hand?)
    ensures Do(c, s, step).next <= |c.parts| && Work(c, Do(c, s, step)) < Work(c, s)
  {
    hide WorkersWork, AllStopped;
    if step.Hand? {
      EarlyLess(s.early, |s.entries|);
    } else if s.done[0].Made? {
      EarlyMore(s.early, s.done[0].number, s.done[0].part);
    }
  }

  lemma OtherStepsEnd(c: Config, s: State, step: Step)
    requires s.next <= |c.parts| && Enabled(c, s, step) && !step.Take? && !step.Hand?
    requires !step.Start? && !step.Lock? && !step.Receive? && !step.NoMore? && !step.Encode?
    ensures Do(c, s, step).next <= |c.parts| && Work(c, Do(c, s, step)) < Work(c, s)
  {
    hide WorkersWork, AllStopped;
  }

  /** Every step leaves less to do, so no run goes on forever. */
  lemma StepsEnd(c: Config, s: State, step: Step)
    requires s.next <= |c.parts| && Enabled(c, s, step)
    ensures Do(c, s, step).next <= |c.parts| && Work(c, Do(c, s, step)) < Work(c, s)
  {
    hide Work, AllStopped;
    if step.Start? || step.Lock? || step.Receive? || step.NoMore? || step.Encode? {
      WorkerStepsEnd(c, s, step);
    } else if step.Take? || step.Hand? {
      OrdererStepsEnd(c, s, step);
    } else {
      OtherStepsEnd(c, s, step);
    }
  }

  lemma EarlyMore(early: map<nat, Encoded>, number: nat, part: Encoded)
    ensures |early[number := part]| <= |early| + 1
  {
    assert early[number := part].Keys == early.Keys + {number};
    assert |early[number := part]| == |early[number := part].Keys| && |early| == |early.Keys|;
  }

  lemma EarlyLess(early: map<nat, Encoded>, number: nat)
    requires number in early
    ensures |early - {number}| < |early|
  {
    assert (early - {number}).Keys == early.Keys - {number};
    assert |early - {number}| == |(early - {number}).Keys| && |early| == |early.Keys|;
  }

  /** The first queue never holds more parts than there are threads, and a run is no longer than its work. */
  lemma RunsAreBounded(c: Config, states: seq<State>, steps: seq<Step>)
    requires c.threads > 0 && Run(c, states, steps)
    ensures |states[|steps|].jobs| <= c.threads
    ensures |steps| <= 7 * |c.parts| + 4 * c.threads + 3
  {
    InvAlways(c, states, steps);
    StepsLeft(c, states, steps);
    StartingWork(Init(c).workers);
  }

  lemma {:induction false} StartingWork(workers: seq<Worker>)
    requires forall w :: 0 <= w < |workers| ==> workers[w] == Starting
    ensures WorkersWork(workers) == 4 * |workers|
  {
    if workers != [] {
      StartingWork(workers[1..]);
    }
  }

  lemma {:induction false} StepsLeft(c: Config, states: seq<State>, steps: seq<Step>)
    requires c.threads > 0 && Run(c, states, steps)
    ensures states[|steps|].next <= |c.parts| && |steps| + Work(c, states[|steps|]) <= Work(c, Init(c))
    decreases |steps|
  {
    InvAlways(c, states, steps);
    if steps != [] {
      var n := |steps| - 1;
      InvAlways(c, states[..|steps|], steps[..n]);
      StepsLeft(c, states[..|steps|], steps[..n]);
      StepsEnd(c, states[n], steps[n]);
    }
  }

  // ----- nothing fails by itself

  // ----- no success after a fault

  /** A fault happens in this step: a thread, a part, the sink or the index fails. */
  ghost predicate Faulty(c: Config, s: State, step: Step) {
    match step
    case Start(_, ok) => !ok
    case Encode(w) => w < |s.workers| && s.workers[w].Busy? && s.workers[w].number < |c.parts| && c.parts[s.workers[w].number].None?
    case Hand(accepted) => !accepted
    case Finish(written, accepted) => !written || !accepted
    case _ => false
  }

  /** A failure is on its way to the outcome, or is the outcome. */
  ghost predicate Ruined(s: State) {
    || s.outcome.Failure?
    || (s.outcome == Running && (s.orderer.Broken? || (Listening(s) && HasLoss(s.done))))
  }

  /** The orderer is done only when no worker is left. */
  ghost predicate Orderly(s: State) {
    && (s.orderer == Finished ==> AllStopped(s))
    && (s.outcome != Running ==> !Listening(s) && AllStopped(s))
  }

  lemma OrderlyKept(c: Config, s: State, step: Step)
    requires Enabled(c, s, step) && Orderly(s)
    ensures Orderly(Do(c, s, step))
  {
  }

  lemma RuinStays(c: Config, s: State, step: Step)
    requires Enabled(c, s, step) && Orderly(s) && Ruined(s)
    ensures Ruined(Do(c, s, step))
  {
    var t := Do(c, s, step);
    if s.outcome == Running && Listening(s) && HasLoss(s.done) {
      if step == Take {
        if s.done[0].Made? {
          LossLater(s.done);
        }
      } else if step != Close {
        LossStays(s, t);
      }
    }
  }

  lemma FaultRuins(c: Config, s: State, step: Step)
    requires Enabled(c, s, step) && Orderly(s) && Faulty(c, s, step)
    ensures Ruined(Do(c, s, step))
  {
    var t := Do(c, s, step);
    if Listening(s) && (step.Start? || step.Encode?) {
      assert t.done[|s.done|].Lost?;
    }
  }

  lemma {:induction false} OrderlyAlways(c: Config, states: seq<State>, steps: seq<Step>, i: nat)
    requires Run(c, states, steps) && i <= |steps|
    ensures Orderly(states[i])
    decreases i
  {
    hide Do, Orderly;
    if i == 0 {
      StartsOrderly(c);
    } else {
      OrderlyAlways(c, states, steps, i - 1);
      OrderlyKept(c, states[i - 1], steps[i - 1]);
    }
  }

  lemma StartsOrderly(c: Config)
    ensures Orderly(Init(c))
  {
  }

  lemma {:induction false} RuinLasts(c: Config, states: seq<State>, steps: seq<Step>, i: nat, j: nat)
    requires Run(c, states, steps) && i < j <= |steps| && Faulty(c, states[i], steps[i])
    ensures Ruined(states[j])
    decreases j
  {
    hide Do, Faulty, Orderly, Ruined;
    OrderlyAlways(c, states, steps, j - 1);
    if i + 1 == j {
      FaultRuins(c, states[i], steps[i]);
    } else {
      RuinLasts(c, states, steps, i, j - 1);
      RuinStays(c, states[j - 1], steps[j - 1]);
    }
  }

  /**
   * Once an encoder could not be set up, a part could not be encoded, the sink refused a frame or the index was not
   * written, the whole never ends well.
   */
  lemma NoSuccessAfterAFault(c: Config, states: seq<State>, steps: seq<Step>, i: nat, j: nat)
    requires Run(c, states, steps) && i < j <= |steps| && Faulty(c, states[i], steps[i])
    ensures states[j].outcome != Success
  {
    hide Do, Run, Faulty;
    RuinLasts(c, states, steps, i, j);
  }

  /** What the sink has seen grows only by parts in turn, and by the index at the end of a whole that nothing broke. */
  lemma BrokenSeesNoMore(c: Config, s: State, step: Step)
    requires Enabled(c, s, step) && s.orderer.Broken?
    ensures Do(c, s, step).orderer == s.orderer && Do(c, s, step).seen == s.seen
  {
  }

  /** A sink that refused a frame is shown no other. */
  lemma {:induction false} NothingAfterARefusal(c: Config, states: seq<State>, steps: seq<Step>, i: nat, j: nat)
    requires Run(c, states, steps) && i < j <= |steps| && steps[i] == Hand(false)
    ensures states[j].seen == states[i + 1].seen && states[j].orderer == Broken(Sink)
    decreases j
  {
    if i + 1 < j {
      hide Do;
      NothingAfterARefusal(c, states, steps, i, j - 1);
      BrokenSeesNoMore(c, states[j - 1], steps[j - 1]);
    }
  }

  /** And every frame the sink was shown is one that it was asked about, in the step that showed it. */
  lemma SeenIsAsked(c: Config, s: State, step: Step)
    requires Enabled(c, s, step) && Do(c, s, step).seen != s.seen
    ensures |Do(c, s, step).seen| == |s.seen| + 1 && Do(c, s, step).seen[..|s.seen|] == s.seen
    ensures step.Hand? || step.Finish?
  {
  }

  predicate Unharmed(s: State) {
    && (forall i :: 0 <= i < |s.done| ==> s.done[i].Made?)
    && !s.orderer.Broken?
    && s.walker != Refused
    && !s.outcome.Failure?
  }

  lemma WalkGoesOn(c: Config, s: State)
    requires Inv(c, s) && Unharmed(s) && s.walker == Walking
    ensures !AllStopped(s)
  {
    assert s.workers[0] != Stopped;
  }

  lemma UnharmedStays(c: Config, s: State, step: Step)
    requires c.walkOk && Inv(c, s) && Unharmed(s) && Enabled(c, s, step) && !Faulty(c, s, step)
    ensures Unharmed(Do(c, s, step))
  {
    if step == Close {
      AllArrived(c, s);
    } else if step == SendFails {
      WalkGoesOn(c, s);
    } else {
      UnharmedOn(c, s, step);
    }
  }

  lemma UnharmedOn(c: Config, s: State, step: Step)
    requires c.walkOk && Inv(c, s) && Unharmed(s) && Enabled(c, s, step) && !Faulty(c, s, step)
    requires step != Close && step != SendFails
    ensures Unharmed(Do(c, s, step))
  {
    hide AllStopped;
  }

  /** If the walk succeeds and no step is a failure, no schedule makes the whole fail. */
  lemma {:induction false} NoScheduleFails(c: Config, states: seq<State>, steps: seq<Step>)
    requires c.threads > 0 && c.walkOk && Run(c, states, steps)
    requires forall i :: 0 <= i < |steps| ==> !Faulty(c, states[i], steps[i])
    ensures Unharmed(states[|steps|])
    decreases |steps|
  {
    hide Inv, Do, Faulty;
    if steps != [] {
      var n := |steps| - 1;
      InvAlways(c, states[..|steps|], steps[..n]);
      NoScheduleFails(c, states[..|steps|], steps[..n]);
      UnharmedStays(c, states[n], steps[n]);
    }
  }

  /**
   * Whatever the schedule, a run that cannot go on ended in success exactly if the walk succeeded and no step of the run
   * was a failure, and then the sink has seen everything.
   */
  lemma FaultlessRunsSucceed(c: Config, states: seq<State>, steps: seq<Step>)
    requires c.threads > 0 && Run(c, states, steps)
    requires forall step :: !Enabled(c, states[|steps|], step)
    ensures states[|steps|].outcome == Success <==> c.walkOk && forall i :: 0 <= i < |steps| ==> !Faulty(c, states[i], steps[i])
    ensures states[|steps|].outcome == Success ==> AllEncode(c)
    ensures states[|steps|].outcome == Success ==>
              states[|steps|].seen == Handed(c, |c.parts|) + [IndexFrame(EntriesOf(c, |c.parts|))]
  {
    hide Do, Faulty;
    InvAlways(c, states, steps);
    if states[|steps|].outcome == Running {
      SomeThreadCanStep(c, states[|steps|]);
    }
    if states[|steps|].outcome == Success {
      SuccessSeesAll(c, states, steps);
    } else if c.walkOk && forall i :: 0 <= i < |steps| ==> !Faulty(c, states[i], steps[i]) {
      NoScheduleFails(c, states, steps);
    }
  }

  // ----- the orderer's loop

  /** No number arrives twice. */
  ghost predicate Distinct(done: seq<Message>) {
    forall x: nat :: NumbersOf(done)[x] <= 1
  }

  predicate AllMade(done: seq<Message>) {
    forall i :: 0 <= i < |done| ==> done[i].Made?
  }

  /** A part that arrived under this number. */
  ghost predicate Arrived(done: seq<Message>, number: nat, part: Encoded) {
    exists i :: 0 <= i < |done| && done[i] == Made(number, part)
  }

  /** The frames are of the parts 0, 1, 2 and so on that arrived, and `entries` are theirs. */
  ghost predicate InTurn(done: seq<Message>, seen: seq<Frame>) {
    forall i :: 0 <= i < |seen| ==> seen[i].PartFrame? && seen[i].number == i && Arrived(done, i, seen[i].part)
  }

  predicate EntriesMatch(seen: seq<Frame>, entries: seq<nat>) {
    |entries| <= |seen| && forall i :: 0 <= i < |entries| ==> seen[i].PartFrame? && entries[i] == seen[i].part.entry
  }

  /** After `n` messages: what was handed out is in turn, and what came early is held back. */
  ghost predicate Ongoing(done: seq<Message>, n: nat, accepts: seq<Frame> -> bool, early: map<nat, Encoded>, seen: seq<Frame>, entries: seq<nat>) {
    && n <= |done|
    && |entries| == |seen| && EntriesMatch(seen, entries) && InTurn(done, seen)
    && (forall k :: 0 < k <= |seen| ==> accepts(seen[..k]))
    && (forall q <- early :: Arrived(done, q, early[q]))
    && (forall j :: 0 <= j < n ==> done[j].Made? && (done[j].number < |seen| || done[j].number in early))
    && (Distinct(done) ==> NumbersOf(done[..n]) == multiset(early.Keys) + UpTo(|seen|))
  }

  lemma OneArrives(done: seq<Message>, n: nat, accepts: seq<Frame> -> bool, early: map<nat, Encoded>, seen: seq<Frame>, entries: seq<nat>)
    requires Ongoing(done, n, accepts, early, seen, entries) && n < |done| && done[n].Made?
    ensures Ongoing(done, n + 1, accepts, early[done[n].number := done[n].part], seen, entries)
  {
    hide Distinct, NumbersOf, UpTo, InTurn, EntriesMatch;
    New(done, n, early, |seen|);
    assert Arrived(done, done[n].number, done[n].part);
  }

  /** The next part in turn is here: it is handed out, and kept in the count if the sink takes it. */
  lemma OneHanded(done: seq<Message>, n: nat, accepts: seq<Frame> -> bool, early: map<nat, Encoded>, seen: seq<Frame>, entries: seq<nat>)
    requires Ongoing(done, n, accepts, early, seen, entries) && |seen| in early
    ensures var k := |seen|;
            var more := seen + [PartFrame(k, early[k])];
            && InTurn(done, more) && EntriesMatch(more, entries)
            && (accepts(more) ==> Ongoing(done, n, accepts, early - {k}, more, entries + [early[k].entry]))
  {
    hide Distinct, NumbersOf, UpTo;
    var k := |seen|;
    var more := seen + [PartFrame(k, early[k])];
    KeysLess(early, k);
    OneMoreHanded(multiset((early - {k}).Keys), k);
    assert Arrived(done, k, early[k]);
    assert forall j :: 0 < j <= k ==> more[..j] == seen[..j];
    assert more[..k + 1] == more;
  }

  lemma NothingLeft(done: seq<Message>, accepts: seq<Frame> -> bool, early: map<nat, Encoded>, seen: seq<Frame>, entries: seq<nat>)
    requires Ongoing(done, |done|, accepts, early, seen, entries) && |seen| !in early
    ensures AllMade(done) && InTurn(done, seen) && EntriesMatch(seen, entries) && |entries| == |seen|
    ensures forall k :: 0 < k <= |seen| ==> accepts(seen[..k])
    ensures early == map[] && Distinct(done) ==> NumbersOf(done) == UpTo(|seen|)
    ensures !exists part :: Arrived(done, |seen|, part)
    ensures early != map[] ==> forall n :: NumbersOf(done) != UpTo(n)
  {
    hide Distinct, NumbersOf, UpTo, InTurn, EntriesMatch;
    forall n | NumbersOf(done) == UpTo(n)
      ensures early == map[]
    {
      CompleteArrives(done, n, accepts, early, seen, entries);
    }
    assert done[..|done|] == done;
    Sums(UpTo(|seen|), multiset{}, multiset{});
    Sums(multiset(early.Keys), UpTo(|seen|), multiset{});
  }

  /** If the numbers that arrived are 0 to some `n`, nothing is held back at the end. */
  lemma CompleteArrives(done: seq<Message>, n: nat, accepts: seq<Frame> -> bool, early: map<nat, Encoded>, seen: seq<Frame>, entries: seq<nat>)
    requires Ongoing(done, |done|, accepts, early, seen, entries) && |seen| !in early
    requires NumbersOf(done) == UpTo(n)
    ensures early == map[]
  {
    hide NumbersOf, UpTo, InTurn, EntriesMatch, Arrived;
    assert done[..|done|] == done;
    forall x: nat
      ensures UpTo(n)[x] == (if x < n then 1 else 0) && UpTo(|seen|)[x] == (if x < |seen| then 1 else 0)
    {
      UpToHolds(n, x);
      UpToHolds(|seen|, x);
    }
    assert Distinct(done);
    assert UpTo(n)[|seen|] == 0;
    forall q: nat
      ensures q !in early
    {
      assert UpTo(n)[q] == multiset(early.Keys)[q] + UpTo(|seen|)[q];
    }
  }

  lemma SoFar(done: seq<Message>, n: nat, accepts: seq<Frame> -> bool, early: map<nat, Encoded>, seen: seq<Frame>, entries: seq<nat>)
    requires Ongoing(done, n, accepts, early, seen, entries)
    ensures InTurn(done, seen) && EntriesMatch(seen, entries) && |entries| == |seen|
  {
  }

  /**
   * Gives the sink each part once all before it were given, whatever the order of arrival; `accepts` says whether
   * the sink takes the last of the frames it was given.
   */
  method HandOutInOrder(done: seq<Message>, accepts: seq<Frame> -> bool)
    returns (seen: seq<Frame>, entries: seq<nat>, failure: Option<Cause>)
    ensures InTurn(done, seen) && EntriesMatch(seen, entries)
    ensures failure.None? ==> AllMade(done) && |entries| == |seen| && (forall k :: 0 < k <= |seen| ==> accepts(seen[..k]))
    ensures failure.None? && Distinct(done) ==> NumbersOf(done) == UpTo(|seen|)
    ensures failure == Some(Sink) && AllMade(done) ==> seen != [] && !accepts(seen)
    ensures failure == Some(NeverArrived) && AllMade(done) ==>
              (!exists part :: Arrived(done, |seen|, part)) && forall n :: NumbersOf(done) != UpTo(n)
    ensures failure.Some? && AllMade(done) ==> failure == Some(Sink) || failure == Some(NeverArrived)
    ensures !AllMade(done) ==>
              exists i: nat :: FirstLost(done, i) &&
                (|| (failure == Some(Sink) && seen != [] && !accepts(seen))
                 || (failure == Some(done[i].cause) && forall k :: 0 < k <= |seen| ==> accepts(seen[..k])))
  {
    var early: map<nat, Encoded> := map[];
    seen, entries := [], [];
    NothingYet(done);
    assert Ongoing(done, 0, accepts, early, seen, entries);
    hide NumbersOf, UpTo, Distinct, Ongoing, InTurn, EntriesMatch, Arrived;
    for i := 0 to |done|
      invariant Ongoing(done, i, accepts, early, seen, entries) && |seen| !in early
    {
      SoFar(done, i, accepts, early, seen, entries);
      if done[i].Lost? {
        SoFarMade(done, i, accepts, early, seen, entries);
        assert FirstLost(done, i);
        return seen, entries, Some(done[i].cause);
      }
      OneArrives(done, i, accepts, early, seen, entries);
      early := early[done[i].number := done[i].part];
      while |entries| in early
        invariant Ongoing(done, i + 1, accepts, early, seen, entries) && |entries| == |seen|
        decreases |early|
      {
        var part := early[|entries|];
        OneHanded(done, i + 1, accepts, early, seen, entries);
        EarlyLess(early, |entries|);
        early := early - {|entries|};
        seen := seen + [PartFrame(|entries|, part)];
        if !accepts(seen) {
          LostSomewhere(done);
          return seen, entries, Some(Sink);
        }
        entries := entries + [part.entry];
        SoFar(done, i + 1, accepts, early, seen, entries);
      }
    }
    NothingLeft(done, accepts, early, seen, entries);
    failure := if early == map[] then None else Some(NeverArrived);
  }

  /** The first message that tells of an error. */
  ghost predicate FirstLost(done: seq<Message>, i: nat) {
    i < |done| && done[i].Lost? && AllMade(done[..i])
  }

  lemma LostSomewhere(done: seq<Message>)
    ensures !AllMade(done) ==> exists i: nat :: FirstLost(done, i)
  {
    var i := 0;
    while i < |done| && done[i].Made?
      invariant i <= |done| && AllMade(done[..i])
    {
      i := i + 1;
    }
    assert i < |done| ==> FirstLost(done, i);
    assert i == |done| ==> done[..i] == done;
  }

  lemma SoFarMade(done: seq<Message>, n: nat, accepts: seq<Frame> -> bool, early: map<nat, Encoded>, seen: seq<Frame>, entries: seq<nat>)
    requires Ongoing(done, n, accepts, early, seen, entries)
    ensures AllMade(done[..n]) && forall k :: 0 < k <= |seen| ==> accepts(seen[..k])
  {
  }

  lemma NothingYet(done: seq<Message>)
    ensures NumbersOf(done[..0]) == multiset{} && UpTo(0) == multiset{}
  {
  }

  lemma OneMoreHanded(early: multiset<nat>, k: nat)
    ensures early + multiset{k} + UpTo(k) == early + UpTo(k + 1)
  {
  }

  lemma {:induction false} NumbersPlus(a: seq<Message>, b: seq<Message>)
    ensures NumbersOf(a + b) == NumbersOf(a) + NumbersOf(b)
    decreases |a|
  {
    if a == [] {
      assert a + b == b;
    } else {
      assert (a + b)[1..] == a[1..] + b;
      NumbersPlus(a[1..], b);
    }
  }

  /** A part that arrives has not arrived before. */
  lemma New(done: seq<Message>, i: nat, early: map<nat, Encoded>, k: nat)
    requires i < |done| && done[i].Made?
    ensures Distinct(done) && NumbersOf(done[..i]) == multiset(early.Keys) + UpTo(k) ==>
              NumbersOf(done[..i + 1]) == multiset(early[done[i].number := done[i].part].Keys) + UpTo(k)
  {
    hide Distinct, NumbersOf, UpTo;
    assert done[..i + 1] == done[..i] + [done[i]];
    NumbersMore(done[..i], done[i]);
    if Distinct(done) && NumbersOf(done[..i]) == multiset(early.Keys) + UpTo(k) {
      FirstTime(done, i);
      assert multiset(early.Keys)[done[i].number] == 0;
      KeysMore(early, done[i].number, done[i].part);
      Later(multiset(early.Keys), UpTo(k), multiset{done[i].number});
    }
  }

  lemma Later(early: multiset<nat>, handed: multiset<nat>, added: multiset<nat>)
    ensures early + handed + added == early + added + handed
  {
  }

  /** A number that comes once was not there before. */
  lemma FirstTime(done: seq<Message>, i: nat)
    requires i < |done| && done[i].Made? && Distinct(done)
    ensures NumbersOf(done[..i])[done[i].number] == 0
  {
    hide NumbersOf;
    assert done[..i + 1] == done[..i] + [done[i]];
    NumbersMore(done[..i], done[i]);
    assert done == done[..i + 1] + done[i + 1..];
    NumbersPlus(done[..i + 1], done[i + 1..]);
    assert NumbersOf(done)[done[i].number] <= 1;
  }
}
