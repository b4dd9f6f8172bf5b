/**
 The prompt handoff between workers on the operations goroutine and the event loop: a mutex, a request
 channel that every action replaces, one reply channel a prompt, and the pointer to the reply somebody is
 parked on. The passphrase and the host-key prompts are two such machines; on the host-key side, arming a new
 action also rejects the confirm that is parked.
 */
module PassSession {
  import opened Wrappers

  datatype Reply = Given | Canceled

  /** A request channel of capacity one; a request is known by its reply channel. */
  datatype Chan = Chan(closed: bool, buf: seq<nat>)

  /** Where a worker is in promptErr. */
  datatype Worker =
    | Idle
    | Want(reply: nat)                // about to lock
    | Locked(reply: nat)
    | Publish(reply: nat, ch: nat)    // locked, about to store inflight
    | Sending(reply: nat, ch: nat)    // locked, about to send
    | Sent(reply: nat)                // locked, about to unlock
    | Parked(reply: nat)              // blocked on the reply
    | Leaving(result: Reply)          // about to run the deferred clear

  /** Where arm or close is. */
  datatype Driver =
    | Rest
    | Arming
    | Rejecting(parked: Option<nat>)  // about to send the rejection, if it fits
    | Rejected                        // about to swap the request channel
    | ArmSwapped(old': Option<nat>)   // locked, about to unlock
    | ArmUnlocked(old': Option<nat>)  // about to close the old channel
    | Closing
    | Latched                         // closed is set, about to swap inflight
    | Canceling(parked: Option<nat>)  // about to send the cancellation, if it fits
    | Retiring                        // about to swap the request channel
    | CloseSwapped(old': Option<nat>)
    | CloseUnlocked(old': Option<nat>)

  datatype Holder = ByWorker(i: nat) | ByDriver

  /** rejects: the host-key side. */
  datatype State = State(
    rejects: bool, workers: seq<Worker>, driver: Driver, lock: Option<Holder>,
    reqs: Option<nat>, chans: seq<Chan>, replies: seq<seq<Reply>>,
    inflight: Option<nat>, closed: bool, taken: set<nat>)

  datatype Move =
    | Call(i: nat) | Lock(i: nat) | Check(i: nat) | Store(i: nat) | Send(i: nat) | Unlock(i: nat)
    | Receive(i: nat) | Leave(i: nat)
    | Take(ch: nat) | Answer(reply: nat, answer: Reply)
    | StartArm | ArmInflight | Reject | ArmSwap | ArmUnlock | ArmClose
    | StartClose | Latch | SwapInflight | Cancel | SwapReqs | CloseUnlock | CloseOld

  function Idles(n: nat): seq<Worker> {
    seq(n, i => Idle)
  }

  /** A session with n goroutines that may prompt. */
  function Init(n: nat, rejects: bool): State {
    State(rejects, Idles(n), Rest, None, Some(0), [Chan(false, [])], [], None, false, {})
  }

  function At(s: State, i: nat): Worker {
    if i < |s.workers| then s.workers[i] else Idle
  }

  /** The moves that can happen; a send onto a closed channel would panic, onto a full one block. */
  predicate Enabled(s: State, m: Move) {
    match m
    case Call(i) => i < |s.workers| && s.workers[i].Idle?
    case Lock(i) => At(s, i).Want? && s.lock.None?
    case Check(i) => At(s, i).Locked?
    case Store(i) => At(s, i).Publish?
    case Send(i) => At(s, i).Sending? && At(s, i).ch < |s.chans| && !s.chans[At(s, i).ch].closed
      && s.chans[At(s, i).ch].buf == []
    case Unlock(i) => At(s, i).Sent?
    case Receive(i) => At(s, i).Parked? && At(s, i).reply < |s.replies| && s.replies[At(s, i).reply] != []
    case Leave(i) => At(s, i).Leaving?
    case Take(ch) => ch < |s.chans| && s.chans[ch].buf != []
    case Answer(reply, _) => reply in s.taken && reply < |s.replies| && s.replies[reply] == []
    case StartArm => s.driver.Rest? && s.lock.None?
    case ArmInflight => s.driver.Arming? && s.rejects
    case Reject => s.driver.Rejecting?
    case ArmSwap => if s.rejects then s.driver.Rejected? else s.driver.Arming?
    case ArmUnlock => s.driver.ArmSwapped?
    case ArmClose => s.driver.ArmUnlocked?
    case StartClose => s.driver.Rest? && s.lock.None?
    case Latch => s.driver.Closing?
    case SwapInflight => s.driver.Latched?
    case Cancel => s.driver.Canceling?
    case SwapReqs => s.driver.Retiring?
    case CloseUnlock => s.driver.CloseSwapped?
    case CloseOld => s.driver.CloseUnlocked?
  }

  function Put(s: State, i: nat, w: Worker): State {
    if i < |s.workers| then s.(workers := s.workers[i := w]) else s
  }

  function Shut(s: State, old': Option<nat>): State {
    if old'.Some? && old'.value < |s.chans|
      then s.(chans := s.chans[old'.value := s.chans[old'.value].(closed := true)]) else s
  }

  /** A reply put where somebody may be parked, if it fits. */
  function Told(s: State, parked: Option<nat>): seq<seq<Reply>> {
    if parked.Some? && parked.value < |s.replies| && s.replies[parked.value] == []
      then s.replies[parked.value := [Canceled]]
    else s.replies
  }

  function Do(s: State, m: Move): State
    requires Enabled(s, m)
  {
    match m
    case Call(i) => Put(s, i, Want(|s.replies|)).(replies := s.replies + [[]])
    case Lock(i) => Put(s, i, Locked(At(s, i).reply)).(lock := Some(ByWorker(i)))
    case Check(i) =>
      if s.closed || s.reqs.None? then Put(s, i, Leaving(Canceled)).(lock := None)
      else Put(s, i, Publish(At(s, i).reply, s.reqs.value))
    case Store(i) => Put(s, i, Sending(At(s, i).reply, At(s, i).ch)).(inflight := Some(At(s, i).reply))
    case Send(i) => Put(s, i, Sent(At(s, i).reply)).(chans := s.chans[At(s, i).ch := Chan(false, [At(s, i).reply])])
    case Unlock(i) => Put(s, i, Parked(At(s, i).reply)).(lock := None)
    case Receive(i) =>
      var r := At(s, i).reply;
      Put(s, i, Leaving(s.replies[r][0])).(replies := s.replies[r := s.replies[r][1..]])
    case Leave(i) => Put(s, i, Idle).(inflight := None)
    case Take(ch) => s.(taken := s.taken + {s.chans[ch].buf[0]},
                        chans := s.chans[ch := s.chans[ch].(buf := s.chans[ch].buf[1..])])
    case Answer(reply, answer) => s.(taken := s.taken - {reply}, replies := s.replies[reply := [answer]])
    case StartArm => s.(driver := Arming, lock := Some(ByDriver))
    case ArmInflight => s.(driver := Rejecting(s.inflight), inflight := None)
    case Reject => s.(driver := Rejected, replies := Told(s, s.driver.parked))
    case ArmSwap => s.(driver := ArmSwapped(s.reqs), reqs := Some(|s.chans|), chans := s.chans + [Chan(false, [])])
    case ArmUnlock => s.(driver := ArmUnlocked(s.driver.old'), lock := None)
    case ArmClose => Shut(s, s.driver.old').(driver := Rest)
    case StartClose => s.(driver := Closing, lock := Some(ByDriver))
    case Latch => s.(driver := Latched, closed := true)
    case SwapInflight => s.(driver := Canceling(s.inflight), inflight := None)
    case Cancel => s.(driver := Retiring, replies := Told(s, s.driver.parked))
    case SwapReqs => s.(driver := CloseSwapped(s.reqs), reqs := None)
    case CloseUnlock => s.(driver := CloseUnlocked(s.driver.old'), lock := None)
    case CloseOld => Shut(s, s.driver.old').(driver := Rest)
  }

  ghost predicate Run(s: State, ms: seq<Move>)
    decreases |ms|
  {
    ms == [] || (Enabled(s, ms[0]) && Run(Do(s, ms[0]), ms[1..]))
  }

  ghost function After(s: State, ms: seq<Move>): State
    requires Run(s, ms)
    decreases |ms|
  {
    if ms == [] then s else After(Do(s, ms[0]), ms[1..])
  }

  // ---- One worker ----

  /** Close has latched and the parked worker, if any, had its turn. */
  predicate Past(s: State) {
    s.closed && !s.driver.Latched? && !s.driver.Canceling?
  }

  predicate Busy(w: Worker) {
    w.Locked? || w.Publish? || w.Sending? || w.Sent?
  }

  predicate Driving(d: Driver) {
    !d.Rest? && !d.ArmUnlocked? && !d.CloseUnlocked?
  }

  /** The mutex is held by whoever is between its lock and its unlock. */
  predicate LockInv(s: State) {
    && |s.workers| <= 1
    && (s.lock == Some(ByWorker(0)) <==> Busy(At(s, 0)))
    && (s.lock == Some(ByDriver) <==> Driving(s.driver))
    && (s.driver.Rejecting? || s.driver.Rejected? ==> s.rejects)
    && (s.lock.Some? && s.lock.value.ByWorker? ==> s.lock.value.i == 0)
  }

  /** Close has latched and is on its way. */
  predicate InClose(d: Driver) {
    d.Latched? || d.Canceling? || d.Retiring? || d.CloseSwapped? || d.CloseUnlocked?
  }

  /** The channel in use is open, and one that is to be closed is not in use. */
  predicate ChanInv(s: State) {
    && (s.reqs.Some? ==> s.reqs.value < |s.chans| && !s.chans[s.reqs.value].closed)
    && (s.driver.ArmSwapped? || s.driver.ArmUnlocked? || s.driver.CloseSwapped? || s.driver.CloseUnlocked? ==>
          s.driver.old'.Some? ==> s.driver.old'.value < |s.chans| && s.reqs != s.driver.old')
    && (At(s, 0).Publish? || At(s, 0).Sending? ==> !s.closed && s.reqs == Some(At(s, 0).ch))
    && (At(s, 0).Sent? ==> !s.closed)
    && (InClose(s.driver) ==> s.closed)
  }

  predicate Fresh(w: Worker) {
    w.Want? || w.Locked? || w.Publish? || w.Sending?
  }

  /** The driver holds this reply and is about to answer it. */
  predicate Finds(d: Driver, reply: nat) {
    (d.Canceling? || d.Rejecting?) && d.parked == Some(reply)
  }

  /** The replies that are named anywhere exist, and a prompt not yet sent is known to nobody but its worker. */
  predicate NameInv(s: State) {
    var w := At(s, 0);
    && (forall r :: r in s.taken ==> r < |s.replies|)
    && (s.inflight.Some? ==> s.inflight.value < |s.replies|)
    && (s.driver.Canceling? || s.driver.Rejecting? ==>
          s.inflight.None? && (s.driver.parked.Some? ==> s.driver.parked.value < |s.replies|))
    && (Fresh(w) || w.Sent? || w.Parked? ==> w.reply < |s.replies|)
    && (Fresh(w) ==> s.replies[w.reply] == [] && w.reply !in s.taken)
    && (w.Want? || w.Locked? || w.Publish? ==> s.inflight != Some(w.reply) && !Finds(s.driver, w.reply))
    && (w.Sending? ==> s.inflight == Some(w.reply))
  }

  /**
   A request channel: at most one request, which nobody took yet. In the channel in use it is that of the worker that
   waits for its answer, unless the session is closed or the worker was just rejected.
   */
  predicate Held(s: State, c: nat)
    requires c < |s.chans|
  {
    s.chans[c].buf != [] ==>
      var r := s.chans[c].buf[0];
      && |s.chans[c].buf| == 1 && r < |s.replies| && r !in s.taken && !(Fresh(At(s, 0)) && At(s, 0).reply == r)
      && (s.reqs != Some(c) || s.closed || s.driver.Rejected?
          || ((At(s, 0).Sent? || At(s, 0).Parked?) && At(s, 0).reply == r && s.replies[r] == []))
  }

  /** So is every channel, and no request is in two of them. */
  ghost predicate BufInv(s: State) {
    && (forall c: nat :: c < |s.chans| ==> Held(s, c))
    && (forall c: nat, d: nat :: c < d < |s.chans| && s.chans[c].buf != [] && s.chans[d].buf != [] ==>
        s.chans[c].buf[0] != s.chans[d].buf[0])
  }

  /** A worker that waits without an answer is the one close will find, or has found. */
  predicate ParkInv(s: State) {
    var w := At(s, 0);
    && ((w.Sent? || w.Parked?) && w.reply < |s.replies| && s.replies[w.reply] == [] ==>
          s.inflight == Some(w.reply) || Finds(s.driver, w.reply))
    && (Past(s) || s.driver.Rejected? ==> s.inflight == None)
    && (Past(s) && w.Parked? ==> w.reply < |s.replies| && s.replies[w.reply] != [])
  }

  ghost predicate Inv(s: State) {
    LockInv(s) && ChanInv(s) && NameInv(s) && BufInv(s) && ParkInv(s)
  }

  lemma InitInv(n: nat, rejects: bool)
    requires n <= 1
    ensures Inv(Init(n, rejects))
  {
  }

  /** The worker's own moves. */
  predicate ByWorkerMove(m: Move) {
    m.Call? || m.Lock? || m.Check? || m.Store? || m.Send? || m.Unlock? || m.Receive? || m.Leave?
  }

  lemma WorkerKeepsLock(s: State, m: Move)
    requires LockInv(s) && Enabled(s, m) && ByWorkerMove(m)
    ensures LockInv(Do(s, m))
  {
  }

  lemma OtherKeepsLock(s: State, m: Move)
    requires LockInv(s) && Enabled(s, m) && !ByWorkerMove(m)
    ensures LockInv(Do(s, m))
  {
  }

  lemma KeepsLock(s: State, m: Move)
    requires LockInv(s) && Enabled(s, m)
    ensures LockInv(Do(s, m))
  {
    if ByWorkerMove(m) {
      WorkerKeepsLock(s, m);
    } else {
      OtherKeepsLock(s, m);
    }
  }

  lemma WorkerKeepsChan(s: State, m: Move)
    requires LockInv(s) && ChanInv(s) && Enabled(s, m) && ByWorkerMove(m)
    ensures ChanInv(Do(s, m))
  {
  }

  lemma OtherKeepsChan(s: State, m: Move)
    requires LockInv(s) && ChanInv(s) && Enabled(s, m) && !ByWorkerMove(m)
    ensures ChanInv(Do(s, m))
  {
  }

  lemma KeepsChan(s: State, m: Move)
    requires LockInv(s) && ChanInv(s) && Enabled(s, m)
    ensures ChanInv(Do(s, m))
  {
    if ByWorkerMove(m) {
      WorkerKeepsChan(s, m);
    } else {
      OtherKeepsChan(s, m);
    }
  }

  /** A worker's moves before its send. */
  predicate Enters(m: Move) {
    m.Call? || m.Lock? || m.Check? || m.Store?
  }

  lemma EnteringKeepsName(s: State, m: Move)
    requires LockInv(s) && ChanInv(s) && NameInv(s) && Enabled(s, m) && Enters(m)
    ensures NameInv(Do(s, m))
  {
  }

  lemma WorkerKeepsName(s: State, m: Move)
    requires LockInv(s) && ChanInv(s) && NameInv(s) && Enabled(s, m) && ByWorkerMove(m)
    ensures NameInv(Do(s, m))
  {
    if Enters(m) {
      EnteringKeepsName(s, m);
    }
  }

  lemma OtherKeepsName(s: State, m: Move)
    requires LockInv(s) && ChanInv(s) && NameInv(s) && BufInv(s) && Enabled(s, m) && !ByWorkerMove(m)
    ensures NameInv(Do(s, m))
  {
    if m.Take? {
      assert Held(s, m.ch);
    }
  }

  lemma KeepsName(s: State, m: Move)
    requires LockInv(s) && ChanInv(s) && NameInv(s) && BufInv(s) && Enabled(s, m)
    ensures NameInv(Do(s, m))
  {
    if ByWorkerMove(m) {
      WorkerKeepsName(s, m);
    } else {
      OtherKeepsName(s, m);
    }
  }

  lemma EnteringKeepsHeld(s: State, m: Move, c: nat)
    requires LockInv(s) && ChanInv(s) && NameInv(s) && BufInv(s) && Enabled(s, m) && c < |s.chans| && Enters(m)
    ensures Held(Do(s, m), c)
  {
    assert Held(s, c);
  }

  lemma WorkerKeepsHeld(s: State, m: Move, c: nat)
    requires LockInv(s) && ChanInv(s) && NameInv(s) && BufInv(s) && Enabled(s, m) && c < |s.chans| && ByWorkerMove(m)
    ensures Held(Do(s, m), c)
  {
    if Enters(m) {
      EnteringKeepsHeld(s, m, c);
    } else {
      assert Held(s, c);
    }
  }

  lemma OtherKeepsHeld(s: State, m: Move, c: nat)
    requires LockInv(s) && ChanInv(s) && NameInv(s) && BufInv(s) && Enabled(s, m) && c < |Do(s, m).chans|
             && !ByWorkerMove(m)
    ensures Held(Do(s, m), c)
  {
    if c < |s.chans| {
      assert Held(s, c);
      assert m.Take? ==> Held(s, m.ch);
    }
  }

  lemma KeepsHeld(s: State, m: Move, c: nat)
    requires LockInv(s) && ChanInv(s) && NameInv(s) && BufInv(s) && Enabled(s, m) && c < |Do(s, m).chans|
    ensures Held(Do(s, m), c)
  {
    if ByWorkerMove(m) {
      WorkerKeepsHeld(s, m, c);
    } else {
      OtherKeepsHeld(s, m, c);
    }
  }

  lemma WorkerKeepsApart(s: State, m: Move, c: nat, d: nat)
    requires LockInv(s) && ChanInv(s) && NameInv(s) && BufInv(s) && Enabled(s, m) && ByWorkerMove(m)
    requires var s' := Do(s, m); c < d < |s'.chans| && s'.chans[c].buf != [] && s'.chans[d].buf != []
    ensures Do(s, m).chans[c].buf[0] != Do(s, m).chans[d].buf[0]
  {
    assert d < |s.chans| ==> Held(s, c) && Held(s, d);
  }

  lemma OtherKeepsApart(s: State, m: Move, c: nat, d: nat)
    requires LockInv(s) && ChanInv(s) && NameInv(s) && BufInv(s) && Enabled(s, m) && !ByWorkerMove(m)
    requires var s' := Do(s, m); c < d < |s'.chans| && s'.chans[c].buf != [] && s'.chans[d].buf != []
    ensures Do(s, m).chans[c].buf[0] != Do(s, m).chans[d].buf[0]
  {
    assert d < |s.chans| ==> Held(s, c) && Held(s, d);
  }

  lemma KeepsApart(s: State, m: Move, c: nat, d: nat)
    requires LockInv(s) && ChanInv(s) && NameInv(s) && BufInv(s) && Enabled(s, m)
    requires var s' := Do(s, m); c < d < |s'.chans| && s'.chans[c].buf != [] && s'.chans[d].buf != []
    ensures Do(s, m).chans[c].buf[0] != Do(s, m).chans[d].buf[0]
  {
    if ByWorkerMove(m) {
      WorkerKeepsApart(s, m, c, d);
    } else {
      OtherKeepsApart(s, m, c, d);
    }
  }

  lemma WorkerKeepsPark(s: State, m: Move)
    requires Inv(s) && Enabled(s, m) && ByWorkerMove(m)
    ensures ParkInv(Do(s, m))
  {
  }

  lemma OtherKeepsPark(s: State, m: Move)
    requires Inv(s) && Enabled(s, m) && !ByWorkerMove(m)
    ensures ParkInv(Do(s, m))
  {
  }

  lemma KeepsPark(s: State, m: Move)
    requires Inv(s) && Enabled(s, m)
    ensures ParkInv(Do(s, m))
  {
    if ByWorkerMove(m) {
      WorkerKeepsPark(s, m);
    } else {
      OtherKeepsPark(s, m);
    }
  }

  lemma MoveKeepsInv(s: State, m: Move)
    requires Inv(s) && Enabled(s, m)
    ensures Inv(Do(s, m))
  {
    KeepsLock(s, m);
    KeepsChan(s, m);
    KeepsName(s, m);
    var s' := Do(s, m);
    forall c: nat | c < |s'.chans|
      ensures Held(s', c)
    {
      KeepsHeld(s, m, c);
    }
    forall c: nat, d: nat | c < d < |s'.chans| && s'.chans[c].buf != [] && s'.chans[d].buf != []
      ensures s'.chans[c].buf[0] != s'.chans[d].buf[0]
    {
      KeepsApart(s, m, c, d);
    }
    KeepsPark(s, m);
  }

  lemma {:induction false} RunKeepsInv(s: State, ms: seq<Move>)
    requires Inv(s) && Run(s, ms)
    ensures Inv(After(s, ms))
    decreases |ms|
  {
    if ms != [] {
      MoveKeepsInv(s, ms[0]);
      RunKeepsInv(Do(s, ms[0]), ms[1..]);
    }
  }

  // ---- Any number of workers: who is told what ----

  predicate Waiting(w: Worker) {
    Fresh(w) || w.Sent? || w.Parked?
  }

  /** The reply a waiting worker gets: what the event loop answered, and nothing but a cancellation without that. */
  predicate ToldBy(h: seq<Move>, r: nat, reply: seq<Reply>) {
    if Answer(r, Given) in h then reply == [Given] else reply == [] || reply == [Canceled]
  }

  /** A waiting worker's reply channel says what the moves h of the past say. */
  predicate Replied(s: State, h: seq<Move>, i: nat) {
    Waiting(At(s, i)) ==>
      At(s, i).reply < |s.replies| && ToldBy(h, At(s, i).reply, s.replies[At(s, i).reply])
  }

  /** It is its own. */
  predicate Own(s: State, i: nat, j: nat) {
    i < j && Waiting(At(s, i)) && Waiting(At(s, j)) ==> At(s, i).reply != At(s, j).reply
  }

  ghost predicate AllReplied(s: State, h: seq<Move>) {
    && (forall r: nat, a: Reply :: Answer(r, a) in h ==> r < |s.replies|)
    && (forall i: nat :: Replied(s, h, i))
    && (forall i: nat, j: nat :: Own(s, i, j))
  }

  /** Acceptance comes from the event loop only. */
  ghost predicate Accepted(s: State, h: seq<Move>) {
    && (forall r: nat :: r < |s.replies| && Given in s.replies[r] ==> Answer(r, Given) in h)
    && (forall i: nat :: i < |s.workers| && s.workers[i] == Leaving(Given) ==> exists r :: Answer(r, Given) in h)
  }

  ghost predicate Known(s: State, r: nat) {
    r in s.taken || exists c: nat :: c < |s.chans| && s.chans[c].buf == [r]
  }

  /** A request that was sent is in a channel, or with the event loop, until somebody replied. */
  ghost predicate Pending(s: State, i: nat) {
    (At(s, i).Sent? || At(s, i).Parked?) && At(s, i).reply < |s.replies| && s.replies[At(s, i).reply] == [] ==>
      Known(s, At(s, i).reply)
  }

  predicate Singles(s: State) {
    forall c: nat :: c < |s.chans| ==> |s.chans[c].buf| <= 1
  }

  /** The channel that the driver has taken out of use and not yet closed. */
  predicate Outgoing(d: Driver, c: nat) {
    (d.ArmSwapped? || d.ArmUnlocked? || d.CloseSwapped? || d.CloseUnlocked?) && d.old' == Some(c)
  }

  ghost predicate Retired(s: State) {
    forall c: nat :: c < |s.chans| ==> s.chans[c].closed || s.reqs == Some(c) || Outgoing(s.driver, c)
  }

  lemma WorkerKeepsReplied(s: State, h: seq<Move>, m: Move, i: nat)
    requires AllReplied(s, h) && Enabled(s, m) && ByWorkerMove(m)
    ensures Replied(Do(s, m), h + [m], i)
  {
    assert Replied(s, h, i);
    if m.Receive? {
      assert Replied(s, h, m.i) && Own(s, i, m.i) && Own(s, m.i, i);
    }
  }

  lemma OtherKeepsReplied(s: State, h: seq<Move>, m: Move, i: nat)
    requires AllReplied(s, h) && Enabled(s, m) && !ByWorkerMove(m)
    ensures Replied(Do(s, m), h + [m], i)
  {
    assert Replied(s, h, i);
    assert At(Do(s, m), i) == At(s, i);
    if Waiting(At(s, i)) {
      var r := At(s, i).reply;
      assert Answer(r, Given) in h + [m] <==> Answer(r, Given) in h || m == Answer(r, Given);
      assert m.Answer? ==> m.answer == Given || m.answer == Canceled;
    }
  }

  lemma KeepsOwn(s: State, h: seq<Move>, m: Move, i: nat, j: nat)
    requires AllReplied(s, h) && Enabled(s, m)
    ensures Own(Do(s, m), i, j)
  {
    assert Own(s, i, j) && Replied(s, h, i) && Replied(s, h, j);
    if !m.Call? {
      assert forall k: nat :: Waiting(At(Do(s, m), k)) ==> Waiting(At(s, k)) && At(Do(s, m), k).reply == At(s, k).reply;
    }
  }

  lemma KeepsReplied(s: State, h: seq<Move>, m: Move)
    requires AllReplied(s, h) && Enabled(s, m)
    ensures AllReplied(Do(s, m), h + [m])
  {
    forall i: nat
      ensures Replied(Do(s, m), h + [m], i)
    {
      if ByWorkerMove(m) {
        WorkerKeepsReplied(s, h, m, i);
      } else {
        OtherKeepsReplied(s, h, m, i);
      }
    }
    forall i: nat, j: nat
      ensures Own(Do(s, m), i, j)
    {
      KeepsOwn(s, h, m, i, j);
    }
  }

  lemma KeepsAccepted(s: State, h: seq<Move>, m: Move)
    requires Accepted(s, h) && Enabled(s, m)
    ensures Accepted(Do(s, m), h + [m])
  {
    var s', h' := Do(s, m), h + [m];
    forall i: nat | i < |s'.workers| && s'.workers[i] == Leaving(Given)
      ensures exists r :: Answer(r, Given) in h'
    {
      if s.workers[i] == Leaving(Given) {
        var r :| Answer(r, Given) in h;
        assert Answer(r, Given) in h';
      } else {
        assert m == Receive(i) && s.replies[s.workers[i].reply][0] == Given;
        assert Answer(s.workers[i].reply, Given) in h';
      }
    }
    forall r: nat | r < |s'.replies| && Given in s'.replies[r]
      ensures Answer(r, Given) in h'
    {
      assert m == Answer(r, Given) || (r < |s.replies| && Given in s.replies[r]);
    }
  }

  lemma KeepsSingles(s: State, m: Move)
    requires Singles(s) && Enabled(s, m)
    ensures Singles(Do(s, m))
  {
  }

  lemma StaysKnown(s: State, m: Move, r: nat)
    requires Known(s, r) && Singles(s) && Enabled(s, m) && (m.Answer? ==> m.reply != r)
    ensures Known(Do(s, m), r)
  {
    if r !in s.taken {
      var c: nat :| c < |s.chans| && s.chans[c].buf == [r];
      assert m == Take(c) || Do(s, m).chans[c].buf == [r];
    }
  }

  lemma KeepsPending(s: State, h: seq<Move>, m: Move, i: nat)
    requires Pending(s, i) && Singles(s) && AllReplied(s, h) && Enabled(s, m)
    ensures Pending(Do(s, m), i)
  {
    var s', w := Do(s, m), At(s, i);
    if m == Send(i) {
      assert s'.chans[w.ch].buf == [w.reply];
    } else if w.Sent? || w.Parked? {
      assert Replied(s, h, i) && (m.Receive? ==> Own(s, i, m.i) && Own(s, m.i, i));
      if s.replies[w.reply] == [] && !(m.Answer? && m.reply == w.reply) {
        StaysKnown(s, m, w.reply);
      }
    }
  }

  lemma WorkerKeepsRetired(s: State, m: Move)
    requires Retired(s) && Enabled(s, m) && ByWorkerMove(m)
    ensures Retired(Do(s, m))
  {
  }

  lemma OtherKeepsRetired(s: State, m: Move)
    requires Retired(s) && Enabled(s, m) && !ByWorkerMove(m)
    ensures Retired(Do(s, m))
  {
  }

  ghost predicate History(s: State, h: seq<Move>) {
    AllReplied(s, h) && Accepted(s, h) && Singles(s) && Retired(s) && forall i: nat :: Pending(s, i)
  }

  lemma {:induction false} RunKeepsHistory(s: State, h: seq<Move>, ms: seq<Move>)
    requires History(s, h) && Run(s, ms)
    ensures History(After(s, ms), h + ms)
    decreases |ms|
  {
    if ms == [] {
      assert h + ms == h;
    } else {
      KeepsReplied(s, h, ms[0]);
      KeepsSingles(s, ms[0]);
      KeepsAccepted(s, h, ms[0]);
      if ByWorkerMove(ms[0]) {
        WorkerKeepsRetired(s, ms[0]);
      } else {
        OtherKeepsRetired(s, ms[0]);
      }
      forall i: nat
        ensures Pending(Do(s, ms[0]), i)
      {
        KeepsPending(s, h, ms[0], i);
      }
      RunKeepsHistory(Do(s, ms[0]), h + [ms[0]], ms[1..]);
      assert h + [ms[0]] + ms[1..] == h + ms;
    }
  }

  lemma HistoryOf(n: nat, rejects: bool, ms: seq<Move>)
    requires Run(Init(n, rejects), ms)
    ensures History(After(Init(n, rejects), ms), ms)
  {
    RunKeepsHistory(Init(n, rejects), [], ms);
    assert [] + ms == ms;
  }

  /**
   What a parked worker receives, with any number of them: acceptance exactly if the event loop accepted its own
   request, and a cancellation otherwise.
   */
  lemma ReceivesAnswer(n: nat, rejects: bool, ms: seq<Move>, i: nat)
    requires Run(Init(n, rejects), ms)
    requires var s := After(Init(n, rejects), ms); At(s, i).Parked? && Enabled(s, Receive(i))
    ensures var s := After(Init(n, rejects), ms);
            At(Do(s, Receive(i)), i) == Leaving(if Answer(At(s, i).reply, Given) in ms then Given else Canceled)
  {
    HistoryOf(n, rejects, ms);
    assert Replied(After(Init(n, rejects), ms), ms, i);
  }

  /** Nobody is told of an acceptance that did not happen: close and arm never accept. */
  lemma NothingAcceptedUnasked(n: nat, rejects: bool, ms: seq<Move>)
    requires Run(Init(n, rejects), ms)
    ensures var s := After(Init(n, rejects), ms);
            && (forall r: nat :: r < |s.replies| && Given in s.replies[r] ==> Answer(r, Given) in ms)
            && (forall i: nat :: i < |s.workers| && s.workers[i] == Leaving(Given) ==>
                  exists r :: Answer(r, Given) in ms)
  {
    HistoryOf(n, rejects, ms);
  }

  /** These moves are possible, and the worker leaves with a. */
  ghost predicate LeavesWith(s: State, ms: seq<Move>, i: nat, a: Reply) {
    Run(s, ms) && At(After(s, ms), i) == Leaving(a)
  }

  /** A parked worker without a reply can be answered, and leaves with that answer. */
  lemma CanBeAnswered(n: nat, rejects: bool, ms: seq<Move>, i: nat, a: Reply) returns (more: seq<Move>)
    requires Run(Init(n, rejects), ms)
    requires var s := After(Init(n, rejects), ms); At(s, i).Parked? && !Enabled(s, Receive(i))
    ensures LeavesWith(After(Init(n, rejects), ms), more, i, a)
  {
    var s := After(Init(n, rejects), ms);
    HistoryOf(n, rejects, ms);
    assert Pending(s, i) && Replied(s, ms, i);
    var r := At(s, i).reply;
    if r in s.taken {
      Answered(s, i, a);
      more := [Answer(r, a), Receive(i)];
    } else {
      var c: nat :| c < |s.chans| && s.chans[c].buf == [r];
      Answered(Do(s, Take(c)), i, a);
      more := [Take(c), Answer(r, a), Receive(i)];
      assert more[1..] == [Answer(r, a), Receive(i)];
      assert LeavesWith(s, more, i, a);
    }
  }

  lemma Answered(s: State, i: nat, a: Reply)
    requires At(s, i).Parked? && At(s, i).reply in s.taken && At(s, i).reply < |s.replies|
    requires s.replies[At(s, i).reply] == []
    ensures var ms := [Answer(At(s, i).reply, a), Receive(i)]; LeavesWith(s, ms, i, a)
  {
    var ms := [Answer(At(s, i).reply, a), Receive(i)];
    assert ms[1..] == [Receive(i)] && [Receive(i)][1..] == [];
    var s1 := Do(s, ms[0]);
    assert Enabled(s1, Receive(i));
    assert Run(s1, [Receive(i)]);
    assert After(s1, [Receive(i)]) == Do(s1, Receive(i));
  }

  /** No reader is left behind: a channel that is out of use is closed once the driver rests. */
  lemma ReadersRetire(n: nat, rejects: bool, ms: seq<Move>, c: nat)
    requires Run(Init(n, rejects), ms)
    requires var s := After(Init(n, rejects), ms); s.driver.Rest? && c < |s.chans|
    ensures var s := After(Init(n, rejects), ms); s.chans[c].closed || s.reqs == Some(c)
  {
    HistoryOf(n, rejects, ms);
  }

  // ---- What that gives for one worker ----

  lemma SendReady(s: State)
    requires Inv(s) && At(s, 0).Sending?
    ensures Enabled(s, Send(0))
  {
    assert Held(s, At(s, 0).ch);
  }

  /**
   In every interleaving of at most one worker a send, which happens under the mutex, finds its channel open and
   empty.
   */
  lemma SendNeverBlocks(n: nat, rejects: bool, ms: seq<Move>, i: nat)
    requires n <= 1 && Run(Init(n, rejects), ms)
    ensures var s := After(Init(n, rejects), ms); At(s, i).Sending? ==> Enabled(s, Send(i))
  {
    InitInv(n, rejects);
    RunKeepsInv(Init(n, rejects), ms);
    var s := After(Init(n, rejects), ms);
    if At(s, i).Sending? {
      SendReady(s);
    }
  }

  /** A step of whoever holds the mutex. */
  predicate UnderLock(m: Move) {
    m.Check? || m.Store? || m.Send? || m.Unlock? || m.ArmInflight? || m.Reject? || m.ArmSwap? || m.ArmUnlock?
    || m.Latch? || m.SwapInflight? || m.Cancel? || m.SwapReqs? || m.CloseUnlock?
  }

  lemma HolderReady(s: State) returns (m: Move)
    requires Inv(s) && s.lock.Some?
    ensures Enabled(s, m) && UnderLock(m)
  {
    var w, d := At(s, 0), s.driver;
    if s.lock.value.ByWorker? {
      if w.Sending? {
        SendReady(s);
      }
      m := if w.Locked? then Check(0) else if w.Publish? then Store(0) else if w.Sending? then Send(0) else Unlock(0);
    } else {
      m := if d.Arming? then (if s.rejects then ArmInflight else ArmSwap)
           else if d.Rejecting? then Reject else if d.Rejected? then ArmSwap else if d.ArmSwapped? then ArmUnlock
           else if d.Closing? then Latch else if d.Latched? then SwapInflight
           else if d.Canceling? then Cancel else if d.Retiring? then SwapReqs else CloseUnlock;
    }
  }

  /** Somebody can take a step under the mutex. */
  ghost predicate GoesOn(s: State) {
    exists m :: Enabled(s, m) && UnderLock(m)
  }

  /** Whoever holds the mutex can go on: no step under it waits for anybody. */
  lemma LockedGoesOn(n: nat, rejects: bool, ms: seq<Move>)
    requires n <= 1 && Run(Init(n, rejects), ms)
    ensures var s := After(Init(n, rejects), ms); s.lock.Some? ==> GoesOn(s)
  {
    InitInv(n, rejects);
    RunKeepsInv(Init(n, rejects), ms);
    var s := After(Init(n, rejects), ms);
    if s.lock.Some? {
      var m := HolderReady(s);
    }
  }

  /**
   Once close has had its turn, a parked worker has its answer, a cancellation unless the event loop accepted, and no
   prompt comes to park.
   */
  lemma ClosedFreesWorker(n: nat, rejects: bool, ms: seq<Move>, i: nat)
    requires n <= 1 && Run(Init(n, rejects), ms) && Past(After(Init(n, rejects), ms))
    ensures var s := After(Init(n, rejects), ms);
            && (At(s, i).Parked? ==>
                  && Enabled(s, Receive(i))
                  && At(Do(s, Receive(i)), i)
                       == Leaving(if Answer(At(s, i).reply, Given) in ms then Given else Canceled))
            && !At(s, i).Publish? && !At(s, i).Sending? && !At(s, i).Sent?
            && (At(s, i).Locked? ==> At(Do(s, Check(i)), i) == Leaving(Canceled))
  {
    InitInv(n, rejects);
    RunKeepsInv(Init(n, rejects), ms);
    if At(After(Init(n, rejects), ms), i).Parked? {
      ReceivesAnswer(n, rejects, ms, i);
    }
  }

  /** So it is on the host-key side once arm has rejected. */
  lemma ArmedFreesWorker(n: nat, ms: seq<Move>, i: nat)
    requires n <= 1 && Run(Init(n, true), ms) && After(Init(n, true), ms).driver.Rejected?
    ensures var s := After(Init(n, true), ms);
            At(s, i).Parked? ==>
              && Enabled(s, Receive(i))
              && At(Do(s, Receive(i)), i)
                   == Leaving(if Answer(At(s, i).reply, Given) in ms then Given else Canceled)
  {
    InitInv(n, true);
    RunKeepsInv(Init(n, true), ms);
    if At(After(Init(n, true), ms), i).Parked? {
      ReceivesAnswer(n, true, ms, i);
    }
  }

  /** A prompt made after close has had its turn never parks, whatever else happens. */
  lemma {:induction false} LatePromptNeverParks(s: State, ms: seq<Move>)
    requires Inv(s) && s.closed
             && (At(s, 0).Idle? || At(s, 0).Want? || At(s, 0).Locked? || At(s, 0) == Leaving(Canceled)) && Run(s, ms)
    ensures var w := At(After(s, ms), 0); w.Idle? || w.Want? || w.Locked? || w == Leaving(Canceled)
    decreases |ms|
  {
    if ms != [] {
      MoveKeepsInv(s, ms[0]);
      LatePromptNeverParks(Do(s, ms[0]), ms[1..]);
    }
  }

  // ---- More than one worker ----

  lemma {:induction false} RunMore(s: State, ms: seq<Move>, m: Move)
    requires Run(s, ms) && Enabled(After(s, ms), m)
    ensures Run(s, ms + [m]) && After(s, ms + [m]) == Do(After(s, ms), m)
    decreases |ms|
  {
    if ms == [] {
      assert [] + [m] == [m];
      assert [m][1..] == [];
    } else {
      RunMore(Do(s, ms[0]), ms[1..], m);
      assert (ms + [m])[1..] == ms[1..] + [m];
    }
  }

  /** s is reached from this start. */
  ghost predicate Reachable(s0: State, s: State) {
    exists ms :: Run(s0, ms) && After(s0, ms) == s
  }

  lemma Reach(s0: State, s: State, m: Move)
    requires Reachable(s0, s) && Enabled(s, m)
    ensures Reachable(s0, Do(s, m))
  {
    var ms :| Run(s0, ms) && After(s0, ms) == s;
    RunMore(s0, ms, m);
  }

  /** A worker comes up to its send. */
  lemma ToSend(s0: State, s: State, i: nat) returns (s': State)
    requires Reachable(s0, s) && i < |s.workers| && s.workers[i].Idle? && s.lock.None? && s.reqs.Some? && !s.closed
    ensures Reachable(s0, s')
    ensures var r := |s.replies|;
            s' == s.(workers := s.workers[i := Sending(r, s.reqs.value)], lock := Some(ByWorker(i)),
                     replies := s.replies + [[]],
                     inflight := Some(r))
  {
    var r := |s.replies|;
    Reach(s0, s, Call(i));
    s' := Do(s, Call(i));
    Reach(s0, s', Lock(i));
    s' := Do(s', Lock(i));
    Reach(s0, s', Check(i));
    s' := Do(s', Check(i));
    Reach(s0, s', Store(i));
    s' := Do(s', Store(i));
    assert s'.workers == s.workers[i := Sending(r, s.reqs.value)];
  }

  /** It sends and parks. */
  lemma ToPark(s0: State, s: State, i: nat) returns (s': State)
    requires Reachable(s0, s) && i < |s.workers| && s.workers[i].Sending? && Enabled(s, Send(i))
    ensures Reachable(s0, s')
    ensures s' == s.(workers := s.workers[i := Parked(s.workers[i].reply)], lock := None,
                     chans := s.chans[s.workers[i].ch := Chan(false, [s.workers[i].reply])])
  {
    var r := s.workers[i].reply;
    Reach(s0, s, Send(i));
    s' := Do(s, Send(i));
    Reach(s0, s', Unlock(i));
    s' := Do(s', Unlock(i));
    assert s'.workers == s.workers[i := Parked(r)];
  }

  /** One prompt is parked and its request not taken. */
  lemma OneParked(n: nat, rejects: bool) returns (s: State)
    requires n >= 2
    ensures Reachable(Init(n, rejects), s)
    ensures s == State(rejects, Idles(n)[0 := Parked(0)], Rest, None, Some(0), [Chan(false, [0])], [[]], Some(0),
                       false, {})
  {
    var s0 := Init(n, rejects);
    assert Run(s0, []) && After(s0, []) == s0;
    s := ToSend(s0, s0, 0);
    s := ToPark(s0, s, 0);
    assert s.workers == Idles(n)[0 := Parked(0)];
  }

  /** Of two prompts at once the second send can find the channel full, under the mutex. */
  lemma TwoCanBlock(n: nat, rejects: bool) returns (s: State)
    requires n >= 2
    ensures Reachable(Init(n, rejects), s) && At(s, 1).Sending? && !Enabled(s, Send(1))
    ensures s.lock == Some(ByWorker(1)) && !GoesOn(s)
  {
    s := OneParked(n, rejects);
    s := ToSend(Init(n, rejects), s, 1);
  }

  /** Both are parked, and the first has its answer. */
  lemma BothParked(n: nat, rejects: bool) returns (s: State)
    requires n >= 2
    ensures Reachable(Init(n, rejects), s)
    ensures s == State(rejects, Idles(n)[0 := Parked(0)][1 := Parked(1)], Rest, None, Some(0), [Chan(false, [1])],
                       [[Given], []],
                       Some(1), false, {})
  {
    var s0 := Init(n, rejects);
    s := OneParked(n, rejects);
    Reach(s0, s, Take(0));
    s := Do(s, Take(0));
    s := ToSend(s0, s, 1);
    s := ToPark(s0, s, 1);
    Reach(s0, s, Answer(0, Given));
    s := Do(s, Answer(0, Given));
    assert s.workers == Idles(n)[0 := Parked(0)][1 := Parked(1)];
    assert s.taken == {};
  }

  /** A close that finds no reply published cancels nobody. */
  lemma CloseFindsNobody(s0: State, s: State) returns (s': State)
    requires Reachable(s0, s) && s.driver.Rest? && s.lock.None? && s.inflight.None? && s.reqs.Some?
    ensures Reachable(s0, s')
            && s' == s.(driver := CloseSwapped(s.reqs), lock := Some(ByDriver), closed := true, reqs := None)
  {
    Reach(s0, s, StartClose);
    s' := Do(s, StartClose);
    Reach(s0, s', Latch);
    s' := Do(s', Latch);
    Reach(s0, s', SwapInflight);
    s' := Do(s', SwapInflight);
    Reach(s0, s', Cancel);
    s' := Do(s', Cancel);
    Reach(s0, s', SwapReqs);
    s' := Do(s', SwapReqs);
  }

  /**
   The first one's deferred clear hides the second from close: it stays parked, without an answer, after close had its
   turn.
   */
  lemma TwoCanStrand(n: nat, rejects: bool) returns (s: State)
    requires n >= 2
    ensures Reachable(Init(n, rejects), s) && Past(s) && At(s, 1).Parked? && !Enabled(s, Receive(1))
  {
    s := OneHidden(n, rejects);
    s := CloseFindsNobody(Init(n, rejects), s);
  }

  lemma OneHidden(n: nat, rejects: bool) returns (s: State)
    requires n >= 2
    ensures Reachable(Init(n, rejects), s) && At(s, 1).Parked? && !Enabled(s, Receive(1)) && s.rejects == rejects
    ensures s.driver.Rest? && s.lock.None? && s.inflight.None? && s.reqs.Some?
  {
    var s0 := Init(n, rejects);
    s := BothParked(n, rejects);
    Reach(s0, s, Receive(0));
    s := Do(s, Receive(0));
    Reach(s0, s, Leave(0));
    s := Do(s, Leave(0));
  }

  /** It hides it from arm in the same way. */
  lemma TwoCanMiss(n: nat) returns (s: State)
    requires n >= 2
    ensures Reachable(Init(n, true), s) && s.driver.Rejected? && At(s, 1).Parked? && !Enabled(s, Receive(1))
  {
    var s0 := Init(n, true);
    s := OneHidden(n, true);
    Reach(s0, s, StartArm);
    s := Do(s, StartArm);
    Reach(s0, s, ArmInflight);
    s := Do(s, ArmInflight);
    Reach(s0, s, Reject);
    s := Do(s, Reject);
  }

  // ---- Exactly one prompt at a time ----

  ghost predicate SendsFree(n: nat, rejects: bool) {
    forall s, i: nat :: Reachable(Init(n, rejects), s) && At(s, i).Sending? ==> Enabled(s, Send(i))
  }

  ghost predicate LocksMove(n: nat, rejects: bool) {
    forall s :: Reachable(Init(n, rejects), s) && s.lock.Some? ==> GoesOn(s)
  }

  ghost predicate CloseFrees(n: nat, rejects: bool) {
    forall s, i: nat :: Reachable(Init(n, rejects), s) && Past(s) && At(s, i).Parked? ==> Enabled(s, Receive(i))
  }

  /** On either side, no send ever blocks exactly if at most one goroutine prompts at a time. */
  lemma SendsFreeIff(n: nat, rejects: bool)
    ensures SendsFree(n, rejects) <==> n <= 1
  {
    if n >= 2 {
      var s := TwoCanBlock(n, rejects);
    } else {
      forall s, i: nat | Reachable(Init(n, rejects), s) && At(s, i).Sending?
        ensures Enabled(s, Send(i))
      {
        var ms :| Run(Init(n, rejects), ms) && After(Init(n, rejects), ms) == s;
        SendNeverBlocks(n, rejects, ms, i);
      }
    }
  }

  /** Then, and only then, whoever holds the mutex can always go on. */
  lemma LocksMoveIff(n: nat, rejects: bool)
    ensures LocksMove(n, rejects) <==> n <= 1
  {
    if n >= 2 {
      var s := TwoCanBlock(n, rejects);
    } else {
      forall s | Reachable(Init(n, rejects), s) && s.lock.Some?
        ensures GoesOn(s)
      {
        var ms :| Run(Init(n, rejects), ms) && After(Init(n, rejects), ms) == s;
        LockedGoesOn(n, rejects, ms);
      }
    }
  }

  /** Then, and only then, close leaves nobody parked without an answer. */
  lemma CloseFreesIff(n: nat, rejects: bool)
    ensures CloseFrees(n, rejects) <==> n <= 1
  {
    if n >= 2 {
      var s := TwoCanStrand(n, rejects);
    } else {
      forall s, i: nat | Reachable(Init(n, rejects), s) && Past(s) && At(s, i).Parked?
        ensures Enabled(s, Receive(i))
      {
        var ms :| Run(Init(n, rejects), ms) && After(Init(n, rejects), ms) == s;
        ClosedFreesWorker(n, rejects, ms, i);
      }
    }
  }

  /** On the host-key side, once arm has rejected, nobody is parked without an answer. */
  ghost predicate ArmFrees(n: nat) {
    forall s, i: nat :: Reachable(Init(n, true), s) && s.driver.Rejected? && At(s, i).Parked? ==> Enabled(s, Receive(i))
  }

  /** Then, and only then, arm leaves no confirm of the last action parked. */
  lemma ArmFreesIff(n: nat)
    ensures ArmFrees(n) <==> n <= 1
  {
    if n >= 2 {
      var s := TwoCanMiss(n);
    } else {
      forall s, i: nat | Reachable(Init(n, true), s) && s.driver.Rejected? && At(s, i).Parked?
        ensures Enabled(s, Receive(i))
      {
        var ms :| Run(Init(n, true), ms) && After(Init(n, true), ms) == s;
        ArmedFreesWorker(n, ms, i);
      }
    }
  }
}
