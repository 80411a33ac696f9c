/**
 The modified sync.Once that decides who closes a client: any number of goroutines call CloseOnError or CloseOnDone,
 and a schedule interleaves their atomic steps in any way. An action that cannot be taken leaves the state alone.
 */
module Once {
  import opened Domain

  datatype Kind = OnError | OnDone

  // Where a caller is. The arguments of Unlocking and Returned say whether it may execute.
  datatype Pc =
    | Loading            // about to load done without the lock
    | Locking            // done was 0; about to take the lock
    | Checking           // holds the lock, about to look at done
    | Storing            // holds the lock, about to store 1
    | Unlocking(won: bool)
    | Posting            // runs f: CloseOnError starts the goroutine that posts Disconnected
    | Writing            // runs f: about to write the close frame
    | Returned(won: bool)

  datatype Caller = Caller(kind: Kind, pc: Pc)

  /** posting counts the goroutines that have yet to post; posted and frames, what the client did. */
  datatype Client = Client(
    done: bool, holder: Option<nat>, callers: map<nat, Caller>, posting: nat, posted: nat, frames: nat)

  datatype Action = Call(t: nat, kind: Kind) | Go(t: nat) | Deliver

  const FRESH := Client(false, None, map[], 0, 0, 0)

  function At(s: Client, t: nat, pc: Pc): Client
    requires t in s.callers
  {
    s.(callers := s.callers[t := s.callers[t].(pc := pc)])
  }

  predicate Enabled(s: Client, a: Action) {
    match a
    case Call(t, _) => t !in s.callers
    case Go(t) => t in s.callers && !s.callers[t].pc.Returned? && (s.callers[t].pc.Locking? ==> s.holder == None)
    case Deliver => s.posting > 0
  }

  /** The next atomic step of caller t. */
  function Advance(s: Client, t: nat): Client
    requires Enabled(s, Go(t))
  {
    match s.callers[t].pc
    case Loading => At(s, t, if s.done then Returned(false) else Locking)
    case Locking => At(s, t, Checking).(holder := Some(t))
    case Checking => At(s, t, if s.done then Unlocking(false) else Storing)
    case Storing => At(s, t, Unlocking(true)).(done := true)
    case Unlocking(won) => At(s, t, if won then Posting else Returned(false)).(holder := None)
    case Posting => At(s, t, Writing).(posting := s.posting + if s.callers[t].kind == OnError then 1 else 0)
    case Writing => At(s, t, Returned(true)).(frames := s.frames + 1)
  }

  function Next(s: Client, a: Action): Client {
    if !Enabled(s, a) then s
    else match a
      case Call(t, kind) => s.(callers := s.callers[t := Caller(kind, Loading)])
      case Go(t) => Advance(s, t)
      case Deliver => s.(posting := s.posting - 1, posted := s.posted + 1)
  }

  function Run(schedule: seq<Action>): Client {
    if schedule == [] then FRESH
    else Next(Run(schedule[..|schedule| - 1]), schedule[|schedule| - 1])
  }

  // ---------- the invariant ----------

  predicate InSection(pc: Pc) {
    pc.Checking? || pc.Storing? || pc.Unlocking?
  }

  /** mayExecute returned, or will return, true. */
  predicate Won(pc: Pc) {
    pc == Unlocking(true) || pc.Posting? || pc.Writing? || pc == Returned(true)
  }

  predicate Lost(pc: Pc) {
    pc == Unlocking(false) || pc == Returned(false)
  }

  /** What the winner has done so far: posts started, and frames. */
  function Posts(c: Caller): nat {
    if c.kind == OnError && (c.pc.Writing? || c.pc == Returned(true)) then 1 else 0
  }

  function Frames(c: Caller): nat {
    if c.pc == Returned(true) then 1 else 0
  }

  ghost predicate Mutex(s: Client) {
    && (s.holder.Some? ==> s.holder.value in s.callers && InSection(s.callers[s.holder.value].pc))
    && (forall t | t in s.callers && InSection(s.callers[t].pc) :: s.holder == Some(t))
  }

  /** winner is the one caller that may execute, if there is one yet. */
  ghost predicate Decided(s: Client, winner: Option<nat>) {
    && s.done == winner.Some?
    && (winner.Some? ==> winner.value in s.callers && Won(s.callers[winner.value].pc))
    && (forall t | t in s.callers && Won(s.callers[t].pc) :: winner == Some(t))
    && (forall t | t in s.callers && Lost(s.callers[t].pc) :: s.done)
    && (forall t | t in s.callers && s.callers[t].pc.Storing? :: !s.done)
    && s.posting + s.posted == (if winner.Some? then Posts(s.callers[winner.value]) else 0)
    && s.frames == (if winner.Some? then Frames(s.callers[winner.value]) else 0)
  }

  lemma MutexKept(s: Client, a: Action)
    requires Mutex(s)
    ensures Mutex(Next(s, a))
  {
  }

  /** A caller that stores 1 becomes the winner. */
  function NextWinner(s: Client, a: Action, winner: Option<nat>): Option<nat> {
    if Enabled(s, a) && a.Go? && s.callers[a.t].pc.Storing? then Some(a.t) else winner
  }

  /** Steps that win or lose nothing. */
  lemma DecidedPassing(s: Client, t: nat, winner: Option<nat>)
    requires Mutex(s) && Decided(s, winner) && Enabled(s, Go(t)) && !s.callers[t].pc.Storing? && !Won(s.callers[t].pc)
    ensures Decided(Advance(s, t), winner)
  {
    var s', pc := Advance(s, t), Advance(s, t).callers[t].pc;
    assert s' == At(s, t, pc).(holder := s'.holder);
    assert !Won(pc) && (Lost(pc) || pc.Storing? ==> Lost(pc) == s.done);
    assert winner.Some? ==> s'.callers[winner.value] == s.callers[winner.value];
  }

  /** The store: nobody has won before, because the lock is held and done is still 0. */
  lemma DecidedStore(s: Client, t: nat, winner: Option<nat>)
    requires Mutex(s) && Decided(s, winner) && Enabled(s, Go(t)) && s.callers[t].pc.Storing?
    ensures Decided(Advance(s, t), Some(t))
  {
    var s' := Advance(s, t);
    forall u | u in s'.callers && u != t ensures !s'.callers[u].pc.Storing? && !Won(s'.callers[u].pc) {
      assert s'.callers[u] == s.callers[u];
    }
  }

  /** The winner's own steps. */
  lemma DecidedWinner(s: Client, t: nat, winner: Option<nat>)
    requires Mutex(s) && Decided(s, winner) && Enabled(s, Go(t)) && Won(s.callers[t].pc)
    ensures Decided(Advance(s, t), winner)
  {
    var s' := Advance(s, t);
    forall u | u in s'.callers && u != t ensures s'.callers[u] == s.callers[u] {
    }
  }

  lemma {:induction false} DecidedKept(s: Client, a: Action, winner: Option<nat>)
    requires Mutex(s) && Decided(s, winner)
    ensures Decided(Next(s, a), NextWinner(s, a, winner))
  {
    if Enabled(s, a) {
      match a
      case Call(t, kind) =>
        var s' := Next(s, a);
        forall u | u in s'.callers && u != t ensures s'.callers[u] == s.callers[u] {
        }
      case Deliver =>
      case Go(t) =>
        if s.callers[t].pc.Storing? {
          DecidedStore(s, t, winner);
        } else if Won(s.callers[t].pc) {
          DecidedWinner(s, t, winner);
        } else {
          DecidedPassing(s, t, winner);
        }
    }
  }

  lemma {:induction false} RunDecided(schedule: seq<Action>) returns (winner: Option<nat>)
    ensures Mutex(Run(schedule)) && Decided(Run(schedule), winner)
  {
    if schedule == [] {
      winner := None;
    } else {
      var n := |schedule| - 1;
      var before := RunDecided(schedule[..n]);
      MutexKept(Run(schedule[..n]), schedule[n]);
      DecidedKept(Run(schedule[..n]), schedule[n], before);
      winner := NextWinner(Run(schedule[..n]), schedule[n], before);
    }
  }

  // ---------- what every schedule keeps ----------

  /** Once done is 1 exactly one caller wins, and before that none does. */
  lemma ExactlyOneWinner(schedule: seq<Action>)
    ensures var s := Run(schedule);
      && (s.done <==> exists t :: t in s.callers && Won(s.callers[t].pc))
      && forall t, u | t in s.callers && u in s.callers && Won(s.callers[t].pc) && Won(s.callers[u].pc) :: t == u
  {
    var winner := RunDecided(schedule);
  }

  /** A client posts at most one Disconnected and writes at most one close frame, whoever calls what and when. */
  lemma AtMostOneClose(schedule: seq<Action>)
    ensures var s := Run(schedule);
      && s.posting + s.posted <= 1 && s.frames <= 1
      && (s.posting + s.posted == 1 ==>
            exists t :: t in s.callers && s.callers[t].kind == OnError && Won(s.callers[t].pc))
  {
    var winner := RunDecided(schedule);
  }

  predicate AllReturned(s: Client) {
    forall t | t in s.callers :: s.callers[t].pc.Returned?
  }

  /**
   When everybody is back and the posting goroutine ran, one frame is out, and one post if the winner
   had an error.
   */
  lemma OnceEverybodyIsBack(schedule: seq<Action>)
    requires Run(schedule).callers != map[] && AllReturned(Run(schedule)) && Run(schedule).posting == 0
    ensures var s := Run(schedule);
      && s.frames == 1
      && exists t ::
           t in s.callers && s.callers[t].pc == Returned(true) &&
           s.posted == (if s.callers[t].kind == OnError then 1 else 0)
  {
    var s := Run(schedule);
    var winner := RunDecided(schedule);
    var t :| t in s.callers;
    assert s.callers[t].pc == Returned(true) || Lost(s.callers[t].pc);
  }

  /** f runs outside the lock, so no schedule gets stuck: while a caller is inside Do, some caller can go on. */
  lemma NobodyIsStuck(schedule: seq<Action>)
    requires !AllReturned(Run(schedule))
    ensures exists t :: Enabled(Run(schedule), Go(t))
  {
    var s := Run(schedule);
    var winner := RunDecided(schedule);
    var t :| t in s.callers && !s.callers[t].pc.Returned?;
    if s.holder.Some? {
      assert Enabled(s, Go(s.holder.value));
    } else {
      assert Enabled(s, Go(t));
    }
  }

  lemma RunNext(schedule: seq<Action>, a: Action)
    ensures Run(schedule + [a]) == Next(Run(schedule), a)
  {
    assert (schedule + [a])[..|schedule|] == schedule;
  }

  /** Was told to execute and has not come back from f. */
  predicate Closing(pc: Pc) {
    Won(pc) && !pc.Returned?
  }

  /**
   Unlike sync.Once, a losing caller does not wait for f. Whatever the schedule, one that now leaves does so before the
   connection is closed exactly if the winner is still on its way through f.
   */
  lemma LeavesEarlyExactly(schedule: seq<Action>, t: nat)
    requires Enabled(Run(schedule), Go(t)) && Next(Run(schedule), Go(t)).callers[t].pc == Returned(false)
    ensures var s := Run(schedule);
      && (s.frames == 0 <==> exists w :: w in s.callers && Closing(s.callers[w].pc))
      && (s.frames == 1 <==> exists w :: w in s.callers && s.callers[w].pc == Returned(true))
  {
    var s := Run(schedule);
    var winner := RunDecided(schedule);
    assert s.callers[t].pc.Loading? || s.callers[t].pc == Unlocking(false);
    assert winner.Some?;
    assert s.callers[winner.value].pc == Returned(true) || Closing(s.callers[winner.value].pc);
  }

  /** A winner that is back stays back. */
  lemma {:induction false} BackForGood(schedule: seq<Action>, more: seq<Action>, w: nat)
    requires w in Run(schedule).callers && Run(schedule).callers[w].pc == Returned(true)
    ensures w in Run(schedule + more).callers && Run(schedule + more).callers[w].pc == Returned(true)
  {
    if more == [] {
      assert schedule + more == schedule;
    } else {
      var n := |more| - 1;
      BackForGood(schedule, more[..n], w);
      RunNext(schedule + more[..n], more[n]);
      assert schedule + more == schedule + more[..n] + [more[n]];
    }
  }

  lemma {:induction false} CallerStays(schedule: seq<Action>, more: seq<Action>, t: nat)
    requires t in Run(schedule).callers
    ensures t in Run(schedule + more).callers
  {
    if more == [] {
      assert schedule + more == schedule;
    } else {
      var n := |more| - 1;
      CallerStays(schedule, more[..n], t);
      RunNext(schedule + more[..n], more[n]);
      assert schedule + more == schedule + more[..n] + [more[n]];
    }
  }

  /** Whoever calls after the winner is back never executes, and finds the connection closed all the while. */
  lemma LateCallerFindsItClosed(schedule: seq<Action>, w: nat, t: nat, kind: Kind, more: seq<Action>)
    requires w in Run(schedule).callers && Run(schedule).callers[w].pc == Returned(true) && t !in Run(schedule).callers
    ensures var s := Run(schedule + [Call(t, kind)] + more);
      t in s.callers && !Won(s.callers[t].pc) && s.frames == 1
  {
    var s := Run(schedule + [Call(t, kind)] + more);
    RunNext(schedule, Call(t, kind));
    CallerStays(schedule + [Call(t, kind)], more, t);
    BackForGood(schedule + [Call(t, kind)], more, w);
    var winner := RunDecided(schedule + [Call(t, kind)] + more);
    assert winner == Some(w) && Won(s.callers[w].pc);
  }

  /** Such an early leave does happen. */
  lemma LoserMayReturnFirst()
    ensures var s := Run([Call(0, OnError), Go(0), Go(0), Go(0), Go(0)] + [Call(1, OnDone)] + [Go(1)]);
      1 in s.callers && s.callers[1].pc == Returned(false) && s.done && s.posting == s.posted == s.frames == 0
  {
    var schedule := [];
    var acts := [Call(0, OnError), Go(0), Go(0), Go(0), Go(0)];
    for n := 0 to 5
      invariant schedule == acts[..n]
      invariant n > 0 ==> Run(schedule) == Client(n == 5, if n < 3 then None else Some(0), map[0 := Caller(OnError,
        if n == 1 then Loading else if n == 2 then Locking else if n == 3 then Checking
        else if n == 4 then Storing else Unlocking(true))],
        0, 0, 0)
    {
      RunNext(schedule, acts[n]);
      schedule := schedule + [acts[n]];
    }
    assert schedule == acts;
    RunNext(schedule, Call(1, OnDone));
    RunNext(schedule + [Call(1, OnDone)], Go(1));
  }
}
