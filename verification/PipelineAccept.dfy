/** The accept loop: when it takes a connection on, when it ends, and how a slot becomes free again. */
module PipelineAccept {
  import opened Wrappers
  import opened Events
  import opened Frame
  import opened Pipeline
  import opened PipelineSafety
  import opened PipelineRuns
  import opened PipelineTheorems
  import opened PipelineLiveness
  import opened PipelineShutdown
  import opened PipelineReach
  import opened ServerSolo
  import Sequences

  /** The steps of the accept loop. */
  predicate AcceptStep(a: Action)
  {
    a.Accept? || a.AcceptFail? || a.Acquire? || a.Reject?
  }

  /** The accept loop, taking every step, leads from s to z. */
  ghost predicate AcceptsTo(cfg: Config, s: State, z: State)
  {
    exists acts: seq<Action> :: (forall a <- acts :: AcceptStep(a)) && Run(cfg, s, acts) == Some(z)
  }

  lemma AcceptsNothing(cfg: Config, s: State)
    ensures AcceptsTo(cfg, s, s)
  {
    assert Run(cfg, s, []) == Some(s);
  }

  lemma AcceptsOn(cfg: Config, s: State, m: State, a: Action, z: State)
    requires AcceptsTo(cfg, s, m) && AcceptStep(a) && Goes(cfg, m, a, z)
    ensures AcceptsTo(cfg, s, z)
  {
    var acts: seq<Action> :| (forall b <- acts :: AcceptStep(b)) && Run(cfg, s, acts) == Some(m);
    OneStep(cfg, s, acts, a);
    assert forall b <- acts + [a] :: AcceptStep(b);
  }

  // --------------------------------------------------------- when it ends

  lemma {:induction false} EndedRun(cfg: Config, s: State, acts: seq<Action>)
    requires (s.net.acceptor.Ended? ==> s.cancelled) && Run(cfg, s, acts).Some?
    ensures var z := Run(cfg, s, acts).value; z.net.acceptor.Ended? ==> z.cancelled
  {
    if acts != [] {
      var m, a := Run(cfg, s, acts[..|acts| - 1]).value, acts[|acts| - 1];
      EndedRun(cfg, s, acts[..|acts| - 1]);
      if NetEnabled(cfg, m, a) {
        NetLeaves(cfg, m, a);
        EndedStep(cfg, m, a);
      } else if WorkEnabled(cfg, m, a) {
        WorkLeaves(cfg, m, a);
      }
    }
  }

  lemma EndedStep(cfg: Config, s: State, a: Action)
    requires NetEnabled(cfg, s, a)
    ensures NextNet(cfg, s, a).net.acceptor.Ended? ==> s.net.acceptor.Ended? || s.cancelled
  {
  }

  /** The accept loop has ended only if the context was cancelled: no failed accept and no rejection ends it. */
  lemma EndsOnlyOnCancel(cfg: Config, initial: Batch, acts: seq<Action>, s: State)
    requires Reaches(cfg, initial, acts, s)
    ensures s.net.acceptor.Ended? ==> s.cancelled
  {
    EndedRun(cfg, Init(cfg, initial), acts);
  }

  /** Failing to accept goes round again, or ends the loop if the context was cancelled. */
  lemma FailsToAccept(cfg: Config, s: State)
    requires s.net.acceptor.Accepting? && Alive(s)
    ensures Enabled(cfg, s, AcceptFail)
    ensures Next(cfg, s, AcceptFail) == if s.cancelled then s.(net := s.net.(acceptor := Ended)) else s
  {
  }

  /** Turning a client away goes round again and changes nothing else. */
  lemma Rejects(cfg: Config, s: State)
    requires s.net.acceptor.Accepted? && s.net.tokens >= cfg.maxConns && Alive(s)
    ensures Goes(cfg, s, Reject, s.(net := s.net.(acceptor := Accepting)))
  {
  }

  /** With a slot free, the connection just accepted gets it and a handler of its own. */
  lemma TakesOn(cfg: Config, s: State)
    requires s.net.acceptor.Accepted? && s.net.tokens < cfg.maxConns && Alive(s)
    ensures var handlers := s.net.handlers + [Handler(Spawned, [], [], [])];
            var net := s.net.(handlers := handlers, acceptor := Accepting, tokens := s.net.tokens + 1);
            Goes(cfg, s, Acquire, s.(net := net))
  {
  }

  // ------------------------------------------------- when it takes one on

  /** A client is waiting or may come, and a slot is free. */
  predicate CanTakeOn(cfg: Config, s: State)
  {
    s.net.tokens < cfg.maxConns && (s.net.acceptor.Accepted? || (s.net.acceptor.Accepting? && s.listening))
  }

  ghost predicate TakesOneOn(cfg: Config, s: State)
  {
    exists z :: AcceptsTo(cfg, s, z) && |z.net.handlers| > |s.net.handlers|
  }

  /** What stays as it is while no connection can be taken on. */
  lemma {:induction false} NoneTaken(cfg: Config, s: State, acts: seq<Action>)
    requires !CanTakeOn(cfg, s) && (forall a <- acts :: AcceptStep(a)) && Run(cfg, s, acts).Some?
    ensures var z := Run(cfg, s, acts).value; !CanTakeOn(cfg, z) && z.net.handlers == s.net.handlers
  {
    if acts != [] {
      var m, a := Run(cfg, s, acts[..|acts| - 1]).value, acts[|acts| - 1];
      NoneTaken(cfg, s, acts[..|acts| - 1]);
      assert AcceptStep(a);
      NoneTakenStep(cfg, m, a);
    }
  }

  lemma NoneTakenStep(cfg: Config, s: State, a: Action)
    requires !CanTakeOn(cfg, s) && AcceptStep(a) && Enabled(cfg, s, a)
    ensures !CanTakeOn(cfg, Next(cfg, s, a)) && Next(cfg, s, a).net.handlers == s.net.handlers
  {
  }

  /**
   The accept loop on its own can take another connection on exactly if a slot is free and a client has been accepted or
   the listener is open: in particular after any number of rejections, as soon as a slot is free again.
   */
  lemma TakesOneOnIff(cfg: Config, s: State)
    requires Alive(s)
    ensures TakesOneOn(cfg, s) <==> CanTakeOn(cfg, s)
  {
    if CanTakeOn(cfg, s) {
      AcceptsNothing(cfg, s);
      var m := s.(net := s.net.(acceptor := Accepted));
      if s.net.acceptor.Accepting? {
        Accepts(cfg, s);
        AcceptsOn(cfg, s, s, Accept, m);
      }
      assert m == s || s.net.acceptor.Accepting?;
      TakesOn(cfg, m);
      AcceptsOn(cfg, s, m, Acquire, Next(cfg, m, Acquire));
    } else {
      forall z | AcceptsTo(cfg, s, z) ensures |z.net.handlers| <= |s.net.handlers| {
        var acts: seq<Action> :| (forall a <- acts :: AcceptStep(a)) && Run(cfg, s, acts) == Some(z);
        NoneTaken(cfg, s, acts);
      }
    }
  }

  /** While the server listens, a client that comes is taken on exactly if a slot is free. */
  lemma ListeningMeansOpen(cfg: Config, initial: Batch, acts: seq<Action>, s: State)
    requires Reaches(cfg, initial, acts, s) && Alive(s) && s.listening
    ensures TakesOneOn(cfg, s) <==> s.net.tokens < cfg.maxConns
  {
    ReachedInv(cfg, initial, acts, s);
    ListenRun(cfg, Init(cfg, initial), acts);
    EndsOnlyOnCancel(cfg, initial, acts, s);
    TakesOneOnIff(cfg, s);
  }

  // ----------------------------------------------------- how a slot is freed

  /** Handler c at pc, with these values of the gauge and the semaphore. */
  function Away(s: State, c: nat, pc: HandlerPc, active: int, tokens: nat): State
    requires c < |s.net.handlers|
  {
    s.(net := MoveHandler(s.net, c, pc).(active := active, tokens := tokens))
  }

  lemma AwayTwice(s: State, c: nat, pc: HandlerPc, pc': HandlerPc, a: int, a': int, t: nat, t': nat)
    requires c < |s.net.handlers|
    ensures Away(Away(s, c, pc, a, t), c, pc', a', t') == Away(s, c, pc', a', t')
    ensures Away(s, c, pc, a, t).net.handlers[c].pc == pc
  {
    var h := s.net.handlers[c];
    assert s.net.handlers[c := h.(pc := pc)][c := h.(pc := pc')] == s.net.handlers[c := h.(pc := pc')];
  }

  lemma LeavesAlone(cfg: Config, s: State, c: nat)
    requires Alive(s) && c < |s.net.handlers| && s.net.handlers[c].pc.Leaving?
    ensures Goes(cfg, s, Leave(c), Away(s, c, Releasing, s.net.active - 1, s.net.tokens))
  {
  }

  lemma ReleasesAlone(cfg: Config, s: State, c: nat)
    requires Alive(s) && c < |s.net.handlers| && s.net.handlers[c].pc.Releasing? && s.net.tokens > 0
    ensures Goes(cfg, s, Release(c), Away(s, c, HangingUp, s.net.active, s.net.tokens - 1))
  {
  }

  lemma HangsUpAlone(cfg: Config, s: State, c: nat)
    requires Alive(s) && c < |s.net.handlers| && s.net.handlers[c].pc.HangingUp?
    ensures Goes(cfg, s, HangUp(c), Away(s, c, Gone, s.net.active, s.net.tokens))
  {
  }

  /** A handler that leaves, left alone, lowers the gauge by one, gives its slot back, and hangs up. */
  lemma FreesItsSlot(cfg: Config, initial: Batch, acts: seq<Action>, s: State, c: nat)
    requires Reaches(cfg, initial, acts, s) && Alive(s) && c < |s.net.handlers| && s.net.handlers[c].pc.Leaving?
    ensures s.net.tokens > 0
    ensures Solo(cfg, s, Away(s, c, Gone, s.net.active - 1, s.net.tokens - 1), HandlerOfConn(c))
  {
    HoldsAToken(cfg, initial, acts, s, c);
    var g, active, tokens := HandlerOfConn(c), s.net.active, s.net.tokens;
    var m1 := Away(s, c, Releasing, active - 1, tokens);
    LeavesAlone(cfg, s, c);
    SoloStep(cfg, s, Leave(c), m1, g);
    var m2 := Away(s, c, HangingUp, active - 1, tokens - 1);
    AwayTwice(s, c, Releasing, HangingUp, active - 1, active - 1, tokens, tokens - 1);
    ReleasesAlone(cfg, m1, c);
    SoloStep(cfg, m1, Release(c), m2, g);
    SoloJoin(cfg, s, m1, m2, g);
    var z := Away(s, c, Gone, active - 1, tokens - 1);
    AwayTwice(s, c, HangingUp, Gone, active - 1, active - 1, tokens - 1, tokens - 1);
    HangsUpAlone(cfg, m2, c);
    SoloStep(cfg, m2, HangUp(c), z, g);
    SoloJoin(cfg, s, m2, z, g);
  }

  lemma HoldsAToken(cfg: Config, initial: Batch, acts: seq<Action>, s: State, c: nat)
    requires Reaches(cfg, initial, acts, s) && c < |s.net.handlers| && s.net.handlers[c].pc.Leaving?
    ensures s.net.tokens > 0
  {
    ReachedSemaphore(cfg, initial, acts, s);
    Sequences.SumDominates(s.net.handlers, Token);
    assert Token(s.net.handlers[c]) == 1;
  }
}
