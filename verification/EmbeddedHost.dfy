/** The embedded server: starts claim a flag, do their slow work unlocked and commit; stops may
    come at any point. Every step under the lock is atomic, and all interleavings of any number of
    tasks are considered. */
module EmbeddedHost {
  import opened Options

  type TaskId = nat
  type ServerId = nat

  /** The fields of the local server record; the address, host, port and certificate are set and
      cleared together and stand as one. */
  datatype Local = Local(
    starting: bool,
    addr: Option<string>,
    shutdown: Option<ServerId>,
    handle: Option<ServerId>)

  datatype ClaimResult = AlreadyRunning(addr: string) | AlreadyStarting | Claimed

  /** Where a start is: doing its checks, waiting for its server to listen, ready to commit it, or
      on its way out with an error. */
  datatype Phase = Checking | Waiting(server: ServerId) | Ready(server: ServerId, addr: string) | Failing

  /** What has been done to a spawned server. */
  datatype Fate = Untold | Aborted | Told

  datatype State = State(local: Local, tasks: map<TaskId, Phase>, servers: map<ServerId, Fate>)

  datatype Op =
    | Claim(task: TaskId)
    | CheckFails(task: TaskId)
    | Spawn(task: TaskId, server: ServerId)
    | Listens(task: TaskId, addr: string)
    | WaitFails(task: TaskId)
    | Commit(task: TaskId)
    | Stop

  predicate Enabled(s: State, op: Op)
  {
    match op
    case Claim(t) => t !in s.tasks
    case CheckFails(t) => t in s.tasks && s.tasks[t].Checking?
    case Spawn(t, server) => t in s.tasks && s.tasks[t].Checking? && server !in s.servers
    case Listens(t, _) => t in s.tasks && s.tasks[t].Waiting?
    case WaitFails(t) => t in s.tasks && s.tasks[t].Waiting?
    case Commit(t) => t in s.tasks && (s.tasks[t].Ready? || s.tasks[t].Failing?)
    case Stop => true
  }

  // ----- the three sections under the lock -----

  function ClaimAnswer(l: Local): ClaimResult
  {
    if l.addr.Some? then AlreadyRunning(l.addr.value)
    else if l.starting then AlreadyStarting
    else Claimed
  }

  function Committed(l: Local, phase: Phase): Local
  {
    if phase.Ready? then Local(false, Some(phase.addr), Some(phase.server), Some(phase.server))
    else l.(starting := false)
  }

  function Stopped(l: Local): Local { Local(l.starting, None, None, None) }

  function Step(s: State, op: Op): State
    requires Enabled(s, op)
  {
    match op
    case Claim(t) =>
      if ClaimAnswer(s.local) != Claimed then s
      else s.(local := s.local.(starting := true), tasks := s.tasks[t := Checking])
    case CheckFails(t) => s.(tasks := s.tasks[t := Failing])
    case Spawn(t, server) =>
      s.(tasks := s.tasks[t := Waiting(server)], servers := s.servers[server := Untold])
    case Listens(t, addr) => s.(tasks := s.tasks[t := Ready(s.tasks[t].server, addr)])
    case WaitFails(t) =>
      s.(tasks := s.tasks[t := Failing], servers := s.servers[s.tasks[t].server := Aborted])
    case Commit(t) => s.(local := Committed(s.local, s.tasks[t]), tasks := s.tasks - {t})
    case Stop =>
      s.(local := Stopped(s.local),
         servers := if s.local.shutdown.Some? then s.servers[s.local.shutdown.value := Told] else s.servers)
  }

  predicate Possible(s: State, ops: seq<Op>)
    decreases |ops|
  {
    ops == [] || (Enabled(s, ops[0]) && Possible(Step(s, ops[0]), ops[1..]))
  }

  function Run(s: State, ops: seq<Op>): State
    requires Possible(s, ops)
    decreases |ops|
  {
    if ops == [] then s else Run(Step(s, ops[0]), ops[1..])
  }

  const INITIAL := State(Local(false, None, None, None), map[], map[])

  // ----- the invariant -----

  /** The server a start under way has spawned and still answers for. */
  function InHand(phase: Phase): Option<ServerId>
  {
    match phase
    case Waiting(server) => Some(server)
    case Ready(server, _) => Some(server)
    case _ => None
  }

  ghost predicate Inv(s: State)
  {
    && (s.local.starting <==> s.tasks != map[])
    && (forall t, u | t in s.tasks && u in s.tasks :: t == u)
    && (s.local.starting ==> s.local.addr.None?)
    && (s.local.addr.Some? <==> s.local.shutdown.Some?) && s.local.shutdown == s.local.handle
    && (s.local.shutdown.Some? ==>
          s.local.shutdown.value in s.servers && s.servers[s.local.shutdown.value] == Untold)
    && (forall t | t in s.tasks && InHand(s.tasks[t]).Some? ::
          InHand(s.tasks[t]).value in s.servers && s.servers[InHand(s.tasks[t]).value] == Untold)
    && (forall v | v in s.servers && s.servers[v] == Untold ::
          s.local.shutdown == Some(v) || exists t | t in s.tasks :: InHand(s.tasks[t]) == Some(v))
  }

  lemma StepKeepsInv(s: State, op: Op)
    requires Inv(s) && Enabled(s, op)
    ensures Inv(Step(s, op))
  {
    var next := Step(s, op);
    if op.Claim? {
      if ClaimAnswer(s.local) == Claimed { assert op.task in next.tasks; }
    } else if op.Commit? {
      assert next.tasks.Keys == {};
      assert next.tasks == map[];
    } else if !op.Stop? {
      assert op.task in next.tasks;
      forall v | v in next.servers && next.servers[v] == Untold
        ensures next.local.shutdown == Some(v) || InHand(next.tasks[op.task]) == Some(v)
      {
      }
    }
  }

  lemma {:induction false} RunKeepsInv(s: State, ops: seq<Op>)
    requires Inv(s) && Possible(s, ops)
    ensures Inv(Run(s, ops))
    decreases |ops|
  {
    if ops != [] {
      StepKeepsInv(s, ops[0]);
      RunKeepsInv(Step(s, ops[0]), ops[1..]);
    }
  }

  /** Under every interleaving of starts, start failures and stops: at most one spawned server has
      been neither aborted nor told to shut down, and a start is never under way beside a recorded
      address. */
  lemma AtMostOneServer(ops: seq<Op>, v: ServerId, w: ServerId)
    requires Possible(INITIAL, ops)
    ensures
      var s := Run(INITIAL, ops);
      && (v in s.servers && w in s.servers && s.servers[v] == Untold && s.servers[w] == Untold ==> v == w)
      && !(s.local.starting && s.local.addr.Some?)
  {
    RunKeepsInv(INITIAL, ops);
    var s := Run(INITIAL, ops);
    if v in s.servers && w in s.servers && s.servers[v] == Untold && s.servers[w] == Untold {
      assert s.local.shutdown == Some(v) || exists t | t in s.tasks :: InHand(s.tasks[t]) == Some(v);
      assert s.local.shutdown == Some(w) || exists t | t in s.tasks :: InHand(s.tasks[t]) == Some(w);
    }
  }

  /** No server is ever orphaned: with no start under way, a stop leaves none running untold. */
  lemma StopReachesEveryServer(ops: seq<Op>, v: ServerId)
    requires Possible(INITIAL, ops) && !Run(INITIAL, ops).local.starting
    requires v in Run(INITIAL, ops).servers
    ensures v in Step(Run(INITIAL, ops), Stop).servers
    ensures Step(Run(INITIAL, ops), Stop).servers[v] != Untold
  {
    RunKeepsInv(INITIAL, ops);
  }

  /** The flag is never left set: once every start under way has committed or failed, a new one is
      accepted or told the address of the running server. */
  lemma NeverStuck(ops: seq<Op>)
    requires Possible(INITIAL, ops) && Run(INITIAL, ops).tasks == map[]
    ensures ClaimAnswer(Run(INITIAL, ops).local) != AlreadyStarting
  {
    RunKeepsInv(INITIAL, ops);
  }

  // ----- the record and its three locked sections -----

  class LocalServer {
    var starting: bool
    var addr: Option<string>
    var shutdown: Option<ServerId>
    var handle: Option<ServerId>

    function View(): Local reads this { Local(starting, addr, shutdown, handle) }

    constructor ()
      ensures View() == INITIAL.local
    {
      starting, addr, shutdown, handle := false, None, None, None;
    }

    method ClaimStart() returns (r: ClaimResult)
      modifies this
      ensures r == ClaimAnswer(old(View()))
      ensures View() == if r == Claimed then old(View()).(starting := true) else old(View())
    {
      if addr.Some? { return AlreadyRunning(addr.value); }
      if starting { return AlreadyStarting; }
      starting := true;
      r := Claimed;
    }

    method CommitStart(result: Phase) returns (r: Option<string>)
      modifies this
      ensures View() == Committed(old(View()), result)
      ensures r == if result.Ready? then Some(result.addr) else None
    {
      starting := false;
      if !result.Ready? { return None; }
      shutdown := Some(result.server);
      handle := Some(result.server);
      addr := Some(result.addr);
      r := addr;
    }

    /** Answers the server that was told to shut down, if there was one. */
    method StopServer() returns (told: Option<ServerId>)
      modifies this
      ensures View() == Stopped(old(View())) && told == old(View()).shutdown
    {
      told := shutdown;
      shutdown := None;
      handle := None;
      addr := None;
    }
  }
}
