/** Containers of one pod that start and stop in step with each other through flag files. The
    leader is the one whose shutdown comes first: the regionserver, or the namenode. The follower,
    the datanode or the zkfc, is told to stop once the leader has raised its flag. */
module Lifecycle {
  import opened Kube

  datatype Pod = RegionserverPod | NamenodePod

  /** How far a script is: before its trap is set (the regionserver's waits for the datanode's flag
      first), then with it, then with its daemon launched (the datanode's waits for a socket and
      raises its flag), then waiting for the daemon, then ended. */
  datatype Main = Booting | Cleared | Armed | Polling | Seen | Waiting | Ended

  /** How far a script's SIGTERM handler is; while it runs the script does not go on. */
  datatype Handler = Idle | Working | Flagging | Stopping | Over

  /** When SIGTERM arrived: before the trap was set, which the script may have survived, or between
      the trap and the launch of the daemon, or after the launch. */
  datatype Arrival = NotYet | Untrapped(survived: bool) | Unlaunched | Launched

  /** A container: its script, handler, SIGTERM and whether the daemon runs. */
  datatype Container = Container(main: Main, handler: Handler, signal: Arrival, up: bool)

  /** `socket`: the datanode's socket exists; `started`, `terminated`: the flag files; `dutyDone` and
      `toldToStop` record that the leader's handler has finished its unload or failover and that the
      follower has been told to stop. */
  datatype State = State(pod: Pod, leader: Container, follower: Container, socket: bool, started: bool,
                         terminated: bool, dutyDone: bool, toldToStop: bool)

  /** A step of one of the scripts, the socket's appearance, or SIGTERM's delivery, which an
      untrapped script may survive or not. */
  datatype Step = Leader | Follower | Socket | SignalLeader(survives: bool) | SignalFollower(survives: bool)

  function Fresh(): Container {
    Container(Booting, Idle, NotYet, false)
  }

  /** A new pod: no daemon runs and there is no flag file. */
  function NewPod(pod: Pod): State {
    State(pod, Fresh(), Fresh(), false, false, false, false, false)
  }

  // ---------- steps ----------

  /** The handler runs. */
  predicate Busy(c: Container) {
    c.handler.Working? || c.handler.Flagging? || c.handler.Stopping?
  }

  /** After a handler a script that was waiting ends, any other goes on where it was. */
  function AfterHandler(c: Container): Container {
    Container(if c.main.Waiting? then Ended else c.main, Over, c.signal, false)
  }

  function HandlerStep(c: Container): Container
    requires Busy(c)
  {
    match c.handler
    case Working => c.(handler := Flagging)
    case Flagging => c.(handler := Stopping)
    case Stopping => AfterHandler(c)
  }

  /** The unload or failover, then the flag, then the stop of the daemon. */
  function LeaderHandles(s: State): State
    requires Busy(s.leader)
  {
    s.(leader := HandlerStep(s.leader),
       dutyDone := s.dutyDone || s.leader.handler.Working?,
       terminated := s.terminated || s.leader.handler.Flagging?)
  }

  /** `free`: the leader need not wait for the follower's flag. */
  function LeaderMain(c: Container, free: bool): Option<Container> {
    match c.main
    case Booting => if free then Some(c.(main := Cleared)) else None
    case Cleared => Some(c.(main := Armed))
    case Armed => Some(c.(main := Waiting, up := true))
    case _ => None
  }

  function LeaderStep(s: State): Option<State> {
    if Busy(s.leader) then Some(LeaderHandles(s))
    else
      match LeaderMain(s.leader, s.pod.NamenodePod? || s.started)
      case None => None
      case Some(c) => Some(s.(leader := c))
  }

  /** The wait for the leader's flag, and then the stop of the daemon. */
  function FollowerHandler(c: Container, terminated: bool): Option<Container>
    requires Busy(c)
  {
    if !c.handler.Working? then Some(AfterHandler(c))
    else if terminated then Some(c.(handler := Stopping)) else None
  }

  function FollowerMain(c: Container, pod: Pod, socket: bool): Option<Container> {
    match c.main
    case Booting => Some(c.(main := Armed))
    case Armed => Some(c.(main := if pod.RegionserverPod? then Polling else Waiting, up := true))
    case Polling => if socket then Some(c.(main := Seen)) else None
    case Seen => Some(c.(main := Waiting))
    case _ => None
  }

  function FollowerStep(s: State): Option<State> {
    if Busy(s.follower) then
      match FollowerHandler(s.follower, s.terminated)
      case None => None
      case Some(c) => Some(s.(follower := c, toldToStop := s.toldToStop || !s.follower.handler.Working?))
    else
      match FollowerMain(s.follower, s.pod, s.socket)
      case None => None
      case Some(c) =>
        Some(s.(follower := c, started := s.started || s.follower.main.Seen?))
  }

  /** SIGTERM reaches a container once. */
  function Signal(c: Container, survives: bool): Container {
    if c.main.Booting? || c.main.Cleared? then
      c.(signal := Untrapped(survives), main := if survives then c.main else Ended)
    else c.(signal := if c.main.Armed? then Unlaunched else Launched, handler := Working)
  }

  predicate Reachable(c: Container) {
    c.signal.NotYet? && !c.main.Ended?
  }

  function Next(s: State, step: Step): Option<State> {
    match step
    case Leader => LeaderStep(s)
    case Follower => FollowerStep(s)
    case Socket => if s.pod.RegionserverPod? && s.follower.up && !s.socket then Some(s.(socket := true)) else None
    case SignalLeader(survives) => if Reachable(s.leader) then Some(s.(leader := Signal(s.leader, survives))) else None
    case SignalFollower(survives) => if Reachable(s.follower) then
        Some(s.(follower := Signal(s.follower, survives))) else None
  }

  /** The state after these steps, if each of them is possible when its turn comes. */
  function Run(s: State, steps: seq<Step>): Option<State> {
    if steps == [] then Some(s)
    else
      match Run(s, steps[..|steps| - 1])
      case None => None
      case Some(t) => Next(t, steps[|steps| - 1])
  }

  // ---------- safety ----------

  /** SIGTERM found the trap set. */
  predicate Trapped(c: Container) {
    c.signal.Unlaunched? || c.signal.Launched?
  }

  /** SIGTERM came before the trap and ended the script. */
  predicate Killed(c: Container) {
    c.signal.Untrapped? && !c.signal.survived
  }

  /** The order of events. */
  predicate Ordered(s: State) {
    && (s.started ==> s.socket && (s.follower.main.Waiting? || s.follower.main.Ended?))
    && (s.pod.RegionserverPod? ==>
          (s.leader.main.Cleared? || s.leader.main.Armed? || s.leader.main.Waiting? || Trapped(s.leader) ==> s.started))
    && (s.terminated ==> s.dutyDone)
    && (s.toldToStop || s.follower.handler.Stopping? || s.follower.handler.Over? ==> s.terminated)
    && (s.terminated <==> s.leader.handler.Stopping? || s.leader.handler.Over?)
    && (s.dutyDone <==> s.leader.handler.Flagging? || s.leader.handler.Stopping? || s.leader.handler.Over?)
  }

  /** What a container looks like, depending on when SIGTERM came. */
  predicate Shaped(c: Container) {
    && (c.handler.Idle? <==> !Trapped(c))
    && (c.main.Ended? ==> !c.up && (Killed(c) || (c.signal.Launched? && c.handler.Over?)))
    && (Killed(c) ==> c.main.Ended?)
    && (c.signal.Unlaunched? && !c.handler.Over? ==> c.main.Armed?)
    && (c.signal.Launched? ==> (c.main.Polling? || c.main.Seen? || c.main.Waiting? || c.main.Ended?))
    && (Trapped(c) ==> !c.main.Booting? && !c.main.Cleared?)
    && ((c.main.Booting? || c.main.Cleared? || c.main.Armed?) ==> !c.up)
    && ((c.main.Polling? || c.main.Seen? || c.main.Waiting?) && !(c.signal.Launched? && c.handler.Over?) ==> c.up)
  }

  /** What is peculiar to the two roles. */
  predicate Roles(s: State) {
    && !s.leader.main.Polling? && !s.leader.main.Seen?
    && (s.leader.signal.Launched? && s.leader.handler.Over? ==> s.leader.main.Ended?)
    && !s.follower.main.Cleared? && !s.follower.handler.Flagging?
    && (s.pod.NamenodePod? ==> !s.follower.main.Polling? && !s.follower.main.Seen?)
    && (s.follower.signal.Launched? && s.follower.handler.Over? ==> s.follower.main.Ended?)
    && (s.follower.handler.Over? <==> s.toldToStop)
    && (s.leader.up ==> s.leader.main.Waiting?)
    && (s.follower.main.Seen? ==> s.socket)
    && (s.socket ==> s.pod.RegionserverPod? && !s.follower.main.Booting? && !s.follower.main.Armed?)
  }

  predicate Sane(s: State) {
    Ordered(s) && Roles(s) && Shaped(s.leader) && Shaped(s.follower)
  }

  /** What every step keeps, and what it costs. */
  predicate Follows(s: State, t: State) {
    Sane(t) && t.pod == s.pod && StepsLeft(t) < StepsLeft(s)
  }

  lemma LeaderInOrder(s: State)
    requires Sane(s) && LeaderStep(s).Some?
    ensures Ordered(LeaderStep(s).value)
  {
  }

  lemma LeaderInRole(s: State)
    requires Sane(s) && LeaderStep(s).Some?
    ensures Roles(LeaderStep(s).value)
  {
  }

  lemma HandlerInShape(c: Container)
    requires Shaped(c) && Busy(c)
    ensures var d := HandlerStep(c); Shaped(d) && d.signal == c.signal && Left(d) < Left(c)
  {
  }

  lemma LeaderInShape(s: State)
    requires Shaped(s.leader) && LeaderStep(s).Some?
    ensures var c := LeaderStep(s).value.leader; Shaped(c) && c.signal == s.leader.signal && Left(c) < Left(s.leader)
  {
    if Busy(s.leader) {
      HandlerInShape(s.leader);
    } else {
      LeaderMainInShape(s.leader, s.pod.NamenodePod? || s.started);
    }
    hide Shaped, Left, HandlerStep, LeaderMain;
  }

  lemma LeaderMainInShape(c: Container, free: bool)
    requires Shaped(c) && !Busy(c) && LeaderMain(c, free).Some?
    ensures var d := LeaderMain(c, free).value; Shaped(d) && d.signal == c.signal && Left(d) < Left(c)
  {
  }

  lemma LeaderWell(s: State)
    requires Sane(s) && LeaderStep(s).Some?
    ensures Follows(s, LeaderStep(s).value) && LeaderStep(s).value.follower == s.follower
    ensures LeaderStep(s).value.leader.signal == s.leader.signal
  {
    LeaderInOrder(s);
    LeaderInRole(s);
    LeaderInShape(s);
    hide Ordered, Roles, Shaped, Left, Busy;
  }

  lemma FollowerInOrder(s: State)
    requires Sane(s) && FollowerStep(s).Some?
    ensures Ordered(FollowerStep(s).value)
  {
  }

  lemma FollowerInRole(s: State)
    requires Sane(s) && FollowerStep(s).Some?
    ensures Roles(FollowerStep(s).value)
  {
  }

  lemma FollowerHandlerInShape(c: Container, terminated: bool)
    requires Shaped(c) && Busy(c) && FollowerHandler(c, terminated).Some?
    ensures var d := FollowerHandler(c, terminated).value; Shaped(d) && d.signal == c.signal && Left(d) < Left(c)
  {
  }

  lemma FollowerMainInShape(c: Container, pod: Pod, socket: bool)
    requires Shaped(c) && !Busy(c) && FollowerMain(c, pod, socket).Some?
    ensures var d := FollowerMain(c, pod, socket).value; Shaped(d) && d.signal == c.signal && Left(d) < Left(c)
  {
  }

  lemma FollowerInShape(s: State)
    requires Shaped(s.follower) && FollowerStep(s).Some?
    ensures var c := FollowerStep(s).value.follower;
            Shaped(c) && c.signal == s.follower.signal && Left(c) < Left(s.follower)
  {
    if Busy(s.follower) {
      FollowerHandlerInShape(s.follower, s.terminated);
    } else {
      FollowerMainInShape(s.follower, s.pod, s.socket);
    }
    hide Shaped, Left, FollowerHandler, FollowerMain;
  }

  lemma FollowerWell(s: State)
    requires Sane(s) && FollowerStep(s).Some?
    ensures Follows(s, FollowerStep(s).value) && FollowerStep(s).value.leader == s.leader
    ensures FollowerStep(s).value.follower.signal == s.follower.signal
  {
    FollowerInOrder(s);
    FollowerInRole(s);
    FollowerInShape(s);
    hide Ordered, Roles, Shaped, Left, Busy;
  }

  lemma SignalWell(c: Container, survives: bool)
    requires Shaped(c) && Reachable(c)
    ensures Shaped(Signal(c, survives)) && c.handler.Idle? && Left(Signal(c, survives)) < Left(c)
  {
  }

  lemma SocketWell(s: State)
    requires Sane(s) && Next(s, Socket).Some?
    ensures Follows(s, Next(s, Socket).value)
  {
  }

  lemma StepKeeps(s: State, step: Step)
    requires Sane(s) && Next(s, step).Some?
    ensures Follows(s, Next(s, step).value)
  {
    hide Shaped, LeaderStep, FollowerStep, Left;
    match step
    case Leader => LeaderWell(s);
    case Follower => FollowerWell(s);
    case Socket => SocketWell(s);
    case SignalLeader(survives) => SignalWell(s.leader, survives);
    case SignalFollower(survives) => SignalWell(s.follower, survives);
  }

  lemma {:induction false} RunKeeps(s: State, steps: seq<Step>)
    requires Sane(s) && Run(s, steps).Some?
    ensures Sane(Run(s, steps).value) && Run(s, steps).value.pod == s.pod
    decreases |steps|
  {
    hide Sane, Next;
    if steps != [] {
      RunKeeps(s, steps[..|steps| - 1]);
      StepKeeps(Run(s, steps[..|steps| - 1]).value, steps[|steps| - 1]);
    }
  }

  /** In every interleaving: the regionserver's script gets past its wait, and starts its daemon,
      only after the datanode has been launched, its socket is there and its flag is raised; the datanode
      or zkfc is told to stop only after the unload of the regionserver, or the failover of the namenode,
      has finished and the leader's flag is raised. */
  lemma Handshake(pod: Pod, steps: seq<Step>)
    requires Run(NewPod(pod), steps).Some?
    ensures var s := Run(NewPod(pod), steps).value;
            && (pod.RegionserverPod? && (s.leader.up || s.leader.main.Cleared?) ==> s.started && s.socket)
            && (s.started ==> s.socket && (s.follower.main.Waiting? || s.follower.main.Ended?))
            && (s.socket ==> pod.RegionserverPod? && !s.follower.main.Booting? && !s.follower.main.Armed?)
            && (s.toldToStop ==> s.terminated && s.dutyDone)
            && (s.terminated ==> s.leader.handler.Stopping? || s.leader.handler.Over?)
            && (s.leader.handler.Idle? || s.leader.handler.Working? ==> !s.dutyDone && !s.terminated && !s.toldToStop)
  {
    RunKeeps(NewPod(pod), steps);
  }

  // ---------- every run ends ----------

  /** How many steps a container can still make. */
  function Left(c: Container): nat {
    (match c.main
     case Booting => 5
     case Cleared => 4
     case Armed => 3
     case Polling => 2
     case Seen => 1
     case _ => 0)
    + (if c.signal.NotYet? then 5
       else match c.handler case Working => 4 case Flagging => 3 case Stopping => 2 case _ => 0)
  }

  function StepsLeft(s: State): nat {
    Left(s.leader) + Left(s.follower) + if s.socket then 0 else 1
  }

  /** Rounds of a waiting loop apart, every run is finite: each step leaves fewer. */
  lemma {:induction false} RunsEnd(s: State, steps: seq<Step>)
    requires Sane(s) && Run(s, steps).Some?
    ensures |steps| + StepsLeft(Run(s, steps).value) <= StepsLeft(s)
    decreases |steps|
  {
    hide Sane, Next, StepsLeft;
    if steps != [] {
      var before := steps[..|steps| - 1];
      RunsEnd(s, before);
      RunKeeps(s, before);
      StepKeeps(Run(s, before).value, steps[|steps| - 1]);
    }
  }

  /** No script can go on, and SIGTERM has reached every container that has not ended. */
  ghost predicate Quiescent(s: State) {
    forall step: Step :: Next(s, step).None?
  }

  /** Both scripts have ended, in order, and neither daemon runs. */
  predicate ShutDown(s: State) {
    s.leader.main.Ended? && s.follower.main.Ended? && !s.leader.up && !s.follower.up && s.dutyDone && s.toldToStop
  }

  lemma QuiescentSteps(s: State)
    requires Quiescent(s)
    ensures LeaderStep(s).None? && FollowerStep(s).None? && !Reachable(s.leader) && !Reachable(s.follower)
    ensures s.pod.RegionserverPod? && s.follower.up ==> s.socket
  {
    assert Next(s, Leader).None? && Next(s, Follower).None? && Next(s, Socket).None?;
    assert Next(s, SignalLeader(true)).None? && Next(s, SignalFollower(true)).None?;
  }

  /** Which scripts have ended when nothing can go on any more. The leader's has if and only if
      SIGTERM came after its launch or killed it before its trap; the follower's if and only if
      SIGTERM killed it before its trap, or came after its launch and found the leader's trap set. */
  lemma QuiescentEnds(s: State)
    requires Sane(s) && Quiescent(s)
    ensures s.leader.main.Ended? <==> s.leader.signal.Launched? || Killed(s.leader)
    ensures s.follower.main.Ended? <==> Killed(s.follower) || (s.follower.signal.Launched? && Trapped(s.leader))
    ensures ShutDown(s) <==> s.leader.signal.Launched? && s.follower.signal.Launched?
    ensures s.follower.handler.Working? <==> Trapped(s.follower) && !Trapped(s.leader)
  {
    QuiescentSteps(s);
    hide Quiescent;
  }

  /** What a script that has not ended is waiting for: a daemon that runs, the datanode's flag, or
      the leader's flag in its handler. */
  lemma QuiescentWaits(s: State)
    requires Sane(s) && Quiescent(s)
    ensures !s.leader.main.Ended? ==>
      || (s.leader.main.Waiting? && s.leader.up)
      || (s.leader.main.Booting? && s.pod.RegionserverPod? && !s.started)
    ensures !s.follower.main.Ended? ==>
      || (s.follower.main.Waiting? && s.follower.up && !Busy(s.follower))
      || (s.follower.handler.Working? && !s.terminated)
  {
    QuiescentSteps(s);
    hide Quiescent;
  }

  /** When nothing can go on any more, a pod has shut down in order if and only if SIGTERM reached
      both containers after their daemons were launched. It has ended at all, so that it does not
      hang, if and only if it was shut down in order, or SIGTERM killed the follower's script before
      its trap and reached the leader after its launch or killed its script too. The follower's
      handler waits for ever if and only if SIGTERM found the follower's trap set but not the
      leader's. */
  lemma ShutDownIff(pod: Pod, steps: seq<Step>)
    requires Run(NewPod(pod), steps).Some? && Quiescent(Run(NewPod(pod), steps).value)
    ensures var s := Run(NewPod(pod), steps).value;
            && (ShutDown(s) <==> s.leader.signal.Launched? && s.follower.signal.Launched?)
            && (s.leader.main.Ended? && s.follower.main.Ended? <==>
                  ShutDown(s) || (Killed(s.follower) && (s.leader.signal.Launched? || Killed(s.leader))))
            && (s.follower.handler.Working? <==> Trapped(s.follower) && !Trapped(s.leader))
  {
    RunKeeps(NewPod(pod), steps);
    QuiescentEnds(Run(NewPod(pod), steps).value);
  }

  /** SIGTERM is still to come, or came after the launch. */
  predicate LateSignal(c: Container) {
    c.signal.Launched? || (c.main.Waiting? && c.signal.NotYet?)
  }

  lemma WaitingDoesNothing(s: State)
    ensures s.leader.main.Waiting? && !Busy(s.leader) ==> LeaderStep(s).None?
    ensures s.follower.main.Waiting? && !Busy(s.follower) ==> FollowerStep(s).None?
  {
  }

  lemma LateStep(s: State, step: Step)
    requires Sane(s) && Next(s, step).Some? && LateSignal(s.leader) && LateSignal(s.follower)
    ensures LateSignal(Next(s, step).value.leader) && LateSignal(Next(s, step).value.follower)
  {
    WaitingDoesNothing(s);
    hide LeaderStep, FollowerStep;
    match step
    case Leader => LeaderWell(s);
    case Follower => FollowerWell(s);
    case _ =>
  }

  lemma {:induction false} LateSignals(s: State, steps: seq<Step>)
    requires Sane(s) && Run(s, steps).Some? && LateSignal(s.leader) && LateSignal(s.follower)
    ensures LateSignal(Run(s, steps).value.leader) && LateSignal(Run(s, steps).value.follower)
    decreases |steps|
  {
    hide LateSignal, Next, Sane;
    if steps != [] {
      LateSignals(s, steps[..|steps| - 1]);
      RunKeeps(s, steps[..|steps| - 1]);
      LateStep(Run(s, steps[..|steps| - 1]).value, steps[|steps| - 1]);
    }
  }

  /** So if SIGTERM arrives only after the regionserver was launched, every run ends with the pod
      shut down in order, whichever way the two containers' steps interleave; likewise for the
      namenode, if the zkfc was launched too. */
  lemma SignalsAfterLaunch(pod: Pod, before: seq<Step>, after: seq<Step>)
    requires Run(NewPod(pod), before).Some?
    requires var s := Run(NewPod(pod), before).value;
             && s.leader.main.Waiting? && s.leader.signal.NotYet? && s.follower.signal.NotYet?
             && (pod.NamenodePod? ==> s.follower.main.Waiting?)
             && Run(s, after).Some? && Quiescent(Run(s, after).value)
    ensures ShutDown(Run(Run(NewPod(pod), before).value, after).value)
  {
    var s := Run(NewPod(pod), before).value;
    RunKeeps(NewPod(pod), before);
    LateSignals(s, after);
    RunKeeps(s, after);
    QuiescentSteps(Run(s, after).value);
    QuiescentEnds(Run(s, after).value);
  }

  // ---------- the leader may outlive the follower ----------

  /** The follower has been told to stop while the leader's daemon still runs. */
  predicate Outlives(s: State) {
    s.toldToStop && s.leader.up
  }

  /** The leader has raised its flag but not yet stopped its daemon. */
  predicate Window(s: State) {
    s.leader.signal.Launched? && s.leader.handler.Stopping?
  }

  /** SIGTERM came between the leader's trap and its launch. */
  predicate Gap(s: State) {
    s.leader.signal.Unlaunched?
  }

  /** That happens in two situations only: in the moment between the leader's flag and the stop of
      its daemon, which only a pause in the follower's handler bridges; or if SIGTERM came between the
      leader's trap and its launch, when the leader's daemon is launched after its own shutdown and
      runs on with no follower at all. */
  lemma OutlivesOnlyIf(pod: Pod, steps: seq<Step>)
    requires Run(NewPod(pod), steps).Some? && Outlives(Run(NewPod(pod), steps).value)
    ensures var s := Run(NewPod(pod), steps).value; (Window(s) || Gap(s)) && Trapped(s.follower)
  {
    RunKeeps(NewPod(pod), steps);
  }

  lemma {:induction false} RunFront(s: State, step: Step, rest: seq<Step>)
    requires Next(s, step).Some?
    ensures Run(s, [step] + rest) == Run(Next(s, step).value, rest)
    decreases |rest|
  {
    hide Next;
    if rest == [] {
      assert [step] + rest == [step] && [step][..0] == [];
    } else {
      assert ([step] + rest)[..|rest|] == [step] + rest[..|rest| - 1];
      RunFront(s, step, rest[..|rest| - 1]);
    }
  }

  /** Once the leader's flag is up a follower whose trap SIGTERM has not missed can be told to stop,
      before the leader makes another step. */
  lemma {:induction false} FollowerCanStop(s: State) returns (steps: seq<Step>)
    requires Sane(s) && s.terminated && !s.follower.signal.Untrapped?
    ensures Run(s, steps).Some? && Run(s, steps).value.toldToStop && Run(s, steps).value.leader == s.leader
    decreases StepsLeft(s)
  {
    if s.toldToStop {
      steps := [];
    } else {
      var step := if s.follower.signal.NotYet? && !s.follower.main.Booting? then SignalFollower(true) else Follower;
      var t := FollowerAdvances(s, step);
      hide Sane, Next, StepsLeft;
      var rest := FollowerCanStop(t);
      RunFront(s, step, rest);
      steps := [step] + rest;
    }
  }

  lemma FollowerAdvances(s: State, step: Step) returns (t: State)
    requires Sane(s) && s.terminated && !s.follower.signal.Untrapped? && !s.toldToStop
    requires step == if s.follower.signal.NotYet? && !s.follower.main.Booting? then SignalFollower(true) else Follower
    ensures Next(s, step) == Some(t) && Follows(s, t)
    ensures t.terminated && !t.follower.signal.Untrapped? && t.leader == s.leader
  {
    assert Next(s, step).Some?;
    t := Next(s, step).value;
    if step.Follower? {
      FollowerWell(s);
    } else {
      SignalWell(s.follower, true);
    }
  }

  /** A leader that SIGTERM found between trap and launch can run its handler and launch its daemon. */
  lemma {:induction false} LeaderCanLaunch(s: State) returns (steps: seq<Step>)
    requires Sane(s) && Gap(s)
    ensures Run(s, steps).Some?
    ensures var t := Run(s, steps).value; Sane(t) && Gap(t) && t.leader.up && t.terminated && t.follower == s.follower
    decreases StepsLeft(s)
  {
    if s.leader.up && s.leader.handler.Over? {
      steps := [];
    } else {
      var t := LeaderAdvances(s);
      hide Sane, Next, StepsLeft;
      var rest := LeaderCanLaunch(t);
      RunFront(s, Leader, rest);
      steps := [Leader] + rest;
    }
  }

  lemma LeaderAdvances(s: State) returns (t: State)
    requires Sane(s) && Gap(s) && !(s.leader.up && s.leader.handler.Over?)
    ensures Next(s, Leader) == Some(t) && Follows(s, t) && Gap(t) && t.follower == s.follower
  {
    assert LeaderStep(s).Some?;
    LeaderWell(s);
    t := Next(s, Leader).value;
  }

  lemma {:induction false} RunSum(s: State, a: seq<Step>, b: seq<Step>)
    requires Run(s, a).Some?
    ensures Run(s, a + b) == Run(Run(s, a).value, b)
    decreases |b|
  {
    hide Next;
    if b == [] {
      assert a + b == a;
    } else {
      assert (a + b)[..|a + b| - 1] == a + b[..|b| - 1];
      RunSum(s, a, b[..|b| - 1]);
    }
  }

  /** And from each of the two situations it can happen, unless SIGTERM missed the follower's trap. */
  lemma CanOutlive(s: State) returns (steps: seq<Step>)
    requires Sane(s) && (Window(s) || Gap(s)) && !s.follower.signal.Untrapped?
    ensures Run(s, steps).Some? && Outlives(Run(s, steps).value)
  {
    if Window(s) {
      steps := FollowerCanStop(s);
    } else {
      var a := LeaderCanLaunch(s);
      var b := FollowerCanStop(Run(s, a).value);
      RunSum(s, a, b);
      steps := a + b;
    }
  }

  /** Of the two only the second lasts: a pod in which nothing can go on any more is left with the
      leader's daemon, and the follower told to stop, if and only if SIGTERM came between the leader's
      trap and its launch and found the follower's trap set. */
  lemma OutlivesForGoodIff(pod: Pod, steps: seq<Step>)
    requires Run(NewPod(pod), steps).Some? && Quiescent(Run(NewPod(pod), steps).value)
    ensures var s := Run(NewPod(pod), steps).value; Outlives(s) <==> Gap(s) && Trapped(s.follower)
  {
    RunKeeps(NewPod(pod), steps);
    QuiescentSteps(Run(NewPod(pod), steps).value);
  }

  // ---------- runs that show it ----------

  lemma Extend(pod: Pod, steps: seq<Step>, s: State, step: Step) returns (more: seq<Step>, t: State)
    requires Run(NewPod(pod), steps) == Some(s) && Next(s, step).Some?
    ensures t == Next(s, step).value && Run(NewPod(pod), more) == Some(t)
  {
    more := steps + [step];
    t := Next(s, step).value;
    assert more[..|more| - 1] == steps;
  }

  lemma NothingYet(s: State)
    ensures Run(s, []) == Some(s)
  {
  }

  /** The run leads to a state with these containers, whose pod has this socket and these flags. */
  ghost predicate Shows(steps: seq<Step>, leader: Container, follower: Container, socket: bool, started: bool,
      terminated: bool) {
    Run(NewPod(RegionserverPod), steps) ==
      Some(State(RegionserverPod, leader, follower, socket, started, terminated, terminated,
          follower.handler.Over?))
  }

  /** The datanode has launched its daemon and raised its flag. */
  lemma DatanodeUp(signal: Arrival, steps: seq<Step>) returns (more: seq<Step>)
    requires signal.NotYet? || signal == Untrapped(true)
    requires Shows(steps, Container(Booting, Idle, signal, false), Container(Booting, Idle, signal, false), false,
        false, false)
    ensures Shows(more, Container(Booting, Idle, signal, false), Container(Waiting, Idle, signal, true), true, true,
        false)
  {
    var s := Run(NewPod(RegionserverPod), steps).value;
    hide Run;
    more, s := Extend(RegionserverPod, steps, s, Follower);
    more, s := Extend(RegionserverPod, more, s, Follower);
    more, s := Extend(RegionserverPod, more, s, Socket);
    more, s := Extend(RegionserverPod, more, s, Follower);
    more, s := Extend(RegionserverPod, more, s, Follower);
  }

  /** And then the regionserver has set its trap. */
  lemma TrapSet(signal: Arrival, steps: seq<Step>) returns (more: seq<Step>)
    requires Shows(steps, Container(Booting, Idle, signal, false), Container(Waiting, Idle, signal, true), true, true,
        false)
    ensures Shows(more, Container(Armed, Idle, signal, false), Container(Waiting, Idle, signal, true), true, true,
        false)
  {
    var s := Run(NewPod(RegionserverPod), steps).value;
    hide Run;
    more, s := Extend(RegionserverPod, steps, s, Leader);
    more, s := Extend(RegionserverPod, more, s, Leader);
  }

  /** And then launched its daemon. */
  lemma RegionserverUp(signal: Arrival, steps: seq<Step>) returns (more: seq<Step>)
    requires Shows(steps, Container(Armed, Idle, signal, false), Container(Waiting, Idle, signal, true), true, true,
        false)
    ensures Shows(more, Container(Waiting, Idle, signal, true), Container(Waiting, Idle, signal, true), true, true,
        false)
  {
    var s := Run(NewPod(RegionserverPod), steps).value;
    hide Run;
    more, s := Extend(RegionserverPod, steps, s, Leader);
  }

  lemma AnOrdinaryStart() returns (steps: seq<Step>)
    ensures Shows(steps, Container(Armed, Idle, NotYet, false), Container(Waiting, Idle, NotYet, true), true, true,
        false)
  {
    assert Shows([], Fresh(), Fresh(), false, false, false);
    hide Shows;
    steps := DatanodeUp(NotYet, []);
    steps := TrapSet(NotYet, steps);
  }

  /** SIGTERM reaches both, and the regionserver's handler raises its flag. */
  lemma FlagRaised(main: Main, steps: seq<Step>) returns (more: seq<Step>)
    requires main.Armed? || main.Waiting?
    requires Shows(steps, Container(main, Idle, NotYet, main.Waiting?), Container(Waiting, Idle, NotYet, true), true,
        true, false)
    ensures Shows(more, Container(main, Stopping, if main.Armed? then Unlaunched else Launched, main.Waiting?),
                  Container(Waiting, Working, Launched, true), true, true, true)
  {
    var s := Run(NewPod(RegionserverPod), steps).value;
    hide Run;
    more, s := Extend(RegionserverPod, steps, s, SignalLeader(true));
    more, s := Extend(RegionserverPod, more, s, SignalFollower(true));
    more, s := Extend(RegionserverPod, more, s, Leader);
    more, s := Extend(RegionserverPod, more, s, Leader);
  }

  /** The datanode is told to stop. */
  lemma DatanodeStops(leader: Container, steps: seq<Step>) returns (more: seq<Step>)
    requires Shows(steps, leader, Container(Waiting, Working, Launched, true), true, true, true)
    ensures Shows(more, leader, Container(Ended, Over, Launched, false), true, true, true)
  {
    var s := Run(NewPod(RegionserverPod), steps).value;
    hide Run;
    more, s := Extend(RegionserverPod, steps, s, Follower);
    more, s := Extend(RegionserverPod, more, s, Follower);
  }

  /** The datanode stops in the moment between the regionserver's flag and its stop. */
  lemma DatanodeMayStopFirst() returns (steps: seq<Step>, s: State)
    ensures Run(NewPod(RegionserverPod), steps) == Some(s) && Outlives(s) && Window(s) && !s.follower.up
  {
    hide Shows;
    steps := AnOrdinaryStart();
    steps := RegionserverUp(NotYet, steps);
    steps := FlagRaised(Waiting, steps);
    steps := DatanodeStops(Container(Waiting, Stopping, Launched, true), steps);
    s := Shown(steps, Container(Waiting, Stopping, Launched, true), Container(Ended, Over, Launched, false), true,
        true, true);
  }

  lemma Shown(steps: seq<Step>, leader: Container, follower: Container, socket: bool, started: bool, terminated: bool)
    returns (s: State)
    requires Shows(steps, leader, follower, socket, started, terminated)
    ensures Run(NewPod(RegionserverPod), steps) == Some(s) && s.pod.RegionserverPod?
    ensures s.leader == leader && s.follower == follower
    ensures s.socket == socket && s.started == started && s.terminated == terminated
    ensures s.toldToStop == follower.handler.Over?
  {
    s := Run(NewPod(RegionserverPod), steps).value;
  }

  lemma QuiescentIf(s: State)
    requires LeaderStep(s).None? && FollowerStep(s).None? && !Reachable(s.leader) && !Reachable(s.follower)
    requires s.socket || !s.follower.up
    ensures Quiescent(s)
  {
    forall step: Step ensures Next(s, step).None? {
      match step
      case _ =>
    }
  }

  /** SIGTERM between the regionserver's trap and its launch leaves it running without a datanode. */
  lemma RegionserverMayStay() returns (steps: seq<Step>, s: State)
    ensures Run(NewPod(RegionserverPod), steps) == Some(s) && Quiescent(s)
    ensures Outlives(s) && Gap(s) && s.follower.main.Ended? && s.leader.main.Waiting?
  {
    hide Shows;
    steps := AnOrdinaryStart();
    steps := FlagRaised(Armed, steps);
    steps := LateLaunch(steps);
    steps := DatanodeStops(Container(Waiting, Over, Unlaunched, true), steps);
    s := Shown(steps, Container(Waiting, Over, Unlaunched, true), Container(Ended, Over, Launched, false), true, true,
        true);
    QuiescentIf(s);
  }

  /** The regionserver is launched after its own shutdown. */
  lemma LateLaunch(steps: seq<Step>) returns (more: seq<Step>)
    requires Shows(steps, Container(Armed, Stopping, Unlaunched, false), Container(Waiting, Working, Launched, true),
        true, true, true)
    ensures Shows(more, Container(Waiting, Over, Unlaunched, true), Container(Waiting, Working, Launched, true), true,
        true, true)
  {
    var s := Run(NewPod(RegionserverPod), steps).value;
    hide Run;
    more, s := Extend(RegionserverPod, steps, s, Leader);
    more, s := Extend(RegionserverPod, more, s, Leader);
  }

  /** SIGTERM that kills the regionserver's script before its trap lets the datanode's handler wait
      for ever. */
  lemma DatanodeMayWaitForEver() returns (steps: seq<Step>, s: State)
    ensures Run(NewPod(RegionserverPod), steps) == Some(s) && Quiescent(s)
    ensures s.follower.handler.Working? && Killed(s.leader)
  {
    NothingYet(NewPod(RegionserverPod));
    hide Run;
    steps, s := Extend(RegionserverPod, [], NewPod(RegionserverPod), Follower);
    steps, s := Extend(RegionserverPod, steps, s, SignalFollower(true));
    steps, s := Extend(RegionserverPod, steps, s, SignalLeader(false));
    QuiescentIf(s);
  }

  /** Both scripts survive a SIGTERM before their traps. */
  lemma BothSurvive() returns (steps: seq<Step>)
    ensures Shows(steps, Container(Booting, Idle, Untrapped(true), false),
        Container(Booting, Idle, Untrapped(true), false),
                  false, false, false)
  {
    NothingYet(NewPod(RegionserverPod));
    var s;
    hide Run;
    steps, s := Extend(RegionserverPod, [], NewPod(RegionserverPod), SignalLeader(true));
    steps, s := Extend(RegionserverPod, steps, s, SignalFollower(true));
  }

  /** Then it is lost: both daemons are launched and run on. */
  lemma BothMayMissTheSignal() returns (steps: seq<Step>, s: State)
    ensures Run(NewPod(RegionserverPod), steps) == Some(s) && Quiescent(s)
    ensures s.leader.up && s.follower.up && !Trapped(s.leader) && !Trapped(s.follower)
  {
    hide Shows;
    steps := BothSurvive();
    steps := DatanodeUp(Untrapped(true), steps);
    steps := TrapSet(Untrapped(true), steps);
    steps := RegionserverUp(Untrapped(true), steps);
    s := Shown(steps, Container(Waiting, Idle, Untrapped(true), true), Container(Waiting, Idle, Untrapped(true), true),
               true, true, false);
    QuiescentIf(s);
  }
}
