/** One run of a pipeline: its processes, the goroutines that wait for them and the
    supervisor that ends with all of them (pipelineRun of pipeline_source.go).

    Processes are numbered from 0. They end when they like; signals only make that
    more likely. The exits of the source's channel are taken in the order sent. */
module PipelineRun {
  import opened Basics

  datatype Process =
    | Unstarted
    | Live
    | Ended                          // not waited for yet
    | Reaped                         // waited for, exit not sent yet
    | Sent
    | Discarded                      // killed and waited for by a launch that failed

  datatype Supervisor =
    | Launching(started: nat)
    | Undoing(next: nat, started: nat)   // a start failed: kills and waits for the earlier ones
    | Collecting                     // until the window ends or all have exited
    | Judging
    | Draining(remaining: nat)
    | Done

  datatype World = World(processes: seq<Process>, exits: seq<nat>, finished: seq<nat>, supervisor: Supervisor,
                         stopping: bool, failed: seq<nat>)

  function Repeat(n: nat): (s: seq<Process>)
    ensures |s| == n && forall i :: 0 <= i < n ==> s[i] == Unstarted
  {
    seq(n, _ => Unstarted)
  }

  function Start(n: nat): World {
    World(Repeat(n), [], [], Launching(0), false, [])
  }

  datatype Action =
    | Launch(ok: bool) | Launched | Undo
    | Exits(i: nat) | Reap(i: nat) | Send(i: nat)
    | Terminate
    | Take | WindowEnds | Judge | Finish

  predicate Enabled(w: World, a: Action) {
    match a
    case Launch(_) => w.supervisor.Launching? && w.supervisor.started < |w.processes|
    case Launched => w.supervisor.Launching? && w.supervisor.started == |w.processes|
    case Undo => w.supervisor.Undoing? && w.supervisor.started <= |w.processes|
    case Exits(i) => i < |w.processes| && w.processes[i].Live?
    case Reap(i) => i < |w.processes| && w.processes[i].Ended? && !w.supervisor.Launching? && !w.supervisor.Undoing?
    case Send(i) => i < |w.processes| && w.processes[i].Reaped?
    case Terminate => true
    case Take =>
      w.exits != [] &&
      ((w.supervisor.Collecting? && |w.finished| < |w.processes|) || (w.supervisor.Draining? && w.supervisor.remaining > 0))
    case WindowEnds => w.supervisor.Collecting? && w.finished != []
    case Judge => w.supervisor.Judging?
    case Finish => w.supervisor.Draining? && w.supervisor.remaining == 0
  }

  /** The supervisor goes on after an exit it took. */
  function Taken(s: Supervisor): Supervisor {
    if s.Draining? && s.remaining > 0 then Draining(s.remaining - 1) else s
  }

  function Next(w: World, a: Action): World
    requires Enabled(w, a)
  {
    match a
    case Launch(ok) =>
      var k := w.supervisor.started;
      if ok then w.(processes := w.processes[k := Live], supervisor := Launching(k + 1)) else w.(supervisor := Undoing(0, k))
    case Launched => w.(supervisor := Collecting)
    case Undo =>
      var k := w.supervisor.next;
      if k >= w.supervisor.started then w.(supervisor := Done)
      else w.(processes := w.processes[k := Discarded], supervisor := Undoing(k + 1, w.supervisor.started))
    case Exits(i) => w.(processes := w.processes[i := Ended])
    case Reap(i) => w.(processes := w.processes[i := Reaped])
    case Send(i) => w.(processes := w.processes[i := Sent], exits := w.exits + [i])
    case Terminate => w.(stopping := true)
    case Take => w.(exits := w.exits[1..], finished := w.finished + [w.exits[0]], supervisor := Taken(w.supervisor))
    case WindowEnds => w.(supervisor := Judging)
    case Judge =>
      w.(supervisor := Draining(if |w.finished| <= |w.processes| then |w.processes| - |w.finished| else 0),
         failed := if w.stopping then [] else w.finished)
    case Finish => w.(supervisor := Done)
  }

  // ----- invariant

  /** The exits sent, each once: taken or still in the channel. */
  ghost predicate Messages(processes: seq<Process>, finished: seq<nat>, exits: seq<nat>) {
    && NoDuplicates(finished + exits)
    && forall i :: i in finished + exits ==> i < |processes| && processes[i].Sent?
  }

  predicate Gone(p: Process) {
    p.Unstarted? || p.Reaped? || p.Sent? || p.Discarded?
  }

  predicate LaunchOk(processes: seq<Process>, s: Supervisor) {
    match s
    case Launching(started) => started <= |processes| && forall i :: started <= i < |processes| ==> processes[i].Unstarted?
    case Undoing(next, started) =>
      && next <= started <= |processes|
      && (forall i :: 0 <= i < next ==> processes[i].Discarded?)
      && forall i :: started <= i < |processes| ==> processes[i].Unstarted?
    case Done => forall i :: 0 <= i < |processes| ==> Gone(processes[i])
    case _ => true
  }

  predicate Counted(processes: seq<Process>, finished: seq<nat>, s: Supervisor) {
    s.Draining? ==> s.remaining + |finished| == |processes|
  }

  ghost predicate Inv(w: World) {
    && Messages(w.processes, w.finished, w.exits)
    && LaunchOk(w.processes, w.supervisor)
    && Counted(w.processes, w.finished, w.supervisor)
    && (w.supervisor.Launching? || w.supervisor.Undoing? ==> w.finished == [] && NobodyWaits(w.processes))
    && w.failed <= w.finished
  }

  /** No goroutine waits for a process yet. */
  predicate NobodyWaits(processes: seq<Process>) {
    forall i :: 0 <= i < |processes| ==> !processes[i].Reaped? && !processes[i].Sent?
  }

  function Below(n: nat): (all: set<nat>)
    ensures |all| == n && forall x: nat :: x in all <==> x < n
  {
    if n == 0 then {} else Below(n - 1) + {n - 1}
  }

  function Members(s: seq<nat>): set<nat> {
    set x | x in s
  }

  lemma {:induction false} SizeOf(s: seq<nat>)
    requires NoDuplicates(s)
    ensures |Members(s)| == |s|
  {
    if s == [] {
      assert Members(s) == {};
    } else {
      var rest := s[..|s| - 1];
      SizeOf(rest);
      assert Members(s) == Members(rest) + {s[|s| - 1]};
    }
  }

  lemma SubsetSize(a: set<nat>, b: set<nat>)
    requires a <= b
    ensures |a| <= |b| && (|a| == |b| ==> a == b)
  {
    assert b == a + (b - a);
    assert |b| == |a| + |b - a|;
  }

  /** A list without duplicates of numbers below n has at most n, and with n has all. */
  lemma Pigeonhole(s: seq<nat>, n: nat)
    requires NoDuplicates(s) && forall x :: x in s ==> x < n
    ensures |s| <= n
    ensures |s| == n ==> forall x: nat :: x < n ==> x in s
  {
    SizeOf(s);
    SubsetSize(Members(s), Below(n));
    forall x: nat | |s| == n && x < n ensures x in s {
      assert x in Below(n);
      assert x in Members(s);
    }
  }

  lemma PrefixDistinct(a: seq<nat>, b: seq<nat>)
    requires NoDuplicates(a + b)
    ensures NoDuplicates(a)
  {
    forall i, j | 0 <= i < j < |a| ensures a[i] != a[j] {
      assert (a + b)[i] == a[i] && (a + b)[j] == a[j];
    }
  }

  /** When the count of exits to come reaches zero, every process was waited for. */
  lemma AllTaken(processes: seq<Process>, finished: seq<nat>, exits: seq<nat>)
    requires Messages(processes, finished, exits)
    ensures |finished| <= |processes|
    ensures |finished| == |processes| ==> forall i :: 0 <= i < |processes| ==> processes[i].Sent?
  {
    PrefixDistinct(finished, exits);
    assert forall x :: x in finished ==> x in finished + exits;
    Pigeonhole(finished, |processes|);
  }

  lemma TakeKeepsMessages(processes: seq<Process>, finished: seq<nat>, exits: seq<nat>)
    requires Messages(processes, finished, exits) && exits != []
    ensures Messages(processes, finished + [exits[0]], exits[1..])
  {
    assert (finished + [exits[0]]) + exits[1..] == finished + exits;
  }

  lemma SendKeepsMessages(processes: seq<Process>, finished: seq<nat>, exits: seq<nat>, i: nat)
    requires Messages(processes, finished, exits) && i < |processes| && processes[i].Reaped?
    ensures Messages(processes[i := Sent], finished, exits + [i])
  {
    assert finished + (exits + [i]) == (finished + exits) + [i];
    assert i !in finished + exits;
  }

  lemma StepKeepsInv(w: World, a: Action, v: World)
    requires Inv(w) && Enabled(w, a) && v == Next(w, a)
    ensures Inv(v)
  {
    match a
    case Take => TakeKeepsMessages(w.processes, w.finished, w.exits);
    case Send(i) => SendKeepsMessages(w.processes, w.finished, w.exits, i);
    case Judge => AllTaken(w.processes, w.finished, w.exits);
    case Finish => AllTaken(w.processes, w.finished, w.exits);
    case _ =>
  }

  // ----- over every run

  ghost predicate Run(n: nat, ws: seq<World>, acts: seq<Action>) {
    && |ws| == |acts| + 1
    && ws[0] == Start(n)
    && forall i {:trigger acts[i]} :: 0 <= i < |acts| ==> Enabled(ws[i], acts[i]) && ws[i + 1] == Next(ws[i], acts[i])
  }

  lemma {:induction false} RunKeepsInv(n: nat, ws: seq<World>, acts: seq<Action>, i: nat)
    requires Run(n, ws, acts) && i < |ws|
    ensures Inv(ws[i])
  {
    if i > 0 {
      RunKeepsInv(n, ws, acts, i - 1);
      StepKeepsInv(ws[i - 1], acts[i - 1], ws[i]);
    }
  }

  /** A run is done only when none of its processes is left and each one that was
      started has been waited for, whether the launch failed halfway or not. */
  lemma DoneMeansReaped(n: nat, ws: seq<World>, acts: seq<Action>, i: nat, p: nat)
    requires Run(n, ws, acts) && i < |ws| && ws[i].supervisor.Done? && p < |ws[i].processes|
    ensures !ws[i].processes[p].Live? && !ws[i].processes[p].Ended?
  {
    RunKeepsInv(n, ws, acts, i);
    assert Gone(ws[i].processes[p]);
  }

  /** The reported failure names processes that have exited, first the one that ended
      the run. */
  lemma FailureNamesTheCause(n: nat, ws: seq<World>, acts: seq<Action>, i: nat)
    requires Run(n, ws, acts) && i < |ws| && ws[i].failed != []
    ensures ws[i].finished != [] && ws[i].failed[0] == ws[i].finished[0]
    ensures forall p :: p in ws[i].failed ==> p < |ws[i].processes| && ws[i].processes[p].Sent?
  {
    RunKeepsInv(n, ws, acts, i);
    forall p | p in ws[i].failed ensures p < |ws[i].processes| && ws[i].processes[p].Sent? {
      assert p in ws[i].finished + ws[i].exits;
    }
  }

  // ----- when a failure is reported

  /** The run was asked to end. */
  ghost predicate Asked(acts: seq<Action>, i: nat)
    requires i <= |acts|
  {
    exists k :: 0 <= k < i && acts[k] == Terminate
  }

  lemma StepStops(w: World, a: Action, v: World)
    requires Enabled(w, a) && v == Next(w, a)
    ensures v.stopping == (w.stopping || a == Terminate)
    ensures v.supervisor.Judging? ==> v.finished != [] || w.supervisor.Judging?
    ensures w.finished != [] ==> v.finished != []
  {
  }

  lemma {:induction false} StoppingMeansAsked(n: nat, ws: seq<World>, acts: seq<Action>, i: nat)
    requires Run(n, ws, acts) && i < |ws|
    ensures ws[i].stopping <==> Asked(acts, i)
    ensures ws[i].supervisor.Judging? ==> ws[i].finished != []
  {
    if i > 0 {
      StoppingMeansAsked(n, ws, acts, i - 1);
      assert Enabled(ws[i - 1], acts[i - 1]) && ws[i] == Next(ws[i - 1], acts[i - 1]);
      StepStops(ws[i - 1], acts[i - 1], ws[i]);
      assert acts[i - 1] == Terminate ==> Asked(acts, i);
    }
  }

  /** The end of a run is a failure exactly when nobody had asked for it, and then all exits
      taken so far are reported. */
  lemma FailureIsReportedExactly(n: nat, ws: seq<World>, acts: seq<Action>, i: nat)
    requires Run(n, ws, acts) && i < |acts| && acts[i] == Judge
    ensures ws[i + 1].failed == if Asked(acts, i) then [] else ws[i].finished
    ensures ws[i].finished != []
  {
    StoppingMeansAsked(n, ws, acts, i);
    assert Enabled(ws[i], acts[i]) && ws[i + 1] == Next(ws[i], acts[i]);
  }

  ghost predicate Reachable(n: nat, w: World) {
    exists ws: seq<World>, acts: seq<Action> :: Run(n, ws, acts) && ws[|ws| - 1] == w
  }

  lemma StepIsReachable(n: nat, w: World, a: Action, v: World)
    requires Reachable(n, w) && Enabled(w, a) && v == Next(w, a)
    ensures Reachable(n, v)
  {
    var ws: seq<World>, acts: seq<Action> :| Run(n, ws, acts) && ws[|ws| - 1] == w;
    var longer, more := ws + [v], acts + [a];
    forall i | 0 <= i < |more| ensures Enabled(longer[i], more[i]) && longer[i + 1] == Next(longer[i], more[i]) {
      if i < |acts| {
        assert longer[i] == ws[i] && longer[i + 1] == ws[i + 1] && more[i] == acts[i];
      }
    }
    assert Run(n, longer, more);
  }

  /** One process, which has exited, and the same before. */
  const EXITED := World([Sent], [], [0], Collecting, false, [])

  const LIVE := World([Live], [], [], Collecting, false, [])

  lemma ProcessLives()
    ensures Reachable(1, LIVE)
  {
    assert Run(1, [Start(1)], []);
    var w1 := Next(Start(1), Launch(true));
    StepIsReachable(1, Start(1), Launch(true), w1);
    var w2 := Next(w1, Launched);
    StepIsReachable(1, w1, Launched, w2);
    assert w2 == LIVE;
  }

  lemma ExitIsTaken()
    ensures Reachable(1, EXITED)
  {
    ProcessLives();
    var w1 := Next(LIVE, Exits(0));
    StepIsReachable(1, LIVE, Exits(0), w1);
    var w2 := Next(w1, Reap(0));
    StepIsReachable(1, w1, Reap(0), w2);
    var w3 := Next(w2, Send(0));
    StepIsReachable(1, w2, Send(0), w3);
    var w4 := Next(w3, Take);
    StepIsReachable(1, w3, Take, w4);
    assert w4 == EXITED;
  }

  /** A run that ends on its own ends with its failure reported. */
  lemma FailureIsReported() returns (w: World)
    ensures Reachable(1, w) && w.supervisor.Done? && w.failed == [0]
  {
    ExitIsTaken();
    var w1 := Next(EXITED, WindowEnds);
    StepIsReachable(1, EXITED, WindowEnds, w1);
    var w2 := Next(w1, Judge);
    StepIsReachable(1, w1, Judge, w2);
    w := Next(w2, Finish);
    StepIsReachable(1, w2, Finish, w);
  }
}
