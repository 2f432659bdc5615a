/** How a stop can come out: from every reachable state it can still return, unless the node it is busy with gets
  * clogged; and once a worker is choked it never returns. */
module Returning {
  import opened Graphs
  import opened Messages
  import opened Nodes
  import opened Systems
  import opened Safety
  import opened Shutdown
  import opened Clogs
  import opened Liveness
  import opened Drain

  // ----- measures for any well-formed pipeline -----

  lemma NamesInOrder(names: set<Name>) returns (order: seq<Name>)
    ensures Distinct(order) && forall n :: n in order <==> n in names
  {
    if names == {} {
      order := [];
    } else {
      var n :| n in names;
      var rest := NamesInOrder(names - {n});
      order := rest + [n];
    }
  }

  function Widest(c: Config, names: seq<Name>): nat
  {
    if names == [] then 0
    else
      var n, w := Last(names), Widest(c, names[..|names| - 1]);
      if n in c.dests && |c.dests[n]| > w then |c.dests[n]| else w
  }

  lemma {:induction false} WidestIsWidest(c: Config, names: seq<Name>, n: Name)
    requires n in names && n in c.dests
    ensures |c.dests[n]| <= Widest(c, names)
  {
    if n != Last(names) {
      assert n in names[..|names| - 1] by {
        assert names == names[..|names| - 1] + [Last(names)];
      }
      WidestIsWidest(c, names[..|names| - 1], n);
    }
  }

  lemma GaugeExists(c: Config) returns (g: Gauge, names: seq<Name>)
    requires WellFormed(c)
    ensures Fits(c, g) && Covers(c, names)
  {
    names := NamesInOrder(c.names);
    var level := LevelsExist(c);
    forall n | n in c.names && n in c.dests
      ensures |c.dests[n]| <= Widest(c, names)
    {
      WidestIsWidest(c, names, n);
    }
    g := Gauge(level, |c.layers|, Widest(c, names));
  }

  // ----- going on -----

  lemma MovesOne(c: Config, s: State, a: Action, run: seq<State>, steps: seq<Action>)
    requires Shape(c, s) && Enabled(c, s, a) && Moves(c, run, steps) && run[0] == Apply(c, s, a)
    ensures Moves(c, [s] + run, [a] + steps) && Last([s] + run) == Last(run)
  {
    var longer, more := [s] + run, [a] + steps;
    forall i | 0 <= i < |more|
      ensures Shape(c, longer[i]) && Enabled(c, longer[i], more[i]) && longer[i + 1] == Apply(c, longer[i], more[i])
    {
      assert i > 0 ==> longer[i] == run[i - 1] && more[i] == steps[i - 1] && longer[i + 1] == run[i];
    }
  }

  lemma MovesNone(c: Config, s: State)
    ensures Moves(c, [s], [])
  {
  }

  /** From every state the invariant describes, the runtime can run down, until no thread can move by itself. */
  lemma {:induction false} RunsDown(c: Config, g: Gauge, names: seq<Name>, s: State)
    returns (run: seq<State>, steps: seq<Action>)
    requires Inv(c, s) && WellFormed(c) && Fits(c, g) && Covers(c, names)
    ensures Moves(c, run, steps) && run[0] == s && Inv(c, Last(run)) && Shape(c, Last(run)) && !CanMove(c, Last(run))
    decreases Cost(c, g, s, names)
  {
    hide Measure, WellFormed, Fits, Covers, Inv, Moves, Enabled, Apply;
    InvShape(c, s);
    if CanMove(c, s) {
      var a :| Internal(c, s, a);
      StepKeepsInv(c, s, a);
      StepMeasure(c, g, s, names, a);
      CostIsMeasure(c, g, s, names);
      CostIsMeasure(c, g, Apply(c, s, a), names);
      var rest, more := RunsDown(c, g, names, Apply(c, s, a));
      MovesOne(c, s, a, rest, more);
      run, steps := [s] + rest, [a] + more;
    } else {
      MovesNone(c, s);
      run, steps := [s], [];
    }
  }

  function Cost(c: Config, g: Gauge, s: State, names: seq<Name>): nat
  {
    if Measure(c, g, s, names) >= 0 then Measure(c, g, s, names) else 0
  }

  lemma CostIsMeasure(c: Config, g: Gauge, s: State, names: seq<Name>)
    requires Inv(c, s) && Fits(c, g) && Covers(c, names)
    ensures Cost(c, g, s, names) == Measure(c, g, s, names)
  {
    hide Measure, Inv, Fits, Covers;
    MeasureNonNegative(c, g, s, names);
  }

  // ----- the sources that may still produce -----

  predicate Producing(ns: NodeState)
  {
    ns.source.SLoop? || ns.source.SCall? || ns.source.SHave?
  }

  function Producers(s: State, names: seq<Name>): nat
  {
    if names == [] then 0
    else
      var n := Last(names);
      Producers(s, names[..|names| - 1]) + (if n in s.nodes && Producing(s.nodes[n]) then 1 else 0)
  }

  lemma {:induction false} ProducersFall(s: State, t: State, names: seq<Name>)
    requires t.nodes.Keys == s.nodes.Keys
    requires forall n :: n in names && n in s.nodes && Producing(t.nodes[n]) ==> Producing(s.nodes[n])
    ensures Producers(t, names) <= Producers(s, names)
    ensures (exists n :: n in names && n in s.nodes && Producing(s.nodes[n]) && !Producing(t.nodes[n]))
            ==> Producers(t, names) < Producers(s, names)
  {
    if names != [] {
      assert names == names[..|names| - 1] + [Last(names)];
      ProducersFall(s, t, names[..|names| - 1]);
    }
  }

  /** Pushing a message on starts no source. */
  lemma PushStartsNone(c: Config, s: State, a: Action, n: Name)
    requires Shape(c, s) && Pushes(a) && Enabled(c, s, a) && n in c.names
    ensures n in Apply(c, s, a).nodes && Apply(c, s, a).nodes[n].source == s.nodes[n].source
  {
    if OfWorker(a) || OfUpdate(a) {
      OwnStepStartsNone(c, s, a, n);
    } else {
      PutStartsNone(c, s, a, n);
    }
  }

  lemma OwnStepStartsNone(c: Config, s: State, a: Action, n: Name)
    requires Shape(c, s) && Enabled(c, s, a) && n in c.names && (OfWorker(a) || OfUpdate(a))
    ensures n in Apply(c, s, a).nodes && Apply(c, s, a).nodes[n].source == s.nodes[n].source
  {
    hide Enabled, Apply, OwnMay, OwnAfter;
    OwnStep(c, s, a);
    if a.n == n && OfWorker(a) {
      WorkerLeaves(s.nodes[n], a);
    } else if a.n == n {
      UpdateLeaves(s.nodes[n], a);
    }
  }

  lemma PutStartsNone(c: Config, s: State, a: Action, n: Name)
    requires Shape(c, s) && Enabled(c, s, a) && n in c.names && (a.PutCheck? || a.PutEnqueue?)
    ensures n in Apply(c, s, a).nodes && Apply(c, s, a).nodes[n].source == s.nodes[n].source
  {
    hide Script, Room, OpReady, JoinReady, Stops, Stamped, Propagates, BeginTx;
  }

  /** Nor does winding a node up. */
  lemma WindingUpStartsNone(c: Config, s: State, a: Action, m: Name, n: Name)
    requires Shape(c, s) && WindsUp(a, m) && Internal(c, s, a) && n in c.names
    requires a.PipeStep? ==> |StartScript(c.startLayers)| < s.pc
    requires a.SourceTop? || a.SourceCheck? ==> m in c.names && s.nodes[m].stopSource
    ensures n in Apply(c, s, a).nodes && (Producing(Apply(c, s, a).nodes[n]) ==> Producing(s.nodes[n]))
  {
    if a.PipeStep? {
      PipeStartsNone(c, s, a, n);
    } else if OfWorker(a) || OfUpdate(a) {
      OwnStepStartsNone(c, s, a, n);
    } else {
      EndStartsNone(c, s, a, m, n);
    }
  }

  lemma PipeStartsNone(c: Config, s: State, a: Action, n: Name)
    requires Shape(c, s) && Enabled(c, s, a) && n in c.names && a.PipeStep? && |StartScript(c.startLayers)| < s.pc
    ensures n in Apply(c, s, a).nodes && Apply(c, s, a).nodes[n] == s.nodes[n]
  {
    NotServing(c, s.pc);
    hide Script, StartScript, BeginTx;
    BeginKeepsNodes();
  }

  lemma EndStartsNone(c: Config, s: State, a: Action, m: Name, n: Name)
    requires Shape(c, s) && Enabled(c, s, a) && n in c.names
    requires a.ControlFlag? || ((a.SourceTop? || a.SourceCheck?) && a.n == m && m in c.names && s.nodes[m].stopSource)
    ensures n in Apply(c, s, a).nodes && (Producing(Apply(c, s, a).nodes[n]) ==> Producing(s.nodes[n]))
  {
    hide Enabled, Apply, OwnMay, OwnAfter;
    OwnStep(c, s, a);
    if a.n == n && a.ControlFlag? {
      ControlLeaves(s.nodes[n], a);
    } else if a.n == n {
      ToldSourceEnds(s.nodes[n], a);
    }
  }

  lemma ToldSourceEnds(ns: NodeState, a: Action)
    requires (a.SourceTop? || a.SourceCheck?) && OwnMay(ns, a) && ns.stopSource
    ensures !Producing(OwnAfter(ns, a))
  {
  }

  /** A step that pushes or winds up brings the end nearer. */
  ghost predicate Nearer(c: Config, g: Gauge, names: seq<Name>, s: State, t: State)
  {
    && Inv(c, t) && s.pc <= t.pc
    && Producers(t, names) <= Producers(s, names) && Cost(c, g, t, names) < Cost(c, g, s, names)
  }

  lemma StepIsNearer(c: Config, g: Gauge, names: seq<Name>, s: State, a: Action)
    requires Inv(c, s) && WellFormed(c) && Fits(c, g) && Covers(c, names) && Shape(c, s) && Enabled(c, s, a)
    requires !Arrival(a) && Apply(c, s, a).nodes.Keys == c.names
    requires forall n :: n in c.names ==> (Producing(Apply(c, s, a).nodes[n]) ==> Producing(s.nodes[n]))
    ensures Nearer(c, g, names, s, Apply(c, s, a))
  {
    hide Measure, WellFormed, Fits, Inv, Enabled, Apply, Producing;
    StepKeepsInv(c, s, a);
    StepMeasure(c, g, s, names, a);
    CostIsMeasure(c, g, s, names);
    CostIsMeasure(c, g, Apply(c, s, a), names);
    ProducersFall(s, Apply(c, s, a), names);
    PcStep(c, s, a);
  }

  lemma PushIsNearer(c: Config, g: Gauge, names: seq<Name>, s: State) returns (a: Action)
    requires Inv(c, s) && WellFormed(c) && Fits(c, g) && Covers(c, names) && Shape(c, s) && CanPush(c, s)
    ensures Enabled(c, s, a) && Nearer(c, g, names, s, Apply(c, s, a))
  {
    hide WellFormed, Fits, Covers, Inv, Enabled, Apply, Nearer;
    a :| Pushes(a) && Enabled(c, s, a);
    PushKeepsNames(c, s, a);
    forall n | n in c.names
      ensures Producing(Apply(c, s, a).nodes[n]) ==> Producing(s.nodes[n])
    {
      PushStartsNone(c, s, a, n);
    }
    StepIsNearer(c, g, names, s, a);
  }

  lemma PushKeepsNames(c: Config, s: State, a: Action)
    requires Inv(c, s) && WellFormed(c) && Shape(c, s) && Enabled(c, s, a)
    ensures Apply(c, s, a).nodes.Keys == c.names
  {
    hide WellFormed, Enabled, Apply, NodesOk, TxsOk, Quiet, Streams, Signals, ScriptOk;
    StepKeepsInv(c, s, a);
  }

  lemma WindingUpIsNearer(c: Config, g: Gauge, names: seq<Name>, s: State, m: Name) returns (a: Action)
    requires Inv(c, s) && WellFormed(c) && Fits(c, g) && Covers(c, names) && Shape(c, s) && CanWindUp(c, s, m)
    requires |StartScript(c.startLayers)| < s.pc
    ensures Enabled(c, s, a) && Nearer(c, g, names, s, Apply(c, s, a))
  {
    hide WellFormed, Fits, Covers, Inv, Enabled, Apply, Nearer, Script, StartScript;
    a :| WindsUp(a, m) && Internal(c, s, a)
         && (a.SourceTop? || a.SourceCheck? ==> m in c.names && s.nodes[m].stopSource);
    PushKeepsNames(c, s, a);
    forall n | n in c.names
      ensures Producing(Apply(c, s, a).nodes[n]) ==> Producing(s.nodes[n])
    {
      WindingUpStartsNone(c, s, a, m, n);
    }
    StepIsNearer(c, g, names, s, a);
  }

  /** A source function that returns after its source was told to stop: what it returns is dropped, the source ends. */
  lemma CallEnds(c: Config, names: seq<Name>, s: State, n: Name) returns (t: State, run: seq<State>, steps: seq<Action>)
    requires Inv(c, s) && WellFormed(c) && Covers(c, names) && n in c.names && Shape(c, s) && Calling(s.nodes[n])
    ensures Moves(c, run, steps) && run[0] == s && Last(run) == t && Inv(c, t) && t.pc == s.pc
    ensures Producers(t, names) < Producers(s, names)
  {
    hide WellFormed, Inv, Script, Enabled, Apply, Moves;
    var late := Message(0, n, Object("", ""), None);
    var mid := SetNode(s, n, SourceReturn(s.nodes[n], late));
    CallReturns(c, s, n, late);
    StepKeepsInv(c, s, SourceYield(n, late));
    InvShape(c, mid);
    t := SetNode(mid, n, SourceGuard(mid.nodes[n]));
    LateIsDropped(c, mid, n);
    StepKeepsInv(c, mid, SourceCheck(n));
    ProducersFall(s, t, names);
    MovesNone(c, t);
    MovesOne(c, mid, SourceCheck(n), [t], []);
    MovesOne(c, s, SourceYield(n, late), [mid] + [t], [SourceCheck(n)] + []);
    run, steps := [s] + ([mid] + [t]), [SourceYield(n, late)] + ([SourceCheck(n)] + []);
  }

  lemma CallReturns(c: Config, s: State, n: Name, msg: Message)
    requires Shape(c, s) && n in c.names && s.nodes[n].source.SCall? && !IsControl(msg)
    ensures Enabled(c, s, SourceYield(n, msg))
    ensures Apply(c, s, SourceYield(n, msg)) == SetNode(s, n, SourceReturn(s.nodes[n], msg))
  {
  }

  lemma LateIsDropped(c: Config, s: State, n: Name)
    requires Shape(c, s) && n in c.names && s.nodes[n].source.SHave? && s.nodes[n].stopSource
    ensures Enabled(c, s, SourceCheck(n))
    ensures Apply(c, s, SourceCheck(n)) == SetNode(s, n, SourceGuard(s.nodes[n]))
  {
  }

  lemma MovesJoin(c: Config, a: seq<State>, x: seq<Action>, b: seq<State>, y: seq<Action>)
    requires Moves(c, a, x) && Moves(c, b, y) && Last(a) == b[0]
    ensures b != [] && Moves(c, a + b[1..], x + y) && Last(a + b[1..]) == Last(b) && (a + b[1..])[0] == a[0]
  {
    var run, steps := a + b[1..], x + y;
    forall i | 0 <= i < |steps|
      ensures Shape(c, run[i]) && Enabled(c, run[i], steps[i]) && run[i + 1] == Apply(c, run[i], steps[i])
    {
      if i < |x| {
        assert run[i] == a[i] && run[i + 1] == a[i + 1] && steps[i] == x[i];
      } else {
        assert run[i] == b[i - |x|] && run[i + 1] == b[i - |x| + 1] && steps[i] == y[i - |x|];
      }
    }
  }

  /** The pipeline is busy with a node that is clogged or held up. */
  ghost predicate StuckAt(c: Config, s: State, n: Name)
    requires Shape(c, s)
  {
    n in c.names && Concerns(c, s, n) && (Clogged(c, s.nodes[n]) || HeldUp(c, s, n))
  }

  /** Where a stop has come to: it has returned, or it is stuck. */
  ghost predicate Settled(c: Config, s: State)
  {
    Shape(c, s) && (s.pc == |Script(c)| || exists n :: StuckAt(c, s, n))
  }

  lemma {:induction false} CanSettleFrom(c: Config, g: Gauge, names: seq<Name>, s: State)
    returns (run: seq<State>, steps: seq<Action>)
    requires Inv(c, s) && WellFormed(c) && Fits(c, g) && Covers(c, names) && |StartScript(c.startLayers)| < s.pc
    ensures Moves(c, run, steps) && run[0] == s && Settled(c, Last(run))
    decreases Producers(s, names), Cost(c, g, s, names)
  {
    hide WellFormed, Fits, Covers, Inv, Moves, Enabled, Apply, CanPush, CanWindUp, Clogged, Calling, HeldUp;
    hide Script, StartScript;
    InvShape(c, s);
    if Settled(c, s) {
      MovesNone(c, s);
      return [s], [];
    }
    PcWithin(c, s);
    FitsLevels(c, g);
    var n := PipeGoesOn(c, s, g.level);
    assert !StuckAt(c, s, n);
    if CanPush(c, s) {
      var a := PushIsNearer(c, g, names, s);
      var rest, more := CanSettleFrom(c, g, names, Apply(c, s, a));
      MovesOne(c, s, a, rest, more);
      run, steps := [s] + rest, [a] + more;
    } else if CanWindUp(c, s, n) {
      var a := WindingUpIsNearer(c, g, names, s, n);
      var rest, more := CanSettleFrom(c, g, names, Apply(c, s, a));
      MovesOne(c, s, a, rest, more);
      run, steps := [s] + rest, [a] + more;
    } else {
      var t, call, how := CallEnds(c, names, s, n);
      var rest, more := CanSettleFrom(c, g, names, t);
      MovesJoin(c, call, how, rest, more);
      run, steps := call + rest[1..], how + more;
    }
  }

  lemma FitsLevels(c: Config, g: Gauge)
    requires Fits(c, g)
    ensures Levelled(c, g.level)
  {
  }

  lemma PcWithin(c: Config, s: State)
    requires Shape(c, s)
    ensures s.pc <= |Script(c)|
  {
  }

  /** From every reachable state with a stop under way there is a way on that ends in its return, or at a node that
    * is clogged while the pipeline is busy with it. */
  lemma StopCanSettle(c: Config, past: seq<State>) returns (run: seq<State>, steps: seq<Action>)
    requires WellFormed(c) && Run(c, past) && |StartScript(c.startLayers)| < Last(past).pc
    ensures Moves(c, run, steps) && run[0] == Last(past) && Settled(c, Last(run))
  {
    hide WellFormed, Inv, Moves, Settled;
    RunKeepsInv(c, past);
    var g, names := GaugeExists(c);
    run, steps := CanSettleFrom(c, g, names, Last(past));
  }

  // ----- no way back -----

  lemma {:induction false} ChokedStays(c: Config, run: seq<State>, steps: seq<Action>, n: Name)
    requires WellFormed(c) && Moves(c, run, steps) && Inv(c, run[0]) && n in c.names
    requires n in run[0].nodes && Choked(c, run[0].nodes[n])
    ensures n in Last(run).nodes && Choked(c, Last(run).nodes[n]) && Inv(c, Last(run))
    decreases |steps|
  {
    hide Inv, WellFormed, Choked, Enabled, Apply, Shut;
    if steps != [] {
      var before, init := run[..|run| - 1], steps[..|steps| - 1];
      assert Moves(c, before, init);
      ChokedStays(c, before, init, n);
      StepKeepsInv(c, Last(before), Last(steps));
      ClogsAreForever(c, Last(before), Last(steps), n);
    }
  }

  /** Once a worker is choked, no way on leads to the return of `stop`. */
  lemma ChokedNeverReturns(c: Config, past: seq<State>, n: Name, run: seq<State>, steps: seq<Action>)
    requires WellFormed(c) && Run(c, past) && n in c.names && n in Last(past).nodes && Choked(c, Last(past).nodes[n])
    requires Moves(c, run, steps) && run[0] == Last(past)
    ensures n in Last(run).nodes && Choked(c, Last(run).nodes[n]) && Last(run).pc < |Script(c)|
  {
    hide Inv, WellFormed, Script;
    RunKeepsInv(c, past);
    ChokedStays(c, run, steps, n);
    InvShape(c, Last(run));
    PcWithin(c, Last(run));
    if Last(run).pc == |Script(c)| {
      StoppedMeansEnded(c, Last(run), n);
    }
  }

  lemma {:induction false} HeldUpStays(c: Config, run: seq<State>, steps: seq<Action>, who: Sender)
    requires WellFormed(c) && Moves(c, run, steps) && Inv(c, run[0]) && HeldUpBy(c, run[0], who)
    ensures HeldUpBy(c, Last(run), who) && Inv(c, Last(run))
    decreases |steps|
  {
    hide Inv, WellFormed, HeldUpBy, Enabled, Apply;
    if steps != [] {
      var before, init := run[..|run| - 1], steps[..|steps| - 1];
      assert Moves(c, before, init);
      HeldUpStays(c, before, init, who);
      StepKeepsInv(c, Last(before), Last(steps));
      HeldUpIsForever(c, Last(before), Last(steps), who);
    }
  }

  /** Once a thread is held up it is so for good, and no way on leads to the return of `stop`. */
  lemma HeldUpNeverReturns(c: Config, past: seq<State>, who: Sender, run: seq<State>, steps: seq<Action>)
    requires WellFormed(c) && Run(c, past) && HeldUpBy(c, Last(past), who)
    requires Moves(c, run, steps) && run[0] == Last(past)
    ensures HeldUpBy(c, Last(run), who) && Last(run).pc < |Script(c)|
  {
    hide WellFormed, HeldUpBy, NodesOk, TxsOk, Quiet, Streams, Signals, ScriptOk, Script;
    RunKeepsInv(c, past);
    HeldUpStays(c, run, steps, who);
    var s := Last(run);
    PcWithin(c, s);
    HeldUpIsPutting(c, s, who);
    HeldUpIsFeeding(c, s, who);
    TxFacts(c, s, who.node);
    assert who == Worker(who.node) || who == Update(who.node);
    if s.pc == |Script(c)| {
      StoppedMeansEnded(c, s, who.node);
    }
  }
}
