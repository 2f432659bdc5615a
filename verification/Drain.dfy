/** That the runtime comes to rest: every step but the arrival of something new takes a fixed
  * measure down, so a run has at most so many steps as its arrivals pay for. */
module Drain {
  import opened Graphs
  import opened Messages
  import opened Nodes
  import opened Systems
  import opened Safety
  import opened Shutdown
  import opened Clogs
  import opened Liveness

  /** n times t. */
  function Times(n: nat, t: nat): nat
  {
    if n == 0 then 0 else t + Times(n - 1, t)
  }

  lemma {:induction false} TimesMonotone(m: nat, n: nat, t: nat, u: nat)
    requires m <= n && t <= u
    ensures Times(m, t) <= Times(n, u)
  {
    if m > 0 {
      TimesMonotone(m - 1, n - 1, t, u);
    } else if n > 0 {
      TimesMonotone(0, n - 1, t, u);
    }
  }

  /** What one transmission costs a node at the given level, with `width` links at most. */
  function SendCost(c: Config, width: nat, l: nat): nat
    decreases l, 0
  {
    1 + (if l == 0 then 0 else Times(width, 2 + Weight(c, width, l - 1)))
  }

  /** What one queued message costs a node at the given level: its way through the node, and all
    * that one update may send on. */
  function Weight(c: Config, width: nat, l: nat): nat
    decreases l, 1
  {
    14 + Times(c.fanout, SendCost(c, width, l)) + SendCost(c, width, l)
  }

  lemma {:induction false} WeightMonotone(c: Config, width: nat, l: nat, k: nat)
    requires l <= k
    ensures Weight(c, width, l) <= Weight(c, width, k)
    ensures SendCost(c, width, l) <= SendCost(c, width, k)
    decreases l
  {
    if l > 0 {
      WeightMonotone(c, width, l - 1, k - 1);
      TimesMonotone(width, width, 2 + Weight(c, width, l - 1), 2 + Weight(c, width, k - 1));
    }
    TimesMonotone(c.fanout, c.fanout, SendCost(c, width, l), SendCost(c, width, k));
  }

  datatype Gauge = Gauge(level: map<Name, nat>, top: nat, width: nat)

  ghost predicate Fits(c: Config, g: Gauge)
  {
    && Levelled(c, g.level)
    && (forall n :: n in c.names ==> g.level[n] <= g.top)
    && (forall n :: n in c.names && n in c.dests ==> |c.dests[n]| <= g.width)
  }

  /** Per queue still to reach: the reading of its flag, the enqueueing, and the message there. */
  function QueueCost(c: Config, g: Gauge, who: Sender): nat
  {
    match who
    case Pipe => 2 + Weight(c, g.width, g.top)
    case Outside => 0
    case Source(n) => 2 + Weight(c, g.width, if n in g.level then g.level[n] else 0)
    case _ =>
      if who.node in g.level && g.level[who.node] > 0 then 2 + Weight(c, g.width, g.level[who.node] - 1) else 2
  }

  function TxCost(c: Config, g: Gauge, s: State, who: Sender): int
  {
    if who !in s.tx then 0
    else Times(|s.tx[who].left|, QueueCost(c, g, who)) - (if s.tx[who].checked then 1 else 0)
  }

  function WorkerCost(w: nat, pc: WorkerPc): int
  {
    match pc
    case WNew => 1
    case WIdle => 1
    case WHold(_) => w
    case WGive(_) => w - 1
    case WEnded => 0
  }

  function UpdateCost(c: Config, w: nat, t: nat, pc: UpdatePc): int
  {
    match pc
    case UNew => 1
    case UIdle => 1
    case UGot(_) => w - 3
    case UBusy(_, sends) => 2 + (if sends <= c.fanout then Times(c.fanout - sends, t) else 0)
    case UBreak => 1
    case UEnded => 0
  }

  function SourceCost(w: nat, pc: SourcePc): int
  {
    match pc
    case SNew => 3
    case SLoop => 2
    case SCall => 1
    case SHave(_) => w + 5
    case SEnded => 0
  }

  function ControlCost(t: nat, pc: ControlPc): int
  {
    match pc
    case CNone => 0
    case CFlag(_, k) => 7 + t - (if k <= 3 then k else 3)
    case CJoin(_, k) => 3 + t - (if k <= 3 then k else 3)
    case CDone(_) => 0
  }

  function NodeCost(c: Config, g: Gauge, l: nat, ns: NodeState): int
  {
    var w, t := Weight(c, g.width, l), SendCost(c, g.width, l);
    Times(|ns.inbound|, w) + Times(|ns.out|, w - 3) + |ns.spawned|
    + WorkerCost(w, ns.worker) + UpdateCost(c, w, t, ns.update) + SourceCost(w, ns.source) + ControlCost(t, ns.control)
  }

  function SiteCost(c: Config, g: Gauge, s: State, n: Name): int
  {
    if n in s.nodes && n in g.level then
      NodeCost(c, g, g.level[n], s.nodes[n])
      + TxCost(c, g, s, Worker(n)) + TxCost(c, g, s, Update(n)) + TxCost(c, g, s, Source(n))
      + TxCost(c, g, s, Sender.Control(n))
    else 0
  }

  function SitesCost(c: Config, g: Gauge, s: State, names: seq<Name>): int
  {
    if names == [] then 0 else SitesCost(c, g, s, names[..|names| - 1]) + SiteCost(c, g, s, Last(names))
  }

  /** The pipeline's remaining operations, each worth the dearest one. */
  function PipeCost(c: Config, g: Gauge, s: State): int
  {
    (if s.pc <= |Script(c)| then Times(|Script(c)| - s.pc, Weight(c, g.width, g.top) + 6) else 0)
      + TxCost(c, g, s, Pipe)
  }

  function Measure(c: Config, g: Gauge, s: State, names: seq<Name>): int
  {
    SitesCost(c, g, s, names) + PipeCost(c, g, s)
  }

  // ----- only one site changes at a time -----

  lemma {:induction false} OneSiteChanges(c: Config, g: Gauge, s: State, s': State, names: seq<Name>, n: Name)
    requires Distinct(names) && n in names
    requires forall m :: m in names && m != n ==> SiteCost(c, g, s', m) == SiteCost(c, g, s, m)
    ensures SitesCost(c, g, s', names) - SitesCost(c, g, s, names) == SiteCost(c, g, s', n) - SiteCost(c, g, s, n)
  {
    var init, last := names[..|names| - 1], Last(names);
    assert names == init + [last];
    if n == last {
      assert forall i :: 0 <= i < |init| ==> init[i] == names[i] && init[i] != last;
      NoSiteChanges(c, g, s, s', init);
    } else {
      assert n in init;
      OneSiteChanges(c, g, s, s', init, n);
    }
  }

  lemma {:induction false} NoSiteChanges(c: Config, g: Gauge, s: State, s': State, names: seq<Name>)
    requires forall m :: m in names ==> SiteCost(c, g, s', m) == SiteCost(c, g, s, m)
    ensures SitesCost(c, g, s', names) == SitesCost(c, g, s, names)
  {
    if names != [] {
      assert names == names[..|names| - 1] + [Last(names)];
      NoSiteChanges(c, g, s, s', names[..|names| - 1]);
    }
  }

  lemma {:induction false} NodeCostNonNegative(c: Config, g: Gauge, s: State, names: seq<Name>)
    requires Shape(c, s) && TxsOk(c, s) && Fits(c, g) && forall n :: n in names ==> n in c.names
    ensures SitesCost(c, g, s, names) >= 0
  {
    if names != [] {
      var n := Last(names);
      assert names == names[..|names| - 1] + [n];
      NodeCostNonNegative(c, g, s, names[..|names| - 1]);
      TxCostNonNegative(c, g, s, Worker(n));
      TxCostNonNegative(c, g, s, Update(n));
      TxCostNonNegative(c, g, s, Source(n));
      TxCostNonNegative(c, g, s, Sender.Control(n));
    }
  }

  lemma TxCostNonNegative(c: Config, g: Gauge, s: State, who: Sender)
    requires Shape(c, s) && TxsOk(c, s) && Fits(c, g)
    ensures TxCost(c, g, s, who) >= 0
  {
    if who in s.tx {
      assert TxOk(c, s, who, s.tx[who]);
    }
  }

  // ----- what each step costs its own site -----

  lemma TakeCost(c: Config, g: Gauge, l: nat, ns: NodeState)
    requires ns.worker.WIdle? && ns.inbound != []
    ensures NodeCost(c, g, l, Take(ns)) == NodeCost(c, g, l, ns) - 1
  {
    hide UpdateCost, SourceCost, ControlCost, SendCost;
  }

  lemma DecideCost(c: Config, g: Gauge, l: nat, ns: NodeState)
    requires ns.worker.WHold?
    ensures NodeCost(c, g, l, Decide(ns))
            == NodeCost(c, g, l, ns) - (if Forwards(ns) then Weight(c, g.width, l) - 1 else 1)
  {
    hide UpdateCost, SourceCost, ControlCost, SendCost, Times;
  }

  lemma GiveCost(c: Config, g: Gauge, l: nat, ns: NodeState)
    requires ns.worker.WGive?
    ensures NodeCost(c, g, l, Give(ns)) == NodeCost(c, g, l, ns) - 1
  {
    hide UpdateCost, SourceCost, ControlCost, SendCost;
  }

  lemma WorkerExitCost(c: Config, g: Gauge, l: nat, ns: NodeState)
    requires ns.worker.WIdle? && ns.stopWorker
    ensures NodeCost(c, g, l, WorkerExit(ns)) == NodeCost(c, g, l, ns) - 1
  {
    hide UpdateCost, SourceCost, ControlCost, SendCost, Times;
  }

  lemma GetCost(c: Config, g: Gauge, l: nat, ns: NodeState)
    requires ns.update.UIdle? && ns.out != []
    ensures NodeCost(c, g, l, Get(ns)) == NodeCost(c, g, l, ns) - 1
  {
    hide WorkerCost, SourceCost, ControlCost, SendCost;
  }

  lemma BeginCost(c: Config, g: Gauge, l: nat, ns: NodeState)
    requires ns.update.UGot? && ns.control.CNone?
    ensures NodeCost(c, g, l, Begin(ns)) < NodeCost(c, g, l, ns)
  {
    hide WorkerCost, SourceCost, SendCost, Times, IsControl, Value, Stops;
    var e := ns.update.entry;
    if !IsControl(e.msg) {
      assert Begin(ns) == ns.(update := UBusy(e, 0), lastId := Some(e.msg.id), pending := ns.pending + 1);
    } else if Stops(e.msg) {
      assert Begin(ns) == ns.(update := UBreak, control := CFlag(e.msg, 0), handled := ns.handled + [e]);
    }
  }

  lemma CountSendCost(c: Config, g: Gauge, l: nat, ns: NodeState)
    requires ns.update.UBusy? && ns.update.sends < c.fanout
    ensures NodeCost(c, g, l, CountSend(ns)) == NodeCost(c, g, l, ns) - SendCost(c, g.width, l)
  {
    hide WorkerCost, SourceCost, ControlCost, SendCost, Weight;
  }

  lemma FinishCost(c: Config, g: Gauge, l: nat, ns: NodeState)
    requires ns.update.UBusy? && ns.pending > 0
    ensures NodeCost(c, g, l, Finish(ns)) < NodeCost(c, g, l, ns)
  {
    hide WorkerCost, SourceCost, ControlCost, SendCost, Weight, Times;
  }

  lemma UpdateExitCost(c: Config, g: Gauge, l: nat, ns: NodeState)
    requires ns.update.UBreak? || (ns.update.UIdle? && ns.stopUpdate)
    ensures NodeCost(c, g, l, UpdateExit(ns)) == NodeCost(c, g, l, ns) - 1
  {
    hide WorkerCost, SourceCost, ControlCost, SendCost, Weight, Times;
  }

  lemma SourceLoopCost(c: Config, g: Gauge, l: nat, ns: NodeState)
    requires ns.source.SLoop?
    ensures NodeCost(c, g, l, SourceLoop(ns)) < NodeCost(c, g, l, ns)
  {
    hide WorkerCost, UpdateCost, ControlCost, SendCost, Weight, Times;
  }

  lemma SourceReturnCost(c: Config, g: Gauge, l: nat, ns: NodeState, msg: Message)
    requires ns.source.SCall?
    ensures NodeCost(c, g, l, SourceReturn(ns, msg))
            == NodeCost(c, g, l, ns) + (if Stops(msg) then 1 else Weight(c, g.width, l) + 4)
  {
    hide WorkerCost, UpdateCost, ControlCost, SendCost, Weight, Times;
  }

  lemma SourceGuardCost(c: Config, g: Gauge, l: nat, ns: NodeState)
    requires ns.source.SHave?
    ensures NodeCost(c, g, l, SourceGuard(ns))
            == NodeCost(c, g, l, ns) - Weight(c, g.width, l) - (if ns.stopSource then 5 else 3)
  {
    hide WorkerCost, UpdateCost, ControlCost, SendCost, Weight, Times;
  }

  lemma RaiseFlagCost(c: Config, g: Gauge, l: nat, ns: NodeState)
    requires ns.control.CFlag? && ns.control.k < 4
    ensures NodeCost(c, g, l, RaiseFlag(ns)) == NodeCost(c, g, l, ns) - 1
  {
    hide WorkerCost, UpdateCost, SourceCost, SendCost, Weight, Times;
    hide RaiseFlag;
    RaiseFlagByCases(ns);
  }

  lemma JoinNextCost(c: Config, g: Gauge, l: nat, ns: NodeState)
    requires ns.control.CJoin? && ns.control.k < 4
    ensures NodeCost(c, g, l, JoinNext(ns))
            == NodeCost(c, g, l, ns) - (if ns.control.k < 3 then 1 else SendCost(c, g.width, l))
  {
    hide WorkerCost, UpdateCost, SourceCost, SendCost, Weight, Times;
  }

  lemma RunControlCost(c: Config, g: Gauge, l: nat, ns: NodeState, i: nat)
    requires i < |ns.spawned|
    ensures NodeCost(c, g, l, RunControl(ns, i)) == NodeCost(c, g, l, ns) - 1
  {
    hide WorkerCost, UpdateCost, SourceCost, ControlCost, SendCost, Weight, Times;
  }

  lemma StartCost(c: Config, g: Gauge, l: nat, ns: NodeState, k: nat, hasSource: bool)
    ensures NodeCost(c, g, l, StartThread(ns, k, hasSource)) <= NodeCost(c, g, l, ns)
  {
    hide ControlCost, SendCost, Weight, Times;
  }

  lemma AcceptCost(c: Config, g: Gauge, l: nat, ns: NodeState, e: Entry)
    ensures NodeCost(c, g, l, Accept(ns, e)) == NodeCost(c, g, l, ns) + Weight(c, g.width, l)
  {
    hide WorkerCost, UpdateCost, SourceCost, ControlCost, SendCost, Weight;
  }

  // ----- what each step costs in all -----

  /** A step that touches one node and the puts of that node's threads. */
  ghost predicate AtSite(s: State, s': State, n: Name)
  {
    && n in s.nodes && s'.nodes.Keys == s.nodes.Keys && s'.pc == s.pc
    && (forall m :: m in s.nodes && m != n ==> s'.nodes[m] == s.nodes[m])
    && (forall who :: who in {Worker(n), Update(n), Source(n), Sender.Control(n)} || SameTx(s, s', who))
  }

  predicate SameTx(s: State, s': State, who: Sender)
  {
    (who in s'.tx <==> who in s.tx) && (who in s.tx ==> s'.tx[who] == s.tx[who])
  }

  ghost predicate Covers(c: Config, names: seq<Name>)
  {
    Distinct(names) && forall n :: n in names <==> n in c.names
  }

  lemma SameTxCost(c: Config, g: Gauge, s: State, s': State, who: Sender)
    requires SameTx(s, s', who)
    ensures TxCost(c, g, s', who) == TxCost(c, g, s, who)
  {
  }

  lemma SiteMeasure(c: Config, g: Gauge, s: State, s': State, names: seq<Name>, n: Name)
    requires AtSite(s, s', n) && Covers(c, names) && n in c.names
    ensures Measure(c, g, s', names) - Measure(c, g, s, names) == SiteCost(c, g, s', n) - SiteCost(c, g, s, n)
  {
    hide NodeCost, TxCost, Weight, Script;
    forall m | m in names && m != n ensures SiteCost(c, g, s', m) == SiteCost(c, g, s, m) {
      SameTxCost(c, g, s, s', Worker(m));
      SameTxCost(c, g, s, s', Update(m));
      SameTxCost(c, g, s, s', Source(m));
      SameTxCost(c, g, s, s', Sender.Control(m));
    }
    OneSiteChanges(c, g, s, s', names, n);
    SameTxCost(c, g, s, s', Pipe);
  }

  /** A step of one node alone. */
  lemma LocalMeasure(c: Config, g: Gauge, s: State, names: seq<Name>, n: Name, ns: NodeState)
    requires Covers(c, names) && n in c.names && s.nodes.Keys == c.names && n in g.level
    ensures Measure(c, g, SetNode(s, n, ns), names) - Measure(c, g, s, names)
            == NodeCost(c, g, g.level[n], ns) - NodeCost(c, g, g.level[n], s.nodes[n])
  {
    hide NodeCost, TxCost, Weight, Script, Measure;
    var s' := SetNode(s, n, ns);
    SiteMeasure(c, g, s, s', names, n);
    SameTxCost(c, g, s, s', Worker(n));
    SameTxCost(c, g, s, s', Update(n));
    SameTxCost(c, g, s, s', Source(n));
    SameTxCost(c, g, s, s', Sender.Control(n));
  }

  /** A thread of a node begins to put. */
  lemma BeginMeasure(c: Config, g: Gauge, s: State, names: seq<Name>, who: Sender, msg: Message, left: seq<Name>)
    requires Covers(c, names) && s.nodes.Keys == c.names && who !in s.tx
    requires IsFeeder(who) || who.Source? || who.Control?
    requires who.node in c.names && who.node in g.level
    ensures Measure(c, g, BeginTx(s, who, msg, left), names)
            == Measure(c, g, s, names) + Times(|left|, QueueCost(c, g, who))
  {
    hide NodeCost, QueueCost, Weight, Script, Measure, Times;
    var s', n := BeginTx(s, who, msg, left), who.node;
    SiteMeasure(c, g, s, s', names, n);
    if who != Worker(n) { SameTxCost(c, g, s, s', Worker(n)); }
    if who != Update(n) { SameTxCost(c, g, s, s', Update(n)); }
    if who != Source(n) { SameTxCost(c, g, s, s', Source(n)); }
    if who != Sender.Control(n) { SameTxCost(c, g, s, s', Sender.Control(n)); }
    ZeroTimes(QueueCost(c, g, who));
  }

  lemma ZeroTimes(t: nat)
    ensures Times(0, t) == 0 && Times(1, t) == t
  {
  }

  /** A whole transmission is paid for by its cost at the node's level, with one to spare. */
  lemma TransmissionCost(c: Config, g: Gauge, who: Sender)
    requires Fits(c, g) && c.dests.Keys == c.names && (IsFeeder(who) || who.Control?) && who.node in c.names
    requires forall o, d :: Origin(c, o, d) ==> d in c.names
    ensures Times(|c.dests[who.node]|, QueueCost(c, g, who)) < SendCost(c, g.width, g.level[who.node])
  {
    var n := who.node;
    var l := g.level[n];
    if l == 0 {
      if c.dests[n] != [] {
        assert Origin(c, n, c.dests[n][0]);
      }
    } else {
      TimesMonotone(|c.dests[n]|, g.width, QueueCost(c, g, who), 2 + Weight(c, g.width, l - 1));
    }
  }

  /** A put is through with one queue. */
  lemma AdvanceMeasure(c: Config, g: Gauge, s: State, names: seq<Name>, who: Sender)
    requires Covers(c, names) && s.nodes.Keys == c.names && who in s.tx && s.tx[who].left != []
    requires who == Pipe || (!who.Outside? && who.node in c.names && who.node in g.level)
    ensures Measure(c, g, Advance(s, who), names)
            == Measure(c, g, s, names) - QueueCost(c, g, who) + (if s.tx[who].checked then 1 else 0)
  {
    hide NodeCost, QueueCost, Weight, Script, Measure;
    var s' := Advance(s, who);
    ZeroTimes(QueueCost(c, g, who));
    assert |s.tx[who].left[1..]| == |s.tx[who].left| - 1;
    assert TxCost(c, g, s', who) == TxCost(c, g, s, who) - QueueCost(c, g, who) + (if s.tx[who].checked then 1 else 0);
    TxMeasure(c, g, s, s', names, who);
  }

  lemma TxMeasure(c: Config, g: Gauge, s: State, s': State, names: seq<Name>, who: Sender)
    requires Covers(c, names) && s.nodes.Keys == c.names && s'.nodes == s.nodes && s'.pc == s.pc
    requires forall w :: w != who ==> SameTx(s, s', w)
    requires who == Pipe || (!who.Outside? && who.node in c.names && who.node in g.level)
    ensures Measure(c, g, s', names) - Measure(c, g, s, names) == TxCost(c, g, s', who) - TxCost(c, g, s, who)
  {
    hide NodeCost, TxCost, Weight, Script;
    if who == Pipe {
      forall m | m in names ensures SiteCost(c, g, s', m) == SiteCost(c, g, s, m) {
        SameTxCost(c, g, s, s', Worker(m));
        SameTxCost(c, g, s, s', Update(m));
        SameTxCost(c, g, s, s', Source(m));
        SameTxCost(c, g, s, s', Sender.Control(m));
      }
      NoSiteChanges(c, g, s, s', names);
    } else {
      var n := who.node;
      SiteMeasure(c, g, s, s', names, n);
      if who != Worker(n) { SameTxCost(c, g, s, s', Worker(n)); }
      if who != Update(n) { SameTxCost(c, g, s, s', Update(n)); }
      if who != Source(n) { SameTxCost(c, g, s, s', Source(n)); }
      if who != Sender.Control(n) { SameTxCost(c, g, s, s', Sender.Control(n)); }
    }
  }

  /** Something new: a caller outside, or a source function returning. */
  predicate Arrival(a: Action)
  {
    a.External? || a.SourceYield?
  }

  ghost predicate Cheaper(c: Config, g: Gauge, s: State, s': State, a: Action, names: seq<Name>)
  {
    if Arrival(a) then Measure(c, g, s', names) <= Measure(c, g, s, names) + Weight(c, g.width, g.top) + 4
    else Measure(c, g, s', names) < Measure(c, g, s, names)
  }

  lemma WorkerMeasure(c: Config, g: Gauge, s: State, names: seq<Name>, a: Action)
    requires Inv(c, s) && WellFormed(c) && Fits(c, g) && Covers(c, names) && OfWorker(a) && Enabled(c, s, a)
    ensures Cheaper(c, g, s, Apply(c, s, a), a, names)
  {
    hide NodesOk, TxsOk, Quiet, Streams, Signals, ScriptOk, NodeInv, Script, Measure, NodeCost;
    hide Times, SendCost, QueueCost, Take, Decide, Give, WorkerExit, Forwards, Stamped;
    var n := a.n;
    var ns, l := s.nodes[n], g.level[n];
    NodeFacts(c, s, n);
    TxFacts(c, s, n);
    match a {
      case WorkerTake(_) => TakeCost(c, g, l, ns); LocalMeasure(c, g, s, names, n, Take(ns));
      case WorkerDecide(_) =>
        DecideCost(c, g, l, ns);
        LocalMeasure(c, g, s, names, n, Decide(ns));
        if Forwards(ns) {
          BeginMeasure(c, g, SetNode(s, n, Decide(ns)), names, Worker(n), Stamped(ns, ns.worker.entry.msg), c.dests[n]);
          TransmissionCost(c, g, Worker(n));
        }
      case WorkerGive(_) => GiveCost(c, g, l, ns); LocalMeasure(c, g, s, names, n, Give(ns));
      case WorkerQuit(_) => WorkerExitCost(c, g, l, ns); LocalMeasure(c, g, s, names, n, WorkerExit(ns));
    }
  }

  lemma TransmitMeasure(c: Config, g: Gauge, s: State, names: seq<Name>, n: Name, msg: Message)
    requires Shape(c, s) && WellFormed(c) && Fits(c, g) && Covers(c, names) && Enabled(c, s, Transmit(n, msg))
    ensures Measure(c, g, Apply(c, s, Transmit(n, msg)), names) < Measure(c, g, s, names)
  {
    hide Script, Measure, NodeCost, Times, SendCost, QueueCost, Weight;
    var ns := s.nodes[n];
    CountSendCost(c, g, g.level[n], ns);
    LocalMeasure(c, g, s, names, n, CountSend(ns));
    BeginMeasure(c, g, SetNode(s, n, CountSend(ns)), names, Update(n), Stamped(ns, msg), c.dests[n]);
    TransmissionCost(c, g, Update(n));
  }

  lemma UpdateMeasure(c: Config, g: Gauge, s: State, names: seq<Name>, a: Action)
    requires Inv(c, s) && WellFormed(c) && Fits(c, g) && Covers(c, names) && OfUpdate(a) && Enabled(c, s, a)
    ensures Cheaper(c, g, s, Apply(c, s, a), a, names)
  {
    hide NodesOk, TxsOk, Quiet, Streams, Signals, ScriptOk, NodeInv, Script, Measure, NodeCost;
    hide Times, SendCost, QueueCost, Weight, WellFormed, Get, Begin, CountSend, Finish, UpdateExit;
    var n := a.n;
    var ns, l := s.nodes[n], g.level[n];
    NodeFacts(c, s, n);
    match a {
      case UpdateGet(_) => GetCost(c, g, l, ns); LocalMeasure(c, g, s, names, n, Get(ns));
      case UpdateBegin(_) => BeginCost(c, g, l, ns); LocalMeasure(c, g, s, names, n, Begin(ns));
      case Transmit(_, msg) => TransmitMeasure(c, g, s, names, n, msg);
      case UpdateFinish(_) => FinishCost(c, g, l, ns); LocalMeasure(c, g, s, names, n, Finish(ns));
      case UpdateQuit(_) => UpdateExitCost(c, g, l, ns); LocalMeasure(c, g, s, names, n, UpdateExit(ns));
    }
  }

  /** A source thread puts a message to its own node. */
  lemma OwnPutMeasure(c: Config, g: Gauge, s: State, names: seq<Name>, n: Name, msg: Message)
    requires Covers(c, names) && s.nodes.Keys == c.names && n in c.names && n in g.level && Source(n) !in s.tx
    ensures Measure(c, g, BeginTx(s, Source(n), msg, [n]), names)
      == Measure(c, g, s, names) + 2 + Weight(c, g.width, g.level[n])
  {
    hide Measure, Weight;
    ZeroTimes(QueueCost(c, g, Source(n)));
    BeginMeasure(c, g, s, names, Source(n), msg, [n]);
  }

  lemma YieldMeasure(c: Config, g: Gauge, s: State, names: seq<Name>, n: Name, msg: Message)
    requires Inv(c, s) && Fits(c, g) && Covers(c, names) && Enabled(c, s, SourceYield(n, msg))
    ensures Measure(c, g, Apply(c, s, SourceYield(n, msg)), names)
      <= Measure(c, g, s, names) + Weight(c, g.width, g.level[n]) + 4
  {
    hide NodesOk, TxsOk, Quiet, Streams, Signals, ScriptOk, NodeInv, Script, Measure, NodeCost;
    hide Times, SendCost, QueueCost, Weight;
    var ns, l := s.nodes[n], g.level[n];
    TxFacts(c, s, n);
    SourceReturnCost(c, g, l, ns, msg);
    LocalMeasure(c, g, s, names, n, SourceReturn(ns, msg));
    if Stops(msg) {
      OwnPutMeasure(c, g, SetNode(s, n, SourceReturn(ns, msg)), names, n, msg);
    }
  }

  lemma SourceMeasure(c: Config, g: Gauge, s: State, names: seq<Name>, a: Action)
    requires Inv(c, s) && WellFormed(c) && Fits(c, g) && Covers(c, names) && OfSource(a) && Enabled(c, s, a)
    ensures Cheaper(c, g, s, Apply(c, s, a), a, names)
  {
    hide NodesOk, TxsOk, Quiet, Streams, Signals, ScriptOk, NodeInv, Script, Measure, NodeCost;
    hide Times, SendCost, QueueCost, Weight, WellFormed;
    var n := a.n;
    var ns, l := s.nodes[n], g.level[n];
    match a {
      case SourceTop(_) =>
        SourceLoopCost(c, g, l, ns);
        LocalMeasure(c, g, s, names, n, SourceLoop(ns));
      case SourceYield(_, msg) =>
        WeightMonotone(c, g.width, l, g.top);
        YieldMeasure(c, g, s, names, n, msg);
      case SourceCheck(_) =>
        TxFacts(c, s, n);
        SourceGuardCost(c, g, l, ns);
        LocalMeasure(c, g, s, names, n, SourceGuard(ns));
        if !ns.stopSource {
          OwnPutMeasure(c, g, SetNode(s, n, SourceGuard(ns)), names, n, ns.source.msg);
        }
    }
  }

  lemma ControlRange(ns: NodeState)
    requires NodeInv(ns)
    ensures ns.control.CFlag? || ns.control.CJoin? ==> ns.control.k < 4
  {
  }

  lemma JoinMeasure(c: Config, g: Gauge, s: State, names: seq<Name>, n: Name)
    requires Inv(c, s) && WellFormed(c) && Fits(c, g) && Covers(c, names) && Enabled(c, s, ControlJoin(n))
    ensures Measure(c, g, Apply(c, s, ControlJoin(n)), names) < Measure(c, g, s, names)
  {
    hide NodesOk, TxsOk, Quiet, Streams, Signals, ScriptOk, NodeInv, Script, Measure, NodeCost;
    hide Times, SendCost, QueueCost, Weight;
    var ns, l := s.nodes[n], g.level[n];
    NodeFacts(c, s, n);
    TxFacts(c, s, n);
    ControlRange(ns);
    JoinNextCost(c, g, l, ns);
    LocalMeasure(c, g, s, names, n, JoinNext(ns));
    TransmissionCost(c, g, Sender.Control(n));
    if JoinNext(ns).control.CDone? && Propagates(ns.control.msg) {
      BeginMeasure(c, g, SetNode(s, n, JoinNext(ns)), names, Sender.Control(n), Stamped(ns, ns.control.msg),
        c.dests[n]);
    }
  }

  lemma FlagMeasure(c: Config, g: Gauge, s: State, names: seq<Name>, n: Name)
    requires Inv(c, s) && Fits(c, g) && Covers(c, names) && Enabled(c, s, ControlFlag(n))
    ensures Measure(c, g, Apply(c, s, ControlFlag(n)), names) < Measure(c, g, s, names)
  {
    hide NodesOk, TxsOk, Quiet, Streams, Signals, ScriptOk, NodeInv, Script, Measure, NodeCost, RaiseFlag;
    var ns, l := s.nodes[n], g.level[n];
    NodeFacts(c, s, n);
    ControlRange(ns);
    RaiseFlagCost(c, g, l, ns);
    LocalMeasure(c, g, s, names, n, RaiseFlag(ns));
  }

  lemma ControlMeasure(c: Config, g: Gauge, s: State, names: seq<Name>, a: Action)
    requires Inv(c, s) && WellFormed(c) && Fits(c, g) && Covers(c, names) && OfControl(a) && Enabled(c, s, a)
    ensures Cheaper(c, g, s, Apply(c, s, a), a, names)
  {
    hide NodesOk, TxsOk, Quiet, Streams, Signals, ScriptOk, NodeInv, Script, Measure, NodeCost;
    hide Times, SendCost, QueueCost, Weight, WellFormed, RunControl, RaiseFlag, JoinNext;
    hide BeginTx, SetNode, Room, OpReady, JoinReady, Stamped, Propagates;
    var n := a.n;
    var ns, l := s.nodes[n], g.level[n];
    match a {
      case ControlRun(_, i) => RunControlCost(c, g, l, ns, i); LocalMeasure(c, g, s, names, n, RunControl(ns, i));
      case ControlFlag(_) => FlagMeasure(c, g, s, names, n);
      case ControlJoin(_) => JoinMeasure(c, g, s, names, n);
    }
  }

  // ----- puts, and the pipeline's thread -----

  /** The queue a put reaches next is paid for. */
  lemma QueuePaysFor(c: Config, g: Gauge, s: State, who: Sender)
    requires Inv(c, s) && WellFormed(c) && Fits(c, g) && who in s.tx
    ensures s.tx[who].left != [] && s.tx[who].left[0] in c.names
    ensures who == Pipe || (!who.Outside? && who.node in c.names)
    ensures QueueCost(c, g, who) >= 2 + Weight(c, g.width, g.level[s.tx[who].left[0]])
  {
    hide NodesOk, Quiet, Streams, Signals, ScriptOk, Script, Weight;
    TxLeft(c, s, who);
    assert TxOk(c, s, who, s.tx[who]);
    var d := s.tx[who].left[0];
    if who == Pipe {
      WeightMonotone(c, g.width, g.level[d], g.top);
    } else if IsFeeder(who) || who.Control? {
      WeightMonotone(c, g.width, g.level[d], g.level[who.node] - 1);
    }
  }

  lemma PutMeasure(c: Config, g: Gauge, s: State, names: seq<Name>, a: Action)
    requires Inv(c, s) && WellFormed(c) && Fits(c, g) && Covers(c, names)
    requires (a.PutCheck? || a.PutEnqueue?) && Enabled(c, s, a)
    ensures Measure(c, g, Apply(c, s, a), names) < Measure(c, g, s, names)
  {
    hide NodesOk, TxsOk, Quiet, Streams, Signals, ScriptOk, NodeInv, Script, Measure, NodeCost;
    hide Times, SendCost, QueueCost, Weight, WellFormed;
    var who := a.who;
    QueuePaysFor(c, g, s, who);
    var d := s.tx[who].left[0];
    if a.PutEnqueue? {
      var e := Entry(who, s.tx[who].msg);
      AcceptCost(c, g, g.level[d], s.nodes[d], e);
      LocalMeasure(c, g, s, names, d, Accept(s.nodes[d], e));
      AdvanceMeasure(c, g, Arrive(s, d, e), names, who);
    } else if s.nodes[d].draining {
      AdvanceMeasure(c, g, s, names, who);
    } else {
      CheckMeasure(c, g, s, names, who);
    }
  }

  lemma CheckMeasure(c: Config, g: Gauge, s: State, names: seq<Name>, who: Sender)
    requires Covers(c, names) && s.nodes.Keys == c.names && who in s.tx && !s.tx[who].checked
    requires who == Pipe || (!who.Outside? && who.node in c.names && who.node in g.level)
    ensures Measure(c, g, s.(tx := s.tx[who := s.tx[who].(checked := true)]), names) == Measure(c, g, s, names) - 1
  {
    hide Measure, QueueCost;
    TxMeasure(c, g, s, s.(tx := s.tx[who := s.tx[who].(checked := true)]), names, who);
  }

  lemma PcMeasure(c: Config, g: Gauge, s: State, names: seq<Name>)
    requires s.pc < |Script(c)|
    ensures Measure(c, g, s.(pc := s.pc + 1), names) == Measure(c, g, s, names) - Weight(c, g.width, g.top) - 6
  {
    hide Script, SiteCost;
    var s' := s.(pc := s.pc + 1);
    SameTxCost(c, g, s, s', Pipe);
    forall m | m in names ensures SiteCost(c, g, s', m) == SiteCost(c, g, s, m) {
      PcSite(c, g, s, m);
    }
    NoSiteChanges(c, g, s, s', names);
  }

  lemma PcSite(c: Config, g: Gauge, s: State, m: Name)
    ensures SiteCost(c, g, s.(pc := s.pc + 1), m) == SiteCost(c, g, s, m)
  {
    var s' := s.(pc := s.pc + 1);
    SameTxCost(c, g, s, s', Worker(m));
    SameTxCost(c, g, s, s', Update(m));
    SameTxCost(c, g, s, s', Source(m));
    SameTxCost(c, g, s, s', Sender.Control(m));
  }

  lemma PipePutMeasure(c: Config, g: Gauge, s: State, names: seq<Name>, msg: Message, n: Name)
    requires Covers(c, names) && s.nodes.Keys == c.names && Pipe !in s.tx
    ensures Measure(c, g, BeginTx(s, Pipe, msg, [n]), names) == Measure(c, g, s, names) + 2 + Weight(c, g.width, g.top)
  {
    hide Measure, Weight;
    ZeroTimes(QueueCost(c, g, Pipe));
    TxMeasure(c, g, s, BeginTx(s, Pipe, msg, [n]), names, Pipe);
  }

  lemma PipeMeasure(c: Config, g: Gauge, s: State, names: seq<Name>, id: int)
    requires Shape(c, s) && Fits(c, g) && Covers(c, names) && Enabled(c, s, PipeStep(id))
    ensures Measure(c, g, Apply(c, s, PipeStep(id)), names) < Measure(c, g, s, names)
  {
    hide Script, Measure, NodeCost, Weight;
    var s' := s.(pc := s.pc + 1);
    PcMeasure(c, g, s, names);
    match Script(c)[s.pc] {
      case StartOp(n, k) =>
        StartCost(c, g, g.level[n], s.nodes[n], k, n in c.sources);
        LocalMeasure(c, g, s', names, n, StartThread(s.nodes[n], k, n in c.sources));
      case PutStop(n) => PipePutMeasure(c, g, s', names, StopMessage(id), n);
      case _ =>
    }
  }

  lemma ExternalMeasure(c: Config, g: Gauge, s: State, names: seq<Name>, n: Name, e: Entry)
    requires Shape(c, s) && Fits(c, g) && Covers(c, names) && n in c.names
    ensures Measure(c, g, Arrive(s, n, e), names) <= Measure(c, g, s, names) + Weight(c, g.width, g.top)
  {
    hide Measure, NodeCost, Weight;
    AcceptCost(c, g, g.level[n], s.nodes[n], e);
    LocalMeasure(c, g, s, names, n, Accept(s.nodes[n], e));
    WeightMonotone(c, g.width, g.level[n], g.top);
  }

  /** Every step but an arrival takes the measure down; an arrival adds no more than one message's weight. */
  lemma StepMeasure(c: Config, g: Gauge, s: State, names: seq<Name>, a: Action)
    requires Inv(c, s) && WellFormed(c) && Fits(c, g) && Covers(c, names) && Enabled(c, s, a)
    ensures Cheaper(c, g, s, Apply(c, s, a), a, names)
  {
    hide NodesOk, TxsOk, Quiet, Streams, Signals, ScriptOk, Script, Measure, Weight, WellFormed;
    if OfWorker(a) {
      WorkerMeasure(c, g, s, names, a);
    } else if OfUpdate(a) {
      UpdateMeasure(c, g, s, names, a);
    } else if OfSource(a) {
      SourceMeasure(c, g, s, names, a);
    } else if OfControl(a) {
      ControlMeasure(c, g, s, names, a);
    } else {
      match a {
        case PutCheck(who) => PutMeasure(c, g, s, names, a);
        case PutEnqueue(who) => PutMeasure(c, g, s, names, a);
        case PipeStep(id) => PipeMeasure(c, g, s, names, id);
        case External(n, id, signal) =>
          ExternalMeasure(c, g, s, names, n, Entry(Outside, Message(id, "", Payload.Control(signal), None)));
      }
    }
  }

  // ----- runs -----

  /** A stretch of a run, with the step taken at each point. */
  ghost predicate Moves(c: Config, run: seq<State>, steps: seq<Action>)
  {
    && |run| == |steps| + 1
    && forall i :: 0 <= i < |steps| ==>
         Shape(c, run[i]) && Enabled(c, run[i], steps[i]) && run[i + 1] == Apply(c, run[i], steps[i])
  }

  function Arrivals(steps: seq<Action>): nat
  {
    if steps == [] then 0 else Arrivals(steps[..|steps| - 1]) + (if Arrival(Last(steps)) then 1 else 0)
  }

  lemma {:induction false} MovesMeasure(c: Config, g: Gauge, names: seq<Name>, run: seq<State>, steps: seq<Action>)
    requires WellFormed(c) && Fits(c, g) && Covers(c, names) && Moves(c, run, steps) && Inv(c, run[0])
    ensures Inv(c, Last(run))
    ensures |steps| + Measure(c, g, Last(run), names)
            <= Measure(c, g, run[0], names) + Times(Arrivals(steps), Weight(c, g.width, g.top) + 5)
    decreases |steps|
  {
    hide NodesOk, TxsOk, Quiet, Streams, Signals, ScriptOk, Script, Measure, Weight, WellFormed, Enabled, Apply;
    if steps != [] {
      var before, init := run[..|run| - 1], steps[..|steps| - 1];
      assert Moves(c, before, init);
      MovesMeasure(c, g, names, before, init);
      StepKeepsInv(c, Last(before), Last(steps));
      StepMeasure(c, g, Last(before), names, Last(steps));
    }
  }

  /** The drain terminates: from any reachable state, the steps still to come are bounded by a
    * number fixed by that state, plus one for every step that something newly arrived pays for. */
  lemma DrainTerminates(c: Config, g: Gauge, names: seq<Name>, past: seq<State>, run: seq<State>, steps: seq<Action>)
    requires WellFormed(c) && Fits(c, g) && Covers(c, names)
    requires Run(c, past) && Moves(c, run, steps) && run[0] == Last(past)
    ensures |steps| <= Measure(c, g, run[0], names) + Times(Arrivals(steps), Weight(c, g.width, g.top) + 5)
  {
    hide NodesOk, TxsOk, Quiet, Streams, Signals, ScriptOk, Script, Measure, Weight, WellFormed;
    RunKeepsInv(c, past);
    MovesMeasure(c, g, names, run, steps);
    MeasureNonNegative(c, g, Last(run), names);
  }

  lemma MeasureNonNegative(c: Config, g: Gauge, s: State, names: seq<Name>)
    requires Inv(c, s) && Fits(c, g) && Covers(c, names)
    ensures Measure(c, g, s, names) >= 0
  {
    hide NodesOk, Quiet, Streams, Signals, ScriptOk, Script, Weight;
    NodeCostNonNegative(c, g, s, names);
    TxCostNonNegative(c, g, s, Pipe);
  }

  lemma {:induction false} PcOnward(c: Config, run: seq<State>, steps: seq<Action>)
    requires Moves(c, run, steps)
    ensures run[0].pc <= Last(run).pc
    decreases |steps|
  {
    if steps != [] {
      var before, init := run[..|run| - 1], steps[..|steps| - 1];
      assert Moves(c, before, init);
      PcOnward(c, before, init);
      PcStep(c, Last(before), Last(steps));
    }
  }

  lemma PcStep(c: Config, s: State, a: Action)
    requires Shape(c, s) && Enabled(c, s, a)
    ensures s.pc <= Apply(c, s, a).pc
  {
    hide Script, Room, OpReady, JoinReady, Stops, Stamped, Propagates, Value;
  }

  /** `stop` returns: go on from any point of a stop until nothing can move. Then every operation of the pipeline
    * has been carried out, or the node it is busy with is clogged, waits for its source function, or is held up. */
  lemma StopReturns(c: Config, past: seq<State>, run: seq<State>, steps: seq<Action>)
    returns (n: Name)
    requires WellFormed(c) && Run(c, past) && Moves(c, run, steps) && run[0] == Last(past)
    requires |StartScript(c.startLayers)| < run[0].pc
    requires Shape(c, Last(run)) && !CanMove(c, Last(run))
    ensures Last(run).pc < |Script(c)| ==>
      && Concerns(c, Last(run), n) && n in c.names
      && (Clogged(c, Last(run).nodes[n]) || Calling(Last(run).nodes[n]) || HeldUp(c, Last(run), n))
  {
    hide NodesOk, TxsOk, Quiet, Streams, Signals, ScriptOk, WellFormed, CanMove, CanPush, CanWindUp;
    RunKeepsInv(c, past);
    MovesKeepInv(c, run, steps);
    PcOnward(c, run, steps);
    if Last(run).pc < |Script(c)| {
      var level := LevelsExist(c);
      n := PipeGoesOn(c, Last(run), level);
      NoMoveNoProgress(c, Last(run), n);
    } else {
      n := "";
    }
  }

  lemma {:induction false} MovesKeepInv(c: Config, run: seq<State>, steps: seq<Action>)
    requires WellFormed(c) && Moves(c, run, steps) && Inv(c, run[0])
    ensures Inv(c, Last(run))
    decreases |steps|
  {
    hide NodesOk, TxsOk, Quiet, Streams, Signals, ScriptOk, Script, WellFormed, Enabled, Apply;
    if steps != [] {
      var before, init := run[..|run| - 1], steps[..|steps| - 1];
      assert Moves(c, before, init);
      MovesKeepInv(c, before, init);
      StepKeepsInv(c, Last(before), Last(steps));
    }
  }
}
