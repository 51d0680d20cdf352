/**
 What each request does to the slots, and what the reports tell: each engine's reports are
 its history, and no end is lost.
 */
module FleetReports {
  import opened Options
  import opened Fleet

  // ---------------------------------------------------------------------
  // One request
  // ---------------------------------------------------------------------

  /** Nothing changes on the other ports. */
  ghost predicate OtherPorts(w: World, w2: World, port: Port) {
    && w2.slots.Keys == w.slots.Keys
    && (forall p :: p in w.slots && p != port ==> w2.slots[p] == w.slots[p])
    && (forall p :: p != port ==> (p in w2.intent <==> p in w.intent))
  }

  /** Nothing changes for the other engines. */
  ghost predicate OtherEngines(w: World, w2: World, e: Engine) {
    forall d: Engine :: d != e ==>
      && (d in w2.live <==> d in w.live) && (d in w2.pending <==> d in w.pending)
      && Told(w2.log, d) == Told(w.log, d)
  }

  /** No process runs for it and no message about it is on its way. */
  predicate Gone(w: World, e: Engine) {
    e !in w.live && e !in w.pending && !Resident(w, e)
  }

  /** The port's resident, if any, is gone without a report, and a new engine with the
      model and the profile asked for is loading in its place and reported so. */
  ghost predicate Swapped(w: World, w2: World, model: Model, port: Port, profile: Profile) {
    var e := Engine(port, w.next);
    && Gone(w, e) && Told(w.log, e) == [] && w2.next == w.next + 1
    && OtherPorts(w, w2, port) && port in w2.slots
    && w2.slots[port] == Slot(Loading, Some(model), Some(profile), Some(e))
    && e in w2.live && e !in w2.pending && Told(w2.log, e) == [Started]
    && forall d: Engine :: d != e ==>
         && Told(w2.log, d) == Told(w.log, d)
         && (Resident(w, d) && d.port == port ==> Gone(w2, d))
         && (!(Resident(w, d) && d.port == port) ==>
               (d in w2.live <==> d in w.live) && (d in w2.pending <==> d in w.pending))
  }

  /** A slot already serves what is asked for. */
  predicate Serves(s: Slot, model: Model, profile: Profile) {
    s.status == Up && s.model == Some(model) && s.profile == Some(profile)
  }

  lemma LoadSwaps(w: World, model: Model, port: Port, profile: Profile)
    requires Inv(w) && port in w.slots
    requires !Serves(w.slots[port], model, profile)
    ensures Swapped(w, Do(w, Load(model, port, profile, false, true)), model, port, profile)
  {
    var e := Engine(port, w.next);
    assert EngineOk(w, e);
    ToldByAll(w.log, Event(Started, e));
    hide Told, Story;
    var w2 := Do(w, Load(model, port, profile, false, true));
    forall d: Engine | d != e
      ensures Told(w2.log, d) == Told(w.log, d)
      ensures Resident(w, d) && d.port == port ==> Gone(w2, d)
      ensures !(Resident(w, d) && d.port == port) ==>
                (d in w2.live <==> d in w.live) && (d in w2.pending <==> d in w.pending)
    {
    }
  }

  /** The resident of the port is gone without a report, and none has come. */
  ghost predicate Emptied(w: World, w2: World, port: Port) {
    && OtherPorts(w, w2, port) && port in w2.slots && w2.slots[port] == EMPTY && w2.log == w.log
    && forall d: Engine ::
         if Resident(w, d) && d.port == port then Gone(w2, d)
         else (d in w2.live <==> d in w.live) && (d in w2.pending <==> d in w.pending)
  }

  /** Every other load changes nothing, except that a failed start leaves the slot empty. */
  lemma LoadStays(w: World, model: Model, port: Port, profile: Profile, held: bool, starts: bool)
    requires Inv(w)
    ensures var w2 := Do(w, Load(model, port, profile, held, starts));
            && (held || port !in w.slots ==> w2 == w)
            && (port in w.slots && Serves(w.slots[port], model, profile) ==> w2 == w)
            && (!starts ==> w2 == w || Emptied(w, w2, port))
  {
    hide Told, Story, EngineOk;
  }

  /** An unload ends the resident, whose message is then on its way, and nothing else. */
  lemma UnloadEnds(w: World, port: Port, held: bool)
    ensures var w2 := Do(w, Unload(port, held));
            if held || port !in w.slots || w.slots[port].engine.None? then w2 == w
            else
              var e := w.slots[port].engine.value;
              && w2.slots == w.slots && w2.log == w.log && w2.intent == w.intent + {port}
              && e !in w2.live && e in w2.pending && OtherEngines(w, w2, e)
  {
  }

  /** The readiness report of a resident that is loading makes its slot serve, and is passed
      on once; every other one changes nothing. */
  lemma MarkUpServes(w: World, e: Engine)
    requires Inv(w)
    ensures var w2 := Do(w, MarkUp(e));
            if Resident(w, e) && w.slots[e.port].status == Loading then
              && OtherPorts(w, w2, e.port) && w2.intent == w.intent
              && w2.slots[e.port] == Slot(Up, w.slots[e.port].model, w.slots[e.port].profile, Some(e))
              && w2.live == w.live && w2.pending == w.pending
              && Told(w2.log, e) == [Started, Ready] && OtherEngines(w, w2, e)
            else w2 == w
  {
    ToldByAll(w.log, Event(Ready, e));
    hide Told, Story;
    assert EngineOk(w, e);
  }

  /** The handled end of a resident empties its slot and is reported: as an unload if one
      was asked for on the port, else as a crash if the engine was ever reported ready,
      else as a failed start. */
  lemma HandleDownReports(w: World, e: Engine)
    requires Inv(w)
    ensures var w2 := Do(w, HandleDown(e));
            if e in w.pending then
              && Resident(w, e) && OtherPorts(w, w2, e.port) && w2.slots[e.port] == EMPTY && e.port !in w2.intent
              && Gone(w2, e) && OtherEngines(w, w2, e)
              && Told(w2.log, e) == Told(w.log, e) + [Ending(w, e)]
            else w2 == w
  {
    if e in w.pending {
      assert EngineOk(w, e);
      ToldByAll(w.log, Event(Verdict(w, e), e));
      assert Ready !in [Started];
    }
    hide Told, Story;
  }

  function Ending(w: World, e: Engine): Kind {
    if e.port in w.intent then Unloaded else if Ready in Told(w.log, e) then Down else Failed
  }

  // ---------------------------------------------------------------------
  // Reports are histories
  // ---------------------------------------------------------------------

  /** The request starts this engine. */
  predicate Starts(w: World, a: Action, e: Engine) {
    Launches(w, a) && a.starts && e == Engine(a.port, w.next)
  }

  /** What happens to an engine in one request, from what was reported of it before. */
  function News(w: World, a: Action, e: Engine, told: seq<Kind>): seq<Kind> {
    if Starts(w, a, e) then [Started]
    else if a == MarkUp(e) && Resident(w, e) && Ready !in told then [Ready]
    else if a == HandleDown(e) && e in w.pending then
      [if e.port in w.intent then Unloaded else if Ready in told then Down else Failed]
    else []
  }

  /** What happens to an engine from `w` on. */
  function History(w: World, actions: seq<Action>, e: Engine, told: seq<Kind>): seq<Kind>
    decreases |actions|
  {
    if actions == [] then told
    else History(Do(w, actions[0]), actions[1..], e, told + News(w, actions[0], e, told))
  }

  lemma StepTells(w: World, a: Action, e: Engine)
    requires Inv(w)
    ensures Told(Do(w, a).log, e) == Told(w.log, e) + News(w, a, e, Told(w.log, e))
  {
    match a
    case Load(model, port, profile, held, starts) =>
      LoadTells(w, a, e);
    case Unload(port, held) =>
      hide Told, Inv;
    case MarkUp(d) =>
      MarkUpServes(w, d);
      if Resident(w, e) {
        MarkUpTells(w, e);
      }
      hide Told, Inv, Do;
    case HandleDown(d) =>
      HandleDownReports(w, d);
      hide Told, Inv, Do;
    case Die(d) =>
      hide Told, Inv;
  }

  lemma LoadTells(w: World, a: Action, e: Engine)
    requires Inv(w) && a.Load?
    ensures Told(Do(w, a).log, e) == Told(w.log, e) + News(w, a, e, Told(w.log, e))
  {
    ToldMore(w.log, Event(Started, Engine(a.port, w.next)), e);
    hide Told, Inv, Idempotent;
  }

  /** The slot of a resident serves exactly if the engine was reported ready. */
  lemma MarkUpTells(w: World, e: Engine)
    requires Inv(w) && Resident(w, e)
    ensures w.slots[e.port].status == Loading || w.slots[e.port].status == Up
    ensures Told(w.log, e) == if w.slots[e.port].status == Loading then [Started] else [Started, Ready]
  {
    assert EngineOk(w, e);
    hide Told;
  }

  lemma {:induction false} RunTells(w: World, actions: seq<Action>, e: Engine)
    requires Inv(w)
    ensures Told(Run(w, actions).log, e) == History(w, actions, e, Told(w.log, e))
    decreases |actions|
  {
    hide Told, Inv, Do, News;
    if actions != [] {
      StepTells(w, actions[0], e);
      DoKeepsInv(w, actions[0]);
      RunTells(Do(w, actions[0]), actions[1..], e);
    }
  }

  /** A timely readiness report came. */
  predicate CameUp(w: World, actions: seq<Action>, e: Engine)
    decreases |actions|
  {
    actions != []
    && ((actions[0] == MarkUp(e) && Resident(w, e)) || CameUp(Do(w, actions[0]), actions[1..], e))
  }

  /** A load took the place of the engine. */
  predicate SwappedOut(w: World, actions: seq<Action>, e: Engine)
    decreases |actions|
  {
    actions != []
    && ((Resident(w, e) && Launches(w, actions[0]) && actions[0].port == e.port)
        || SwappedOut(Do(w, actions[0]), actions[1..], e))
  }

  lemma StepReady(w: World, a: Action, e: Engine)
    requires Inv(w)
    ensures Ready in Told(Do(w, a).log, e) <==> Ready in Told(w.log, e) || (a == MarkUp(e) && Resident(w, e))
  {
    StepTells(w, a, e);
    hide Told, Inv, Do;
  }

  lemma {:induction false} RunReady(w: World, actions: seq<Action>, e: Engine)
    requires Inv(w)
    ensures Ready in Told(Run(w, actions).log, e) <==> Ready in Told(w.log, e) || CameUp(w, actions, e)
    decreases |actions|
  {
    hide Told, Inv, Do, Resident;
    if actions != [] {
      StepReady(w, actions[0], e);
      DoKeepsInv(w, actions[0]);
      RunReady(Do(w, actions[0]), actions[1..], e);
    }
  }

  predicate Over(ks: seq<Kind>) {
    Unloaded in ks || Failed in ks || Down in ks
  }

  /** Of an engine that was started exactly one holds: it is still resident, its end was
      reported, or it was swapped out. */
  predicate Accounted(w: World, e: Engine, swapped: bool) {
    if Started !in Told(w.log, e) then !Resident(w, e) && !Over(Told(w.log, e)) && !swapped
    else if Resident(w, e) then !Over(Told(w.log, e)) && !swapped
    else Over(Told(w.log, e)) != swapped
  }

  lemma StepAccounts(w: World, a: Action, e: Engine, swapped: bool)
    requires Inv(w) && Accounted(w, e, swapped)
    ensures Accounted(Do(w, a), e, swapped || (Resident(w, e) && Launches(w, a) && a.port == e.port))
  {
    StepTells(w, a, e);
    assert EngineOk(w, e);
    Residence(w, a, e);
    hide Told, Inv, Do, EngineOk, Story;
  }

  /** Who is resident after a request. */
  lemma Residence(w: World, a: Action, e: Engine)
    requires Inv(w)
    ensures Resident(Do(w, a), e) <==>
            Starts(w, a, e)
            || (Resident(w, e) && !(Launches(w, a) && a.port == e.port) && !(a == HandleDown(e) && e in w.pending))
    ensures e in w.pending ==> Resident(w, e)
    ensures Resident(w, e) ==> e.id < w.next && Told(w.log, e) in {[Started], [Started, Ready]}
    ensures Starts(w, a, e) ==> !Resident(w, e) && Told(w.log, e) == []
  {
    assert EngineOk(w, e);
    hide Told, Story;
  }

  lemma {:induction false} RunAccounts(w: World, actions: seq<Action>, e: Engine, swapped: bool)
    requires Inv(w) && Accounted(w, e, swapped)
    ensures Accounted(Run(w, actions), e, swapped || SwappedOut(w, actions, e))
    decreases |actions|
  {
    hide Told, Inv, Do, Resident, Accounted, Idempotent;
    if actions != [] {
      StepAccounts(w, actions[0], e, swapped);
      DoKeepsInv(w, actions[0]);
      var now := Resident(w, e) && Launches(w, actions[0]) && actions[0].port == e.port;
      RunAccounts(Do(w, actions[0]), actions[1..], e, swapped || now);
    }
  }

  /** Over every run from the start, however requests and messages interleave: what is
      reported of an engine is what happened to it; it is reported ready exactly if a
      report of it came while it was resident, and then its slot serves for as long as it
      stays; and of every engine that was started one holds: it is resident, its end was
      reported, or it was swapped out. */
  lemma EveryRunReports(ports: set<Port>, actions: seq<Action>, e: Engine)
    ensures var w := Run(Init(ports), actions);
            && Told(w.log, e) == History(Init(ports), actions, e, [])
            && (Ready in Told(w.log, e) <==> CameUp(Init(ports), actions, e))
            && (Resident(w, e) ==> (w.slots[e.port].status == Up <==> CameUp(Init(ports), actions, e)))
            && Accounted(w, e, SwappedOut(Init(ports), actions, e))
  {
    InitOk(ports);
    var w0 := Init(ports);
    RunTells(w0, actions, e);
    RunReady(w0, actions, e);
    assert Accounted(w0, e, false);
    RunAccounts(w0, actions, e, false);
    RunKeepsInv(w0, actions);
    var w := Run(w0, actions);
    assert Told(w0.log, e) == [];
    if Resident(w, e) {
      MarkUpTells(w, e);
    }
    hide Run, Inv, Told, Accounted, History, CameUp, SwappedOut;
  }

  /** An engine that was reported ready and ends unasked is reported down, whatever happens
      on other ports in between. */
  lemma CrashIsDown(w: World, e: Engine, between: seq<Action>)
    requires Inv(w) && Resident(w, e) && e in w.live && Ready in Told(w.log, e) && e.port !in w.intent
    requires forall a :: a in between ==> Elsewhere(a, e.port)
    ensures var w2 := Run(w, [Die(e)] + between + [HandleDown(e)]);
            Told(w2.log, e) == Told(w.log, e) + [Down] && e.port in w2.slots && w2.slots[e.port] == EMPTY
  {
    var w1 := Do(w, Die(e));
    DoKeepsInv(w, Die(e));
    ElsewhereStands(w1, between, e);
    RunKeepsInv(w1, between);
    var w3 := Run(w1, between);
    assert ([Die(e)] + between)[1..] == between;
    assert Run(w, [Die(e)] + between) == w3;
    RunConcat(w, [Die(e)] + between, [HandleDown(e)]);
    HandleDownReports(w3, e);
    assert Run(w3, [HandleDown(e)]) == Run(Do(w3, HandleDown(e)), []);
    hide Told, Inv, Run;
  }

  predicate Elsewhere(a: Action, port: Port) {
    match a
    case Load(_, p, _, _, _) => p != port
    case Unload(p, _) => p != port
    case MarkUp(d) => d.port != port
    case HandleDown(d) => d.port != port
    case Die(d) => d.port != port
  }

  lemma {:induction false} ElsewhereStands(w: World, between: seq<Action>, e: Engine)
    requires Inv(w) && Resident(w, e) && forall a :: a in between ==> Elsewhere(a, e.port)
    ensures var w2 := Run(w, between);
            && Resident(w2, e) && Told(w2.log, e) == Told(w.log, e) && (e in w2.pending <==> e in w.pending)
            && (e.port in w2.intent <==> e.port in w.intent)
    decreases |between|
  {
    if between != [] {
      assert Elsewhere(between[0], e.port);
      StepTells(w, between[0], e);
      DoKeepsInv(w, between[0]);
      OneElsewhere(w, between[0], e);
      hide Told, Inv, Do, Resident;
      ElsewhereStands(Do(w, between[0]), between[1..], e);
    }
  }

  lemma OneElsewhere(w: World, a: Action, e: Engine)
    requires Inv(w) && Resident(w, e) && Elsewhere(a, e.port)
    ensures var w2 := Do(w, a);
            && Resident(w2, e) && (e in w2.pending <==> e in w.pending) && News(w, a, e, Told(w.log, e)) == []
            && (e.port in w2.intent <==> e.port in w.intent)
  {
    hide Told, EngineOk;
  }
}
