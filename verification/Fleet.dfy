/**
 The serving slots of a host: which engine runs on which port, and what is reported
 about it.
 */
module Fleet {
  import opened Options

  type Port = nat

  datatype Model = Model(id: nat)

  datatype Profile = Profile(id: nat)

  /** An engine process: the port it was started for, and its number. Its monitor is
      named by the engine itself. */
  datatype Engine = Engine(port: Port, id: nat)

  datatype Status = Empty | Loading | Up

  datatype Slot = Slot(status: Status, model: Option<Model>, profile: Option<Profile>, engine: Option<Engine>)

  const EMPTY := Slot(Empty, None, None, None)

  datatype Kind = Started | Ready | Unloaded | Failed | Down

  datatype Event = Event(kind: Kind, engine: Engine)

  /** The owner of the slots and what is around it: the engines that run, the :DOWN
      messages not handled yet, and all events so far. `asked` and `killed` record, for
      the statements below only, which engines an unload was asked for and which were
      terminated while they ran. */
  datatype World = World(slots: map<Port, Slot>, intent: set<Port>, live: set<Engine>, pending: set<Engine>, next: nat,
                         log: seq<Event>, asked: set<Engine>, killed: set<Engine>)

  function Init(ports: set<Port>): World {
    World(map p | p in ports :: EMPTY, {}, {}, {}, 0, [], {}, {})
  }

  datatype Action =
    | Load(model: Model, port: Port, profile: Profile, held: bool, starts: bool)
    | Unload(port: Port, held: bool)
    | MarkUp(engine: Engine)
    | HandleDown(engine: Engine)
    | Die(engine: Engine)

  /** The engine is the resident of its port. */
  predicate Resident(w: World, e: Engine) {
    e.port in w.slots && w.slots[e.port].engine == Some(e)
  }

  predicate Idempotent(s: Slot, model: Model, profile: Profile) {
    s.status == Up && s.model == Some(model) && s.profile == Some(profile)
  }

  /** The load evicts what is there and starts an engine. */
  predicate Launches(w: World, a: Action) {
    a.Load? && !a.held && a.port in w.slots && !Idempotent(w.slots[a.port], a.model, a.profile)
  }

  /** Swap: the old engine is no longer watched, and a message about its end that is
      already there is dropped. */
  function FreeRunning(w: World, port: Port): World
    requires port in w.slots
  {
    var s := w.slots[port];
    if s.engine.None? then w
    else
      var e := s.engine.value;
      w.(live := w.live - {e}, pending := w.pending - {e}, killed := if e in w.live then w.killed + {e} else w.killed)
  }

  function StartEngine(w: World, model: Model, port: Port, profile: Profile, starts: bool): World
    requires port in w.slots
  {
    if starts then
      var e := Engine(port, w.next);
      w.(slots := w.slots[port := Slot(Loading, Some(model), Some(profile), Some(e))], live := w.live + {e},
          next := w.next + 1,
         log := w.log + [Event(Started, e)])
    else
      w.(slots := w.slots[port := EMPTY])
  }

  function DoUnload(w: World, port: Port): World {
    if port in w.slots && w.slots[port].engine.Some? then
      var e := w.slots[port].engine.value;
      w.(intent := w.intent + {port}, asked := w.asked + {e}, live := w.live - {e}, pending := w.pending + {e},
         killed := if e in w.live then w.killed + {e} else w.killed)
    else w
  }

  function DoMarkUp(w: World, e: Engine): World {
    if Resident(w, e) && w.slots[e.port].status == Loading then
      w.(slots := w.slots[e.port := w.slots[e.port].(status := Up)], log := w.log + [Event(Ready, e)])
    else w
  }

  function Verdict(w: World, e: Engine): Kind
    requires Resident(w, e)
  {
    if e.port in w.intent then Unloaded else if w.slots[e.port].status == Loading then Failed else Down
  }

  function DoHandleDown(w: World, e: Engine): World {
    if e !in w.pending then w
    else
      var w1 := w.(pending := w.pending - {e});
      if Resident(w, e) then
        w1.(slots := w.slots[e.port := EMPTY], intent := w.intent - {e.port}, log := w.log + [Event(Verdict(w, e), e)])
      else w1
  }

  function Do(w: World, a: Action): World {
    match a
    case Load(model, port, profile, _, starts) =>
      if Launches(w, a) then StartEngine(FreeRunning(w, port), model, port, profile, starts) else w
    case Unload(port, held) => if held then w else DoUnload(w, port)
    case MarkUp(e) => DoMarkUp(w, e)
    case HandleDown(e) => DoHandleDown(w, e)
    case Die(e) => if e in w.live then w.(live := w.live - {e}, pending := w.pending + {e}) else w
  }

  function Run(w: World, actions: seq<Action>): World
    decreases |actions|
  {
    if actions == [] then w else Run(Do(w, actions[0]), actions[1..])
  }

  // ---------------------------------------------------------------------
  // What is reported about one engine
  // ---------------------------------------------------------------------

  function Told(log: seq<Event>, e: Engine): seq<Kind> {
    if log == [] then []
    else
      Told(log[..|log| - 1], e) + if log[|log| - 1].engine == e then [log[|log| - 1].kind] else []
  }

  lemma ToldMore(log: seq<Event>, v: Event, e: Engine)
    ensures Told(log + [v], e) == Told(log, e) + if v.engine == e then [v.kind] else []
  {
    assert (log + [v])[..|log|] == log;
  }

  lemma ToldByAll(log: seq<Event>, v: Event)
    ensures forall e :: Told(log + [v], e) == Told(log, e) + if v.engine == e then [v.kind] else []
  {
    forall e ensures Told(log + [v], e) == Told(log, e) + if v.engine == e then [v.kind] else [] {
      ToldMore(log, v, e);
    }
  }

  /** Started, perhaps ready, and at most one end: a failure only before it was ready, a
      crash only after, an unload at any time. */
  predicate Story(ks: seq<Kind>) {
    ks in {[], [Started], [Started, Ready], [Started, Failed], [Started, Unloaded], [Started, Ready, Down],
        [Started, Ready, Unloaded]}
  }

  predicate NoCrash(ks: seq<Kind>) {
    Failed !in ks && Down !in ks
  }

  // ---------------------------------------------------------------------
  // The invariant
  // ---------------------------------------------------------------------

  predicate ResidentOk(w: World, e: Engine)
    requires Resident(w, e)
  {
    && e.id < w.next
    && (e in w.live <==> e !in w.pending)
    && (e in w.killed ==> e.port in w.intent && e !in w.live)
    && Told(w.log, e) == if w.slots[e.port].status == Loading then [Started] else [Started, Ready]
  }

  /** An engine that is not resident is gone, or not there yet. */
  predicate GoneOk(w: World, e: Engine) {
    && e !in w.live && e !in w.pending && Story(Told(w.log, e))
    && (e.id >= w.next ==> Told(w.log, e) == [] && e !in w.killed && e !in w.asked)
    && (e in w.killed ==> NoCrash(Told(w.log, e)))
  }

  predicate EngineOk(w: World, e: Engine) {
    if Resident(w, e) then ResidentOk(w, e) else GoneOk(w, e)
  }

  predicate PortsOk(w: World) {
    && w.intent <= w.slots.Keys
    && forall p :: p in w.slots ==>
         && (w.slots[p].status == Empty <==> w.slots[p].engine.None?)
         && (w.slots[p].engine.Some? ==> w.slots[p].engine.value.port == p)
  }

  ghost predicate Inv(w: World) {
    PortsOk(w) && forall e: Engine :: EngineOk(w, e)
  }

  lemma InitOk(ports: set<Port>)
    ensures Inv(Init(ports))
  {
  }

  /** All that the invariant says about an engine is the same. */
  predicate Same(w: World, w2: World, e: Engine) {
    && Resident(w2, e) == Resident(w, e) && (Resident(w, e) ==> w2.slots[e.port].status == w.slots[e.port].status)
    && (e in w2.live <==> e in w.live) && (e in w2.pending <==> e in w.pending) && (e in w2.killed <==> e in w.killed)
    && (e in w2.asked <==> e in w.asked)
    && (Resident(w, e) && e.port in w.intent ==> e.port in w2.intent)
    && Told(w2.log, e) == Told(w.log, e) && w.next <= w2.next
  }

  lemma SameIsOk(w: World, w2: World, e: Engine)
    requires EngineOk(w, e) && Same(w, w2, e)
    ensures EngineOk(w2, e)
  {
    hide Told, Story, NoCrash;
  }

  /** The one engine that a step is about, and all the others. */
  lemma OneEngine(w: World, w2: World, e: Engine)
    requires Inv(w) && PortsOk(w2) && EngineOk(w2, e) && forall x: Engine :: x != e ==> Same(w, w2, x)
    ensures Inv(w2)
  {
    hide EngineOk, Same, PortsOk;
    forall x: Engine ensures EngineOk(w2, x) {
      if x != e {
        SameIsOk(w, w2, x);
      }
    }
  }

  lemma FreeKeepsInv(w: World, port: Port)
    requires Inv(w) && port in w.slots && w.slots[port].engine.Some?
    ensures Inv(FreeRunning(w, port).(slots := w.slots[port := EMPTY]))
  {
    hide Told;
    var e := w.slots[port].engine.value;
    var w2 := FreeRunning(w, port).(slots := w.slots[port := EMPTY]);
    assert EngineOk(w, e) && Resident(w, e);
    OneEngine(w, w2, e);
  }

  lemma StartKeepsInv(w: World, model: Model, port: Port, profile: Profile)
    requires Inv(w) && port in w.slots && w.slots[port].engine.None?
    ensures Inv(StartEngine(w, model, port, profile, true))
  {
    var e := Engine(port, w.next);
    var w2 := StartEngine(w, model, port, profile, true);
    assert EngineOk(w, e);
    ToldByAll(w.log, Event(Started, e));
    hide Told;
    assert EngineOk(w2, e);
    OneEngine(w, w2, e);
  }

  /** A swap is an eviction and a start. */
  lemma LoadKeepsInv(w: World, a: Action)
    requires Inv(w) && Launches(w, a)
    ensures Inv(Do(w, a))
  {
    hide Inv, Told;
    var empty := w.slots[a.port := EMPTY];
    var w1 := FreeRunning(w, a.port).(slots := empty);
    if w.slots[a.port].engine.Some? {
      FreeKeepsInv(w, a.port);
    } else {
      EmptySlots(w, a.port);
    }
    assert Inv(w1);
    if a.starts {
      StartKeepsInv(w1, a.model, a.port, a.profile);
      assert Do(w, a) == StartEngine(w1, a.model, a.port, a.profile, true);
    } else {
      assert Do(w, a) == w1;
    }
  }

  /** A slot without an engine, emptied. */
  lemma EmptySlots(w: World, port: Port)
    requires Inv(w) && port in w.slots && w.slots[port].engine.None?
    ensures Inv(FreeRunning(w, port).(slots := w.slots[port := EMPTY]))
  {
    hide Told;
    var w2 := FreeRunning(w, port).(slots := w.slots[port := EMPTY]);
    var e := Engine(port, w.next);
    assert EngineOk(w, e);
    assert EngineOk(w2, e);
    OneEngine(w, w2, e);
  }

  lemma UnloadKeepsInv(w: World, port: Port)
    requires Inv(w)
    ensures Inv(DoUnload(w, port))
  {
    hide Told;
    if port in w.slots && w.slots[port].engine.Some? {
      var e := w.slots[port].engine.value;
      assert Resident(w, e) && EngineOk(w, e);
      OneEngine(w, DoUnload(w, port), e);
    }
  }

  lemma MarkUpKeepsInv(w: World, e: Engine)
    requires Inv(w)
    ensures Inv(DoMarkUp(w, e))
  {
    var w2 := DoMarkUp(w, e);
    if Resident(w, e) && w.slots[e.port].status == Loading {
      ToldByAll(w.log, Event(Ready, e));
      hide Told;
      assert EngineOk(w, e);
      OneEngine(w, w2, e);
    }
  }

  lemma HandleDownKeepsInv(w: World, e: Engine)
    requires Inv(w) && e in w.pending
    ensures Inv(DoHandleDown(w, e))
  {
    var w2 := DoHandleDown(w, e);
    assert EngineOk(w, e);
    assert Resident(w, e);
    var v := Verdict(w, e);
    ToldByAll(w.log, Event(v, e));
    hide Told;
    assert [Started] + [v] == [Started, v] && [Started, Ready] + [v] == [Started, Ready, v];
    assert Story(Told(w2.log, e)) && (v == Unloaded ==> NoCrash(Told(w2.log, e)));
    assert EngineOk(w2, e);
    OneEngine(w, w2, e);
  }

  lemma DieKeepsInv(w: World, e: Engine)
    requires Inv(w) && e in w.live
    ensures Inv(Do(w, Die(e)))
  {
    hide Told;
    assert EngineOk(w, e);
    OneEngine(w, Do(w, Die(e)), e);
  }

  lemma DoKeepsInv(w: World, a: Action)
    requires Inv(w)
    ensures Inv(Do(w, a))
  {
    match a
    case Load(_, _, _, _, _) =>
      if Launches(w, a) {
        LoadKeepsInv(w, a);
      }
    case Unload(port, _) => UnloadKeepsInv(w, port);
    case MarkUp(e) => MarkUpKeepsInv(w, e);
    case HandleDown(e) =>
      if e in w.pending {
        HandleDownKeepsInv(w, e);
      }
    case Die(e) =>
      if e in w.live {
        DieKeepsInv(w, e);
      }
    hide Inv;
  }

  lemma {:induction false} RunKeepsInv(w: World, actions: seq<Action>)
    requires Inv(w)
    ensures Inv(Run(w, actions))
    decreases |actions|
  {
    hide Inv, Do;
    if actions != [] {
      DoKeepsInv(w, actions[0]);
      RunKeepsInv(Do(w, actions[0]), actions[1..]);
    }
  }

  // ---------------------------------------------------------------------
  // What holds of every run
  // ---------------------------------------------------------------------

  /** However loads, unloads, readiness reports, deaths and messages interleave: a live
      engine is the resident of its port, so a port has one at most; a slot is empty
      exactly when it has no engine; what is reported about an engine is a story; an
      engine that was unloaded or swapped out while it ran is not reported as failed or
      down. */
  lemma EveryRun(ports: set<Port>, actions: seq<Action>)
    ensures var w := Run(Init(ports), actions);
            && (forall e: Engine :: e in w.live ==> Resident(w, e))
            && (forall d, e :: d in w.live && e in w.live && d.port == e.port ==> d == e)
            && (forall p :: p in w.slots ==> (w.slots[p].status == Empty <==> w.slots[p].engine.None?))
            && (forall e: Engine :: Story(Told(w.log, e)))
            && (forall e: Engine :: e in w.killed ==> NoCrash(Told(w.log, e)))
  {
    InitOk(ports);
    RunKeepsInv(Init(ports), actions);
    var w := Run(Init(ports), actions);
    hide Run, Told;
    assert forall e: Engine :: e in w.live ==> EngineOk(w, e);
    forall e: Engine ensures Story(Told(w.log, e)) && (e in w.killed ==> NoCrash(Told(w.log, e))) {
      assert EngineOk(w, e);
    }
  }

  /** An engine that has left its slot never comes back to it, so a readiness report or
      a message that comes late changes nothing, in any run; and nothing more is
      reported about it. */
  lemma {:induction false} GoneForGood(w: World, actions: seq<Action>, e: Engine)
    requires Inv(w) && !Resident(w, e) && e.id < w.next
    ensures var w2 := Run(w, actions);
            && !Resident(w2, e) && Told(w2.log, e) == Told(w.log, e)
            && Do(w2, MarkUp(e)) == w2 && Do(w2, HandleDown(e)) == w2
    decreases |actions|
  {
    if actions == [] {
      assert EngineOk(w, e);
      assert e !in w.pending;
    } else {
      var w1 := Do(w, actions[0]);
      GoneStays(w, actions[0], e);
      DoKeepsInv(w, actions[0]);
      hide Do, Inv;
      GoneForGood(w1, actions[1..], e);
    }
  }

  lemma GoneStays(w: World, a: Action, e: Engine)
    requires Inv(w) && !Resident(w, e) && e.id < w.next
    ensures var w2 := Do(w, a); !Resident(w2, e) && e.id < w2.next && Told(w2.log, e) == Told(w.log, e)
  {
    var w2 := Do(w, a);
    if w2.log != w.log {
      var v := w2.log[|w.log|];
      assert w2.log == w.log + [v] && v.engine != e;
      ToldMore(w.log, v, e);
    }
    hide Told;
  }

  // ---------------------------------------------------------------------
  // When a crash is reported as an unload
  // ---------------------------------------------------------------------

  /** An unload is reported only of an engine that was asked to be unloaded. */
  ghost predicate Honest(w: World) {
    forall e: Engine :: Unloaded in Told(w.log, e) ==> e in w.asked
  }

  /** The intent of a port is about the engine that is there, if one is. */
  predicate Current(w: World) {
    forall p :: p in w.intent ==> p in w.slots && (w.slots[p].engine.Some? ==> w.slots[p].engine.value in w.asked)
  }

  /** A load waits until the end of an engine asked to unload has been handled. */
  predicate Careful(w: World, a: Action) {
    Launches(w, a) ==> a.port !in w.intent
  }

  predicate CarefulRun(w: World, actions: seq<Action>)
    decreases |actions|
  {
    actions == [] || (Careful(w, actions[0]) && CarefulRun(Do(w, actions[0]), actions[1..]))
  }

  lemma CarefulKeepsCurrent(w: World, a: Action)
    requires Inv(w) && Current(w) && (Careful(w, a) || (a.Load? && !a.starts))
    ensures Current(Do(w, a))
  {
    hide Told, EngineOk;
  }

  lemma CurrentKeepsHonest(w: World, a: Action)
    requires Inv(w) && Current(w) && Honest(w)
    ensures Honest(Do(w, a))
  {
    hide Told;
    var w2 := Do(w, a);
    if w2.log != w.log {
      var v := w2.log[|w.log|];
      assert w2.log == w.log + [v];
      ToldByAll(w.log, v);
      assert v.kind == Unloaded ==> v.engine in w2.asked;
    }
    hide Do, Inv, Current;
  }

  lemma {:induction false} CarefulRunsAreHonest(w: World, actions: seq<Action>)
    requires Inv(w) && Current(w) && Honest(w) && CarefulRun(w, actions)
    ensures Honest(Run(w, actions))
    decreases |actions|
  {
    hide Inv, Current, Honest, Do, Careful;
    if actions != [] {
      DoKeepsInv(w, actions[0]);
      CarefulKeepsCurrent(w, actions[0]);
      CurrentKeepsHonest(w, actions[0]);
      CarefulRunsAreHonest(Do(w, actions[0]), actions[1..]);
    }
  }

  /** The new engine dies, and that is handled. */
  function CrashOf(e: Engine): seq<Action> {
    [Die(e), HandleDown(e)]
  }

  /** An engine started while the intent of its port is left over: its crash is then
      reported as an unload that nobody asked for. */
  lemma OvertakingMisreports(w: World, a: Action)
    requires Inv(w) && Launches(w, a) && a.starts && a.port in w.intent
    ensures var e, w1 := Engine(a.port, w.next), Do(w, a);
            && CarefulRun(w1, CrashOf(e))
            && Unloaded in Told(Run(w1, CrashOf(e)).log, e) && e !in Run(w1, CrashOf(e)).asked
  {
    var e, w1 := Engine(a.port, w.next), Do(w, a);
    assert EngineOk(w, e);
    assert e !in w.asked;
    var w2 := Do(w1, Die(e));
    assert w2 == w1.(live := w1.live - {e}, pending := w1.pending + {e});
    var w3 := Do(w2, HandleDown(e));
    assert w3.log == w2.log + [Event(Unloaded, e)];
    ToldMore(w2.log, Event(Unloaded, e), e);
    hide Told;
    TwoActions(w1, Die(e), HandleDown(e));
  }

  lemma TwoActions(w: World, a: Action, b: Action)
    requires a.Die? && b.HandleDown?
    ensures Run(w, [a, b]) == Do(Do(w, a), b) && CarefulRun(w, [a, b])
  {
    hide Do;
    assert [a, b][1..] == [b] && [b][1..] == [];
    assert Run(Do(w, a), [b]) == Run(Do(Do(w, a), b), []);
    assert CarefulRun(Do(w, a), [b]) by {
      assert CarefulRun(Do(Do(w, a), b), []);
    }
  }

  /** Exactly the loads that do not overtake the end of an engine asked to unload, or
      that fail to start an engine, keep it so that, whatever careful run follows, no
      crash is reported as an unload. */
  lemma HonestIffCareful(w: World, a: Action)
    requires Inv(w) && Current(w) && Honest(w)
    ensures Careful(w, a) || (a.Load? && !a.starts)
       <==> forall later :: CarefulRun(Do(w, a), later) ==> Honest(Run(Do(w, a), later))
  {
    if Careful(w, a) || (a.Load? && !a.starts) {
      forall later | CarefulRun(Do(w, a), later) ensures Honest(Run(Do(w, a), later)) {
        DoKeepsInv(w, a);
        CarefulKeepsCurrent(w, a);
        CurrentKeepsHonest(w, a);
        CarefulRunsAreHonest(Do(w, a), later);
      }
    } else {
      OvertakingMisreports(w, a);
    }
    hide Do, Inv, Current;
  }

  function FirstLoad(port: Port): Action {
    Load(Model(1), port, Profile(0), false, true)
  }

  function SecondLoad(port: Port): Action {
    Load(Model(2), port, Profile(0), false, true)
  }

  /** A load, an unload and a load that does not wait for the end of the first engine: the
      second engine's crash is then reported as an unload that nobody asked for. */
  lemma OvertakingRun(port: Port)
    ensures var w := Run(Init({port}), [FirstLoad(port), Unload(port, false)]);
            Inv(w) && Launches(w, SecondLoad(port)) && port in w.intent
    ensures var w := Run(Init({port}), [FirstLoad(port), Unload(port, false)] + [SecondLoad(port)] +
          CrashOf(Engine(port, 1)));
            Unloaded in Told(w.log, Engine(port, 1)) && Engine(port, 1) !in w.asked
  {
    var two := [FirstLoad(port), Unload(port, false)];
    var w0 := Init({port});
    var w1 := Do(w0, FirstLoad(port));
    var w := Do(w1, Unload(port, false));
    assert w.intent == {port} && w.next == 1 && w.slots[port].status == Loading;
    assert two[1..] == [Unload(port, false)] && two[1..][1..] == [];
    assert Run(w0, two) == Run(w1, [Unload(port, false)]) == Run(w, []) == w;
    InitOk({port});
    RunKeepsInv(w0, two);
    hide Do, Told, Inv;
    OvertakingMisreports(w, SecondLoad(port));
    RunConcat(w0, two, [SecondLoad(port)]);
    RunConcat(w0, two + [SecondLoad(port)], CrashOf(Engine(port, 1)));
    assert Run(w, [SecondLoad(port)]) == Run(Do(w, SecondLoad(port)), []);
  }

  lemma {:induction false} RunConcat(w: World, xs: seq<Action>, ys: seq<Action>)
    ensures Run(w, xs + ys) == Run(Run(w, xs), ys)
    decreases |xs|
  {
    hide Do;
    if xs == [] {
      assert xs + ys == ys;
    } else {
      assert (xs + ys)[0] == xs[0] && (xs + ys)[1..] == xs[1..] + ys;
      RunConcat(Do(w, xs[0]), xs[1..], ys);
    }
  }
}
