/**
 * The older USSD menu: the same state machine for Hubtel and Africa's Talking only. Its
 * links may be null and then are skipped, callback targets are taken even when they give
 * '', a Hubtel route needs a session, and a start state without links needs a default.
 */
module LegacyUssd {
  import opened Wrappers
  import opened Text
  import opened Records
  import Sessions
  import opened Providers
  import opened UssdMenus

  const LegacyProviders: seq<string> := ["hubtel", "africasTalking"]

  /** A link's target: a state name, null, or a callback that hands back a state name. */
  datatype LegacyTarget = Named(name: string) | NullTarget | Callback(next: string -> string)

  datatype LegacyState = LegacyState(name: string, run: Option<Screen>, defaultNext: string, next: Option<Record<LegacyTarget>>, val: Option<string>)

  function LowerMissingState(name: string): string
  {
    "declared state does not exist: " + name
  }

  const NoDefaultNext := "No default next state found"
  const SessionRequired := "Session config required for Hubtel provider"
  const NoRunOnUndefined := "TypeError: Cannot read properties of undefined (reading 'run')"

  /** `opts.provider || 'africasTalking'`, refused unless Hubtel or Africa's Talking. */
  function ChooseLegacyProvider(opt: Option<string>): (r: Result<string>)
    ensures r.Ok? <==> !Truthy(opt) || opt.value in LegacyProviders
    ensures r.Ok? ==> r.value in LegacyProviders && r.value == if Truthy(opt) then opt.value else DefaultProvider
    ensures r.Err? ==> r.message == InvalidProvider(opt.value)
  {
    var p := if Truthy(opt) then opt.value else DefaultProvider;
    if p in LegacyProviders then Ok(p) else Err(InvalidProvider(p))
  }

  /** `state(name, options)`: a missing `next` becomes null, and a missing `defaultNext` the state itself. */
  function NewLegacyState(name: string, next: Option<Record<LegacyTarget>>, run: Option<Screen>, defaultNext: Option<string>): (s: LegacyState)
    ensures s.name == name && s.next == next && s.run == run && s.val.None?
    ensures s.defaultNext == if Truthy(defaultNext) then defaultNext.value else name
    ensures name != "" ==> s.defaultNext != ""
  {
    LegacyState(name, run, if Truthy(defaultNext) then defaultNext.value else name, next, None)
  }

  /** Every registered state has a truthy `defaultNext`, unless it is named ''. */
  ghost predicate DefaultsSet(states: map<string, LegacyState>)
  {
    forall n :: n in states && n != "" ==> states[n].defaultNext != ""
  }

  /** A link is tried when its target is truthy and its rule matches the part. */
  predicate Live(entry: (string, LegacyTarget), part: string, regex: Regex)
  {
    match entry.1
    case Named(name) => name != "" && LinkMatches(entry.0, part, regex)
    case NullTarget => false
    case Callback(_) => LinkMatches(entry.0, part, regex)
  }

  function PathOf(t: LegacyTarget, part: string): string
    requires !t.NullTarget?
  {
    match t
    case Named(name) => name
    case Callback(f) => f(part)
  }

  /** The state name of the first live link; a callback's answer is taken even when it is ''. */
  function FirstLive(entries: Record<LegacyTarget>, part: string, regex: Regex): (r: Option<string>)
    ensures r.Some? <==> exists i :: 0 <= i < |entries| && Live(entries[i], part, regex)
    ensures r.Some? ==> exists i :: 0 <= i < |entries| && Live(entries[i], part, regex) && PathOf(entries[i].1, part) == r.value
                                    && forall j :: 0 <= j < i ==> !Live(entries[j], part, regex)
    decreases |entries|
  {
    if |entries| == 0 then None
    else if Live(entries[0], part, regex) then Some(PathOf(entries[0].1, part))
    else
      var r := FirstLive(entries[1..], part, regex);
      assert forall i :: 1 <= i < |entries| ==> entries[i] == entries[1..][i - 1];
      r
  }

  function LegacyLinks(s: LegacyState): Record<LegacyTarget>
  {
    if s.next.Some? then s.next.value else []
  }

  function Enter(states: map<string, LegacyState>, name: string, part: string): (r: map<string, LegacyState>)
    requires name in states
    ensures r.Keys == states.Keys && r[name].val == Some(part)
  {
    states[name := states[name].(val := Some(part))]
  }

  /** One part of the route from `at`, as the body of the loop over the parts does it. */
  function LegacyMove(states: map<string, LegacyState>, at: string, part: string, regex: Regex): (r: Result<(map<string, LegacyState>, string)>)
    requires at in states
    ensures r.Ok? ==> r.value.1 in r.value.0 && r.value.0.Keys == states.Keys
    ensures var found := FirstLive(Entries(LegacyLinks(states[at])), part, regex);
            && (found.Some? ==> (r.Ok? <==> found.value in states) && (r.Ok? ==> r.value.1 == found.value))
            && (found.None? ==> var d := states[at].defaultNext;
                  (r.Ok? <==> d == "" || d in states) && (r.Ok? ==> r.value.1 == if d == "" then at else d))
  {
    match FirstLive(Entries(LegacyLinks(states[at])), part, regex)
    case Some(target) =>
      if target in states then Ok((Enter(states, target, part), target)) else Err(LowerMissingState(target))
    case None =>
      var d := states[at].defaultNext;
      if d == "" then Ok((states, at))
      else if d in states then Ok((Enter(states, d, part), d))
      else Err(NoValOnUndefined)
  }

  datatype LegacyWalk = LegacyWalk(states: map<string, LegacyState>, val: string, outcome: Result<Option<string>>)

  function LegacyWalkFrom(states: map<string, LegacyState>, at: string, val: string, parts: seq<string>, regex: Regex): (w: LegacyWalk)
    requires at in states
    ensures w.states.Keys == states.Keys
    ensures w.outcome.Ok? ==> w.outcome.value.Some? && w.outcome.value.value in w.states
    decreases |parts|
  {
    if |parts| == 0 then LegacyWalk(states, val, Ok(Some(at)))
    else
      match LegacyMove(states, at, parts[0], regex)
      case Err(e) => LegacyWalk(states, parts[0], Err(e))
      case Ok(moved) => LegacyWalkFrom(moved.0, moved.1, parts[0], parts[1..], regex)
  }

  /**
   * `resolveRoute`: a start state without links resolves to its default, which must be
   * truthy; otherwise the parts (with a leading '' for a '' link) are walked from it.
   */
  function LegacyResolve(states: map<string, LegacyState>, val: string, route: string, regex: Regex): (w: LegacyWalk)
    ensures w.states.Keys == states.Keys
  {
    if StartState !in states then LegacyWalk(states, val, Err(NoNextOnUndefined))
    else
      var start := states[StartState];
      if start.next.None? || |start.next.value| == 0 then
        if start.defaultNext != "" then
          LegacyWalk(states, val, Ok(if start.defaultNext in states then Some(start.defaultNext) else None))
        else LegacyWalk(states, val, Err(NoDefaultNext))
      else
        var parts := (if "" in Keys(LegacyLinks(start)) then [""] else []) + RouteParts(route);
        LegacyWalkFrom(states, StartState, val, parts, regex)
  }

  /** A move only records the part in the state it enters, so every default stays set. */
  lemma MoveKeepsDefaults(states: map<string, LegacyState>, at: string, part: string, regex: Regex)
    requires at in states && DefaultsSet(states)
    ensures var r := LegacyMove(states, at, part, regex);
            r.Ok? ==> DefaultsSet(r.value.0)
  {
    match FirstLive(Entries(LegacyLinks(states[at])), part, regex) {
      case Some(target) =>
        if target in states {
          EnterKeepsDefaults(states, target, part);
        }
      case None =>
        var d := states[at].defaultNext;
        if d != "" && d in states {
          EnterKeepsDefaults(states, d, part);
        }
    }
  }

  /** Entering a state records the part in it and leaves every default as it was. */
  lemma EnterKeepsDefaults(states: map<string, LegacyState>, name: string, part: string)
    requires name in states && DefaultsSet(states)
    ensures DefaultsSet(Enter(states, name, part))
  {
    var r := Enter(states, name, part);
    forall n | n in r && n != "" ensures r[n].defaultNext != "" {
      assert r[n].defaultNext == states[n].defaultNext;
    }
  }

  lemma {:induction false} WalkKeepsDefaults(states: map<string, LegacyState>, at: string, val: string, parts: seq<string>, regex: Regex)
    requires at in states && DefaultsSet(states)
    ensures DefaultsSet(LegacyWalkFrom(states, at, val, parts, regex).states)
    decreases |parts|
  {
    if |parts| > 0 {
      MoveKeepsDefaults(states, at, parts[0], regex);
      match LegacyMove(states, at, parts[0], regex)
      case Err(e) =>
      case Ok(moved) => WalkKeepsDefaults(moved.0, moved.1, parts[0], parts[1..], regex);
    }
  }

  /** Resolving a route keeps every registered state's default, so a menu stays valid across requests. */
  lemma ResolveKeepsDefaults(states: map<string, LegacyState>, val: string, route: string, regex: Regex)
    requires DefaultsSet(states)
    ensures DefaultsSet(LegacyResolve(states, val, route, regex).states)
  {
    if StartState in states {
      var start := states[StartState];
      if !(start.next.None? || |start.next.value| == 0) {
        var parts := (if "" in Keys(LegacyLinks(start)) then [""] else []) + RouteParts(route);
        WalkKeepsDefaults(states, StartState, val, parts, regex);
      }
    }
  }

  /** Registered states always have a default, so a registered start state never raises "No default next state found". */
  lemma DefaultAlwaysFound(states: map<string, LegacyState>, val: string, route: string, regex: Regex)
    requires StartState in states && DefaultsSet(states)
    ensures LegacyResolve(states, val, route, regex).outcome != Err(NoDefaultNext)
  {
    var start := states[StartState];
    assert start.defaultNext != "";
    if !(start.next.None? || |start.next.value| == 0) {
      var parts := (if "" in Keys(LegacyLinks(start)) then [""] else []) + RouteParts(route);
      NoDefaultNextOnWalk(states, StartState, val, parts, regex);
    }
  }

  lemma {:induction false} NoDefaultNextOnWalk(states: map<string, LegacyState>, at: string, val: string, parts: seq<string>, regex: Regex)
    requires at in states
    ensures LegacyWalkFrom(states, at, val, parts, regex).outcome != Err(NoDefaultNext)
    decreases |parts|
  {
    if |parts| > 0 {
      NoDefaultNextOnMove(states, at, parts[0], regex);
      match LegacyMove(states, at, parts[0], regex)
      case Err(e) =>
      case Ok(moved) => NoDefaultNextOnWalk(moved.0, moved.1, parts[0], parts[1..], regex);
    }
  }

  /** A single move fails only on a missing state, never for want of a default. */
  lemma NoDefaultNextOnMove(states: map<string, LegacyState>, at: string, part: string, regex: Regex)
    requires at in states
    ensures LegacyMove(states, at, part, regex) != Err(NoDefaultNext)
  {
    match FirstLive(Entries(LegacyLinks(states[at])), part, regex)
    case Some(target) => MoveErrorsDiffer(target);
    case None => MoveErrorsDiffer("");
  }

  /** Neither error a move raises reads like the missing-default one. */
  lemma MoveErrorsDiffer(name: string)
    ensures LowerMissingState(name) != NoDefaultNext && NoValOnUndefined != NoDefaultNext
  {
    assert LowerMissingState(name)[0] == 'd';
    assert NoDefaultNext[0] == 'N';
    assert |NoValOnUndefined| == 61 && |NoDefaultNext| == 27;
  }

  /** The old menu sees an initiation only when the Hubtel type is exactly `Initiation`. */
  predicate LegacyInitiation(a: HubtelArgs)
  {
    a.kind == "Initiation"
  }

  /** Every initiation the old menu sees is one the gateway mapping sees; the converse fails for `initiation`. */
  lemma InitiationNarrower(a: HubtelArgs)
    ensures LegacyInitiation(a) ==> IsInitiation(Hubtel(a))
    ensures a.kind == "initiation" ==> IsInitiation(Hubtel(a)) && !LegacyInitiation(a)
  {
    if LegacyInitiation(a) {
      assert Lower("Initiation") == "initiation";
    }
    if a.kind == "initiation" {
      assert Lower("initiation") == "initiation";
    }
  }

  /** `mapArgs`: Hubtel's fields are renamed, the text parsed on initiation; other arguments pass through. */
  function LegacyMapArgs(provider: string, raw: RequestArgs): (g: GatewayArgs)
    requires provider == "hubtel" ==> raw.Hubtel?
    requires provider != "hubtel" ==> raw.Plain?
    ensures provider != "hubtel" ==> g == raw.plain
    ensures provider == "hubtel" ==>
              && g.phoneNumber == "+" + raw.hubtel.mobile
              && g.text == if LegacyInitiation(raw.hubtel) then HubtelInitiationText(raw.hubtel) else raw.hubtel.message
  {
    if provider == "hubtel" then
      var a := raw.hubtel;
      GatewayArgs(if LegacyInitiation(a) then HubtelInitiationText(a) else a.message, "+" + a.mobile, a.sessionId, a.serviceCode)
    else raw.plain
  }

  /** `getRoute`: Hubtel keeps the route in the session and cannot do without one. */
  function LegacyRouteResult(provider: string, raw: RequestArgs, session: Option<Option<string>>): (r: Result<string>)
    requires provider == "hubtel" ==> raw.Hubtel?
    requires provider != "hubtel" ==> raw.Plain?
    ensures provider == "hubtel" && session.None? ==> r == Err(SessionRequired)
    ensures provider == "hubtel" && session.Some? && LegacyInitiation(raw.hubtel) ==> r == Ok(HubtelInitiationText(raw.hubtel))
    ensures provider == "hubtel" && session.Some? && !LegacyInitiation(raw.hubtel) ==> r == Ok(NextRoute(session.value, raw.hubtel.message))
    ensures provider != "hubtel" ==> r == Ok(raw.plain.text)
  {
    if provider != "hubtel" then Ok(raw.plain.text)
    else if session.None? then Err(SessionRequired)
    else if LegacyInitiation(raw.hubtel) then Ok(HubtelInitiationText(raw.hubtel))
    else Ok(NextRoute(session.value, LegacyMapArgs(provider, raw).text))
  }

  function LegacyNoRun(name: string): string
  {
    "run function not defined for state: " + name
  }

  /** `runState` in the old menu: the same framing, a lower-case message for a missing `run`. */
  function LegacyRunEffect(provider: string, s: LegacyState): (e: Effect)
    ensures s.run.None? <==> e.Emit?
    ensures e.Reply? ==> Continues(e.reply) == !e.ends && Shown(e.reply) == s.run.value.text
  {
    if s.run.None? then Emit(LegacyNoRun(s.name))
    else Reply(FormatResult(provider, s.run.value.text, s.run.value.kind, None), s.run.value.kind == End)
  }

  class LegacyMenu {
    const provider: string
    const regex: Regex
    var session: Sessions.Store?<string>
    var args: Option<GatewayArgs>
    var states: map<string, LegacyState>
    var result: Formatted
    var delivered: seq<Formatted>
    var val: string
    var errors: seq<string>

    ghost predicate Valid()
      reads this
    {
      provider in LegacyProviders && DefaultsSet(states)
    }

    constructor(provider: string, regex: Regex)
      requires provider in LegacyProviders
      ensures Valid()
      ensures this.provider == provider && this.regex == regex
      ensures session == null && args.None? && states == map[] && result == Text("")
      ensures delivered == [] && val == "" && errors == []
    {
      this.provider := provider;
      this.regex := regex;
      session := null;
      args := None;
      states := map[];
      result := Text("");
      delivered := [];
      val := "";
      errors := [];
    }

    static method Create(opt: Option<string>, regex: Regex) returns (r: Result<LegacyMenu>)
      ensures r.Ok? <==> ChooseLegacyProvider(opt).Ok?
      ensures r.Ok? ==> fresh(r.value) && r.value.Valid() && r.value.provider == ChooseLegacyProvider(opt).value
      ensures r.Err? ==> r.message == ChooseLegacyProvider(opt).message
    {
      var p := ChooseLegacyProvider(opt);
      if p.Err? {
        return Err(p.message);
      }
      var menu := new LegacyMenu(p.value, regex);
      return Ok(menu);
    }

    method SessionConfig(store: Sessions.Store<string>)
      modifies this`session
      ensures session == store
    {
      session := store;
    }

    method State(name: string, next: Option<Record<LegacyTarget>>, run: Option<Screen>, defaultNext: Option<string>)
      requires Valid()
      modifies this`states
      ensures Valid()
      ensures states == old(states)[name := NewLegacyState(name, next, run, defaultNext)]
    {
      states := states[name := NewLegacyState(name, next, run, defaultNext)];
    }

    /** `con`: Hubtel gets a `Response` object, Africa's Talking a `CON ` string. */
    method Con(text: string)
      modifies this`result, this`delivered
      ensures result == FormatResult(provider, text, Kind.Con, None) && delivered == old(delivered) + [result]
    {
      result := FormatResult(provider, text, Kind.Con, None);
      delivered := delivered + [result];
    }

    /** `end`: a `Release` object or an `END ` string, then the session ends. */
    method End(text: string)
      modifies this`result, this`delivered, session
      ensures result == FormatResult(provider, text, Kind.End, None) && delivered == old(delivered) + [result]
      ensures session != null ==> session.data == old(session.data) && session.ended
    {
      result := FormatResult(provider, text, Kind.End, None);
      delivered := delivered + [result];
      if session != null {
        session.End();
      }
    }

    method FindLive(entries: Record<LegacyTarget>, part: string) returns (target: Option<string>)
      ensures target == FirstLive(entries, part, regex)
    {
      var i := 0;
      while i < |entries|
        invariant 0 <= i <= |entries|
        invariant FirstLive(entries[i..], part, regex) == FirstLive(entries, part, regex)
      {
        var entry := entries[i];
        assert entries[i..][0] == entry && entries[i..][1..] == entries[i + 1..];
        if Live(entry, part, regex) {
          return Some(PathOf(entry.1, part));
        }
        i := i + 1;
      }
      return None;
    }

    /** `resolveRoute`: the start state's default when it has no links, else the walk over the parts. */
    method ResolveRoute(route: string) returns (outcome: Result<Option<string>>)
      requires Valid()
      modifies this`states, this`val
      ensures Valid()
      ensures LegacyWalk(states, val, outcome) == LegacyResolve(old(states), old(val), route, regex)
    {
      ResolveKeepsDefaults(states, val, route, regex);
      if StartState !in states {
        return Err(NoNextOnUndefined);
      }
      var start := states[StartState];
      if start.next.None? || |start.next.value| == 0 {
        if start.defaultNext != "" {
          return Ok(if start.defaultNext in states then Some(start.defaultNext) else None);
        }
        return Err(NoDefaultNext);
      }
      var parts := (if "" in Keys(LegacyLinks(start)) then [""] else []) + RouteParts(route);
      outcome := WalkParts(StartState, parts);
    }

    /** The loop over the parts, each taking the first live link or the default. */
    method WalkParts(at: string, parts: seq<string>) returns (outcome: Result<Option<string>>)
      requires Valid() && at in states
      modifies this`states, this`val
      ensures Valid()
      ensures LegacyWalk(states, val, outcome) == LegacyWalkFrom(old(states), at, old(val), parts, regex)
    {
      WalkKeepsDefaults(states, at, val, parts, regex);
      var here := at;
      var i := 0;
      while i < |parts|
        invariant 0 <= i <= |parts| && here in states
        invariant LegacyWalkFrom(states, here, val, parts[i..], regex) == LegacyWalkFrom(old(states), at, old(val), parts, regex)
      {
        var part := parts[i];
        assert parts[i..][0] == part && parts[i..][1..] == parts[i + 1..];
        val := part;
        var m := Step(here, part);
        if m.Err? {
          return Err(m.message);
        }
        states := m.value.0;
        here := m.value.1;
        i := i + 1;
      }
      return Ok(Some(here));
    }

    method Step(at: string, part: string) returns (r: Result<(map<string, LegacyState>, string)>)
      requires at in states
      ensures r == LegacyMove(states, at, part, regex)
    {
      var found := FindLive(Entries(LegacyLinks(states[at])), part);
      if found.Some? {
        if found.value !in states {
          return Err(LowerMissingState(found.value));
        }
        return Ok((Enter(states, found.value, part), found.value));
      }
      var d := states[at].defaultNext;
      if d == "" {
        return Ok((states, at));
      }
      if d !in states {
        return Err(NoValOnUndefined);
      }
      return Ok((Enter(states, d, part), d));
    }

    /** `getRoute`, writing the Hubtel route under `route`. */
    method GetRoute(raw: RequestArgs) returns (r: Result<string>)
      requires provider == "hubtel" ==> raw.Hubtel?
      requires provider != "hubtel" ==> raw.Plain?
      modifies session
      ensures r == LegacyRouteResult(provider, raw, if session == null then None else Some(old(session.Lookup(RouteKey))))
      ensures session != null ==> session.ended == old(session.ended)
      ensures session != null ==> session.data == if provider == "hubtel" then old(session.data)[RouteKey := r.value] else old(session.data)
    {
      if provider != "hubtel" {
        return Ok(raw.plain.text);
      }
      if session == null {
        return Err(SessionRequired);
      }
      var route;
      if LegacyInitiation(raw.hubtel) {
        route := HubtelInitiationText(raw.hubtel);
      } else {
        var past := session.Get(RouteKey);
        route := NextRoute(past, LegacyMapArgs(provider, raw).text);
      }
      session.Set(RouteKey, route);
      r := Ok(route);
    }
  
    twostate predicate Applied(e: Effect)
      reads this, session
    {
      && delivered == old(delivered) + (if e.Reply? then [e.reply] else [])
      && errors == old(errors) + (if e.Emit? then [e.error] else [])
      && result == (if e.Reply? then e.reply else old(result))
      && session == old(session)
      && (session != null ==> session.ended == (old(session.ended) || (e.Reply? && e.ends)))
    }

    method RunState(name: string)
      requires name in states
      modifies this`result, this`delivered, this`errors, session
      ensures Applied(LegacyRunEffect(provider, states[name]))
      ensures session != null ==> session.data == old(session.data)
    {
      var s := states[name];
      if s.run.None? {
        errors := errors + [LegacyNoRun(s.name)];
      } else if s.run.value.kind == Kind.Con {
        Con(s.run.value.text);
      } else {
        End(s.run.value.text);
      }
    }

    /**
     * `go(name)`: shows state `name` with the menu's current `val`. For an unknown state the
     * assignment to its `val` throws to the caller of `go` (`thrown`), before anything is shown.
     */
    method Go(name: string) returns (thrown: Option<string>)
      requires Valid()
      modifies this`states, this`result, this`delivered, this`errors, session
      ensures Valid()
      ensures name !in old(states) ==> thrown == Some(NoValOnUndefined) && states == old(states) && Applied(NoEffect)
      ensures name in old(states) ==>
                thrown.None? && states == Enter(old(states), name, val) && Applied(LegacyRunEffect(provider, states[name]))
      ensures session != null ==> session.data == old(session.data)
      ensures states.Keys == old(states).Keys
    {
      if name !in states {
        return Some(NoValOnUndefined);
      }
      states := Enter(states, name, val);
      RunState(name);
      thrown := None;
    }

    /**
     * `run(args)`: maps the request, gets and resolves its route, and shows the state reached;
     * any error thrown on the way is caught and emitted.
     */
    method Run(raw: RequestArgs)
      requires Valid()
      requires provider == "hubtel" ==> raw.Hubtel?
      requires provider != "hubtel" ==> raw.Plain?
      modifies this`args, this`states, this`val, this`result, this`delivered, this`errors, session
      ensures Valid()
      ensures args == Some(LegacyMapArgs(provider, raw))
      ensures var rr := LegacyRouteResult(provider, raw, if session == null then None else Some(old(session.Lookup(RouteKey))));
              && (rr.Err? ==> states == old(states) && val == old(val) && Applied(Emit(rr.message)))
              && (rr.Ok? ==> var w := LegacyResolve(old(states), old(val), rr.value, regex);
                    && states == w.states && val == w.val
                    && (w.outcome.Err? ==> Applied(Emit(w.outcome.message)))
                    && (w.outcome == Ok(None) ==> Applied(Emit(NoRunOnUndefined)))
                    && (w.outcome.Ok? && w.outcome.value.Some? ==> Applied(LegacyRunEffect(provider, states[w.outcome.value.value]))))
      ensures session != null ==> session.data == if provider == "hubtel"
                                                  then old(session.data)[RouteKey := LegacyRouteResult(provider, raw, Some(old(session.Lookup(RouteKey)))).value]
                                                  else old(session.data)
    {
      args := Some(LegacyMapArgs(provider, raw));
      var route := GetRoute(raw);
      if route.Err? {
        errors := errors + [route.message];
        return;
      }
      Show(route.value);
    }

    /** The rest of `run`: resolves the route and shows the state reached, or emits why not. */
    method Show(route: string)
      requires Valid()
      modifies this`states, this`val, this`result, this`delivered, this`errors, session
      ensures Valid()
      ensures session != null ==> session.data == old(session.data)
      ensures var w := LegacyResolve(old(states), old(val), route, regex);
              && states == w.states && val == w.val
              && (w.outcome.Err? ==> Applied(Emit(w.outcome.message)))
              && (w.outcome == Ok(None) ==> Applied(Emit(NoRunOnUndefined)))
              && (w.outcome.Ok? && w.outcome.value.Some? ==> Applied(LegacyRunEffect(provider, states[w.outcome.value.value])))
    {
      var outcome := ResolveRoute(route);
      if outcome.Err? {
        errors := errors + [outcome.message];
      } else if outcome.value.None? {
        errors := errors + [NoRunOnUndefined];
      } else {
        RunState(outcome.value.value);
      }
    }
  }
}
