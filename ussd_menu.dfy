/**
 * The USSD menu: named states, each with a screen to show and links to follow. A request
 * carries the whole route typed so far (`1*2*...`); the menu walks it from the start state,
 * one part at a time, and shows the screen of the state it arrives at.
 */
module UssdMenus {
  import opened Wrappers
  import opened Text
  import opened Records
  import Sessions
  import opened Providers

  const StartState := "__start__"
  const DefaultProvider := "africasTalking"
  const ValidProviders: seq<string> := ["hubtel", "africasTalking", "emergent", "cross-switch", "nalo", "arkesel", "beem", "southpawsl"]

  /** `RegExp(pattern).test(input)`, for the link rules this model does not interpret. */
  type Regex = (string, string) -> bool

  /** Where a link leads: a state name, or a function computing one from the part being consumed. */
  datatype Target = Path(name: string) | Computed(next: string -> string)

  /** What a state's `run` callback does: show a screen and continue, or show it and end. */
  datatype Screen = Screen(kind: Kind, text: string)

  datatype UssdState = UssdState(name: string, run: Option<Screen>, defaultNext: string, next: Option<Record<Target>>, val: Option<string>)

  function InvalidProvider(provider: string): string
  {
    "Invalid Provider Option: " + provider
  }

  function MissingState(name: string): string
  {
    "Declared state does not exist: " + name
  }

  function NoRun(name: string): string
  {
    "Run function not defined for state: " + name
  }

  const NoValOnUndefined := "TypeError: Cannot set properties of undefined (setting 'val')"
  const NoNextOnUndefined := "TypeError: Cannot read properties of undefined (reading 'next')"

  /** The constructor's choice: `opts.provider || 'africasTalking'`, refused unless one of the eight. */
  function ChooseProvider(opt: Option<string>): (r: Result<string>)
    ensures r.Ok? <==> !Truthy(opt) || opt.value in ValidProviders
    ensures r.Ok? ==> r.value in ValidProviders && r.value == if Truthy(opt) then opt.value else DefaultProvider
    ensures r.Err? ==> r.message == InvalidProvider(opt.value)
  {
    var p := if Truthy(opt) then opt.value else DefaultProvider;
    if p in ValidProviders then Ok(p) else Err(InvalidProvider(p))
  }

  /** `state(name, options)`: `next` as given, and `defaultNext` falling back to the state itself. */
  function NewState(name: string, next: Option<Record<Target>>, run: Option<Screen>, defaultNext: Option<string>): (s: UssdState)
    ensures s.name == name && s.next == next && s.run == run && s.val.None?
    ensures s.defaultNext == if Truthy(defaultNext) then defaultNext.value else name
  {
    UssdState(name, run, if Truthy(defaultNext) then defaultNext.value else name, next, None)
  }

  /**
   * `testLinkRule`: a rule starting with `*` is a regular expression on the rest, so the bare
   * `*` matches every input; any other rule must equal the input.
   */
  function LinkMatches(rule: string, input: string, regex: Regex): (b: bool)
    ensures rule == "*" ==> b
    ensures (|rule| == 0 || rule[0] != '*') ==> (b <==> rule == input)
  {
    if |rule| > 0 && rule[0] == '*' then rule[1..] == "" || regex(rule[1..], input) else rule == input
  }

  /** The state name a link yields when it consumes `part`; '' yields nothing. */
  function TargetOf(t: Target, part: string): string
  {
    match t
    case Path(name) => name
    case Computed(f) => f(part)
  }

  predicate Moves(entry: (string, Target), part: string, regex: Regex)
  {
    LinkMatches(entry.0, part, regex) && TargetOf(entry.1, part) != ""
  }

  /** The target of the first link, in enumeration order, that matches and yields a state name. */
  function FirstMove(entries: Record<Target>, part: string, regex: Regex): (r: Option<string>)
    ensures r.Some? <==> exists i :: 0 <= i < |entries| && Moves(entries[i], part, regex)
    ensures r.Some? ==> exists i :: 0 <= i < |entries| && Moves(entries[i], part, regex) && TargetOf(entries[i].1, part) == r.value
                                    && forall j :: 0 <= j < i ==> !Moves(entries[j], part, regex)
    decreases |entries|
  {
    if |entries| == 0 then None
    else if Moves(entries[0], part, regex) then Some(TargetOf(entries[0].1, part))
    else
      var r := FirstMove(entries[1..], part, regex);
      assert forall i :: 1 <= i < |entries| ==> entries[i] == entries[1..][i - 1];
      r
  }

  function Links(s: UssdState): Record<Target>
  {
    if s.next.Some? then s.next.value else []
  }

  /** Moving to state `name` records the consumed part as its `val`. */
  function Visit(states: map<string, UssdState>, name: string, part: string): map<string, UssdState>
    requires name in states
  {
    states[name := states[name].(val := Some(part))]
  }

  /** The walk changes nothing about the states but their `val`. */
  ghost predicate OnlyVals(before: map<string, UssdState>, after: map<string, UssdState>)
  {
    after.Keys == before.Keys && forall n :: n in after ==> after[n] == before[n].(val := after[n].val)
  }

  lemma OnlyValsChain(a: map<string, UssdState>, b: map<string, UssdState>, c: map<string, UssdState>)
    requires OnlyVals(a, b) && OnlyVals(b, c)
    ensures OnlyVals(a, c)
  {
    forall n | n in c ensures c[n] == a[n].(val := c[n].val) {
      assert b[n] == a[n].(val := b[n].val);
    }
  }

  /**
   * One part of the route from state `at`: the first matching link with a state name moves
   * there, and a missing state is an error; with no such link the menu moves to `defaultNext`.
   */
  function Move(states: map<string, UssdState>, at: string, part: string, regex: Regex): (r: Result<(map<string, UssdState>, string)>)
    requires at in states
    ensures r.Ok? ==> r.value.1 in r.value.0 && OnlyVals(states, r.value.0)
    ensures var found := FirstMove(Entries(Links(states[at])), part, regex);
            && (found.Some? ==> (r.Ok? <==> found.value in states) && (r.Ok? ==> r.value.1 == found.value))
            && (found.None? ==> var d := states[at].defaultNext;
                  (r.Ok? <==> d == "" || d in states) && (r.Ok? ==> r.value.1 == if d == "" then at else d))
            && (r.Ok? && (found.Some? || states[at].defaultNext != "") ==> r.value.0[r.value.1].val == Some(part))
    ensures var found := FirstMove(Entries(Links(states[at])), part, regex);
            r.Err? ==> r.message == if found.Some? then MissingState(found.value) else NoValOnUndefined
  {
    match FirstMove(Entries(Links(states[at])), part, regex)
    case Some(target) =>
      if target in states then VisitOnlyVals(states, target, part); Ok((Visit(states, target, part), target))
      else Err(MissingState(target))
    case None =>
      var d := states[at].defaultNext;
      if d == "" then OnlyValsRefl(states); Ok((states, at))
      else if d in states then VisitOnlyVals(states, d, part); Ok((Visit(states, d, part), d))
      else Err(NoValOnUndefined)
  }

  lemma VisitOnlyVals(states: map<string, UssdState>, name: string, part: string)
    requires name in states
    ensures name in Visit(states, name, part) && Visit(states, name, part)[name].val == Some(part)
    ensures OnlyVals(states, Visit(states, name, part))
  {
  }

  lemma OnlyValsRefl(states: map<string, UssdState>)
    ensures OnlyVals(states, states)
  {
  }

  /** The states after a walk, the menu's `val` (the last part consumed), and where it ended. */
  datatype Walk = Walk(states: map<string, UssdState>, val: string, outcome: Result<Option<string>>)

  /** `processNextState`, over the remaining parts. */
  function WalkFrom(states: map<string, UssdState>, at: string, val: string, parts: seq<string>, regex: Regex): (w: Walk)
    requires at in states
    ensures OnlyVals(states, w.states)
    ensures w.outcome.Ok? ==> w.outcome.value.Some? && w.outcome.value.value in w.states
    ensures |parts| == 0 ==> w.outcome == Ok(Some(at)) && w.val == val
    decreases |parts|
  {
    if |parts| == 0 then Walk(states, val, Ok(Some(at)))
    else
      match Move(states, at, parts[0], regex)
      case Err(e) => Walk(states, parts[0], Err(e))
      case Ok(moved) =>
        var w := WalkFrom(moved.0, moved.1, parts[0], parts[1..], regex);
        OnlyValsChain(states, moved.0, w.states);
        w
  }

  /** An empty route has no parts; otherwise the route splits on `*`. */
  function RouteParts(route: string): (parts: seq<string>)
    ensures route == "" ==> parts == []
    ensures route != "" ==> Join(parts, "*") == route
  {
    if route == "" then [] else JoinSplit(route, '*'); Split(route, '*')
  }

  /** The parts walked from the start state: an extra '' first when the start state has a '' link. */
  function StartParts(start: UssdState, route: string): seq<string>
  {
    (if "" in Keys(Links(start)) then [""] else []) + RouteParts(route)
  }

  /**
   * `resolveRoute`: a start state without links resolves to its `defaultNext` (or to nothing
   * when that state is missing) whatever the route; otherwise the parts are walked from it.
   */
  function Resolve(states: map<string, UssdState>, val: string, route: string, regex: Regex): (w: Walk)
    ensures OnlyVals(states, w.states)
    ensures StartState !in states ==> w == Walk(states, val, Err(NoNextOnUndefined))
  {
    if StartState !in states then Walk(states, val, Err(NoNextOnUndefined))
    else
      var start := states[StartState];
      if start.next.None? || |start.next.value| == 0 then
        Walk(states, val, Ok(if start.defaultNext in states then Some(start.defaultNext) else None))
      else WalkFrom(states, StartState, val, StartParts(start, route), regex)
  }

  /** What showing a state does: reply and perhaps end the session, or report the missing callback. */
  datatype Effect = Reply(reply: Formatted, ends: bool) | Emit(error: string) | NoEffect

  function RunEffect(provider: string, args: Option<GatewayArgs>, s: UssdState): (e: Effect)
    ensures s.run.None? <==> e.Emit?
    ensures e.Reply? ==> Continues(e.reply) == !e.ends && Shown(e.reply) == s.run.value.text
  {
    if s.run.None? then Emit(NoRun(s.name))
    else Reply(FormatResult(provider, s.run.value.text, s.run.value.kind, args), s.run.value.kind == End)
  }

  /** The route a request resolves, or the error getting it raised. */
  function RouteResult(args: RequestArgs, session: Option<Option<string>>): (r: Result<string>)
    ensures args.Plain? ==> r == Ok(args.plain.text)
    ensures !args.Plain? ==> (r.Ok? <==> session.Some?)
  {
    if args.Plain? then Ok(args.plain.text)
    else if session.None? then Err(if IsInitiation(args) then NoSessionSet else NoSessionGet)
    else Ok(RouteFor(args, session.value))
  }

  class UssdMenu {
    const provider: string
    const regex: Regex
    var session: Sessions.Store?<string>
    var args: Option<GatewayArgs>
    var states: map<string, UssdState>
    var result: Formatted
    /** Every result handed to the caller's `onResult` and `resolve`, in order. */
    var delivered: seq<Formatted>
    var val: string
    /** The `error` events emitted, in order. */
    var errors: seq<string>

    constructor(provider: string, regex: Regex)
      requires provider in ValidProviders
      ensures this.provider == provider && this.regex == regex
      ensures session == null && args.None? && states == map[] && result == Text("")
      ensures delivered == [] && val == "" && errors == []
    {
      this.provider := provider;
      this.regex := regex;
      session := null;
      args := None;
      states := map[];
      result := Text("");
      delivered := [];
      val := "";
      errors := [];
    }

    /** `new UssdMenu(opts)`: a menu for the chosen provider, or the error the constructor throws. */
    static method Create(opt: Option<string>, regex: Regex) returns (r: Result<UssdMenu>)
      ensures r.Ok? <==> ChooseProvider(opt).Ok?
      ensures r.Ok? ==> fresh(r.value) && r.value.provider == ChooseProvider(opt).value && r.value.states == map[]
      ensures r.Err? ==> r.message == ChooseProvider(opt).message
    {
      var p := ChooseProvider(opt);
      if p.Err? {
        return Err(p.message);
      }
      var menu := new UssdMenu(p.value, regex);
      return Ok(menu);
    }

    method SessionConfig(store: Sessions.Store<string>)
      modifies this`session
      ensures session == store
    {
      session := store;
    }

    /** `state(name, options)`: registers a fresh state under `name`, replacing any earlier one. */
    method State(name: string, next: Option<Record<Target>>, run: Option<Screen>, defaultNext: Option<string>)
      modifies this`states
      ensures states == old(states)[name := NewState(name, next, run, defaultNext)]
    {
      states := states[name := NewState(name, next, run, defaultNext)];
    }

    method StartStateOf(next: Option<Record<Target>>, run: Option<Screen>, defaultNext: Option<string>)
      modifies this`states
      ensures states == old(states)[StartState := NewState(StartState, next, run, defaultNext)]
    {
      State(StartState, next, run, defaultNext);
    }

    method Con(text: string)
      modifies this`result, this`delivered
      ensures result == FormatResult(provider, text, Kind.Con, args) && delivered == old(delivered) + [result]
    {
      result := FormatResult(provider, text, Kind.Con, args);
      delivered := delivered + [result];
    }

    /** Like `Con`, and then ends the session when one is configured. */
    method End(text: string)
      modifies this`result, this`delivered, session
      ensures result == FormatResult(provider, text, Kind.End, args) && delivered == old(delivered) + [result]
      ensures session != null ==> session.data == old(session.data) && session.ended
    {
      result := FormatResult(provider, text, Kind.End, args);
      delivered := delivered + [result];
      if session != null {
        session.End();
      }
    }

    /** The inner loop of `processNextState`: the first link that matches and yields a state name. */
    method FindMove(entries: Record<Target>, part: string) returns (target: Option<string>)
      ensures target == FirstMove(entries, part, regex)
    {
      var i := 0;
      while i < |entries|
        invariant 0 <= i <= |entries|
        invariant FirstMove(entries[i..], part, regex) == FirstMove(entries, part, regex)
      {
        var entry := entries[i];
        assert entries[i..][0] == entry && entries[i..][1..] == entries[i + 1..];
        if LinkMatches(entry.0, part, regex) {
          var path := TargetOf(entry.1, part);
          if path != "" {
            return Some(path);
          }
        }
        i := i + 1;
      }
      return None;
    }

    /** One pass of `processNextState` from state `at`. */
    method MoveOn(at: string, part: string) returns (r: Result<(map<string, UssdState>, string)>)
      requires at in states
      ensures r == Move(states, at, part, regex)
    {
      var found := FindMove(Entries(Links(states[at])), part);
      if found.Some? {
        if found.value !in states {
          return Err(MissingState(found.value));
        }
        return Ok((Visit(states, found.value, part), found.value));
      }
      var d := states[at].defaultNext;
      if d == "" {
        return Ok((states, at));
      }
      if d !in states {
        return Err(NoValOnUndefined);
      }
      return Ok((Visit(states, d, part), d));
    }

    /** `processNextState(0)`: consumes the parts one by one from state `at`. */
    method WalkParts(at: string, parts: seq<string>) returns (outcome: Result<Option<string>>)
      requires at in states
      modifies this`states, this`val
      ensures Walk(states, val, outcome) == WalkFrom(old(states), at, old(val), parts, regex)
    {
      var here := at;
      var i := 0;
      while i < |parts|
        invariant 0 <= i <= |parts| && here in states
        invariant WalkFrom(states, here, val, parts[i..], regex) == WalkFrom(old(states), at, old(val), parts, regex)
      {
        var part := parts[i];
        assert parts[i..][0] == part && parts[i..][1..] == parts[i + 1..];
        val := part;
        var m := MoveOn(here, part);
        if m.Err? {
          return Err(m.message);
        }
        states := m.value.0;
        here := m.value.1;
        i := i + 1;
      }
      return Ok(Some(here));
    }

    /** `resolveRoute`: walks the route, recording each consumed part, and names the state reached. */
    method ResolveRoute(route: string) returns (outcome: Result<Option<string>>)
      modifies this`states, this`val
      ensures Walk(states, val, outcome) == Resolve(old(states), old(val), route, regex)
    {
      if StartState !in states {
        return Err(NoNextOnUndefined);
      }
      var start := states[StartState];
      if start.next.None? || |start.next.value| == 0 {
        return Ok(if start.defaultNext in states then Some(start.defaultNext) else None);
      }
      outcome := WalkParts(StartState, StartParts(start, route));
    }

    /** The effect showing a state had: replies, errors and the session's end, as `e` says. */
    twostate predicate Applied(e: Effect)
      reads this, session
    {
      && delivered == old(delivered) + (if e.Reply? then [e.reply] else [])
      && errors == old(errors) + (if e.Emit? then [e.error] else [])
      && result == (if e.Reply? then e.reply else old(result))
      && session == old(session)
      && (session != null ==> session.ended == (old(session.ended) || (e.Reply? && e.ends)))
    }

    /** `runState`: the state's screen, or an error event when it has no `run`. */
    method RunState(name: string)
      requires name in states
      modifies this`result, this`delivered, this`errors, session
      ensures Applied(RunEffect(provider, args, states[name]))
      ensures session != null ==> session.data == old(session.data)
    {
      var s := states[name];
      if s.run.None? {
        errors := errors + [NoRun(s.name)];
      } else if s.run.value.kind == Kind.Con {
        Con(s.run.value.text);
      } else {
        End(s.run.value.text);
      }
    }

    /**
     * `go(name)`: shows state `name` with the menu's current `val`. For an unknown state the
     * assignment to its `val` throws to the caller of `go` (`thrown`), before anything is shown.
     */
    method Go(name: string) returns (thrown: Option<string>)
      modifies this`states, this`result, this`delivered, this`errors, session
      ensures name !in old(states) ==> thrown == Some(NoValOnUndefined) && states == old(states) && Applied(NoEffect)
      ensures name in old(states) ==>
                thrown.None? && states == Visit(old(states), name, val) && Applied(RunEffect(provider, args, states[name]))
      ensures session != null ==> session.data == old(session.data)
    {
      if name !in states {
        return Some(NoValOnUndefined);
      }
      states := Visit(states, name, val);
      RunState(name);
      thrown := None;
    }

    /**
     * `run(args)`: maps the request, gets its route (writing it to the session), resolves the
     * route and shows the state reached. Getting the route is not asynchronous, so a request
     * that needs a session when none is configured makes `run` itself throw (`thrown`) before
     * any error handler is attached; errors after that become error events.
     */
    method Run(raw: RequestArgs) returns (thrown: Option<string>)
      requires Fits(provider, raw)
      modifies this`args, this`states, this`val, this`result, this`delivered, this`errors, session
      ensures args == Some(MapArgs(provider, raw))
      ensures var rr := RouteResult(raw, if session == null then None else Some(old(session.Lookup(RouteKey))));
              && (rr.Err? ==> thrown == Some(rr.message) && states == old(states) && val == old(val) && Applied(NoEffect))
              && (rr.Ok? ==> var w := Resolve(old(states), old(val), rr.value, regex);
                    && thrown.None?
                    && states == w.states && val == w.val
                    && (w.outcome.Err? ==> Applied(Emit(w.outcome.message)))
                    && (w.outcome == Ok(None) ==> Applied(NoEffect))
                    && (w.outcome.Ok? && w.outcome.value.Some? ==> Applied(RunEffect(provider, args, states[w.outcome.value.value]))))
      ensures session != null ==> session.data == if raw.Plain? then old(session.data) else old(session.data)[RouteKey := RouteFor(raw, old(session.Lookup(RouteKey)))]
    {
      args := Some(MapArgs(provider, raw));
      var route := GetRoute(provider, raw, session);
      if route.Err? {
        return Some(route.message);
      }
      Show(route.value);
      thrown := None;
    }

    /** The rest of `run`: resolves the route and shows the state reached. */
    method Show(route: string)
      modifies this`states, this`val, this`result, this`delivered, this`errors, session
      ensures var w := Resolve(old(states), old(val), route, regex);
              && states == w.states && val == w.val
              && (w.outcome.Err? ==> Applied(Emit(w.outcome.message)))
              && (w.outcome == Ok(None) ==> Applied(NoEffect))
              && (w.outcome.Ok? && w.outcome.value.Some? ==> Applied(RunEffect(provider, args, states[w.outcome.value.value])))
      ensures session != null ==> session.data == old(session.data)
    {
      var outcome := ResolveRoute(route);
      if outcome.Err? {
        errors := errors + [outcome.message];
      } else if outcome.value.Some? {
        RunState(outcome.value.value);
      }
    }
  }
}
