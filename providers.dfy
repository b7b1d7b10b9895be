/**
 * The USSD gateways the menu answers: how each gateway's request becomes the common
 * menu arguments, how the route typed so far is kept in the session, and how a reply
 * is framed for each gateway.
 */
module Providers {
  import opened Wrappers
  import opened Text
  import Sessions

  /** The arguments the menu works on, whatever the gateway. */
  datatype GatewayArgs = GatewayArgs(text: string, phoneNumber: string, sessionId: string, serviceCode: string)

  datatype HubtelArgs = HubtelArgs(mobile: string, sessionId: string, serviceCode: string, kind: string, message: string)
  datatype NaloArgs = NaloArgs(userId: string, msisdn: string, msgType: bool, userData: string)
  datatype ArkeselArgs = ArkeselArgs(sessionId: string, userId: string, newSession: bool, msisdn: string, userData: string)
  datatype SouthPawslArgs = SouthPawslArgs(sessionId: string, menuId: string, ussdString: string, msisdn: string, inputOption: string)
  datatype BeemArgs = BeemArgs(msisdn: string, sessionId: string, command: string, serviceCode: string, response: string)

  /** A request body as one of the gateways posts it. */
  datatype RequestArgs =
    | Hubtel(hubtel: HubtelArgs)
    | Nalo(nalo: NaloArgs)
    | Arkesel(arkesel: ArkeselArgs)
    | SouthPawsl(southPawsl: SouthPawslArgs)
    | Beem(beem: BeemArgs)
    | Plain(plain: GatewayArgs)

  /** The branch of the provider switches a provider name takes. */
  datatype Family = HubtelFamily | NaloFamily | ArkeselFamily | SouthPawslFamily | BeemFamily | DefaultFamily

  function FamilyOf(provider: string): (f: Family)
    ensures f == HubtelFamily <==> provider in {"hubtel", "emergent", "cross-switch"}
    ensures f == NaloFamily <==> provider == "nalo"
    ensures f == ArkeselFamily <==> provider == "arkesel"
    ensures f == SouthPawslFamily <==> provider == "southpawsl"
    ensures f == BeemFamily <==> provider == "beem"
  {
    if provider == "hubtel" || provider == "emergent" || provider == "cross-switch" then HubtelFamily
    else if provider == "nalo" then NaloFamily
    else if provider == "arkesel" then ArkeselFamily
    else if provider == "southpawsl" then SouthPawslFamily
    else if provider == "beem" then BeemFamily
    else DefaultFamily
  }

  /** The request has the shape the provider's branch reads it as. */
  predicate Fits(provider: string, args: RequestArgs)
  {
    match FamilyOf(provider)
    case HubtelFamily => args.Hubtel?
    case NaloFamily => args.Nalo?
    case ArkeselFamily => args.Arkesel?
    case SouthPawslFamily => args.SouthPawsl?
    case BeemFamily => args.Beem?
    case DefaultFamily => args.Plain?
  }

  /** JavaScript's truthiness of a possibly missing string. */
  predicate Truthy(s: Option<string>)
  {
    s.Some? && s.value != ""
  }

  /**
   * Initiation text `*<code>#` is the bare code; otherwise the route is what lies between
   * the code's `*…*` and the final character.
   */
  function ParseInitiationText(serviceCode: string, text: string): (r: string)
    ensures |r| <= |text|
  {
    if text == "*" + serviceCode + "#" then "" else JsSlice(text, |serviceCode| + 2, -1)
  }

  function HubtelInitiationText(a: HubtelArgs): string
  {
    ParseInitiationText(a.serviceCode, a.message)
  }

  /** Nalo reads the text and the service code from the same field. */
  function NaloInitiationText(a: NaloArgs): string
  {
    ParseInitiationText(a.userData, a.userData)
  }

  /** Arkesel reads the text and the service code from the same field. */
  function ArkeselInitiationText(a: ArkeselArgs): string
  {
    ParseInitiationText(a.userData, a.userData)
  }

  function SouthPawslInitiationText(a: SouthPawslArgs): string
  {
    ParseInitiationText(a.ussdString, a.inputOption)
  }

  /** Dialling the bare code starts at the root of the menu. */
  lemma BareCodeParsesEmpty(code: string)
    ensures ParseInitiationText(code, "*" + code + "#") == ""
  {
  }

  /** Dialling `*<code>*<route>#` starts at `route`. */
  lemma InitiationRoundTrip(code: string, route: string)
    ensures ParseInitiationText(code, "*" + code + "*" + route + "#") == route
  {
    var text := "*" + code + "*" + route + "#";
    assert |text| == |code| + |route| + 3;
    assert text != "*" + code + "#";
    assert text[|code| + 2..|text| - 1] == route;
  }

  /** Parsing a string against itself as service code always gives the root route. */
  lemma SameFieldParsesEmpty(s: string)
    ensures ParseInitiationText(s, s) == ""
  {
    assert s != "*" + s + "#";
  }

  lemma NaloInitiationIsEmpty(a: NaloArgs)
    ensures NaloInitiationText(a) == ""
  {
    SameFieldParsesEmpty(a.userData);
  }

  lemma ArkeselInitiationIsEmpty(a: ArkeselArgs)
    ensures ArkeselInitiationText(a) == ""
  {
    SameFieldParsesEmpty(a.userData);
  }

  /** The request opens a new session, by each gateway's own flag. */
  predicate IsInitiation(args: RequestArgs)
  {
    match args
    case Hubtel(a) => Lower(a.kind) == "initiation"
    case Nalo(a) => a.msgType
    case Arkesel(a) => a.newSession
    case SouthPawsl(a) => a.ussdString == a.inputOption
    case Beem(a) => Lower(a.command) == "initiate"
    case Plain(_) => false
  }

  /** The route a new session starts at. */
  function InitialRoute(args: RequestArgs): string
  {
    match args
    case Hubtel(a) => HubtelInitiationText(a)
    case Nalo(a) => NaloInitiationText(a)
    case Arkesel(a) => ArkeselInitiationText(a)
    case SouthPawsl(_) => ""
    case Beem(_) => ""
    case Plain(g) => g.text
  }

  /** What the user typed in a continuing session. */
  function Input(args: RequestArgs): string
  {
    match args
    case Hubtel(a) => a.message
    case Nalo(a) => a.userData
    case Arkesel(a) => a.userData
    case SouthPawsl(a) => a.inputOption
    case Beem(a) => a.response
    case Plain(g) => g.text
  }

  /** The subscriber's number as the gateway sends it. */
  function Msisdn(args: RequestArgs): string
  {
    match args
    case Hubtel(a) => a.mobile
    case Nalo(a) => a.msisdn
    case Arkesel(a) => a.msisdn
    case SouthPawsl(a) => a.msisdn
    case Beem(a) => a.msisdn
    case Plain(g) => g.phoneNumber
  }

  function MapHubtelArgs(a: HubtelArgs): GatewayArgs
  {
    GatewayArgs(if Lower(a.kind) == "initiation" then HubtelInitiationText(a) else a.message,
                "+" + a.mobile, a.sessionId, a.serviceCode)
  }

  function MapNaloArgs(a: NaloArgs): GatewayArgs
  {
    GatewayArgs(if a.msgType then NaloInitiationText(a) else a.userData,
                "+" + a.msisdn, a.msisdn, if a.msgType then a.userData else "")
  }

  function MapArkeselArgs(a: ArkeselArgs): GatewayArgs
  {
    GatewayArgs(if a.newSession then "" else a.userData, "+" + a.msisdn, a.sessionId, "")
  }

  function MapSouthPawslArgs(a: SouthPawslArgs): GatewayArgs
  {
    GatewayArgs(if a.ussdString == a.inputOption then "" else a.inputOption,
                "+" + a.msisdn, a.sessionId, a.ussdString)
  }

  function MapBeemArgs(a: BeemArgs): GatewayArgs
  {
    GatewayArgs(if Lower(a.command) == "initiate" then "" else a.response,
                "+" + a.msisdn, a.sessionId, a.serviceCode)
  }

  /**
   * `mapArgsForProvider`: the common arguments of a request. Every gateway's number gets a
   * `+`; the text is the route a new session starts at, or the input of a continuing one;
   * an unknown provider's arguments pass through unchanged.
   */
  function MapArgs(provider: string, args: RequestArgs): (g: GatewayArgs)
    requires Fits(provider, args)
    ensures FamilyOf(provider) == DefaultFamily ==> g == args.plain
    ensures FamilyOf(provider) != DefaultFamily ==>
              g.phoneNumber == "+" + Msisdn(args)
              && g.text == if IsInitiation(args) then InitialRoute(args) else Input(args)
  {
    match args
    case Hubtel(a) => MapHubtelArgs(a)
    case Nalo(a) => MapNaloArgs(a)
    case Arkesel(a) => ArkeselInitiationIsEmpty(a); MapArkeselArgs(a)
    case SouthPawsl(a) => MapSouthPawslArgs(a)
    case Beem(a) => MapBeemArgs(a)
    case Plain(g) => g
  }

  const RouteKey := "route"

  /** A continuing session's route: the stored route, a `*` and the input, or the input alone. */
  function NextRoute(past: Option<string>, input: string): string
  {
    if Truthy(past) then past.value + "*" + input else input
  }

  /**
   * `getRouteForProvider`: a new session starts at its initial route, regardless of what was
   * stored; a continuing one extends the stored route; an unknown provider's route is the text.
   */
  function RouteFor(args: RequestArgs, past: Option<string>): string
  {
    if args.Plain? then args.plain.text
    else if IsInitiation(args) then InitialRoute(args)
    else NextRoute(past, Input(args))
  }

  /** The route stored once a session, whose stored route is `past`, has taken `inputs` one request at a time. */
  function Accumulated(past: string, inputs: seq<string>): string
    decreases |inputs|
  {
    if |inputs| == 0 then past else Accumulated(NextRoute(Some(past), inputs[0]), inputs[1..])
  }

  lemma JoinCons(a: string, t: seq<string>, sep: string)
    requires |t| > 0
    ensures Join([a] + t, sep) == a + sep + Join(t, sep)
  {
    assert ([a] + t)[1..] == t;
  }

  /**
   * Continuing requests with non-empty inputs build the route `start*input1*...*inputN` on
   * the route `start` an initiation stored; after an empty start the first input begins it.
   */
  lemma AccumulatedJoins(start: string, inputs: seq<string>)
    requires forall i :: 0 <= i < |inputs| ==> inputs[i] != ""
    ensures start != "" ==> Accumulated(start, inputs) == Join([start] + inputs, "*")
    ensures start == "" && |inputs| > 0 ==> Accumulated(start, inputs) == Join(inputs, "*")
  {
    if start != "" {
      AccumulatedJoinsFrom(start, inputs);
    } else if |inputs| > 0 {
      assert NextRoute(Some(start), inputs[0]) == inputs[0];
      AccumulatedJoinsFrom(inputs[0], inputs[1..]);
      assert [inputs[0]] + inputs[1..] == inputs;
    }
  }

  lemma {:induction false} AccumulatedJoinsFrom(start: string, inputs: seq<string>)
    requires start != "" && forall i :: 0 <= i < |inputs| ==> inputs[i] != ""
    ensures Accumulated(start, inputs) == Join([start] + inputs, "*")
    decreases |inputs|
  {
    if |inputs| > 0 {
      var x, rest := inputs[0], inputs[1..];
      assert NextRoute(Some(start), x) == start + "*" + x;
      AccumulatedJoinsFrom(start + "*" + x, rest);
      JoinStep(start, x, rest);
      assert inputs == [x] + rest;
    } else {
      assert [start] + inputs == [start];
    }
  }

  /** Joining after gluing the first two parts with the separator is joining them all. */
  lemma JoinStep(start: string, x: string, rest: seq<string>)
    ensures Join([start + "*" + x] + rest, "*") == Join([start] + ([x] + rest), "*")
  {
    JoinCons(start, [x] + rest, "*");
    if |rest| == 0 {
      assert [x] + rest == [x];
      assert [start + "*" + x] + rest == [start + "*" + x];
    } else {
      JoinCons(x, rest, "*");
      JoinCons(start + "*" + x, rest, "*");
    }
  }

  const NoSessionSet := "TypeError: Cannot read properties of undefined (reading 'set')"
  const NoSessionGet := "TypeError: Cannot read properties of undefined (reading 'get')"

  /**
   * The route of a request. Every gateway but the default one writes the route it returns
   * under `route` in the session, and needs a session to do so.
   */
  method GetRoute(provider: string, args: RequestArgs, session: Sessions.Store?<string>) returns (r: Result<string>)
    requires Fits(provider, args)
    modifies session
    ensures args.Plain? ==> r == Ok(args.plain.text) && (session != null ==> session.data == old(session.data))
    ensures !args.Plain? && session == null ==> r == Err(if IsInitiation(args) then NoSessionSet else NoSessionGet)
    ensures !args.Plain? && session != null ==>
              r == Ok(RouteFor(args, old(session.Lookup(RouteKey))))
              && session.data == old(session.data)[RouteKey := r.value]
    ensures session != null ==> session.ended == old(session.ended)
  {
    if args.Plain? {
      return Ok(args.plain.text);
    }
    if session == null {
      return Err(if IsInitiation(args) then NoSessionSet else NoSessionGet);
    }
    var route;
    if IsInitiation(args) {
      route := InitialRoute(args);
    } else {
      var past := session.Get(RouteKey);
      route := NextRoute(past, Input(args));
    }
    session.Set(RouteKey, route);
    r := Ok(route);
  }

  datatype Kind = Con | End

  /** A reply as each gateway expects it. */
  datatype Formatted =
    | Text(text: string)
    | HubtelReply(message: string, replyType: string)
    | NaloReply(msg: string, msgType: bool, userId: string, msisdn: string)
    | ArkeselReply(message: string, continueSession: bool, userId: string, msisdn: string, sessionId: string)
    | SouthPawslReply(message: string, state: string, menuId: string, ussdString: string, option: string)
    | BeemReply(msisdn: string, operator: string, sessionId: string, command: string, requestId: string, request: string)

  function KindName(kind: Kind): string
  {
    if kind == Con then "con" else "end"
  }

  /** The arguments a reply echoes: `args?.<field> || ''` reads every field of missing arguments as ''. */
  function Echoed(args: Option<GatewayArgs>): GatewayArgs
  {
    if args.Some? then args.value else GatewayArgs("", "", "", "")
  }

  /** Whether a formatted reply keeps the session open, by the gateway's own flag. */
  predicate Continues(r: Formatted)
  {
    match r
    case Text(t) => |t| >= 4 && t[..4] == "CON "
    case HubtelReply(_, t) => t == "Response"
    case NaloReply(_, flag, _, _) => flag
    case ArkeselReply(_, flag, _, _, _) => flag
    case SouthPawslReply(_, state, _, _, _) => state == "CONTINUE"
    case BeemReply(_, _, _, command, _, _) => command == "continue"
  }

  /** The screen text a formatted reply carries. */
  function Shown(r: Formatted): string
  {
    match r
    case Text(t) => if |t| >= 4 then t[4..] else t
    case HubtelReply(m, _) => m
    case NaloReply(m, _, _, _) => m
    case ArkeselReply(m, _, _, _, _) => m
    case SouthPawslReply(m, _, _, _, _) => m
    case BeemReply(_, _, _, _, _, m) => m
  }

  /** `formatResultForProvider`. */
  function FormatResult(provider: string, text: string, kind: Kind, args: Option<GatewayArgs>): (r: Formatted)
    ensures Continues(r) <==> kind == Con
    ensures Shown(r) == text
    ensures FamilyOf(provider) == DefaultFamily ==> r == Text((if kind == Con then "CON " else "END ") + text)
  {
    var e := Echoed(args);
    match FamilyOf(provider)
    case HubtelFamily => HubtelReply(text, if kind == Con then "Response" else "Release")
    case NaloFamily => NaloReply(text, kind == Con, e.sessionId, e.phoneNumber)
    case ArkeselFamily =>
      ArkeselReply(text, kind == Con, e.sessionId, e.phoneNumber, e.sessionId)
    case SouthPawslFamily =>
      SouthPawslReply(text, if kind == Con then "CONTINUE" else "END",
                      e.sessionId, e.serviceCode, e.text)
    case BeemFamily =>
      BeemReply(e.phoneNumber, "", e.sessionId,
                if kind == Con then "continue" else "terminate", "", text)
    case DefaultFamily =>
      var t := Upper(KindName(kind)) + " " + text;
      assert Upper(KindName(kind)) == if kind == Con then "CON" else "END";
      assert t[..4] == if kind == Con then "CON " else "END ";
      assert t[4..] == text;
      Text(t)
  }
}
