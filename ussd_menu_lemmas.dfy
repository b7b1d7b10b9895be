/** How routes resolve: continuing a session continues the walk, and the menu stays put by default. */
module UssdMenuLemmas {
  import opened Wrappers
  import opened Text
  import opened Records
  import opened Providers
  import opened UssdMenus

  /** Walking two routes one after the other is walking their concatenation. */
  lemma {:induction false} WalkAppend(states: map<string, UssdState>, at: string, val: string, first: seq<string>, second: seq<string>, regex: Regex)
    requires at in states
    ensures var w := WalkFrom(states, at, val, first, regex);
            WalkFrom(states, at, val, first + second, regex)
            == if w.outcome.Err? then w else WalkFrom(w.states, w.outcome.value.value, w.val, second, regex)
    decreases |first|
  {
    if |first| == 0 {
      assert first + second == second;
    } else {
      assert (first + second)[0] == first[0] && (first + second)[1..] == first[1..] + second;
      match Move(states, at, first[0], regex)
      case Err(_) =>
      case Ok(moved) => WalkAppend(moved.0, moved.1, first[0], first[1..], second, regex);
    }
  }

  /** The accumulated route `past*input` has the parts of `past` followed by those of the input. */
  lemma AccumulatedParts(past: string, input: string)
    requires past != ""
    ensures RouteParts(NextRoute(Some(past), input)) == RouteParts(past) + Split(input, '*')
  {
    SplitAppend(past, input, '*');
    assert past + "*" + input == past + ['*'] + input;
  }

  /** The parts walked for an extended route are those of the stored route, then those of the input. */
  lemma StartPartsExtend(start: UssdState, past: string, input: string)
    requires past != ""
    ensures StartParts(start, NextRoute(Some(past), input)) == StartParts(start, past) + Split(input, '*')
  {
    AccumulatedParts(past, input);
    PrefixThenAppend(if "" in Keys(Links(start)) then [""] else [],
                     RouteParts(NextRoute(Some(past), input)), RouteParts(past), Split(input, '*'));
  }

  lemma PrefixThenAppend<T>(pre: seq<T>, whole: seq<T>, a: seq<T>, b: seq<T>)
    requires whole == a + b
    ensures pre + whole == (pre + a) + b
  {
  }

  /**
   * A continuing session resolves the stored route extended by the input: the walk goes on
   * from the state the stored route reached, over the parts of the input.
   */
  lemma ContinuedRoute(states: map<string, UssdState>, val: string, past: string, input: string, regex: Regex)
    requires StartState in states && states[StartState].next.Some? && |states[StartState].next.value| > 0
    requires past != ""
    ensures var w := Resolve(states, val, past, regex);
            Resolve(states, val, NextRoute(Some(past), input), regex)
            == if w.outcome.Err? then w else WalkFrom(w.states, w.outcome.value.value, w.val, Split(input, '*'), regex)
  {
    var start := states[StartState];
    var route := NextRoute(Some(past), input);
    StartPartsExtend(start, past, input);
    assert Resolve(states, val, route, regex) == WalkFrom(states, StartState, val, StartParts(start, route), regex);
    assert Resolve(states, val, past, regex) == WalkFrom(states, StartState, val, StartParts(start, past), regex);
    WalkAppend(states, StartState, val, StartParts(start, past), Split(input, '*'), regex);
  }

  /** A start state without links resolves the same way whatever the route. */
  lemma NoLinksIgnoresRoute(states: map<string, UssdState>, val: string, route: string, other: string, regex: Regex)
    requires StartState in states && (states[StartState].next.None? || |states[StartState].next.value| == 0)
    ensures Resolve(states, val, route, regex) == Resolve(states, val, other, regex)
    ensures var d := states[StartState].defaultNext;
            Resolve(states, val, route, regex) == Walk(states, val, Ok(if d in states then Some(d) else None))
  {
  }

  /**
   * A state registered without `defaultNext` stays where it is when none of its links takes
   * the input, and records the input as its `val`. (A state named '' has a falsy default and
   * does not record the input.)
   */
  lemma StaysPutByDefault(states: map<string, UssdState>, at: string, part: string, regex: Regex)
    requires at in states && at != "" && states[at].defaultNext == at
    requires forall e :: e in Links(states[at]) ==> !Moves(e, part, regex)
    ensures Move(states, at, part, regex) == Ok((Visit(states, at, part), at))
  {
    var entries := Entries(Links(states[at]));
    assert forall i :: 0 <= i < |entries| ==> entries[i] in Links(states[at]);
    assert FirstMove(entries, part, regex).None?;
  }

  /** A `*` link to a named state takes every input. */
  lemma StarLinkTakesAll(links: Record<Target>, target: string, part: string, regex: Regex)
    requires target != "" && ("*", Path(target)) in links
    ensures FirstMove(Entries(links), part, regex).Some?
  {
    var entries := Entries(links);
    var i :| 0 <= i < |entries| && entries[i] == ("*", Path(target));
    assert Moves(entries[i], part, regex);
  }
}
