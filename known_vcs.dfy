/**
 * Choosing the credentials that satisfy a presentation definition, for a runtime without
 * the credential library: every descriptor's filtered fields must hold exactly the filter's
 * constant. Decoding a JWT and reading a path inside it are parameters of the model.
 */
module KnownVcs {
  import opened Wrappers
  import opened Text
  import opened Records
  import Seqs

  /** A JSON value as strict equality sees it: primitives by value, objects never equal to one read elsewhere. */
  datatype Value = Undefined | Null | Bool(b: bool) | Num(n: int) | Str(s: string) | Composite

  predicate StrictEquals(a: Value, b: Value)
  {
    !a.Composite? && !b.Composite? && a == b
  }

  /** A constraint field: its paths and, optionally, a filter object (its keys in source order). */
  datatype ConstraintField = ConstraintField(path: seq<string>, filter: Option<Record<Value>>)

  /** An input descriptor: `constraints.fields` when present. */
  datatype Descriptor = Descriptor(fields: Option<seq<ConstraintField>>)

  /** The value at a dotted path of a decoded JWT. */
  type ValueAt = (string, string) -> Value

  const OnlyConst := "Only const filter type is supported"
  const NoPath := "TypeError: Cannot read properties of undefined (reading 'replace')"

  /** The filter's kind: its first key other than `type`, or nothing. */
  function FilterKind(filter: Record<Value>): (k: Option<string>)
    ensures k.Some? ==> k.value != "type" && k.value in Keys(Entries(filter))
    ensures k.None? <==> forall key :: key in Keys(Entries(filter)) ==> key == "type"
    ensures var ks := Keys(Entries(filter));
            k.Some? ==> exists i :: 0 <= i < |ks| && ks[i] == k.value && forall j :: 0 <= j < i ==> ks[j] == "type"
  {
    var ks := Keys(Entries(filter));
    var notType := (key: string) => key != "type";
    var others := Seqs.Filter(ks, notType);
    if |others| == 0 then None
    else
      assert others[0] in others;
      Seqs.FilterHead(ks, notType);
      Some(others[0])
  }

  /** The lookup path of a field: its first path with every `$.` removed. */
  function LookupPath(field: ConstraintField): string
    requires |field.path| > 0
  {
    RemoveAll(field.path[0], "$.")
  }

  /**
   * One field: the value is read first (an empty path list throws), then a filter whose
   * kind is not `const` throws, and a `const` filter passes only a strictly equal value.
   */
  function FieldPasses(jwt: string, field: ConstraintField, valueAt: ValueAt): (r: Result<bool>)
    ensures r.Ok? ==> |field.path| > 0
    ensures field.filter.None? ==> r == if |field.path| > 0 then Ok(true) else Err(NoPath)
    ensures r == Ok(false) ==> field.filter.Some? && FilterKind(field.filter.value) == Some("const")
    ensures |field.path| > 0 && field.filter.Some? && FilterKind(field.filter.value) != Some("const") ==> r == Err(OnlyConst)
  {
    if |field.path| == 0 then Err(NoPath)
    else
      var value := valueAt(jwt, LookupPath(field));
      match field.filter
      case None => Ok(true)
      case Some(filter) =>
        if FilterKind(filter) != Some("const") then Err(OnlyConst)
        else
          var expected := Get(filter, "const");
          Ok(expected.Some? && StrictEquals(value, expected.value))
  }

  /** A field's condition holds: a filter whose kind is `const` with a strictly equal value, or no filter. */
  ghost predicate Holds(jwt: string, field: ConstraintField, valueAt: ValueAt)
  {
    FieldPasses(jwt, field, valueAt) == Ok(true)
  }

  /** The fields in order, stopping at the first that fails or throws. */
  function FieldsPass(jwt: string, fields: seq<ConstraintField>, valueAt: ValueAt): (r: Result<bool>)
    ensures r == Ok(true) <==> forall i :: 0 <= i < |fields| ==> Holds(jwt, fields[i], valueAt)
    decreases |fields|
  {
    if |fields| == 0 then Ok(true)
    else
      var first := FieldPasses(jwt, fields[0], valueAt);
      var rest := FieldsPass(jwt, fields[1..], valueAt);
      assert forall i :: 1 <= i < |fields| ==> fields[i] == fields[1..][i - 1];
      if first != Ok(true) then first else rest
  }

  /** The descriptors in order; one without `constraints.fields` imposes nothing. */
  function DescriptorPasses(jwt: string, descriptor: Descriptor, valueAt: ValueAt): Result<bool>
  {
    if descriptor.fields.Some? then FieldsPass(jwt, descriptor.fields.value, valueAt) else Ok(true)
  }

  function DescriptorsPass(jwt: string, descriptors: seq<Descriptor>, valueAt: ValueAt): (r: Result<bool>)
    ensures |descriptors| == 0 ==> r == Ok(true)
    decreases |descriptors|
  {
    if |descriptors| == 0 then Ok(true)
    else
      var first := DescriptorPasses(jwt, descriptors[0], valueAt);
      if first != Ok(true) then first else DescriptorsPass(jwt, descriptors[1..], valueAt)
  }

  /** A JWT passes the descriptors exactly when every descriptor with fields has all of them holding. */
  lemma {:induction false} DescriptorsPassIff(jwt: string, descriptors: seq<Descriptor>, valueAt: ValueAt)
    ensures DescriptorsPass(jwt, descriptors, valueAt) == Ok(true)
            <==> forall i :: 0 <= i < |descriptors| ==> DescriptorPasses(jwt, descriptors[i], valueAt) == Ok(true)
    decreases |descriptors|
  {
    if |descriptors| > 0 {
      DescriptorsPassIff(jwt, descriptors[1..], valueAt);
      assert forall i :: 1 <= i < |descriptors| ==> descriptors[i] == descriptors[1..][i - 1];
    }
  }

  function Kept(descriptors: seq<Descriptor>, valueAt: ValueAt): string -> bool
  {
    jwt => DescriptorsPass(jwt, descriptors, valueAt) == Ok(true)
  }

  /** The outcome of checking one JWT against every descriptor. */
  function Check(descriptors: seq<Descriptor>, valueAt: ValueAt): string -> Result<bool>
  {
    jwt => DescriptorsPass(jwt, descriptors, valueAt)
  }

  /** The JWTs whose check passes, in input order; the first check that throws ends the selection. */
  function SelectBy(jwts: seq<string>, check: string -> Result<bool>): Result<seq<string>>
    decreases |jwts|
  {
    if |jwts| == 0 then Ok([])
    else
      var n := |jwts| - 1;
      match SelectBy(jwts[..n], check)
      case Err(e) => Err(e)
      case Ok(selected) =>
        match check(jwts[n])
        case Err(e) => Err(e)
        case Ok(pass) => Ok(selected + if pass then [jwts[n]] else [])
  }

  /** `workerCompatiblePexSelect` as a value. */
  function Select(jwts: seq<string>, descriptors: seq<Descriptor>, valueAt: ValueAt): Result<seq<string>>
  {
    SelectBy(jwts, Check(descriptors, valueAt))
  }

  /**
   * The selection succeeds exactly when no JWT makes a check throw, and then it is the
   * subsequence of JWTs meeting every constraint.
   */
  lemma SelectKeepsPassing(jwts: seq<string>, descriptors: seq<Descriptor>, valueAt: ValueAt)
    ensures Select(jwts, descriptors, valueAt).Ok? <==> forall i :: 0 <= i < |jwts| ==> DescriptorsPass(jwts[i], descriptors, valueAt).Ok?
    ensures Select(jwts, descriptors, valueAt).Ok? ==> Select(jwts, descriptors, valueAt).value == Seqs.Filter(jwts, Kept(descriptors, valueAt))
  {
    SelectByOkIff(jwts, Check(descriptors, valueAt));
    SelectByKeeps(jwts, Check(descriptors, valueAt), Kept(descriptors, valueAt));
  }

  lemma {:induction false} SelectByOkIff(jwts: seq<string>, check: string -> Result<bool>)
    ensures SelectBy(jwts, check).Ok? <==> forall i :: 0 <= i < |jwts| ==> check(jwts[i]).Ok?
    decreases |jwts|
  {
    if |jwts| > 0 {
      var n := |jwts| - 1;
      SelectByOkIff(jwts[..n], check);
      assert forall i :: 0 <= i < n ==> jwts[..n][i] == jwts[i];
    }
  }

  lemma {:induction false} SelectByKeeps(jwts: seq<string>, check: string -> Result<bool>, kept: string -> bool)
    requires forall jwt :: kept(jwt) <==> check(jwt) == Ok(true)
    ensures SelectBy(jwts, check).Ok? ==> SelectBy(jwts, check).value == Seqs.Filter(jwts, kept)
    decreases |jwts|
  {
    if |jwts| > 0 {
      var n := |jwts| - 1;
      var prefix, last := jwts[..n], jwts[n];
      SelectByKeeps(prefix, check, kept);
      assert jwts == prefix + [last];
      Seqs.FilterAppend(prefix, [last], kept);
      assert Seqs.Filter([last], kept) == if kept(last) then [last] else [];
    }
  }

  /** Without descriptors every JWT is kept. */
  lemma {:induction false} NoDescriptorsKeepAll(jwts: seq<string>, valueAt: ValueAt)
    ensures Select(jwts, [], valueAt) == Ok(jwts)
    decreases |jwts|
  {
    if |jwts| > 0 {
      var n := |jwts| - 1;
      NoDescriptorsKeepAll(jwts[..n], valueAt);
      assert jwts == jwts[..n] + [jwts[n]];
    }
  }

  /**
   * A kept JWT holds, at the first path of every filtered field of every descriptor, a value
   * strictly equal to that filter's constant; and a JWT for which this holds (with every field
   * having a path and every filter being a `const` filter) is kept.
   */
  lemma KeptIffConstantsMatch(jwt: string, descriptors: seq<Descriptor>, valueAt: ValueAt)
    ensures Kept(descriptors, valueAt)(jwt)
            <==> forall d, f :: 0 <= d < |descriptors| && descriptors[d].fields.Some? && 0 <= f < |descriptors[d].fields.value| ==>
                   var field := descriptors[d].fields.value[f];
                   |field.path| > 0
                   && (field.filter.Some? ==>
                         FilterKind(field.filter.value) == Some("const")
                         && Get(field.filter.value, "const").Some?
                         && StrictEquals(valueAt(jwt, LookupPath(field)), Get(field.filter.value, "const").value))
  {
    DescriptorsPassIff(jwt, descriptors, valueAt);
  }

  /** After the first mismatch the remaining fields are not examined, so a bad filter later on does not throw. */
  lemma {:induction false} MismatchStopsFields(jwt: string, before: seq<ConstraintField>, after: seq<ConstraintField>, valueAt: ValueAt)
    requires FieldsPass(jwt, before, valueAt) == Ok(false)
    ensures FieldsPass(jwt, before + after, valueAt) == Ok(false)
    decreases |before|
  {
    assert |before| > 0;
    FieldsPassCons(jwt, before, after, valueAt);
    if FieldPasses(jwt, before[0], valueAt) == Ok(true) {
      MismatchStopsFields(jwt, before[1..], after, valueAt);
    }
  }

  /** The field loop over a concatenation starts with the first field of the first part. */
  lemma FieldsPassCons(jwt: string, before: seq<ConstraintField>, after: seq<ConstraintField>, valueAt: ValueAt)
    requires |before| > 0
    ensures var first := FieldPasses(jwt, before[0], valueAt);
            FieldsPass(jwt, before + after, valueAt) == if first != Ok(true) then first else FieldsPass(jwt, before[1..] + after, valueAt)
  {
    assert (before + after)[0] == before[0] && (before + after)[1..] == before[1..] + after;
  }

  /** Likewise for the descriptors: once one fails, the later ones are not examined. */
  lemma {:induction false} MismatchStopsDescriptors(jwt: string, before: seq<Descriptor>, after: seq<Descriptor>, valueAt: ValueAt)
    requires DescriptorsPass(jwt, before, valueAt) == Ok(false)
    ensures DescriptorsPass(jwt, before + after, valueAt) == Ok(false)
    decreases |before|
  {
    assert |before| > 0;
    assert (before + after)[0] == before[0] && (before + after)[1..] == before[1..] + after;
    if DescriptorPasses(jwt, before[0], valueAt) == Ok(true) {
      MismatchStopsDescriptors(jwt, before[1..], after, valueAt);
    }
  }

  /** The loop over one descriptor's fields, with the `matchesAllConstraints` flag and its break. */
  method MatchFields(jwt: string, fields: seq<ConstraintField>, valueAt: ValueAt) returns (r: Result<bool>)
    ensures r == FieldsPass(jwt, fields, valueAt)
  {
    var i := 0;
    while i < |fields|
      invariant 0 <= i <= |fields|
      invariant FieldsPass(jwt, fields, valueAt) == FieldsPass(jwt, fields[i..], valueAt)
    {
      assert fields[i..][0] == fields[i] && fields[i..][1..] == fields[i + 1..];
      var field := fields[i];
      if |field.path| == 0 {
        return Err(NoPath);
      }
      var value := valueAt(jwt, LookupPath(field));
      if field.filter.Some? {
        if FilterKind(field.filter.value) != Some("const") {
          return Err(OnlyConst);
        }
        var expected := Get(field.filter.value, "const");
        if !(expected.Some? && StrictEquals(value, expected.value)) {
          return Ok(false);
        }
      }
      i := i + 1;
    }
    return Ok(true);
  }

  method MatchDescriptors(jwt: string, descriptors: seq<Descriptor>, valueAt: ValueAt) returns (r: Result<bool>)
    ensures r == DescriptorsPass(jwt, descriptors, valueAt)
  {
    var i := 0;
    while i < |descriptors|
      invariant 0 <= i <= |descriptors|
      invariant DescriptorsPass(jwt, descriptors, valueAt) == DescriptorsPass(jwt, descriptors[i..], valueAt)
    {
      assert descriptors[i..][0] == descriptors[i] && descriptors[i..][1..] == descriptors[i + 1..];
      if descriptors[i].fields.Some? {
        var m := MatchFields(jwt, descriptors[i].fields.value, valueAt);
        if m != Ok(true) {
          return m;
        }
      }
      assert DescriptorPasses(jwt, descriptors[i], valueAt) == Ok(true);
      i := i + 1;
    }
    return Ok(true);
  }

  /** `workerCompatiblePexSelect`: pushes each JWT whose flag survives every descriptor. */
  method PexSelect(jwts: seq<string>, descriptors: seq<Descriptor>, valueAt: ValueAt) returns (r: Result<seq<string>>)
    ensures r == Select(jwts, descriptors, valueAt)
  {
    var selected := [];
    var i := 0;
    while i < |jwts|
      invariant 0 <= i <= |jwts|
      invariant Select(jwts[..i], descriptors, valueAt) == Ok(selected)
    {
      var m := MatchDescriptors(jwts[i], descriptors, valueAt);
      SelectStep(jwts, i, descriptors, valueAt, selected);
      if m.Err? {
        SelectStaysFailed(jwts, i + 1, descriptors, valueAt);
        return Err(m.message);
      }
      if m.value {
        selected := selected + [jwts[i]];
      }
      i := i + 1;
    }
    assert jwts[..i] == jwts;
    return Ok(selected);
  }

  /** The selection of one more JWT in terms of the selection before it. */
  lemma SelectStep(jwts: seq<string>, i: nat, descriptors: seq<Descriptor>, valueAt: ValueAt, selected: seq<string>)
    requires i < |jwts| && Select(jwts[..i], descriptors, valueAt) == Ok(selected)
    ensures DescriptorsPass(jwts[i], descriptors, valueAt).Err? ==> Select(jwts[..i + 1], descriptors, valueAt) == Err(DescriptorsPass(jwts[i], descriptors, valueAt).message)
    ensures DescriptorsPass(jwts[i], descriptors, valueAt) == Ok(true) ==> Select(jwts[..i + 1], descriptors, valueAt) == Ok(selected + [jwts[i]])
    ensures DescriptorsPass(jwts[i], descriptors, valueAt) == Ok(false) ==> Select(jwts[..i + 1], descriptors, valueAt) == Ok(selected)
  {
    assert jwts[..i + 1][..i] == jwts[..i];
    assert jwts[..i + 1][i] == jwts[i];
    assert selected + [] == selected;
  }

  /** Once a prefix fails, the whole selection fails with the same error. */
  lemma {:induction false} SelectStaysFailed(jwts: seq<string>, k: nat, descriptors: seq<Descriptor>, valueAt: ValueAt)
    requires k <= |jwts| && Select(jwts[..k], descriptors, valueAt).Err?
    ensures Select(jwts, descriptors, valueAt) == Select(jwts[..k], descriptors, valueAt)
    decreases |jwts| - k
  {
    if k < |jwts| {
      assert jwts[..k + 1][..k] == jwts[..k];
      SelectStaysFailed(jwts, k + 1, descriptors, valueAt);
    } else {
      assert jwts[..k] == jwts;
    }
  }
}
