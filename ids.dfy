/** Short, upper-case forms of transaction ids for SMS and USSD texts. */
module Ids {
  import opened Text

  /**
   * `makeIDHumanReadable`: the first character followed by the last four, upper-cased. An
   * empty id has no first character, and the template prints `undefined` in its place.
   */
  function HumanReadableId(id: string): (r: string)
    ensures HasNoLowerAscii(r) && Upper(r) == r
    ensures |id| >= 4 ==> |r| == 5 && r == Upper([id[0]] + id[|id| - 4..])
  {
    var head := if |id| == 0 then "undefined" else [id[0]];
    UpperIsIdempotent(head + JsSlice(id, |id| - 4, |id|));
    Upper(head + JsSlice(id, |id| - 4, |id|))
  }

  /**
   * For a short id the start `length - 4` is negative, so `slice` counts it back from the end
   * once more: it starts at `2 * length - 4`, clamped to zero. An id of one or two characters
   * is kept whole after its first character; one of three keeps only its last.
   */
  lemma ShortId(id: string)
    requires 0 < |id| < 4
    ensures HumanReadableId(id) == Upper([id[0]] + id[if |id| >= 2 then 2 * |id| - 4 else 0..])
    ensures |id| <= 2 ==> |HumanReadableId(id)| == |id| + 1
    ensures |id| == 3 ==> HumanReadableId(id) == Upper([id[0], id[2]])
  {
    var n := |id|;
    assert SliceIndex(n, n) == n;
    assert SliceIndex(n, n - 4) == if n >= 2 then 2 * n - 4 else 0;
    if n <= 2 {
      assert id[0..] == id;
    } else {
      assert id[2..] == [id[2]];
    }
  }

  lemma EmptyId()
    ensures HumanReadableId("") == "UNDEFINED"
  {
  }

  /** Ids that agree on their first and last four characters, up to case, look the same. */
  lemma SameEndsSameId(a: string, b: string)
    requires |a| >= 4 && |b| >= 4
    requires UpperChar(a[0]) == UpperChar(b[0])
    requires Upper(a[|a| - 4..]) == Upper(b[|b| - 4..])
    ensures HumanReadableId(a) == HumanReadableId(b)
  {
    UpperDistributes([a[0]], a[|a| - 4..]);
    UpperDistributes([b[0]], b[|b| - 4..]);
  }
}
