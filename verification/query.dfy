/** The filter `highlightAndCalculate` sends with the aggregation query:
    `turbine_id in (id1,id2,...)`, the picked ids in pick order. */
module Query {
  import opened Text

  /** A turbine's `turbine_id` attribute. */
  type Id = nat

  const WherePrefix := "turbine_id in ("

  /** The ids printed in decimal, as `Array.prototype.join` prints numbers. */
  function Decimals(ids: seq<Id>): (r: seq<string>)
    ensures |r| == |ids|
    ensures forall k :: 0 <= k < |r| ==> r[k] == NatToDecimal(ids[k])
  {
    seq(|ids|, k requires 0 <= k < |ids| => NatToDecimal(ids[k]))
  }

  /** The `where` clause for the picked ids. Read back, it names exactly the
      ids, in pick order and with repeats; the clause for no ids names none. */
  function WhereClause(ids: seq<Id>): (clause: string)
    ensures |ids| > 0 ==> ParseWhere(clause) == Some(ids)
    ensures |ids| == 0 ==> clause == WherePrefix + ")" && ParseWhere(clause) == None
  {
    assert |ids| > 0 ==> ParseWhere(WherePrefix + Join(Decimals(ids), ',') + ")") == Some(ids) by {
      if |ids| > 0 {
        WhereRoundTrip(ids);
      }
    }
    assert |ids| == 0 ==> ParseWhere(WherePrefix + ")") == None by {
      assert (WherePrefix + ")")[|WherePrefix|..|WherePrefix| + 1 - 1] == "";
    }
    WherePrefix + Join(Decimals(ids), ',') + ")"
  }

  /** Reads a list of decimal ids, rejecting an empty or non-numeric piece. */
  function ParseIds(parts: seq<string>): (r: Option<seq<Id>>)
    ensures r.Some? ==> |r.value| == |parts|
  {
    if |parts| == 0 then Some([])
    else if |parts[0]| == 0 || !AllDigits(parts[0]) then None
    else
      match ParseIds(parts[1..])
      case None => None
      case Some(rest) => Some([ParseDecimal(parts[0])] + rest)
  }

  /** How the feature service reads the clause back: the text between the
      parentheses, split on commas, each piece a decimal id. */
  function ParseWhere(clause: string): Option<seq<Id>> {
    if |clause| < |WherePrefix| + 1 || clause[..|WherePrefix|] != WherePrefix || clause[|clause| - 1] != ')' then None
    else ParseIds(Split(clause[|WherePrefix|..|clause| - 1], ','))
  }

  lemma {:induction false} ParseDecimals(ids: seq<Id>)
    ensures ParseIds(Decimals(ids)) == Some(ids)
    decreases |ids|
  {
    if |ids| > 0 {
      ParseDecimals(ids[1..]);
      assert Decimals(ids)[1..] == Decimals(ids[1..]);
      ParseNatToDecimal(ids[0]);
      assert [ids[0]] + ids[1..] == ids;
    }
  }

  /** Reading back the clause text built from a non-empty pick gives the
      picked ids, in pick order and with repeats. */
  lemma WhereRoundTrip(ids: seq<Id>)
    requires |ids| > 0
    ensures ParseWhere(WherePrefix + Join(Decimals(ids), ',') + ")") == Some(ids)
  {
    var body := Join(Decimals(ids), ',');
    var clause := WherePrefix + body + ")";
    assert clause[..|WherePrefix|] == WherePrefix;
    assert clause[|WherePrefix|..|clause| - 1] == body;
    forall k | 0 <= k < |Decimals(ids)|
      ensures ',' !in Decimals(ids)[k]
    {
      var d := Decimals(ids)[k];
      assert forall m :: 0 <= m < |d| ==> d[m] != ',';
    }
    SplitJoin(Decimals(ids), ',');
    ParseDecimals(ids);
  }
}
