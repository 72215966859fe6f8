/**
 * The ids the forms give a new line: one more than the largest numeric id
 * of the table. The income and expense forms read every id with `Number`,
 * so one non-numeric id makes the maximum NaN and the new id the text
 * "NaN"; the asset and liability forms read a non-numeric id as 0.
 */
module ItemIds {
  import opened Money

  /** The ids of a table's lines, in line order. */
  function Ids<T>(items: seq<T>, id: T -> string): (r: seq<string>)
    ensures |r| == |items| && forall i :: 0 <= i < |items| ==> r[i] == id(items[i])
  {
    seq(|items|, i requires 0 <= i < |items| => id(items[i]))
  }

  /** `Math.max(...ids.map(Number), 0)`: None when some id is not a number. */
  function MaxNumber(ids: seq<string>): (r: Option<int>)
    ensures r.Some? <==> forall i :: 0 <= i < |ids| ==> NumberOf(ids[i]).Some?
    ensures r.Some? ==> r.value >= 0 && forall i :: 0 <= i < |ids| ==> NumberOf(ids[i]).value <= r.value
  {
    if ids == [] then Some(0)
    else
      var rest := MaxNumber(ids[..|ids| - 1]);
      var last := NumberOf(ids[|ids| - 1]);
      if rest.None? || last.None? then None
      else
        assert forall i :: 0 <= i < |ids| - 1 ==> ids[i] == ids[..|ids| - 1][i];
        Some(if last.value > rest.value then last.value else rest.value)
  }

  /** `String(Math.max(...ids.map(Number), 0) + 1)`. */
  function NextId(ids: seq<string>): string
  {
    match MaxNumber(ids)
      case None => "NaN"
      case Some(m) => IntText(m + 1)
  }

  /** `Number(id) || 0`. */
  function NumberOrZero(id: string): (r: nat)
    ensures NumberOf(id).Some? ==> r == NumberOf(id).value
  {
    match NumberOf(id)
      case None => 0
      case Some(n) => n
  }

  /** `Math.max(...ids.map(id => Number(id) || 0), 0)`. */
  function MaxNumberOrZero(ids: seq<string>): (r: nat)
    ensures forall i :: 0 <= i < |ids| ==> NumberOrZero(ids[i]) <= r
  {
    if ids == [] then 0
    else
      var rest := MaxNumberOrZero(ids[..|ids| - 1]);
      assert forall i :: 0 <= i < |ids| - 1 ==> ids[i] == ids[..|ids| - 1][i];
      if NumberOrZero(ids[|ids| - 1]) > rest then NumberOrZero(ids[|ids| - 1]) else rest
  }

  /** `String(Math.max(...ids.map(id => Number(id) || 0), 0) + 1)`. */
  function NextIdOrZero(ids: seq<string>): string
  {
    IntText(MaxNumberOrZero(ids) + 1)
  }

  /** A table of numeric ids gets a numeric id, one more than their maximum. */
  lemma NextIdOfNumbers(ids: seq<string>)
    requires MaxNumber(ids).Some?
    ensures NumberOf(NextId(ids)) == Some(MaxNumber(ids).value + 1)
  {
    NumberOfIntText(MaxNumber(ids).value + 1);
  }

  /** While every id is numeric the new id is numeric and differs from every id. */
  lemma NextIdFresh(ids: seq<string>)
    requires forall i :: 0 <= i < |ids| ==> NumberOf(ids[i]).Some?
    ensures NumberOf(NextId(ids)) == Some(MaxNumber(ids).value + 1)
    ensures forall i :: 0 <= i < |ids| ==> ids[i] != NextId(ids)
  {
    var m := MaxNumber(ids).value;
    NextIdOfNumbers(ids);
    forall i | 0 <= i < |ids|
      ensures ids[i] != NextId(ids)
    {
      assert NumberOf(ids[i]).value <= m;
    }
  }

  /** Once one id is not numeric, every later line gets the id "NaN". */
  lemma NextIdAfterNaN(ids: seq<string>, i: nat)
    requires i < |ids| && NumberOf(ids[i]).None?
    ensures NextId(ids) == "NaN"
    ensures NextId(ids + ["NaN"]) == "NaN"
  {
    assert (ids + ["NaN"])[i] == ids[i];
  }

  /** The asset and liability forms' new id is numeric and differs from every id, numeric or not. */
  lemma NextIdOrZeroFresh(ids: seq<string>)
    ensures NumberOf(NextIdOrZero(ids)) == Some(MaxNumberOrZero(ids) + 1)
    ensures forall i :: 0 <= i < |ids| ==> ids[i] != NextIdOrZero(ids)
  {
    var m := MaxNumberOrZero(ids);
    assert NextIdOrZero(ids) == IntText(m + 1);
    NumberOfIntText(m + 1);
    forall i | 0 <= i < |ids|
      ensures ids[i] != NextIdOrZero(ids)
    {
      assert NumberOrZero(ids[i]) <= m;
    }
  }
}
