/**
  The list operations the Redux reducers apply to the records they hold:
  `findIndex`, `filter` and `map` with a callback that compares one property
  of each record with a key.

  A callback that reads a property of `null` or `undefined` throws a
  `TypeError`; the operations then return `None`, or `Throws` for a search.
  `findIndex` stops at its first match, so a record it never reaches cannot
  make it throw; `filter` and `map` visit every record.
*/
module ListOps {
  import opened Wrappers
  import opened Js

  /** Property reads on `null` and `undefined` throw; on anything else they succeed. */
  predicate Readable(v: Val) {
    !(v.Undefined? || v.Null?)
  }

  /** What a record's property is compared with: a plain value, or a property of the action payload. */
  datatype Key = Direct(v: Val) | PropOf(obj: Val, prop: string)

  /** The key value, read when the callback first runs. */
  function KeyValue(k: Key): (r: Option<Val>)
    ensures k.Direct? ==> r == Some(k.v)
    ensures k.PropOf? ==> (r.Some? <==> Readable(k.obj)) && (r.Some? ==> r.value == Get(k.obj, k.prop))
  {
    match k
    case Direct(v) => Some(v)
    case PropOf(obj, prop) => if Readable(obj) then Some(Get(obj, prop)) else None
  }

  /**
    The callbacks of the reducers: `rec[prop] === key`, or
    `rec.id === idKey || rec._id === altKey` (the user list, which matches a
    record by either id).
  */
  datatype Matcher = Field(prop: string, key: Key) | EitherId(idKey: Key, altKey: Key)

  /** One callback run on one record: `None` when it throws. */
  function Test(m: Matcher, rec: Val): (r: Option<bool>)
    ensures !Readable(rec) ==> r.None?
    ensures m.Field? && Readable(rec) ==> (r.None? <==> KeyValue(m.key).None?)
  {
    if !Readable(rec) then None
    else match m
      case Field(prop, key) =>
        (match KeyValue(key)
         case None => None
         case Some(v) => Some(StrictEq(Get(rec, prop), v)))
      case EitherId(idKey, altKey) =>
        (match KeyValue(idKey)
         case None => None
         case Some(v) =>
           if StrictEq(Get(rec, "id"), v) then Some(true)
           else match KeyValue(altKey)
             case None => None
             case Some(w) => Some(StrictEq(Get(rec, "_id"), w)))
  }

  // ---------------------------------------------------------------------------
  // findIndex
  // ---------------------------------------------------------------------------

  datatype Search = Throws | Absent | At(index: nat)

  /** `xs.findIndex(callback)`: the first record the callback accepts, `-1` (here `Absent`) when none does. */
  function FindIndex(xs: seq<Val>, m: Matcher): (r: Search)
    ensures r.At? ==> r.index < |xs| && Test(m, xs[r.index]) == Some(true)
    ensures r.At? ==> forall j :: 0 <= j < r.index ==> Test(m, xs[j]) == Some(false)
    ensures r.Absent? <==> forall j :: 0 <= j < |xs| ==> Test(m, xs[j]) == Some(false)
    ensures r.Throws? ==>
      exists j :: 0 <= j < |xs| && Test(m, xs[j]).None? && forall i :: 0 <= i < j ==> Test(m, xs[i]) == Some(false)
  {
    if xs == [] then Absent
    else match Test(m, xs[0])
      case None => Throws
      case Some(true) => At(0)
      case Some(false) =>
        var rest := FindIndex(xs[1..], m);
        assert forall j :: 1 <= j < |xs| ==> xs[j] == xs[1..][j - 1];
        match rest
        case Throws => Throws
        case Absent => Absent
        case At(i) => At(i + 1)
  }

  /**
    The reducer step "replace the first match, else push": the record found
    is overwritten with `x`, and `x` is appended when there is none.
  */
  function ReplaceOrAppend(xs: seq<Val>, m: Matcher, x: Val): (r: Option<seq<Val>>)
    ensures r.None? <==> FindIndex(xs, m).Throws?
    ensures r.Some? && FindIndex(xs, m).Absent? ==> r.value == xs + [x]
    ensures r.Some? && FindIndex(xs, m).At? ==> r.value == xs[FindIndex(xs, m).index := x]
  {
    match FindIndex(xs, m)
    case Throws => None
    case Absent => Some(xs + [x])
    case At(i) => Some(xs[i := x])
  }

  /** The list grows by exactly one record iff no record matched; every other record stays in place. */
  lemma ReplaceOrAppendShape(xs: seq<Val>, m: Matcher, x: Val)
    requires ReplaceOrAppend(xs, m, x).Some?
    ensures var r := ReplaceOrAppend(xs, m, x).value;
      (|r| == |xs| + 1 <==> forall j :: 0 <= j < |xs| ==> Test(m, xs[j]) == Some(false))
      && (|r| == |xs| || |r| == |xs| + 1)
      && x in r
      && forall j :: 0 <= j < |xs| && Test(m, xs[j]) != Some(true) ==> r[j] == xs[j]
  {
    var r := ReplaceOrAppend(xs, m, x).value;
    assert r[|r| - 1] == x || r[FindIndex(xs, m).index] == x;
  }

  // ---------------------------------------------------------------------------
  // Keys
  // ---------------------------------------------------------------------------

  /** No two records share a value of `prop`. */
  predicate UniqueBy(xs: seq<Val>, prop: string) {
    forall i, j :: 0 <= i < j < |xs| ==> !StrictEq(Get(xs[i], prop), Get(xs[j], prop))
  }

  lemma StrictEqTransitive(a: Val, b: Val, c: Val)
    requires StrictEq(a, b) && StrictEq(b, c)
    ensures StrictEq(a, c)
  {
  }

  /**
    Replacing or appending a record keyed by the payload's own `prop` keeps
    the keys of the list unique (the cart's `productId`).
  */
  lemma ReplaceOrAppendKeepsUnique(xs: seq<Val>, prop: string, x: Val)
    requires UniqueBy(xs, prop) && Readable(x)
    requires ReplaceOrAppend(xs, Field(prop, PropOf(x, prop)), x).Some?
    ensures UniqueBy(ReplaceOrAppend(xs, Field(prop, PropOf(x, prop)), x).value, prop)
  {
    var m := Field(prop, PropOf(x, prop));
    var r := ReplaceOrAppend(xs, m, x).value;
    forall i, j | 0 <= i < j < |r|
      ensures !StrictEq(Get(r[i], prop), Get(r[j], prop))
    {
      match FindIndex(xs, m)
      case Absent =>
        if j == |xs| {
          assert Test(m, xs[i]) == Some(false);
        }
      case At(k) =>
        assert StrictEq(Get(xs[k], prop), Get(x, prop));
        if i == k {
          if StrictEq(Get(x, prop), Get(xs[j], prop)) {
            StrictEqTransitive(Get(xs[k], prop), Get(x, prop), Get(xs[j], prop));
          }
        } else if j == k {
          assert Test(m, xs[i]) == Some(false);
        }
    }
  }

  // ---------------------------------------------------------------------------
  // filter
  // ---------------------------------------------------------------------------

  /** Some record makes the callback throw. */
  predicate AnyThrows(xs: seq<Val>, m: Matcher) {
    exists j :: 0 <= j < |xs| && Test(m, xs[j]).None?
  }

  /** `xs.filter(rec => !callback(rec))`: the records that do not match, in order. */
  function Remove(xs: seq<Val>, m: Matcher): (r: Option<seq<Val>>)
    ensures r.None? <==> AnyThrows(xs, m)
    ensures r.Some? ==> |r.value| <= |xs|
  {
    if xs == [] then Some([])
    else
      var rest := Remove(xs[..|xs| - 1], m);
      var last := xs[|xs| - 1];
      assert forall j :: 0 <= j < |xs| - 1 ==> xs[..|xs| - 1][j] == xs[j];
      match Test(m, last)
      case None => None
      case Some(hit) =>
        if rest.None? then None
        else Some(rest.value + (if hit then [] else [last]))
  }

  /** The filter keeps exactly the records that do not match. */
  lemma {:induction false} RemoveKeeps(xs: seq<Val>, m: Matcher)
    requires Remove(xs, m).Some?
    ensures forall v :: v in Remove(xs, m).value <==> v in xs && Test(m, v) == Some(false)
  {
    if xs != [] {
      var init := xs[..|xs| - 1];
      RemoveKeeps(init, m);
      assert xs == init + [xs[|xs| - 1]];
    }
  }

  /** Filtering what a filter kept changes nothing. */
  lemma {:induction false} RemoveIdempotent(xs: seq<Val>, m: Matcher)
    requires Remove(xs, m).Some?
    ensures Remove(Remove(xs, m).value, m) == Remove(xs, m)
  {
    if xs != [] {
      var init := xs[..|xs| - 1];
      var last := xs[|xs| - 1];
      RemoveIdempotent(init, m);
      var kept := Remove(init, m).value;
      if Test(m, last) == Some(false) {
        assert Remove(xs, m).value == kept + [last];
        assert (kept + [last])[..|kept|] == kept;
        assert Remove(kept + [last], m) == Some(kept + [last]);
      } else {
        assert Remove(xs, m).value == kept;
      }
    }
  }

  /** Filtering a concatenation is concatenating the filtered parts. */
  lemma {:induction false} RemoveAppend(xs: seq<Val>, ys: seq<Val>, m: Matcher)
    requires Remove(xs, m).Some? && Remove(ys, m).Some?
    ensures Remove(xs + ys, m) == Some(Remove(xs, m).value + Remove(ys, m).value)
  {
    if ys != [] {
      var init := ys[..|ys| - 1];
      var last := ys[|ys| - 1];
      assert (xs + ys)[..|xs + ys| - 1] == xs + init;
      assert (xs + ys)[|xs + ys| - 1] == last;
      RemoveAppend(xs, init, m);
      var tail := if Test(m, last) == Some(true) then [] else [last];
      assert Remove(ys, m).value == Remove(init, m).value + tail;
      assert Remove(xs + ys, m).value == Remove(xs + init, m).value + tail;
      assert Remove(xs, m).value + Remove(init, m).value + tail == Remove(xs, m).value + (Remove(init, m).value + tail);
    } else {
      assert xs + ys == xs;
      assert Remove(ys, m).value == [];
      assert Remove(xs, m).value + Remove(ys, m).value == Remove(xs, m).value;
    }
  }

  /** Nothing is removed exactly when no record matches. */
  lemma {:induction false} RemoveNothing(xs: seq<Val>, m: Matcher)
    requires Remove(xs, m).Some?
    ensures Remove(xs, m).value == xs <==> forall j :: 0 <= j < |xs| ==> Test(m, xs[j]) == Some(false)
  {
    if xs != [] {
      var init := xs[..|xs| - 1];
      RemoveNothing(init, m);
      var kept := Remove(init, m).value;
      if Test(m, xs[|xs| - 1]) == Some(true) {
        assert |Remove(xs, m).value| < |xs|;
      } else if Remove(xs, m).value == xs {
        assert kept == init;
      }
    }
  }

  // ---------------------------------------------------------------------------
  // map
  // ---------------------------------------------------------------------------

  /** `xs.map(rec => callback(rec) ? x : rec)`. */
  function Substitute(xs: seq<Val>, m: Matcher, x: Val): (r: Option<seq<Val>>)
    ensures r.None? <==> AnyThrows(xs, m)
    ensures r.Some? ==> |r.value| == |xs|
    ensures r.Some? ==> forall j :: 0 <= j < |xs| ==> r.value[j] == if Test(m, xs[j]) == Some(true) then x else xs[j]
  {
    if xs == [] then Some([])
    else
      var rest := Substitute(xs[..|xs| - 1], m, x);
      var last := xs[|xs| - 1];
      assert forall j :: 0 <= j < |xs| - 1 ==> xs[..|xs| - 1][j] == xs[j];
      match Test(m, last)
      case None => None
      case Some(hit) =>
        if rest.None? then None
        else Some(rest.value + [if hit then x else last])
  }

  /** A map with no matching record returns the list unchanged; substituting twice is substituting once. */
  lemma SubstituteFacts(xs: seq<Val>, m: Matcher, x: Val)
    requires Substitute(xs, m, x).Some?
    ensures (forall j :: 0 <= j < |xs| ==> Test(m, xs[j]) == Some(false)) ==> Substitute(xs, m, x).value == xs
    ensures Test(m, x) == Some(true) ==> Substitute(Substitute(xs, m, x).value, m, x) == Substitute(xs, m, x)
  {
    var r := Substitute(xs, m, x).value;
    if Test(m, x) == Some(true) {
      assert forall j :: 0 <= j < |r| ==> Test(m, r[j]).Some?;
      var r2 := Substitute(r, m, x).value;
      assert r2 == r;
    }
  }
}
