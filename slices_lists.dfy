/**
  The Redux slices that hold a list of records: each is an object whose fields
  the reducers assign (through Immer's draft), so each is a class here.  The
  list field holds whatever the last fetch delivered, which need not be an
  array; a reducer that then throws a `TypeError` (a missing `push`,
  `findIndex`, `filter` or `map`, or a property read on `null`) leaves the
  whole state as it was, which the methods report as `ok == false`.
*/

/** `cartSlice.js`: the cart lines, keyed by `productId`. */
module CartSlice {
  import opened Wrappers
  import opened Js
  import opened ListOps

  /** The callback `item.productId === action.payload.productId`. */
  function SameProduct(payload: Val): Matcher {
    Field("productId", PropOf(payload, "productId"))
  }

  class Cart {
    var items: Val
    var loading: bool
    var error: Val

    constructor ()
      ensures items == Arr([]) && !loading && error == Null
    {
      items := Arr([]);
      loading := false;
      error := Null;
    }

    /** Every pending case: loading, error cleared, lines untouched. */
    method Pending()
      modifies this
      ensures loading && error == Null && items == old(items)
    {
      loading := true;
      error := Null;
    }

    /** Every rejected case: the payload becomes the error, lines untouched. */
    method Rejected(payload: Val)
      modifies this
      ensures !loading && error == payload && items == old(items)
    {
      loading := false;
      error := payload;
    }

    /** `addToCart.fulfilled`: overwrite the line of the same product, else push. */
    method AddFulfilled(payload: Val) returns (ok: bool)
      modifies this
      ensures ok <==> old(items).Arr? && ReplaceOrAppend(old(items).elems, SameProduct(payload), payload).Some?
      ensures ok ==>
        items == Arr(ReplaceOrAppend(old(items).elems, SameProduct(payload), payload).value)
        && !loading && error == old(error)
      ensures !ok ==> items == old(items) && loading == old(loading) && error == old(error)
    {
      if !items.Arr? {
        return false;
      }
      var found := FindIndex(items.elems, SameProduct(payload));
      if found.Throws? {
        return false;
      }
      loading := false;
      if found.At? {
        items := Arr(items.elems[found.index := payload]);
      } else {
        items := Arr(items.elems + [payload]);
      }
      ok := true;
    }

    /** `fetchCart.fulfilled`: the lines are replaced by the server's. */
    method FetchFulfilled(payload: Val)
      modifies this
      ensures !loading && items == payload && error == old(error)
    {
      loading := false;
      items := payload;
    }

    /** `removeFromCart.fulfilled`: keep the lines of other products. */
    method RemoveFulfilled(payload: Val) returns (ok: bool)
      modifies this
      ensures ok <==> old(items).Arr? && Remove(old(items).elems, SameProduct(payload)).Some?
      ensures ok ==>
        items == Arr(Remove(old(items).elems, SameProduct(payload)).value)
        && !loading && error == old(error)
      ensures !ok ==> items == old(items) && loading == old(loading) && error == old(error)
    {
      if !items.Arr? {
        return false;
      }
      var kept := Remove(items.elems, SameProduct(payload));
      if kept.None? {
        return false;
      }
      loading := false;
      items := Arr(kept.value);
      ok := true;
    }
  }

  /** Adding a line keeps product ids unique; removing a product twice is removing it once. */
  lemma CartKeys(xs: seq<Val>, payload: Val)
    requires UniqueBy(xs, "productId") && Readable(payload)
    ensures ReplaceOrAppend(xs, SameProduct(payload), payload).Some? ==>
      UniqueBy(ReplaceOrAppend(xs, SameProduct(payload), payload).value, "productId")
    ensures Remove(xs, SameProduct(payload)).Some? ==>
      Remove(Remove(xs, SameProduct(payload)).value, SameProduct(payload)) == Remove(xs, SameProduct(payload))
    ensures Remove(xs, SameProduct(payload)).Some? ==>
      forall v :: v in Remove(xs, SameProduct(payload)).value ==> Test(SameProduct(payload), v) == Some(false)
  {
    if ReplaceOrAppend(xs, SameProduct(payload), payload).Some? {
      ReplaceOrAppendKeepsUnique(xs, "productId", payload);
    }
    if Remove(xs, SameProduct(payload)).Some? {
      RemoveIdempotent(xs, SameProduct(payload));
      RemoveKeeps(xs, SameProduct(payload));
    }
  }
}

/** `productSlice.js`: the product list, keyed by `id`. */
module ProductSlice {
  import opened Wrappers
  import opened Js
  import opened ListOps

  /**
    What `fetchProducts` returns for a response body: an array as is, else a
    truthy `results` property, else an empty array.  Reading `results` of a
    null body throws, and the thunk rejects with the error message.
  */
  function NormaliseResponse(data: Val): (r: Result<Val, string>)
    ensures r.Err? <==> !Readable(data)
    ensures data.Arr? ==> r == Ok(data)
    ensures r.Ok? && !data.Arr? && Truthy(Get(data, "results")) ==> r.value == Get(data, "results")
    ensures r.Ok? && !data.Arr? && !Truthy(Get(data, "results")) ==> r.value == Arr([])
  {
    if data.Arr? then Ok(data)
    else if !Readable(data) then Err("Cannot read properties of " + (if data.Null? then "null" else "undefined") + " (reading 'results')")
    else if Truthy(Get(data, "results")) then Ok(Get(data, "results"))
    else Ok(Arr([]))
  }

  /** A plain array or a page whose `results` is an array normalises to an array; normalising it again changes nothing. */
  lemma NormaliseGivesArray(data: Val)
    requires data.Arr? || (data.Obj? && Get(data, "results").Arr?)
    ensures NormaliseResponse(data).Ok? && NormaliseResponse(data).value.Arr?
    ensures NormaliseResponse(NormaliseResponse(data).value) == NormaliseResponse(data)
  {
  }

  /** A page whose `results` is a non-empty string: the "array guaranteed" list is not an array. */
  lemma NormaliseNotAlwaysArray()
    ensures var r := NormaliseResponse(Obj(map["results" := Str("x")]));
      r.Ok? && !r.value.Arr?
  {
  }

  /**
    The normalisation the "array guaranteed" comment evidently intends: an
    array as is, else `results` when it is an array, else an empty array.
  */
  function NormaliseIntended(data: Val): (r: Result<Val, string>)
    ensures r.Err? <==> !Readable(data)
    ensures r.Ok? ==> r.value.Arr?
    ensures NormaliseResponse(data).Ok? && NormaliseResponse(data).value.Arr? ==> r == NormaliseResponse(data)
  {
    if data.Arr? then Ok(data)
    else if !Readable(data) then NormaliseResponse(data)
    else if Get(data, "results").Arr? then Ok(Get(data, "results"))
    else Ok(Arr([]))
  }

  function SameId(payload: Val): Matcher {
    Field("id", PropOf(payload, "id"))
  }

  class Products {
    var products: Val
    var loading: bool
    var error: Val

    constructor ()
      ensures products == Arr([]) && !loading && error == Null
    {
      products := Arr([]);
      loading := false;
      error := Null;
    }

    method Pending()
      modifies this
      ensures loading && error == Null && products == old(products)
    {
      loading := true;
      error := Null;
    }

    method Rejected(payload: Val)
      modifies this
      ensures !loading && error == payload && products == old(products)
    {
      loading := false;
      error := payload;
    }

    method FetchFulfilled(payload: Val)
      modifies this
      ensures !loading && products == payload && error == old(error)
    {
      loading := false;
      products := payload;
    }

    /** `addProduct`: push the payload. */
    method AddProduct(payload: Val) returns (ok: bool)
      modifies this
      ensures ok <==> old(products).Arr?
      ensures ok ==> products == Arr(old(products).elems + [payload])
      ensures !ok ==> products == old(products)
      ensures loading == old(loading) && error == old(error)
    {
      if !products.Arr? {
        return false;
      }
      products := Arr(products.elems + [payload]);
      ok := true;
    }

    /** `updateProduct`: merge the payload into the first product with its id. */
    method UpdateProduct(payload: Val) returns (ok: bool)
      modifies this
      ensures ok <==> old(products).Arr? && !FindIndex(old(products).elems, SameId(payload)).Throws?
      ensures ok ==> match FindIndex(old(products).elems, SameId(payload))
        case At(i) => products == Arr(old(products).elems[i := Merge(old(products).elems[i], payload)])
        case _ => products == old(products)
      ensures !ok ==> products == old(products)
      ensures loading == old(loading) && error == old(error)
    {
      if !products.Arr? {
        return false;
      }
      var found := FindIndex(products.elems, SameId(payload));
      if found.Throws? {
        return false;
      }
      if found.At? {
        var i := found.index;
        products := Arr(products.elems[i := Merge(products.elems[i], payload)]);
      }
      ok := true;
    }

    /** `removeProduct`: drop every product with the id. */
    method RemoveProduct(id: Val) returns (ok: bool)
      modifies this
      ensures ok <==> old(products).Arr? && Remove(old(products).elems, Field("id", Direct(id))).Some?
      ensures ok ==> products == Arr(Remove(old(products).elems, Field("id", Direct(id))).value)
      ensures !ok ==> products == old(products)
      ensures loading == old(loading) && error == old(error)
    {
      if !products.Arr? {
        return false;
      }
      var kept := Remove(products.elems, Field("id", Direct(id)));
      if kept.None? {
        return false;
      }
      products := Arr(kept.value);
      ok := true;
    }
  }
}

/**
  `categorySlice.js` and `brandSlice.js`: the two slices have the same
  reducers over their `items`, keyed by `id`.
*/
module CatalogSlice {
  import opened Js
  import opened ListOps

  class CatalogList {
    var items: Val
    var loading: bool
    var error: Val

    constructor ()
      ensures items == Arr([]) && !loading && error == Null
    {
      items := Arr([]);
      loading := false;
      error := Null;
    }

    method Pending()
      modifies this
      ensures loading && error == Null && items == old(items)
    {
      loading := true;
      error := Null;
    }

    method Rejected(payload: Val)
      modifies this
      ensures !loading && error == payload && items == old(items)
    {
      loading := false;
      error := payload;
    }

    /** Fetch: an array payload is stored, anything else (a page) becomes the empty list. */
    method FetchFulfilled(payload: Val)
      modifies this
      ensures !loading && error == old(error)
      ensures items == if payload.Arr? then payload else Arr([])
    {
      loading := false;
      if payload.Arr? {
        items := payload;
      } else {
        items := Arr([]);
      }
    }

    /** Add: a list that is not an array is reset first, so the push always succeeds. */
    method AddFulfilled(payload: Val)
      modifies this
      ensures !loading && error == old(error)
      ensures old(items).Arr? ==> items == Arr(old(items).elems + [payload])
      ensures !old(items).Arr? ==> items == Arr([payload])
    {
      loading := false;
      if !items.Arr? {
        items := Arr([]);
      }
      items := Arr(items.elems + [payload]);
    }

    /** Remove: drop every record with the id. */
    method RemoveFulfilled(id: Val) returns (ok: bool)
      modifies this
      ensures ok <==> old(items).Arr? && Remove(old(items).elems, Field("id", Direct(id))).Some?
      ensures ok ==>
        items == Arr(Remove(old(items).elems, Field("id", Direct(id))).value)
        && !loading && error == old(error)
      ensures !ok ==> items == old(items) && loading == old(loading) && error == old(error)
    {
      if !items.Arr? {
        return false;
      }
      var kept := Remove(items.elems, Field("id", Direct(id)));
      if kept.None? {
        return false;
      }
      loading := false;
      items := Arr(kept.value);
      ok := true;
    }
  }
}

/**
  `doctorSlice.js`: the doctors as delivered by the server, either a page
  (`{count, results}`) or a plain array.
*/
module DoctorSlice {
  import opened Wrappers
  import opened Js
  import opened ListOps

  predicate Paged(v: Val) {
    Truthy(Get(v, "results"))
  }

  class Doctors {
    var doctors: Val
    var loading: bool
    var error: Val

    constructor ()
      ensures doctors == Arr([]) && !loading && error == Null
    {
      doctors := Arr([]);
      loading := false;
      error := Null;
    }

    method Pending()
      modifies this
      ensures loading && error == Null && doctors == old(doctors)
    {
      loading := true;
      error := Null;
    }

    method Rejected(payload: Val)
      modifies this
      ensures !loading && error == payload && doctors == old(doctors)
    {
      loading := false;
      error := payload;
    }

    method FetchFulfilled(payload: Val)
      modifies this
      ensures !loading && doctors == payload && error == old(error)
    {
      loading := false;
      doctors := payload;
    }

    /**
      Add: a page gets the doctor pushed onto `results` and `count` raised by
      one; an array gets it pushed; anything else becomes a one-doctor array.
    */
    method AddFulfilled(payload: Val) returns (ok: bool)
      modifies this
      ensures ok <==> Readable(old(doctors)) && (Paged(old(doctors)) ==> Get(old(doctors), "results").Arr?)
      ensures ok && Paged(old(doctors)) ==>
        doctors == SetField(SetField(old(doctors), "results", Arr(Get(old(doctors), "results").elems + [payload])),
                            "count", PlusOne(Get(old(doctors), "count")))
      ensures ok && !Paged(old(doctors)) && old(doctors).Arr? ==> doctors == Arr(old(doctors).elems + [payload])
      ensures ok && !Paged(old(doctors)) && !old(doctors).Arr? ==> doctors == Arr([payload])
      ensures ok ==> !loading && error == old(error)
      ensures !ok ==> doctors == old(doctors) && loading == old(loading) && error == old(error)
    {
      if !Readable(doctors) {
        return false;
      }
      var results := Get(doctors, "results");
      if Truthy(results) {
        if !results.Arr? {
          return false;
        }
        loading := false;
        doctors := SetField(doctors, "results", Arr(results.elems + [payload]));
        doctors := SetField(doctors, "count", PlusOne(Get(doctors, "count")));
      } else if doctors.Arr? {
        loading := false;
        doctors := Arr(doctors.elems + [payload]);
      } else {
        loading := false;
        doctors := Arr([payload]);
      }
      ok := true;
    }

    /** Update: every doctor with the payload's id is replaced, in a page or in an array. */
    method UpdateFulfilled(payload: Val) returns (ok: bool)
      modifies this
      ensures var m := Field("id", PropOf(payload, "id"));
        var results := Get(old(doctors), "results");
        ok <==>
          Readable(old(doctors))
          && (Paged(old(doctors)) ==> results.Arr? && Substitute(results.elems, m, payload).Some?)
          && (!Paged(old(doctors)) && old(doctors).Arr? ==> Substitute(old(doctors).elems, m, payload).Some?)
      ensures var m := Field("id", PropOf(payload, "id"));
        var results := Get(old(doctors), "results");
        ok ==>
          (Paged(old(doctors)) ==> doctors == SetField(old(doctors), "results", Arr(Substitute(results.elems, m, payload).value)))
          && (!Paged(old(doctors)) && old(doctors).Arr? ==> doctors == Arr(Substitute(old(doctors).elems, m, payload).value))
          && (!Paged(old(doctors)) && !old(doctors).Arr? ==> doctors == old(doctors))
          && !loading && error == old(error)
      ensures !ok ==> doctors == old(doctors) && loading == old(loading) && error == old(error)
    {
      if !Readable(doctors) {
        return false;
      }
      var m := Field("id", PropOf(payload, "id"));
      var results := Get(doctors, "results");
      if Truthy(results) {
        if !results.Arr? {
          return false;
        }
        var mapped := Substitute(results.elems, m, payload);
        if mapped.None? {
          return false;
        }
        doctors := SetField(doctors, "results", Arr(mapped.value));
      } else if doctors.Arr? {
        var mapped := Substitute(doctors.elems, m, payload);
        if mapped.None? {
          return false;
        }
        doctors := Arr(mapped.value);
      }
      loading := false;
      ok := true;
    }

    /**
      Delete: drop the doctors with the id; in a page `count` drops by one
      whether or not a doctor was removed.
    */
    method DeleteFulfilled(id: Val) returns (ok: bool)
      modifies this
      ensures var m := Field("id", Direct(id));
        var results := Get(old(doctors), "results");
        ok <==>
          Readable(old(doctors))
          && (Paged(old(doctors)) ==> results.Arr? && Remove(results.elems, m).Some?)
          && (!Paged(old(doctors)) && old(doctors).Arr? ==> Remove(old(doctors).elems, m).Some?)
      ensures var m := Field("id", Direct(id));
        var results := Get(old(doctors), "results");
        ok ==>
          (Paged(old(doctors)) ==>
             doctors == SetField(SetField(old(doctors), "results", Arr(Remove(results.elems, m).value)),
                                 "count", MinusOne(Get(old(doctors), "count"))))
          && (!Paged(old(doctors)) && old(doctors).Arr? ==> doctors == Arr(Remove(old(doctors).elems, m).value))
          && (!Paged(old(doctors)) && !old(doctors).Arr? ==> doctors == old(doctors))
          && !loading && error == old(error)
      ensures !ok ==> doctors == old(doctors) && loading == old(loading) && error == old(error)
    {
      if !Readable(doctors) {
        return false;
      }
      var m := Field("id", Direct(id));
      var results := Get(doctors, "results");
      if Truthy(results) {
        if !results.Arr? {
          return false;
        }
        var kept := Remove(results.elems, m);
        if kept.None? {
          return false;
        }
        doctors := SetField(doctors, "results", Arr(kept.value));
        doctors := SetField(doctors, "count", MinusOne(Get(doctors, "count")));
      } else if doctors.Arr? {
        var kept := Remove(doctors.elems, m);
        if kept.None? {
          return false;
        }
        doctors := Arr(kept.value);
      }
      loading := false;
      ok := true;
    }
  }

  /** Deleting an id no doctor of a page has still lowers `count` by one. */
  lemma DeleteMissingStillCounts()
    ensures var page := Obj(map["count" := Num(1.0), "results" := Arr([Obj(map["id" := Num(7.0)])])]);
      var kept := Remove(Get(page, "results").elems, Field("id", Direct(Num(8.0))));
      kept == Some(Get(page, "results").elems)
      && Get(SetField(page, "count", MinusOne(Get(page, "count"))), "count") == Num(0.0)
  {
    var rec := Obj(map["id" := Num(7.0)]);
    var page := Obj(map["count" := Num(1.0), "results" := Arr([rec])]);
    assert Get(page, "results") == Arr([rec]);
    assert [rec][..0] == [];
    assert Test(Field("id", Direct(Num(8.0))), rec) == Some(false);
    assert Remove([rec][..0], Field("id", Direct(Num(8.0)))) == Some([]);
    assert [] + [rec] == [rec];
    assert Remove([rec], Field("id", Direct(Num(8.0)))) == Some([rec]);
  }
}

/** `AllUserSlice.js`: the admin's user list, matched by `id` or by `_id`. */
module AllUserSlice {
  import opened Js
  import opened ListOps

  /**
    `u.id === action.payload.id || u._id === action.payload._id`, as written:
    a key the payload lacks reads as undefined and matches every user that
    lacks it too.
  */
  function SameUser(payload: Val): Matcher {
    EitherId(PropOf(payload, "id"), PropOf(payload, "_id"))
  }

  /** The match the update evidently intends: a key is compared only when the payload carries it. */
  function SameUserIntended(payload: Val): Matcher {
    if Get(payload, "_id").Undefined? then Field("id", PropOf(payload, "id"))
    else if Get(payload, "id").Undefined? then Field("_id", PropOf(payload, "_id"))
    else SameUser(payload)
  }

  /**
    With the intended match, the user an update replaces shares with the
    payload a key the payload actually carries.
  */
  lemma UpdateIntendedSharesKey(xs: seq<Val>, payload: Val)
    requires !Get(payload, "id").Undefined? || !Get(payload, "_id").Undefined?
    ensures FindIndex(xs, SameUserIntended(payload)).At? ==>
      var u := xs[FindIndex(xs, SameUserIntended(payload)).index];
      (!Get(payload, "id").Undefined? && StrictEq(Get(u, "id"), Get(payload, "id")))
      || (!Get(payload, "_id").Undefined? && StrictEq(Get(u, "_id"), Get(payload, "_id")))
  {
  }

  /** `u.id !== id && u._id !== id`, negated. */
  function UserKey(id: Val): Matcher {
    EitherId(Direct(id), Direct(id))
  }

  class AllUsers {
    var users: Val
    var loading: bool
    var error: Val

    constructor ()
      ensures users == Arr([]) && !loading && error == Null
    {
      users := Arr([]);
      loading := false;
      error := Null;
    }

    method Reset()
      modifies this
      ensures users == Arr([]) && !loading && error == Null
    {
      users := Arr([]);
      loading := false;
      error := Null;
    }

    method Pending()
      modifies this
      ensures loading && error == Null && users == old(users)
    {
      loading := true;
      error := Null;
    }

    method Rejected(payload: Val)
      modifies this
      ensures !loading && error == payload && users == old(users)
    {
      loading := false;
      error := payload;
    }

    /** Fetch: only the page's `results` are stored. */
    method FetchFulfilled(payload: Val) returns (ok: bool)
      modifies this
      ensures ok <==> Readable(payload)
      ensures ok ==> !loading && users == Get(payload, "results") && error == old(error)
      ensures !ok ==> users == old(users) && loading == old(loading) && error == old(error)
    {
      if !Readable(payload) {
        return false;
      }
      loading := false;
      users := Get(payload, "results");
      ok := true;
    }

    /**
      Update: the first user matching by `id` or `_id` is replaced by the
      payload, with the intended match (see `SameUserIntended`).
    */
    method UpdateFulfilled(payload: Val) returns (ok: bool)
      modifies this`users
      ensures ok <==> old(users).Arr? && !FindIndex(old(users).elems, SameUserIntended(payload)).Throws?
      ensures ok ==> match FindIndex(old(users).elems, SameUserIntended(payload))
        case At(i) => users == Arr(old(users).elems[i := payload])
        case _ => users == old(users)
      ensures !ok ==> users == old(users)
    {
      if !users.Arr? {
        return false;
      }
      var found := FindIndex(users.elems, SameUserIntended(payload));
      if found.Throws? {
        return false;
      }
      if found.At? {
        users := Arr(users.elems[found.index := payload]);
      }
      ok := true;
    }

    /** Delete: keep the users whose `id` and `_id` both differ from the key. */
    method DeleteFulfilled(id: Val) returns (ok: bool)
      modifies this`users
      ensures ok <==> old(users).Arr? && Remove(old(users).elems, UserKey(id)).Some?
      ensures ok ==> users == Arr(Remove(old(users).elems, UserKey(id)).value)
      ensures !ok ==> users == old(users)
    {
      if !users.Arr? {
        return false;
      }
      var kept := Remove(users.elems, UserKey(id));
      if kept.None? {
        return false;
      }
      users := Arr(kept.value);
      ok := true;
    }
  }

  /**
    Records without `_id`: an updated record that has an `id` no user shares
    still matches the first user, because `undefined === undefined`.
  */
  lemma UpdateHitsFirstUserWithoutUnderscoreId()
    ensures var a := Obj(map["id" := Num(1.0)]);
      var b := Obj(map["id" := Num(2.0)]);
      var payload := Obj(map["id" := Num(3.0)]);
      FindIndex([a, b], SameUser(payload)) == At(0)
  {
  }

  /**
    An update for a listed user who is not first: as written the first user
    matches through `undefined === undefined` and is overwritten; the
    intended match finds the right user.
  */
  lemma UpdateKnownUserHitsFirst()
    ensures var a := Obj(map["id" := Num(1.0)]);
      var b := Obj(map["id" := Num(2.0)]);
      var payload := Obj(map["id" := Num(2.0)]);
      FindIndex([a, b], SameUser(payload)) == At(0)
      && FindIndex([a, b], SameUserIntended(payload)) == At(1)
  {
  }

  /** On the same records the intended match finds no user, and the update changes nothing. */
  lemma UpdateIntendedMissesUnknownUser()
    ensures var a := Obj(map["id" := Num(1.0)]);
      var b := Obj(map["id" := Num(2.0)]);
      var payload := Obj(map["id" := Num(3.0)]);
      FindIndex([a, b], SameUserIntended(payload)) == Absent
  {
  }
}

/** `prescriptionSlice.js`: the prescription requests, updated by `id`. */
module PrescriptionSlice {
  import opened Js
  import opened ListOps

  class Prescriptions {
    var items: Val
    var loading: bool
    var error: Val

    constructor ()
      ensures items == Arr([]) && !loading && error == Null
    {
      items := Arr([]);
      loading := false;
      error := Null;
    }

    method Pending()
      modifies this
      ensures loading && error == Null && items == old(items)
    {
      loading := true;
      error := Null;
    }

    method Rejected(payload: Val)
      modifies this
      ensures !loading && error == payload && items == old(items)
    {
      loading := false;
      error := payload;
    }

    method FetchFulfilled(payload: Val)
      modifies this
      ensures !loading && items == payload && error == old(error)
    {
      loading := false;
      items := payload;
    }

    /** Update: every request with the payload's id is replaced by the payload; length and order stay. */
    method UpdateFulfilled(payload: Val) returns (ok: bool)
      modifies this
      ensures var m := Field("id", PropOf(payload, "id"));
        ok <==> old(items).Arr? && Substitute(old(items).elems, m, payload).Some?
      ensures var m := Field("id", PropOf(payload, "id"));
        ok ==> items == Arr(Substitute(old(items).elems, m, payload).value) && !loading && error == old(error)
      ensures !ok ==> items == old(items) && loading == old(loading) && error == old(error)
    {
      if !items.Arr? {
        return false;
      }
      var mapped := Substitute(items.elems, Field("id", PropOf(payload, "id")), payload);
      if mapped.None? {
        return false;
      }
      loading := false;
      items := Arr(mapped.value);
      ok := true;
    }
  }
}

/** `appoinmentSlice.js`: the appointments, a page or a plain array. */
module AppointmentSlice {
  import opened Js
  import opened ListOps

  class Appointments {
    var appointments: Val
    var loading: bool
    var error: Val

    constructor ()
      ensures appointments == Arr([]) && !loading && error == Null
    {
      appointments := Arr([]);
      loading := false;
      error := Null;
    }

    method Reset()
      modifies this
      ensures appointments == Arr([]) && !loading && error == Null
    {
      appointments := Arr([]);
      error := Null;
      loading := false;
    }

    method Pending()
      modifies this
      ensures loading && error == Null && appointments == old(appointments)
    {
      loading := true;
      error := Null;
    }

    method Rejected(payload: Val)
      modifies this
      ensures !loading && error == payload && appointments == old(appointments)
    {
      loading := false;
      error := payload;
    }

    method FetchFulfilled(payload: Val)
      modifies this
      ensures !loading && appointments == payload && error == old(error)
    {
      loading := false;
      appointments := payload;
    }

    /** Book: push onto `results` when the state is a page, else onto the array itself. */
    method BookFulfilled(payload: Val) returns (ok: bool)
      modifies this
      ensures var results := Get(old(appointments), "results");
        ok <==> Readable(old(appointments)) && (if Truthy(results) then results.Arr? else old(appointments).Arr?)
      ensures var results := Get(old(appointments), "results");
        ok ==>
          !loading && error == old(error)
          && (Truthy(results) ==> appointments == SetField(old(appointments), "results", Arr(results.elems + [payload])))
          && (!Truthy(results) ==> appointments == Arr(old(appointments).elems + [payload]))
      ensures !ok ==> appointments == old(appointments) && loading == old(loading) && error == old(error)
    {
      if !Readable(appointments) {
        return false;
      }
      var results := Get(appointments, "results");
      if Truthy(results) {
        if !results.Arr? {
          return false;
        }
        appointments := SetField(appointments, "results", Arr(results.elems + [payload]));
      } else {
        if !appointments.Arr? {
          return false;
        }
        appointments := Arr(appointments.elems + [payload]);
      }
      loading := false;
      ok := true;
    }
  }
}
