/**
  The admin category page (`AllCategories.jsx`): the slug derived from the
  name, the checks made before a category is submitted, the split of the list
  into main categories and subcategories, the options of the parent picker,
  and the selector that reads the list out of the store.
*/
module CategoryPage {
  import opened Wrappers
  import opened Text
  import opened Js

  // ---------------------------------------------------------------------------
  // makeSlug
  // ---------------------------------------------------------------------------

  /** Characters a slug may hold. */
  predicate SlugChars(t: string) {
    forall i :: 0 <= i < |t| ==> IsLowerAlnum(t[i]) || t[i] == '-'
  }

  predicate NoDoubleDash(t: string) {
    forall i :: 0 <= i < |t| - 1 ==> !(t[i] == '-' && t[i + 1] == '-')
  }

  /** A well-formed slug: lower-case letters and digits, single dashes, none at either end. */
  predicate IsSlug(t: string) {
    SlugChars(t) && NoDoubleDash(t) && (t != [] ==> t[0] != '-' && t[|t| - 1] != '-')
  }

  /**
    `replace(/[^a-z0-9]+/g, "-")`: every maximal run of other characters
    becomes one "-".  `inRun` says that the previous character already started
    a run, so the rest of it adds nothing.
  */
  function Collapse(s: string, inRun: bool): (r: string)
    ensures SlugChars(r) && NoDoubleDash(r)
    ensures inRun && r != [] ==> r[0] != '-'
    ensures |r| <= |s|
  {
    if s == [] then []
    else if IsLowerAlnum(s[0]) then [s[0]] + Collapse(s[1..], false)
    else if inRun then Collapse(s[1..], true)
    else "-" + Collapse(s[1..], true)
  }

  /** `replace(/(^-|-$)+/g, "")`: a dash at the start and a dash at the end are removed. */
  function StripDashes(t: string): (r: string)
    ensures SlugChars(t) && NoDoubleDash(t) ==> IsSlug(r)
  {
    var a := if t != [] && t[0] == '-' then t[1..] else t;
    if a != [] && a[|a| - 1] == '-' then a[..|a| - 1] else a
  }

  /** `makeSlug(str)`: lower-case, collapse, strip. */
  function MakeSlug(s: string): (r: string)
    ensures IsSlug(r)
  {
    StripDashes(Collapse(Lower(s), false))
  }

  /** Collapsing leaves a string alone when it already has the slug alphabet and single dashes. */
  lemma {:induction false} CollapseFixes(t: string, inRun: bool)
    requires SlugChars(t) && NoDoubleDash(t)
    requires inRun && t != [] ==> t[0] != '-'
    ensures Collapse(t, inRun) == t
  {
    if t != [] {
      assert SlugChars(t[1..]) && NoDoubleDash(t[1..]);
      if IsLowerAlnum(t[0]) {
        CollapseFixes(t[1..], false);
      } else {
        assert |t| > 1 ==> t[1] != '-';
        CollapseFixes(t[1..], true);
        assert "-" + t[1..] == t;
      }
    }
  }

  /** Slugs are fixed points of `makeSlug`, so editing the name of a slug-shaped name changes nothing. */
  lemma MakeSlugOfSlug(t: string)
    requires IsSlug(t)
    ensures MakeSlug(t) == t
  {
    assert Lower(t) == t;
    CollapseFixes(t, false);
  }

  /** `makeSlug` is idempotent. */
  lemma MakeSlugIdempotent(s: string)
    ensures MakeSlug(MakeSlug(s)) == MakeSlug(s)
  {
    MakeSlugOfSlug(MakeSlug(s));
  }

  predicate IsAsciiAlnum(c: char) {
    ('a' <= c <= 'z') || ('A' <= c <= 'Z') || IsDigit(c)
  }

  /** Without letters or digits, the collapse leaves at most the one dash of the first run. */
  lemma {:induction false} CollapseNoAlnum(s: string, inRun: bool)
    requires forall i :: 0 <= i < |s| ==> !IsLowerAlnum(s[i])
    ensures Collapse(s, inRun) == if s == [] || inRun then [] else "-"
  {
    if s != [] {
      CollapseNoAlnum(s[1..], true);
    }
  }

  /** A name with no ASCII letter or digit gets the empty slug, which the submit check then refuses. */
  lemma MakeSlugNoAlnum(s: string)
    requires forall i :: 0 <= i < |s| ==> !IsAsciiAlnum(s[i])
    ensures MakeSlug(s) == ""
  {
    CollapseNoAlnum(Lower(s), false);
  }

  /** Letters and digits of the name survive, lower-cased and in order. */
  function AlnumOf(s: string): (r: string)
    ensures forall i :: 0 <= i < |r| ==> IsLowerAlnum(r[i])
  {
    if s == [] then [] else (if IsLowerAlnum(s[0]) then [s[0]] else []) + AlnumOf(s[1..])
  }

  lemma {:induction false} CollapseKeepsAlnum(s: string, inRun: bool)
    ensures AlnumOf(Collapse(s, inRun)) == AlnumOf(s)
  {
    if s != [] {
      CollapseKeepsAlnum(s[1..], if IsLowerAlnum(s[0]) then false else true);
      var rest := Collapse(s[1..], !IsLowerAlnum(s[0]));
      if IsLowerAlnum(s[0]) {
        AlnumAppend([s[0]], rest);
      } else if !inRun {
        AlnumAppend("-", rest);
      }
    }
  }

  lemma {:induction false} AlnumAppend(a: string, b: string)
    ensures AlnumOf(a + b) == AlnumOf(a) + AlnumOf(b)
  {
    if a != [] {
      assert (a + b)[1..] == a[1..] + b;
      AlnumAppend(a[1..], b);
    } else {
      assert a + b == b;
    }
  }

  lemma StripKeepsAlnum(t: string)
    ensures AlnumOf(StripDashes(t)) == AlnumOf(t)
  {
    assert AlnumOf("-") == [] by {
      assert "-"[1..] == [];
    }
    var a := if t != [] && t[0] == '-' then t[1..] else t;
    assert AlnumOf(a) == AlnumOf(t) by {
      if t != [] && t[0] == '-' {
        assert t == "-" + t[1..];
        AlnumAppend("-", t[1..]);
      }
    }
    if a != [] && a[|a| - 1] == '-' {
      var b := a[..|a| - 1];
      assert a == b + "-";
      AlnumAppend(b, "-");
      assert StripDashes(t) == b;
    } else {
      assert StripDashes(t) == a;
    }
  }

  /** The slug holds exactly the lower-cased letters and digits of the name, in order, and nothing else but dashes. */
  lemma MakeSlugKeepsAlnum(s: string)
    ensures AlnumOf(MakeSlug(s)) == AlnumOf(Lower(s))
  {
    CollapseKeepsAlnum(Lower(s), false);
    StripKeepsAlnum(Collapse(Lower(s), false));
  }

  // ---------------------------------------------------------------------------
  // Submitting
  // ---------------------------------------------------------------------------

  datatype Refusal = NameRequired | SlugRequired | LoginRequired

  /** The form fields that go into the request; `parent` and the image only when set. */
  datatype CategoryRequest = CategoryRequest(name: string, slug: string, parent: Option<string>, hasImage: bool, isActive: bool)

  /**
    `handleSubmit` up to the request: the name, then the slug, then the token
    must be non-empty, checked in that order.
  */
  function Submit(name: string, slug: string, token: Option<string>, parentId: string, hasImage: bool): (r: Result<CategoryRequest, Refusal>)
    ensures r.Err? <==> name == "" || slug == "" || token.None? || token == Some("")
    ensures name == "" ==> r == Err(NameRequired)
    ensures name != "" && slug == "" ==> r == Err(SlugRequired)
    ensures r.Ok? ==> r.value.name == name && r.value.slug == slug && r.value.isActive
    ensures r.Ok? ==> r.value.hasImage == hasImage && (r.value.parent.Some? <==> parentId != "")
  {
    if name == "" then Err(NameRequired)
    else if slug == "" then Err(SlugRequired)
    else if token.None? || token == Some("") then Err(LoginRequired)
    else Ok(CategoryRequest(name, slug, if parentId != "" then Some(parentId) else None, hasImage, true))
  }

  /** With the slug left to follow the name, a name without letters or digits can never be submitted. */
  lemma AutoSlugRefusesSymbolsOnly(name: string, token: Option<string>, parentId: string, hasImage: bool)
    requires name != "" && forall i :: 0 <= i < |name| ==> !IsAsciiAlnum(name[i])
    ensures Submit(name, MakeSlug(name), token, parentId, hasImage) == Err(SlugRequired)
  {
    MakeSlugNoAlnum(name);
  }

  /** The names `categorySlice.js` exports (lines 9, 24, 40 and 114); there is no `updateCategory`. */
  const CategorySliceExports: set<string> := {"fetchCategories", "addCategory", "removeCategory", "default"}

  /** What `handleSubmit` dispatches once the form is accepted, or the alert of its `catch`. */
  datatype SubmitAction = AddCategory(request: CategoryRequest) | UpdateCategory(id: Val, request: CategoryRequest) | SomethingWentWrong

  /**
    The branch of `handleSubmit` as intended: in edit mode, with the category
    being edited at hand, the update thunk is dispatched for its id; otherwise
    the add thunk.
  */
  function SubmitDispatch(editMode: bool, editing: Option<Category>, req: CategoryRequest): (d: SubmitAction)
    ensures d.UpdateCategory? <==> editMode && editing.Some?
    ensures d.UpdateCategory? ==> d.id == editing.value.id && d.request == req
    ensures !(editMode && editing.Some?) ==> d == AddCategory(req)
  {
    if editMode && editing.Some? then UpdateCategory(editing.value.id, req) else AddCategory(req)
  }

  /**
    The branch as written: `updateCategory` is imported from a module that does
    not export it.  Bound to undefined, calling it throws inside the `try`, and
    the `catch` alerts that something went wrong; the add path is unaffected.
  */
  function SubmitDispatchAsWritten(editMode: bool, editing: Option<Category>, req: CategoryRequest): (d: SubmitAction)
    ensures editMode && editing.Some? ==> d == SomethingWentWrong
    ensures !(editMode && editing.Some?) ==> d == SubmitDispatch(editMode, editing, req)
  {
    if editMode && editing.Some? && "updateCategory" !in CategorySliceExports then SomethingWentWrong
    else SubmitDispatch(editMode, editing, req)
  }

  /** As written, editing a category never reaches the server: every edit ends in the generic alert. */
  lemma EditAsWrittenNeverUpdates(c: Category, req: CategoryRequest)
    ensures "updateCategory" !in CategorySliceExports
    ensures SubmitDispatch(true, Some(c), req) == UpdateCategory(c.id, req)
    ensures SubmitDispatchAsWritten(true, Some(c), req) == SomethingWentWrong
  {
  }

  // ---------------------------------------------------------------------------
  // The category list
  // ---------------------------------------------------------------------------

  /** A category as the server lists it; `parent` is the parent's id or `null`. */
  datatype Category = Category(id: Val, name: Val, slug: Val, parent: Val)

  /** `categories.filter((cat) => !cat.parent)` */
  function MainCategories(cats: seq<Category>): (r: seq<Category>)
    ensures |r| <= |cats|
    ensures forall c :: c in r <==> c in cats && !Truthy(c.parent)
  {
    if cats == [] then [] else (if !Truthy(cats[0].parent) then [cats[0]] else []) + MainCategories(cats[1..])
  }

  /** `MainCategories` keeps the list order: filtering a concatenation is filtering each part. */
  lemma {:induction false} MainCategoriesAppend(a: seq<Category>, b: seq<Category>)
    ensures MainCategories(a + b) == MainCategories(a) + MainCategories(b)
  {
    if a == [] {
      assert a + b == b;
    } else {
      var head, rest := a[0], a[1..];
      assert (a + b)[0] == head && (a + b)[1..] == rest + b;
      MainCategoriesAppend(rest, b);
      var kept := if !Truthy(head.parent) then [head] else [];
      assert MainCategories(a + b) == kept + MainCategories(rest + b);
      assert MainCategories(a) == kept + MainCategories(rest);
      AppendAssoc(kept, MainCategories(rest), MainCategories(b));
    }
  }

  /** A one-element list is kept exactly when its element passes the filter. */
  lemma MainCategoriesOne(x: Category)
    ensures MainCategories([x]) == if !Truthy(x.parent) then [x] else []
  {
    assert [x][1..] == [];
  }

  /** `categories.filter((cat) => cat.parent)` */
  function AllSubcategories(cats: seq<Category>): (r: seq<Category>)
    ensures |r| <= |cats|
    ensures forall c :: c in r <==> c in cats && Truthy(c.parent)
  {
    if cats == [] then [] else (if Truthy(cats[0].parent) then [cats[0]] else []) + AllSubcategories(cats[1..])
  }

  /** `AllSubcategories` keeps the list order: filtering a concatenation is filtering each part. */
  lemma {:induction false} AllSubcategoriesAppend(a: seq<Category>, b: seq<Category>)
    ensures AllSubcategories(a + b) == AllSubcategories(a) + AllSubcategories(b)
  {
    if a == [] {
      assert a + b == b;
    } else {
      var head, rest := a[0], a[1..];
      assert (a + b)[0] == head && (a + b)[1..] == rest + b;
      AllSubcategoriesAppend(rest, b);
      var kept := if Truthy(head.parent) then [head] else [];
      assert AllSubcategories(a + b) == kept + AllSubcategories(rest + b);
      assert AllSubcategories(a) == kept + AllSubcategories(rest);
      AppendAssoc(kept, AllSubcategories(rest), AllSubcategories(b));
    }
  }

  /** A one-element list is kept exactly when its element passes the filter. */
  lemma AllSubcategoriesOne(x: Category)
    ensures AllSubcategories([x]) == if Truthy(x.parent) then [x] else []
  {
    assert [x][1..] == [];
  }

  /** `getSubcategories(parentId)`: those whose parent is strictly equal to the id. */
  function Subcategories(cats: seq<Category>, parentId: Val): (r: seq<Category>)
    ensures |r| <= |cats|
    ensures forall c :: c in r <==> c in cats && StrictEq(c.parent, parentId)
  {
    if cats == [] then [] else (if StrictEq(cats[0].parent, parentId) then [cats[0]] else []) + Subcategories(cats[1..], parentId)
  }

  /** `Subcategories` keeps the list order: filtering a concatenation is filtering each part. */
  lemma {:induction false} SubcategoriesAppend(a: seq<Category>, b: seq<Category>, parentId: Val)
    ensures Subcategories(a + b, parentId) == Subcategories(a, parentId) + Subcategories(b, parentId)
  {
    if a == [] {
      assert a + b == b;
    } else {
      var head, rest := a[0], a[1..];
      assert (a + b)[0] == head && (a + b)[1..] == rest + b;
      SubcategoriesAppend(rest, b, parentId);
      var kept := if StrictEq(head.parent, parentId) then [head] else [];
      assert Subcategories(a + b, parentId) == kept + Subcategories(rest + b, parentId);
      assert Subcategories(a, parentId) == kept + Subcategories(rest, parentId);
      AppendAssoc(kept, Subcategories(rest, parentId), Subcategories(b, parentId));
    }
  }

  /** A one-element list is kept exactly when its element passes the filter. */
  lemma SubcategoriesOne(x: Category, parentId: Val)
    ensures Subcategories([x], parentId) == if StrictEq(x.parent, parentId) then [x] else []
  {
    assert [x][1..] == [];
  }

  /** Every category is counted once: as a main category or as a subcategory. */
  lemma {:induction false} MainAndSubPartition(cats: seq<Category>)
    ensures |MainCategories(cats)| + |AllSubcategories(cats)| == |cats|
  {
    if cats != [] {
      MainAndSubPartition(cats[1..]);
    }
  }

  /** The children of a real category (a truthy id) are all subcategories. */
  lemma ChildrenAreSubcategories(cats: seq<Category>, id: Val)
    requires Truthy(id)
    ensures forall c :: c in Subcategories(cats, id) ==> c in AllSubcategories(cats) && c !in MainCategories(cats)
  {
    forall c | c in Subcategories(cats, id)
      ensures Truthy(c.parent)
    {
      assert StrictEq(c.parent, id);
    }
  }

  /** `{ value: category.id, label: category.name }` */
  function OptionOf(c: Category): (v: Val)
    ensures Get(v, "value") == c.id && Get(v, "label") == c.name
  {
    Obj(map["value" := c.id, "label" := c.name])
  }

  /** `createCategoryList(categories)`: one option per category, pushed in order. */
  method CreateCategoryList(cats: seq<Category>) returns (options: seq<Val>)
    ensures |options| == |cats|
    ensures forall k :: 0 <= k < |cats| ==> Get(options[k], "value") == cats[k].id && Get(options[k], "label") == cats[k].name
  {
    options := [];
    for k := 0 to |cats|
      invariant |options| == k
      invariant forall j :: 0 <= j < k ==> options[j] == OptionOf(cats[j])
    {
      options := options + [OptionOf(cats[k])];
    }
  }

  // ---------------------------------------------------------------------------
  // The selector
  // ---------------------------------------------------------------------------

  /** The page's selector as written: `state.categories?.items?.results || []`. */
  function ListAsWritten(slice: Val): (r: Val)
    ensures !Truthy(Get(Get(slice, "items"), "results")) ==> r == Arr([])
  {
    Or(Get(Get(slice, "items"), "results"), Arr([]))
  }

  /**
    The category slice keeps `items` an array (fetch stores the payload only
    when it is one, and adding resets anything else to []); an array has no
    `results`, so the page as written always shows no categories.
  */
  lemma ListAsWrittenIsEmpty(slice: Val)
    requires IsArray(Get(slice, "items"))
    ensures ListAsWritten(slice) == Arr([])
  {
  }

  /** The selector reading the list the slice keeps: `state.categories.items`, or [] when it is not an array. */
  function List(slice: Val): (r: Val)
    ensures r.Arr?
    ensures IsArray(Get(slice, "items")) ==> r == Get(slice, "items")
  {
    var items := Get(slice, "items");
    if items.Arr? then items else Arr([])
  }

  /** Once categories are fetched, the corrected selector shows all of them. */
  lemma ListShowsFetched(slice: Val, fetched: seq<Val>)
    requires slice.Obj? && "items" in slice.fields && slice.fields["items"] == Arr(fetched)
    ensures List(slice) == Arr(fetched)
    ensures fetched != [] ==> List(slice) != ListAsWritten(slice)
  {
  }
}
