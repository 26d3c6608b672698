/** The dashboard's category table: edit in place, delete, and a guarded
    append whose new id is one more than the largest parsed id, or 1 when
    no parsed id is positive. */
module Categories {
  import opened Options
  import opened Decimal
  import opened Text
  import opened Seqs

  datatype Category = Category(id: string, name: string, count: nat, icon: string)

  /** The `{ name, icon }` pair held by the edit inputs and the add inputs. */
  datatype Draft = Draft(name: string, icon: string)

  const EmptyDraft := Draft("", "")

  const InitialCategories: seq<Category> := [
    Category("1", "Gaming", 12, "\U{1F3AE}"),
    Category("2", "Music", 8, "\U{1F3B5}"),
    Category("3", "Education", 15, "\U{1F4DA}"),
    Category("4", "Vlogs", 6, "\U{1F4F9}"),
    Category("5", "Technology", 10, "\U{1F4BB}")
  ]

  // ---------------------------------------------------------------------------
  // The replacement lists
  // ---------------------------------------------------------------------------

  /** `categories.map(c => c.id === id ? { ...c, name, icon } : c)`. */
  function SavedEdit(cats: seq<Category>, id: string, value: Draft): (r: seq<Category>)
    ensures |r| == |cats|
    ensures forall i :: 0 <= i < |cats| ==> r[i].id == cats[i].id && r[i].count == cats[i].count
    ensures forall i :: 0 <= i < |cats| && cats[i].id == id ==> r[i].name == value.name && r[i].icon == value.icon
    ensures forall i :: 0 <= i < |cats| && cats[i].id != id ==> r[i] == cats[i]
  {
    if cats == [] then []
    else
      var head := if cats[0].id == id then cats[0].(name := value.name, icon := value.icon) else cats[0];
      [head] + SavedEdit(cats[1..], id, value)
  }

  function IdIsNot(id: string): Category -> bool {
    (c: Category) => c.id != id
  }

  /** `categories.filter(c => c.id !== id)`. */
  function WithoutId(cats: seq<Category>, id: string): seq<Category> {
    Filter(IdIsNot(id), cats)
  }

  /** Delete removes every entry with the id, keeps the others in order, and
      leaves the list alone when the id is absent. */
  lemma DeleteSpec(cats: seq<Category>, id: string, c: Category)
    ensures IsSubsequence(WithoutId(cats, id), cats)
    ensures multiset(WithoutId(cats, id))[c] == if c.id == id then 0 else multiset(cats)[c]
    ensures (forall i :: 0 <= i < |cats| ==> cats[i].id != id) ==> WithoutId(cats, id) == cats
  {
    FilterIsSubsequence(IdIsNot(id), cats);
    FilterCount(IdIsNot(id), cats, c);
    if forall i :: 0 <= i < |cats| ==> cats[i].id != id {
      FilterKeepsAll(IdIsNot(id), cats);
    }
  }

  /** Every id parses to a positive number and no two parse to the same one. */
  predicate UniqueNumericIds(cats: seq<Category>) {
    && (forall i :: 0 <= i < |cats| ==> ParseInt(cats[i].id).Some? && ParseInt(cats[i].id).value >= 1)
    && (forall i, j :: 0 <= i < j < |cats| ==> ParseInt(cats[i].id) != ParseInt(cats[j].id))
  }

  lemma InitialIdsUnique()
    ensures UniqueNumericIds(InitialCategories)
  {
    forall k: nat | 1 <= k <= 5
      ensures ParseInt(NatToString(k)) == Some(k)
    {
      ParseIntToString(k);
    }
    assert forall i :: 0 <= i < 5 ==> InitialCategories[i].id == NatToString(i + 1);
  }

  lemma SavedEditKeepsIds(cats: seq<Category>, id: string, value: Draft)
    requires UniqueNumericIds(cats)
    ensures UniqueNumericIds(SavedEdit(cats, id, value))
  {
  }

  lemma {:induction false} DeleteKeepsIds(cats: seq<Category>, id: string)
    requires UniqueNumericIds(cats)
    ensures UniqueNumericIds(WithoutId(cats, id))
    decreases |cats|
  {
    if cats != [] {
      var rest := WithoutId(cats[1..], id);
      DeleteKeepsIds(cats[1..], id);
      assert forall c :: c in rest ==> c in cats[1..];
      if cats[0].id != id {
        assert WithoutId(cats, id) == [cats[0]] + rest;
        forall j | 0 <= j < |rest|
          ensures ParseInt(cats[0].id) != ParseInt(rest[j].id)
        {
          assert rest[j] in cats[1..];
        }
      }
    }
  }

  // ---------------------------------------------------------------------------
  // The new id
  // ---------------------------------------------------------------------------

  /** The largest parsed id, or 0 if no parsed id is positive. */
  function MaxIdValue(cats: seq<Category>): (m: int)
    ensures m >= 0
    ensures forall i :: 0 <= i < |cats| && ParseInt(cats[i].id).Some? ==> ParseInt(cats[i].id).value <= m
    ensures cats != [] && UniqueNumericIds(cats) ==> exists i :: 0 <= i < |cats| && ParseInt(cats[i].id) == Some(m)
  {
    if cats == [] then 0
    else
      var rest := MaxIdValue(cats[1..]);
      var head := ParseInt(cats[0].id);
      if head.Some? && head.value > rest then head.value else rest
  }

  /** The id a successful add gives the new entry: one more than the largest
      parsed id, or "1" if no parsed id is positive. */
  function NextId(cats: seq<Category>): string {
    NatToString(MaxIdValue(cats) + 1)
  }

  /** The new id differs from every id in the list, numeric or not. */
  lemma NextIdFresh(cats: seq<Category>)
    ensures ParseInt(NextId(cats)) == Some(MaxIdValue(cats) + 1)
    ensures forall i :: 0 <= i < |cats| ==> NextId(cats) != cats[i].id
  {
    ParseIntToString(MaxIdValue(cats) + 1);
  }

  /** The guard of the add button and of `handleAddCategory`. */
  predicate CanAdd(draft: Draft) {
    Trim(draft.name) != "" && Trim(draft.icon) != ""
  }

  /** `[...categories, { id: newId, name, count: 0, icon }]`. */
  function Appended(cats: seq<Category>, draft: Draft): seq<Category> {
    cats + [Category(NextId(cats), draft.name, 0, draft.icon)]
  }

  /** A successful add appends one entry, with a fresh id, count 0 and the
      untrimmed name and icon, after the unchanged old entries; the ids stay
      unique. */
  lemma AppendedSpec(cats: seq<Category>, draft: Draft)
    ensures |Appended(cats, draft)| == |cats| + 1
    ensures Appended(cats, draft)[..|cats|] == cats
    ensures var added := Appended(cats, draft)[|cats|];
      added.name == draft.name && added.icon == draft.icon && added.count == 0
      && forall i :: 0 <= i < |cats| ==> added.id != cats[i].id
    ensures UniqueNumericIds(cats) ==> UniqueNumericIds(Appended(cats, draft))
  {
    NextIdFresh(cats);
  }

  // ---------------------------------------------------------------------------
  // `Math.max(...ids.map(parseInt)) + 1` as written
  // ---------------------------------------------------------------------------

  /** The JavaScript numbers the id computation can produce. */
  datatype JsNumber = Finite(value: int) | NegativeInfinity | NaN

  /** `Math.max(...xs)`: `-Infinity` for no arguments, `NaN` if any is `NaN`. */
  function MathMax(xs: seq<Option<int>>): (r: JsNumber)
    ensures xs == [] <==> r == NegativeInfinity
    ensures (exists i :: 0 <= i < |xs| && xs[i].None?) <==> r == NaN
  {
    if xs == [] then NegativeInfinity
    else
      var rest := MathMax(xs[1..]);
      assert forall i :: 1 <= i < |xs| ==> xs[i] == xs[1..][i - 1];
      match xs[0]
      case None => NaN
      case Some(v) =>
        match rest
        case NaN => NaN
        case NegativeInfinity => Finite(v)
        case Finite(w) => Finite(if v > w then v else w)
  }

  function PlusOne(n: JsNumber): JsNumber {
    match n
    case Finite(v) => Finite(v + 1)
    case NegativeInfinity => NegativeInfinity
    case NaN => NaN
  }

  /** `Number.prototype.toString()`. */
  function NumberToString(n: JsNumber): string {
    match n
    case Finite(v) => IntToString(v)
    case NegativeInfinity => "-Infinity"
    case NaN => "NaN"
  }

  function ParsedIds(cats: seq<Category>): (r: seq<Option<int>>)
    ensures |r| == |cats| && forall i :: 0 <= i < |cats| ==> r[i] == ParseInt(cats[i].id)
  {
    seq(|cats|, i requires 0 <= i < |cats| => ParseInt(cats[i].id))
  }

  /** The id as the page computes it. */
  function NextIdAsWritten(cats: seq<Category>): string {
    NumberToString(PlusOne(MathMax(ParsedIds(cats))))
  }

  function AppendedAsWritten(cats: seq<Category>, draft: Draft): seq<Category> {
    cats + [Category(NextIdAsWritten(cats), draft.name, 0, draft.icon)]
  }

  lemma {:induction false} MathMaxOfIds(cats: seq<Category>)
    requires cats != [] && UniqueNumericIds(cats)
    ensures MathMax(ParsedIds(cats)) == Finite(MaxIdValue(cats))
    decreases |cats|
  {
    var xs := ParsedIds(cats);
    assert xs[1..] == ParsedIds(cats[1..]);
    if |cats| > 1 {
      MathMaxOfIds(cats[1..]);
    }
  }

  /** On a non-empty table of distinct positive ids the page's id and `NextId`
      agree. */
  lemma NextIdAgrees(cats: seq<Category>)
    requires cats != [] && UniqueNumericIds(cats)
    ensures NextIdAsWritten(cats) == NextId(cats)
  {
    MathMaxOfIds(cats);
  }

  /** After every category is deleted, three adds give the ids "-Infinity",
      "NaN" and "NaN": two entries share an id. */
  lemma DuplicateIdsAfterClearing(draft: Draft)
    ensures var t := AppendedAsWritten(AppendedAsWritten(AppendedAsWritten([], draft), draft), draft);
      |t| == 3 && t[0].id == "-Infinity" && t[1].id == "NaN" && t[2].id == "NaN"
  {
    var t1 := AppendedAsWritten([], draft);
    assert ParsedIds([]) == [];
    assert t1[0].id == "-Infinity";
    assert ParseInt("-Infinity") == None;
    var t2 := AppendedAsWritten(t1, draft);
    assert ParsedIds(t1)[0].None?;
    assert t2[1].id == "NaN";
    assert ParsedIds(t2)[1].None?;
  }

  // ---------------------------------------------------------------------------
  // The component state
  // ---------------------------------------------------------------------------

  class CategoryManager {
    var categories: seq<Category>
    var editingId: Option<string>
    var editValue: Draft
    var newCategory: Draft

    ghost predicate Valid()
      reads this
    {
      UniqueNumericIds(categories)
    }

    constructor ()
      ensures Valid()
      ensures categories == InitialCategories && editingId == None
      ensures editValue == EmptyDraft && newCategory == EmptyDraft
    {
      categories := InitialCategories;
      editingId := None;
      editValue := EmptyDraft;
      newCategory := EmptyDraft;
      InitialIdsUnique();
    }

    /** `handleEdit`: open the row for editing with its current name and icon. */
    method Edit(id: string, name: string, icon: string)
      requires Valid()
      modifies this
      ensures Valid()
      ensures editingId == Some(id) && editValue == Draft(name, icon)
      ensures categories == old(categories) && newCategory == old(newCategory)
    {
      editingId := Some(id);
      editValue := Draft(name, icon);
    }

    /** The edit inputs' `onChange`: replace one half of `editValue`. */
    method SetEditName(name: string)
      modifies this`editValue
      ensures editValue == old(editValue).(name := name)
    {
      editValue := editValue.(name := name);
    }

    method SetEditIcon(icon: string)
      modifies this`editValue
      ensures editValue == old(editValue).(icon := icon)
    {
      editValue := editValue.(icon := icon);
    }

    /** `handleSaveEdit`: write `editValue` into the entries with the id and
        leave edit mode. */
    method SaveEdit(id: string)
      requires Valid()
      modifies this
      ensures Valid()
      ensures categories == SavedEdit(old(categories), id, old(editValue))
      ensures editingId == None
      ensures editValue == old(editValue) && newCategory == old(newCategory)
    {
      SavedEditKeepsIds(categories, id, editValue);
      categories := SavedEdit(categories, id, editValue);
      editingId := None;
    }

    /** `handleCancelEdit`. */
    method CancelEdit()
      modifies this`editingId
      ensures editingId == None
    {
      editingId := None;
    }

    /** `handleDelete`. */
    method Delete(id: string)
      requires Valid()
      modifies this`categories
      ensures Valid()
      ensures categories == WithoutId(old(categories), id)
    {
      DeleteKeepsIds(categories, id);
      categories := WithoutId(categories, id);
    }

    /** The add inputs' `onChange`. */
    method SetNewName(name: string)
      modifies this`newCategory
      ensures newCategory == old(newCategory).(name := name)
    {
      newCategory := newCategory.(name := name);
    }

    method SetNewIcon(icon: string)
      modifies this`newCategory
      ensures newCategory == old(newCategory).(icon := icon)
    {
      newCategory := newCategory.(icon := icon);
    }

    /** `handleAddCategory`: append the new entry and clear the inputs when both
        trimmed inputs are non-empty; otherwise change nothing. */
    method AddCategory()
      requires Valid()
      modifies this`categories, this`newCategory
      ensures Valid()
      ensures CanAdd(old(newCategory)) ==>
        categories == Appended(old(categories), old(newCategory)) && newCategory == EmptyDraft
      ensures !CanAdd(old(newCategory)) ==>
        categories == old(categories) && newCategory == old(newCategory)
    {
      if CanAdd(newCategory) {
        AppendedSpec(categories, newCategory);
        categories := Appended(categories, newCategory);
        newCategory := EmptyDraft;
      }
    }
  }
}
