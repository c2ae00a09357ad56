/** The dataset store of the DatasetManager component: an ordered list of
    comparison items that the user grows by adding one pair at a time or by
    importing a parsed file, and shrinks by removing items by id. */
module DatasetStore {
  import opened Common

  /** One comparison pair. `id` is `Date.now().toString()` and `created` the
      creation time; both come from the clock and are parameters here. */
  datatype DatasetItem = DatasetItem(
    id: string,
    prompt: string,
    responseA: string,
    responseB: string,
    preference: Option<Preference>,
    reasoning: Option<string>,
    created: int)

  /** The preference of each item, in order. */
  function PreferencesOf(ds: seq<DatasetItem>): (prefs: seq<Option<Preference>>)
    ensures |prefs| == |ds|
    ensures forall i :: 0 <= i < |ds| ==> prefs[i] == ds[i].preference
  {
    seq(|ds|, i requires 0 <= i < |ds| => ds[i].preference)
  }

  /** `totalCount`. */
  function TotalCount(ds: seq<DatasetItem>): (n: nat)
    ensures n == 0 <==> ds == []
    ensures AnnotatedCount(PreferencesOf(ds)) <= n
  {
    |ds|
  }

  /** `annotatedCount`: the number of items that carry a preference. */
  function AnnotatedItems(ds: seq<DatasetItem>): (n: nat)
    ensures n <= TotalCount(ds)
    ensures n == 0 <== forall i :: 0 <= i < |ds| ==> ds[i].preference.None?
    ensures n == TotalCount(ds) <== forall i :: 0 <= i < |ds| ==> ds[i].preference.Some?
  {
    AllOrNone(PreferencesOf(ds));
    AnnotatedCount(PreferencesOf(ds))
  }

  lemma {:induction false} AllOrNone(prefs: seq<Option<Preference>>)
    ensures (forall i :: 0 <= i < |prefs| ==> prefs[i].None?) ==> AnnotatedCount(prefs) == 0
    ensures (forall i :: 0 <= i < |prefs| ==> prefs[i].Some?) ==> AnnotatedCount(prefs) == |prefs|
  {
    if prefs != [] {
      AllOrNone(prefs[1..]);
    }
  }

  /** The check behind "Missing Information": every field must keep some
      character after `trim`. */
  function CanAdd(prompt: string, responseA: string, responseB: string): (ok: bool)
    ensures ok <==> !AllWhiteSpace(prompt) && !AllWhiteSpace(responseA) && !AllWhiteSpace(responseB)
  {
    TrimEmptyIff(prompt);
    TrimEmptyIff(responseA);
    TrimEmptyIff(responseB);
    Trim(prompt) != [] && Trim(responseA) != [] && Trim(responseB) != []
  }

  /** The item `addDataPoint` builds: trimmed texts, no preference, no reasoning. */
  function NewItem(id: string, prompt: string, responseA: string, responseB: string, created: int): (item: DatasetItem)
    requires CanAdd(prompt, responseA, responseB)
    ensures item.id == id && item.created == created
    ensures item.preference.None? && item.reasoning.None?
  {
    DatasetItem(id, Trim(prompt), Trim(responseA), Trim(responseB), None, None, created)
  }

  /** The texts of an added item are non-empty and already trimmed: neither
      end of any of them is white space. */
  lemma NewItemIsTrimmed(id: string, prompt: string, responseA: string, responseB: string, created: int)
    requires CanAdd(prompt, responseA, responseB)
    ensures var item := NewItem(id, prompt, responseA, responseB, created);
      && item.prompt != [] && item.responseA != [] && item.responseB != []
      && Trim(item.prompt) == item.prompt && Trim(item.responseA) == item.responseA
      && Trim(item.responseB) == item.responseB
  {
    TrimIdempotent(prompt);
    TrimIdempotent(responseA);
    TrimIdempotent(responseB);
  }

  /** `dataset.filter(item => item.id !== id)`: the items whose id differs,
      nothing else. */
  function RemoveById(ds: seq<DatasetItem>, id: string): (r: seq<DatasetItem>)
    ensures |r| <= |ds|
    ensures forall x :: x in r <==> x in ds && x.id != id
  {
    if ds == [] then []
    else
      var rest := RemoveById(ds[1..], id);
      if ds[0].id != id then [ds[0]] + rest else rest
  }

  /** Number of items carrying a given id. */
  function CountId(ds: seq<DatasetItem>, id: string): nat {
    if ds == [] then 0 else (if ds[0].id == id then 1 else 0) + CountId(ds[1..], id)
  }

  /** Removing works item by item, so the survivors keep their relative order:
      removing from a concatenation removes from each part. */
  lemma {:induction false} RemoveByIdAppend(a: seq<DatasetItem>, b: seq<DatasetItem>, id: string)
    ensures RemoveById(a + b, id) == RemoveById(a, id) + RemoveById(b, id)
  {
    if a == [] {
      assert a + b == b;
    } else {
      assert (a + b)[1..] == a[1..] + b;
      RemoveByIdAppend(a[1..], b, id);
    }
  }

  /** Every item with the id goes, not only the first: the length drops by the
      number of items carrying it. */
  lemma {:induction false} RemoveByIdLength(ds: seq<DatasetItem>, id: string)
    ensures |RemoveById(ds, id)| == |ds| - CountId(ds, id)
    ensures CountId(RemoveById(ds, id), id) == 0
  {
    if ds != [] {
      RemoveByIdLength(ds[1..], id);
      if ds[0].id != id {
        assert ([ds[0]] + RemoveById(ds[1..], id))[1..] == RemoveById(ds[1..], id);
      }
    }
  }

  /** Removing an id that no item carries is a no-op, not an error. */
  lemma {:induction false} RemoveAbsentId(ds: seq<DatasetItem>, id: string)
    requires forall i :: 0 <= i < |ds| ==> ds[i].id != id
    ensures RemoveById(ds, id) == ds
  {
    if ds != [] {
      RemoveAbsentId(ds[1..], id);
      assert [ds[0]] + ds[1..] == ds;
    }
  }

  /** Removing the same id twice is the same as removing it once. */
  lemma RemoveByIdIdempotent(ds: seq<DatasetItem>, id: string)
    ensures RemoveById(RemoveById(ds, id), id) == RemoveById(ds, id)
  {
    var r := RemoveById(ds, id);
    forall i | 0 <= i < |r| ensures r[i].id != id {
      assert r[i] in r;
    }
    RemoveAbsentId(r, id);
  }

  /** `setDataset([...dataset, ...importedData])` after `JSON.parse`; a parse
      failure (`None`) is caught and leaves the dataset as it was. */
  function MergeImport(ds: seq<DatasetItem>, parsed: Option<seq<DatasetItem>>): (r: seq<DatasetItem>)
    ensures parsed.None? ==> r == ds
    ensures parsed.Some? ==> |r| == |ds| + |parsed.value| && r[..|ds|] == ds && r[|ds|..] == parsed.value
  {
    match parsed
    case None => ds
    case Some(items) => ds + items
  }

  /** Ids are unique within the list. */
  predicate UniqueIds(ds: seq<DatasetItem>) {
    forall i, j :: 0 <= i < j < |ds| ==> ds[i].id != ds[j].id
  }

  /** Import does not reconcile ids: importing a non-empty list into a store
      that already holds it produces duplicate ids. */
  lemma ImportDoesNotReconcileIds(ds: seq<DatasetItem>)
    requires ds != []
    ensures !UniqueIds(MergeImport(ds, Some(ds)))
  {
    var r := MergeImport(ds, Some(ds));
    assert r[0] == r[|ds|];
  }

  /** Import adds the imported items to both counts, and importing into an
      empty store gives back exactly the parsed list. */
  lemma {:induction false} ImportCounts(ds: seq<DatasetItem>, items: seq<DatasetItem>)
    ensures TotalCount(MergeImport(ds, Some(items))) == TotalCount(ds) + TotalCount(items)
    ensures AnnotatedItems(MergeImport(ds, Some(items))) == AnnotatedItems(ds) + AnnotatedItems(items)
    ensures MergeImport([], Some(items)) == items
  {
    var merged := ds + items;
    assert MergeImport(ds, Some(items)) == merged;
    var p, q := PreferencesOf(ds), PreferencesOf(items);
    assert PreferencesOf(merged) == p + q by {
      forall i | 0 <= i < |merged| ensures PreferencesOf(merged)[i] == (p + q)[i] {
        if i < |ds| { assert merged[i] == ds[i]; } else { assert merged[i] == items[i - |ds|]; }
      }
    }
    AnnotatedCountAppend(p, q);
    assert [] + items == items;
  }

  /** A successful add grows the total by one and leaves the annotated count
      as it was: the new item has no preference. */
  lemma {:induction false} AddCounts(ds: seq<DatasetItem>, item: DatasetItem)
    requires item.preference.None?
    ensures TotalCount(ds + [item]) == TotalCount(ds) + 1
    ensures AnnotatedItems(ds + [item]) == AnnotatedItems(ds)
  {
    var none: seq<Option<Preference>> := [None];
    assert PreferencesOf(ds + [item]) == PreferencesOf(ds) + none;
    AnnotatedCountAppend(PreferencesOf(ds), none);
    assert AnnotatedCount(none) == 0 by {
      assert none[1..] == [];
    }
  }

  /** The DatasetManager component's state: the dataset and the three text
      inputs of the "Add New Comparison Pair" form. */
  class DatasetManager {
    var dataset: seq<DatasetItem>
    var newPrompt: string
    var newResponseA: string
    var newResponseB: string

    constructor ()
      ensures dataset == [] && newPrompt == "" && newResponseA == "" && newResponseB == ""
    {
      dataset, newPrompt, newResponseA, newResponseB := [], "", "", "";
    }

    /** The prompt textarea's `onChange`. */
    method SetNewPrompt(value: string)
      modifies this`newPrompt
      ensures newPrompt == value
    {
      newPrompt := value;
    }

    /** The "Response A" textarea's `onChange`. */
    method SetNewResponseA(value: string)
      modifies this`newResponseA
      ensures newResponseA == value
    {
      newResponseA := value;
    }

    /** The "Response B" textarea's `onChange`. */
    method SetNewResponseB(value: string)
      modifies this`newResponseB
      ensures newResponseB == value
    {
      newResponseB := value;
    }

    /** `addDataPoint`, with the clock's id and timestamp as parameters.
        `added` is false where the component shows "Missing Information". */
    method AddDataPoint(id: string, created: int) returns (added: bool)
      modifies this
      ensures added <==> CanAdd(old(newPrompt), old(newResponseA), old(newResponseB))
      ensures !added ==> unchanged(this)
      ensures added ==>
        && dataset == old(dataset) + [NewItem(id, old(newPrompt), old(newResponseA), old(newResponseB), created)]
        && newPrompt == "" && newResponseA == "" && newResponseB == ""
    {
      added := CanAdd(newPrompt, newResponseA, newResponseB);
      if added {
        var item := NewItem(id, newPrompt, newResponseA, newResponseB, created);
        dataset := dataset + [item];
        newPrompt, newResponseA, newResponseB := "", "", "";
      }
    }

    /** `removeDataPoint`. */
    method RemoveDataPoint(id: string)
      modifies this`dataset
      ensures dataset == RemoveById(old(dataset), id)
    {
      dataset := RemoveById(dataset, id);
    }

    /** The merge step of `importDataset`, once a file was chosen; `parsed` is
        the list of items the file holds, or `None` when `JSON.parse` or the
        spread throws. `imported` is false exactly where "Import Error" shows. */
    method ImportDataset(parsed: Option<seq<DatasetItem>>) returns (imported: bool)
      modifies this`dataset
      ensures imported <==> parsed.Some?
      ensures dataset == MergeImport(old(dataset), parsed)
    {
      dataset := MergeImport(dataset, parsed);
      imported := parsed.Some?;
    }
  }
}
