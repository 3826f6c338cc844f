/** First-match lookup by id and the dropdown choice lists over a catalog
    (`model_exists`, `voice_exists` and the loops of `get_models_drop_down`
    and `get_voices_drop_down` in 11labs_example.py). */
module Catalog {
  import opened PyJson

  /** The entry is a dict whose `key` field equals `id` (a string, or None
      when nothing is selected). */
  predicate HasId(e: Json, key: string, id: Json) {
    e.Obj? && key in e.fields && e.fields[key] == id
  }

  /** The entry is a dict with a `key` field that differs from `id`:
      the search passes over it. */
  predicate HasOtherId(e: Json, key: string, id: Json) {
    e.Obj? && key in e.fields && e.fields[key] != id
  }

  /** The search loop over a list of entries: stop at the first entry whose
      `key` equals `id`; an entry that cannot be indexed by `key` raises. */
  function Find(entries: seq<Json>, key: string, id: Json): Outcome<Option<Json>>
    decreases |entries|
  {
    if entries == [] then Returned(None)
    else
      match Subscript(entries[0], key)
      case Raised(e) => Raised(e)
      case Returned(v) =>
        if v == id then Returned(Some(entries[0])) else Find(entries[1..], key, id)
  }

  /** `model_exists(id, returnit)` / `voice_exists(id, returnit)` on the
      catalog `catalog`, with `key` the id field: the matching entry (or True
      when `returnit` is false), False when nothing matches. */
  function Lookup(catalog: Json, key: string, id: Json, returnit: bool): Outcome<Json> {
    match Items(catalog)
    case Raised(e) => Raised(e)
    case Returned(entries) =>
      match Find(entries, key, id)
      case Raised(e) => Raised(e)
      case Returned(None) => Returned(Bool(false))
      case Returned(Some(e)) => Returned(if returnit then e else Bool(true))
  }

  /** Entries that carry a different id are passed over. */
  lemma {:induction false} FindSkips(entries: seq<Json>, key: string, id: Json, k: nat)
    requires k <= |entries|
    requires forall j :: 0 <= j < k ==> HasOtherId(entries[j], key, id)
    ensures Find(entries, key, id) == Find(entries[k..], key, id)
  {
    if k > 0 {
      FindSkips(entries[1..], key, id, k - 1);
      assert entries[1..][k - 1..] == entries[k..];
    }
  }

  /** The search returns the first entry, in list order, that carries `id`. */
  lemma FindFirstMatch(entries: seq<Json>, key: string, id: Json, k: nat)
    requires k < |entries| && HasId(entries[k], key, id)
    requires forall j :: 0 <= j < k ==> HasOtherId(entries[j], key, id)
    ensures Find(entries, key, id) == Returned(Some(entries[k]))
  {
    FindSkips(entries, key, id, k);
  }

  /** When every entry carries another id the search reports no match. */
  lemma FindNoMatch(entries: seq<Json>, key: string, id: Json)
    requires forall j :: 0 <= j < |entries| ==> HasOtherId(entries[j], key, id)
    ensures Find(entries, key, id) == Returned(None)
  {
    FindSkips(entries, key, id, |entries|);
  }

  /** An entry reached before any match that is not a dict, or lacks the id
      field, makes the search raise (TypeError, resp. KeyError). */
  lemma FindMalformed(entries: seq<Json>, key: string, id: Json, k: nat)
    requires k < |entries| && !(entries[k].Obj? && key in entries[k].fields)
    requires forall j :: 0 <= j < k ==> HasOtherId(entries[j], key, id)
    ensures Find(entries, key, id) == Raised(if entries[k].Obj? then KeyError(Str(key)) else TypeError)
  {
    FindSkips(entries, key, id, k);
  }

  /** Conversely, every answer of the search is explained by the entries:
      a returned entry is the first one carrying `id`, "no match" means every
      entry carries another id, and an exception comes from the first entry
      that is not a dict with the id field. */
  lemma {:induction false} FindSound(entries: seq<Json>, key: string, id: Json)
    ensures Find(entries, key, id).Returned? && Find(entries, key, id).value.Some? ==>
              exists k :: 0 <= k < |entries| && entries[k] == Find(entries, key, id).value.value &&
                HasId(entries[k], key, id) && forall j :: 0 <= j < k ==> HasOtherId(entries[j], key, id)
    ensures Find(entries, key, id) == Returned(None) ==>
              forall j :: 0 <= j < |entries| ==> HasOtherId(entries[j], key, id)
    ensures Find(entries, key, id).Raised? ==>
              exists k :: 0 <= k < |entries| && !(entries[k].Obj? && key in entries[k].fields) &&
                forall j :: 0 <= j < k ==> HasOtherId(entries[j], key, id)
    decreases |entries|
  {
    if entries != [] && Subscript(entries[0], key).Returned? && Subscript(entries[0], key).value != id {
      var rest := entries[1..];
      FindSound(rest, key, id);
      if Find(rest, key, id).Returned? && Find(rest, key, id).value.Some? {
        var k :| 0 <= k < |rest| && rest[k] == Find(rest, key, id).value.value &&
          HasId(rest[k], key, id) && forall j :: 0 <= j < k ==> HasOtherId(rest[j], key, id);
        assert entries[k + 1] == rest[k];
        assert forall j :: 0 <= j < k + 1 ==> HasOtherId(entries[j], key, id) by {
          forall j | 0 <= j < k + 1 ensures HasOtherId(entries[j], key, id) {
            if j > 0 { assert entries[j] == rest[j - 1]; }
          }
        }
      }
      if Find(rest, key, id) == Returned(None) {
        forall j | 0 <= j < |entries| ensures HasOtherId(entries[j], key, id) {
          if j > 0 { assert entries[j] == rest[j - 1]; }
        }
      }
      if Find(rest, key, id).Raised? {
        var k :| 0 <= k < |rest| && !(rest[k].Obj? && key in rest[k].fields) &&
          forall j :: 0 <= j < k ==> HasOtherId(rest[j], key, id);
        assert entries[k + 1] == rest[k];
        assert forall j :: 0 <= j < k + 1 ==> HasOtherId(entries[j], key, id) by {
          forall j | 0 <= j < k + 1 ensures HasOtherId(entries[j], key, id) {
            if j > 0 { assert entries[j] == rest[j - 1]; }
          }
        }
      }
    }
  }

  /** What a lookup returns: the entry itself or True, and only ever
      False otherwise; a returned entry carries the id. */
  lemma LookupAnswers(catalog: Json, key: string, id: Json, returnit: bool)
    ensures Lookup(catalog, key, id, returnit).Returned? ==>
              var r := Lookup(catalog, key, id, returnit).value;
              r == Bool(false) || (returnit && HasId(r, key, id)) || (!returnit && r == Bool(true))
  {
    if Items(catalog).Returned? {
      FindSound(Items(catalog).value, key, id);
    }
  }

  /** The for loop of `model_exists` / `voice_exists`: scan the catalog in
      order and return at the first entry whose id field equals `id`. */
  method FindEntry(catalog: Json, key: string, id: Json, returnit: bool) returns (r: Outcome<Json>)
    ensures r == Lookup(catalog, key, id, returnit)
  {
    var items := Items(catalog);
    if items.Raised? {
      return Raised(items.error);
    }
    var entries := items.value;
    for i := 0 to |entries|
      invariant Find(entries, key, id) == Find(entries[i..], key, id)
    {
      assert entries[i..][1..] == entries[i + 1..];
      var v := Subscript(entries[i], key);
      if v.Raised? {
        return Raised(v.error);
      }
      if v.value == id {
        return Returned(if returnit then entries[i] else Bool(true));
      }
    }
    return Returned(Bool(false));
  }

  /** One dropdown choice: the entry's `name` as label, its id as value. */
  datatype Choice = Choice(name: Json, id: Json)

  /** The choice list built from a list of entries, one `(name, id)` pair per
      entry in order; the first entry lacking either field raises. */
  function ChoiceList(entries: seq<Json>, idKey: string): Outcome<seq<Choice>>
    decreases |entries|
  {
    if entries == [] then Returned([])
    else
      match Subscript(entries[0], "name")
      case Raised(e) => Raised(e)
      case Returned(name) =>
        match Subscript(entries[0], idKey)
        case Raised(e) => Raised(e)
        case Returned(value) =>
          match ChoiceList(entries[1..], idKey)
          case Raised(e) => Raised(e)
          case Returned(rest) => Returned([Choice(name, value)] + rest)
  }

  /** The choices of a whole catalog. */
  function Choices(catalog: Json, idKey: string): Outcome<seq<Choice>> {
    match Items(catalog)
    case Raised(e) => Raised(e)
    case Returned(entries) => ChoiceList(entries, idKey)
  }

  /** The entry is a dict with both a `name` and an id field. */
  predicate Listable(e: Json, idKey: string) {
    e.Obj? && "name" in e.fields && idKey in e.fields
  }

  /** A successful choice list has one pair per entry, in catalog order,
      made of that entry's name and id. */
  lemma {:induction false} ChoicesFollowCatalog(entries: seq<Json>, idKey: string)
    requires ChoiceList(entries, idKey).Returned?
    ensures |ChoiceList(entries, idKey).value| == |entries|
    ensures forall i :: 0 <= i < |entries| ==>
              Listable(entries[i], idKey) &&
              ChoiceList(entries, idKey).value[i] == Choice(entries[i].fields["name"], entries[i].fields[idKey])
    decreases |entries|
  {
    if entries != [] {
      ChoicesFollowCatalog(entries[1..], idKey);
      forall i | 0 <= i < |entries|
        ensures Listable(entries[i], idKey) &&
          ChoiceList(entries, idKey).value[i] == Choice(entries[i].fields["name"], entries[i].fields[idKey])
      {
        if i > 0 { assert entries[i] == entries[1..][i - 1]; }
      }
    }
  }

  /** The choice list is built whenever every entry has a name and an id. */
  lemma {:induction false} ChoicesOfListableCatalog(entries: seq<Json>, idKey: string)
    requires forall i :: 0 <= i < |entries| ==> Listable(entries[i], idKey)
    ensures ChoiceList(entries, idKey).Returned?
    decreases |entries|
  {
    if entries != [] {
      assert forall i :: 0 <= i < |entries[1..]| ==> entries[1..][i] == entries[i + 1];
      ChoicesOfListableCatalog(entries[1..], idKey);
    }
  }

  /** `prefix` put in front of the list an outcome carries, if it carries one. */
  function Prefixed(prefix: seq<Choice>, o: Outcome<seq<Choice>>): Outcome<seq<Choice>> {
    match o
    case Raised(e) => Raised(e)
    case Returned(rest) => Returned(prefix + rest)
  }

  /** The for loop of the dropdown builders: append `(name, id)` for each
      entry of the catalog, in order. */
  method BuildChoices(catalog: Json, idKey: string) returns (r: Outcome<seq<Choice>>)
    ensures r == Choices(catalog, idKey)
  {
    var items := Items(catalog);
    if items.Raised? {
      return Raised(items.error);
    }
    var entries := items.value;
    var list: seq<Choice> := [];
    assert entries[0..] == entries;
    match ChoiceList(entries, idKey) {
      case Raised(e) =>
      case Returned(all) => assert [] + all == all;
    }
    for i := 0 to |entries|
      invariant ChoiceList(entries, idKey) == Prefixed(list, ChoiceList(entries[i..], idKey))
    {
      assert entries[i..][1..] == entries[i + 1..];
      var name := Subscript(entries[i], "name");
      if name.Raised? {
        return Raised(name.error);
      }
      var value := Subscript(entries[i], idKey);
      if value.Raised? {
        return Raised(value.error);
      }
      match ChoiceList(entries[i + 1..], idKey) {
        case Raised(e) =>
        case Returned(rest) => assert list + [Choice(name.value, value.value)] + rest == list + ([Choice(name.value, value.value)] + rest);
      }
      list := list + [Choice(name.value, value.value)];
    }
    assert entries[|entries|..] == [] && list + [] == list;
    return Returned(list);
  }
}
