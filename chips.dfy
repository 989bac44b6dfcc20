/** The filter state of the sources table and the chips built from it
    (src/pages/Sources/helpers.js: `chipsFormatters`, `prepareChips`,
    `removeChips`, `loadedTypes`).

    A filter state is a JavaScript object from filter key to value. Its keys
    are kept in `Object.keys` order; a key may be present with the value
    `undefined` (that is what clearing a filter leaves behind). The free-text
    `name` filter holds a string; the other filters hold arrays of ids. */
module Chips {
  import opened Common
  import opened Entities

  /** The value stored under one filter key. */
  datatype FilterVal = Undefined | Text(text: string) | Values(items: seq<string>)

  /** `filterValue[key] && filterValue[key].length > 0` */
  predicate Present(v: FilterVal)
  {
    match v
    case Undefined => false
    case Text(t) => |t| > 0
    case Values(xs) => |xs| > 0
  }

  /** A filter object: its own keys in insertion order, and their values. */
  datatype FilterState = FilterState(keys: seq<string>, vals: map<string, FilterVal>)
  {
    /** Keys are distinct and are exactly the keys that carry a value. */
    predicate Valid()
    {
      (forall i, j :: 0 <= i < j < |keys| ==> keys[i] != keys[j]) &&
      vals.Keys == set k | k in keys
    }

    /** `filterValue[k]`, which is `undefined` for a missing key. */
    function Get(k: string): FilterVal
    {
      if k in vals then vals[k] else Undefined
    }

    /** `{ ...filterValue, [k]: v }`: an existing key keeps its place, a new
        key is appended. */
    function Set(k: string, v: FilterVal): (r: FilterState)
      requires Valid()
      ensures r.Valid()
      ensures r.Get(k) == v
      ensures forall k' :: k' != k ==> r.Get(k') == Get(k')
      ensures r.keys == if k in keys then keys else keys + [k]
    {
      if k in vals then FilterState(keys, vals[k := v]) else FilterState(keys + [k], vals[k := v])
    }
  }

  /** One removable chip: what it shows and the filter value it stands for. */
  datatype Chip = Chip(name: string, value: string)

  /** A chip group descriptor, as `chipsFormatters` builds it:
      `{ name: filterValue[key], key }` for the name filter,
      `{ category, key, chips }` for the id and status filters, and
      `{ name: key }` (with no `key` field) for any other key. */
  datatype ChipGroup =
    | NameChip(text: FilterVal, key: string)
    | CategoryChip(category: string, key: string, chips: seq<Chip>)
    | KeyChip(name: string)

  /** The `AVAILABLE` value of the status filter (from src/views/formatters,
      which is not part of this model). */
  const AVAILABLE: string := "available"

  /** The defaultMessage of `sources.available` and `sources.unavailable`. */
  const AVAILABLE_LABEL: string := "Available"
  const UNAVAILABLE_LABEL: string := "Unavailable"

  /** The chip name of a source type id: the product name of the first
      catalog entry with that id, or the id itself when there is none. */
  function SourceTypeName(types: seq<SourceType>, id: string): (name: string)
    ensures (forall j :: 0 <= j < |types| ==> types[j].id != id) ==> name == id
    ensures forall i :: (0 <= i < |types| && types[i].id == id &&
                         (forall j :: 0 <= j < i ==> types[j].id != id)) ==> name == types[i].product_name
  {
    match FindSourceType(types, id)
    case Some(t) => t.product_name
    case None => id
  }

  /** The chip name of an application type id: the display name of the
      first catalog entry with that id, or the id itself. */
  function AppTypeName(types: seq<AppType>, id: string): (name: string)
    ensures (forall j :: 0 <= j < |types| ==> types[j].id != id) ==> name == id
    ensures forall i :: (0 <= i < |types| && types[i].id == id &&
                         (forall j :: 0 <= j < i ==> types[j].id != id)) ==> name == types[i].display_name
  {
    match FindAppType(types, id)
    case Some(t) => t.display_name
    case None => id
  }

  /** `ids.map((id) => ({ name: <source type name>, value: id }))` */
  function SourceTypeChips(types: seq<SourceType>, ids: seq<string>): (r: seq<Chip>)
    ensures |r| == |ids|
    ensures forall i :: 0 <= i < |ids| ==> r[i] == Chip(SourceTypeName(types, ids[i]), ids[i])
  {
    if |ids| == 0 then [] else [Chip(SourceTypeName(types, ids[0]), ids[0])] + SourceTypeChips(types, ids[1..])
  }

  /** `ids.map((id) => ({ name: <application type name>, value: id }))` */
  function AppTypeChips(types: seq<AppType>, ids: seq<string>): (r: seq<Chip>)
    ensures |r| == |ids|
    ensures forall i :: 0 <= i < |ids| ==> r[i] == Chip(AppTypeName(types, ids[i]), ids[i])
  {
    if |ids| == 0 then [] else [Chip(AppTypeName(types, ids[0]), ids[0])] + AppTypeChips(types, ids[1..])
  }

  /** The first entry of a present filter value: `filterValue[key][0]`
      (a one-character string when the value is a string). */
  function FirstValue(v: FilterVal): (first: string)
    requires Present(v)
    ensures v.Values? ==> first == v.items[0]
    ensures v.Text? ==> first == [v.text[0]] && v.text == first + v.text[1..]
  {
    match v
    case Text(t) => [t[0]]
    case Values(xs) => xs[0]
  }

  /** `chipsFormatters(key, filterValue, sourceTypes, appTypes, intl)()`.
      Its one caller, `prepareChips`, calls it only for a present key. The
      id filters call `.map` on their value, which throws unless the value
      is an array. */
  function ChipsFormatters(key: string, filter: FilterState, sourceTypes: seq<SourceType>,
                           appTypes: seq<AppType>): (r: Result<ChipGroup>)
    requires Present(filter.Get(key))
    ensures key == "name" ==> r == Ok(NameChip(filter.Get(key), key))
    ensures key == "source_type_id" || key == "applications" ==>
              (r.Ok? <==> filter.Get(key).Values?)
    ensures key == "source_type_id" && r.Ok? ==>
              var ids := filter.Get(key).items;
              r.value.CategoryChip? && r.value.category == "Source Type" && r.value.key == key &&
              |r.value.chips| == |ids| &&
              forall i :: 0 <= i < |ids| ==> r.value.chips[i] == Chip(SourceTypeName(sourceTypes, ids[i]), ids[i])
    ensures key == "applications" && r.Ok? ==>
              var ids := filter.Get(key).items;
              r.value.CategoryChip? && r.value.category == "Application" && r.value.key == key &&
              |r.value.chips| == |ids| &&
              forall i :: 0 <= i < |ids| ==> r.value.chips[i] == Chip(AppTypeName(appTypes, ids[i]), ids[i])
    ensures key == "availability_status" ==>
              r.Ok? && r.value.CategoryChip? && r.value.category == "Status" && r.value.key == key &&
              |r.value.chips| == 1 && r.value.chips[0].value == FirstValue(filter.Get(key)) &&
              (r.value.chips[0].name == AVAILABLE_LABEL <==> FirstValue(filter.Get(key)) == AVAILABLE) &&
              (r.value.chips[0].name != AVAILABLE_LABEL ==> r.value.chips[0].name == UNAVAILABLE_LABEL)
    ensures key !in {"name", "source_type_id", "applications", "availability_status"} ==>
              r == Ok(KeyChip(key))
  {
    var v := filter.Get(key);
    if key == "name" then
      Ok(NameChip(v, key))
    else if key == "source_type_id" then
      match v
      case Values(ids) =>
        Ok(CategoryChip("Source Type", key, SourceTypeChips(sourceTypes, ids)))
      case _ => TypeError
    else if key == "applications" then
      match v
      case Values(ids) =>
        Ok(CategoryChip("Application", key, AppTypeChips(appTypes, ids)))
      case _ => TypeError
    else if key == "availability_status" then
      var first := FirstValue(v);
      Ok(CategoryChip("Status", key,
                      [Chip(if first == AVAILABLE then AVAILABLE_LABEL else UNAVAILABLE_LABEL, first)]))
    else
      Ok(KeyChip(key))
  }

  /** The keys `prepareChips` builds a descriptor for, in key order. */
  function PresentKeys(filter: FilterState): seq<string>
  {
    Filter(filter.keys, k => Present(filter.Get(k)))
  }

  /** The descriptors for the keys `ks`, or the TypeError the first failing key throws. */
  function ChipsFor(ks: seq<string>, filter: FilterState, sourceTypes: seq<SourceType>,
                    appTypes: seq<AppType>): Result<seq<ChipGroup>>
    requires forall i :: 0 <= i < |ks| ==> Present(filter.Get(ks[i]))
  {
    if |ks| == 0 then Ok([])
    else
      match ChipsFormatters(ks[0], filter, sourceTypes, appTypes)
      case TypeError => TypeError
      case Ok(g) =>
        match ChipsFor(ks[1..], filter, sourceTypes, appTypes)
        case TypeError => TypeError
        case Ok(gs) => Ok([g] + gs)
  }

  lemma {:induction false} ChipsForCorrect(ks: seq<string>, filter: FilterState,
                                           sourceTypes: seq<SourceType>, appTypes: seq<AppType>)
    requires forall i :: 0 <= i < |ks| ==> Present(filter.Get(ks[i]))
    ensures var r := ChipsFor(ks, filter, sourceTypes, appTypes);
            && (r.Ok? <==> forall i :: 0 <= i < |ks| ==> ChipsFormatters(ks[i], filter, sourceTypes, appTypes).Ok?)
            && (r.Ok? ==> (|r.value| == |ks| &&
                           forall i :: 0 <= i < |ks| ==> Ok(r.value[i]) == ChipsFormatters(ks[i], filter, sourceTypes, appTypes)))
  {
    if |ks| > 0 {
      ChipsForCorrect(ks[1..], filter, sourceTypes, appTypes);
      var r := ChipsFor(ks, filter, sourceTypes, appTypes);
      var rest := ChipsFor(ks[1..], filter, sourceTypes, appTypes);
      if ChipsFormatters(ks[0], filter, sourceTypes, appTypes).Ok? && rest.Ok? {
        assert forall i :: 1 <= i < |ks| ==> ks[i] == ks[1..][i - 1];
      } else if ChipsFormatters(ks[0], filter, sourceTypes, appTypes).Ok? {
        var i :| 0 <= i < |ks[1..]| && !ChipsFormatters(ks[1..][i], filter, sourceTypes, appTypes).Ok?;
        assert ks[1..][i] == ks[i + 1];
      }
    }
  }

  /** `prepareChips`: one descriptor per key whose value is present and
      non-empty, in key order; absent and empty keys produce nothing. The
      result is a TypeError exactly when formatting one of those keys throws. */
  function PrepareChips(filter: FilterState, sourceTypes: seq<SourceType>,
                        appTypes: seq<AppType>): (r: Result<seq<ChipGroup>>)
    ensures var ks := PresentKeys(filter);
            && (forall i :: 0 <= i < |ks| ==> ks[i] in filter.keys && Present(filter.Get(ks[i])))
            && (forall k :: k in filter.keys && Present(filter.Get(k)) ==> k in ks)
            && (r.Ok? <==> forall i :: 0 <= i < |ks| ==> ChipsFormatters(ks[i], filter, sourceTypes, appTypes).Ok?)
            && (r.Ok? ==> (|r.value| == |ks| &&
                           forall i :: 0 <= i < |ks| ==> Ok(r.value[i]) == ChipsFormatters(ks[i], filter, sourceTypes, appTypes)))
  {
    var ks := PresentKeys(filter);
    assert forall k :: k in filter.keys && Present(filter.Get(k)) ==> k in ks by {
      forall k | k in filter.keys && Present(filter.Get(k)) ensures k in ks {
        var i :| 0 <= i < |filter.keys| && filter.keys[i] == k;
      }
    }
    ChipsForCorrect(ks, filter, sourceTypes, appTypes);
    ChipsFor(ks, filter, sourceTypes, appTypes)
  }

  /** `PresentKeys` keeps the filter's key order and drops only keys that are
      absent or empty. */
  lemma PresentKeysInOrder(filter: FilterState)
    ensures Subsequence(PresentKeys(filter), filter.keys)
    ensures forall k :: multiset(PresentKeys(filter))[k] ==
                        if Present(filter.Get(k)) then multiset(filter.keys)[k] else 0
  {
    FilterIsSubsequence(filter.keys, k => Present(filter.Get(k)));
  }

  /** The key `removeChips` writes: `chip.key`, which for a `{ name: key }`
      descriptor is `undefined` and so names the property "undefined". */
  function ChipKey(g: ChipGroup): string
  {
    match g
    case NameChip(_, key) => key
    case CategoryChip(_, key, _) => key
    case KeyChip(_) => "undefined"
  }

  /** `filterValue[chip.key].filter((value) => value !== chip.chips[0].value)`.
      The callback reads `chip.chips[0]` once per element, so an empty
      `chips` list throws only when there is an element to test. */
  function RemoveChipValue(v: FilterVal, chips: seq<Chip>): (r: Result<FilterVal>)
    ensures r.Ok? <==> v.Values? && (|v.items| == 0 || |chips| > 0)
    ensures r.Ok? && |chips| > 0 ==>
              r.value.Values? &&
              Subsequence(r.value.items, v.items) &&
              (forall x :: x in r.value.items <==> x in v.items && x != chips[0].value) &&
              (forall x :: multiset(r.value.items)[x] == if x == chips[0].value then 0 else multiset(v.items)[x])
    ensures r.Ok? && |chips| == 0 ==> r.value == Values([])
  {
    match v
    case Values(xs) =>
      if |xs| == 0 then Ok(Values([]))
      else if |chips| == 0 then TypeError
      else
        var drop := chips[0].value;
        FilterIsSubsequence(xs, x => x != drop);
        var kept := Filter(xs, x => x != drop);
        assert forall x :: x in kept ==> x in xs && x != drop by {
          forall x | x in kept ensures x in xs && x != drop {
            var i :| 0 <= i < |kept| && kept[i] == x;
          }
        }
        assert forall x :: x in xs && x != drop ==> x in kept by {
          forall x | x in xs && x != drop ensures x in kept {
            var i :| 0 <= i < |xs| && xs[i] == x;
          }
        }
        Ok(Values(kept))
    case _ => TypeError
  }

  /** `removeChips(chips, filterValue, deleteAll)`. With `deleteAll` every
      key of the filter is kept and cleared. Otherwise only the key of the
      first chip group changes: it loses the first chip's value when the
      group has chips, and is cleared when it has none. A missing first
      group, or chips on a key that does not hold an array, throw. */
  function RemoveChips(chips: seq<ChipGroup>, filter: FilterState, deleteAll: bool): (r: Result<FilterState>)
    requires filter.Valid()
    ensures r.Ok? ==> r.value.Valid()
    ensures deleteAll ==>
              r.Ok? && r.value.keys == filter.keys &&
              forall k :: r.value.Get(k) == Undefined
    ensures !deleteAll && |chips| == 0 ==> r == TypeError
    ensures !deleteAll && |chips| > 0 ==>
              var key := ChipKey(chips[0]);
              && (r.Ok? ==> (forall k :: k != key ==> r.value.Get(k) == filter.Get(k)) &&
                            r.value.keys == (if key in filter.keys then filter.keys else filter.keys + [key]))
              && (!chips[0].CategoryChip? ==> r.Ok? && r.value.Get(key) == Undefined)
              && (chips[0].CategoryChip? ==>
                    var res := RemoveChipValue(filter.Get(key), chips[0].chips);
                    (r.Ok? <==> res.Ok?) && (r.Ok? ==> r.value.Get(key) == res.value))
  {
    if deleteAll then
      Ok(FilterState(filter.keys, map k | k in filter.keys :: Undefined))
    else if |chips| == 0 then
      TypeError
    else
      var chip := chips[0];
      var key := ChipKey(chip);
      match chip
      case CategoryChip(_, _, cs) =>
        (match RemoveChipValue(filter.Get(key), cs)
         case Ok(v) => Ok(filter.Set(key, v))
         case TypeError => TypeError)
      case _ => Ok(filter.Set(key, Undefined))
  }

  /** Clearing all filters and then building chips yields no chips. */
  lemma NoChipsAfterDeleteAll(chips: seq<ChipGroup>, filter: FilterState,
                              sourceTypes: seq<SourceType>, appTypes: seq<AppType>)
    requires filter.Valid()
    ensures var r := RemoveChips(chips, filter, true);
            r.Ok? && PrepareChips(r.value, sourceTypes, appTypes) == Ok([])
  {
  }

  /** Removing the one chip of a single-valued id filter leaves that filter
      empty, so it produces no chip any more. */
  lemma RemoveOnlyChip(filter: FilterState, key: string, id: string, category: string, name: string)
    requires filter.Valid() && filter.Get(key) == Values([id])
    ensures var r := RemoveChips([CategoryChip(category, key, [Chip(name, id)])], filter, false);
            r.Ok? && r.value.Get(key) == Values([]) && !Present(r.value.Get(key))
  {
  }

  /** `loadedTypes(types, loaded)`: the catalog once it is loaded and not
      empty, `undefined` otherwise. */
  function LoadedTypes<T>(types: seq<T>, loaded: bool): (r: Option<seq<T>>)
    ensures r.Some? <==> loaded && |types| > 0
    ensures r.Some? ==> r.value == types
  {
    if loaded && |types| > 0 then Some(types) else None
  }
}
