/** The drop-down option lists of src/pages/Sources/helpers.js:
    `prepareSourceTypeSelection` and `prepareApplicationTypeSelection` turn a
    catalog into `{label, value}` options sorted by label.

    The source compares labels with `localeCompare`, whose collation depends
    on the locale; here labels are ordered lexicographically by character
    code. `Array.prototype.sort` is stable; it is modelled by insertion sort,
    which places an element before the first one whose label is not smaller. */
module Selection {
  import opened Entities

  /** One option of a select box. */
  datatype SelectOption = SelectOption(labelText: string, value: string)

  /** Lexicographic order on strings, standing in for `localeCompare(...) <= 0`. */
  predicate LexLe(a: string, b: string)
  {
    |a| == 0 || (|b| > 0 && (a[0] < b[0] || (a[0] == b[0] && LexLe(a[1..], b[1..]))))
  }

  lemma {:induction false} LexLeTotal(a: string, b: string)
    ensures LexLe(a, b) || LexLe(b, a)
  {
    if |a| > 0 && |b| > 0 && a[0] == b[0] {
      LexLeTotal(a[1..], b[1..]);
    }
  }

  lemma {:induction false} LexLeTransitive(a: string, b: string, c: string)
    requires LexLe(a, b) && LexLe(b, c)
    ensures LexLe(a, c)
  {
    if |a| > 0 && a[0] == b[0] && b[0] == c[0] {
      LexLeTransitive(a[1..], b[1..], c[1..]);
    }
  }

  ghost predicate SortedByLabel(s: seq<SelectOption>)
  {
    forall i, j :: 0 <= i < j < |s| ==> LexLe(s[i].labelText, s[j].labelText)
  }

  /** Insert `x` before the first element whose label is not below it. */
  function InsertByLabel(x: SelectOption, s: seq<SelectOption>): seq<SelectOption>
  {
    if |s| == 0 then [x]
    else if LexLe(x.labelText, s[0].labelText) then [x] + s
    else [s[0]] + InsertByLabel(x, s[1..])
  }

  /** Every label in `s` is at or above `b`. */
  ghost predicate AllAbove(b: string, s: seq<SelectOption>)
  {
    forall i :: 0 <= i < |s| ==> LexLe(b, s[i].labelText)
  }

  lemma {:induction false} InsertByLabelPermutes(x: SelectOption, s: seq<SelectOption>)
    ensures multiset(InsertByLabel(x, s)) == multiset(s) + multiset{x}
  {
    if |s| > 0 {
      assert s == [s[0]] + s[1..];
      if !LexLe(x.labelText, s[0].labelText) {
        InsertByLabelPermutes(x, s[1..]);
      }
    }
  }

  lemma {:induction false} InsertByLabelAbove(b: string, x: SelectOption, s: seq<SelectOption>)
    requires AllAbove(b, s) && LexLe(b, x.labelText)
    ensures AllAbove(b, InsertByLabel(x, s))
  {
    if |s| > 0 && !LexLe(x.labelText, s[0].labelText) {
      InsertByLabelAbove(b, x, s[1..]);
    }
  }

  lemma {:induction false} InsertByLabelSorted(x: SelectOption, s: seq<SelectOption>)
    requires SortedByLabel(s)
    ensures SortedByLabel(InsertByLabel(x, s))
  {
    if |s| > 0 {
      var r := InsertByLabel(x, s);
      if LexLe(x.labelText, s[0].labelText) {
        forall j | 1 < j < |r| ensures LexLe(x.labelText, r[j].labelText) {
          LexLeTransitive(x.labelText, s[0].labelText, s[j - 1].labelText);
        }
      } else {
        InsertByLabelSorted(x, s[1..]);
        LexLeTotal(x.labelText, s[0].labelText);
        InsertByLabelAbove(s[0].labelText, x, s[1..]);
      }
    }
  }

  /** `Array.prototype.sort` by label. */
  function SortByLabel(s: seq<SelectOption>): seq<SelectOption>
  {
    if |s| == 0 then [] else InsertByLabel(s[0], SortByLabel(s[1..]))
  }

  /** Sorting yields the same options, ordered by label. */
  lemma {:induction false} SortByLabelCorrect(s: seq<SelectOption>)
    ensures SortedByLabel(SortByLabel(s))
    ensures multiset(SortByLabel(s)) == multiset(s)
  {
    if |s| > 0 {
      SortByLabelCorrect(s[1..]);
      InsertByLabelSorted(s[0], SortByLabel(s[1..]));
      InsertByLabelPermutes(s[0], SortByLabel(s[1..]));
      assert s == [s[0]] + s[1..];
    }
  }

  /** `({ id, product_name }) => ({ label: product_name, value: id })` over the catalog. */
  function SourceTypeOptions(types: seq<SourceType>): (r: seq<SelectOption>)
    ensures |r| == |types|
    ensures forall i :: 0 <= i < |types| ==> r[i] == SelectOption(types[i].product_name, types[i].id)
  {
    seq(|types|, i requires 0 <= i < |types| => SelectOption(types[i].product_name, types[i].id))
  }

  /** `({ id, display_name }) => ({ label: display_name, value: id })` over the catalog. */
  function AppTypeOptions(types: seq<AppType>): (r: seq<SelectOption>)
    ensures |r| == |types|
    ensures forall i :: 0 <= i < |types| ==> r[i] == SelectOption(types[i].display_name, types[i].id)
  {
    seq(|types|, i requires 0 <= i < |types| => SelectOption(types[i].display_name, types[i].id))
  }

  /** One option per source type, labelled with its product name and valued
      with its id, sorted by label. */
  function PrepareSourceTypeSelection(types: seq<SourceType>): (r: seq<SelectOption>)
    ensures |r| == |types|
    ensures SortedByLabel(r)
    ensures multiset(r) == multiset(SourceTypeOptions(types))
    ensures forall i :: 0 <= i < |r| ==>
              exists j :: 0 <= j < |types| && r[i] == SelectOption(types[j].product_name, types[j].id)
  {
    var options := SourceTypeOptions(types);
    SortByLabelCorrect(options);
    var r := SortByLabel(options);
    assert |r| == |multiset(r)| == |options|;
    assert forall i :: 0 <= i < |r| ==> r[i] in multiset(options);
    r
  }

  /** One option per application type, labelled with its display name and
      valued with its id, sorted by label. */
  function PrepareApplicationTypeSelection(types: seq<AppType>): (r: seq<SelectOption>)
    ensures |r| == |types|
    ensures SortedByLabel(r)
    ensures multiset(r) == multiset(AppTypeOptions(types))
    ensures forall i :: 0 <= i < |r| ==>
              exists j :: 0 <= j < |types| && r[i] == SelectOption(types[j].display_name, types[j].id)
  {
    var options := AppTypeOptions(types);
    SortByLabelCorrect(options);
    var r := SortByLabel(options);
    assert |r| == |multiset(r)| == |options|;
    assert forall i :: 0 <= i < |r| ==> r[i] in multiset(options);
    r
  }
}
