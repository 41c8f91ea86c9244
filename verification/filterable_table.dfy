/**
  The table component: the reducers that turn a user action into a new query
  state, the per-column view of the criteria, and the component's own state
  (sort indicator, open filter editor).
 */
module Table {
  import opened Model

  // ---------------------------------------------------------------------------
  // Views of the criteria list
  // ---------------------------------------------------------------------------

  /** The criteria whose field is not `field`, in their original order. */
  function Others(s: seq<Criterion>, field: Field): seq<Criterion>
  {
    if s == [] then []
    else if s[0].field != field then [s[0]] + Others(s[1..], field)
    else Others(s[1..], field)
  }

  /**
    The operator/value pairs of the criteria whose field is `field`, in list
    order: the chips under a column header and the list handed to the editor.
   */
  function FieldConditions(s: seq<Criterion>, field: Field): (r: seq<Condition>)
    ensures |r| <= |s|
  {
    if s == [] then []
    else if s[0].field == field then [Condition(s[0].op, s[0].value)] + FieldConditions(s[1..], field)
    else FieldConditions(s[1..], field)
  }

  /** Each condition bound to `field`. */
  function Tagged(field: Field, cs: seq<Condition>): seq<Criterion>
  {
    if cs == [] then [] else [Criterion(field, cs[0].op, cs[0].value)] + Tagged(field, cs[1..])
  }

  /** `a` occurs in `b` in the same order, possibly with gaps. */
  ghost predicate Subsequence<T>(a: seq<T>, b: seq<T>)
    decreases |b|
  {
    if a == [] then true
    else if b == [] then false
    else (a[0] == b[0] && Subsequence(a[1..], b[1..])) || Subsequence(a, b[1..])
  }

  // ---------------------------------------------------------------------------
  // Reducers over the query state
  // ---------------------------------------------------------------------------

  /** The state sent after a sort click: the single order entry, nothing else changed. */
  function SortBy(q: QueryState, field: Field, dir: Dir): (r: QueryState)
    ensures r.order == [OrderBy(field, dir)]
    ensures r.filter == q.filter && r.offset == q.offset && r.limit == q.limit
  {
    q.(order := [OrderBy(field, dir)])
  }

  /** The direction after clicking sort on `field`, given the previous sort field and direction. */
  function NextDirection(prevField: Option<Field>, prevDir: Dir, field: Field): (d: Dir)
    ensures d == Desc <==> prevField == Some(field) && prevDir == Asc
  {
    if prevField == Some(field) then (if prevDir == Asc then Desc else Asc) else Asc
  }

  /** Replace every criterion of `field` by `cs`, appended after the other fields' criteria. */
  function ReplaceFieldFilters(q: QueryState, field: Field, cs: seq<Condition>): (r: QueryState)
    ensures r.order == q.order && r.offset == q.offset && r.limit == q.limit
  {
    q.(filter := Others(q.filter, field) + Tagged(field, cs))
  }

  /**
    Keep the entries of `s` except one whose field is `field` and whose
    position in the whole list is `index`; `s` starts at position `base`.
   */
  function DropFieldAt(s: seq<Criterion>, field: Field, index: int, base: int): seq<Criterion>
  {
    if s == [] then []
    else (if s[0].field != field || base != index then [s[0]] else []) + DropFieldAt(s[1..], field, index, base + 1)
  }

  /**
    Delete a chip as the table does: `index` is compared against the position
    in the WHOLE criteria list, not the position among `field`'s chips.
   */
  function RemoveFilter(q: QueryState, field: Field, index: int): (r: QueryState)
    ensures r.order == q.order && r.offset == q.offset && r.limit == q.limit
  {
    q.(filter := DropFieldAt(q.filter, field, index, 0))
  }

  /** Drop the `k`-th criterion of `field` (counting only `field`'s criteria). */
  function DropNthOfField(s: seq<Criterion>, field: Field, k: int): seq<Criterion>
  {
    if s == [] then []
    else if s[0].field == field then
      (if k == 0 then s[1..] else [s[0]] + DropNthOfField(s[1..], field, k - 1))
    else [s[0]] + DropNthOfField(s[1..], field, k)
  }

  /** Delete a chip by its position among its own column's chips. */
  function RemoveColumnChip(q: QueryState, field: Field, k: int): (r: QueryState)
    ensures r.order == q.order && r.offset == q.offset && r.limit == q.limit
  {
    q.(filter := DropNthOfField(q.filter, field, k))
  }

  /** Go to page `newPage`: offset becomes that many pages of the current page size. */
  function ChangePage(q: QueryState, newPage: int): (r: QueryState)
    ensures r.offset == Some(newPage * PageSize(q))
    ensures r.filter == q.filter && r.order == q.order && r.limit == q.limit
  {
    q.(offset := Some(newPage * PageSize(q)))
  }

  /** Change the page size and go back to the first page. */
  function ChangeRowsPerPage(q: QueryState, newLimit: int): (r: QueryState)
    ensures r.limit == Some(newLimit) && r.offset == Some(0)
    ensures r.filter == q.filter && r.order == q.order
  {
    q.(limit := Some(newLimit), offset := Some(0))
  }

  /** The first column declared for `field`, if any. */
  function FindColumn(columns: seq<Column>, field: Option<Field>): (c: Option<Column>)
    ensures c.Some? <==> exists i :: 0 <= i < |columns| && Some(columns[i].field) == field
    ensures c.Some? ==> c.value in columns && Some(c.value.field) == field
    ensures c.Some? ==> exists i :: 0 <= i < |columns| && columns[i] == c.value &&
                                    forall j :: 0 <= j < i ==> Some(columns[j].field) != field
  {
    if columns == [] then None
    else if Some(columns[0].field) == field then Some(columns[0])
    else FindColumn(columns[1..], field)
  }

  // ---------------------------------------------------------------------------
  // The component's own state
  // ---------------------------------------------------------------------------

  class TableState {
    /** The column whose sort arrow is lit, if any. */
    var sortField: Option<Field>
    var sortDirection: Dir
    /** Whether the filter editor is anchored to a button (open). */
    var anchorOpen: bool
    var openFilterField: Option<Field>

    constructor ()
      ensures sortField == None && sortDirection == Asc
      ensures !anchorOpen && openFilterField == None
    {
      sortField, sortDirection := None, Asc;
      anchorOpen, openFilterField := false, None;
    }

    /** Sort click: records the new sort column and direction and returns the state to commit. */
    method HandleSortChange(field: Field, filters: QueryState) returns (next: QueryState)
      modifies this
      ensures sortField == Some(field)
      ensures sortDirection == NextDirection(old(sortField), old(sortDirection), field)
      ensures next == SortBy(filters, field, sortDirection)
      ensures anchorOpen == old(anchorOpen) && openFilterField == old(openFilterField)
    {
      var dir := NextDirection(sortField, sortDirection, field);
      sortField, sortDirection := Some(field), dir;
      next := SortBy(filters, field, dir);
    }

    /** Filter-icon click: opens the editor for `field`. */
    method HandleFilterClick(field: Field)
      modifies this
      ensures anchorOpen && openFilterField == Some(field)
      ensures sortField == old(sortField) && sortDirection == old(sortDirection)
    {
      anchorOpen, openFilterField := true, Some(field);
    }

    /** Closes the editor. */
    method HandleFilterClose()
      modifies this
      ensures !anchorOpen && openFilterField == None
      ensures sortField == old(sortField) && sortDirection == old(sortDirection)
    {
      anchorOpen, openFilterField := false, None;
    }

    /** The committed criteria handed to the editor: only those of the open field. */
    function EditorFilters(q: QueryState): (r: seq<Condition>)
      reads this
      ensures openFilterField.None? ==> r == []
      ensures openFilterField.Some? ==> r == FieldConditions(q.filter, openFilterField.value)
      ensures openFilterField.Some? ==>
                forall c :: c in r <==> Criterion(openFilterField.value, c.op, c.value) in q.filter
    {
      match openFilterField
      case Some(f) => FieldConditionsMembership(q.filter, f); FieldConditions(q.filter, f)
      case None => []
    }
  }

  // ---------------------------------------------------------------------------
  // Properties
  // ---------------------------------------------------------------------------

  /** Clicking the sorted column flips the direction; any other click sorts ascending. */
  lemma SortDirectionRule(prevField: Option<Field>, prevDir: Dir, field: Field)
    ensures prevField == Some(field) ==> NextDirection(prevField, prevDir, field) != prevDir
    ensures prevField != Some(field) ==> NextDirection(prevField, prevDir, field) == Asc
  {
  }

  /** Two clicks on the same column come back to the direction of the first click. */
  lemma SortTwiceToggles(prevField: Option<Field>, prevDir: Dir, field: Field)
    ensures var d1 := NextDirection(prevField, prevDir, field);
            var d2 := NextDirection(Some(field), d1, field);
            d2 != d1 && NextDirection(Some(field), d2, field) == d1
  {
  }

  lemma {:induction false} FieldConditionsAppend(a: seq<Criterion>, b: seq<Criterion>, field: Field)
    ensures FieldConditions(a + b, field) == FieldConditions(a, field) + FieldConditions(b, field)
  {
    if a != [] {
      assert (a + b)[1..] == a[1..] + b;
      FieldConditionsAppend(a[1..], b, field);
    } else {
      assert a + b == b;
    }
  }

  lemma {:induction false} OthersAppend(a: seq<Criterion>, b: seq<Criterion>, field: Field)
    ensures Others(a + b, field) == Others(a, field) + Others(b, field)
  {
    if a != [] {
      assert (a + b)[1..] == a[1..] + b;
      OthersAppend(a[1..], b, field);
    } else {
      assert a + b == b;
    }
  }

  /**
    A column shows a chip exactly for each criterion of that column: every
    chip comes from an entry of the field, and every such entry has a chip.
   */
  lemma {:induction false} FieldConditionsMembers(s: seq<Criterion>, field: Field, c: Condition)
    ensures c in FieldConditions(s, field) <==> Criterion(field, c.op, c.value) in s
  {
    if s != [] {
      FieldConditionsMembers(s[1..], field, c);
      assert s == [s[0]] + s[1..];
    }
  }

  /** The chips of a column are exactly its criteria, for every condition at once. */
  lemma FieldConditionsMembership(s: seq<Criterion>, field: Field)
    ensures forall c :: c in FieldConditions(s, field) <==> Criterion(field, c.op, c.value) in s
  {
    forall c {
      FieldConditionsMembers(s, field, c);
    }
  }

  /** `Others` keeps every other field's chips and none of `field`'s. */
  lemma {:induction false} FieldConditionsOfOthers(s: seq<Criterion>, field: Field, g: Field)
    ensures FieldConditions(Others(s, field), g) == if g == field then [] else FieldConditions(s, g)
  {
    if s != [] {
      FieldConditionsOfOthers(s[1..], field, g);
      if s[0].field != field {
        FieldConditionsAppend([s[0]], Others(s[1..], field), g);
      }
    }
  }

  /** Tagging with `field` produces chips of `field` only, exactly the given ones. */
  lemma {:induction false} FieldConditionsOfTagged(field: Field, cs: seq<Condition>, g: Field)
    ensures FieldConditions(Tagged(field, cs), g) == if g == field then cs else []
  {
    if cs != [] {
      FieldConditionsOfTagged(field, cs[1..], g);
      FieldConditionsAppend([Criterion(field, cs[0].op, cs[0].value)], Tagged(field, cs[1..]), g);
    }
  }

  lemma {:induction false} TaggedShape(field: Field, cs: seq<Condition>)
    ensures |Tagged(field, cs)| == |cs|
    ensures forall i :: 0 <= i < |cs| ==> Tagged(field, cs)[i] == Criterion(field, cs[i].op, cs[i].value)
  {
    if cs != [] {
      TaggedShape(field, cs[1..]);
    }
  }

  /** A column's chips, bound back to the column, occur in the list in the same order. */
  lemma {:induction false} FieldConditionsInOrder(s: seq<Criterion>, field: Field)
    ensures Subsequence(Tagged(field, FieldConditions(s, field)), s)
  {
    if s != [] {
      FieldConditionsInOrder(s[1..], field);
      var rest := Tagged(field, FieldConditions(s[1..], field));
      if s[0].field == field {
        TaggedHead(s, field);
        assert ([s[0]] + rest)[1..] == rest;
      } else {
        SubsequenceDropHead(rest, s);
      }
    }
  }

  lemma {:induction false} OthersSubsequence(s: seq<Criterion>, field: Field)
    ensures Subsequence(Others(s, field), s)
  {
    if s != [] {
      OthersSubsequence(s[1..], field);
      var rest := Others(s[1..], field);
      if s[0].field != field {
        assert Others(s, field)[1..] == rest;
      } else {
        SubsequenceDropHead(rest, s);
      }
    }
  }

  /** No entry of `field` survives in `Others`. */
  lemma {:induction false} OthersExcludesField(s: seq<Criterion>, field: Field)
    ensures forall i :: 0 <= i < |Others(s, field)| ==> Others(s, field)[i].field != field
  {
    if s != [] {
      OthersExcludesField(s[1..], field);
    }
  }

  lemma {:induction false} OthersCount(s: seq<Criterion>, field: Field)
    ensures |Others(s, field)| + |FieldConditions(s, field)| == |s|
  {
    if s != [] {
      OthersCount(s[1..], field);
    }
  }

  /** The tagged chips of a list that starts with an entry of `field` start with that entry. */
  lemma TaggedHead(s: seq<Criterion>, field: Field)
    requires s != [] && s[0].field == field
    ensures Tagged(field, FieldConditions(s, field)) == [s[0]] + Tagged(field, FieldConditions(s[1..], field))
  {
    var c := Condition(s[0].op, s[0].value);
    var fc := FieldConditions(s[1..], field);
    assert FieldConditions(s, field) == [c] + fc;
    assert ([c] + fc)[1..] == fc;
  }

  lemma {:induction false} OthersMultiset(s: seq<Criterion>, field: Field)
    ensures multiset(Others(s, field)) + multiset(Tagged(field, FieldConditions(s, field))) == multiset(s)
  {
    if s != [] {
      OthersMultiset(s[1..], field);
      var x := s[0];
      var rest := multiset(Others(s[1..], field));
      var mine := multiset(Tagged(field, FieldConditions(s[1..], field)));
      var whole := multiset(s[1..]);
      assert rest + mine == whole;
      assert multiset(s) == multiset{x} + whole by {
        assert s == [x] + s[1..];
      }
      if x.field == field {
        assert multiset(Others(s, field)) == rest;
        assert multiset(Tagged(field, FieldConditions(s, field))) == multiset{x} + mine by {
          TaggedHead(s, field);
        }
      } else {
        assert multiset(Others(s, field)) == multiset{x} + rest by {
          assert Others(s, field) == [x] + Others(s[1..], field);
        }
        assert multiset(Tagged(field, FieldConditions(s, field))) == mine;
      }
    }
  }

  /**
    `Others` is exactly "the list with `field`'s entries struck out": a
    subsequence of the list, free of `field`, missing nothing else.
   */
  lemma OthersCharacterized(s: seq<Criterion>, field: Field)
    ensures Subsequence(Others(s, field), s)
    ensures forall i :: 0 <= i < |Others(s, field)| ==> Others(s, field)[i].field != field
    ensures |Others(s, field)| + |FieldConditions(s, field)| == |s|
    ensures multiset(Others(s, field)) + multiset(Tagged(field, FieldConditions(s, field))) == multiset(s)
  {
    OthersSubsequence(s, field);
    OthersExcludesField(s, field);
    OthersCount(s, field);
    OthersMultiset(s, field);
  }

  /** A subsequence of a list's tail is a subsequence of the list. */
  lemma {:induction false} SubsequenceDropHead<T>(a: seq<T>, b: seq<T>)
    requires b != [] && Subsequence(a, b[1..])
    ensures Subsequence(a, b)
  {
  }

  /** After replacing `field`'s criteria with `cs`, `field`'s chips are exactly `cs`, in order. */
  lemma ReplaceResultForField(q: QueryState, field: Field, cs: seq<Condition>)
    ensures FieldConditions(ReplaceFieldFilters(q, field, cs).filter, field) == cs
  {
    FieldConditionsAppend(Others(q.filter, field), Tagged(field, cs), field);
    FieldConditionsOfOthers(q.filter, field, field);
    FieldConditionsOfTagged(field, cs, field);
  }

  /**
    Replacing `field`'s criteria keeps every other field's chips unchanged and
    places all other fields' criteria, in their original order, before the new ones.
   */
  lemma ReplaceKeepsOtherFields(q: QueryState, field: Field, cs: seq<Condition>, g: Field)
    requires g != field
    ensures FieldConditions(ReplaceFieldFilters(q, field, cs).filter, g) == FieldConditions(q.filter, g)
  {
    FieldConditionsAppend(Others(q.filter, field), Tagged(field, cs), g);
    FieldConditionsOfOthers(q.filter, field, g);
    FieldConditionsOfTagged(field, cs, g);
  }

  /**
    After a replace, the list starts with the other fields' criteria, in their
    original order (a subsequence of the old list free of `field`), and ends
    with the supplied conditions bound to `field`.
   */
  lemma ReplaceLayout(q: QueryState, field: Field, cs: seq<Condition>)
    ensures var r := ReplaceFieldFilters(q, field, cs).filter;
            var k := |r| - |cs|;
            0 <= k && Subsequence(r[..k], q.filter) &&
            (forall i :: 0 <= i < k ==> r[i].field != field) &&
            (forall i :: k <= i < |r| ==> r[i] == Criterion(field, cs[i - k].op, cs[i - k].value))
  {
    var others := Others(q.filter, field);
    var r := ReplaceFieldFilters(q, field, cs).filter;
    TaggedShape(field, cs);
    OthersSubsequence(q.filter, field);
    OthersExcludesField(q.filter, field);
    assert r[..|others|] == others;
  }

  /**
    Applying the editor without edits re-commits the same criteria: every
    field's chips are unchanged and the list is a permutation of the old one
    (the edited field's entries move to the end).
   */
  lemma ApplyUneditedPermutes(q: QueryState, field: Field, g: Field)
    ensures var r := ReplaceFieldFilters(q, field, FieldConditions(q.filter, field));
            FieldConditions(r.filter, g) == FieldConditions(q.filter, g) &&
            multiset(r.filter) == multiset(q.filter)
  {
    var cs := FieldConditions(q.filter, field);
    if g == field {
      ReplaceResultForField(q, field, cs);
    } else {
      ReplaceKeepsOtherFields(q, field, cs, g);
    }
    OthersCharacterized(q.filter, field);
  }

  lemma {:induction false} DropFieldAtSpec(s: seq<Criterion>, field: Field, index: int, base: int)
    ensures DropFieldAt(s, field, index, base) ==
            if base <= index < base + |s| && s[index - base].field == field
            then s[..index - base] + s[index - base + 1..]
            else s
  {
    if s != [] {
      DropFieldAtSpec(s[1..], field, index, base + 1);
      var tail := DropFieldAt(s[1..], field, index, base + 1);
      if index == base && s[0].field == field {
        assert DropFieldAt(s, field, index, base) == tail;
        assert s[..0] + s[1..] == s[1..];
      } else {
        assert DropFieldAt(s, field, index, base) == [s[0]] + tail;
        if base < index < base + |s| && s[index - base].field == field {
          var j := index - base;
          assert s[1..][j - 1].field == field;
          assert tail == s[1..][..j - 1] + s[1..][j..];
          assert s[1..][..j - 1] == s[1..j];
          assert s[1..][j..] == s[j + 1..];
          assert [s[0]] + s[1..j] == s[..j];
        } else {
          assert tail == s[1..];
          assert [s[0]] + s[1..] == s;
        }
      }
    }
  }

  /**
    The table's chip removal deletes at most one entry: the one at global
    position `index`, and only if its field is `field`; otherwise nothing changes.
   */
  lemma RemoveFilterRule(q: QueryState, field: Field, index: int)
    ensures var r := RemoveFilter(q, field, index).filter;
            if 0 <= index < |q.filter| && q.filter[index].field == field
            then r == q.filter[..index] + q.filter[index + 1..]
            else r == q.filter
  {
    DropFieldAtSpec(q.filter, field, index, 0);
  }

  /** The table's removal, fed a per-column chip index, can delete another chip of that column. */
  lemma RemoveFilterWrongChip()
    ensures var a := Criterion("name", Eq, "x");
            var b1 := Criterion("age", Gt, "1");
            var b2 := Criterion("age", Lt, "9");
            var q := QueryState([a, b1, b2], [], Some(0), Some(10));
            // The second "age" chip has index 1 among "age" chips,
            // but global position 1 holds the first "age" chip.
            RemoveFilter(q, "age", 1).filter == [a, b2]
  {
    var a := Criterion("name", Eq, "x");
    var b1 := Criterion("age", Gt, "1");
    var b2 := Criterion("age", Lt, "9");
    var q := QueryState([a, b1, b2], [], Some(0), Some(10));
    RemoveFilterRule(q, "age", 1);
    assert q.filter[..1] + q.filter[2..] == [a, b2];
  }

  /**
    ... and when another column's entry comes first in the list, the
    column's first chip (index 0) can never be deleted.
   */
  lemma RemoveFilterIgnoredChip(q: QueryState, field: Field)
    requires q.filter != [] && q.filter[0].field != field
    ensures RemoveFilter(q, field, 0) == q
  {
    RemoveFilterRule(q, field, 0);
  }

  /** Dropping a chip of `field` leaves the chips of every other column alone. */
  lemma {:induction false} DropNthOfFieldOthers(s: seq<Criterion>, field: Field, k: int, g: Field)
    requires g != field
    ensures FieldConditions(DropNthOfField(s, field, k), g) == FieldConditions(s, g)
  {
    if s != [] {
      var k' := if s[0].field == field then k - 1 else k;
      if !(s[0].field == field && k == 0) {
        DropNthOfFieldOthers(s[1..], field, k', g);
        var t := DropNthOfField(s, field, k);
        assert t == [s[0]] + DropNthOfField(s[1..], field, k');
        assert t[0] == s[0] && t[1..] == DropNthOfField(s[1..], field, k');
      }
    }
  }

  /** Splicing out position `k` of a list with a head splices out `k - 1` of its tail. */
  lemma SpliceCons<T>(c: T, tail: seq<T>, k: int)
    requires 0 < k <= |tail|
    ensures ([c] + tail)[..k] + ([c] + tail)[k + 1..] == [c] + (tail[..k - 1] + tail[k..])
  {
    assert ([c] + tail)[..k] == [c] + tail[..k - 1];
    assert ([c] + tail)[k + 1..] == tail[k..];
  }

  lemma FieldConditionsCons(x: Criterion, rest: seq<Criterion>, field: Field)
    ensures FieldConditions([x] + rest, field) ==
            (if x.field == field then [Condition(x.op, x.value)] else []) + FieldConditions(rest, field)
  {
    assert ([x] + rest)[0] == x && ([x] + rest)[1..] == rest;
  }

  /** Dropping chip `k` of `field` removes exactly the `k`-th of its chips. */
  lemma {:induction false} DropNthOfFieldSame(s: seq<Criterion>, field: Field, k: int)
    ensures var cs := FieldConditions(s, field);
            FieldConditions(DropNthOfField(s, field, k), field) ==
            if 0 <= k < |cs| then cs[..k] + cs[k + 1..] else cs
  {
    if s != [] {
      var cs := FieldConditions(s, field);
      var tail := FieldConditions(s[1..], field);
      if s[0].field == field {
        var c := Condition(s[0].op, s[0].value);
        assert cs == [c] + tail;
        if k == 0 {
          assert DropNthOfField(s, field, k) == s[1..];
          assert cs[..0] + cs[1..] == tail;
        } else {
          var d := DropNthOfField(s[1..], field, k - 1);
          DropNthOfFieldSame(s[1..], field, k - 1);
          assert DropNthOfField(s, field, k) == [s[0]] + d;
          FieldConditionsCons(s[0], d, field);
          if 0 < k < |cs| {
            SpliceCons(c, tail, k);
          }
        }
      } else {
        var d := DropNthOfField(s[1..], field, k);
        DropNthOfFieldSame(s[1..], field, k);
        assert DropNthOfField(s, field, k) == [s[0]] + d;
        FieldConditionsCons(s[0], d, field);
      }
    }
  }

  /**
    Corrected removal: deleting chip `k` of `field` removes exactly the `k`-th
    of that column's chips and leaves every other column's chips alone.
   */
  lemma RemoveColumnChipRule(q: QueryState, field: Field, k: int, g: Field)
    ensures var cs := FieldConditions(q.filter, field);
            var r := RemoveColumnChip(q, field, k).filter;
            FieldConditions(r, field) == (if 0 <= k < |cs| then cs[..k] + cs[k + 1..] else cs) &&
            (g != field ==> FieldConditions(r, g) == FieldConditions(q.filter, g))
  {
    DropNthOfFieldSame(q.filter, field, k);
    if g != field {
      DropNthOfFieldOthers(q.filter, field, k, g);
    }
  }

  /** After going to page `p`, the widget shows page `p`. */
  lemma ChangePageShowsPage(q: QueryState, p: int)
    ensures DisplayedPage(ChangePage(q, p)) == p
    ensures Offset(ChangePage(q, p)) == p * PageSize(q)
  {
    FloorDivMultiple(p, PageSize(q));
  }

  /** After changing the page size the widget shows the first page at the new size. */
  lemma ChangeRowsPerPageFirstPage(q: QueryState, n: int)
    ensures DisplayedPage(ChangeRowsPerPage(q, n)) == 0
    ensures n != 0 ==> PageSize(ChangeRowsPerPage(q, n)) == n
  {
  }

  /** The example of a 20-row offset at 10 rows per page, then a switch to 25 rows. */
  lemma PagingExample()
    ensures var q := QueryState([], [], Some(20), Some(10));
            DisplayedPage(q) == 2 && DisplayedPage(ChangeRowsPerPage(q, 25)) == 0
  {
  }
}
