/**
  The filter editor: a tentative list of conditions for one column and a
  draft condition, edited until the user applies or cancels; and the table of
  operators each column type offers.
 */
module Popover {
  import opened Model

  // ---------------------------------------------------------------------------
  // Operators per column type
  // ---------------------------------------------------------------------------

  datatype OpEntry = OpEntry(op: Op, caption: string)

  /** The operators offered for a column type, with their menu labels, in menu order. */
  function Operations(kind: ColumnType): (r: seq<OpEntry>)
    ensures r != [] && r[0] == OpEntry(Eq, "Equals")
    ensures forall i :: 0 <= i < |r| ==> r[i].caption != ""
  {
    match kind
    case StringColumn => [
      OpEntry(Eq, "Equals"), OpEntry(Ne, "Not Equals"), OpEntry(Contains, "Contains"),
      OpEntry(StartsWith, "Starts With"), OpEntry(EndsWith, "Ends With")]
    case NumberColumn => [
      OpEntry(Eq, "Equals"), OpEntry(Ne, "Not Equals"), OpEntry(Lt, "Less Than"),
      OpEntry(Lte, "Less Than or Equal"), OpEntry(Gt, "Greater Than"),
      OpEntry(Gte, "Greater Than or Equal")]
    case DateColumn => [
      OpEntry(Eq, "Equals"), OpEntry(Ne, "Not Equals"), OpEntry(Lt, "Before"),
      OpEntry(Lte, "Before or On"), OpEntry(Gt, "After"), OpEntry(Gte, "After or On")]
  }

  /** The operators named by a list of menu entries. */
  function OpsOf(entries: seq<OpEntry>): set<Op>
  {
    if entries == [] then {} else {entries[0].op} + OpsOf(entries[1..])
  }

  /** The set of operators a column type allows. */
  function AllowedOps(kind: ColumnType): set<Op>
  {
    OpsOf(Operations(kind))
  }

  /** The chip label of an operator: the first menu entry for it, or "" when there is none. */
  function OpLabel(entries: seq<OpEntry>, op: Op): (l: string)
    ensures l != "" ==> exists i :: 0 <= i < |entries| && entries[i].op == op && entries[i].caption == l
  {
    if entries == [] then ""
    else if entries[0].op == op then entries[0].caption
    else OpLabel(entries[1..], op)
  }

  /** An operator is in the set of a list of entries exactly when some entry names it. */
  lemma {:induction false} OpsOfMembers(entries: seq<OpEntry>, op: Op)
    ensures op in OpsOf(entries) <==> exists i :: 0 <= i < |entries| && entries[i].op == op
  {
    if entries != [] {
      OpsOfMembers(entries[1..], op);
      if exists i :: 0 <= i < |entries[1..]| && entries[1..][i].op == op {
        var i :| 0 <= i < |entries[1..]| && entries[1..][i].op == op;
        assert entries[i + 1].op == op;
      }
      if exists i :: 0 <= i < |entries| && entries[i].op == op {
        var i :| 0 <= i < |entries| && entries[i].op == op;
        if i > 0 {
          assert entries[1..][i - 1].op == op;
        }
      }
    }
  }

  /** String columns offer equality and the three text matches. */
  lemma StringOperators()
    ensures AllowedOps(StringColumn) == {Eq, Ne, Contains, StartsWith, EndsWith}
  {
  }

  lemma NumberOperators()
    ensures AllowedOps(NumberColumn) == {Eq, Ne, Lt, Lte, Gt, Gte}
  {
  }

  lemma DateOperators()
    ensures AllowedOps(DateColumn) == {Eq, Ne, Lt, Lte, Gt, Gte}
  {
  }

  /** Number and date columns offer the same six comparisons. */
  lemma ComparisonOperators()
    ensures AllowedOps(NumberColumn) == AllowedOps(DateColumn) == {Eq, Ne, Lt, Lte, Gt, Gte}
  {
    NumberOperators();
    DateOperators();
  }

  /** Every column type offers Eq and Ne, and no operator appears twice in a menu. */
  lemma CommonOperators(kind: ColumnType)
    ensures Eq in AllowedOps(kind) && Ne in AllowedOps(kind)
  {
    StringOperators();
    ComparisonOperators();
  }

  /** No menu lists an operator twice. */
  lemma MenuHasNoDuplicates(kind: ColumnType)
    ensures forall i, j :: 0 <= i < j < |Operations(kind)| ==> Operations(kind)[i].op != Operations(kind)[j].op
  {
  }

  /** A chip shows a non-empty operator label exactly when its operator is allowed for the column. */
  lemma {:induction false} OpLabelOfAllowed(entries: seq<OpEntry>, op: Op)
    requires forall i :: 0 <= i < |entries| ==> entries[i].caption != ""
    ensures OpLabel(entries, op) != "" <==> exists i :: 0 <= i < |entries| && entries[i].op == op
  {
    if entries != [] && entries[0].op != op {
      OpLabelOfAllowed(entries[1..], op);
      if exists i :: 0 <= i < |entries| && entries[i].op == op {
        var i :| 0 <= i < |entries| && entries[i].op == op;
        assert entries[1..][i - 1].op == op;
      }
    }
  }

  /** A chip under a column shows an operator label exactly when the column's menu offers that operator. */
  lemma MenuLabels(kind: ColumnType, op: Op)
    ensures OpLabel(Operations(kind), op) != "" <==> op in AllowedOps(kind)
  {
    OpLabelOfAllowed(Operations(kind), op);
    OpsOfMembers(Operations(kind), op);
  }

  // ---------------------------------------------------------------------------
  // The editor's state
  // ---------------------------------------------------------------------------

  /** The add-form. A missing operator stands for the empty selection, which JavaScript treats as false. */
  datatype Draft = Draft(op: Option<Op>, value: string)

  const EmptyDraft: Draft := Draft(Some(Eq), "")

  /** One edit of the add-form: the operator select or the value box. */
  datatype DraftEdit = EditOp(op: Option<Op>) | EditValue(value: string)

  /** What the editor hands its parent: a commit for a field, if any, and whether it closes. */
  datatype Outcome = Outcome(commit: Option<(Field, seq<Condition>)>, close: bool)

  /** The add button does something only when both the operator and the value are set. */
  predicate CanAdd(d: Draft)
  {
    d.op.Some? && d.value != ""
  }

  /**
    The fresh form cannot be added until a value is typed; a form whose
    operator or value was cleared cannot be added either.
   */
  lemma AddGuard(d: Draft, v: string)
    ensures !CanAdd(EmptyDraft)
    ensures CanAdd(EditDraft(EmptyDraft, EditValue(v))) <==> v != ""
    ensures !CanAdd(EditDraft(d, EditOp(None))) && !CanAdd(EditDraft(d, EditValue("")))
  {
  }

  /** A field key is truthy when present and not the empty string. */
  predicate Truthy(field: Option<Field>)
  {
    field.Some? && field.value != ""
  }

  /** Apply one edit of the add-form; the other key keeps its value. */
  function EditDraft(d: Draft, e: DraftEdit): (r: Draft)
    ensures e.EditOp? ==> r.op == e.op && r.value == d.value
    ensures e.EditValue? ==> r.value == e.value && r.op == d.op
  {
    match e
    case EditOp(o) => d.(op := o)
    case EditValue(v) => d.(value := v)
  }

  /** Keep the entries of `s` except the one at position `index`; `s` starts at position `base`. */
  function DropIndex<T>(s: seq<T>, index: int, base: int): seq<T>
  {
    if s == [] then []
    else (if base != index then [s[0]] else []) + DropIndex(s[1..], index, base + 1)
  }

  lemma {:induction false} DropIndexSpec<T>(s: seq<T>, index: int, base: int)
    ensures DropIndex(s, index, base) ==
            if base <= index < base + |s| then s[..index - base] + s[index - base + 1..] else s
  {
    if s != [] {
      DropIndexSpec(s[1..], index, base + 1);
      var tail := DropIndex(s[1..], index, base + 1);
      if index == base {
        assert DropIndex(s, index, base) == tail;
        assert s[..0] + s[1..] == s[1..];
      } else {
        assert DropIndex(s, index, base) == [s[0]] + tail;
        if base < index < base + |s| {
          var j := index - base;
          assert tail == s[1..][..j - 1] + s[1..][j..];
          assert s[1..][..j - 1] == s[1..j];
          assert s[1..][j..] == s[j + 1..];
          assert [s[0]] + s[1..j] == s[..j];
        } else {
          assert tail == s[1..];
          assert [s[0]] + s[1..] == s;
        }
      }
    }
  }

  /** Removing chip `k` deletes exactly that position and keeps the rest in order; out of range, nothing. */
  lemma RemoveIndexRule<T>(s: seq<T>, k: int)
    ensures var r := DropIndex(s, k, 0);
            (0 <= k < |s| ==>
               |r| == |s| - 1 &&
               (forall i :: 0 <= i < k ==> r[i] == s[i]) &&
               (forall i :: k <= i < |r| ==> r[i] == s[i + 1])) &&
            (!(0 <= k < |s|) ==> r == s)
  {
    DropIndexSpec(s, k, 0);
  }

  class FilterEditor {
    /** The tentative conditions shown as chips. */
    var tempFilters: seq<Condition>
    /** The add-form. */
    var newFilter: Draft

    constructor (filters: seq<Condition>)
      ensures tempFilters == filters && newFilter == EmptyDraft
    {
      tempFilters, newFilter := filters, EmptyDraft;
    }

    /** The committed list changed: the tentative list starts over from it. */
    method Resync(filters: seq<Condition>)
      modifies this
      ensures tempFilters == filters && newFilter == old(newFilter)
    {
      tempFilters := filters;
    }

    /** Add the draft to the end of the tentative list, if it is complete, and clear the form. */
    method HandleAddFilter() returns (added: bool)
      modifies this
      ensures added <==> CanAdd(old(newFilter))
      ensures added ==> tempFilters == old(tempFilters) + [Condition(old(newFilter).op.value, old(newFilter).value)]
      ensures added ==> newFilter == EmptyDraft
      ensures !added ==> tempFilters == old(tempFilters) && newFilter == old(newFilter)
    {
      added := CanAdd(newFilter);
      if added {
        tempFilters := tempFilters + [Condition(newFilter.op.value, newFilter.value)];
        newFilter := EmptyDraft;
      }
    }

    /** Delete the chip at `index` from the tentative list. */
    method HandleRemoveFilter(index: int)
      modifies this
      ensures tempFilters == DropIndex(old(tempFilters), index, 0)
      ensures newFilter == old(newFilter)
    {
      tempFilters := DropIndex(tempFilters, index, 0);
    }

    /** Commit the tentative list for `field` when a field is set; always close. */
    method HandleApply(field: Option<Field>) returns (out: Outcome)
      ensures out.close
      ensures out.commit.Some? <==> field.Some? && field.value != ""
      ensures out.commit.Some? ==> out.commit.value == (field.value, tempFilters)
    {
      var commit := if Truthy(field) then Some((field.value, tempFilters)) else None;
      out := Outcome(commit, true);
    }

    /** Throw the tentative edits away, reverting to the committed list, and close. */
    method HandleCancel(filters: seq<Condition>) returns (out: Outcome)
      modifies this
      ensures tempFilters == filters && newFilter == old(newFilter)
      ensures out.commit.None? && out.close
    {
      tempFilters := filters;
      out := Outcome(None, true);
    }

    /** Edit one key of the add-form. */
    method HandleNewFilterChange(edit: DraftEdit)
      modifies this
      ensures newFilter == EditDraft(old(newFilter), edit)
      ensures tempFilters == old(tempFilters)
    {
      newFilter := EditDraft(newFilter, edit);
    }
  }
}
