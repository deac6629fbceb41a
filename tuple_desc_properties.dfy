/** Properties of the schema descriptor that relate several operations:
    what construction and merge produce, how size adds up, what equality
    means, and the off-by-one in the positional accessors. */
module TupleDescProperties {
  import opened Results
  import opened TupleDescs

  /** The field types of a descriptor, in order: what equality compares. */
  function FieldTypes<T>(td: TupleDesc<T>): seq<T> {
    seq(|td.items|, i requires 0 <= i < |td.items| => td.items[i].fieldType)
  }

  // ---------------------------------------------------------------------------
  // Construction
  // ---------------------------------------------------------------------------

  /** After construction, field i has the i-th type and the i-th name (or ""
      when no name was supplied for it), and the accessors report exactly that. */
  lemma DescribedFields<T>(types: seq<T>, names: Option<seq<string>>, i: int)
    requires 0 <= i < |types|
    ensures NumFields(Described(types, names)) == |types|
    ensures GetFieldType(Described(types, names), i) == Ok(types[i])
    ensures GetFieldName(Described(types, names), i) ==
            Ok(if names.Some? && i < |names.value| then names.value[i] else "")
  {
  }

  /** The one-argument constructor leaves every field unnamed, so looking up
      any non-empty name fails. */
  lemma UnnamedHasOnlyEmptyNames<T>(types: seq<T>, name: string)
    requires name != ""
    ensures FirstIndex(Described(types, None).items, name) == None
  {
  }

  // ---------------------------------------------------------------------------
  // Size
  // ---------------------------------------------------------------------------

  /** The width of a concatenation of fields is the sum of the widths. */
  lemma {:induction false} SumOfLensAppend<T>(a: seq<TDItem<T>>, b: seq<TDItem<T>>, len: T -> nat)
    ensures SumOfLens(a + b, len) == SumOfLens(a, len) + SumOfLens(b, len)
  {
    if |a| == 0 {
      assert a + b == b;
    } else {
      assert (a + b)[1..] == a[1..] + b;
      SumOfLensAppend(a[1..], b, len);
    }
  }

  /** The size of a merged descriptor is the sum of the two sizes. */
  lemma GetSizeMerged<T>(td1: TupleDesc<T>, td2: TupleDesc<T>, len: T -> nat)
    ensures GetSize(Merged(td1, td2), len) == GetSize(td1, len) + GetSize(td2, len)
  {
    SumOfLensAppend(td1.items, td2.items, len);
  }

  /** The size depends on the types only: equal descriptors have equal sizes,
      whatever their names. */
  lemma {:induction false} SumOfLensSameTypes<T>(a: seq<TDItem<T>>, b: seq<TDItem<T>>, len: T -> nat)
    requires |a| == |b|
    requires forall i :: 0 <= i < |a| ==> a[i].fieldType == b[i].fieldType
    ensures SumOfLens(a, len) == SumOfLens(b, len)
  {
    if |a| != 0 {
      SumOfLensSameTypes(a[1..], b[1..], len);
    }
  }

  lemma EqualsSameSize<T>(td: TupleDesc<T>, that: TupleDesc<T>, len: T -> nat)
    requires Equals(td, that)
    ensures GetSize(td, len) == GetSize(that, len)
  {
    forall i | 0 <= i < |td.items|
      ensures td.items[i].fieldType == that.items[i].fieldType
    {
      assert GetFieldTypeChecked(td, i) == GetFieldTypeChecked(that, i);
    }
    SumOfLensSameTypes(td.items, that.items, len);
  }

  // ---------------------------------------------------------------------------
  // Merge
  // ---------------------------------------------------------------------------

  /** The accessors on a merged descriptor read td1 below td1's field count
      and td2 from there on. */
  lemma MergedFields<T>(td1: TupleDesc<T>, td2: TupleDesc<T>, i: int)
    requires 0 <= i < NumFields(td1) + NumFields(td2)
    ensures NumFields(Merged(td1, td2)) == NumFields(td1) + NumFields(td2)
    ensures i < NumFields(td1) ==>
              GetFieldType(Merged(td1, td2), i) == GetFieldType(td1, i) &&
              GetFieldName(Merged(td1, td2), i) == GetFieldName(td1, i)
    ensures NumFields(td1) <= i ==>
              GetFieldType(Merged(td1, td2), i) == GetFieldType(td2, i - NumFields(td1)) &&
              GetFieldName(Merged(td1, td2), i) == GetFieldName(td2, i - NumFields(td1))
  {
  }

  /** Looking a name up in a merged descriptor finds td1's first match when
      td1 has one, and otherwise td2's first match shifted past td1's fields. */
  lemma FirstIndexMerged<T>(td1: TupleDesc<T>, td2: TupleDesc<T>, name: string)
    ensures FirstIndex(Merged(td1, td2).items, name) ==
            match FirstIndex(td1.items, name)
            case Some(k) => Some(k)
            case None =>
              match FirstIndex(td2.items, name)
              case Some(k) => Some(NumFields(td1) + k)
              case None => None
  {
    var items := Merged(td1, td2).items;
    var r := FirstIndex(items, name);
    var n1 := NumFields(td1);
    match FirstIndex(td1.items, name)
    case Some(k) =>
      assert items[k] == td1.items[k];
      assert r.Some? && r.value <= k;
    case None =>
      match FirstIndex(td2.items, name)
      case Some(k) =>
        assert items[n1 + k] == td2.items[k];
        assert r.Some? && n1 <= r.value <= n1 + k;
        assert items[r.value] == td2.items[r.value - n1];
      case None =>
  }

  // ---------------------------------------------------------------------------
  // Equality
  // ---------------------------------------------------------------------------

  /** Two descriptors are equal exactly when their sequences of field types
      are equal. */
  lemma EqualsIffSameTypes<T>(td: TupleDesc<T>, that: TupleDesc<T>)
    ensures Equals(td, that) <==> FieldTypes(td) == FieldTypes(that)
  {
    if FieldTypes(td) == FieldTypes(that) {
      forall i | 0 <= i < NumFields(td)
        ensures GetFieldTypeChecked(td, i) == GetFieldTypeChecked(that, i)
      {
        assert FieldTypes(td)[i] == FieldTypes(that)[i];
      }
    }
    if Equals(td, that) {
      forall i | 0 <= i < NumFields(td)
        ensures FieldTypes(td)[i] == FieldTypes(that)[i]
      {
        assert GetFieldTypeChecked(td, i) == GetFieldTypeChecked(that, i);
      }
    }
  }

  /** Equality is an equivalence relation. */
  lemma EqualsIsEquivalence<T>(a: TupleDesc<T>, b: TupleDesc<T>, c: TupleDesc<T>)
    ensures Equals(a, a)
    ensures Equals(a, b) ==> Equals(b, a)
    ensures Equals(a, b) && Equals(b, c) ==> Equals(a, c)
  {
  }

  /** Names take no part in equality: two descriptors built from the same
      types are equal whatever names they were given. */
  lemma EqualsIgnoresNames<T>(types: seq<T>, names1: Option<seq<string>>, names2: Option<seq<string>>)
    ensures Equals(Described(types, names1), Described(types, names2))
  {
  }

  /** Order matters: exchanging two fields of different types gives an
      unequal descriptor, whatever the names. */
  lemma EqualsOrderSensitive<T>(s: seq<T>, i: nat, j: nat, names: Option<seq<string>>)
    requires i < j < |s| && s[i] != s[j]
    ensures !Equals(Described(s, names), Described(s[i := s[j]][j := s[i]], names))
  {
    assert GetFieldTypeChecked(Described(s, names), i) == Ok(s[i]);
    assert GetFieldTypeChecked(Described(s[i := s[j]][j := s[i]], names), i) == Ok(s[j]);
  }

  /** Merging equal descriptors gives equal descriptors. */
  lemma MergedRespectsEquals<T>(a: TupleDesc<T>, b: TupleDesc<T>, c: TupleDesc<T>, d: TupleDesc<T>)
    requires Equals(a, c) && Equals(b, d)
    ensures Equals(Merged(a, b), Merged(c, d))
  {
  }

  // ---------------------------------------------------------------------------
  // The accessor guard
  // ---------------------------------------------------------------------------

  /** At index NumFields(td) the accessors as written raise IndexOutOfBounds,
      where their documented contract and the corrected guard raise
      NoSuchElement; on every other index the two versions agree. */
  lemma AccessorGuardOffByOne<T>(td: TupleDesc<T>, i: int)
    ensures GetFieldType(td, NumFields(td)) == Err(IndexOutOfBounds)
    ensures GetFieldName(td, NumFields(td)) == Err(IndexOutOfBounds)
    ensures GetFieldTypeChecked(td, NumFields(td)) == Err(NoSuchElement)
    ensures GetFieldNameChecked(td, NumFields(td)) == Err(NoSuchElement)
    ensures i != NumFields(td) ==>
              GetFieldType(td, i) == GetFieldTypeChecked(td, i) &&
              GetFieldName(td, i) == GetFieldNameChecked(td, i)
  {
  }
}
