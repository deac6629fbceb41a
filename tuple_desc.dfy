/** The schema descriptor of SimpleDB: an ordered list of (field type, field
    name) pairs, built once; none of the descriptor's own methods change it.

    The field types themselves (SimpleDB's `Type`) are not part of this model:
    they are the type parameter `T`, compared with `==`, and their byte widths
    are the function `len: T -> nat` handed to `GetSize`. */
module TupleDescs {
  import opened Results

  /** One field: its type and its (possibly empty) name. */
  datatype TDItem<T> = TDItem(fieldType: T, fieldName: string)

  /** A descriptor is the sequence of its fields, in order. */
  datatype TupleDesc<T> = TupleDesc(items: seq<TDItem<T>>)

  // ---------------------------------------------------------------------------
  // Construction
  // ---------------------------------------------------------------------------

  /** The name the constructor gives field `i`: the i-th supplied name when
      there is one, the empty string otherwise. */
  function NameAt(names: Option<seq<string>>, i: nat): string {
    if names.Some? && i < |names.value| then names.value[i] else ""
  }

  /** The optional name array as a value (`null` is `None`). */
  ghost function NamesOf(fieldAr: array?<string>): Option<seq<string>>
    reads fieldAr
  {
    if fieldAr == null then None else Some(fieldAr[..])
  }

  /** The descriptor the constructor builds from `types` and `names`. */
  function Described<T>(types: seq<T>, names: Option<seq<string>>): TupleDesc<T> {
    TupleDesc(seq(|types|, i requires 0 <= i < |types| => TDItem(types[i], NameAt(names, i))))
  }

  /** Appends one field per entry of `typeAr`, pairing it with the name at the
      same position of `fieldAr`, or with "" when `fieldAr` is null or too short. */
  method InitializeTdItems<T>(typeAr: array<T>, fieldAr: array?<string>) returns (items: seq<TDItem<T>>)
    ensures |items| == typeAr.Length
    ensures forall i :: 0 <= i < typeAr.Length ==> items[i].fieldType == typeAr[i]
    ensures forall i :: 0 <= i < typeAr.Length ==>
              items[i].fieldName == (if fieldAr != null && i < fieldAr.Length then fieldAr[i] else "")
    ensures TupleDesc(items) == Described(typeAr[..], NamesOf(fieldAr))
  {
    items := [];
    for i := 0 to typeAr.Length
      invariant |items| == i
      invariant forall k :: 0 <= k < i ==> items[k] == TDItem(typeAr[k], NameAt(NamesOf(fieldAr), k))
    {
      var fieldName := if fieldAr != null && i < fieldAr.Length then fieldAr[i] else "";
      items := items + [TDItem(typeAr[i], fieldName)];
    }
  }

  /** The two-argument constructor: typed fields with the supplied names. */
  method Create<T>(typeAr: array<T>, fieldAr: array?<string>) returns (td: TupleDesc<T>)
    ensures NumFields(td) == typeAr.Length
    ensures forall i :: 0 <= i < typeAr.Length ==>
              td.items[i] == TDItem(typeAr[i], if fieldAr != null && i < fieldAr.Length then fieldAr[i] else "")
    ensures td == Described(typeAr[..], NamesOf(fieldAr))
  {
    var items := InitializeTdItems(typeAr, fieldAr);
    td := TupleDesc(items);
  }

  /** The one-argument constructor: typed fields, every name empty. */
  method CreateUnnamed<T>(typeAr: array<T>) returns (td: TupleDesc<T>)
    ensures NumFields(td) == typeAr.Length
    ensures forall i :: 0 <= i < typeAr.Length ==> td.items[i] == TDItem(typeAr[i], "")
    ensures td == Described(typeAr[..], None)
  {
    td := Create(typeAr, null);
  }

  // ---------------------------------------------------------------------------
  // Accessors
  // ---------------------------------------------------------------------------

  /** numFields: the number of entries in the field list. */
  function NumFields<T>(td: TupleDesc<T>): (n: nat)
    ensures n == |td.items|
  {
    |td.items|
  }

  /** getFieldName as written: the guard rejects `i > NumFields(td)` only, so
      `i == NumFields(td)` reaches the list access and fails there. */
  function GetFieldName<T>(td: TupleDesc<T>, i: int): (r: Result<string>)
    ensures r.Ok? <==> 0 <= i < NumFields(td)
    ensures r.Ok? ==> r.value == td.items[i].fieldName
    ensures r == Err(NoSuchElement) <==> i < 0 || NumFields(td) < i
    ensures r == Err(IndexOutOfBounds) <==> i == NumFields(td)
  {
    if i > NumFields(td) || i < 0 then Err(NoSuchElement)
    else if i == NumFields(td) then Err(IndexOutOfBounds)
    else Ok(td.items[i].fieldName)
  }

  /** getFieldType as written, with the same guard as GetFieldName. */
  function GetFieldType<T>(td: TupleDesc<T>, i: int): (r: Result<T>)
    ensures r.Ok? <==> 0 <= i < NumFields(td)
    ensures r.Ok? ==> r.value == td.items[i].fieldType
    ensures r == Err(NoSuchElement) <==> i < 0 || NumFields(td) < i
    ensures r == Err(IndexOutOfBounds) <==> i == NumFields(td)
  {
    if i > NumFields(td) || i < 0 then Err(NoSuchElement)
    else if i == NumFields(td) then Err(IndexOutOfBounds)
    else Ok(td.items[i].fieldType)
  }

  /** getFieldName with the guard its documentation describes: every invalid
      index raises NoSuchElementException. */
  function GetFieldNameChecked<T>(td: TupleDesc<T>, i: int): (r: Result<string>)
    ensures r.Ok? <==> 0 <= i < NumFields(td)
    ensures r.Ok? ==> r.value == td.items[i].fieldName
    ensures r.Err? ==> r.error == NoSuchElement
    ensures 0 <= i < NumFields(td) ==> r == GetFieldName(td, i)
  {
    if i >= NumFields(td) || i < 0 then Err(NoSuchElement)
    else Ok(td.items[i].fieldName)
  }

  /** getFieldType with the documented guard. */
  function GetFieldTypeChecked<T>(td: TupleDesc<T>, i: int): (r: Result<T>)
    ensures r.Ok? <==> 0 <= i < NumFields(td)
    ensures r.Ok? ==> r.value == td.items[i].fieldType
    ensures r.Err? ==> r.error == NoSuchElement
    ensures 0 <= i < NumFields(td) ==> r == GetFieldType(td, i)
  {
    if i >= NumFields(td) || i < 0 then Err(NoSuchElement)
    else Ok(td.items[i].fieldType)
  }

  // ---------------------------------------------------------------------------
  // Lookup by name
  // ---------------------------------------------------------------------------

  /** The position of the first field named `name`, if any. */
  function FirstIndex<T>(items: seq<TDItem<T>>, name: string): (r: Option<nat>)
    ensures r.Some? ==> r.value < |items| && items[r.value].fieldName == name
    ensures r.Some? ==> forall j :: 0 <= j < r.value ==> items[j].fieldName != name
    ensures r.None? ==> forall j :: 0 <= j < |items| ==> items[j].fieldName != name
  {
    if |items| == 0 then None
    else if items[0].fieldName == name then Some(0)
    else match FirstIndex(items[1..], name)
      case None => None
      case Some(k) => Some(k + 1)
  }

  /** fieldNameToIndex: scans the fields in order and returns the first
      position whose name equals `name`; NoSuchElement when there is none. */
  method FieldNameToIndex<T>(td: TupleDesc<T>, name: string) returns (r: Result<nat>)
    ensures r.Ok? ==> r.value < NumFields(td) && td.items[r.value].fieldName == name
    ensures r.Ok? ==> forall j :: 0 <= j < r.value ==> td.items[j].fieldName != name
    ensures r.Err? ==> r.error == NoSuchElement
    ensures r.Err? ==> forall j :: 0 <= j < NumFields(td) ==> td.items[j].fieldName != name
    ensures r.Ok? <==> FirstIndex(td.items, name).Some?
    ensures r.Ok? ==> r.value == FirstIndex(td.items, name).value
  {
    var index := 0;
    while index < NumFields(td)
      invariant 0 <= index <= NumFields(td)
      invariant forall j :: 0 <= j < index ==> td.items[j].fieldName != name
    {
      if td.items[index].fieldName == name {
        return Ok(index);
      }
      index := index + 1;
    }
    return Err(NoSuchElement);
  }

  // ---------------------------------------------------------------------------
  // Size
  // ---------------------------------------------------------------------------

  /** The sum of the widths of the fields' types. */
  function SumOfLens<T>(items: seq<TDItem<T>>, len: T -> nat): (s: nat)
    ensures forall i :: 0 <= i < |items| ==> len(items[i].fieldType) <= s
  {
    if |items| == 0 then 0 else len(items[0].fieldType) + SumOfLens(items[1..], len)
  }

  /** getSize: the byte size of a tuple with this descriptor. */
  function GetSize<T>(td: TupleDesc<T>, len: T -> nat): (s: nat)
    ensures forall i :: 0 <= i < NumFields(td) ==> len(td.items[i].fieldType) <= s
    ensures NumFields(td) == 0 ==> s == 0
  {
    SumOfLens(td.items, len)
  }

  // ---------------------------------------------------------------------------
  // Merge
  // ---------------------------------------------------------------------------

  /** The descriptor merge produces: td1's fields followed by td2's. */
  function Merged<T>(td1: TupleDesc<T>, td2: TupleDesc<T>): TupleDesc<T> {
    TupleDesc(td1.items + td2.items)
  }

  /** merge: copies td1's then td2's types and names into two fresh arrays and
      builds a descriptor from them. */
  method Merge<T(0)>(td1: TupleDesc<T>, td2: TupleDesc<T>) returns (td: TupleDesc<T>)
    ensures NumFields(td) == NumFields(td1) + NumFields(td2)
    ensures forall i :: 0 <= i < NumFields(td1) ==> td.items[i] == td1.items[i]
    ensures forall i :: 0 <= i < NumFields(td2) ==> td.items[NumFields(td1) + i] == td2.items[i]
    ensures td == Merged(td1, td2)
  {
    var n1, n2 := NumFields(td1), NumFields(td2);
    var typeAr := new T[n1 + n2];
    var fieldAr := new string[n1 + n2];
    for i := 0 to n1
      invariant forall k :: 0 <= k < i ==> typeAr[k] == td1.items[k].fieldType && fieldAr[k] == td1.items[k].fieldName
    {
      var t := GetFieldTypeChecked(td1, i);
      var f := GetFieldNameChecked(td1, i);
      typeAr[i] := t.value;
      fieldAr[i] := f.value;
    }
    for i := 0 to n2
      invariant forall k :: 0 <= k < n1 ==> typeAr[k] == td1.items[k].fieldType && fieldAr[k] == td1.items[k].fieldName
      invariant forall k :: 0 <= k < i ==> typeAr[n1 + k] == td2.items[k].fieldType && fieldAr[n1 + k] == td2.items[k].fieldName
    {
      var t := GetFieldTypeChecked(td2, i);
      var f := GetFieldNameChecked(td2, i);
      typeAr[n1 + i] := t.value;
      fieldAr[n1 + i] := f.value;
    }
    td := Create(typeAr, fieldAr);
    forall k | 0 <= k < n1 + n2
      ensures td.items[k] == (td1.items + td2.items)[k]
    {
      assert td.items[k] == TDItem(typeAr[k], fieldAr[k]);
      if k >= n1 {
        assert typeAr[n1 + (k - n1)] == td2.items[k - n1].fieldType;
        assert fieldAr[n1 + (k - n1)] == td2.items[k - n1].fieldName;
      }
    }
    assert td.items == td1.items + td2.items;
  }

  // ---------------------------------------------------------------------------
  // Equality and hashing
  // ---------------------------------------------------------------------------

  /** equals: same number of fields and equal types position by position;
      names take no part. */
  predicate Equals<T(==)>(td: TupleDesc<T>, that: TupleDesc<T>): (b: bool)
    ensures b <==> NumFields(td) == NumFields(that) &&
                   forall i :: 0 <= i < NumFields(td) ==> td.items[i].fieldType == that.items[i].fieldType
  {
    NumFields(td) == NumFields(that) &&
    (AccessorsAgreeIffTypesAgree(td, that);
     forall i :: 0 <= i < NumFields(td) ==> GetFieldTypeChecked(td, i) == GetFieldTypeChecked(that, i))
  }

  /** Comparing the results of getFieldType at every index is comparing the
      stored types. */
  lemma AccessorsAgreeIffTypesAgree<T>(td: TupleDesc<T>, that: TupleDesc<T>)
    requires NumFields(td) == NumFields(that)
    ensures (forall i :: 0 <= i < NumFields(td) ==> GetFieldTypeChecked(td, i) == GetFieldTypeChecked(that, i))
        <==> (forall i :: 0 <= i < NumFields(td) ==> td.items[i].fieldType == that.items[i].fieldType)
  {
    if forall i :: 0 <= i < NumFields(td) ==> GetFieldTypeChecked(td, i) == GetFieldTypeChecked(that, i) {
      forall i | 0 <= i < NumFields(td)
        ensures td.items[i].fieldType == that.items[i].fieldType
      {
        assert GetFieldTypeChecked(td, i) == GetFieldTypeChecked(that, i);
      }
    }
  }

  /** hashCode is deliberately unimplemented: every call throws. */
  function HashCode<T>(td: TupleDesc<T>): (r: Result<int>)
    ensures r.Err? && r.error == UnsupportedOperation
  {
    Err(UnsupportedOperation)
  }
}
