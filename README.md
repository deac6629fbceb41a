# SimpleDB tuple descriptor in Dafny

This project models `TupleDesc`, the schema descriptor of the SimpleDB storage
engine. A descriptor is an ordered list of `TDItem(fieldType, fieldName)`
pairs. It is built once, from an array of field types and an optional array
of field names, and none of the descriptor's own methods change it. The
model covers what the descriptor offers:

- the two constructors and their shared loop `initializeTdItems`;
- the positional accessors `numFields`, `getFieldName` and `getFieldType`;
- the first-match lookup `fieldNameToIndex`;
- the byte size `getSize`;
- the static `merge`;
- `equals` and the deliberately failing `hashCode`.

Layout:

- `results.dfy` (module `Results`): the exceptions the operations throw, as
  the `Error` datatype, plus `Result` and `Option`.
- `tuple_desc.dfy` (module `TupleDescs`): the descriptor and its operations.
  The descriptor is a value, `datatype TupleDesc<T>` holding a
  `seq<TDItem<T>>`, because none of its own methods mutate it after
  construction. The parts
  that the Java code writes as loops are methods with loop invariants:
  `InitializeTdItems`, the constructors `Create` and `CreateUnnamed`, `Merge`
  and `FieldNameToIndex`. The parts that are plain reads or stream
  expressions are functions: `NumFields`, the accessors, `GetSize` and
  `Equals`. The functions `Described`, `FirstIndex` and `Merged` specify
  what the methods compute, and the lemmas use them.
- `tuple_desc_properties.dfy` (module `TupleDescProperties`): lemmas that
  relate several operations.

SimpleDB's `Type` enumeration is not part of this model. The field type is
the type parameter `T`, and Java's `Type.equals` becomes Dafny's `==`. The
byte width `Type.getLen()` becomes a function `len: T -> nat` passed to
`GetSize`. Java arrays stay arrays: `typeAr` is an `array<T>`, and a `null`
`fieldAr` is a null `array?<string>`.

The accessor guard `i > numFields() || i < 0` is modelled as written. An
index `i == numFields()` passes the guard. It then fails inside `List.get`
with `IndexOutOfBoundsException`, modelled as `Err(IndexOutOfBounds)`. Every
other invalid index gives `Err(NoSuchElement)`.

## Model

| member | source | states |
|---|---|---|
| `TupleDescs.InitializeTdItems` | src/java/simpledb/TupleDesc.java:88-93 | one field per entry of `typeAr`, in order, with type `typeAr[i]` and name `fieldAr[i]`, or `""` when `fieldAr` is null or shorter than `i + 1` |
| `TupleDescs.Create` | src/java/simpledb/TupleDesc.java:65-70 | the descriptor has `typeAr.Length` fields; field `i` is `(typeAr[i], fieldAr[i] or "")`; it equals `Described(typeAr, names)` |
| `TupleDescs.CreateUnnamed` | src/java/simpledb/TupleDesc.java:80-85 | the descriptor has `typeAr.Length` fields; field `i` is `(typeAr[i], "")` |
| `TupleDescs.NumFields` | src/java/simpledb/TupleDesc.java:98-102 | the field count is the number of entries in the field list; `Create` and `Merge` fix its value |
| `TupleDescs.GetFieldName` | src/java/simpledb/TupleDesc.java:113-121 | succeeds exactly for `0 <= i < numFields()` and then returns field `i`'s name; NoSuchElement exactly when `i < 0` or `i > numFields()`; IndexOutOfBounds exactly when `i == numFields()` |
| `TupleDescs.GetFieldType` | src/java/simpledb/TupleDesc.java:133-140 | succeeds exactly for `0 <= i < numFields()` and then returns field `i`'s type; NoSuchElement exactly when `i < 0` or `i > numFields()`; IndexOutOfBounds exactly when `i == numFields()` |
| `TupleDescs.GetFieldNameChecked` | src/java/simpledb/TupleDesc.java:104-121 | the documented contract: succeeds exactly on valid indices, every failure is NoSuchElement, and on valid indices it agrees with `GetFieldName` |
| `TupleDescs.GetFieldTypeChecked` | src/java/simpledb/TupleDesc.java:123-140 | the documented contract: succeeds exactly on valid indices, every failure is NoSuchElement, and on valid indices it agrees with `GetFieldType` |
| `TupleDescs.FirstIndex` | src/java/simpledb/TupleDesc.java:142-161 | when some field has the name, it returns an index whose field has it and every earlier field has a different name; when it returns none, no field has the name |
| `TupleDescs.FieldNameToIndex` | src/java/simpledb/TupleDesc.java:151-161 | returns the smallest index whose name equals `name`, and every earlier name differs; otherwise throws NoSuchElement, and then no field has the name; the result agrees with `FirstIndex` |
| `TupleDescs.SumOfLens` | src/java/simpledb/TupleDesc.java:167-173 | the size is at least the width of every single field |
| `TupleDescs.GetSize` | src/java/simpledb/TupleDesc.java:167-173 | the size is at least the width of every field and is 0 for a descriptor without fields; it is additive under merge (`GetSizeMerged`) |
| `TupleDescs.Merge` | src/java/simpledb/TupleDesc.java:185-202 | the result has `td1.numFields() + td2.numFields()` fields; the first `td1.numFields()` are td1's fields in order; the rest are td2's fields in order |
| `TupleDescs.Equals` | src/java/simpledb/TupleDesc.java:213-222 | holds exactly when the field counts match and the stored types are equal at every position; names do not appear in the condition |
| `TupleDescs.AccessorsAgreeIffTypesAgree` | src/java/simpledb/TupleDesc.java:219-221 | for descriptors of equal length, `getFieldType` gives equal results at every index exactly when the stored types are equal at every index |
| `TupleDescs.HashCode` | src/java/simpledb/TupleDesc.java:224-228 | never returns a value: always UnsupportedOperation |
| `TupleDescProperties.DescribedFields` | src/java/simpledb/TupleDesc.java:88-140 | after construction, `numFields()` is `typeAr.length`, and the accessors return the i-th type and the i-th name, or `""` when no name was supplied |
| `TupleDescProperties.UnnamedHasOnlyEmptyNames` | src/java/simpledb/TupleDesc.java:80-90 | a descriptor built without names has no field with a non-empty name |
| `TupleDescProperties.SumOfLensAppend` | src/java/simpledb/TupleDesc.java:167-173 | the size of a concatenation of fields is the sum of the two sizes |
| `TupleDescProperties.GetSizeMerged` | src/java/simpledb/TupleDesc.java:167-202 | `getSize(merge(a, b)) == getSize(a) + getSize(b)` |
| `TupleDescProperties.SumOfLensSameTypes` | src/java/simpledb/TupleDesc.java:167-173 | the size depends only on the types, position by position, not on the names |
| `TupleDescProperties.EqualsSameSize` | src/java/simpledb/TupleDesc.java:167-222 | descriptors that are `equals` have the same `getSize` |
| `TupleDescProperties.MergedFields` | src/java/simpledb/TupleDesc.java:185-202 | on a merged descriptor, both accessors at `i` give td1's answer below td1's field count and td2's answer at `i - td1.numFields()` above it |
| `TupleDescProperties.FirstIndexMerged` | src/java/simpledb/TupleDesc.java:151-202 | looking a name up in `merge(a, b)` finds a's first match if a has one, otherwise b's first match shifted by `a.numFields()`, otherwise nothing |
| `TupleDescProperties.EqualsIffSameTypes` | src/java/simpledb/TupleDesc.java:204-222 | `equals` holds exactly when the two sequences of field types are equal: same count, same type at every position |
| `TupleDescProperties.EqualsIsEquivalence` | src/java/simpledb/TupleDesc.java:213-222 | `equals` is reflexive, symmetric and transitive |
| `TupleDescProperties.EqualsIgnoresNames` | src/java/simpledb/TupleDesc.java:213-222 | descriptors built from the same types are equal whatever names they carry |
| `TupleDescProperties.EqualsOrderSensitive` | src/java/simpledb/TupleDesc.java:213-222 | for any type sequence, exchanging the fields at two positions `i < j` whose types differ gives a descriptor that is not equal to the original, whatever the names |
| `TupleDescProperties.MergedRespectsEquals` | src/java/simpledb/TupleDesc.java:185-222 | merging pairwise-equal descriptors gives equal descriptors |
| `TupleDescProperties.AccessorGuardOffByOne` | src/java/simpledb/TupleDesc.java:113-140 | at `i == numFields()` the accessors as written give IndexOutOfBounds where the corrected ones give NoSuchElement; at every other index the two agree |

## Left out

- `iterator()`: a thin wrapper over the list's iterator; the field sequence `items` is exposed directly instead. The Java iterator's `remove()` can delete fields from a built descriptor, which changes `numFields`, `getSize` and `equals`. The value model does not capture that mutation.
- A null `typeAr`: both constructors read `typeAr.length` and throw `NullPointerException` when it is null. The model takes a non-null `array<T>`, so this error path is not modelled.
- `toString` of `TupleDesc` and `TDItem`: the format is declared non-binding and depends on `Type.toString`, which is not part of this model.
- `Serializable` and `serialVersionUID`: Java serialization plumbing with no logic.
- Null field names: names are plain strings. So the `NullPointerException` that `fieldNameToIndex` would raise on a null stored name is not modelled.
- `Equals`: the identity shortcut `this == o` and the `instanceof` test are Java object mechanics. The argument is always a descriptor here, so "a non-descriptor argument gives false" is not stated.
- `GetSize`: the sum is over unbounded naturals. The 32-bit wrap-around of `IntStream.sum` for sizes above 2^31 - 1 is not modelled.
- The concrete field types and their widths: `Type.java` is not part of this model. Types are a type parameter and widths a parameter `len`.
- The documented precondition that `typeAr` has at least one entry: the constructors do not enforce it, so it is not a `requires` either.

## Findings

| source | as written | input that shows it | evidently intended | confidence | as-written member | corrected member |
|---|---|---|---|---|---|---|
| src/java/simpledb/TupleDesc.java:116 | `getFieldName` guards with `i > numFields()`, so `i == numFields()` reaches `tdItems.get(i)` | any descriptor, `i = numFields()`: IndexOutOfBoundsException | `i >= numFields()`, so every invalid index throws NoSuchElementException as the `@throws` comment says | high, not executed | `TupleDescs.GetFieldName`, `TupleDescProperties.AccessorGuardOffByOne` | `TupleDescs.GetFieldNameChecked` |
| src/java/simpledb/TupleDesc.java:135 | `getFieldType` has the same guard `i > numFields()` | any descriptor, `i = numFields()`: IndexOutOfBoundsException | `i >= numFields()`, NoSuchElementException for every invalid index | high, not executed | `TupleDescs.GetFieldType`, `TupleDescProperties.AccessorGuardOffByOne` | `TupleDescs.GetFieldTypeChecked` |

`Merge` and `Equals` read fields through the corrected accessors. They only
pass valid indices, and there the two versions agree.
