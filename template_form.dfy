/** The field list editor of a ticket template
    (`src/components/templates/TemplateForm.tsx`): adding a blank field,
    merging a change into one field, removing one, and moving one up or down.
    Each handler hands the new list to the page, which stores it. */
module TemplateForm {
  import opened Base
  import opened Seqs
  import opened Strings
  import opened Types

  /** `Partial<TemplateField>`: the changes one field editor emits. */
  datatype FieldPatch = FieldPatch(labelText: Patch<string>, fieldType: Patch<FieldType>,
                                   required: Patch<bool>, placeholder: Patch<Option<string>>,
                                   helpText: Patch<Option<string>>,
                                   options: Patch<Option<seq<string>>>,
                                   id: Patch<string>)

  const NoFieldChange := FieldPatch(Keep, Keep, Keep, Keep, Keep, Keep, Keep)

  /** `{ ...field, ...changes }`: every property the change carries takes
      the new value, every other keeps the field's. */
  function MergeField(f: TemplateField, p: FieldPatch): (r: TemplateField)
    ensures r.id == (if p.id.Set? then p.id.value else f.id)
    ensures r.labelText == (if p.labelText.Set? then p.labelText.value else f.labelText)
    ensures r.fieldType == (if p.fieldType.Set? then p.fieldType.value else f.fieldType)
    ensures r.required == (if p.required.Set? then p.required.value else f.required)
    ensures r.placeholder == (if p.placeholder.Set? then p.placeholder.value else f.placeholder)
    ensures r.helpText == (if p.helpText.Set? then p.helpText.value else f.helpText)
    ensures r.options == (if p.options.Set? then p.options.value else f.options)
  {
    TemplateField(p.id.Apply(f.id), p.labelText.Apply(f.labelText), p.fieldType.Apply(f.fieldType),
                  p.required.Apply(f.required), p.placeholder.Apply(f.placeholder),
                  p.helpText.Apply(f.helpText), p.options.Apply(f.options))
  }

  /** An empty change leaves a field as it is; a change that sets only the
      options touches nothing else. */
  lemma MergeFieldEffects(f: TemplateField, opts: Option<seq<string>>)
    ensures MergeField(f, NoFieldChange) == f
    ensures MergeField(f, NoFieldChange.(options := Set(opts))) == f.(options := opts)
  {
  }

  /** `field_${Date.now()}`. */
  function FieldId(now: int): string {
    "field_" + IntToString(now)
  }

  /** The field `handleAddField` creates. */
  function BlankField(now: int): (f: TemplateField)
    ensures f.id == FieldId(now) && f.labelText == "" && f.fieldType == TextField && !f.required
    ensures f.placeholder == None && f.helpText == None && f.options == None
  {
    TemplateField(FieldId(now), "", TextField, false, None, None, None)
  }

  /** `handleAddField`: the list with one blank field at the end. */
  function WithBlankField(fields: seq<TemplateField>, now: int): (r: seq<TemplateField>)
    ensures |r| == |fields| + 1 && r[..|fields|] == fields && r[|fields|] == BlankField(now)
  {
    fields + [BlankField(now)]
  }

  /** `handleFieldChange`: the changes merged into the field at `index` only. */
  function ChangedFields(fields: seq<TemplateField>, index: nat, p: FieldPatch): (r: seq<TemplateField>)
    requires index < |fields|
    ensures |r| == |fields|
    ensures r[index] == MergeField(fields[index], p)
    ensures forall i :: 0 <= i < |fields| && i != index ==> r[i] == fields[i]
  {
    fields[index := MergeField(fields[index], p)]
  }

  /** `handleRemoveField`: the field at `index` dropped, the rest in order. */
  function RemovedField(fields: seq<TemplateField>, index: nat): (r: seq<TemplateField>)
    requires index < |fields|
    ensures |r| == |fields| - 1
    ensures r == fields[..index] + fields[index + 1..]
    ensures multiset(r) + multiset{fields[index]} == multiset(fields)
  {
    assert fields == fields[..index] + [fields[index]] + fields[index + 1..];
    RemoveAt(fields, index)
  }

  datatype Direction = Up | Down

  /** The position a move targets. */
  function Neighbour(index: nat, d: Direction): int {
    if d == Up then index - 1 else index + 1
  }

  /** The moves `handleMoveField` ignores: up from the top, down from the bottom. */
  predicate MoveIgnored(n: nat, index: nat, d: Direction) {
    (d == Up && index == 0) || (d == Down && index == n - 1)
  }

  /** `s` with the elements at `i` and `j` exchanged. */
  function Swap<T>(s: seq<T>, i: nat, j: nat): (r: seq<T>)
    requires i < |s| && j < |s|
    ensures |r| == |s| && r[i] == s[j] && r[j] == s[i]
    ensures forall k :: 0 <= k < |s| && k != i && k != j ==> r[k] == s[k]
    ensures multiset(r) == multiset(s)
  {
    s[i := s[j]][j := s[i]]
  }

  /** What `handleMoveField` emits: nothing for an ignored move, otherwise
      the list with the field and its neighbour exchanged. */
  function MovedFields(fields: seq<TemplateField>, index: nat, d: Direction): (r: Option<seq<TemplateField>>)
    requires index < |fields|
    ensures r.None? <==> MoveIgnored(|fields|, index, d)
    ensures r.Some? ==> 0 <= Neighbour(index, d) < |fields|
                        && r.value == Swap(fields, index, Neighbour(index, d))
  {
    if MoveIgnored(|fields|, index, d) then None
    else Some(Swap(fields, index, Neighbour(index, d)))
  }

  /** A move that is not ignored is a permutation that exchanges exactly two
      adjacent positions. */
  lemma MoveIsAdjacentSwap(fields: seq<TemplateField>, index: nat, d: Direction)
    requires index < |fields| && !MoveIgnored(|fields|, index, d)
    ensures var r := MovedFields(fields, index, d).value;
            var j := Neighbour(index, d);
            && multiset(r) == multiset(fields) && |r| == |fields|
            && r[index] == fields[j] && r[j] == fields[index]
            && (j == index - 1 || j == index + 1)
            && forall k :: 0 <= k < |fields| && k != index && k != j ==> r[k] == fields[k]
  {
  }

  /** Moving a field up and then down again from its new position restores
      the list, and the other way round. */
  lemma MoveUpThenDown(fields: seq<TemplateField>, index: nat)
    requires 0 < index < |fields|
    ensures var r := MovedFields(fields, index, Up);
            r.Some? && MovedFields(r.value, index - 1, Down) == Some(fields)
  {
    var r := MovedFields(fields, index, Up).value;
    assert Swap(r, index - 1, index) == fields;
  }

  lemma MoveDownThenUp(fields: seq<TemplateField>, index: nat)
    requires index + 1 < |fields|
    ensures var r := MovedFields(fields, index, Down);
            r.Some? && MovedFields(r.value, index + 1, Up) == Some(fields)
  {
    var r := MovedFields(fields, index, Down).value;
    assert Neighbour(index + 1, Up) == index;
    var back := Swap(r, index + 1, index);
    assert forall k :: 0 <= k < |fields| ==> back[k] == fields[k];
    assert back == fields;
  }

  /** `handleMoveField` on a copied array, swapping in place. */
  method MoveField(fields: seq<TemplateField>, index: nat, d: Direction)
    returns (emitted: Option<seq<TemplateField>>)
    requires index < |fields|
    ensures emitted == MovedFields(fields, index, d)
  {
    if (d == Up && index == 0) || (d == Down && index == |fields| - 1) {
      return None;
    }
    var a := new TemplateField[|fields|](i requires 0 <= i < |fields| => fields[i]);
    assert a[..] == fields;
    var j: nat := if d == Up then index - 1 else index + 1;
    a[index], a[j] := a[j], a[index];
    assert a[..] == Swap(fields, index, j);
    emitted := Some(a[..]);
  }

  /** `handleFieldChange` on a copied array, assigning by index. */
  method ChangeField(fields: seq<TemplateField>, index: nat, p: FieldPatch)
    returns (emitted: seq<TemplateField>)
    requires index < |fields|
    ensures emitted == ChangedFields(fields, index, p)
  {
    var a := new TemplateField[|fields|](i requires 0 <= i < |fields| => fields[i]);
    assert a[..] == fields;
    a[index] := MergeField(a[index], p);
    emitted := a[..];
  }
}
