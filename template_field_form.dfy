/** One field editor of a ticket template
    (`src/components/templates/TemplateFieldForm.tsx`): which move buttons are
    disabled, which option editors are shown, and the option lists the
    editors emit as the field's new `options`. */
module TemplateFieldForm {
  import opened Base
  import opened Seqs
  import opened Types
  import opened TemplateForm

  /** `ALLOWED_FILE_TYPES`. */
  const AllowedFileTypes: seq<string> := [".pdf", ".jpg", ".png"]

  /** The up button is disabled exactly when there is no field above. */
  predicate UpDisabled(index: nat)
    ensures UpDisabled(index) <==> Neighbour(index, Up) < 0
  {
    index == 0
  }

  /** The down button is disabled exactly when the field below would be
      one past the end. */
  predicate DownDisabled(index: nat, totalFields: nat)
    ensures DownDisabled(index, totalFields) <==> Neighbour(index, Down) == totalFields
  {
    index == totalFields - 1
  }

  /** A move button is disabled exactly when the form would ignore its move. */
  lemma DisabledButtonsMatchIgnoredMoves(fields: seq<TemplateField>, index: nat)
    requires index < |fields|
    ensures MovedFields(fields, index, Up).None? <==> UpDisabled(index)
    ensures MovedFields(fields, index, Down).None? <==> DownDisabled(index, |fields|)
  {
  }

  /** The option list editor is rendered for select, radio and checkbox fields. */
  predicate ShowsOptionsEditor(t: FieldType)
    ensures ShowsOptionsEditor(t) <==> FieldTypeName(t) in ["select", "radio", "checkbox"]
  {
    t == SelectField || t == RadioField || t == CheckboxField
  }

  /** The file-type picker is rendered for file fields. */
  predicate ShowsFileTypePicker(t: FieldType)
    ensures ShowsFileTypePicker(t) <==> FieldTypeName(t) == "file"
  {
    t == FileField
  }

  /** No field type gets both editors, and text, textarea and date fields get neither. */
  lemma EditorsExclusive(t: FieldType)
    ensures !(ShowsOptionsEditor(t) && ShowsFileTypePicker(t))
    ensures ShowsOptionsEditor(t) || ShowsFileTypePicker(t) <==>
              t !in {TextField, TextAreaField, DateField}
  {
  }

  /** `field.options || []`. */
  function OptionsOrEmpty(options: Option<seq<string>>): seq<string> {
    options.GetOr([])
  }

  /** Typing into option `k`: that option replaced, the others kept. The
      inputs are rendered from `options`, so `k` is one of its positions. */
  function EditedOptions(options: Option<seq<string>>, k: nat, text: string): (r: seq<string>)
    requires options.Some? && k < |options.value|
    ensures |r| == |options.value| && r[k] == text
    ensures forall i :: 0 <= i < |r| && i != k ==> r[i] == options.value[i]
  {
    OptionsOrEmpty(options)[k := text]
  }

  /** The trash button of option `k`: `options?.filter((_, i) => i !== k)`,
      which keeps an absent list absent. */
  function RemovedOption(options: Option<seq<string>>, k: nat): (r: Option<seq<string>>)
    ensures options.None? ==> r.None?
    ensures options.Some? && k < |options.value| ==>
              r.Some? && |r.value| == |options.value| - 1
              && r.value == options.value[..k] + options.value[k + 1..]
  {
    match options
    case None => None
    case Some(o) => Some(RemoveAt(o, k))
  }

  /** 'Add Option': an empty option appended to the list, an absent list counting as []. */
  function AddedOption(options: Option<seq<string>>): (r: seq<string>)
    ensures |r| == |OptionsOrEmpty(options)| + 1
    ensures r[..|r| - 1] == OptionsOrEmpty(options) && r[|r| - 1] == ""
  {
    OptionsOrEmpty(options) + [""]
  }

  /** `field.options?.includes(type) || false`. */
  predicate FileTypeChecked(options: Option<seq<string>>, t: string)
    ensures FileTypeChecked(options, t) <==> t in OptionsOrEmpty(options)
  {
    options.Some? && t in options.value
  }

  /** The checkbox of a file type: checking appends it, unchecking removes
      every occurrence; the box then shows the new state and no other type's
      box changes. */
  function ToggledFileType(options: Option<seq<string>>, t: string, checked: bool): (r: seq<string>)
    ensures FileTypeChecked(Some(r), t) == checked
    ensures forall u :: u != t ==> FileTypeChecked(Some(r), u) == FileTypeChecked(options, u)
    ensures checked ==> r == OptionsOrEmpty(options) + [t]
    ensures !checked ==> r == Without(OptionsOrEmpty(options), t)
  {
    SetMembership(OptionsOrEmpty(options), t, checked)
  }

  /** Every editor above reaches the template through the field's change
      handler as a change of `options` alone. */
  function OptionsChange(options: Option<seq<string>>): (p: FieldPatch)
    ensures forall f :: MergeField(f, p) == f.(options := options)
  {
    NoFieldChange.(options := Set(options))
  }
}
