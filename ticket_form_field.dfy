/** One input of the ticket form (`src/components/tickets/TicketFormField.tsx`):
    which widget a field type gets, the value it displays, the checkbox
    group's value updates, and the file picker's accept list. */
module TicketFormField {
  import opened Base
  import opened Seqs
  import opened Strings
  import opened Types

  /** `ALLOWED_FILE_TYPES`. */
  const AllowedFileTypes: seq<string> := [".pdf", ".jpg", ".png"]

  /** The `switch (field.type)`: a known type gets its widget, any other
      text renders nothing. */
  function Widget(typeText: string): (r: Option<FieldType>)
    ensures r.None? <==> typeText !in {"text", "textarea", "select", "radio", "checkbox", "file", "date"}
    ensures r.Some? ==> FieldTypeName(r.value) == typeText
  {
    ParseFieldType(typeText)
  }

  /** `value || ''` of the text, textarea, select and date inputs: a missing
      or empty value shows as the empty text. */
  function DisplayedValue(v: Option<FormValue>): (r: FormValue)
    ensures v.None? ==> r == Text("")
    ensures v.Some? && Truthy(v.value) ==> r == v.value
    ensures Truthy(r) || r == Text("")
  {
    if v.Some? && Truthy(v.value) then v.value else Text("")
  }

  /** A radio button is checked when the value is exactly its option; that
      option is then the value the field holds. */
  predicate RadioChecked(v: Option<FormValue>, option: string)
    ensures RadioChecked(v, option) ==> DisplayedValue(v) == Text(option)
    ensures v.None? ==> !RadioChecked(v, option)
  {
    v == Some(Text(option))
  }

  /** `value?.includes(option)`: list membership for a checkbox group
      (a text value would be searched as a substring). */
  predicate CheckboxTicked(v: Option<FormValue>, option: string)
    ensures v.None? || v.value.Choices? ==> (CheckboxTicked(v, option) <==> option in CurrentChoices(v))
  {
    v.Some? &&
    match v.value
    case Choices(cs) => option in cs
    case Text(s) => Contains(s, option)
    case Files(_) => false
  }

  /** `value || []` for a checkbox group. */
  function CurrentChoices(v: Option<FormValue>): (r: seq<string>)
    ensures v.Some? && v.value.Choices? ==> r == v.value.choices
    ensures v.None? ==> r == []
  {
    if v.Some? && v.value.Choices? then v.value.choices else []
  }

  /** The checkbox handler: ticking appends the option, unticking removes
      every occurrence of it. */
  function CheckboxChanged(v: Option<FormValue>, option: string, checked: bool): (r: FormValue)
    ensures r.Choices?
    ensures checked ==> r.choices == CurrentChoices(v) + [option]
    ensures !checked ==> r.choices == Without(CurrentChoices(v), option)
  {
    Choices(SetMembership(CurrentChoices(v), option, checked))
  }

  /** After a change the option's box shows the state it was set to, and
      every other option keeps its state. */
  lemma CheckboxChangeShows(v: Option<FormValue>, option: string, checked: bool, other: string)
    requires v.None? || v.value.Choices?
    ensures CheckboxTicked(Some(CheckboxChanged(v, option, checked)), option) == checked
    ensures other != option ==>
              CheckboxTicked(Some(CheckboxChanged(v, option, checked)), other) == CheckboxTicked(v, other)
  {
  }

  /** `field.options?.join(',') || ALLOWED_FILE_TYPES.join(',')`: an absent
      list, or one that joins to the empty text, falls back to the default types. */
  function AcceptList(options: Option<seq<string>>): (r: string)
    ensures options.Some? && Join(options.value, ",") != "" ==> r == Join(options.value, ",")
    ensures options.None? || Join(options.value, ",") == "" ==> r == Join(AllowedFileTypes, ",")
  {
    if options.Some? && Join(options.value, ",") != "" then Join(options.value, ",")
    else Join(AllowedFileTypes, ",")
  }

  lemma DefaultAcceptList()
    ensures AcceptList(None) == ".pdf,.jpg,.png"
    ensures AcceptList(Some([])) == ".pdf,.jpg,.png"
  {
    var d := AllowedFileTypes;
    assert Join(d[1..][1..], ",") == ".png";
    assert Join(d[1..], ",") == ".jpg,.png";
  }

  /** The 'Allowed types' caption: `(field.options || ALLOWED_FILE_TYPES).join(', ')`.
      Unlike the accept list, an empty option list gives an empty caption. */
  function AllowedTypesCaption(options: Option<seq<string>>): (r: string)
    ensures options.Some? ==> r == Join(options.value, ", ")
    ensures options == Some([]) ==> r == ""
    ensures options.None? ==> r == Join(AllowedFileTypes, ", ")
  {
    Join(options.GetOr(AllowedFileTypes), ", ")
  }
}
