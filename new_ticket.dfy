/** The ticket creation page (`src/pages/NewTicket.tsx`): the categories
    offered for the selected product, the team's default template, the
    required-field check, and the ticket handed to the store. */
module NewTicketPage {
  import opened Base
  import opened Seqs
  import opened Strings
  import opened Types
  import opened Tickets

  /** The values typed into the form, by field id. */
  type FormData = map<string, FormValue>

  /** `formData[id]` is truthy: present and not the empty string. */
  predicate Filled(fd: FormData, id: string) {
    id in fd && Truthy(fd[id])
  }

  /** `formData[key] || ''` for a text value. */
  function TextOr(fd: FormData, key: string): (r: string)
    ensures Filled(fd, key) && fd[key].Text? ==> r == fd[key].text
    ensures !Filled(fd, key) ==> r == ""
  {
    if key in fd && fd[key].Text? then fd[key].text else ""
  }

  /** `selectedProduct?.id || ''`. */
  function SelectedId(selected: Option<Product>): string {
    if selected.Some? then selected.value.id else ""
  }

  /** `category.isEnabled && category.productIds?.includes(productId)`. */
  predicate Selectable(productId: string, c: Category) {
    c.isEnabled && CategoryHasProduct(c, productId)
  }

  function SelectableFor(productId: string): Category -> bool {
    (c: Category) => Selectable(productId, c)
  }

  /** `productCategories`. */
  function ProductCategories(cs: seq<Category>, selected: Option<Product>): (r: seq<Category>)
    ensures forall c :: c in r <==> c in cs && c.isEnabled && CategoryHasProduct(c, SelectedId(selected))
  {
    Filter(cs, SelectableFor(SelectedId(selected)))
  }

  /** The predicate of `templates.find`. */
  predicate IsTeamDefault(teamId: string, t: TicketTemplate) {
    t.isDefault && t.teamId == teamId
  }

  /** The position `templates.find` stops at. */
  function DefaultIndex(ts: seq<TicketTemplate>, teamId: string): (r: Option<nat>)
    ensures r.None? <==> forall i :: 0 <= i < |ts| ==> !IsTeamDefault(teamId, ts[i])
    ensures r.Some? ==> r.value < |ts| && IsTeamDefault(teamId, ts[r.value])
                        && forall j :: 0 <= j < r.value ==> !IsTeamDefault(teamId, ts[j])
  {
    if ts == [] then None
    else if IsTeamDefault(teamId, ts[0]) then Some(0)
    else
      match DefaultIndex(ts[1..], teamId)
      case None =>
        assert forall i :: 1 <= i < |ts| ==> ts[i] == ts[1..][i - 1];
        None
      case Some(k) =>
        assert forall j :: 1 <= j < k + 1 ==> ts[j] == ts[1..][j - 1];
        Some(k + 1)
  }

  /** `defaultTemplate`: the first default template of the user's team. */
  function DefaultTemplate(ts: seq<TicketTemplate>, teamId: string): (r: Option<TicketTemplate>)
    ensures r.None? <==> forall i :: 0 <= i < |ts| ==> !IsTeamDefault(teamId, ts[i])
    ensures r.Some? ==> r.value in ts && IsTeamDefault(teamId, r.value)
  {
    match DefaultIndex(ts, teamId)
    case None => None
    case Some(k) => Some(ts[k])
  }

  /** The fields of the built-in template: subject, category and description
      are required, attachments are not. */
  const DefaultFields: seq<TemplateField> :=
      [TemplateField("subject", "Subject", TextField, true,
                     Some("Enter a brief summary of the issue"), None, None),
       TemplateField("category", "Category", SelectField, true, Some("Select a category"),
                     Some("Choose the category that best matches your issue"), None),
       TemplateField("description", "Description", TextAreaField, true,
                     Some("Provide detailed information about your issue"),
                     Some("Include any relevant details that will help us understand and resolve your issue"),
                     None),
       TemplateField("attachments", "Attachments", FileField, false, None,
                     Some("Upload any relevant files (images, documents, etc.)"), None)]

  /** `selectedProduct?.defaultTemplateId || 'default'`. */
  function FallbackTemplateId(selected: Option<Product>): (id: string)
    ensures (selected.Some? && selected.value.defaultTemplateId.Some?
             && selected.value.defaultTemplateId.value != "")
            ==> id == selected.value.defaultTemplateId.value
    ensures (selected.None? || selected.value.defaultTemplateId.None?
             || selected.value.defaultTemplateId.value == "")
            ==> id == "default"
    ensures id != ""
  {
    if selected.Some? && selected.value.defaultTemplateId.Some?
       && selected.value.defaultTemplateId.value != ""
    then selected.value.defaultTemplateId.value else "default"
  }

  /** The template list used when none is stored yet: one default template
      of the user's team. */
  function FallbackTemplate(selected: Option<Product>, teamId: string): (t: TicketTemplate)
    ensures t.isDefault && t.teamId == teamId && t.id == FallbackTemplateId(selected)
    ensures t.fields == DefaultFields
  {
    TicketTemplate(FallbackTemplateId(selected), "Default Template",
                   "Default ticket template with basic fields", teamId, true, DefaultFields)
  }

  /** With an empty form the built-in template reports its three required
      fields, in order. */
  lemma EmptyFormMissesRequired()
    ensures MissingLabels(DefaultFields, map[]) == ["Subject", "Category", "Description"]
  {
    var f := DefaultFields;
    assert f[1..][1..][1..][1..] == [];
  }

  /** `useLocalStorage('ticketTemplates', [...])`: the stored list, if any. */
  function Templates(stored: Option<seq<TicketTemplate>>, selected: Option<Product>, teamId: string): seq<TicketTemplate> {
    if stored.Some? then stored.value else [FallbackTemplate(selected, teamId)]
  }

  /** Without stored templates the user's team always has a default template. */
  lemma FallbackIsTeamDefault(selected: Option<Product>, teamId: string)
    ensures DefaultTemplate(Templates(None, selected, teamId), teamId) == Some(FallbackTemplate(selected, teamId))
  {
    assert IsTeamDefault(teamId, Templates(None, selected, teamId)[0]);
  }

  /** What the page renders. */
  datatype NewTicketView = NoDefaultTemplate | NoProductSelected
                         | TicketFormView(template: TicketTemplate, product: Product)

  /** The missing template is reported first, before the missing product. */
  function View(ts: seq<TicketTemplate>, teamId: string, selected: Option<Product>): (v: NewTicketView)
    ensures v.NoDefaultTemplate? <==> DefaultTemplate(ts, teamId).None?
    ensures v.NoProductSelected? <==> DefaultTemplate(ts, teamId).Some? && selected.None?
    ensures v.TicketFormView? ==>
              Some(v.template) == DefaultTemplate(ts, teamId) && Some(v.product) == selected
  {
    match DefaultTemplate(ts, teamId)
    case None => NoDefaultTemplate
    case Some(t) => if selected.None? then NoProductSelected else TicketFormView(t, selected.value)
  }

  /** A required field whose value is falsy. */
  predicate IsMissing(fd: FormData, f: TemplateField) {
    f.required && !Filled(fd, f.id)
  }

  /** `missingFields`: the labels of the missing required fields, in template order. */
  function MissingLabels(fields: seq<TemplateField>, fd: FormData): (r: seq<string>)
    ensures |r| <= |fields|
    ensures r == [] <==> forall i :: 0 <= i < |fields| ==> !IsMissing(fd, fields[i])
    ensures forall i :: 0 <= i < |fields| && IsMissing(fd, fields[i]) ==> fields[i].labelText in r
  {
    if fields == [] then []
    else
      var rest := MissingLabels(fields[1..], fd);
      assert forall i :: 1 <= i < |fields| ==> fields[i] == fields[1..][i - 1];
      (if IsMissing(fd, fields[0]) then [fields[0].labelText] else []) + rest
  }

  /** The labels follow the template's order: the missing fields of a longer
      template extend those of its first part. */
  lemma {:induction false} MissingLabelsConcat(a: seq<TemplateField>, b: seq<TemplateField>, fd: FormData)
    ensures MissingLabels(a + b, fd) == MissingLabels(a, fd) + MissingLabels(b, fd)
  {
    if a == [] {
      assert a + b == b;
    } else {
      assert (a + b)[1..] == a[1..] + b;
      MissingLabelsConcat(a[1..], b, fd);
    }
  }

  /** Every label listed is the label of a missing required field. */
  lemma {:induction false} MissingLabelsSound(fields: seq<TemplateField>, fd: FormData, l: string)
    requires l in MissingLabels(fields, fd)
    ensures exists i :: 0 <= i < |fields| && IsMissing(fd, fields[i]) && fields[i].labelText == l
  {
    if !IsMissing(fd, fields[0]) || fields[0].labelText != l {
      MissingLabelsSound(fields[1..], fd, l);
      var i :| 0 <= i < |fields[1..]| && IsMissing(fd, fields[1..][i]) && fields[1..][i].labelText == l;
      assert fields[i + 1] == fields[1..][i];
    }
  }

  /** An empty checkbox group is an array, hence truthy, so a required
      checkbox group with nothing ticked counts as filled. */
  lemma EmptyChoicesCountAsFilled(f: TemplateField, fd: FormData)
    requires f.id in fd && fd[f.id] == Choices([])
    ensures !IsMissing(fd, f)
  {
  }

  const RequiredFieldsPrefix := "Please fill in the following required fields: "

  function MissingFieldsMessage(labels: seq<string>): (r: string)
    ensures |r| >= |RequiredFieldsPrefix| && r[..|RequiredFieldsPrefix|] == RequiredFieldsPrefix
    ensures r[|RequiredFieldsPrefix|..] == Join(labels, ", ")
  {
    RequiredFieldsPrefix + Join(labels, ", ")
  }

  /** The argument of `createTicket`: texts from the form (default ''), the
      template and product, the user as customer and team, and the whole form
      as custom fields. */
  function DraftFromForm(t: TicketTemplate, p: Product, user: User, fd: FormData): (d: TicketDraft)
    ensures d.subject == TextOr(fd, "subject") && d.description == TextOr(fd, "description")
    ensures d.categoryId == TextOr(fd, "category")
    ensures d.templateId == Some(t.id) && d.productId == p.id
    ensures d.customerId == user.id && d.teamId == user.teamId && d.customFields == Some(fd)
    ensures d.assignedToId == None && d.escalationReason == None
    ensures d.satisfaction == None && d.firstResponseAt == None
  {
    TicketDraft(TextOr(fd, "subject"), TextOr(fd, "description"), TextOr(fd, "category"),
                p.id, None, user.id, user.teamId, None, Some(t.id), Some(fd), None, None)
  }

  /** `handleFieldChange`: only the given key changes. */
  function FieldChanged(fd: FormData, id: string, v: FormValue): (r: FormData)
    ensures id in r && r[id] == v
    ensures r.Keys == fd.Keys + {id}
    ensures forall k :: k in fd && k != id ==> r[k] == fd[k]
  {
    fd[id := v]
  }

  /** The page's state over the ticket store. */
  class NewTicketState {
    const user: User
    const selected: Option<Product>
    const categories: seq<Category>
    const templates: seq<TicketTemplate>
    const store: TicketStore
    var formData: FormData
    var error: string
    var isSubmitting: bool

    constructor(user: User, selected: Option<Product>, categories: seq<Category>,
                templates: seq<TicketTemplate>, store: TicketStore)
      ensures this.user == user && this.selected == selected && this.categories == categories
      ensures this.templates == templates && this.store == store
      ensures formData == map[] && error == "" && !isSubmitting
    {
      this.user := user;
      this.selected := selected;
      this.categories := categories;
      this.templates := templates;
      this.store := store;
      formData := map[];
      error := "";
      isSubmitting := false;
    }

    /** The page for the stored templates, the user's team and the selected
        product. */
    function CurrentView(): (v: NewTicketView)
      ensures v.NoDefaultTemplate? <==> forall i :: 0 <= i < |templates| ==> !IsTeamDefault(user.teamId, templates[i])
      ensures v.TicketFormView? ==>
                v.template in templates && v.template.teamId == user.teamId && v.template.isDefault
                && selected == Some(v.product)
    {
      View(templates, user.teamId, selected)
    }

    method HandleFieldChange(id: string, v: FormValue)
      modifies this
      ensures formData == FieldChanged(old(formData), id, v)
      ensures error == old(error) && isSubmitting == old(isSubmitting)
    {
      formData := formData[id := v];
    }

    /** With missing required fields the error lists them and nothing is
        created; otherwise one ticket built from the form is appended to the
        store and returned. The form is submittable only while rendered. */
    method HandleSubmit(now: int) returns (created: Option<Ticket>)
      requires CurrentView().TicketFormView?
      modifies this, store
      ensures var labels := MissingLabels(CurrentView().template.fields, old(formData));
              (labels != [] ==>
                 created == None && error == MissingFieldsMessage(labels)
                 && store.tickets == old(store.tickets))
              && (labels == [] ==>
                 created == Some(NewTicket(DraftFromForm(CurrentView().template, CurrentView().product,
                                                         user, old(formData)), now))
                 && store.tickets == old(store.tickets) + [created.value] && error == "")
      ensures !isSubmitting && formData == old(formData)
      ensures store.responses == old(store.responses) && store.user == old(store.user)
    {
      isSubmitting := true;
      error := "";
      var view := CurrentView();
      var labels := MissingLabels(view.template.fields, formData);
      if |labels| > 0 {
        error := MissingFieldsMessage(labels);
        isSubmitting := false;
        created := None;
        return;
      }
      var t := store.CreateTicket(DraftFromForm(view.template, view.product, user, formData), now);
      created := Some(t);
      isSubmitting := false;
    }
  }
}
