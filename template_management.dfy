/** The ticket template administration page (`src/pages/TemplateManagement.tsx`):
    its access gate, the form state, and the add, edit, delete and
    set-default handlers over the stored template list. */
module TemplateManagement {
  import opened Base
  import opened Seqs
  import opened Strings
  import opened Types
  import Layout

  /** Only admins get the page; everyone else sees 'Access Denied'. The
      page is shown exactly to the users whose product navigation links to it. */
  predicate ShowsTemplates(user: Option<User>)
    ensures ShowsTemplates(user) <==> Layout.Page.Templates in Layout.Names(Layout.ProductNavigation(user))
  {
    Layout.ProductNavigationByRole(user);
    user.Some? && user.value.role == Admin
  }

  /** `template_${Date.now()}`. */
  function TemplateId(now: int): string {
    "template_" + IntToString(now)
  }

  /** The template `handleAddTemplate` appends. */
  function AddedTemplate(id: string, teamId: string, name: string, description: string,
                         fields: seq<TemplateField>): (t: TicketTemplate)
    ensures t.id == id && t.teamId == teamId && !t.isDefault && t.fields == fields
    ensures t.name == Trim(name) && t.description == Trim(description)
  {
    TicketTemplate(id, Trim(name), Trim(description), teamId, false, fields)
  }

  /** The spread of `handleEditTemplate`: the form's trimmed name and
      description and its fields; id, team and default flag are kept. */
  function EditedTemplate(t: TicketTemplate, name: string, description: string,
                          fields: seq<TemplateField>): (r: TicketTemplate)
    ensures r.id == t.id && r.teamId == t.teamId && r.isDefault == t.isDefault
    ensures r.name == Trim(name) && r.description == Trim(description) && r.fields == fields
  {
    t.(name := Trim(name), description := Trim(description), fields := fields)
  }

  /** The templates after `handleEditTemplate`: every template carrying the
      edited id is edited, all others are unchanged. */
  function EditedTemplates(ts: seq<TicketTemplate>, id: string, name: string, description: string,
                           fields: seq<TemplateField>): (r: seq<TicketTemplate>)
    ensures |r| == |ts|
    ensures forall i :: 0 <= i < |ts| ==>
              r[i] == if ts[i].id == id then EditedTemplate(ts[i], name, description, fields) else ts[i]
  {
    if ts == [] then []
    else [if ts[0].id == id then EditedTemplate(ts[0], name, description, fields) else ts[0]]
         + EditedTemplates(ts[1..], id, name, description, fields)
  }

  /** Editing an id no template carries changes nothing. */
  lemma EditMissingId(ts: seq<TicketTemplate>, id: string, name: string, description: string,
                      fields: seq<TemplateField>)
    requires forall i :: 0 <= i < |ts| ==> ts[i].id != id
    ensures EditedTemplates(ts, id, name, description, fields) == ts
  {
  }

  predicate HasTemplateId(t: TicketTemplate, id: string) {
    t.id == id
  }

  /** `templates.filter(template => template.id !== id)`. */
  function WithoutTemplate(ts: seq<TicketTemplate>, id: string): (r: seq<TicketTemplate>)
    ensures forall t :: t in r <==> t in ts && t.id != id
  {
    Filter(ts, (t: TicketTemplate) => t.id != id)
  }

  /** `confirmSetDefault`: every template of every team gets
      `isDefault = (id === target id)`; nothing else changes. */
  function WithDefault(ts: seq<TicketTemplate>, id: string): (r: seq<TicketTemplate>)
    ensures |r| == |ts|
    ensures forall i :: 0 <= i < |ts| ==> r[i] == ts[i].(isDefault := ts[i].id == id)
  {
    if ts == [] then [] else [ts[0].(isDefault := ts[0].id == id)] + WithDefault(ts[1..], id)
  }

  predicate DistinctIds(ts: seq<TicketTemplate>) {
    forall i, j :: 0 <= i < j < |ts| ==> ts[i].id != ts[j].id
  }

  /** With distinct ids and the target stored at position `k`, the target is
      the one default template afterwards, whatever the teams. */
  lemma ExactlyOneDefault(ts: seq<TicketTemplate>, k: nat)
    requires DistinctIds(ts) && k < |ts|
    ensures var r := WithDefault(ts, ts[k].id);
            forall i :: 0 <= i < |r| ==> (r[i].isDefault <==> i == k)
  {
    var r := WithDefault(ts, ts[k].id);
    forall i | 0 <= i < |r|
      ensures r[i].isDefault <==> i == k
    {
      if i < k {
        assert ts[i].id != ts[k].id;
      } else if k < i {
        assert ts[k].id != ts[i].id;
      }
    }
  }

  /** Setting the same default twice is setting it once. */
  lemma WithDefaultIdempotent(ts: seq<TicketTemplate>, id: string)
    ensures WithDefault(WithDefault(ts, id), id) == WithDefault(ts, id)
  {
  }

  /** `teamTemplates`: the grid lists the templates of the admin's team. */
  function TeamTemplates(teamId: string, ts: seq<TicketTemplate>): (r: seq<TicketTemplate>)
    ensures forall t :: t in r <==> t in ts && t.teamId == teamId
  {
    Filter(ts, (t: TicketTemplate) => t.teamId == teamId)
  }

  /** A template just added shows up in the grid, after the ones already listed. */
  lemma AddedTemplateListed(ts: seq<TicketTemplate>, id: string, teamId: string, name: string,
                            description: string, fields: seq<TemplateField>)
    ensures var t := AddedTemplate(id, teamId, name, description, fields);
            TeamTemplates(teamId, ts + [t]) == TeamTemplates(teamId, ts) + [t]
  {
    var t := AddedTemplate(id, teamId, name, description, fields);
    FilterConcat(ts, [t], (x: TicketTemplate) => x.teamId == teamId);
  }

  /** The page's state. */
  class TemplateManagementPage {
    const user: Option<User>
    var templates: seq<TicketTemplate>
    var isEditing: bool
    var showDeleteModal: bool
    var selectedTemplate: Option<TicketTemplate>
    var error: string
    var showDefaultConfirmModal: bool
    var templateToSetDefault: Option<TicketTemplate>
    var templateName: string
    var templateDescription: string
    var fields: seq<TemplateField>

    constructor(user: Option<User>, templates: seq<TicketTemplate>)
      ensures this.user == user && this.templates == templates
      ensures !isEditing && !showDeleteModal && !showDefaultConfirmModal
      ensures selectedTemplate == None && templateToSetDefault == None && error == ""
      ensures templateName == "" && templateDescription == "" && fields == []
    {
      this.user := user;
      this.templates := templates;
      isEditing := false;
      showDeleteModal := false;
      selectedTemplate := None;
      error := "";
      showDefaultConfirmModal := false;
      templateToSetDefault := None;
      templateName := "";
      templateDescription := "";
      fields := [];
    }

    function Grid(): (r: seq<TicketTemplate>)
      requires ShowsTemplates(user)
      reads this
      ensures forall t :: t in r <==> t in templates && t.teamId == user.value.teamId
    {
      TeamTemplates(user.value.teamId, templates)
    }

    /** `resetForm`: the form empties and nothing is selected. */
    method ResetForm()
      modifies this
      ensures templateName == "" && templateDescription == "" && fields == []
      ensures selectedTemplate == None && error == ""
      ensures templates == old(templates) && isEditing == old(isEditing)
      ensures showDeleteModal == old(showDeleteModal)
      ensures showDefaultConfirmModal == old(showDefaultConfirmModal)
      ensures templateToSetDefault == old(templateToSetDefault)
    {
      templateName := "";
      templateDescription := "";
      fields := [];
      selectedTemplate := None;
      error := "";
    }

    /** 'Add Template': the editor opens on an empty form. */
    method StartAdd()
      modifies this
      ensures isEditing && templateName == "" && templateDescription == "" && fields == []
      ensures selectedTemplate == None && error == "" && templates == old(templates)
      ensures showDeleteModal == old(showDeleteModal)
      ensures showDefaultConfirmModal == old(showDefaultConfirmModal)
      ensures templateToSetDefault == old(templateToSetDefault)
    {
      isEditing := true;
      ResetForm();
    }

    /** A card's edit button: the editor opens on that template. */
    method StartEdit(t: TicketTemplate)
      modifies this
      ensures isEditing && selectedTemplate == Some(t)
      ensures templateName == t.name && templateDescription == t.description && fields == t.fields
      ensures error == old(error) && templates == old(templates)
      ensures showDeleteModal == old(showDeleteModal)
      ensures showDefaultConfirmModal == old(showDefaultConfirmModal)
      ensures templateToSetDefault == old(templateToSetDefault)
    {
      selectedTemplate := Some(t);
      templateName := t.name;
      templateDescription := t.description;
      fields := t.fields;
      isEditing := true;
    }

    /** A card's delete button: the template is selected and the confirmation opens. */
    method StartDelete(t: TicketTemplate)
      modifies this
      ensures selectedTemplate == Some(t) && showDeleteModal
      ensures templates == old(templates) && isEditing == old(isEditing) && error == old(error)
      ensures templateName == old(templateName) && templateDescription == old(templateDescription)
      ensures fields == old(fields)
      ensures showDefaultConfirmModal == old(showDefaultConfirmModal)
      ensures templateToSetDefault == old(templateToSetDefault)
    {
      selectedTemplate := Some(t);
      showDeleteModal := true;
    }

    /** A blank name, then an empty field list, are refused with their
        messages and nothing else changes; otherwise the new template is
        appended and the editor closes on an empty form. */
    method HandleAddTemplate(now: int)
      requires ShowsTemplates(user)
      modifies this
      ensures IsBlank(old(templateName)) ==>
                error == "Template name is required" && templates == old(templates)
                && isEditing == old(isEditing) && fields == old(fields)
                && templateName == old(templateName) && templateDescription == old(templateDescription)
                && selectedTemplate == old(selectedTemplate)
      ensures !IsBlank(old(templateName)) && old(fields) == [] ==>
                error == "At least one field is required" && templates == old(templates)
                && isEditing == old(isEditing) && fields == old(fields)
                && templateName == old(templateName) && templateDescription == old(templateDescription)
                && selectedTemplate == old(selectedTemplate)
      ensures !IsBlank(old(templateName)) && old(fields) != [] ==>
                templates == old(templates)
                             + [AddedTemplate(TemplateId(now), user.value.teamId, old(templateName),
                                              old(templateDescription), old(fields))]
                && !isEditing && templateName == "" && templateDescription == "" && fields == []
                && selectedTemplate == None && error == ""
      ensures showDeleteModal == old(showDeleteModal)
      ensures showDefaultConfirmModal == old(showDefaultConfirmModal)
      ensures templateToSetDefault == old(templateToSetDefault)
    {
      if Trim(templateName) == [] {
        error := "Template name is required";
        return;
      }
      if |fields| == 0 {
        error := "At least one field is required";
        return;
      }
      var t := AddedTemplate(TemplateId(now), user.value.teamId, templateName,
                             templateDescription, fields);
      templates := templates + [t];
      isEditing := false;
      ResetForm();
    }

    /** Without a selected template or with a blank name the error is
        'Template name is required'; with no fields it is 'At least one field
        is required'; in both cases nothing is stored. Otherwise every
        template with the selected id is edited and the editor closes. */
    method HandleEditTemplate()
      requires ShowsTemplates(user)
      modifies this
      ensures old(selectedTemplate).None? || IsBlank(old(templateName)) ==>
                error == "Template name is required" && templates == old(templates)
                && isEditing == old(isEditing) && fields == old(fields)
                && templateName == old(templateName) && templateDescription == old(templateDescription)
                && selectedTemplate == old(selectedTemplate)
      ensures old(selectedTemplate).Some? && !IsBlank(old(templateName)) && old(fields) == [] ==>
                error == "At least one field is required" && templates == old(templates)
                && isEditing == old(isEditing) && fields == old(fields)
                && templateName == old(templateName) && templateDescription == old(templateDescription)
                && selectedTemplate == old(selectedTemplate)
      ensures old(selectedTemplate).Some? && !IsBlank(old(templateName)) && old(fields) != [] ==>
                templates == EditedTemplates(old(templates), old(selectedTemplate).value.id,
                                             old(templateName), old(templateDescription), old(fields))
                && !isEditing && templateName == "" && templateDescription == "" && fields == []
                && selectedTemplate == None && error == ""
      ensures showDeleteModal == old(showDeleteModal)
      ensures showDefaultConfirmModal == old(showDefaultConfirmModal)
      ensures templateToSetDefault == old(templateToSetDefault)
    {
      if selectedTemplate.None? || Trim(templateName) == [] {
        error := "Template name is required";
        return;
      }
      if |fields| == 0 {
        error := "At least one field is required";
        return;
      }
      templates := EditedTemplates(templates, selectedTemplate.value.id, templateName,
                                   templateDescription, fields);
      isEditing := false;
      ResetForm();
    }

    /** Nothing happens without a selection or for a default template;
        otherwise every template with the selected id is removed, the
        confirmation closes and the form resets. */
    method HandleDeleteTemplate()
      requires ShowsTemplates(user)
      modifies this
      ensures old(selectedTemplate).None? || old(selectedTemplate).value.isDefault ==>
                templates == old(templates) && selectedTemplate == old(selectedTemplate)
                && showDeleteModal == old(showDeleteModal) && error == old(error)
                && templateName == old(templateName) && templateDescription == old(templateDescription)
                && fields == old(fields)
      ensures old(selectedTemplate).Some? && !old(selectedTemplate).value.isDefault ==>
                templates == WithoutTemplate(old(templates), old(selectedTemplate).value.id)
                && !showDeleteModal && templateName == "" && templateDescription == ""
                && fields == [] && selectedTemplate == None && error == ""
      ensures isEditing == old(isEditing)
      ensures showDefaultConfirmModal == old(showDefaultConfirmModal)
      ensures templateToSetDefault == old(templateToSetDefault)
    {
      if selectedTemplate.None? || selectedTemplate.value.isDefault {
        return;
      }
      templates := WithoutTemplate(templates, selectedTemplate.value.id);
      showDeleteModal := false;
      ResetForm();
    }

    /** A card's set-default button: the template waits for confirmation. */
    method HandleSetDefault(t: TicketTemplate)
      modifies this
      ensures templateToSetDefault == Some(t) && showDefaultConfirmModal
      ensures templates == old(templates) && selectedTemplate == old(selectedTemplate)
      ensures isEditing == old(isEditing) && showDeleteModal == old(showDeleteModal)
      ensures error == old(error) && fields == old(fields)
      ensures templateName == old(templateName) && templateDescription == old(templateDescription)
    {
      templateToSetDefault := Some(t);
      showDefaultConfirmModal := true;
    }

    /** Without a pending template nothing happens; otherwise the default
        flag is recomputed over every stored template and the dialog closes. */
    method ConfirmSetDefault()
      modifies this
      ensures old(templateToSetDefault).None? ==>
                templates == old(templates) && showDefaultConfirmModal == old(showDefaultConfirmModal)
                && templateToSetDefault == None
      ensures old(templateToSetDefault).Some? ==>
                templates == WithDefault(old(templates), old(templateToSetDefault).value.id)
                && !showDefaultConfirmModal && templateToSetDefault == None
      ensures selectedTemplate == old(selectedTemplate) && isEditing == old(isEditing)
      ensures showDeleteModal == old(showDeleteModal) && error == old(error)
      ensures fields == old(fields) && templateName == old(templateName)
      ensures templateDescription == old(templateDescription)
    {
      if templateToSetDefault.None? {
        return;
      }
      templates := WithDefault(templates, templateToSetDefault.value.id);
      showDefaultConfirmModal := false;
      templateToSetDefault := None;
    }
  }
}
