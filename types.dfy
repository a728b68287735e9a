/** The domain records of the ticketing app (`src/types/index.ts`): users,
    products, tickets and their responses, ticket templates and their fields,
    and categories. String unions become datatypes with a name function and a
    parser that undoes it. */
module Types {
  import opened Base

  // ----------------------------------------------------------------- roles

  /** A user's role. Profiles come from the database as free text, so a role
      outside the three known ones is kept as `Unrecognised`. */
  datatype Role = Admin | Agent | Customer | Unrecognised(name: string)

  function RoleName(r: Role): string {
    match r
    case Admin => "admin"
    case Agent => "agent"
    case Customer => "customer"
    case Unrecognised(n) => n
  }

  function ParseRole(s: string): (r: Role)
    ensures r.Unrecognised? <==> s !in {"admin", "agent", "customer"}
  {
    if s == "admin" then Admin
    else if s == "agent" then Agent
    else if s == "customer" then Customer
    else Unrecognised(s)
  }

  /** A role is canonical when it is one of the three, or when its text is not
      one of their names. */
  predicate CanonicalRole(r: Role) {
    r.Unrecognised? ==> r.name !in {"admin", "agent", "customer"}
  }

  lemma RoleNameParse(s: string)
    ensures RoleName(ParseRole(s)) == s && CanonicalRole(ParseRole(s))
  {
  }

  lemma ParseRoleName(r: Role)
    requires CanonicalRole(r)
    ensures ParseRole(RoleName(r)) == r
  {
  }

  // ------------------------------------------------------ ticket enumerations

  datatype Status = New | InProgress | Pending | Resolved

  function StatusName(s: Status): string {
    match s
    case New => "new"
    case InProgress => "in_progress"
    case Pending => "pending"
    case Resolved => "resolved"
  }

  function ParseStatus(s: string): (r: Option<Status>)
    ensures r.Some? <==> s in {"new", "in_progress", "pending", "resolved"}
  {
    if s == "new" then Some(New)
    else if s == "in_progress" then Some(InProgress)
    else if s == "pending" then Some(Pending)
    else if s == "resolved" then Some(Resolved)
    else None
  }

  lemma StatusRoundTrip(s: Status, t: string)
    ensures ParseStatus(StatusName(s)) == Some(s)
    ensures ParseStatus(t) == Some(s) ==> StatusName(s) == t
  {
  }

  datatype QueueType = AgentQueue | AdminQueue

  function QueueName(q: QueueType): string {
    match q
    case AgentQueue => "agent"
    case AdminQueue => "admin"
  }

  datatype AccessType = Public | Private

  function AccessName(a: AccessType): string {
    match a
    case Public => "public"
    case Private => "private"
  }

  function ParseAccess(s: string): (r: Option<AccessType>)
    ensures r.Some? <==> s in {"public", "private"}
  {
    if s == "public" then Some(Public) else if s == "private" then Some(Private) else None
  }

  lemma AccessRoundTrip(a: AccessType, t: string)
    ensures ParseAccess(AccessName(a)) == Some(a)
    ensures ParseAccess(t) == Some(a) ==> AccessName(a) == t
  {
  }

  datatype FieldType = TextField | TextAreaField | SelectField | RadioField
                     | CheckboxField | FileField | DateField

  function FieldTypeName(f: FieldType): string {
    match f
    case TextField => "text"
    case TextAreaField => "textarea"
    case SelectField => "select"
    case RadioField => "radio"
    case CheckboxField => "checkbox"
    case FileField => "file"
    case DateField => "date"
  }

  function ParseFieldType(s: string): (r: Option<FieldType>)
    ensures r.Some? <==> s in {"text", "textarea", "select", "radio", "checkbox", "file", "date"}
  {
    if s == "text" then Some(TextField)
    else if s == "textarea" then Some(TextAreaField)
    else if s == "select" then Some(SelectField)
    else if s == "radio" then Some(RadioField)
    else if s == "checkbox" then Some(CheckboxField)
    else if s == "file" then Some(FileField)
    else if s == "date" then Some(DateField)
    else None
  }

  lemma FieldTypeRoundTrip(f: FieldType, t: string)
    ensures ParseFieldType(FieldTypeName(f)) == Some(f)
    ensures ParseFieldType(t) == Some(f) ==> FieldTypeName(f) == t
  {
  }

  // --------------------------------------------------------------- records

  /** `productIds` is optional; `password` is not part of this model. */
  datatype User = User(id: string, email: string, name: string, role: Role,
                       teamId: string, productIds: Option<seq<string>>,
                       status: Option<string>)

  /** `user?.productIds?.includes(id)`: false when the list is absent. */
  predicate HasProductId(u: User, id: string) {
    u.productIds.Some? && id in u.productIds.value
  }

  datatype Product = Product(id: string, name: string, description: string,
                             teamId: string, accessType: AccessType,
                             defaultTemplateId: Option<string>,
                             allowedDomains: Option<seq<string>>, slug: string)

  /** A value entered into a ticket form: text (inputs, selects, radios,
      dates), the ticked options of a checkbox group, or a file list. */
  datatype FormValue = Text(text: string) | Choices(choices: seq<string>) | Files(count: nat)

  /** JavaScript truthiness of a form value: only the empty string is falsy
      (arrays and file lists are objects). */
  predicate Truthy(v: FormValue) {
    !(v.Text? && v.text == "")
  }

  /** Time stamps are milliseconds since the epoch. */
  datatype Ticket = Ticket(id: string, subject: string, description: string,
                           categoryId: string, status: Status, productId: string,
                           assignedToId: Option<string>, customerId: string,
                           teamId: string, queueType: QueueType,
                           escalationReason: Option<string>,
                           createdAt: int, updatedAt: int,
                           templateId: Option<string>,
                           customFields: Option<map<string, FormValue>>,
                           satisfaction: Option<int>, firstResponseAt: Option<int>)

  /** `!ticket.assignedToId`: no assignee, or the empty id the admin's
      'Unassigned' option writes. */
  predicate IsUnassigned(assignedToId: Option<string>) {
    assignedToId.None? || assignedToId.value == ""
  }

  datatype TicketResponse = TicketResponse(id: string, ticketId: string, userId: string,
                                           content: string, isInternal: bool, createdAt: int)

  /** `label` is a reserved word in Dafny, so the field label is `labelText`. */
  datatype TemplateField = TemplateField(id: string, labelText: string, fieldType: FieldType,
                                         required: bool, placeholder: Option<string>,
                                         helpText: Option<string>,
                                         options: Option<seq<string>>)

  datatype TicketTemplate = TicketTemplate(id: string, name: string, description: string,
                                           teamId: string, isDefault: bool,
                                           fields: seq<TemplateField>)

  datatype Category = Category(id: string, name: string, teamId: string,
                               productIds: Option<seq<string>>,
                               isDefault: Option<bool>, isEnabled: bool)

  /** `category.productIds?.includes(id)`. */
  predicate CategoryHasProduct(c: Category, id: string) {
    c.productIds.Some? && id in c.productIds.value
  }
}
