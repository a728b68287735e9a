# Metis support desk, modelled in Dafny

Metis is a support-ticket web application. Customers discover support
products and sign in to them; the email domain decides access to a private
product. Customers then open tickets from a product's default template.
Agents and admins work the tickets through the admin and agent queues:
assigning, escalating, answering, resolving and rating them. Admins also
manage products, categories, ticket templates and their team. This project
models the application's decision logic and state updates, and proves what
they promise.

Each module models one source file. The model covers:

- the ticket store and its life cycle (`Tickets`);
- the product directory, its access rule and selection (`ProductContext`);
- product management and its slug generator (`ProductManagement`,
  `UseProductForm`, `Slug`, `ProductForm`);
- the dashboard statistics (`Stats`) and the analytics page (`Analytics`);
- the template registry and its field editors (`TemplateManagement`,
  `TemplateForm`, `TemplateFieldForm`);
- the category registry and its dialogs (`CategoryManagement`,
  `CategoryModals`);
- ticket intake (`NewTicketPage`, `TicketFormField`);
- the ticket list and detail pages and the ticket controls (`TicketList`,
  `TicketDetail`, `TicketActions`);
- the dashboards (`Dashboard`, `AdminDashboard`, `TeamDashboard`);
- product discovery (`ProductDiscovery`);
- the authentication provider (`Auth`);
- navigation (`Layout`, `Sidebar`, `RoleRouter`) and the team page
  (`TeamManagement`);
- the two sign-up pages and their step indicator (`Signup`,
  `SignupLegacy`, `ProgressSteps`);
- page titles (`AppConfig`);
- the class-list stand-in of the test set-up (`TokenList`).

The record types are in `Types`. `Base`, `Seqs` and `Strings` hold shared
helpers:

- `Option`, `Result` and the `Patch` used for partial updates;
- an order-preserving `Filter` with its lemmas;
- the JavaScript string operations the pages use: `trim`, `split`, `join`,
  `includes`, and ASCII `toLowerCase`.

The form follows the source:

- State that the source keeps in React state or in storage becomes a class.
  Its fields are `seq`s and records. Each handler is a method with a
  `modifies` clause that states the whole new state.
- Filters, lookups and render conditions become functions over `seq`s.
  Their `ensures` clauses say which elements are kept and why.
- The loops of the slug generators and of the class list are methods with
  loop invariants. They are proved against a specification function.

Network answers, the clock and fresh ids are parameters:

- a sign-in error, a session, a profile, the product looked up by slug;
- `now` and the new ids.

Timestamps are integer milliseconds.

## Model

| member | source | states |
|---|---|---|
| Tickets.NewTicket | src/hooks/useTickets.ts:10-18 | the new ticket carries the supplied fields, the id `ticket_<now>`, status new, the agent queue and both time stamps at `now` |
| Tickets.MergeNoChange | src/hooks/useTickets.ts:24-34 | merging an update with no field present only restamps `updatedAt` |
| Tickets.Merge | src/hooks/useTickets.ts:27-31 | `updatedAt` is always now; every other property the update carries takes the new value, and every property it lacks keeps the ticket's |
| Tickets.UpdatedTickets | src/hooks/useTickets.ts:24-34 | the list keeps its length; every ticket with the given id is merged with the update and restamped, every other ticket is kept as it was |
| Tickets.UpdateMissingId | src/hooks/useTickets.ts:24-34 | updating an id that no stored ticket carries leaves the list unchanged |
| Tickets.UpdateKeepsIds | src/hooks/useTickets.ts:24-34 | an update that does not set `id` keeps every ticket's id in place |
| Tickets.AssignEffect | src/hooks/useTickets.ts:50-55 | assigning sets the assignee and status in_progress, whatever the old status, and changes nothing else but `updatedAt` |
| Tickets.EscalateEffect | src/hooks/useTickets.ts:57-63 | escalating moves the ticket to the admin queue, records the reason, drops the assignee, keeps the status and changes nothing else but `updatedAt` |
| Tickets.CloseEffect | src/hooks/useTickets.ts:65-69 | closing sets status resolved and changes nothing else but `updatedAt` |
| Tickets.AssignUpdate | src/hooks/useTickets.ts:50-55 | merged into any ticket, the patch sets the assignee and status in_progress and restamps it, nothing else |
| Tickets.EscalateUpdate | src/hooks/useTickets.ts:57-63 | merged into any ticket, the patch moves it to the admin queue, records the reason, drops the assignee and restamps it, nothing else |
| Tickets.CloseUpdate | src/hooks/useTickets.ts:65-69 | merged into any ticket, the patch sets status resolved and restamps it, nothing else |
| Tickets.NewResponse | src/hooks/useTickets.ts:39-44 | the new response carries the supplied fields, the id `response_<now>` and `createdAt == now` |
| Tickets.ResponsesFor | src/hooks/useTickets.ts:71-73 | a response is listed exactly when it is stored and belongs to the ticket, internal notes included |
| Tickets.ResponsesForAppend | src/hooks/useTickets.ts:46 | a response appended to the store appears at the end of its own ticket's list and of no other list |
| Tickets.UserTickets | src/hooks/useTickets.ts:75-82 | a ticket is listed exactly when it is stored and visible to the user: a customer's own tickets, otherwise the user's team's tickets, nothing without a user |
| Tickets.VisibleTo | src/hooks/useTickets.ts:75-82 | nobody sees a ticket without a user; a customer sees exactly the tickets they opened, anyone else exactly the tickets of their team |
| Tickets.UserTicketsAppend | src/hooks/useTickets.ts:75-82 | the visible list follows stored order: a ticket appended to the store is appended to the visible list exactly when visible |
| Tickets.TicketStore.constructor | src/hooks/useTickets.ts:5-8 | the store starts with the given user, tickets and responses |
| Tickets.TicketStore.Visible | src/hooks/useTickets.ts:85 | the hook's `tickets` are the stored tickets visible to the current user |
| Tickets.TicketStore.CreateTicket | src/hooks/useTickets.ts:10-22 | the new ticket is appended to the stored list and returned; responses and user are untouched |
| Tickets.TicketStore.UpdateTicket | src/hooks/useTickets.ts:24-37 | the stored list becomes the merged list; responses and user are untouched |
| Tickets.TicketStore.AddResponse | src/hooks/useTickets.ts:39-48 | the new response is appended to the stored responses and returned; tickets and user are untouched |
| Tickets.TicketStore.AssignTicket | src/hooks/useTickets.ts:50-55 | the stored list becomes the list updated with the assignment patch |
| Tickets.TicketStore.EscalateTicket | src/hooks/useTickets.ts:57-63 | the stored list becomes the list updated with the escalation patch |
| Tickets.TicketStore.CloseTicket | src/hooks/useTickets.ts:65-69 | the stored list becomes the list updated with the resolved patch |
| Tickets.TicketStore.GetTicketResponses | src/hooks/useTickets.ts:71-73 | returns the ticket's responses in stored order and changes nothing |
| Auth.ShouldRefreshSession | src/context/AuthContext.tsx:25-44 | a refresh is due when either stamp is missing; with two numeric stamps exactly when expiry is less than 12 hours away or the last refresh is more than 12 hours old; two unreadable stamps never force one; with one unreadable stamp the numeric one decides alone (expiry less than 12 hours away, or last refresh more than 12 hours old) |
| Auth.RefreshAfterStoring | src/context/AuthContext.tsx:25-44 | after storing `now` and `now + TOKEN_EXPIRY` a refresh is due exactly when more than 12 hours have passed, and not at `now` |
| Auth.InitialStep | src/context/AuthContext.tsx:51-62 | the existing session is used exactly when there is one and no refresh is due; otherwise a refresh is tried |
| Auth.OrElse | src/context/AuthContext.tsx:136-137 | `a \|\| b`: a present non-empty text wins, otherwise the fallback |
| Auth.UserRecord | src/context/AuthContext.tsx:133-140 | the user carries the session's id and email, the profile's team, the name fallback, the profile role (customer when missing) and the product ids ([] when missing) |
| Auth.MissingRoleIsCustomer | src/context/AuthContext.tsx:137 | a profile without a role, or with an empty one, gives a customer |
| Auth.NameFallback | src/context/AuthContext.tsx:136 | the name is the profile name, else the metadata name, else the empty text |
| Auth.ProductCheck | src/context/AuthContext.tsx:181-199 | an unknown slug fails with "Invalid product"; a public product always passes; a private one passes exactly when the email's domain is in its allowed domains; no other message is produced |
| Auth.Granted | src/context/AuthContext.tsx:201-215 | the grant is present afterwards; the rows stay as they are exactly when the pair is stored once, since `.single()` finds nothing for no row and for two or more, and then another row is appended |
| Auth.GrantIdempotent | src/context/AuthContext.tsx:201-215 | granting twice is the same as granting once exactly while the pair is stored at most once; from two rows on each grant adds another |
| Auth.AuthSession.constructor | src/context/AuthContext.tsx:20-22 | the provider starts signed out with nothing stored |
| Auth.AuthSession.HandleSession | src/context/AuthContext.tsx:123-168 | with a session user and a profile the user record is set and stored with the token and the `now` and `now + TOKEN_EXPIRY` stamps; otherwise user and every stored session key are cleared; grants and the remembered email are untouched |
| Auth.AuthSession.Login | src/context/AuthContext.tsx:170-228 | the error is exactly: the sign-in error when there is one, else the product check's error when a non-empty product slug is given, else none, so a plain sign-in without a sign-in error always succeeds; an error changes nothing, token and stored user included; on success the grant is added once, the session is handled (user, token, stored user and stamps set, or all cleared), without a session those are kept, and the email is remembered when asked and a session is returned |
| Auth.LoginDomainAllowed | src/context/AuthContext.tsx:195-196 | a domain match needs an '@' in the email and a domain list on the product; a product without domains admits nobody |
| Auth.AuthSession.Logout | src/context/AuthContext.tsx:260-264 | the user and every stored session key are cleared |
| ProductContext.AccessibleProducts | src/context/ProductContext.tsx:28-33 | a product is accessible exactly when it is stored and the user reaches it: an admin the products of their team, anyone else the products in their `productIds`, nobody without a user |
| ProductContext.CanAccess | src/context/ProductContext.tsx:28-33 | nobody reaches a product without a user; an admin reaches exactly the products of their team, anyone else exactly the products listed in their `productIds` |
| ProductContext.TeamProducts | src/context/ProductContext.tsx:48-50 | a product is listed exactly when it is stored and belongs to the user's team |
| ProductContext.AdminAccessibleIsTeam | src/context/ProductContext.tsx:28-33 | for an admin the accessible products are exactly the team's products, in the same order |
| ProductContext.SelectionAfterEffect | src/context/ProductContext.tsx:43-45 | the selection is either kept or cleared, and it is kept exactly when an accessible product carries its id |
| ProductContext.SelectionSurvivesEffect | src/context/ProductContext.tsx:26-46 | a stored product the user may reach is never cleared by the effect |
| ProductContext.ReplaceById | src/context/ProductContext.tsx:56-62 | the list keeps its length; every product with the updated one's id is replaced by it, the others kept |
| ProductContext.ReplaceByIdIdempotent | src/context/ProductContext.tsx:56-62 | replacing twice is replacing once |
| ProductContext.WithoutId | src/context/ProductContext.tsx:64-67 | a product remains exactly when it is stored and has another id; no product with that id remains |
| ProductContext.First | src/context/ProductContext.tsx:72 | `xs[0] \|\| null`: none exactly for the empty list, otherwise the head |
| ProductContext.DeleteFallbackSound | src/context/ProductContext.tsx:69-73 | the fallback selection is never the deleted product, is in the user's team and survives the deletion; there is none exactly when every team product has the deleted id |
| ProductContext.DeleteFallback | src/context/ProductContext.tsx:69-73 | the fallback selection is a stored product other than the deleted one |
| ProductContext.DeleteOnlyProduct | src/context/ProductContext.tsx:69-73 | deleting the only product leaves nothing to select |
| ProductContext.ProductDirectory.constructor | src/context/ProductContext.tsx:19-23 | the provider starts with the stored products and selection and the product navigation hidden |
| ProductContext.ProductDirectory.ClearInaccessibleSelection | src/context/ProductContext.tsx:26-46 | the selection becomes the effect's selection; nothing else changes |
| ProductContext.ProductDirectory.GetTeamProducts | src/context/ProductContext.tsx:48-50 | returns the team's products and changes nothing |
| ProductContext.ProductDirectory.AddProduct | src/context/ProductContext.tsx:52-54 | the product is appended; nothing else changes |
| ProductContext.ProductDirectory.UpdateProduct | src/context/ProductContext.tsx:56-62 | products with the updated one's id are replaced; nothing else changes |
| ProductContext.ProductDirectory.DeleteProduct | src/context/ProductContext.tsx:64-74 | products with the id are removed; a deleted selection falls back to the first other team product of the earlier list, any other selection is kept |
| ProductContext.ProductDirectory.SelectProduct | src/context/ProductContext.tsx:76-109 | null clears the selection and hides the navigation; an accessible product is selected and shows it; any other product changes nothing |
| ProductForm.SanitizeChar | src/components/products/ProductForm.tsx:142 | the result is always a slug character; a character whose lower case is in `a-z0-9-` becomes that lower case, any other becomes '-' |
| ProductForm.SanitizeSlugInput | src/components/products/ProductForm.tsx:142 | the sanitised slug has the typed text's length, consists of slug characters only, and sanitises each position separately |
| ProductForm.SanitizeIdempotent | src/components/products/ProductForm.tsx:142 | sanitising an already sanitised slug changes nothing |
| ProductForm.SanitizeKeepsSlugs | src/components/products/ProductForm.tsx:142 | a text made of slug characters passes through unchanged |
| ProductForm.TrimEach | src/components/products/ProductForm.tsx:119 | every piece is trimmed in place and none is dropped |
| ProductForm.ParseDomains | src/components/products/ProductForm.tsx:119 | the domain list has one entry per comma-separated part, so at least one |
| ProductForm.ParseEmptyField | src/components/products/ProductForm.tsx:119 | clearing the field gives `['']`, not the empty list |
| ProductForm.TrimAfterSeparator | src/components/products/ProductForm.tsx:118-119 | trimming removes exactly the space the display puts before each clean domain |
| ProductForm.DisplaySplit | src/components/products/ProductForm.tsx:118-119 | splitting the displayed list at its commas gives the domains back, each but the first still led by the separator's space |
| ProductForm.ParseDisplayRoundTrip | src/components/products/ProductForm.tsx:118-119 | reading back the displayed `join(', ')` of a non-empty list of clean domains gives the list itself |
| ProductForm.ShowsDomainField | src/components/products/ProductForm.tsx:107 | the domain field is rendered exactly when the access select holds 'private' |
| Slug.RawSlug | src/pages/ProductManagement.tsx:93-103 | the loop's slug has only characters of `allowedChars` and is never longer than the text |
| Slug.DropLeadingHyphens | src/pages/ProductManagement.tsx:106 | the result is a suffix of the text that does not start with '-', and everything cut off was '-' |
| Slug.DropTrailingHyphens | src/pages/ProductManagement.tsx:106 | the result is a prefix of the text that does not end with '-', and everything cut off was '-' |
| Slug.StripHyphens | src/pages/ProductManagement.tsx:106 | the result neither starts nor ends with '-' and keeps a slug a slug |
| Slug.SlugOfWellFormed | src/pages/ProductManagement.tsx:87-109 | every generated slug is non-empty, made of `a-z0-9-` only, and neither starts nor ends with '-' |
| Slug.SlugOf | src/pages/ProductManagement.tsx:87-109 | every generated slug is well formed: non-empty, made of `a-z0-9-` only, with no '-' at either end |
| Slug.RawSlugOfSlugChars | src/pages/ProductManagement.tsx:93-103 | a text made of allowed characters passes the loop unchanged |
| Slug.RawSlugWithoutSpaces | src/pages/ProductManagement.tsx:93-103 | without spaces the loop keeps exactly the allowed characters in order, typed '-' runs included |
| Slug.StripHyphensUnchanged | src/pages/ProductManagement.tsx:106 | a text that neither starts nor ends with '-' is not changed by the replace |
| Slug.ToLowerSlugChars | src/pages/ProductManagement.tsx:92 | lower-casing leaves slug characters as they are |
| Slug.SlugOfIdempotent | src/pages/ProductManagement.tsx:87-109 | generating a slug from a generated slug gives it back |
| Slug.RawSlugPrefix | src/pages/ProductManagement.tsx:93-103 | each loop turn consumes exactly one more character of the text |
| Slug.LowerExample | src/pages/ProductManagement.tsx:92 | "My Product!" lower-cases to "my product!" |
| Slug.SlugExampleProductName | src/pages/ProductManagement.tsx:87-109 | "My Product!" becomes "my-product" |
| Slug.RawExample | src/pages/ProductManagement.tsx:93-103 | the loop turns "my product!" into "my-product" |
| Slug.SlugExampleBlank | src/pages/ProductManagement.tsx:105-108 | a text of spaces only gives "untitled" |
| Slug.SlugExampleHyphens | src/pages/ProductManagement.tsx:97-101 | "a--b" keeps its typed '--', and "a - b" also gives "a--b" since only a space after '-' is skipped |
| Slug.GenerateSlug | src/pages/ProductManagement.tsx:87-109 | the loop computes the specified slug (`SlugOf`), whose properties are the lemmas above; the copy in src/hooks/useProductForm.ts:21-43 is the same text |
| ProductManagement.ChosenSlug | src/pages/ProductManagement.tsx:58 | the slug is never empty: the trimmed typed slug when it is not blank, otherwise the generated slug of the trimmed name, which is well formed |
| ProductManagement.ShowsManagement | src/pages/ProductManagement.tsx:31 | the page, rather than 'Access Denied', is shown exactly to the users whose top navigation links to Products |
| ProductManagement.DomainFieldShownIffKept | src/components/products/ProductForm.tsx:107 | the domain field is shown exactly for the forms whose domains the save keeps, and then they are kept unchanged |
| ProductManagement.KeptDomains | src/pages/ProductManagement.tsx:57 | domains are kept exactly for a private product, and then unchanged |
| ProductManagement.AddedProduct | src/pages/ProductManagement.tsx:51-59 | the new product has the given id, the admin's team, the trimmed name and description, the form's access type, the domains only when private, a non-empty chosen slug and no default template |
| ProductManagement.EditedLikeAdded | src/pages/ProductManagement.tsx:73-80 | editing keeps id, team and default template and otherwise gives the record adding the same form gives |
| ProductManagement.PickSlug | src/pages/ProductManagement.tsx:58 | returns the chosen slug, running the slug loop when the typed slug is blank |
| ProductManagement.MakeProduct | src/pages/ProductManagement.tsx:51-59 | builds the added product |
| ProductManagement.MakeEdited | src/pages/ProductManagement.tsx:73-80 | builds the edited product |
| ProductManagement.ProductManagementPage.constructor | src/pages/ProductManagement.tsx:17-29 | the page starts with empty form fields, no product being edited, no error and every modal closed |
| ProductManagement.ProductManagementPage.TeamGrid | src/pages/ProductManagement.tsx:134 | the grid lists exactly the stored products of the admin's team |
| ProductManagement.ProductManagementPage.ResetForm | src/pages/ProductManagement.tsx:119-127 | the fields go back to the empty form, nothing is being edited and the error is cleared; the modals stay as they are |
| ProductManagement.ProductManagementPage.HandleAddProduct | src/pages/ProductManagement.tsx:44-64 | a blank name sets 'Product name is required' and changes no product; otherwise the added product is appended, the add modal closes and the form is reset |
| ProductManagement.ProductManagementPage.HandleEditProduct | src/pages/ProductManagement.tsx:66-85 | without a product being edited or with a blank name the error is set and no product changes; otherwise every product with the edited id is replaced by the edited record, the modal closes and the form is reset |
| ProductManagement.ProductManagementPage.HandleDeleteProduct | src/pages/ProductManagement.tsx:111-117 | without a product being edited nothing changes; otherwise the product is removed, a deleted selection falls back as the directory says, the modal closes and the form is reset |
| UseProductForm.InitialFields | src/hooks/useProductForm.ts:5-10 | without a product the form is empty ('' / 'public' / []); with one it copies name, description, access type and slug, and the domains or [] |
| UseProductForm.ProductFormState.constructor | src/hooks/useProductForm.ts:4-10 | the hook starts with the initial fields and no error |
| UseProductForm.ProductFormState.ResetForm | src/hooks/useProductForm.ts:12-19 | the fields become those of a form opened without a product and the error is cleared |
| Types.ParseRole | src/types/index.ts:6 | a role text is unrecognised exactly when it is none of 'admin', 'agent', 'customer' |
| Types.RoleNameParse | src/types/index.ts:6 | parsing any role text and naming the result gives the text back, and the parsed role is canonical |
| Types.ParseRoleName | src/types/index.ts:6 | naming a canonical role and parsing the name gives the role back |
| Types.ParseStatus | src/types/index.ts:46 | a status text parses exactly when it is one of the four ticket statuses |
| Types.StatusRoundTrip | src/types/index.ts:46 | parsing a status's name gives the status, and a text that parses to a status is its name |
| Types.ParseAccess | src/types/index.ts:19 | an access text parses exactly when it is 'public' or 'private' |
| Types.AccessRoundTrip | src/types/index.ts:19 | parsing an access type's name gives it back, and a text that parses is its name |
| Types.ParseFieldType | src/types/index.ts:80 | a field type text parses exactly when it is one of the seven field types |
| Types.FieldTypeRoundTrip | src/types/index.ts:80 | parsing a field type's name gives it back, and a text that parses is its name |
| Stats.RoundDiv | src/data/stats.ts:12 | `Math.round(n / d)`: the integer nearest to n/d, halves rounded up |
| Stats.MulAtLeast | src/data/stats.ts:12 | a positive multiple of a positive number is at least that number (used by the rounding proof) |
| Stats.DivExact | src/data/stats.ts:12 | dividing `q * m + rem` by `m` gives `q` for a remainder below `m` (used by the rounding proof) |
| Stats.RoundDivUnique | src/data/stats.ts:12 | exactly one integer is nearest to n/d in that sense, so the rounding is pinned down |
| Stats.ResponseTimes | src/data/stats.ts:8-10 | one entry per ticket with a first response, in stored order; the i-th is the time from creation to first response of the i-th such ticket |
| Stats.Ratings | src/data/stats.ts:16 | one entry per ticket with a truthy satisfaction, in stored order; the i-th is the rating of the i-th such ticket |
| Stats.AvgResponseHours | src/data/stats.ts:11-13 | null exactly when no ticket has a first response; otherwise the integer nearest to the mean response time in hours (sum of the response times over count × 3600000), halves rounded up |
| Stats.SatisfactionPercent | src/data/stats.ts:17-19 | null exactly when no ticket has a truthy rating; otherwise the integer nearest to 100 × the mean rating, halves rounded up |
| Stats.ValueText | src/data/stats.ts:24-25 | a truthy value reads as its decimal text followed by the unit ('h' or '%'); a null or zero value reads as the fallback text ('No data' or 'Not available') |
| Stats.ValueTextFallbackIff | src/data/stats.ts:24-25 | when the fallback does not end in the unit's last character, as with 'No data' against 'h' and 'Not available' against '%', the fallback is shown exactly for a null or zero value |
| Stats.GetDashboardStats | src/data/stats.ts:3-27 | the total is the number of tickets; the open count counts the non-resolved tickets and is at most the total; the response text is the rounded mean hours followed by 'h', else 'No data'; the satisfaction text is the rounded percentage followed by '%', else 'Not available' |
| Stats.OpenAndResolvedTotal | src/data/stats.ts:4-5 | open and resolved tickets together make up the total |
| Stats.NoDataCases | src/data/stats.ts:11-24 | the response text is 'No data' exactly when nobody responded or the mean rounds to 0 hours |
| Stats.QuickAnswerReadsNoData | src/data/stats.ts:12-24 | a single answer after 20 minutes rounds to 0 hours and reads 'No data' |
| Stats.SumOfEqual | src/data/stats.ts:18 | a sum of n equal values is n times the value (used by the rating lemma) |
| Stats.AllFivesReadFiveHundred | src/data/stats.ts:16-25 | ratings are not rescaled: if every rated ticket has 5, the satisfaction is 500 and reads '500%' |
| Stats.RatingsAllFive | src/data/stats.ts:16 | if every rated ticket has 5, every collected rating is 5 |
| Analytics.TeamTickets | src/pages/Analytics.tsx:15-17 | a ticket is counted exactly when it is among the hook's tickets and belongs to the user's team; nothing without a user |
| Analytics.CountStatus | src/pages/Analytics.tsx:23-28 | a status count never exceeds the number of tickets |
| Analytics.StatusCountsSum | src/pages/Analytics.tsx:23-28 | the counts of the four statuses add up to the number of tickets |
| Analytics.TicketsByStatus | src/pages/Analytics.tsx:23-28 | one count per status, and the four counts together account for every ticket |
| Analytics.ShowsAnalytics | src/pages/Analytics.tsx:49-60 | the page, rather than 'Access Denied', is shown exactly to the users whose product navigation links to Analytics: everyone but a customer |
| Analytics.AnalyticsFor | src/pages/Analytics.tsx:19-47 | both time figures are the dashboard's mean response text over the team's tickets, the score its satisfaction text, the status counts and week-ago volume are over the team's tickets, there are no top agents, and the seven weekdays Mon..Sun each have 0 tickets |
| Analytics.VolumeIsStatusTotal | src/pages/Analytics.tsx:23-36 | the week-ago volume equals the sum of the status counts |
| TemplateManagement.AddedTemplate | src/pages/TemplateManagement.tsx:108-115 | the new template has the given id, the admin's team, the trimmed name and description, the form's fields and is not the default |
| TemplateManagement.EditedTemplate | src/pages/TemplateManagement.tsx:136-141 | editing keeps id, team and default flag and takes the trimmed name and description and the fields from the form |
| TemplateManagement.EditedTemplates | src/pages/TemplateManagement.tsx:134-143 | the list keeps its length; every template with the edited id is edited and every other one is unchanged |
| TemplateManagement.EditMissingId | src/pages/TemplateManagement.tsx:134-143 | editing an id no template carries changes nothing |
| TemplateManagement.WithoutTemplate | src/pages/TemplateManagement.tsx:153-155 | a template remains exactly when it was stored and has another id |
| TemplateManagement.WithDefault | src/pages/TemplateManagement.tsx:170-173 | the list keeps its length; each template's default flag becomes "its id is the target id" and nothing else changes, across all teams |
| TemplateManagement.ExactlyOneDefault | src/pages/TemplateManagement.tsx:170-173 | with distinct ids, after setting a stored template as default it is the only default template |
| TemplateManagement.WithDefaultIdempotent | src/pages/TemplateManagement.tsx:170-173 | setting the same default twice is setting it once |
| TemplateManagement.TeamTemplates | src/pages/TemplateManagement.tsx:188 | a template is listed exactly when it is stored and belongs to the admin's team |
| TemplateManagement.ShowsTemplates | src/pages/TemplateManagement.tsx:83 | the page, rather than 'Access Denied', is shown exactly to the users whose product navigation links to Templates |
| TemplateManagement.AddedTemplateListed | src/pages/TemplateManagement.tsx:188 | an added template appears at the end of the team's grid |
| TemplateManagement.TemplateManagementPage.constructor | src/pages/TemplateManagement.tsx:54-81 | the page starts with the stored templates, the editor and both dialogs closed, nothing selected, no error and an empty form |
| TemplateManagement.TemplateManagementPage.Grid | src/pages/TemplateManagement.tsx:188 | the grid lists exactly the stored templates of the admin's team |
| TemplateManagement.TemplateManagementPage.ResetForm | src/pages/TemplateManagement.tsx:180-186 | the form empties, nothing is selected and the error clears; templates, editor and dialogs stay |
| TemplateManagement.TemplateManagementPage.StartAdd | src/pages/TemplateManagement.tsx:237-240 | the editor opens on an empty form with nothing selected |
| TemplateManagement.TemplateManagementPage.StartEdit | src/pages/TemplateManagement.tsx:253-259 | the editor opens with the template selected and its name, description and fields in the form |
| TemplateManagement.TemplateManagementPage.StartDelete | src/pages/TemplateManagement.tsx:261-264 | the template is selected and the delete confirmation opens; nothing else changes |
| TemplateManagement.TemplateManagementPage.HandleAddTemplate | src/pages/TemplateManagement.tsx:96-120 | a blank name sets 'Template name is required', then an empty field list 'At least one field is required', and neither changes anything else, the typed name, description and fields included; otherwise the added template is appended and the editor closes on a reset form |
| TemplateManagement.TemplateManagementPage.HandleEditTemplate | src/pages/TemplateManagement.tsx:122-148 | without a selection or with a blank name the error is 'Template name is required', with no fields 'At least one field is required', and neither changes anything else, the typed name, description and fields included; otherwise every template with the selected id is edited and the editor closes on a reset form |
| TemplateManagement.TemplateManagementPage.HandleDeleteTemplate | src/pages/TemplateManagement.tsx:150-160 | without a selection or for a default template nothing changes, the form included; otherwise every template with that id is removed, the dialog closes and the form resets |
| TemplateManagement.TemplateManagementPage.HandleSetDefault | src/pages/TemplateManagement.tsx:162-165 | the template waits for confirmation and the dialog opens; nothing else changes, the form included |
| TemplateManagement.TemplateManagementPage.ConfirmSetDefault | src/pages/TemplateManagement.tsx:167-178 | without a pending template nothing changes; otherwise the default flags are recomputed over every stored template, the dialog closes and nothing is pending; the form and the other dialogs stay |
| TemplateForm.MergeFieldEffects | src/components/templates/TemplateForm.tsx:43 | merging an empty change leaves a field as it is, and a change of the options alone touches nothing else |
| TemplateForm.MergeField | src/components/templates/TemplateForm.tsx:43 | every property the change carries takes the new value; every other keeps the field's |
| TemplateForm.BlankField | src/components/templates/TemplateForm.tsx:32-37 | the new field has the id `field_<now>`, an empty label, type text, is optional and has no placeholder, help text or options |
| TemplateForm.WithBlankField | src/components/templates/TemplateForm.tsx:38 | the emitted list is the old list followed by one blank field |
| TemplateForm.ChangedFields | src/components/templates/TemplateForm.tsx:41-45 | the list keeps its length, the field at the index gets the changes merged in, and every other field is unchanged |
| TemplateForm.RemovedField | src/components/templates/TemplateForm.tsx:47-49 | the list loses exactly the field at the index; the others keep their order |
| TemplateForm.Swap | src/components/templates/TemplateForm.tsx:61 | the destructuring swap exchanges the two positions, leaves the others and permutes the list |
| TemplateForm.MovedFields | src/components/templates/TemplateForm.tsx:51-63 | nothing is emitted exactly for up from the top or down from the bottom; otherwise the field is swapped with its neighbour |
| TemplateForm.MoveIsAdjacentSwap | src/components/templates/TemplateForm.tsx:51-63 | an emitted move is a permutation that exchanges the field with its upper or lower neighbour and leaves every other position |
| TemplateForm.MoveUpThenDown | src/components/templates/TemplateForm.tsx:51-63 | moving a field up and then down again restores the list |
| TemplateForm.MoveDownThenUp | src/components/templates/TemplateForm.tsx:51-63 | moving a field down and then up again restores the list |
| TemplateForm.MoveField | src/components/templates/TemplateForm.tsx:51-63 | the in-place swap on a copied array emits exactly the specified move |
| TemplateForm.ChangeField | src/components/templates/TemplateForm.tsx:41-45 | the index assignment on a copied array emits exactly the specified change |
| TemplateFieldForm.DisabledButtonsMatchIgnoredMoves | src/components/templates/TemplateFieldForm.tsx:41-50 | the up button is disabled exactly when the form would ignore a move up, and the down button exactly when it would ignore a move down |
| TemplateFieldForm.UpDisabled | src/components/templates/TemplateFieldForm.tsx:42 | the up button is disabled exactly when there is no field above |
| TemplateFieldForm.DownDisabled | src/components/templates/TemplateFieldForm.tsx:50 | the down button is disabled exactly when the field below would be one past the end of the list |
| TemplateFieldForm.ShowsOptionsEditor | src/components/templates/TemplateFieldForm.tsx:89-91 | the option editor is rendered exactly for the types named 'select', 'radio' and 'checkbox' |
| TemplateFieldForm.ShowsFileTypePicker | src/components/templates/TemplateFieldForm.tsx:137 | the file-type picker is rendered exactly for the type named 'file' |
| TemplateFieldForm.FileTypeChecked | src/components/templates/TemplateFieldForm.tsx:150 | a file type's box is ticked exactly when the type is among the field's options, an absent list ticking nothing |
| TemplateFieldForm.EditorsExclusive | src/components/templates/TemplateFieldForm.tsx:89-137 | no field type shows both the option editor and the file-type picker, and exactly text, textarea and date fields show neither |
| TemplateFieldForm.EditedOptions | src/components/templates/TemplateFieldForm.tsx:102-105 | typing into an option replaces that option only and keeps the list's length |
| TemplateFieldForm.RemovedOption | src/components/templates/TemplateFieldForm.tsx:112-114 | an absent list stays absent; otherwise exactly the option at that position is dropped, the rest in order |
| TemplateFieldForm.AddedOption | src/components/templates/TemplateFieldForm.tsx:124-126 | an empty option is appended, an absent list counting as empty |
| TemplateFieldForm.ToggledFileType | src/components/templates/TemplateFieldForm.tsx:150-155 | after the click the box shows the new state and no other type's box changes; checking appends the type, unchecking removes every occurrence |
| TemplateFieldForm.OptionsChange | src/components/templates/TemplateFieldForm.tsx:102-155 | each option editor's change, merged into any field, changes only its options |
| CategoryManagement.DefaultCategories | src/pages/CategoryManagement.tsx:10-35 | three categories, billing / general / technical with their names, each of the given team, with no products, flagged default and enabled |
| CategoryManagement.Seeded | src/pages/CategoryManagement.tsx:52-56 | an empty store is replaced by the defaults, any other store is kept |
| CategoryManagement.TeamCategories | src/pages/CategoryManagement.tsx:69 | a category is listed exactly when it is stored and belongs to the user's team |
| CategoryManagement.ShowsCategories | src/pages/CategoryManagement.tsx:71 | the page, rather than 'Access Denied', is shown exactly to the users the page shell marks as admins |
| CategoryManagement.ShowsCategoriesIffLinked | src/pages/CategoryManagement.tsx:71 | the page is shown exactly to the users whose product navigation links to Categories |
| CategoryManagement.SeedingIsNotPerTeam | src/pages/CategoryManagement.tsx:52-69 | a store holding only other teams' categories is not seeded, so this team's table stays empty |
| CategoryManagement.SeededTeamSeesDefaults | src/pages/CategoryManagement.tsx:52-69 | on an empty store the team's table shows exactly the three defaults |
| CategoryManagement.AccessibleProducts | src/pages/CategoryManagement.tsx:59-67 | a product is offered exactly when it is stored and the user may reach it by the product provider's rule |
| CategoryManagement.AdminOfferedTeamProducts | src/pages/CategoryManagement.tsx:59-67 | an admin, the only user shown the page, is offered exactly the team's products |
| CategoryManagement.AddedCategory | src/pages/CategoryManagement.tsx:91-97 | the new category has the id, the user's team, the trimmed name, the chosen products, is enabled and has no default flag |
| CategoryManagement.MakeCategory | src/pages/CategoryManagement.tsx:91-97 | builds the added category |
| CategoryManagement.MapWhere | src/pages/CategoryManagement.tsx:113-117 | the list keeps its length; each category with the id is transformed, every other one kept |
| CategoryManagement.EditedCategories | src/pages/CategoryManagement.tsx:113-117 | the list keeps its length; each category with the selected id is edited, every other one kept |
| CategoryManagement.ToggledCategories | src/pages/CategoryManagement.tsx:150-152 | the list keeps its length; each category with the id is toggled, every other one kept |
| CategoryManagement.AssignedCategories | src/pages/CategoryManagement.tsx:160-166 | the list keeps its length; each category with the selected id gets the chosen products, every other one kept |
| CategoryManagement.EditCategory | src/pages/CategoryManagement.tsx:115 | editing keeps id, team, default and enabled flags and sets the trimmed name and the chosen products |
| CategoryManagement.ToggleTwiceRestores | src/pages/CategoryManagement.tsx:149-154 | toggling flips `isEnabled` of the matching categories only, changes no other field, and toggling twice restores the list |
| CategoryManagement.AssignChangesOnlyProducts | src/pages/CategoryManagement.tsx:162-166 | assignment sets the products of the matching categories and changes nothing else |
| CategoryManagement.EditChangesOnlyNameAndProducts | src/pages/CategoryManagement.tsx:113-117 | editing sets name and products of the matching categories and changes nothing else |
| CategoryManagement.WithoutCategory | src/pages/CategoryManagement.tsx:130-132 | a category remains exactly when it was stored and has another id; default categories are not protected |
| CategoryManagement.DuplicatedCategory | src/pages/CategoryManagement.tsx:140-145 | the copy has the new id, the name with ' (Copy)' appended and default false, and is otherwise the original |
| CategoryManagement.CategoryManagementPage.constructor | src/pages/CategoryManagement.tsx:37-49 | the page starts with the stored categories and products, every modal closed, an empty form, nothing selected, no error and no chosen products |
| CategoryManagement.CategoryManagementPage.Table | src/pages/CategoryManagement.tsx:188-189 | the table lists exactly the stored categories of the user's team |
| CategoryManagement.CategoryManagementPage.SeedDefaults | src/pages/CategoryManagement.tsx:52-56 | the store becomes the seeded store; no other page state changes |
| CategoryManagement.CategoryManagementPage.HandleAddCategory | src/pages/CategoryManagement.tsx:84-104 | a blank name sets 'Category name is required' and stores nothing; otherwise the added category is appended, the form empties and the modal closes |
| CategoryManagement.CategoryManagementPage.StartEdit | src/pages/CategoryManagement.tsx:190-195 | the category is selected, the form takes its name and products (or []) and the edit modal opens; no other page state changes |
| CategoryManagement.CategoryManagementPage.HandleEditCategory | src/pages/CategoryManagement.tsx:106-125 | without a selection or with a blank name the error is set and nothing is stored; otherwise the matching categories are edited, the form empties, the selection clears and the modal closes |
| CategoryManagement.CategoryManagementPage.StartDelete | src/pages/CategoryManagement.tsx:196-199 | the category is selected and the delete dialog opens; no other page state changes |
| CategoryManagement.CategoryManagementPage.HandleDeleteCategory | src/pages/CategoryManagement.tsx:127-137 | without a selection nothing changes; otherwise every category with its id is removed, the selection clears and the dialog closes; no other page state changes |
| CategoryManagement.CategoryManagementPage.HandleDuplicate | src/pages/CategoryManagement.tsx:139-147 | the duplicate is appended; no other page state changes |
| CategoryManagement.CategoryManagementPage.HandleToggleEnabled | src/pages/CategoryManagement.tsx:149-154 | the store becomes the toggled store; no other page state changes |
| CategoryManagement.CategoryManagementPage.StartManageProducts | src/pages/CategoryManagement.tsx:202-206 | the category is selected, the dialog is given its own product list (possibly absent) and opens; no other page state changes |
| CategoryManagement.CategoryManagementPage.HandleProductsSubmit | src/pages/CategoryManagement.tsx:156-172 | without a selection nothing changes; otherwise the matching categories get `selectedProducts \|\| []`, the dialog closes, the choice resets and the selection clears; no other page state changes |
| CategoryModals.AddEditTitle | src/components/categories/CategoryModals.tsx:54 | the dialog is titled 'Edit Category' when editing and 'Add Category' otherwise |
| CategoryModals.AssignTitle | src/components/categories/CategoryModals.tsx:180 | the assignment dialog's title is 'Assign Products to ' followed by the category's name |
| CategoryModals.ToggledProduct | src/components/categories/CategoryModals.tsx:91-97 | after the click the product's box shows the new state and every other box is unchanged; ticking appends the id, unticking removes every occurrence |
| CategoryModals.ShowsNoProductsMessage | src/components/categories/CategoryModals.tsx:79-82 | the message replaces the checkboxes exactly when there is no product to offer |
| CategoryModals.ProductChecked | src/components/categories/CategoryModals.tsx:91 | a product's box is ticked exactly when its id occurs in the selection, however often |
| CategoryModals.UntickKeepsOrder | src/components/categories/CategoryModals.tsx:96 | unticking filters element by element, so the remaining ids keep their order |
| NewTicketPage.TextOr | src/pages/NewTicket.tsx:123-128 | `formData[key] \|\| ''`: a filled text value is taken, a missing or empty one gives '' |
| NewTicketPage.ProductCategories | src/pages/NewTicket.tsx:72-75 | a category is offered exactly when it is stored, enabled and lists the selected product's id ('' without a selection) |
| NewTicketPage.DefaultIndex | src/pages/NewTicket.tsx:76-79 | `find` stops at the first default template of the user's team, and finds nothing exactly when there is none |
| NewTicketPage.DefaultTemplate | src/pages/NewTicket.tsx:76-79 | the default template is missing exactly when no stored template is a default of the user's team; a found one is such a template |
| NewTicketPage.FallbackTemplateId | src/pages/NewTicket.tsx:22 | the built-in template's id is the product's non-empty default template id, otherwise 'default'; it is never empty |
| NewTicketPage.FallbackTemplate | src/pages/NewTicket.tsx:20-60 | the built-in template is a default of the user's team with that id and the four built-in fields |
| NewTicketPage.EmptyFormMissesRequired | src/pages/NewTicket.tsx:111-113 | on an empty form the built-in template reports Subject, Category and Description, in that order |
| NewTicketPage.FallbackIsTeamDefault | src/pages/NewTicket.tsx:76-79 | without stored templates the user's team always finds the built-in template as its default |
| NewTicketPage.View | src/pages/NewTicket.tsx:81-103 | 'No Default Template' exactly when none is found, then 'No Product Selected' exactly when a template is found but no product is selected, otherwise the form for that template and product |
| NewTicketPage.NewTicketState.CurrentView | src/pages/NewTicket.tsx:81-103 | 'No Default Template' exactly when no stored template is a default of the user's team; a shown form uses such a template and the selected product |
| NewTicketPage.MissingLabels | src/pages/NewTicket.tsx:111-113 | the list is empty exactly when every required field has a truthy value, and it names every required field whose value is falsy |
| NewTicketPage.MissingLabelsConcat | src/pages/NewTicket.tsx:111-113 | the labels follow the template's field order |
| NewTicketPage.MissingLabelsSound | src/pages/NewTicket.tsx:111-113 | every listed label belongs to a required field whose value is falsy |
| NewTicketPage.EmptyChoicesCountAsFilled | src/pages/NewTicket.tsx:112 | an empty checkbox array is truthy, so a required checkbox group with nothing ticked is not reported |
| NewTicketPage.MissingFieldsMessage | src/pages/NewTicket.tsx:116 | the message is 'Please fill in the following required fields: ' followed by the labels joined with ', ' |
| NewTicketPage.DraftFromForm | src/pages/NewTicket.tsx:122-131 | the draft takes subject, description and category from the form ('' when falsy), the template's and product's ids, the user as customer and team and the whole form as custom fields, with no assignee, reason, rating or first response |
| NewTicketPage.FieldChanged | src/pages/NewTicket.tsx:137-142 | the changed key holds the new value, and every other key keeps its value |
| NewTicketPage.NewTicketState.constructor | src/pages/NewTicket.tsx:12-62 | the page starts with an empty form, no error and not submitting |
| NewTicketPage.NewTicketState.HandleFieldChange | src/pages/NewTicket.tsx:137-142 | the form becomes the changed form; error and submitting flag stay |
| NewTicketPage.NewTicketState.HandleSubmit | src/pages/NewTicket.tsx:105-135 | with missing required fields the error lists them and no ticket is created; otherwise exactly one ticket built from the form is appended to the store and returned; submitting ends either way |
| TicketFormField.Widget | src/components/tickets/TicketFormField.tsx:14-141 | a field type text gets a widget exactly when it is one of the seven types, and then the widget of that type; any other text renders nothing |
| TicketFormField.DisplayedValue | src/components/tickets/TicketFormField.tsx:20-43 | `value \|\| ''`: a missing or falsy value shows as '', a truthy one as itself |
| TicketFormField.RadioChecked | src/components/tickets/TicketFormField.tsx:65 | a checked radio's option is the value the field holds; without a value no radio is checked |
| TicketFormField.CheckboxTicked | src/components/tickets/TicketFormField.tsx:83 | for a missing value or a choice list, a box is ticked exactly when its option is among the current choices |
| TicketFormField.CurrentChoices | src/components/tickets/TicketFormField.tsx:85 | `value \|\| []`: a checkbox list is taken as it is and a missing value gives [] |
| TicketFormField.CheckboxChanged | src/components/tickets/TicketFormField.tsx:84-90 | ticking appends the option to the current list, unticking removes every occurrence of it |
| TicketFormField.CheckboxChangeShows | src/components/tickets/TicketFormField.tsx:83-90 | after a change the option's box shows the state it was set to, and every other option's box keeps its state |
| TicketFormField.AcceptList | src/components/tickets/TicketFormField.tsx:115 | the accept attribute is the options joined with ',' when that is not empty, otherwise the default types |
| TicketFormField.DefaultAcceptList | src/components/tickets/TicketFormField.tsx:115 | without options, or with an empty list, the picker accepts '.pdf,.jpg,.png' |
| TicketFormField.AllowedTypesCaption | src/components/tickets/TicketFormField.tsx:122 | the caption joins the options with ', ', so an empty list gives an empty caption, and falls back to the default types only when the list is absent |
| TicketList.StatusDisplay | src/pages/TicketList.tsx:11-19 | each of the four statuses gets its label and any other text is shown as it is |
| TicketList.StatusDisplayInjective | src/pages/TicketList.tsx:11-19 | distinct statuses get distinct labels, and no status is shown by its raw name |
| TicketList.FilteredTickets | src/pages/TicketList.tsx:30-51 | a ticket is listed exactly when it is among the hook's tickets, belongs to the selected product, and matches the status, category and search controls |
| TicketList.FilteredTicketsAppend | src/pages/TicketList.tsx:30-51 | the list keeps the stored order |
| TicketList.NoProductListsNothing | src/pages/TicketList.tsx:32-34 | without a selected product nothing is listed |
| TicketList.StatusFilterMeaning | src/pages/TicketList.tsx:37-39 | 'open' admits exactly the unresolved tickets, and a status name exactly the tickets with that status |
| TicketList.SearchIgnoresCase | src/pages/TicketList.tsx:46-48 | the search ignores the case of the term, and the empty term matches every ticket |
| TicketList.AssignedAgent | src/pages/TicketList.tsx:63-67 | an unassigned ticket reads 'Unassigned'; for any other ticket the lookup fails, since `users` is not defined on the page |
| TicketDetail.FindTicket | src/pages/TicketDetail.tsx:40 | nothing is found exactly when no ticket has the id; a found ticket is stored and has the id |
| TicketDetail.View | src/pages/TicketDetail.tsx:72-95 | 'No Product Selected' exactly without a selection; the ticket is shown exactly when a product is selected and the ticket is found among the user's tickets and belongs to that product; otherwise 'Ticket Not Found' |
| TicketDetail.AvailableAgents | src/pages/TicketDetail.tsx:61-66 | a user is offered exactly when stored, an agent or admin, and of the ticket's team |
| TicketDetail.StatusUpdateEffect | src/pages/TicketDetail.tsx:119 | a status update changes the status and `updatedAt` only |
| TicketDetail.SatisfactionUpdateEffect | src/pages/TicketDetail.tsx:129 | a rating update changes the satisfaction and `updatedAt` only |
| TicketDetail.StatusUpdate | src/pages/TicketDetail.tsx:119 | merged into any ticket, `{ status: pendingStatus }` sets the status and restamps it, nothing else |
| TicketDetail.SatisfactionUpdate | src/pages/TicketDetail.tsx:129 | merged into any ticket, `{ satisfaction: rating }` sets the rating and restamps it, nothing else |
| TicketDetail.TicketDetailState.CurrentView | src/pages/TicketDetail.tsx:72-95 | 'No Product Selected' exactly without a selection; a shown ticket is stored, visible to the signed-in user, has the route's id and belongs to the selected product |
| TicketDetail.TicketDetailState.constructor | src/pages/TicketDetail.tsx:24-37 | the page starts with an empty public response, no prompts or dialogs open, rating 0, no reason and no pending status |
| TicketDetail.TicketDetailState.HandleSubmit | src/pages/TicketDetail.tsx:98-111 | a blank response is ignored; otherwise the trimmed text is stored as a response of this ticket by the user with the chosen visibility, and the form empties; tickets and every other page field stay |
| TicketDetail.TicketDetailState.HandleStatusChange | src/pages/TicketDetail.tsx:113-115 | the chosen status becomes pending; nothing else changes |
| TicketDetail.TicketDetailState.HandleStatusSave | src/pages/TicketDetail.tsx:117-125 | without a pending status nothing is written; otherwise the status is written, the pending status clears and the rating prompt opens exactly when an agent resolved the ticket; responses and every other page field stay |
| TicketDetail.PromptsRating | src/pages/TicketDetail.tsx:122 | the rating prompt follows exactly an agent's save of the resolved status |
| TicketDetail.TicketDetailState.HandleRatingSubmit | src/pages/TicketDetail.tsx:127-132 | a positive rating is written as the satisfaction, any other is not; the prompt closes; responses and every other page field stay |
| TicketDetail.TicketDetailState.HandleEscalate | src/pages/TicketDetail.tsx:134-141 | a blank reason is ignored; otherwise the ticket is escalated with the trimmed reason and the dialog closes and empties; responses and every other page field stay |
| TicketDetail.TicketDetailState.HandleAssign | src/pages/TicketDetail.tsx:166 | the ticket is assigned to the chosen user |
| TicketActions.PickerValue | src/components/tickets/TicketActions.tsx:47 | the picker shows the pending status when there is one, otherwise the stored status |
| TicketActions.SaveHiddenAfterSave | src/components/tickets/TicketActions.tsx:47-55 | once the save has cleared the pending status Save is hidden, and a pick brings it back exactly when it differs from the stored status |
| TicketActions.ShowsSave | src/components/tickets/TicketActions.tsx:55-60 | Save is shown exactly when the picker shows a status other than the stored one |
| TicketActions.AgentIds | src/components/tickets/TicketActions.tsx:76-80 | one option value per available agent, their ids in order |
| TicketActions.AssignControlFor | src/components/tickets/TicketActions.tsx:67-90 | an admin gets the picker showing the assignee ('' when unassigned) with 'Unassigned' first and then one option per available agent; an agent gets 'Assign to Me' exactly when the ticket is unassigned; anyone else gets nothing |
| TicketActions.AssignTarget | src/components/tickets/TicketActions.tsx:73-85 | the picker passes the chosen option ('' for 'Unassigned'), 'Assign to Me' passes the current user, and no control passes nothing |
| TicketActions.NonStaffGetNoControls | src/components/tickets/TicketActions.tsx:67-100 | a customer or unrecognised role gets neither assignment nor escalation controls, and an admin never gets the escalation button |
| TicketActions.ShowsEscalate | src/components/tickets/TicketActions.tsx:93-95 | the escalation button is offered to an agent on every unresolved ticket and to nobody else |
| Dashboard.DashboardTicketsAreVisible | src/pages/Dashboard.tsx:25-30 | the page's own customer/team filter over the hook's already filtered tickets changes nothing |
| Dashboard.AdminQueueOf | src/pages/Dashboard.tsx:34 | the admin queue holds exactly the user's tickets whose queue is 'admin' |
| Dashboard.AgentQueueOf | src/pages/Dashboard.tsx:35 | the agent queue holds exactly the user's tickets whose queue is 'agent' |
| Dashboard.QueuesPartition | src/pages/Dashboard.tsx:34-35 | the two queues split the user's tickets: together they hold each ticket exactly once |
| Dashboard.OpenTicketsOf | src/pages/Dashboard.tsx:36 | the open list holds exactly the user's tickets that are not resolved |
| Dashboard.ResolvedTicketsOf | src/pages/Dashboard.tsx:37 | the resolved list holds exactly the user's resolved tickets |
| Dashboard.OpenResolvedPartition | src/pages/Dashboard.tsx:32-37 | the open and resolved lists split the user's tickets, and the open list has as many tickets as the open count of the statistics |
| Dashboard.Body | src/pages/Dashboard.tsx:60-95 | a customer gets the open/resolved board, an admin the statistics with both queues, anyone else the statistics with all of their tickets |
| Dashboard.CustomerBoardIsOwnTickets | src/pages/Dashboard.tsx:25-64 | every ticket on a customer's board was opened by that customer |
| Dashboard.RedirectsToDiscover | src/pages/Dashboard.tsx:18-23 | a user is sent to discovery exactly when they are a customer holding no product id at all |
| Dashboard.RedirectedSeeNoProducts | src/pages/Dashboard.tsx:20 | a redirected customer reaches no product of any list under the product provider's access rule |
| Dashboard.ShowsNewTicketLink | src/pages/Dashboard.tsx:49-58 | agents never get the New Ticket link; customers, admins and a missing user do |
| AdminDashboard.ProductLinksShown | src/components/dashboards/AdminDashboard.tsx:44-75 | the five product links (Tickets, Team, Categories, Templates, Analytics) are shown exactly while a product is selected, none otherwise |
| AdminDashboard.SwitcherProducts | src/components/dashboards/AdminDashboard.tsx:98-100 | the switcher offers exactly the stored products of the admin's team |
| AdminDashboard.SwitcherMatchesAccessRule | src/components/dashboards/AdminDashboard.tsx:98-100 | for an admin, the switcher's products are exactly those the product provider lets them select, in the same order |
| AdminDashboard.SameTeamFilter | src/components/dashboards/AdminDashboard.tsx:98-100 | the switcher's team filter agrees with the provider's `getTeamProducts` |
| AdminDashboard.Panel | src/components/dashboards/AdminDashboard.tsx:88-90 | the shell's queues are the hook's admin and agent tickets and together hold all of them; the statistics are the dashboard statistics of every ticket the hook exposes, so the open count is the number of its unresolved tickets |
| TeamDashboard.ProductLinksShown | src/components/dashboards/TeamDashboard.tsx:25-41 | the Tickets, Team and Analytics links are shown exactly while a product is selected, none otherwise |
| TeamDashboard.BoardTickets | src/components/dashboards/TeamDashboard.tsx:54-57 | the board holds exactly the tickets assigned to the agent and the unassigned tickets of the agent's team |
| TeamDashboard.OnBoard | src/components/dashboards/TeamDashboard.tsx:54-57 | a ticket assigned to the agent is always on the board; a ticket of another team only when assigned to the agent; a ticket assigned to someone else never |
| TeamDashboard.AgentBoardIsTeamWork | src/components/dashboards/TeamDashboard.tsx:54-57 | over the hook's team-filtered list, a ticket is on an agent's board exactly when it belongs to the team and is assigned to the agent or to nobody |
| TeamDashboard.BoardStats | src/components/dashboards/TeamDashboard.tsx:59 | the statistics are the dashboard statistics of the board's tickets: total and open count are the board's, never more than the hook exposes, and the response and satisfaction texts are computed over the board only |
| TeamDashboard.SwitcherProducts | src/components/dashboards/TeamDashboard.tsx:67-69 | the switcher offers exactly the stored products whose id is among the user's product ids |
| TeamDashboard.SwitcherMatchesAccessRule | src/components/dashboards/TeamDashboard.tsx:67-69 | for a non-admin, the switcher's products are exactly those the product provider lets them select, in the same order |
| ProductDiscovery.UserDomain | src/pages/ProductDiscovery.tsx:17-21 | the part of the user's email after its first '@' (up to any second '@'), or '' when there is no user or no '@' |
| ProductDiscovery.AvailableProducts | src/pages/ProductDiscovery.tsx:16-23 | the page lists exactly the public products and the private products whose domain list holds the user's domain |
| ProductDiscovery.PrivateWithoutDomainsHidden | src/pages/ProductDiscovery.tsx:20-21 | a private product without a domain list is never listed |
| ProductDiscovery.DiscoveryAgreesWithLogin | src/pages/ProductDiscovery.tsx:16-23 | for a user whose email has a domain, a product is listed exactly when signing in with its slug passes the login product check |
| ProductDiscovery.EmptyDomainAdmitsVisitors | src/pages/ProductDiscovery.tsx:21 | a visitor without a domain is shown any private product whose domain list holds '' |
| ProductDiscovery.FilteredProducts | src/pages/ProductDiscovery.tsx:25-28 | the cards show exactly the available products whose lower-cased name or description contains the lower-cased search term |
| ProductDiscovery.EmptySearchKeepsAll | src/pages/ProductDiscovery.tsx:25-28 | an empty search keeps every available product, in order |
| ProductDiscovery.AccessLink | src/pages/ProductDiscovery.tsx:87 | each card leads to the login page with the product's slug as the `product` parameter |
| Layout.AdminNavigation | src/components/Layout.tsx:17-29 | the top navigation keeps exactly the declared entries whose `show` is not false: Dashboard, then Products only for an admin |
| Layout.ProductNavigation | src/components/Layout.tsx:32-62 | the product navigation keeps exactly the declared entries whose `show` is not false |
| Layout.ProductItemsKept | src/components/Layout.tsx:32-62 | with the admin flag set everything is kept; otherwise Tickets and Analytics when not a customer, else Tickets alone, in declared order |
| Layout.ProductNamesKept | src/components/Layout.tsx:32-62 | the same three outcomes named page by page |
| Layout.ProductNavigationByRole | src/components/Layout.tsx:42-60 | Tickets always; Team, Categories and Templates only for an admin; Analytics for everyone but a customer, also without a user |
| Layout.AdminNavigationNonEmpty | src/components/Layout.tsx:17-29 | the top navigation is never empty and Dashboard heads it |
| Layout.AgentNavigation | src/components/Layout.tsx:27-60 | an agent sees no Products link and exactly Tickets and Analytics for the product |
| Sidebar.Render | src/components/layout/Sidebar.tsx:63-91 | the top navigation and the switcher are always shown; the product section exactly while the product navigation is on and a product with a non-empty id is selected; the divider inside it exactly for an admin when the top navigation is non-empty; its label only while expanded |
| Sidebar.ShowsProductSection | src/components/layout/Sidebar.tsx:68 | the product section is hidden when the flag is off or nothing is selected; otherwise it shows exactly when the selected product's id is not empty |
| Sidebar.ShellSidebar | src/components/layout/Sidebar.tsx:63-91 | the panel rendered with the page shell's two navigation lists |
| Sidebar.ShellDivider | src/components/layout/Sidebar.tsx:68-71 | in the page shell the divider appears exactly when the product section is open and the user is an admin |
| Sidebar.AgentSeesNoDivider | src/components/layout/Sidebar.tsx:71 | an agent never sees the divider, whatever lists are passed in |
| RoleRouter.Route | src/components/RoleRouter.tsx:12-25 | nobody signed in goes to the login page keeping the visited location; admin, agent and customer each get their own dashboard; any other role goes to the login page without the location |
| RoleRouter.RouteOfStoredRole | src/components/RoleRouter.tsx:16-25 | a role text read from a profile reaches a dashboard exactly when it is 'admin', 'agent' or 'customer' |
| TeamManagement.RoleDisplay | src/pages/TeamManagement.tsx:8-15 | the three known roles get their labels; any other text is shown as it is |
| TeamManagement.StatusDisplay | src/pages/TeamManagement.tsx:17-24 | the three known member statuses get their labels; any other text is shown as it is |
| TeamManagement.RoleLabelsDistinct | src/pages/TeamManagement.tsx:8-15 | different known roles get different labels, and no label is itself a role name |
| TeamManagement.TeamMembers | src/pages/TeamManagement.tsx:35 | exactly the stored members of the signed-in user's team, and nobody without a user |
| TeamManagement.View | src/pages/TeamManagement.tsx:55-66 | anyone but an admin is refused; an admin gets the team's members |
| TeamManagement.TeamPage.CurrentView | src/pages/TeamManagement.tsx:55-66 | the members are listed exactly for an admin, and then exactly the stored members of the admin's team |
| TeamManagement.AdminSeesOwnTeam | src/pages/TeamManagement.tsx:35-66 | an admin sees every stored member of their own team and no one else |
| TeamManagement.TeamPage.constructor | src/pages/TeamManagement.tsx:28-32 | the page starts with the stored members, the invite form closed, an empty email, the role 'agent' and no member being edited |
| TeamManagement.TeamPage.OpenInviteForm | src/pages/TeamManagement.tsx:74 | the invite form opens; nothing else changes |
| TeamManagement.TeamPage.CancelInvite | src/pages/TeamManagement.tsx:128 | the invite form closes and keeps what was typed |
| TeamManagement.TeamPage.SetEmail | src/pages/TeamManagement.tsx:101 | the email becomes the typed text; nothing else changes |
| TeamManagement.TeamPage.SetRole | src/pages/TeamManagement.tsx:117 | the role becomes the chosen text; nothing else changes |
| TeamManagement.TeamPage.HandleInvite | src/pages/TeamManagement.tsx:37-43 | the form closes and is reset, no member is added and the view is unchanged |
| TeamManagement.TeamPage.HandleEdit | src/pages/TeamManagement.tsx:45-47 | the member is opened in the edit dialog |
| TeamManagement.TeamPage.EditName | src/pages/TeamManagement.tsx:236 | the open member's name becomes the typed text, all else about it kept |
| TeamManagement.TeamPage.EditRole | src/pages/TeamManagement.tsx:244 | the open member's role becomes the chosen role, all else about it kept |
| TeamManagement.TeamPage.HandleEditSubmit | src/pages/TeamManagement.tsx:49-53 | the edit dialog closes and the stored members stay as they were |
| AppConfig.PageTitle | src/config/app.ts:1-7 | a missing or empty title gives the bare application name; otherwise the title, ' \| ' and the name, so every title ends with the name |
| AppConfig.PageTitleRecoversTitle | src/config/app.ts:5-7 | a page's own title is the prefix of its full title, two pages share a full title exactly when they share a title, and a titled page never shows the bare name |
| ProgressSteps.FindIndex | src/components/signup/ProgressSteps.tsx:16 | the first index whose step has the id, or -1 exactly when no step has it |
| ProgressSteps.Render | src/components/signup/ProgressSteps.tsx:13-37 | one view per step: active exactly when its id is the current one, complete exactly when it comes before the current step's index, a connector after every step but the last, lit exactly when the step is complete |
| ProgressSteps.AbsentStepCompletesNothing | src/components/signup/ProgressSteps.tsx:15-16 | with a current step that is not among the steps, no step is active or complete |
| ProgressSteps.CompleteStepsPrecedeActive | src/components/signup/ProgressSteps.tsx:15-16 | a complete step is never active, and every step before the current one is complete |
| ProgressSteps.ExactlyOneActive | src/components/signup/ProgressSteps.tsx:15-16 | with distinct ids and a present current step, exactly that step is active and exactly the steps before it are complete |
| ProgressSteps.PasswordStepView | src/pages/SignupPage.tsx:26-30 | on the password step of the sign-up page, Info is complete, Password active, Company ahead, and only the first connector is lit |
| Signup.Submit | src/pages/SignupPage.tsx:76-104 | the info step needs first name, last name and email; the password step needs a password, a matching confirmation and at least six characters, checked in that order, the first failure setting its message; passing moves on with no error; the company step only clears the error |
| Signup.CompanyNeedsGoodPassword | src/pages/SignupPage.tsx:86-102 | the company step is reached only from the password step and only with a password of at least six characters typed twice |
| Signup.Back | src/pages/SignupPage.tsx:112-118 | one step back, and nothing on the first step |
| Signup.BackUndoesAdvance | src/pages/SignupPage.tsx:85-118 | going back after a submission that moved forward returns to the step it came from |
| Signup.MetadataFor | src/pages/SignupPage.tsx:42-57 | the metadata always names the full name and the customer role and records the skip flag as text; the company is included exactly when not skipped and both its name and domain are given |
| Signup.FailureMessage | src/pages/SignupPage.tsx:71 | the error thrown is shown, or 'Failed to create account' when its message is empty |
| Signup.SignupFlow.constructor | src/pages/SignupPage.tsx:16-24 | the page starts on the info step with every field empty and no error |
| Signup.SignupFlow.SetFields | src/pages/SignupPage.tsx:135-141 | an input handler changes only the fields |
| Signup.SignupFlow.HandleSubmit | src/pages/SignupPage.tsx:76-104 | the new step and error are those of `Submit`, and the fields are kept |
| Signup.SignupFlow.HandleBack | src/pages/SignupPage.tsx:112-118 | the new step is `Back` of the old one; the fields and the error are kept |
| Signup.SignupFlow.CompleteSignup | src/pages/SignupPage.tsx:33-73 | missing personal details or password stop before any call; otherwise the provider's sign-up is asked with the email, password, full name, the customer role and the metadata, then login; the first call that fails shows its message; success leaves no error |
| SignupLegacy.LegacySubmit | src/components/SignupPage.tsx:32-66 | the info step checks as the newer page does; the password step moves on exactly when the two passwords match; the last step sends the user to the dashboard exactly when login succeeds and otherwise shows 'Failed to create account' |
| SignupLegacy.LegacyPasswordStepIsLaxer | src/components/SignupPage.tsx:42-47 | every password the newer page accepts is accepted here too, and an empty password typed twice is accepted here only |
| SignupLegacy.LegacyBackUndoesAdvance | src/components/SignupPage.tsx:68-74 | going back after a submission that moved forward returns to the step it came from |
| SignupLegacy.LegacySignupFlow.constructor | src/components/SignupPage.tsx:15-23 | the page starts on the info step with every field empty and no error |
| SignupLegacy.LegacySignupFlow.SetFields | src/components/SignupPage.tsx:15-23 | an input handler changes only the fields |
| SignupLegacy.LegacySignupFlow.HandleSubmit | src/components/SignupPage.tsx:32-66 | the new step, the error and whether the user goes to the dashboard are those of `LegacySubmit`; the fields are kept |
| SignupLegacy.LegacySignupFlow.HandleBack | src/components/SignupPage.tsx:68-74 | the new step is `Back` of the old one; the fields and the error are kept |
| TokenList.ValidateToken | src/test/setup.ts:11-39 | the empty token throws a SyntaxError, a token with white space an InvalidCharacterError; any other token is valid exactly when it does not start with a digit, '--' or '-' and a digit |
| TokenList.Words | src/test/setup.ts:64 | the split of the initial class text: non-empty words without white space |
| TokenList.WordsJoin | src/test/setup.ts:210 | splitting the space-joined list of words gives back the same words |
| TokenList.Insert | src/test/setup.ts:66-85 | a set insertion: a new token goes to the end, a present one stays in place, and no token is repeated |
| TokenList.DeleteDistinct | src/test/setup.ts:99 | a set deletion keeps the tokens free of repeats |
| TokenList.DistinctCount | src/test/setup.ts:211 | for tokens without repeats the set size the source reports equals the list's length |
| TokenList.AddAll | src/test/setup.ts:83-87 | after adding a list of tokens, exactly the old tokens and the valid added ones are present, without repeats |
| TokenList.RemoveAll | src/test/setup.ts:97-101 | after removing a list of tokens, exactly the old tokens other than the valid removed ones are present, without repeats |
| TokenList.FirstThrow | src/test/setup.ts:16-22 | no exception exactly when no argument makes the validation throw; otherwise an exception some argument raises |
| TokenList.Lookup | src/test/setup.ts:106-113 | `contains` throws exactly when the validation throws, and answers true exactly for a valid token that is present |
| TokenList.MockDOMTokenList.Contains | src/test/setup.ts:106-113 | throws exactly when the validation throws; an invalid token is not contained; a valid one is contained exactly when the list holds it |
| TokenList.AddThenContains | src/test/setup.ts:78-113 | a valid token is contained after it is added, and no other token's answer changes |
| TokenList.RemoveThenMissing | src/test/setup.ts:92-113 | a valid token is not contained after it is removed, and no other token's answer changes |
| TokenList.AddAllRebuilds | src/test/setup.ts:60-72 | adding valid tokens without repeats to an empty set rebuilds them in order |
| TokenList.MockDOMTokenList.constructor | src/test/setup.ts:60-72 | the tokens are the valid words of the initial text, each once, and `length` and `value` describe them |
| TokenList.MockDOMTokenList.UpdateState | src/test/setup.ts:209-212 | `length` and `value` are set from the tokens, which are kept |
| TokenList.MockDOMTokenList.Add | src/test/setup.ts:78-90 | an argument that makes the validation throw propagates its exception with no change; otherwise every valid argument is added in order; the list stays consistent |
| TokenList.MockDOMTokenList.Remove | src/test/setup.ts:92-104 | the same for removals |
| TokenList.MockDOMTokenList.Item | src/test/setup.ts:115-121 | the token at an index within range, and nothing outside it |
| TokenList.MockDOMTokenList.Supports | src/test/setup.ts:161-167 | a token is supported exactly when it is non-empty, without white space and not number-like; an exception counts as unsupported |
| TokenList.MockDOMTokenList.ToString | src/test/setup.ts:214-216 | on a consistent list the text is its `value` |
| TokenList.MockDOMTokenList.Toggle | src/test/setup.ts:123-146 | a throwing token propagates the exception and a refused one answers false, both with no change; for a valid token its membership becomes `force` or flips, and the answer is the new membership |
| TokenList.MockDOMTokenList.Replace | src/test/setup.ts:148-159 | the old token is validated before the new one; an exception propagates and a refused token answers false; with both valid, an absent old token answers false with no change, a present one is deleted and the new one added (at the end unless present) |
| TokenList.ReplaceEffect | src/test/setup.ts:155-156 | after a replacement the new token is present, the old one gone unless it is also the new one, every other token as before, and a new token that was absent is last |
| TokenList.ValueRoundTrip | src/test/setup.ts:210-231 | a consistent list rebuilt from its `value` by the `className` setter has the same tokens in the same order |
| TokenList.AddSteps | src/test/setup.ts:83-87 | the `forEach` of `add` as written raises the first exception of the arguments, and without one adds as `AddAll` does |
| TokenList.AddAsWritten | src/test/setup.ts:78-90 | `add` as written: after an exception `length` and `value` keep their old values whatever happened to the tokens |
| TokenList.AddAsWrittenLeavesStaleState | src/test/setup.ts:78-90 | `add('a', '')` on an empty list throws with 'a' added while `length` is 0 and `value` is empty |
| TokenList.RemoveSteps | src/test/setup.ts:97-101 | the `forEach` of `remove` as written raises the first exception of the arguments; without one the tokens are exactly those of RemoveAll |
| TokenList.RemoveAsWritten | src/test/setup.ts:92-104 | `remove` as written: after an exception `length` and `value` keep their old values; without one the tokens are those of RemoveAll and `length` and `value` agree with them |
| TokenList.RemoveAsWrittenLeavesStaleState | src/test/setup.ts:92-104 | `remove('a', '')` on the list "a" throws with 'a' deleted while `length` is 1 and `value` is "a" |
| Strings.EmailDomain | src/context/AuthContext.tsx:195 | an email has a domain exactly when it contains '@' |
| Strings.EmailDomainOf | src/context/AuthContext.tsx:195 | the domain of `local@domain`, followed by nothing or by another '@', is `domain` |
| Strings.Trim | src/components/products/ProductForm.tsx:119 | the trimmed text has no white space at either end |
| Strings.TrimIsSlice | src/components/products/ProductForm.tsx:119 | the trimmed text is a slice of the input, and everything cut away is white space |
| Strings.SplitJoin | src/components/products/ProductForm.tsx:118-119 | splitting a list joined with ',' and a suffix gives the first part and the others each preceded by the suffix, provided no part holds a comma |
| Seqs.SetMembership | src/components/tickets/TicketFormField.tsx:87-88 | ticking appends the value and unticking removes every copy of it; afterwards the value is present exactly when ticked, and every other value keeps its state |
| Seqs.UntickThenTick | src/components/tickets/TicketFormField.tsx:87-88 | unticking and ticking again leaves the value exactly once, at the end |
| Seqs.RemoveAt | src/components/templates/TemplateForm.tsx:47-49 | in range, the element at the index is dropped and the others keep their order; out of range nothing changes |

## Left out

- Browser storage (`localStorage`, `sessionStorage`, the `useLocalStorage` hook) is not modelled as I/O. Each stored key is a class field or a `seq` parameter.
- The Supabase calls, the `onAuthStateChange` listener and the `setInterval` refresh in `src/context/AuthContext.tsx` are asynchronous I/O and timers. The profile lookup (`fetchUserProfile`), the sign-in answer, the product found by slug and the existing access rows are parameters.
- The provider's own `signup` (`src/context/AuthContext.tsx:230-258`) is only a network call. The request the sign-up page passes to it is modelled in `Signup.SignupFlow.CompleteSignup`.
- `Date.now()`, `new Date().toISOString()` and id generation are left out; times and fresh ids are arguments. Ids are not assumed unique except where a lemma states it as a requirement.
- Floating point is not modelled. The means of `src/data/stats.ts` are exact rationals rounded as `Math.round` rounds, halves towards +infinity. The source divides in IEEE-754 doubles, so near a half the rounded value can differ by one: 40 ratings summing to 41 give 102.49999999999999 in doubles and '102%' in the source, while `Stats.SatisfactionPercent` gives 103. The mean response hours can differ in the same way for a mean just at a half hour. The chart geometry of the analytics widgets is not modelled.
- The template seeding from `config.json` (`src/pages/TemplateManagement.tsx:57-70`) is left out because `config.json` is not part of this model. The page starts from the stored templates.
- JSX, CSS and purely presentational components are left out. This covers the marketing and legal pages; the login and sign-up form shells; `UserMenu`, `Navigation` and `ProtectedRoute`; the ticket, dashboard, product and category display components.
- The `slice(0, 5)` trimming in `TicketQueue` and `CustomerDashboard` is presentation and is left out.
- `ProductSwitcher`'s access filter repeats the provider's rule. It is modelled once, as `ProductContext.CanAccess`.
- The customer-name and response-author lookups over the mocked directories (`getCustomerName`, `getResponseUser`) are left out, because they only choose display text.
- The invite link of the product page (`src/pages/ProductManagement.tsx:129-132`) is left out; it is a URL shown in a dialog.
- Console logging (`console.log` and `console.error`, for example in `src/components/layout/Sidebar.tsx`, `src/context/ProductContext.tsx`, `src/pages/SignupPage.tsx` and `src/context/AuthContext.tsx`) is output only and is not modelled.
- Lower-casing is ASCII only. JavaScript's full Unicode case mapping is not modelled.
- ProductForm.SanitizeSlugInput: each character of the Dafny string becomes one slug character. The source's `replace(/[^a-z0-9-]/g, '-')` has no `u` flag and works on UTF-16 code units, so a character outside the Basic Multilingual Plane becomes '--' there and '-' here; the length claim holds in characters, not in UTF-16 units.
- Password length is counted in characters of the Dafny string, not in UTF-16 code units.
- TeamManagement.RoleDisplay: also TeamManagement.StatusDisplay and the other lookup-table functions (`getStatusDisplay` in the ticket list, the ticket controls' status map). Keys inherited from `Object.prototype`, such as 'constructor', are not modelled. In the source they would yield a function instead of the text.
- TicketDetail.TicketDetailState.constructor: `pendingStatus` is an optional status; the source keeps a text in which '' means none.
- TicketDetail.TicketDetailState.constructor: also NewTicketPage.NewTicketState.constructor and CategoryManagement.CategoryManagementPage.constructor. These classes take a signed-in user, because the pages read `user.id` or `user.teamId` without a guard and throw without one.
- NewTicketPage.TextOr: a choice list or file list under 'subject', 'description' or 'category' yields ''. The source would pass the non-text value on.
- TicketFormField.CheckboxTicked: a file value counts as not ticked. The source would throw, as a `FileList` has no `includes`.
- TicketFormField.CurrentChoices: a text or file value counts as no choices. The source would spread the text's characters, or the files, into the new value.
- TicketList.AssignedAgent: for an assigned ticket it returns an error. The source reads an undefined `users` there and throws (`src/pages/TicketList.tsx:65`). The unimported `Tag` icon at line 138 is a rendering error and is not modelled.
- CategoryModals.ToggledProduct: the assign dialog copies the chosen category's `productIds` (`src/pages/CategoryManagement.tsx:204`). A stored category without that list would make `selectedProducts.includes` throw (`src/components/categories/CategoryModals.tsx:187`). Categories here may lack the list, and `StartManageProducts` passes it on as it is, but the dialog's functions take a present list, so that throw is not modelled.
- Auth.AuthSession.Login: without a session user the grant is recorded with no user id. The source's `data.session?.user.id` throws when a session has no user.
- A stamp that `parseInt` cannot read is `NotANumber`. A stamp whose numeric prefix `parseInt` accepts, such as "12abc", is represented by its number.
- In `MockDOMTokenList`, `_initialized` is always true once the constructor has run, so the re-initialising branches are unreachable and left out. `CSS.escape` is the identity in the set-up, so the `catch` of `isValidToken` is unreachable. The `TypeError` for a non-string token cannot arise in a typed model.
- TokenList.MockDOMTokenList.Item: the index is an integer; a fractional index, which reads undefined in the source, is not modelled. On a consistent list no token is empty, so `|| null` never applies to a present token.
- The `entries`, `forEach`, `keys`, `values` and iterator methods of `MockDOMTokenList` only read the tokens in order and are not modelled.
- SignupLegacy.LegacySubmit: the unused `mockUser` record is not modelled.
- SignupLegacy.LegacySignupFlow.HandleSubmit: the legacy page (`src/components/SignupPage.tsx:80-122`) never passes `onCompanySubmit`, so its company step would call an undefined `onSubmit` (`src/components/signup/CompanyStep.tsx:27`), and the page is not routed in `src/App.tsx`. The modelled Company branch therefore cannot be reached from the page as shipped.
- Signup.SignupFlow.SetFields: it stands for each of the page's seven field setters.
- The `StepId` type declares 'product' for the last step, while both pages use 'company' (`src/components/signup/types.ts`). The model follows the pages.
- `ProductForm` declares some props twice (`src/components/products/ProductForm.tsx:11`, 18). This is a typing defect with no runtime effect.
- The team page's invite and edit submissions are unfinished in the source: they only close their dialogs. They are modelled as written.

## Findings

| source | as written | input that shows it | evidently intended | confidence | as-written member | corrected member |
|---|---|---|---|---|---|---|
| src/test/setup.ts:78-90 | `add` validates each token inside its `forEach`. When a later token throws, the earlier ones are already in the set and `updateState` never runs, so `length` and `value` disagree with the tokens. | `add('a', '')` on an empty list: 'a' is contained, `length` is 0, `value` is '' | validate all tokens first and change nothing on an exception, as `add` in section 7.1 of the WHATWG DOM Standard does | medium, not executed | TokenList.AddAsWrittenLeavesStaleState | TokenList.MockDOMTokenList.Add |
| src/test/setup.ts:92-104 | `remove` has the same shape: a throwing token leaves the earlier deletions done and `length` and `value` stale. | `remove('a', '')` on the list "a": no token left, `length` is 1, `value` is "a" | validate all tokens first and change nothing on an exception, as `remove` in section 7.1 of the WHATWG DOM Standard does | medium, not executed | TokenList.RemoveAsWrittenLeavesStaleState | TokenList.MockDOMTokenList.Remove |
