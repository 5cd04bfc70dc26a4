# smart-fault-helper, modelled in Dafny

This project models the logic of smart-fault-helper. The application is a plant-floor fault-reporting tool for SMT production lines. Operators report a fault on a machine by voice, text or photo. Administrators maintain:

- the plant: areas, lines and machines;
- a catalogue of fault types;
- a schema of machine types. Each type owns section templates, and each template owns attribute definitions.

The central piece is the **template-propagation engine** of the machine-types administration page. Whenever the schema changes, every machine of the affected type must be kept in step. A machine holds one section per template and one value row per attribute definition. The engine creates, renames, copies or deletes these rows, in loops over the machines and sections concerned.

## Modules

| Module | What it covers |
|---|---|
| `Common`, `Text`, `Seqs` | Option/Result, and the JavaScript string and array operations the model needs: `trim`, `split`, `join`, `toLowerCase`, `filter`, `find`, `some`, grouping with `reduce`, removing and inserting at a position. |
| `Schema` | The six tables of the engine, id generation, row selections and the next-order rule. |
| `Propagation` | Every engine mutation as a function on a snapshot of the tables. |
| `FanOutFacts`, `CopyFacts`, `TemplateFacts`, `AttributeFacts`, `TypeFacts` | What those functions guarantee. |
| `MachineTypesPage` | Class `Store`: the tables as fields. Its methods are the page's mutations, with the source's loops, each proved to compute its function. |
| `EditSectionAttributes` | Form keys, grouping by section, required-field validation, the save loop that stops at the first error, and the choice of field kind. |
| `LinesPage` | The duplicate-name rule, the create and update guards, line duplication and machine creation. |
| `ReportContext` | The last-used context with its four-hour expiry, the capped history without duplicates, and the "most common" choice. |
| `ClassifyFault` | The edge function: keyword dictionary first, then the AI answer, then the pending fallback, plus error responses. |
| `SmartCapture` | Suggestions, fault-type matching, description rules, and the submitted row and its enabling. |
| `Plant`, `ProductionLine`, `Dashboard` | Line sorting and status, per-area statistics, and the dashboard's view state. |
| `FaultsPage` | Keyword parsing and joining, fault-type mutations, category grouping and keyword badges. |
| `ReportsPage` | Operator scoping, the status filter and the CSV export. |
| `SequenceChips` | The chip editor used for type sequences and select options. |
| `AppLayout`, `AuthContext`, `RegisterPage` | Navigation by role, role flags, and the password checks at registration. |
| `AttributesDialog`, `AttributesManager` | The two stand-alone attribute list editors. |

The engine's tables are sequences of rows, held in a class whose methods change them in place. Ids from the database are modelled by a counter: `FreshId(n)` is longer than every id handed out before, so it is new. Results of storage, network, clock and AI calls are parameters.

Where the written requirements and the code differ, the model follows the code:

- Creating a machine inserts only the machine row. It does not create sections for the type's templates.
- Updating an attribute rewrites the name on its value rows every time, even when the name did not change.
- The check that a select attribute has options runs in the submit handler, before any table is touched. It does not run inside the create mutation.
- Deleting a template deletes its sections and the template row only. The template's attribute definitions stay. Value rows go through the database's foreign-key cascade, which is an explicit assumption here (`Propagation.CascadeValues`).
- Duplicating a line copies its machines but not their sections, and skips the duplicate-name check.
- Updating a template renames its sections in place. It neither creates nor moves sections.

## Model

| member | source | states |
|---|---|---|
| Schema.MachinesOfType | src/pages/admin/MachineTypesPage.tsx:167-172 | The ids selected are exactly those of machines whose `machine_type` is the given string. |
| Schema.HasSection | src/pages/admin/MachineTypesPage.tsx:176-181 | The existence check holds iff some section of that machine refers to that template. |
| Schema.HasSectionIffCount | src/pages/admin/MachineTypesPage.tsx:176-181 | The existence check agrees with a count of matching sections greater than zero. |
| Schema.DefinitionsOf | src/pages/admin/MachineTypesPage.tsx:550-553 | The selection keeps exactly the definitions of the template. |
| Schema.SectionsOf | src/pages/admin/MachineTypesPage.tsx:292-296 | The selection keeps exactly the sections of the template. |
| Schema.TemplatesOfType | src/pages/admin/MachineTypesPage.tsx:480-483 | The selection keeps exactly the templates whose type string is the given name. |
| Schema.MaxOrder | src/pages/admin/MachineTypesPage.tsx:702 | The result is non-negative, at least every order (null as 0), and equal to one of them unless it is 0. |
| Schema.NextOrder | src/pages/admin/MachineTypesPage.tsx:702 | The next order is 1 while nothing is loaded. Otherwise it is greater than every existing order and exactly one more than the largest, counting nulls and negatives as 0. The default order of a new machine on a line (src/pages/admin/LinesPage.tsx:302) follows the same rule. |
| Propagation.AddSectionsFor | src/pages/admin/MachineTypesPage.tsx:165-216 | The fan-out loop changes only sections, value rows and the id counter, and each of them only grows. |
| Propagation.StoredOptions | src/pages/admin/MachineTypesPage.tsx:315 | Options are stored iff the attribute type is `select`, and then unchanged. |
| Propagation.CopyDefinitions | src/pages/admin/MachineTypesPage.tsx:557-567 | The copy loop adds exactly one definition per copied one, consumes one id each, and touches no other table. |
| Propagation.CopyTemplates | src/pages/admin/MachineTypesPage.tsx:486-518 | The template loop adds one template per original and only adds definitions; machines, sections and value rows are untouched. |
| Propagation.ReorderRows | src/pages/admin/MachineTypesPage.tsx:610-619 | Reordering keeps the number of rows. |
| Propagation.SubmitAttribute | src/pages/admin/MachineTypesPage.tsx:759-775 | The submit is refused iff the type is `select` with no options. Otherwise it is the update of the edited attribute, or the creation of a new one. |
| FanOutFacts.AddSectionsCount | src/pages/admin/MachineTypesPage.tsx:165-216 | After the fan-out, a listed machine without a section of the template has exactly one. Every other (machine, template) count is unchanged. |
| FanOutFacts.AddSectionsKeepsOneSection | src/pages/admin/MachineTypesPage.tsx:176-186 | The fan-out preserves "at most one section per machine and template". |
| FanOutFacts.AddSectionsNoOp | src/pages/admin/MachineTypesPage.tsx:183-186 | When every listed machine already has the section, the fan-out changes nothing. |
| FanOutFacts.AddSectionsIdempotent | src/pages/admin/MachineTypesPage.tsx:165-216 | A second fan-out, with any form, changes nothing. |
| FanOutFacts.AddSectionsWf | src/pages/admin/MachineTypesPage.tsx:188-212 | The fan-out keeps every id and reference below the id counter. |
| FanOutFacts.NullValuesAreBlank | src/pages/admin/MachineTypesPage.tsx:205-211 | The rows made for a new section belong to it and are one null row per definition, carrying the definition's name. |
| FanOutFacts.AddSectionForNewValues | src/pages/admin/MachineTypesPage.tsx:188-212 | The section added by one iteration has one empty value row per definition of the template. |
| FanOutFacts.AddSectionForKeepsValues | src/pages/admin/MachineTypesPage.tsx:188-212 | One iteration leaves the value rows of existing sections unchanged. |
| FanOutFacts.AddSectionsContent | src/pages/admin/MachineTypesPage.tsx:188-212 | Every section the loop adds belongs to a listed machine and the template, and copies the template's name, description and order. |
| FanOutFacts.AddSectionsFollows | src/pages/admin/MachineTypesPage.tsx:188-199 | After the fan-out, every section of the template carries its name, description and order. |
| CopyFacts.CopyDefinitionsClosedForm | src/pages/admin/MachineTypesPage.tsx:557-567 | The copy loop appends one copy per definition, in order, with consecutive fresh ids. |
| CopyFacts.CopiedDefinitionsShape | src/pages/admin/MachineTypesPage.tsx:558-565 | Every copy belongs to the new template and keeps the original's name, type, required flag, order and options. |
| CopyFacts.WithCopiedTemplateShapes | src/pages/admin/MachineTypesPage.tsx:537-567 | The new template's definitions reproduce those of the source template. |
| CopyFacts.WithCopiedTemplateKeepsDefinitions | src/pages/admin/MachineTypesPage.tsx:557-567 | The definitions of every existing template are unchanged. |
| CopyFacts.CopyTemplatesCopies | src/pages/admin/MachineTypesPage.tsx:486-518 | The i-th template of the original type is copied under the new name with its name, description and order, and the copy's definitions reproduce the original's. |
| CopyFacts.CopyTemplatesFrame | src/pages/admin/MachineTypesPage.tsx:486-518 | The template loop keeps the tables well formed. Every row it adds uses an id handed out after the loop started. |
| TemplateFacts.CreateTemplateFanOut | src/pages/admin/MachineTypesPage.tsx:219-225 | Creating a template gives each machine of its type exactly one section of it, and other machines none. Sections of other templates are unchanged. |
| TemplateFacts.CreateTemplateKeepsInvariants | src/pages/admin/MachineTypesPage.tsx:219-225 | Creating a template keeps the tables well formed, with at most one section per machine and template. |
| TemplateFacts.CreateTemplateSections | src/pages/admin/MachineTypesPage.tsx:165-225 | The new sections carry the template's name, description and order, and have no value rows yet. |
| TemplateFacts.UpdateTemplateSyncs | src/pages/admin/MachineTypesPage.tsx:142-162 | After an update, the template's sections have the new name, description and order. No section changes machine, template or id. Other templates' sections, value rows, machines and definitions are unchanged. |
| TemplateFacts.DeleteTemplateRemoves | src/pages/admin/MachineTypesPage.tsx:256-267 | After a delete, no section or row of the template remains and every other section and template is kept. The value rows kept are exactly those not in a deleted section. The template's definitions stay. |
| TemplateFacts.DuplicateSectionEffect | src/pages/admin/MachineTypesPage.tsx:534-576 | Duplicating a section adds `"<name> (Copia)"` with order `(order or 0) + 1` under the same type. Every definition is copied, and every machine of the type gets exactly one section of the copy. |
| TemplateFacts.DuplicateSectionValues | src/pages/admin/MachineTypesPage.tsx:569-573 | The copy's sections get one empty value row per copied definition. |
| TemplateFacts.DuplicateMachineTypeEffect | src/pages/admin/MachineTypesPage.tsx:461-520 | Duplicating a type is refused exactly when the name exists. Otherwise it adds the type and copies every template of the original with its definitions, and it creates or changes no machine, section or value row. |
| TemplateFacts.CopyTypeTemplates | src/pages/admin/MachineTypesPage.tsx:486-518 | The template loop keeps the tables well formed. The i-th copy is the i-th original under the new type name, with definitions of the same shape. |
| AttributeFacts.AddAttributeValues | src/pages/admin/MachineTypesPage.tsx:289-307 | The bulk insert gives every section of the template one empty row for the new definition, carrying its name. |
| AttributeFacts.CreateAttributeFanOut | src/pages/admin/MachineTypesPage.tsx:310-321 | Creating an attribute adds the definition, with options only for `select`, and one empty value row per existing section of the template. |
| AttributeFacts.DuplicateAttributeFanOut | src/pages/admin/MachineTypesPage.tsx:586-601 | The duplicate is `"<name> (Copia)"` with order `(order or 0) + 1` and the same type, required flag and options, with one empty value row per section. |
| AttributeFacts.UpdateAttributeRenames | src/pages/admin/MachineTypesPage.tsx:279-286 | Every value row of the definition carries the new name, whether or not it changed. Nothing else on any value row changes. Options are kept only for `select`. |
| AttributeFacts.DeleteAttributeRemoves | src/pages/admin/MachineTypesPage.tsx:353-364 | Deleting an attribute removes exactly its value rows and its definition. |
| TypeFacts.CreateMachineTypeEffect | src/pages/admin/MachineTypesPage.tsx:373-391 | Creating a type is refused exactly when the name is taken. Otherwise it appends the type with its sequences and keeps type names unique. |
| TypeFacts.RenameMachineTypeEffect | src/pages/admin/MachineTypesPage.tsx:404-443 | A rename is refused exactly when the name changes and another type has it. Otherwise the type gets the new name and sequences, and no template or machine keeps the old type name. |
| TypeFacts.RenameKeepsNamesUnique | src/pages/admin/MachineTypesPage.tsx:404-443 | A successful rename keeps type names unique. |
| TypeFacts.ReorderRowsEffect | src/pages/admin/MachineTypesPage.tsx:610-619 | A listed row gets the order of its id's last position. Every other row is unchanged. |
| TypeFacts.ReorderAssigns | src/pages/admin/MachineTypesPage.tsx:610-653 | With distinct ids, the row of the i-th id gets order i. |
| MachineTypesPage.Store.constructor | src/pages/admin/MachineTypesPage.tsx:142-162 | The store starts from the given tables. |
| MachineTypesPage.Store.SyncTemplateToMachines | src/pages/admin/MachineTypesPage.tsx:142-162 | Only sections change, to the synced sections of the template. |
| MachineTypesPage.Store.AddSectionForMachine | src/pages/admin/MachineTypesPage.tsx:175-213 | One loop iteration skips a machine that already has the section. Otherwise it adds the section and one empty value row per definition. |
| MachineTypesPage.Store.AddTemplateSectionToExistingMachines | src/pages/admin/MachineTypesPage.tsx:165-216 | The loop over the type's machines computes the fan-out and keeps at most one section per machine and template. |
| MachineTypesPage.Store.CreateTemplate | src/pages/admin/MachineTypesPage.tsx:219-225 | Returns the fresh id. The new tables are `Propagation.CreateTemplate` of the old ones: the template row plus the fan-out to every machine of its type. |
| MachineTypesPage.Store.UpdateTemplate | src/pages/admin/MachineTypesPage.tsx:237-243 | The new tables are `Propagation.UpdateTemplate` of the old ones: the template row is replaced and its sections are synced. |
| MachineTypesPage.Store.DeleteTemplate | src/pages/admin/MachineTypesPage.tsx:256-267 | The new tables are `Propagation.DeleteTemplate` of the old ones: the template's sections, then the template row, are deleted. |
| MachineTypesPage.Store.SyncAttributeToSections | src/pages/admin/MachineTypesPage.tsx:279-286 | Only value rows change, renamed for the definition. |
| MachineTypesPage.Store.AddAttributeToExistingSections | src/pages/admin/MachineTypesPage.tsx:289-307 | Computes the bulk insert of one empty row per section. |
| MachineTypesPage.Store.CreateAttribute | src/pages/admin/MachineTypesPage.tsx:310-321 | Returns the fresh id. The new tables are `Propagation.CreateAttribute` of the old ones: the definition plus one empty value row per section. |
| MachineTypesPage.Store.UpdateAttribute | src/pages/admin/MachineTypesPage.tsx:332-341 | The new tables are `Propagation.UpdateAttribute` of the old ones: the definition is replaced and its value rows are renamed. |
| MachineTypesPage.Store.DeleteAttribute | src/pages/admin/MachineTypesPage.tsx:353-364 | The new tables are `Propagation.DeleteAttribute` of the old ones: the value rows, then the definition, are deleted. |
| MachineTypesPage.Store.DuplicateAttribute | src/pages/admin/MachineTypesPage.tsx:586-601 | Returns the fresh id. The new tables are `Propagation.DuplicateAttribute` of the old ones: the copied definition plus one empty value row per section. |
| MachineTypesPage.Store.CopyAttributes | src/pages/admin/MachineTypesPage.tsx:557-567 | The loop computes `CopyDefinitions` of the source template's definitions. |
| MachineTypesPage.Store.DuplicateSection | src/pages/admin/MachineTypesPage.tsx:534-576 | Returns the copy's fresh id. The new tables are `Propagation.DuplicateSection` of the old ones: the template copy, its copied definitions, and the fan-out to the type's machines. |
| MachineTypesPage.Store.CreateMachineType | src/pages/admin/MachineTypesPage.tsx:373-391 | A taken name is refused with its message and no change. Otherwise the tables become those of `Propagation.CreateMachineType`. Unique type names stay unique. |
| MachineTypesPage.Store.RenameMachineType | src/pages/admin/MachineTypesPage.tsx:404-443 | A conflicting name is refused with its message and no change. Otherwise the tables become those of `Propagation.RenameMachineType`. |
| MachineTypesPage.Store.CopyTemplateUnder | src/pages/admin/MachineTypesPage.tsx:488-517 | One outer iteration adds the template copy under the new type name and copies its definitions. |
| MachineTypesPage.Store.CopyTemplatesUnder | src/pages/admin/MachineTypesPage.tsx:486-518 | The outer loop copies every given template, in order, each with its definitions. |
| MachineTypesPage.Store.DuplicateMachineType | src/pages/admin/MachineTypesPage.tsx:461-520 | A taken name is refused with its message and no change. Otherwise the tables become those of `Propagation.DuplicateMachineType`. Machines, sections and value rows never change. |
| MachineTypesPage.Store.ReorderMachineTypes | src/pages/admin/MachineTypesPage.tsx:610-619 | Only the types' orders change. With distinct ids, the i-th id's type gets order i. |
| MachineTypesPage.Store.ReorderTemplates | src/pages/admin/MachineTypesPage.tsx:627-636 | Only the templates' orders change. With distinct ids, the i-th id's template gets order i. |
| MachineTypesPage.Store.ReorderAttributes | src/pages/admin/MachineTypesPage.tsx:644-653 | Only the definitions' orders change. With distinct ids, the i-th id's definition gets order i. |
| MachineTypesPage.Store.OnTemplateSubmit | src/pages/admin/MachineTypesPage.tsx:751-757 | Updates the edited template or creates one. |
| MachineTypesPage.Store.OnAttributeSubmit | src/pages/admin/MachineTypesPage.tsx:759-775 | A `select` attribute without options is refused with the message and no table changes. Otherwise it updates or creates. |
| EditSectionAttributes.Lookup | src/components/plant/EditSectionAttributesDialog.tsx:70-77 | A form value is found iff some entry has that key. |
| EditSectionAttributes.Assign | src/components/plant/EditSectionAttributesDialog.tsx:70-77 | Setting a key makes it read the new value and leaves every other key as it was. |
| EditSectionAttributes.StoredValue | src/components/plant/EditSectionAttributesDialog.tsx:95 | An empty field is stored as null; anything else is stored as typed. |
| EditSectionAttributes.Updates | src/components/plant/EditSectionAttributesDialog.tsx:93-96 | There is one update per form entry, carrying the stored value of that entry. |
| EditSectionAttributes.KeyRoundTrip | src/components/plant/EditSectionAttributesDialog.tsx:74-95 | Stripping `attr_` from a row's key gives its id back, and distinct rows get distinct keys. |
| EditSectionAttributes.InitialValuesLookup | src/components/plant/EditSectionAttributesDialog.tsx:70-77 | With distinct ids, each row's key holds its stored value (or `''`), and no other key is present. |
| EditSectionAttributes.StoredValueRoundTrip | src/components/plant/EditSectionAttributesDialog.tsx:74-95 | A loaded value saved back is what was stored, except that `''` becomes null. A saved value loaded back is what was typed. |
| EditSectionAttributes.InitialUpdatesTargetRows | src/components/plant/EditSectionAttributesDialog.tsx:93-96 | Submitting the unchanged initial form writes to exactly the loaded rows, in order. |
| Seqs.GroupByKeys | src/components/plant/EditSectionAttributesDialog.tsx:81-88 | A bucket exists exactly for the section ids that occur. |
| Seqs.GroupByBuckets | src/components/plant/EditSectionAttributesDialog.tsx:81-88 | Each bucket holds exactly the rows of its section, in their original order. |
| EditSectionAttributes.ValueTable.Save | src/components/plant/EditSectionAttributesDialog.tsx:98-104 | The loop writes only `attribute_value`, in order, and stops at the first rejected write. Earlier writes remain, and the failing row is reported. |
| EditSectionAttributes.ValueTable.constructor | src/components/plant/EditSectionAttributesDialog.tsx:98-104 | The table starts with the given value rows. |
| EditSectionAttributes.FirstRejected | src/components/plant/EditSectionAttributesDialog.tsx:98-104 | The stopping point is the position of the first rejected write, or the end when no write is rejected. |
| EditSectionAttributes.WriteAllEffect | src/components/plant/EditSectionAttributesDialog.tsx:98-104 | A named row holds the value of the last write to it. Every other row is unchanged. |
| EditSectionAttributes.SectionLabel | src/components/plant/EditSectionAttributesDialog.tsx:124-125 | The label is the name of the first section with that id, or `Sección` when that name is empty or no section has the id. It is never empty. |
| EditSectionAttributes.MissingRequiredLabels | src/components/plant/EditSectionAttributesDialog.tsx:119-128 | There is one `"<section> → <attribute>"` label per unfilled required row, in row order. Nothing is missing exactly when every required row has a non-blank value. |
| EditSectionAttributes.MissingRequired | src/components/plant/EditSectionAttributesDialog.tsx:119-128 | There is at most one missing label per row. |
| EditSectionAttributes.OnSubmit | src/components/plant/EditSectionAttributesDialog.tsx:117-140 | Any missing required field rejects the form with no write. Otherwise every field is written. |
| EditSectionAttributes.FieldFor | src/components/plant/EditSectionAttributesDialog.tsx:145-194 | A select exactly for a `select` type with stored options; otherwise number, textarea or text. A missing definition gives text. |
| EditSectionAttributes.ShowsRequired | src/components/plant/EditSectionAttributesDialog.tsx:121 | A row without a definition is optional. |
| LinesPage.SameNameIgnoringCaseFacts | src/pages/admin/LinesPage.tsx:46-59 | Case-insensitive equality is reflexive, symmetric and transitive. |
| LinesPage.MachinesOfLine | src/pages/admin/LinesPage.tsx:164-169 | The selection holds exactly the machines of the line. |
| LinesPage.LinesStore.constructor | src/pages/admin/LinesPage.tsx:70-93 | The store starts from the loaded lines and machines tables. |
| LinesPage.UpdateLineRows | src/pages/admin/LinesPage.tsx:115-124 | Only the named line's name, description and area change. |
| LinesPage.LinesStore.CreateLine | src/pages/admin/LinesPage.tsx:96-105 | A duplicate name in the area is refused before any write. Otherwise the line is appended. |
| LinesPage.LinesStore.UpdateLine | src/pages/admin/LinesPage.tsx:115-124 | The same check, excluding the line itself, then the update. |
| LinesPage.LinesStore.DuplicateLine | src/pages/admin/LinesPage.tsx:148-183 | Adds `"<name> (copia)"` in the same area with order `(order or 0) + 1`, without the name check, then copies of its machines; one fresh id is used per new row. |
| LinesPage.LinesStore.CreateMachine | src/pages/admin/LinesPage.tsx:192-199 | Only one machine row is added, in the selected line. |
| LinesPage.DuplicateLineCopies | src/pages/admin/LinesPage.tsx:164-181 | The new line gets exactly one copy of each source machine, in order, keeping name, type, order, image, serial and nameplate. The source machines are unchanged. |
| ReportContext.ReportContextHook.constructor | src/hooks/useReportContext.ts:26-27 | The hook starts with no context and an empty history. |
| ReportContext.ReportContextHook.Load | src/hooks/useReportContext.ts:30-57 | A stored context is restored only when younger than 4 h (14,400,000 ms), and removed otherwise. An unreadable history is removed. |
| ReportContext.ReportContextHook.SaveContext | src/hooks/useReportContext.ts:60-69 | The saved context is the given one, stamped with the current time. |
| ReportContext.PushHistoryFacts | src/hooks/useReportContext.ts:72-85 | After saving, the new item is first and no other entry has its machine. The list holds at most 10 entries, and the kept entries are the first of the old list without that machine, in order. |
| ReportContext.ReportContextHook.SaveToHistory | src/hooks/useReportContext.ts:72-85 | The history becomes the pushed history. |
| ReportContext.ReportContextHook.MostCommonContext | src/hooks/useReportContext.ts:88-111 | Returns null on an empty history. Otherwise it returns the earliest of the first three entries whose machine count is maximal. |
| ReportContext.MachineCounts | src/hooks/useReportContext.ts:94-97 | Each entry's count is the number of recent entries with its machine. |
| ReportContext.FirstOfMost | src/hooks/useReportContext.ts:100-108 | Nothing is found exactly when there are no entries. Otherwise the result is an entry whose count is the largest, and no earlier entry reaches that count. |
| ReportContext.MostCommonIsLatest | src/hooks/useReportContext.ts:88-111 | With distinct machines, the most common context is the first entry. |
| ReportContext.Recent | src/hooks/useReportContext.ts:91 | The recent entries are the first three of the history, or all of it when shorter. |
| ReportContext.ReportContextHook.ClearContext | src/hooks/useReportContext.ts:114-117 | No context remains saved. |
| ClassifyFault.KeywordClassification | supabase/functions/classify-fault/index.ts:9-52 | A dictionary classification exists iff some keyword occurs in the lower-cased text. |
| ClassifyFault.NormalizeAnswer | supabase/functions/classify-fault/index.ts:78 | The label is never empty. A missing or blank answer becomes the pending label; anything else is trimmed. |
| ClassifyFault.Handle | supabase/functions/classify-fault/index.ts:35-100 | Every response has status 200 or 500, and it is 500 exactly when it carries an error. |
| ClassifyFault.FirstMatch | supabase/functions/classify-fault/index.ts:44-52 | Returns the first entry whose keyword occurs in the text, and none iff no keyword occurs. |
| ClassifyFault.KeywordHitWins | supabase/functions/classify-fault/index.ts:44-52 | A keyword hit answers the first matching entry's classification as known, whatever the AI would say. |
| ClassifyFault.FallbackIsPending | supabase/functions/classify-fault/index.ts:55-92 | With no keyword hit, a missing key or a non-OK answer gives the pending label, marked unknown. |
| ClassifyFault.AiAnswerClassification | supabase/functions/classify-fault/index.ts:78-79 | An AI answer is trimmed, and an empty one becomes the pending label. It is unknown iff it contains `Pendiente`. |
| ClassifyFault.ErrorsAndPreflight | supabase/functions/classify-fault/index.ts:93-99 | A preflight gets an empty body. A thrown error gives status 500 with its message. |
| ClassifyFault.PendingIsUnknown | supabase/functions/classify-fault/index.ts:79-91 | The fallback label contains `Pendiente`, so an AI answer equal to it is marked unknown. |
| SmartCapture.BuildSuggestions | src/components/capture/SmartCaptureForm.tsx:112-126 | The list pushed is the hour's suggestions followed by the type's. |
| SmartCapture.SuggestedFacts | src/components/capture/SmartCaptureForm.tsx:112-126 | Hours 6–8 and 12–14 give their suggestions, other hours none. Pick wins over SPI, and the type's suggestions come last. |
| SmartCapture.FindFaultType | src/components/capture/SmartCaptureForm.tsx:156-163 | Returns the first fault type whose lower-cased name contains the classification or is contained in it, and none iff none matches. |
| SmartCapture.AppendWith | src/components/capture/SmartCaptureForm.tsx:173-176 | Appending to an empty text gives the new text. Otherwise the result is the old text, the separator, then the new text. |
| SmartCapture.ReportDescription | src/components/capture/SmartCaptureForm.tsx:247-258 | The description is the first non-empty of description, voice text and classification. It is non-empty iff one of them is. |
| SmartCapture.RecentSuggestion | src/components/capture/SmartCaptureForm.tsx:396 | A recent report contributes its classification, else its description, else `''`. |
| SmartCapture.CaptureForm.constructor | src/components/capture/SmartCaptureForm.tsx:64-74 | The form starts empty, with nothing classified, selected or loaded. |
| SmartCapture.CaptureForm.Load | src/components/capture/SmartCaptureForm.tsx:90-132 | Loaded fault types replace the list, a failed load keeps it, and the suggestions become those of the hour and machine type. |
| SmartCapture.CaptureForm.OnVoiceResult | src/components/capture/SmartCaptureForm.tsx:77-79 | Recognised text is appended to the voice text after a space. Nothing else changes. |
| SmartCapture.CaptureForm.ProcessWithAi | src/components/capture/SmartCaptureForm.tsx:141-180 | A classification is stored and preselects the first matching type. An unknown one is returned for the glossary. A failed call appends the text after a newline. |
| SmartCapture.CaptureForm.OnListeningStopped | src/components/capture/SmartCaptureForm.tsx:135-139 | Only non-blank voice text is classified, trimmed. |
| SmartCapture.CaptureForm.OnSuggestionClick | src/components/capture/SmartCaptureForm.tsx:291-294 | The suggestion is appended after `". "` and becomes the classification. |
| SmartCapture.CaptureForm.Payload | src/components/capture/SmartCaptureForm.tsx:247-258 | The row has status open, the chosen description, and a null raw voice text when the voice text is empty. |
| SmartCapture.CaptureForm.Submit | src/components/capture/SmartCaptureForm.tsx:222-289 | Nothing happens without a user, and a failed upload stops before the insert. Otherwise the payload is sent, with the photo's URL when one was uploaded. Only a successful insert remembers the context and a history entry; both name the area, line and machine of the inserted row and carry the current time. |
| SmartCapture.SentMachineHeadsHistory | src/components/capture/SmartCaptureForm.tsx:263-271 | After a successful submission, saving its history entry puts the reported machine first and nowhere else in the history. |
| SmartCapture.EnabledSubmitHasDescription | src/components/capture/SmartCaptureForm.tsx:481 | Whenever the button is enabled, the submitted description is non-empty. |
| ProductionLine.Insert | src/components/plant/ProductionLine.tsx:33 | Insertion adds exactly the one machine. |
| ProductionLine.InsertSorted | src/components/plant/ProductionLine.tsx:33 | Inserting into a sorted list keeps it sorted. |
| ProductionLine.SortedMachines | src/components/plant/ProductionLine.tsx:33 | The result is a sorted permutation of the machines. |
| ProductionLine.SortedMachinesKeepsSorted | src/components/plant/ProductionLine.tsx:33 | Sorting machines already in order changes nothing. |
| ProductionLine.LineStatus | src/components/plant/ProductionLine.tsx:34-37 | Fault iff some machine is at fault. Warning iff none is at fault and some warns. Running otherwise. |
| ProductionLine.LineStatusOfSorted | src/components/plant/ProductionLine.tsx:33-37 | The status does not depend on the machines' order. |
| ProductionLine.FlowAlternates | src/components/plant/ProductionLine.tsx:81 | Cards and arrows alternate, with n-1 arrows between consecutive machines. |
| ProductionLine.Flow | src/components/plant/ProductionLine.tsx:71-84 | n machines give 2n-1 items, and an empty line gives none. |
| Dashboard.StatsFor | src/pages/DashboardPage.tsx:97-107 | The fault count is at most the machine count. |
| Dashboard.StatsCount | src/pages/DashboardPage.tsx:97-107 | The counts are the area's lines, the machines on them, and those at fault. |
| Dashboard.ComputeStats | src/pages/DashboardPage.tsx:94-109 | Every loaded area, and only those, gets its statistics. |
| Dashboard.InAreaLines | src/pages/DashboardPage.tsx:97-107 | A machine is on one of the area's lines iff it belongs to the area. |
| Dashboard.DashboardPage.constructor | src/pages/DashboardPage.tsx:51-62 | The page starts on the areas view with nothing loaded or selected. |
| Dashboard.DashboardPage.Load | src/pages/DashboardPage.tsx:68-120 | A failed area load changes nothing. Otherwise the data replace the old, with missing lines or machines as empty, and each area, and only those, gets its statistics. |
| Dashboard.DashboardPage.OnAreaClick | src/pages/DashboardPage.tsx:128-131 | The area is selected and the lines view shown. |
| Dashboard.DashboardPage.OnMachineClick | src/pages/DashboardPage.tsx:133-137 | The machine's detail sheet opens, and the view is unchanged. |
| Dashboard.DashboardPage.OnCaptureSuccess | src/pages/DashboardPage.tsx:157-161 | The machine is dropped and the lines view shown, keeping the area. |
| Dashboard.DashboardPage.SelectedAreaLines | src/pages/DashboardPage.tsx:198-200 | No area gives no lines; otherwise they are that area's lines. |
| Dashboard.DashboardPage.SelectedLine | src/pages/DashboardPage.tsx:203-205 | The line found is the selected machine's line, and none is found only when no loaded line has that id. |
| Dashboard.DashboardPage.OnBack | src/pages/DashboardPage.tsx:147-155 | Capture goes to lines and drops the machine. Lines go to areas and drop the area. Areas stay. |
| Dashboard.DashboardPage.OnStartCapture | src/pages/DashboardPage.tsx:181-195 | An unknown id changes nothing. A known one selects the machine, closes the sheet and opens capture; the area changes only when its line and area are found. |
| Dashboard.DashboardPage.OnQuickReport | src/pages/DashboardPage.tsx:163-179 | The most common context opens capture only when its area and machine are loaded. |
| Dashboard.DashboardPage.OnMachineCaptureClick | src/pages/DashboardPage.tsx:139-145 | A known machine opens capture. An unknown id changes nothing. |
| Dashboard.StartCaptureShowsForm | src/pages/DashboardPage.tsx:181-195 | Starting capture for a machine whose line and area are loaded always shows the form for that machine, line and area. |
| FaultsPage.ParseKeywords | src/pages/admin/FaultsPage.tsx:50 | Every parsed keyword is trimmed, non-empty and comma-free, and blank input gives none. |
| FaultsPage.KeywordsRoundTrip | src/pages/admin/FaultsPage.tsx:121 | Parsing the joined edit field gives the stored keywords back. |
| FaultsPage.ParseKeywordsIdempotent | src/pages/admin/FaultsPage.tsx:50 | Saving an untouched keyword field stores the same keywords again. |
| FaultsPage.EditForm | src/pages/admin/FaultsPage.tsx:115-125 | The form shows the row's fields, with missing ones as `''` and the keywords joined. |
| FaultsPage.UpdateFaultType | src/pages/admin/FaultsPage.tsx:63-82 | Only the named row changes, to the form's values. |
| FaultsPage.RowFor | src/pages/admin/FaultsPage.tsx:46-69 | The row stores the form's fields and its parsed keywords under the given id. |
| FaultsPage.DeleteFaultType | src/pages/admin/FaultsPage.tsx:84-94 | Exactly the named row goes. |
| FaultsPage.SetActive | src/pages/admin/FaultsPage.tsx:96-105 | Only `is_active` of the named row changes. |
| FaultsPage.Submit | src/pages/admin/FaultsPage.tsx:107-113 | A new fault type is appended as the form's row. An edit replaces exactly the rows with the edited id by the form's row. |
| FaultsPage.EditUnchangedKeepsRow | src/pages/admin/FaultsPage.tsx:107-125 | Editing and saving unchanged keeps the name, the state and well-formed keywords. |
| FaultsPage.Category | src/pages/admin/FaultsPage.tsx:135 | A null or empty category reads `Sin categoría`. |
| FaultsPage.GroupByCategoryPlaces | src/pages/admin/FaultsPage.tsx:134-139 | Each fault is listed under its own category and no other, and each category lists exactly its faults in catalogue order. |
| FaultsPage.Badges | src/pages/admin/FaultsPage.tsx:277-287 | At most three keywords are shown, the first ones, with a `+(n-3)` badge iff there are more than three. |
| ReportsPage.StatusLabelInjective | src/pages/ReportsPage.tsx:39-44 | Different statuses have different labels. |
| ReportsPage.StatusLabel | src/pages/ReportsPage.tsx:39-44 | Every label is non-empty and has no comma or line break. |
| ReportsPage.VisibleReports | src/pages/ReportsPage.tsx:78-80 | Administrators and supervisors see every report. Anyone else sees exactly their own. |
| ReportsPage.FilteredReports | src/pages/ReportsPage.tsx:93-95 | `all` keeps every report. A status keeps exactly the reports with it. |
| ReportsPage.FilteredReportsAppend | src/pages/ReportsPage.tsx:93-95 | Filtering keeps the reports' order. |
| ReportsPage.HeaderColumns | src/pages/ReportsPage.tsx:99 | The header has the seven column names and no line break. |
| ReportsPage.DescriptionHasNoComma | src/pages/ReportsPage.tsx:106 | The description column never holds a comma. |
| ReportsPage.CsvAsWrittenFirstLine | src/pages/ReportsPage.tsx:98-109 | The first line of the page's file is always the header. |
| ReportsPage.RowAsWrittenShiftsColumns | src/pages/ReportsPage.tsx:100-108 | A comma in the date, a name or the classification splits the row into more than seven columns. |
| ReportsPage.CsvAsWrittenSplitsLines | src/pages/ReportsPage.tsx:100-109 | A line break in a field gives the file more lines than the header plus one per report. |
| ReportsPage.RowColumns | src/pages/ReportsPage.tsx:100-108 | With escaping, every row splits back into exactly its seven fields. |
| ReportsPage.Escape | src/pages/ReportsPage.tsx:106 | Escaping keeps the length, removes every comma and line break, and leaves plain text alone. |
| ReportsPage.CsvLines | src/pages/ReportsPage.tsx:98-109 | With escaping, the file is the header line then one line per filtered report, in order. |
| ReportsPage.CsvAgreesOnPlainFields | src/pages/ReportsPage.tsx:98-109 | Where no field has a comma or line break, the escaped export equals the page's own. |
| SequenceChips.AddChip | src/components/ui/SequenceChips.tsx:25-31 | Blank or listed input leaves both list and input unchanged. Otherwise the trimmed input is appended and the input cleared. A list without duplicates stays without duplicates. The page's `addOption` (src/pages/admin/MachineTypesPage.tsx:739-745) adds a select option by the same rule. |
| SequenceChips.RemoveChip | src/components/ui/SequenceChips.tsx:33-35 | Every copy of the chip goes, every other entry is kept exactly as often as it occurred, and a list without duplicates stays without duplicates. The page's `removeOption` (src/pages/admin/MachineTypesPage.tsx:747-749) removes a select option by the same rule. |
| SequenceChips.RemoveChipAppend | src/components/ui/SequenceChips.tsx:33-35 | Removing from a concatenation removes from each part and concatenates the results, so the kept entries keep their relative order. |
| SequenceChips.RemoveChipSingle | src/components/ui/SequenceChips.tsx:33-35 | A one-entry list becomes empty when its entry is the chip and stays as it is otherwise. |
| SequenceChips.AddThenRemove | src/components/ui/SequenceChips.tsx:25-35 | Removing a just-added chip restores the list. |
| SequenceChips.OnKeyDown | src/components/ui/SequenceChips.tsx:37-42 | Enter adds; any other key changes nothing. |
| SequenceChips.AddTwice | src/components/ui/SequenceChips.tsx:25-31 | Adding the same input twice is the same as adding it once. |
| AuthContext.FlagsOf | src/contexts/AuthContext.tsx:124-126 | Admin iff some admin row, supervisor iff some supervisor row, operator iff some operator row or no rows at all. |
| AuthContext.FlagsIgnoreOrder | src/contexts/AuthContext.tsx:124-126 | The flags depend only on which rows are held. |
| AuthContext.AdminsAreNotOperators | src/contexts/AuthContext.tsx:126 | Only administrator rows give admin, and neither supervisor nor operator. |
| AuthContext.RolesFromQuery | src/contexts/AuthContext.tsx:34-46 | A failed role query yields an empty list; otherwise the rows returned. |
| AuthContext.FailedQueryIsOperatorOnly | src/contexts/AuthContext.tsx:40-43 | After a failed role query the user is an operator only. |
| AuthContext.AuthProvider.constructor | src/contexts/AuthContext.tsx:29-32 | The provider starts loading, with no user and no roles. |
| AuthContext.AuthProvider.CurrentFlags | src/contexts/AuthContext.tsx:124-126 | The flags are those of the roles held. |
| AuthContext.AuthProvider.OnInitialSession | src/contexts/AuthContext.tsx:70-79 | The session's user is recorded, the roles are kept, and loading ends. |
| AuthContext.AuthProvider.OnAuthStateChange | src/contexts/AuthContext.tsx:50-66 | A session without a user clears the roles. The user is recorded and loading ends. |
| AuthContext.AuthProvider.OnRolesFetched | src/contexts/AuthContext.tsx:57-60 | The role list becomes the query's result. |
| AuthContext.AuthProvider.SignOut | src/contexts/AuthContext.tsx:112-115 | The roles are cleared, leaving operator-only flags. |
| AppLayout.FilteredNavItemsExactly | src/components/layout/AppLayout.tsx:25-48 | Plant and reports are always shown. Statistics iff supervisor or admin, administration iff admin, in declared order. |
| AppLayout.BottomNavItems | src/components/layout/AppLayout.tsx:187 | At most four items, a prefix of the shown ones. |
| AppLayout.BottomNavShowsEverything | src/components/layout/AppLayout.tsx:187 | With four declared entries the bottom bar drops none. |
| AppLayout.IsActiveIffSegmentPrefix | src/components/layout/AppLayout.tsx:106 | Active iff the path is a prefix that ends the current path or is followed by `/`. |
| AppLayout.AtMostOneActive | src/components/layout/AppLayout.tsx:106 | No two declared entries are active at once. |
| AppLayout.RoleLabelOfRoles | src/components/layout/AppLayout.tsx:50-54 | The badge reads Administrador iff an admin row, Supervisor iff a supervisor and no admin row, and Operador iff every row is an operator row. |
| AppLayout.UserName | src/components/layout/AppLayout.tsx:82 | The name is the part of the address before the first `@`: a prefix without `@`. |
| RegisterPage.PasswordProblem | src/pages/RegisterPage.tsx:27-43 | The mismatch message is given whenever the passwords differ; otherwise the length message when shorter than 6. There is no problem iff both checks pass. |
| RegisterPage.HandleSubmit | src/pages/RegisterPage.tsx:24-66 | Rejected iff a check fails, without calling sign-up. Registered iff the call succeeds, redirecting to `/dashboard` after 2000 ms. A failed sign-up always has a message. |
| RegisterPage.RejectionIgnoresService | src/pages/RegisterPage.tsx:27-43 | A rejected form does not depend on the sign-up service. |
| RegisterPage.MismatchReportedFirst | src/pages/RegisterPage.tsx:27-36 | A mismatch is reported even when the password is also too short. |
| AttributesDialog.StaleEditingIndex | src/components/admin/MachineTypeAttributesDialog.tsx:28-31 | As written, deleting at or before the edited item leaves the index naming the next item, or past the end. |
| AttributesDialog.UpdateAfterDeleteOverwritesNeighbour | src/components/admin/MachineTypeAttributesDialog.tsx:20-31 | As written, editing "b" in [a, b, c], deleting "a", then updating overwrites "c". |
| AttributesDialog.UpdateAfterDeleteRevivesItem | src/components/admin/MachineTypeAttributesDialog.tsx:20-31 | As written, editing and deleting "b" in [a, b], then updating, brings back a second item. |
| AttributesDialog.EditingAfterDeleteTracksItem | src/components/admin/MachineTypeAttributesDialog.tsx:28-31 | With the corrected index, an edit in progress still names its item, inside the list, or ends when its item goes. |
| AttributesDialog.Dialog.constructor | src/components/admin/MachineTypeAttributesDialog.tsx:6-8 | The dialog starts with no items, not editing, and an empty input. |
| AttributesDialog.Dialog.OnInput | src/components/admin/MachineTypeAttributesDialog.tsx:51 | Typing changes only the input. |
| AttributesDialog.AssignAt | src/components/admin/MachineTypeAttributesDialog.tsx:21-22 | An assignment writes the value at the position and leaves the other elements. Past the end it lengthens the array to the position plus one. |
| AttributesDialog.Dialog.Create | src/components/admin/MachineTypeAttributesDialog.tsx:10-13 | Appends the input, even empty, and clears it. |
| AttributesDialog.Dialog.Edit | src/components/admin/MachineTypeAttributesDialog.tsx:15-18 | Sets the index and loads that item into the input. |
| AttributesDialog.Dialog.Update | src/components/admin/MachineTypeAttributesDialog.tsx:20-26 | Replaces only the edited element, then resets the index and clears the input. |
| AttributesDialog.Dialog.Delete | src/components/admin/MachineTypeAttributesDialog.tsx:28-31 | Removes exactly that position, keeping the rest in order, with the corrected index. |
| AttributesDialog.Dialog.Copy | src/components/admin/MachineTypeAttributesDialog.tsx:33-36 | Loads the item into the input, and the list is unchanged. |
| AttributesDialog.Dialog.Paste | src/components/admin/MachineTypeAttributesDialog.tsx:38-43 | Appends the input only when it is non-empty. |
| AttributesDialog.Dialog.MainButton | src/components/admin/MachineTypeAttributesDialog.tsx:54 | Creates when not editing, updates otherwise. |
| Text.NatToStringValue | src/components/admin/MachineTypeAttributesManager.tsx:9 | Reading the rendered number back gives the number. |
| AttributesManager.DefaultNameInjective | src/components/admin/MachineTypeAttributesManager.tsx:9 | Different lengths give different default names. |
| AttributesManager.InitialAttributesAreDefaults | src/components/admin/MachineTypeAttributesManager.tsx:6 | The initial list is the first two default names. |
| AttributesManager.Move | src/components/admin/MachineTypeAttributesManager.tsx:28 | The result is a permutation of the same length with the item at its target; the others keep their relative order. |
| AttributesManager.MoveBack | src/components/admin/MachineTypeAttributesManager.tsx:28 | Moving back undoes a move. |
| AttributesManager.MoveInPlace | src/components/admin/MachineTypeAttributesManager.tsx:22-30 | A move onto the same position changes nothing. |
| AttributesManager.PromptValue | src/components/admin/MachineTypeAttributesManager.tsx:40 | A cancelled or empty prompt keeps the old value. |
| AttributesManager.Manager.constructor | src/components/admin/MachineTypeAttributesManager.tsx:6 | The list starts as the two initial names. |
| AttributesManager.IndexOfItem | src/components/admin/MachineTypeAttributesManager.tsx:26-27 | The position found holds the item, and no earlier position does. |
| AttributesManager.Manager.Create | src/components/admin/MachineTypeAttributesManager.tsx:8-10 | Appends `Attribute <length + 1>`. |
| AttributesManager.Manager.Edit | src/components/admin/MachineTypeAttributesManager.tsx:12-16 | Replaces only that index, and a cancelled prompt keeps the list. |
| AttributesManager.Manager.Delete | src/components/admin/MachineTypeAttributesManager.tsx:18-20 | Removes exactly that index, keeping the order of the rest. |
| AttributesManager.Manager.DragEnd | src/components/admin/MachineTypeAttributesManager.tsx:22-30 | A drop on itself changes nothing. Otherwise the dragged item moves to the target's index. The result is always a permutation. |

## Left out

- Storage, network and authentication calls: Supabase queries, auth, storage uploads, `functions.invoke`, the AI gateway `fetch` and `localStorage`. Tables are in-memory sequences, and every answer from outside is a parameter.
- Partial failure and concurrency of the fan-out loops. Storage calls are taken to succeed, except in the save loop of the section-attributes dialog, where a rejected write is modelled. Races between administrators are not modelled.
- `.single()` with several matching rows. The engine's skip rule is proved under the invariant "at most one section per machine and template".
- The foreign-key cascade from sections to value rows lives in the database. It is an explicit assumption (`Propagation.CascadeValues`).
- Unicode case folding. `toLowerCase` is modelled on ASCII letters only.
- ILIKE pattern characters `%` and `_`. The duplicate-name check is case-insensitive equality.
- Dates and times. The current time and hour are parameters, and the locale date format of the export is a function parameter.
- Canvas image compression, the waveform animation and UUID file names.
- The order of the category groups on the faults page. `Object.entries` order is not modelled; the groups are a map.
- Toasts, query-cache invalidation, dialog open/close state and rendering.
- Lengths count characters, not UTF-16 code units. This matters for the six-character password rule with characters outside the Basic Multilingual Plane.
- AttributesDialog.AssignAt: a JavaScript assignment past the end of an array leaves holes, which are modelled as empty strings.
- AttributesManager.Manager.DragEnd: requires both ids to be in the list. A drop outside any item (`over` null) is not modelled; the source would throw there.
- The lines page's query filters (area for lines, selected line for machines, src/pages/admin/LinesPage.tsx:70-93). The store holds the whole tables, and the page's selection is `MachinesOfLine`.
- The line page's delete-line, update-machine and delete-machine mutations (src/pages/admin/LinesPage.tsx:135-146, 209-235). Each is a single table call with no guard or loop.
- The areas, users and glossary pages and the rendering-only components. They are CRUD plumbing or display.
- Sign-in, password reset and the commented-out corporate-domain check in sign-up are service calls with no logic of their own here.
- The mobile menu's open/close flag and the navigation calls in the layout are UI state.

## Findings

| source | as written | input that shows it | evidently intended | confidence | as-written member | corrected member |
|---|---|---|---|---|---|---|
| src/pages/ReportsPage.tsx:100-108 | Only the description has its commas replaced. The date, area, line and machine names and the classification are written as they are. | A machine named `Horno 1, zona 2` (the es-MX date format also contains `, `) | Every row has the header's seven columns | high, not executed | ReportsPage.RowAsWrittenShiftsColumns | ReportsPage.RowColumns |
| src/pages/ReportsPage.tsx:106, 109 | A line break inside a field is written as it is, and the capture form puts one into descriptions (src/components/capture/SmartCaptureForm.tsx:176). | A description `a\nb` | One line per report after the header | high, not executed | ReportsPage.CsvAsWrittenSplitsLines | ReportsPage.CsvLines |
| src/components/admin/MachineTypeAttributesDialog.tsx:28-31 | Deleting an item does not adjust the editing index. | Edit "b" in [a, b, c], delete "a", press Update: "c" is overwritten and "b" is unchanged | The index keeps naming the item being edited, and the edit ends when that item is deleted | high, not executed | AttributesDialog.UpdateAfterDeleteOverwritesNeighbour | AttributesDialog.EditingAfterDeleteTracksItem |
