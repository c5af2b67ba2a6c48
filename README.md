# RICS report writer: the report-editing state, in Dafny

This project models how the RICS Home Survey report writer keeps and edits a report. The writer is a React single-page app.

**What the app keeps**
- The dashboard's metadata index of saved reports. Each entry is one report id, and the newest save comes first.
- The stored reports themselves.
- The report open in the editor (a `ReportState`).
- The photo library of the session.
- The auto-text template set in use.
- The title of the section being edited.

**The open report** holds:
- metadata: address, client, date, RICS number, status and level;
- a cover photo;
- a map of generic sections, each with notes, a condition rating and photos;
- structured records for sections A, C, D, G, H, J and L.

**How it changes.** Every component turns a user action into a *partial*: an object naming only the keys it changes. The app merges that partial into the report:
- `updateReportState` merges one level deep;
- `updateSectionData` merges into one entry of the sections map, creating the empty entry first if it is missing.

**Three more pieces of logic**
- A drag gesture ends in exactly one outcome:
  - reorder the photos of the active section;
  - set the cover photo;
  - add a library photo to a section once;
  - or nothing.
- The template manager appends trimmed, non-blank texts and deletes by index.
- Every text field shares one auto-text rule. A chosen template becomes the value of an empty field. On a non-empty field it is appended after a blank line (`"\n\n"`).

**Files**
- `wrappers.dfy`: `Option`.
- `lists.dfy`: `arrayMove` and an order-keeping `filter`.
- `photos.dfy`: photo lists and lookups by id.
- `auto_text.dfy`: the append rule and the auto-fill select.
- `section_view.dfy`: the generic section editor.
- `section_a.dfy` … `section_l.dfy`: the structured section components.
- `report.dfy`: `ReportState` and the two reducers.
- `drag.dfy`: the drag-end handler.
- `metadata_index.dfy`: the index upsert, delete and status map.
- `navigation.dfy`: section lists, visibility and editor routing.
- `templates.dfy`: JavaScript `trim` and the template list edits.
- `app.dfy`: the app shell. It is a class whose fields are the app's state cells and whose methods are its handlers.

Three kinds of value come from the browser: generated ids, object URLs and today's date. They are parameters of the methods that need them. Browser storage is the `store` map of the `App` class, and a stored report reads back exactly as it was written.

## Model

| member | source | states |
|---|---|---|
| Lists.ArrayMove | src/App.tsx:634 | `arrayMove(list, from, to)`: the result has the same length and the same multiset of photos. The moved element sits at `to`. Removing it gives back the list with `from` removed. |
| Lists.ArrayMoveUndo | src/App.tsx:634 | Moving back from `to` to `from` restores the original list. |
| Lists.ArrayMoveInPlace | src/App.tsx:634 | A move onto the same index leaves the list unchanged. |
| Lists.RemoveAt | src/App.tsx:634 | Removing index `i` shifts every later element down by one and keeps the earlier ones. |
| Lists.InsertAt | src/App.tsx:634 | Inserting at `i` puts `x` there, keeps the earlier elements and shifts the later ones up. |
| Lists.RemoveAfterInsert | src/App.tsx:634 | Removing what was just inserted restores the list. |
| Lists.InsertAfterRemove | src/App.tsx:634 | Re-inserting a removed element at its index restores the list. |
| Lists.MultisetOfRemove | src/App.tsx:634 | Removal takes exactly one occurrence of the removed element out of the multiset. |
| Lists.MultisetOfInsert | src/App.tsx:634 | Insertion adds exactly one occurrence to the multiset. |
| Lists.Filter | src/App.tsx:441 | `Array.filter`: an element is in the result exactly when it is in the input and passes the test; the result is never longer. |
| Lists.FilterConcat | src/App.tsx:441 | Filtering distributes over concatenation, so it keeps the relative order of what passes. |
| Lists.FilterKeepsAll | src/App.tsx:441 | If every element passes, the filter returns the list unchanged. |
| Lists.FilterIdempotent | src/App.tsx:441 | Filtering twice with the same test equals filtering once. |
| Photos.Ids | src/components/Section.tsx:147 | The sortable item ids are the photo ids in list order. |
| Photos.IndexOfId | src/App.tsx:630-631 | `findIndex` by id returns -1 exactly when no photo has the id. Otherwise it returns the first index with that id. |
| Photos.FindById | src/App.tsx:641 | `find` by id gives nothing exactly when no photo has the id. Otherwise it gives the photo at the `findIndex` position. |
| Photos.WithoutId | src/App.tsx:678-687 | Filtering out an id leaves no photo with that id and keeps every other photo. |
| Photos.WithoutIdKeepsOrder | src/App.tsx:678-687 | Removal by id distributes over concatenation and drops a single photo exactly when it has the id, so order is kept. A list without the id is unchanged. |
| Photos.FirstFile | src/components/SectionD.tsx:190-193 | A file input passes on nothing when no file was chosen. Otherwise it passes the first file, tagged with the given id. The subsection photo inputs of sections D and H (SectionH.tsx:135-136) are this handler with the subsection id. |
| AutoText.Append | src/components/AutoFillInput.tsx:22 | The result is the template alone exactly when the field was empty. Otherwise it is the old value, `"\n\n"` and the template. The old value is a prefix and the template a suffix. |
| AutoText.AppendAllIsParagraphs | src/components/AutoFillInput.tsx:20-24 | Choosing non-empty templates one after another loses no text. The field ends as its old value followed by the templates as `"\n\n"`-separated paragraphs. |
| AutoText.OnSelect | src/components/AutoFillInput.tsx:20-24 | The blank option emits nothing. Any other option emits the appended value. |
| AutoText.Prefix | src/components/AutoFillInput.tsx:30 | `substring(0, 40)` is a prefix of the text, of length min(40, length). |
| AutoText.AutoFillOptions | src/components/AutoFillInput.tsx:29-31 | Each option submits the full response. Its caption is the first 40 characters plus `...`. |
| AutoText.ChosenOptionAppendsFullResponse | src/components/AutoFillInput.tsx:22-30 | Choosing an option appends the whole response, not its shortened caption. |
| AutoText.LookupKeyInjective | src/components/SectionD.tsx:136 | Keys of the form `${id}_${field}` are distinct for distinct (id, field) pairs when ids contain no underscore. |
| SectionView.RatingButtons | src/components/Section.tsx:22-34 | Three buttons, in order, emit grades 1, 2 and 3. |
| SectionView.RatingButtonsCoverGrades | src/components/Section.tsx:6 | Every grade of the domain {1, 2, 3} has a button. No button clears the rating. |
| SectionView.OnTemplateSelect | src/components/Section.tsx:90-95 | The blank option emits nothing. Any other option emits the notes with the template appended. |
| SectionView.OnRemoveClick | src/components/Section.tsx:64 | The remove button of the i-th photo emits that photo's id. |
| SectionA.Apply | src/components/SectionA.tsx:95-169 | A field's partial sets that field and leaves the other eight unchanged. |
| SectionA.OnAutoFill | src/components/SectionA.tsx:38-43 | The blank option emits nothing. Otherwise the one-key partial of that field holds the selection, or the old value plus `"\n\n"` plus the selection. |
| SectionA.Blank | src/App.tsx:459-469 | A new report's section A record is all empty except the inspection date, which is today. |
| SectionC.WithCell | src/components/SectionC.tsx:202-222 | Writing one accommodation cell sets that cell and preserves the other 17. |
| SectionC.WithText | src/components/SectionC.tsx:121-171 | A text partial sets its field. Every other text, every checkbox and the accommodation table are unchanged. |
| SectionC.WithChecked | src/components/SectionC.tsx:289-368 | A checkbox partial sets its box to the checked state. Every other box, every text and the table are unchanged. |
| SectionC.Apply | src/components/SectionC.tsx:121-389 | Every partial changes exactly its one key: a text, the accommodation table or a checkbox. |
| SectionC.OnCellInput | src/components/SectionC.tsx:202-222 | A cell edit emits an `accommodation` object in which only that cell differs. |
| SectionC.OnAutoFill | src/components/SectionC.tsx:71-75 | The blank option emits nothing. Otherwise the one-key text partial holds the selection, or the old value plus `"\n\n"` plus the selection. |
| SectionC.CellEditTouchesOneCell | src/components/SectionC.tsx:202-222 | Applying a cell edit changes that cell of the record and nothing else. |
| SectionC.Blank | src/App.tsx:470-512 | A new report's section C record has all texts empty, all boxes unticked and all 18 cells empty. |
| SectionD.UpdateText | src/components/SectionD.tsx:79-81 | `updateField` replaces only the named text field and keeps the rating. |
| SectionD.UpdateRating | src/components/SectionD.tsx:35-58 | A rating button sets the rating and keeps all texts. |
| SectionD.HandleAutoTextSelect | src/components/SectionD.tsx:83-86 | Auto-text sets an empty field to the text, or appends it after `"\n\n"`. The other fields and the rating are unchanged. |
| SectionD.Badge | src/components/SectionD.tsx:99-104 | The badge reads `NR` exactly when there is no rating. Otherwise it reads the rating's code. |
| SectionD.BadgeDistinguishesRatings | src/components/SectionD.tsx:6 | The badge identifies the rating among null, '1', '2', '3' and 'NI'. The four buttons are distinct and cover every rating. |
| SectionD.DefaultSubsection | src/components/SectionD.tsx:211-216 | The default subsection has a null rating and empty texts. |
| SectionD.AutoTextKeyInjective | src/components/SectionD.tsx:136 | `${id}_${field}` keys of underscore-free ids name one (id, field) pair. |
| SectionD.WithSubsection | src/components/SectionD.tsx:282 | `{[key]: newData}` replaces that subsection only. The limitations text is unchanged. |
| SectionD.Apply | src/components/SectionD.tsx:266-283 | The limitations partial changes only that text. A subsection partial changes only its own subsection. |
| SectionD.FieldEditTouchesOneField | src/components/SectionD.tsx:79-81 | Editing one field of one subsection changes exactly that field of the record. |
| SectionD.Default | src/components/SectionD.tsx:219-236 | The default record has a non-empty limitations text and nine default subsections. |
| SectionD.KeysCoverEveryKey | src/components/SectionD.tsx:239-249 | The table lists all nine subsections, each once. |
| SectionD.IdInjective | src/components/SectionD.tsx:239-249 | The ids d1 to d9 are distinct and contain no underscore. |
| SectionD.AutoTextKeysDistinct | src/components/SectionD.tsx:136 | No two (subsection, field) pairs share an auto-text key. |
| SectionG.WithSubsection | src/components/SectionG.tsx:257 | `{[key]: newData}` replaces that subsection only. The limitations text is unchanged. |
| SectionG.Apply | src/components/SectionG.tsx:242-258 | The limitations partial changes only that text. A subsection partial changes only its own subsection. |
| SectionG.FieldEditTouchesOneField | src/components/SectionG.tsx:72-74 | Editing one field of one subsection changes exactly that field of the record. |
| SectionG.Default | src/components/SectionG.tsx:204-217 | The default record has a non-empty limitations text and three default subsections. |
| SectionG.KeysCoverEveryKey | src/components/SectionG.tsx:220-224 | The table lists all three subsections, each once. |
| SectionG.IdInjective | src/components/SectionG.tsx:220-224 | The ids g1 to g3 are distinct and contain no underscore. |
| SectionG.AutoTextKeysDistinct | src/components/SectionG.tsx:129 | No two (subsection, field) pairs share an auto-text key. |
| SectionH.UpdateText | src/components/SectionH.tsx:43-45 | `updateField('text', v)` gives a subsection whose text is `v`. |
| SectionH.HandleAutoTextSelect | src/components/SectionH.tsx:47-50 | Auto-text sets empty text to the template, or appends it after `"\n\n"`. |
| SectionH.DefaultSubsection | src/components/SectionH.tsx:155-157 | The default subsection has empty text. |
| SectionH.WithSubsection | src/components/SectionH.tsx:195 | `{[key]: newData}` replaces that subsection only. |
| SectionH.Apply | src/components/SectionH.tsx:195 | A subsection partial changes only its own subsection. |
| SectionH.AutoTextTouchesOneSubsection | src/components/SectionH.tsx:47-50 | Auto-text in one subsection changes that subsection's text only. |
| SectionH.Default | src/components/SectionH.tsx:160-164 | All three default subsections have empty text. |
| SectionH.KeysCoverEveryKey | src/components/SectionH.tsx:167-171 | The table lists all three subsections, each once. |
| SectionH.IdInjective | src/components/SectionH.tsx:167-171 | The ids h1 to h3 are distinct and contain no underscore. |
| SectionH.AutoTextKeysDistinct | src/components/SectionH.tsx:81 | Distinct subsections have distinct `${id}_text` keys. |
| SectionJ.Apply | src/components/SectionJ.tsx:140-180 | A field's partial sets that field and leaves the other four unchanged. |
| SectionJ.OnType | src/components/SectionJ.tsx:54 | Typing emits the one-key partial of that field with the typed value. |
| SectionJ.OnAutoText | src/components/SectionJ.tsx:40-41 | Auto-text emits the field's partial with the text, or the old value plus `"\n\n"` plus the text. |
| SectionJ.OnPhotoInput | src/components/SectionJ.tsx:97-98 | A photo input passes on only the first file, tagged with the field's id (j1 to j5). |
| SectionJ.IdsDistinct | src/components/SectionJ.tsx:137-177 | The five ids are distinct, and so are the five template keys. |
| SectionJ.Blank | src/App.tsx:514-520 | A new report's section J record is all empty. |
| SectionL.Apply | src/components/SectionL.tsx:91 | A content partial replaces the content. |
| SectionL.OnType | src/components/SectionL.tsx:91 | Typing replaces the content with the textarea value. |
| SectionL.OnAutoText | src/components/SectionL.tsx:20-21 | Auto-text on empty content yields the text, otherwise the content plus `"\n\n"` plus the text. |
| SectionL.OnPhotoInput | src/components/SectionL.tsx:135-136 | A photo input passes on only the first file, always tagged `l1`. |
| SectionL.TypedThenTemplates | src/components/SectionL.tsx:20-21 | After typing and then choosing templates, the content is the typed text followed by the templates as paragraphs. |
| SectionL.Blank | src/App.tsx:521-523 | A new report's section L content is empty. |
| Report.DefaultSection | src/App.tsx:602 | The missing-section default has empty content, no rating and no photos. |
| Report.SectionOrDefault | src/App.tsx:602 | A present entry is used as is. A missing one becomes the default. |
| Report.Merge | src/App.tsx:592-597 | `{ ...prev, ...updates }`: each of the 17 keys takes the partial's value when named and keeps its old value otherwise. |
| Report.UpdateReportState | src/App.tsx:592-597 | No report stays no report. A report becomes the merge. |
| Report.MergeNoChange | src/App.tsx:592-597 | The empty partial changes nothing. |
| Report.MergeCombine | src/App.tsx:592-597 | Two updates in a row equal one update with the later partial spread over the earlier. |
| Report.MergeIdempotent | src/App.tsx:592-597 | Repeating an update changes nothing further. |
| Report.MergeDisjointCommutes | src/App.tsx:592-597 | Updates naming different keys commute. |
| Report.OneKeyPatches | src/App.tsx:897-901 | The cover's field callbacks, the status switcher and the valuation toggle each change their own key and nothing else. |
| Report.MergeSection | src/App.tsx:606 | `{ ...section, ...updates }` on the three section fields. |
| Report.WithSection | src/App.tsx:603-608 | The sections map gains the key if missing. That entry becomes the merge; the other entries are unchanged. |
| Report.UpdateSectionData | src/App.tsx:599-611 | No report stays no report. Only the named section entry changes, and nothing outside the sections map changes. |
| Report.UpdateMissingSection | src/App.tsx:602 | On a missing section, the fields the partial does not name come from the empty entry. |
| Report.UpdateSectionsCommute | src/App.tsx:599-611 | Updates of two different sections commute. |
| Report.ContentEditKeepsRatingAndPhotos | src/App.tsx:1042 | Typing notes into a section keeps its rating and photos. |
| Report.StructuredPatch | src/App.tsx:917-1030 | For each of the seven structured components, merging its report partial sets that component's sub-record to the component's partial spread over it. Every other key of the report is unchanged. |
| Report.ApplyStructured | src/App.tsx:917-1030 | A structured edit on the open report is the merge of that one-key partial. |
| Report.StructuredEditIsLocal | src/App.tsx:917-1030 | A structured edit replaces only its own sub-record, by that component's merge. |
| Report.SubsectionEditEndToEnd | src/components/SectionD.tsx:282 | Wired end to end, a section D field edit changes exactly that field of that subsection, and nothing else in the report. |
| Report.NewReport | src/App.tsx:446-530 | A new report has the given level and id, status working and empty metadata except today's date. It has no cover, no valuation and no section entries. Section A is empty except its inspection date, which is today. Every text and accommodation cell of C is empty and every box unticked. J and L are empty. D and G hold their limitations texts and default subsections, and every H text is empty. |
| Drag.PhotosOf | src/App.tsx:629 | The photos of a section, or none when the section or the report is missing. |
| Drag.Classify | src/App.tsx:623-658 | The handler's checks in order. A reorder names two indices of the active section holding the two ids. A cover drop names the library photo. An append names a library photo that the target does not hold yet. |
| Drag.DragEnd | src/App.tsx:623-658 | No report stays no report. A drop changes at most the cover photo and the sections map. |
| Drag.ReorderPermutes | src/App.tsx:627-636 | A reorder keeps the length and multiset of the active section's photos. The dragged photo lands at the target's former index. Other sections and the cover are unchanged. |
| Drag.DropOnCover | src/App.tsx:640-648 | Dropping a library photo on the cover makes it the cover photo, replacing any earlier one. The sections are unchanged. |
| Drag.DropOnSection | src/App.tsx:650-655 | A library photo dropped on a section is appended at the end only if no photo with its id is there. Otherwise nothing changes. |
| Drag.DropTwiceIsDropOnce | src/App.tsx:650-655 | Repeating a library drop changes nothing further. |
| Drag.NoOpDrops | src/App.tsx:625-642 | No target, a drop on itself outside a reorder, or an id not in the library: no change. |
| Drag.ReorderOntoItselfKeepsOrder | src/App.tsx:633-636 | A photo dropped on itself leaves its section as it was. |
| Drag.NoReportNoChange | src/App.tsx:629 | With no report open, nothing happens. |
| Drag.PhotoIdBecomesSectionKey | src/App.tsx:643-655 | The target id is used as a section key even when it is the id of another library photo. |
| MetadataIndex.OrDefault | src/App.tsx:433-436 | `s \|\| fallback` replaces only the empty string. |
| MetadataIndex.Projection | src/App.tsx:431-440 | A save's entry copies the report's fields, with "No Address" and "No Client" for empty ones, stamped with the save time. |
| MetadataIndex.IdsOf | src/App.tsx:441 | The ids of the entries, in order. |
| MetadataIndex.RemoveId | src/App.tsx:549 | The entries that stay are exactly those with another id. |
| MetadataIndex.Upsert | src/App.tsx:441 | The new entry comes first, followed by the old entries without its id. |
| MetadataIndex.SetStatus | src/App.tsx:587 | Matching entries take the status. The others are unchanged, and the length is kept. |
| MetadataIndex.RemoveIdKeepsUnique | src/App.tsx:549 | Filtering keeps ids unique. |
| MetadataIndex.UpsertPlacesEntryOnce | src/App.tsx:441 | After a save, ids stay unique and the entry is first. It is the only one with its id, and every other entry is kept. |
| MetadataIndex.UpsertIdempotent | src/App.tsx:441 | Saving the same entry twice is saving it once. |
| MetadataIndex.DeleteUndoesUpsert | src/App.tsx:441-549 | Deleting after a save leaves what deleting alone would leave. |
| MetadataIndex.DeleteRemovesId | src/App.tsx:549 | Delete removes every entry with the id and keeps every other entry. |
| MetadataIndex.SetStatusOnlyStatus | src/App.tsx:587 | A status change alters only statuses. Ids, order and uniqueness are kept. |
| Navigation.Sections | src/App.tsx:24-45 | Both section lists have 17 titles. Level 2 differs only in section M. |
| Navigation.SectionsFor | src/App.tsx:417 | The open report's level picks the list. With no report, the Level 3 list is used. |
| Navigation.SectionListsShape | src/App.tsx:24-45 | Both lists have distinct titles and agree except at index 13. The cover is first and the valuation last. |
| Navigation.IndexOf | src/App.tsx:723 | `indexOf` returns -1 exactly when the title is absent. Otherwise it returns its first index. |
| Navigation.IndexOfDistinct | src/App.tsx:723 | In a repeat-free list, the index of the i-th title is i. |
| Navigation.PhotoSectionTitles | src/App.tsx:725-727 | Positions 0 and 4 to 7 are the cover and sections D, E, F and G in both lists. |
| Navigation.PhotoAndRatingSections | src/App.tsx:725-727 | Photos are offered exactly on the cover and sections D to G, and ratings exactly on D to G. Ratings imply photos. An unknown title gets neither. |
| Navigation.VisibleSections | src/App.tsx:729-732 | The side bar shows every section of the list except the valuation, unless the open report includes it. |
| Navigation.ValuationVisibility | src/App.tsx:729-732 | The valuation is listed exactly when the open report includes it. Every other section always is. |
| Navigation.SectionLUnreachableAsWritten | src/App.tsx:1026-1033 | As wired, no title of either list opens the section L editor. 'L What to do now' opens the generic one. |
| Navigation.EditorFor | src/App.tsx:888-1049 | With section L routed by its listed title, that title opens the L editor. Every other title routes as before. |
| Navigation.EveryEditorReachable | src/App.tsx:888-1049 | With that routing, every editor, section L's included, is opened by some title of each list. |
| Templates.TrimStart | src/App.tsx:1146-1147 | Drops a whitespace-only prefix and leaves text that is empty or starts with non-whitespace. |
| Templates.TrimEnd | src/App.tsx:1146-1147 | Drops a whitespace-only suffix and leaves text that is empty or ends with non-whitespace. |
| Templates.TrimShape | src/App.tsx:1146-1147 | `trim()` returns a contiguous slice with no whitespace at either end. Everything cut off is whitespace. |
| Templates.TrimEmptyIffBlank | src/App.tsx:1146 | A text trims to empty exactly when it is all whitespace. |
| Templates.TrimIdempotent | src/App.tsx:1147 | Trimming twice is trimming once. |
| Templates.TemplatesOf | src/App.tsx:1124 | `managed[key] \|\| []`. |
| Templates.SpliceOne | src/App.tsx:1125 | `splice(index, 1)` removes exactly that entry. An index past the end removes nothing. |
| Templates.SpliceCopy | src/App.tsx:1124-1125 | Copying into an array and shifting the tail down gives exactly the spliced list. |
| Templates.DeleteTemplate | src/App.tsx:1124-1126 | Deleting changes only the key's list, to the spliced list. |
| Templates.AddTemplate | src/App.tsx:1145-1148 | A blank text changes nothing. Otherwise the trimmed text is appended to the key's list, and other keys are unchanged. |
| Templates.AddedTemplateIsTrimmed | src/App.tsx:1146-1147 | An added template is non-blank, has no whitespace at either end, and grows the list by one. |
| Templates.DeleteUndoesAdd | src/App.tsx:1124-1148 | Deleting the entry just added restores the key's list. |
| ReportApp.StoreWithStatus | src/App.tsx:573-578 | The stored report with that id, if any, takes the status. The others are unchanged. |
| ReportApp.SaveKeepsConsistent | src/App.tsx:429-443 | A save keeps the index and the stored reports consistent: unique ids, each entry the projection of its stored report. |
| ReportApp.DeleteKeepsConsistent | src/App.tsx:548-553 | A delete keeps the index and the stored reports consistent. |
| ReportApp.StatusKeepsConsistent | src/App.tsx:571-590 | A status change keeps the index and the stored reports consistent. |
| ReportApp.App.TemplatesFor | src/App.tsx:532 | Level 2 reports use the Level 2 templates and all others the Level 3 ones. |
| ReportApp.App.constructor | src/App.tsx:379-387 | Start-up: the saved index and reports, no open report, an empty library, the Level 3 templates and the cover. Consistent storage gives a valid state. |
| ReportApp.App.CurrentTemplates | src/App.tsx:1041 | The generic editor is offered the active section's templates, or none. |
| ReportApp.App.CurrentEditor | src/App.tsx:888-1049 | The cover opens the cover editor. Every title other than the two section L titles opens the editor the app wires it to. This member uses the corrected routing of the Finding below, so 'L What to do now' opens the section L editor. |
| ReportApp.App.CreateNewReport | src/App.tsx:446-535 | Opens the new report at the cover with its level's templates. The store and the index are unchanged. |
| ReportApp.App.OpenReport | src/App.tsx:537-546 | A stored report is opened at the cover with its level's templates. An unknown id changes nothing. |
| ReportApp.App.SaveReportToStorage | src/App.tsx:429-443 | Stores the open report under its id and moves its entry to the front of the index. Validity is kept. |
| ReportApp.App.DeleteReport | src/App.tsx:548-553 | Drops the entry and the stored report, keeps the open report, and keeps validity. |
| ReportApp.App.HandleStatusChange | src/App.tsx:571-590 | Sets the stored report's status and reloads it into the editor when it is the open one. Maps the index's status and keeps validity. |
| ReportApp.App.UpdateReportState | src/App.tsx:592-597 | The open report becomes the merge. |
| ReportApp.App.UpdateSectionData | src/App.tsx:599-611 | The open report's section entry becomes the merge. |
| ReportApp.App.OnStructuredChange | src/App.tsx:917-1030 | A structured component's partial is applied to its sub-record. |
| ReportApp.App.SwitchStatus | src/App.tsx:777 | The open report's status is set, and nothing else changes. |
| ReportApp.App.ToggleValuation | src/App.tsx:861 | The open report's valuation flag flips, and nothing else changes. |
| ReportApp.App.RemoveCoverPhoto | src/App.tsx:901 | The open report loses its cover photo, and nothing else changes. |
| ReportApp.App.SelectSection | src/App.tsx:840-843 | The clicked section becomes the active one. |
| ReportApp.App.HandleFileUpload | src/App.tsx:613-621 | The uploaded photos are appended to the library in order. No file list means no change. |
| ReportApp.App.HandleDragEnd | src/App.tsx:623-658 | The open report becomes the drag-end result, and the library is unchanged. |
| ReportApp.App.HandleAddPhotoFromSection | src/App.tsx:661-676 | The photo is appended to the section's photos and to the library. |
| ReportApp.App.HandleRemovePhotoFromSection | src/App.tsx:678-683 | The section keeps only its photos with another id. |
| ReportApp.App.HandleRemovePhotoFromLibrary | src/App.tsx:685-687 | The library keeps only its photos with another id, and the report is unchanged. |
| ReportApp.App.OnSectionEvent | src/App.tsx:1042-1044 | The generic editor's notes, rating and photo-remove callbacks update the active section. |
| ReportApp.App.AddTemplate | src/App.tsx:1144-1150 | The template set becomes the add-template result for the active section. |
| ReportApp.App.DeleteTemplate | src/App.tsx:1123-1127 | The template set becomes the delete-template result for the active section. |
| ReportApp.CreateEditSaveReopen | src/App.tsx:429-546 | Create a Level 3 report, type its address, save it, create another, then reopen the first. The reopened report has the typed address and level, and the index lists it once. |

## Left out

- Browser storage and JSON are abstracted. The stored reports are a map from id to report, and a report reads back exactly as it was written.
- The debounced auto-save (a 2-second timer) and the save-status indicator are left out; a save is an explicit call with the save time as input. Also not modelled: the save callback captures the `reports` list of the render that scheduled it, so a delete during the 2 seconds can be undone by the pending save.
- PDF export (html2canvas, jsPDF) is left out: it is foreign libraries and floating-point page arithmetic.
- Generated values are method parameters: report ids (`crypto.randomUUID`), photo ids (`Math.random`), object URLs and today's date.
- The drag-and-drop hooks and the cover, photo manager and draggable photo components are rendering only. Drag ids are strings, so the handler's `typeof … === 'string'` checks always pass and are not modelled.
- Login, scrolling, the mobile side bar, site mode, the dashboard/report view switch, the template-manager toggle and the components' local `isExpanded`/`activeAutoText` toggles are UI state and are left out.
- The literal template tables are abstract maps given to the `App` constructor. So the model does not capture that some table keys, such as `d4_mainWalls_typeConstruction`, never match the `${id}_${field}` keys the components look up.
- The per-field template lookups of sections A and C (`autoResponses?.surveyorName` and similar) are left out; only the chosen text matters to the model.
- Sections E, F and I have no component in this model, so their sub-records are not part of `ReportState`. Photos they add go through `HandleAddPhotoFromSection` like any other section's.
- The `|| 'working'` and `|| 'level3'` fallbacks of the save cannot fire here: status and level are enumerations, never empty.
- Only keys of `ReportState` can be named by a partial. The app's `as` casts could add others at run time.
- ReportApp.App.CurrentEditor: routes with the corrected section L title of the Finding below, not as written. As written, 'L What to do now' opens the generic section editor (`Navigation.EditorForAsWritten`, `Navigation.SectionLUnreachableAsWritten`). On every other title the two routings agree.

## Findings

| source | as written | input that shows it | evidently intended | confidence | as-written member | corrected member |
|---|---|---|---|---|---|---|
| src/App.tsx:1026-1033 | The section L editor is chosen when the active section is 'L Further investigations and getting quotes'. | Select 'L What to do now', index 12 of both section lists (src/App.tsx:37). That title opens the generic editor, and no title opens the section L editor. | 'L What to do now' opens the section L editor. | medium; not executed | Navigation.SectionLUnreachableAsWritten | Navigation.EveryEditorReachable |
