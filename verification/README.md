# Hemfix painting quote and room editor, modelled in Dafny

This project models the logic at the core of the Hemfix painting app:

- **Quote.** The price model `calculateQuote` turns a painting job into a quote:
  - labour is priced from the area and a product of factors;
  - material is priced from the number of coats;
  - a travel fee is added;
  - the ROT tax deduction is applied.
- **Measurement editors.** A single-room editor and a multi-room editor keep rooms made of rectangular sections, each a length and a width as typed, and maintain their area totals.
- **Project-details form.** A partial `update` that overwrites the supplied fields, plus a surface toggle.
- **Surface target picker.** The checkbox group that chooses which surfaces the AI recolouring applies to.
- **NCS colour picker.** A search filter, grouping by category, and the colour click.
- **`change-wall-color` edge function.** Modelled as a pure decision function: from the request, the configured API key and the image service's reply to the HTTP response and the prompt sent upstream.
- **Language context.** The translation lookup with its fallbacks, and the persisted language choice.

Every handler is a pure function from the current state to the state the component passes to `onChange`. Things the browser or server supplies become parameters:

- fresh ids (`Date.now()`/`Math.random()`);
- the data URL a `FileReader` produces;
- the translated words;
- the colour table;
- the environment's API key;
- the image service's reply.

One module per source file:

| file | module | source |
|---|---|---|
| `quote.dfy` | `Quote` | `src/lib/calculateQuote.ts` |
| `sections.dfy` | `Sections` | the section logic both measurement editors share |
| `room_measurement.dfy` | `RoomMeasurement` | `src/components/RoomMeasurement.tsx` |
| `multi_room_measurement.dfy` | `MultiRoomMeasurement` | `src/components/MultiRoomMeasurement.tsx` |
| `project_details.dfy` | `ProjectDetails` | `src/components/ProjectDetailsFields.tsx` |
| `surface_target_picker.dfy` | `SurfaceTargetPicker` | `src/components/SurfaceTargetPicker.tsx` |
| `ncs_color_picker.dfy` | `NcsColorPicker` | `src/components/NCSColorPicker.tsx` |
| `change_wall_color.dfy` | `ChangeWallColor` | `supabase/functions/change-wall-color/index.ts` |
| `language.dfy` | `Language` | `src/i18n/LanguageContext.tsx` |

Shared helpers:

- `Wrappers`: `Option`.
- `Seqs`: an order-preserving `Filter` with its subsequence and multiset lemmas.
- `Strings`: the `[^0-9.]` sanitiser, JavaScript `trim` whitespace, Latin-1 `toLowerCase`, `includes`, `join`, and decimal numerals.
- `Numbers`: `parseFloat(x) || 0` (white space, sign, decimal literal with optional exponent), `Math.round`, and rounding to a tenth.

Money and areas are exact `real` numbers, and `Math.round(x)` is `floor(x + 0.5)`.

### Three facts about the price model worth knowing

- **Height surcharge.** Above 2.4 m the labour factor grows by 5 % per 0.3 m with no rounding down to whole steps (`src/lib/calculateQuote.ts:103-104`), so the surcharge is pro rata: 2.55 m gives a factor of 1.025 (`Quote.HeightFactorIsProRata`).
- **`rotPercent`.** `calculateQuote` uses the rate as given and does not clamp it. The non-negativity guarantees (`Quote.MoneyIsNonNegative`) take a rate in [0, 0.30] as a precondition.
- **Monotonicity.** More wall area strictly increases the exact labour and the exact total. After `Math.round` the labour and total lines only never decrease (`Quote.LaborGrowsWithArea`): a small enough extra area rounds to the same whole amount.

## Model

| member | source | states |
|---|---|---|
| Quote.CalculateQuote | src/lib/calculateQuote.ts:84-147 | the quote is defined for every input: the coat count is 1, 2 or 3; the travel fee is 500, 900 or 1300; customer-supplied material costs 0; without ROT nothing is deducted; without area both unit prices are 0 |
| Quote.CoatsNumeric | src/lib/calculateQuote.ts:89-93 | the coat count is always between 1 and 3 |
| Quote.FactorSubstrate | src/lib/calculateQuote.ts:95-98 | the substrate factor never lowers the price (at least 1), and off wallpaper it is the plain substrate factor |
| Quote.FactorHeight | src/lib/calculateQuote.ts:103-104 | the height factor never lowers the price (at least 1) |
| Quote.LaborFactor | src/lib/calculateQuote.ts:108-110 | the combined labour factor is positive |
| Quote.MaterialFactor | src/lib/calculateQuote.ts:111 | the combined material factor is positive |
| Quote.TotalAreaFollowsScope | src/lib/calculateQuote.ts:85-87 | the priced area is the wall area plus the ceiling area exactly when the scope is walls+ceiling, and the wall area alone otherwise |
| Quote.CeilingIgnoredForWalls | src/lib/calculateQuote.ts:85-87 | with walls only, the whole quote ignores the ceiling area |
| Quote.CoatsResolution | src/lib/calculateQuote.ts:89-93 | "Auto" gives 2, 3, 2 or 1 coats by colour change (light→light, dark→light, light→dark, refresh); an explicit count is used as given |
| Quote.WallpaperActionOnlyOnWallpaper | src/lib/calculateQuote.ts:95-98 | on any substrate but wallpaper the wallpaper action changes nothing in the quote |
| Quote.WallpaperSubstrateFactor | src/lib/calculateQuote.ts:54-64 | on wallpaper the factor is 1.05 when painting over and 1.05 × 1.35 = 1.4175 when removing |
| Quote.HeightFactorShape | src/lib/calculateQuote.ts:103-104 | no surcharge at or below 2.4 m; every further 0.3 m adds exactly 0.05; the factor is monotone in height |
| Quote.HeightFactorIsProRata | src/lib/calculateQuote.ts:103-104 | half of 0.3 m above the reference adds half of 5 % (2.55 m gives 1.025) |
| Quote.QualityNeverAffectsLabor | src/lib/calculateQuote.ts:108-114 | paint quality never changes labour before ROT, the deduction or labour after ROT |
| Quote.MaterialIgnoresLaborFactors | src/lib/calculateQuote.ts:111-119 | condition, furnishing and ceiling height never change the material cost |
| Quote.CustomerSuppliedMaterial | src/lib/calculateQuote.ts:116-119 | switching the supplier to the customer zeroes material and leaves area, coats, labour, deduction and travel unchanged |
| Quote.NoRotNoDeduction | src/lib/calculateQuote.ts:123-132 | without ROT the deduction is 0, and the after-ROT labour, total and unit price equal the before-ROT ones |
| Quote.TravelAddedUnchanged | src/lib/calculateQuote.ts:121-129 | the zone fee is 500/900/1300 and enters both totals as a whole amount added to the rounded sum of the other lines |
| Quote.AmountsNonNegative | src/lib/calculateQuote.ts:113-132 | with non-negative area, positive factors and a rate in [0, 0.30], every exact amount is non-negative, the deduction is at most the labour, and the total after ROT is at most the total before |
| Quote.MoneyIsNonNegative | src/lib/calculateQuote.ts:134-146 | with non-negative areas and a rate in [0, 0.30], every rounded amount is non-negative, the deduction never exceeds the labour, and the total after ROT never exceeds the total before |
| Quote.PricePerM2 | src/lib/calculateQuote.ts:131-145 | unit prices are 0 without area; otherwise they are the exact totals divided by the area, rounded to a tenth |
| Quote.RoundingOnlyAtOutput | src/lib/calculateQuote.ts:134-146 | each of labour, deduction, labour after ROT, material and both totals is within half a krona of its exact value, and each unit price within 0.05; so the rounded lines add up to within 1 of each other |
| Quote.LaborAfterIsNotDifferenceOfRounded | src/lib/calculateQuote.ts:123-139 | labour after ROT is the rounded exact difference, not the difference of the rounded lines: 1/56 m² at 30 % gives 5, 2 and 4 |
| Quote.AmountsGrowWithArea | src/lib/calculateQuote.ts:114-128 | more area strictly increases the exact labour and the exact total |
| Quote.LaborGrowsWithArea | src/lib/calculateQuote.ts:114-142 | more wall area strictly increases the exact labour and the exact total; the rounded labour and total never decrease |
| Quote.SameFactorsSameQuote | src/lib/calculateQuote.ts:84-147 | the quote depends only on area, coats, the two factors, the zone fee, the supplier and the ROT choice |
| Quote.ExampleWithoutRot | src/lib/calculateQuote.ts:84-147 | 20 m² of painted walls with default choices: labour 5600, material 1400, travel 500, total 7500, 375.0 per m² |
| Quote.ExampleWithRot | src/lib/calculateQuote.ts:123-145 | the same job with 30 % ROT: deduction 1680, labour after 3920, total after 5820, 291.0 per m² |
| Numbers.ParseDecimal | src/components/RoomMeasurement.tsx:31-32 | reading a dimension as `parseFloat` with 0 for NaN gives a negative value only when the string holds a minus sign, so never on digits and points; "" reads 0, and so does a string starting with a character that cannot begin a number |
| Numbers.UnsignedPrefix | src/components/RoomMeasurement.tsx:31-32 | a decimal literal is found exactly when the string starts with a digit, or a point followed by a digit, and its value is non-negative |
| Numbers.ParseSkipsWhitespace | src/components/RoomMeasurement.tsx:31-32 | leading white space does not change the value read |
| Numbers.ReadsUnsigned | src/components/RoomMeasurement.tsx:31-32 | without leading white space or sign, the value is the longest decimal literal, or 0 when there is none |
| Numbers.ParseNegated | src/components/RoomMeasurement.tsx:31-32 | a minus sign before an unsigned string negates its value |
| Numbers.ParsePlus | src/components/RoomMeasurement.tsx:31-32 | a plus sign before an unsigned string changes nothing |
| Numbers.ParseNumeral | src/components/RoomMeasurement.tsx:31-32 | reading back the decimal numeral of a whole number gives that number |
| Numbers.ParseFraction | src/components/RoomMeasurement.tsx:31-32 | "2.5" reads 2.5 |
| Numbers.ParseTrailingPoint | src/components/RoomMeasurement.tsx:31-32 | "3." reads 3 |
| Numbers.ParseLeadingPoint | src/components/RoomMeasurement.tsx:31-32 | ".5" reads 0.5 |
| Numbers.ParseSecondPoint | src/components/RoomMeasurement.tsx:31-32 | "1.2.3" stops at the second point and reads 1.2 |
| Numbers.ParseLonePoint | src/components/RoomMeasurement.tsx:31-32 | "." holds no number and reads 0 |
| Numbers.ParseLoneSign | src/components/RoomMeasurement.tsx:31-32 | "-" holds no number and reads 0 |
| Numbers.ParseLetterFirst | src/components/RoomMeasurement.tsx:31-32 | "x1" starts with a letter and reads 0 |
| Numbers.ParseMinusExample | src/components/RoomMeasurement.tsx:31-32 | "-5" reads -5 |
| Numbers.ParseSpaceExample | src/components/RoomMeasurement.tsx:31-32 | " 7" reads 7: leading white space is skipped |
| Numbers.ParseExponent | src/components/RoomMeasurement.tsx:31-32 | "2e3" reads 2000 |
| Numbers.ParseNegativeExponent | src/components/RoomMeasurement.tsx:31-32 | "5e-1" reads 0.5 |
| Numbers.ParseBareExponentMark | src/components/RoomMeasurement.tsx:31-32 | "4e" has no exponent digits, so the mark is ignored and it reads 4 |
| Numbers.Round | src/lib/calculateQuote.ts:137-143 | `Math.round` is within half a unit of its argument, rounding halves up |
| Numbers.RoundTenth | src/lib/calculateQuote.ts:144-145 | rounding to a tenth is within 0.05 of its argument, and its result is a whole number of tenths |
| Strings.Sanitize | src/components/RoomMeasurement.tsx:69-70 | the sanitised value holds only digits and points, and keeps every digit and point of the input |
| Strings.SanitizeKeepsExactlyNumeric | src/components/RoomMeasurement.tsx:69-70 | sanitising deletes exactly the other characters: it keeps the order, and each digit or point occurs as often as in the input |
| Strings.SanitizeFixesNumeric | src/components/RoomMeasurement.tsx:69-70 | a string is left unchanged exactly when it is already numeric; sanitising twice equals sanitising once |
| Sections.Area | src/components/RoomMeasurement.tsx:31-33 | a section whose dimensions hold only digits and points has a non-negative area; the area is 0 when either dimension is empty |
| Sections.Total | src/components/RoomMeasurement.tsx:29-35 | the summed area of sanitised sections is non-negative |
| Sections.TotalAtLeastEach | src/components/RoomMeasurement.tsx:29-35 | among sanitised sections, no single section's area exceeds the total |
| Sections.TotalAppend | src/components/RoomMeasurement.tsx:29-35 | the total of two lists of sections is the sum of their totals |
| Sections.TotalReplace | src/components/RoomMeasurement.tsx:29-35 | replacing one section changes the total by exactly the difference of the two areas |
| Sections.Blank | src/components/RoomMeasurement.tsx:54-59 | a fresh section adds no area |
| Sections.AppendBlank | src/components/RoomMeasurement.tsx:52-61 | appending a section with empty dimensions under a fresh id keeps the sections sanitised with distinct ids and leaves the total unchanged |
| Sections.Edit | src/components/RoomMeasurement.tsx:68-73 | only the addressed field of the sections with that id changes, to the sanitised value; all other sections and fields are unchanged; sanitised data stays sanitised |
| Sections.EditTotal | src/components/RoomMeasurement.tsx:68-73 | with distinct ids, an edit replaces one section, and the total moves by exactly that section's change of area |
| Sections.Remove | src/components/RoomMeasurement.tsx:65 | removal drops every section with that id and keeps every other one |
| Sections.RemoveExisting | src/components/RoomMeasurement.tsx:65 | with distinct ids, removing an existing section drops exactly it and keeps the rest in order |
| Sections.RemoveTotal | src/components/RoomMeasurement.tsx:65 | removal takes off exactly the area of the removed sections |
| Sections.RemoveLeavesOne | src/components/RoomMeasurement.tsx:63-66 | with distinct ids, removing from two or more sections leaves at least one, and ids stay distinct |
| RoomMeasurement.CalculateTotal | src/components/RoomMeasurement.tsx:29-35 | for sanitised sections the total is non-negative and at least the area of each section |
| RoomMeasurement.UpdateSections | src/components/RoomMeasurement.tsx:41-50 | the new sections are stored with their recomputed total, and the photo is kept |
| RoomMeasurement.AddSection | src/components/RoomMeasurement.tsx:52-61 | one blank section "Section n+1" with the fresh id is appended; the others are unchanged and the total is recomputed |
| RoomMeasurement.RemoveSection | src/components/RoomMeasurement.tsx:63-66 | with one section left nothing changes; otherwise the section goes and the total is recomputed |
| RoomMeasurement.SectionChange | src/components/RoomMeasurement.tsx:68-74 | the edit is applied and the total is recomputed; the photo is kept |
| RoomMeasurement.ProcessFile | src/components/RoomMeasurement.tsx:76-86 | a file whose type does not start with "image/" changes nothing; an image becomes the floor photo; the measurements are untouched |
| RoomMeasurement.RemovePhoto | src/components/RoomMeasurement.tsx:93-95 | the photo is cleared and nothing else changes |
| RoomMeasurement.AddSectionConsistent | src/components/RoomMeasurement.tsx:52-61 | adding a section under a fresh id keeps the data consistent and leaves the total unchanged |
| RoomMeasurement.RemoveSectionConsistent | src/components/RoomMeasurement.tsx:63-66 | removing keeps the data consistent and never leaves the room without a section |
| RoomMeasurement.SectionChangeConsistent | src/components/RoomMeasurement.tsx:68-74 | editing a dimension keeps the data consistent |
| RoomMeasurement.PhotoChangesConsistent | src/components/RoomMeasurement.tsx:76-95 | setting or clearing the photo keeps the data consistent |
| MultiRoomMeasurement.CalculateSectionTotal | src/components/MultiRoomMeasurement.tsx:39-45 | for sanitised sections a room's total is non-negative, and positive when any of its sections has a positive area |
| MultiRoomMeasurement.GrandTotalAppend | src/components/MultiRoomMeasurement.tsx:47-49 | the grand total of two room lists is the sum of their grand totals |
| MultiRoomMeasurement.GrandTotalReplace | src/components/MultiRoomMeasurement.tsx:47-49 | replacing one room moves the grand total by exactly the change of that room's total |
| MultiRoomMeasurement.GrandTotalNonNegative | src/components/MultiRoomMeasurement.tsx:47-49 | when every room is consistent (sanitised sections, correct total) the grand total is non-negative |
| MultiRoomMeasurement.SameTotalsSameGrandTotal | src/components/MultiRoomMeasurement.tsx:47-49 | the grand total depends only on the rooms' stored totals |
| MultiRoomMeasurement.UpdateRooms | src/components/MultiRoomMeasurement.tsx:58-60 | the new rooms are stored with their recomputed grand total |
| MultiRoomMeasurement.AddRoom | src/components/MultiRoomMeasurement.tsx:62-74 | a room "<room> n+1" is appended with no photo, total 0 and one blank section "<section> 1"; the grand total is unchanged |
| MultiRoomMeasurement.RemoveRoom | src/components/MultiRoomMeasurement.tsx:76-79 | with one room left nothing changes; otherwise no remaining room has that id, every room with another id remains, the remaining rooms keep their order, and the grand total is theirs |
| MultiRoomMeasurement.RemoveRoomExisting | src/components/MultiRoomMeasurement.tsx:76-79 | with distinct ids, removing an existing room drops exactly it and keeps the rest in order |
| MultiRoomMeasurement.RemoveUnknownRoom | src/components/MultiRoomMeasurement.tsx:76-79 | removing an id no room has leaves the rooms unchanged |
| MultiRoomMeasurement.ExpandedAfterRemove | src/components/MultiRoomMeasurement.tsx:80-82 | the expanded room changes only when it was the removed one; it then becomes the first room with another id, or none when that id is empty or every room had the removed id |
| MultiRoomMeasurement.SectionChange | src/components/MultiRoomMeasurement.tsx:85-93 | only the addressed room changes: its sections are edited and its total recomputed; the grand total is the sum |
| MultiRoomMeasurement.AddSection | src/components/MultiRoomMeasurement.tsx:95-103 | the addressed room gets a blank section "<section> n+1" and its stored total is not recomputed; other rooms are unchanged |
| MultiRoomMeasurement.RemoveSection | src/components/MultiRoomMeasurement.tsx:105-113 | a room with one section, and every other room, is left alone; otherwise the section goes, that room's total is recomputed, and its id, caption and photo stay |
| MultiRoomMeasurement.PhotoChange | src/components/MultiRoomMeasurement.tsx:121-133 | a non-image file or a missing target changes nothing; otherwise only the target room's photo is set |
| MultiRoomMeasurement.RemovePhoto | src/components/MultiRoomMeasurement.tsx:135-140 | only the addressed room's photo is cleared |
| MultiRoomMeasurement.AddRoomConsistent | src/components/MultiRoomMeasurement.tsx:62-74 | adding a room under a fresh id keeps the data consistent, room ids distinct included |
| MultiRoomMeasurement.RemoveRoomConsistent | src/components/MultiRoomMeasurement.tsx:76-83 | removing keeps the data consistent: totals correct, ids distinct, and never zero rooms |
| MultiRoomMeasurement.SectionChangeConsistent | src/components/MultiRoomMeasurement.tsx:85-93 | editing a dimension keeps every room and the grand total consistent |
| MultiRoomMeasurement.SectionChangeGrandTotal | src/components/MultiRoomMeasurement.tsx:85-93 | with distinct room ids, the grand total moves by exactly the edited room's change of total |
| MultiRoomMeasurement.AddSectionConsistent | src/components/MultiRoomMeasurement.tsx:95-103 | the unrecomputed room total stays correct, since a fresh section adds no area; the grand total is unchanged |
| MultiRoomMeasurement.RemoveSectionConsistent | src/components/MultiRoomMeasurement.tsx:105-113 | removing a section keeps the data consistent and every room keeps a section |
| MultiRoomMeasurement.PhotoChangeConsistent | src/components/MultiRoomMeasurement.tsx:121-133 | setting a photo keeps the data consistent and leaves the grand total unchanged |
| MultiRoomMeasurement.RemovePhotoConsistent | src/components/MultiRoomMeasurement.tsx:135-140 | clearing a photo keeps the data consistent and leaves the grand total unchanged |
| ProjectDetails.DefaultDetails | src/components/ProjectDetailsFields.tsx:26-37 | the default form has nothing typed, nothing chosen, no surfaces and no date |
| ProjectDetails.Update | src/components/ProjectDetailsFields.tsx:49-51 | each supplied field is overwritten and each field not supplied keeps its value |
| ProjectDetails.UpdateLaws | src/components/ProjectDetailsFields.tsx:49-51 | the empty patch changes nothing; applying the same patch twice equals applying it once |
| ProjectDetails.LaterPatchWins | src/components/ProjectDetailsFields.tsx:49-51 | two updates in a row are one update by the merged patch: the later patch wins on the fields it supplies, and the earlier patch's other fields survive |
| ProjectDetails.ToggleList | src/components/ProjectDetailsFields.tsx:53-57 | a listed surface is removed wherever it occurs, and every other surface is kept in its order and as often as it occurred; an unlisted one is appended |
| ProjectDetails.ToggleSurface | src/components/ProjectDetailsFields.tsx:53-58 | only the surface list changes, and the clicked surface's membership flips |
| ProjectDetails.ToggleTwiceRestores | src/components/ProjectDetailsFields.tsx:53-57 | two clicks on an unlisted surface restore the list |
| ProjectDetails.ToggleTwiceMovesListedToEnd | src/components/ProjectDetailsFields.tsx:53-57 | two clicks on a listed surface move it to the end: ["walls","ceiling"] becomes ["ceiling","walls"] |
| ProjectDetails.SetCeilingHeight | src/components/ProjectDetailsFields.tsx:69 | the ceiling height becomes the sanitised typed value, which is numeric; nothing else changes |
| ProjectDetails.ChooseWallpaper | src/components/ProjectDetailsFields.tsx:100 | answering "no" clears the wallpaper action, "yes" keeps it; no other field changes |
| SurfaceTargetPicker.HandleToggle | src/components/SurfaceTargetPicker.tsx:23-32 | checking appends; unchecking the only target emits nothing; otherwise unchecking emits the ordered selection without that target |
| SurfaceTargetPicker.UncheckNeverEmpties | src/components/SurfaceTargetPicker.tsx:27-30 | without duplicates, an emitted selection after unchecking is never empty |
| SurfaceTargetPicker.SelectionInvariant | src/components/SurfaceTargetPicker.tsx:23-46 | under any click the checkboxes can make, a non-empty duplicate-free selection stays non-empty and duplicate-free |
| SurfaceTargetPicker.AtMostThree | src/components/SurfaceTargetPicker.tsx:4-16 | a duplicate-free selection has at most the three options |
| NcsColorPicker.FilteredColors | src/components/NCSColorPicker.tsx:18-28 | a blank query shows all colours; otherwise exactly the colours whose lower-cased code, name or category contains the lower-cased query |
| NcsColorPicker.FilteredIsOrderedSelection | src/components/NCSColorPicker.tsx:22-27 | the search result keeps the table order and lists each matching colour as often as the table does |
| NcsColorPicker.MatchesIff | src/components/NCSColorPicker.tsx:23-27 | a colour matches exactly when the query occurs at some position of one of its lower-cased fields |
| NcsColorPicker.QueryCaseInsensitive | src/components/NCSColorPicker.tsx:19-27 | queries that differ only in letter case give the same result |
| NcsColorPicker.Group | src/components/NCSColorPicker.tsx:33 | a group holds exactly the filtered colours of its category |
| NcsColorPicker.ColorsByCategory | src/components/NCSColorPicker.tsx:30-36 | there is one group per category and no other key |
| NcsColorPicker.GroupIsOrderedSelection | src/components/NCSColorPicker.tsx:30-36 | a group keeps the filtered order and each colour of its category as often as it occurs |
| NcsColorPicker.RenderedCategories | src/components/NCSColorPicker.tsx:63-65 | the drawn categories are exactly those with a non-empty group, in the order of the category list |
| NcsColorPicker.RenderedIff | src/components/NCSColorPicker.tsx:63-65 | a category is drawn exactly when some filtered colour belongs to it |
| NcsColorPicker.HandleColorClick | src/components/NCSColorPicker.tsx:38-41 | nothing is selected while disabled; otherwise the name is "NCS " followed by the code, with the colour's hex |
| NcsColorPicker.ClickIdentifiesColour | src/components/NCSColorPicker.tsx:38-41 | two enabled clicks select the same thing exactly when the colours share code and hex |
| NcsColorPicker.ToggleCategory | src/components/NCSColorPicker.tsx:43-45 | clicking the expanded category collapses it; clicking any other expands that one alone |
| NcsColorPicker.ToggleCategoryTwice | src/components/NCSColorPicker.tsx:43-45 | two clicks restore the state when that category or none was expanded, and collapse all when another was |
| ChangeWallColor.TargetsOrDefault | supabase/functions/change-wall-color/index.ts:14 | missing surface targets default to walls; given ones are used as sent |
| ChangeWallColor.KeepList | supabase/functions/change-wall-color/index.ts:31-35 | each of walls, floor and ceiling is kept exactly when not targeted, and the list ends with furniture, decorations, fixtures |
| ChangeWallColor.KeepListOrder | supabase/functions/change-wall-color/index.ts:31-35 | before the fixed three entries, the keep list is the untargeted surfaces in the order walls, floor, ceiling |
| ChangeWallColor.ShownColor | supabase/functions/change-wall-color/index.ts:37 | the prompt shows the colour name when it is non-empty, else the target colour |
| ChangeWallColor.PromptNamesColour | supabase/functions/change-wall-color/index.ts:37 | the prompt begins "Edit this image: Change ONLY the <surfaces> color to <name or target colour>" |
| ChangeWallColor.ServiceError | supabase/functions/change-wall-color/index.ts:70-90 | a failed service call maps 429 to 429, 402 to 402 and anything else to 500, always as an error |
| ChangeWallColor.ImageResult | supabase/functions/change-wall-color/index.ts:92-130 | a reply content that is not text throws while being logged and is answered 500; otherwise an image URL gives success with that URL and the content as message, and no image URL gives 500 |
| ChangeWallColor.Handle | supabase/functions/change-wall-color/index.ts:9-130 | OPTIONS gets the pre-flight answer and no call; every status is 200, 400, 402, 429 or 500; a success is 200 and follows a prompt sent |
| ChangeWallColor.MissingInputIs400 | supabase/functions/change-wall-color/index.ts:16-21 | a request without an image or a target colour gets 400, whatever the key and the service would do |
| ChangeWallColor.CompleteRequestSendsPrompt | supabase/functions/change-wall-color/index.ts:28-37 | a complete request with a key sends the prompt built from its own fields |
| ChangeWallColor.StatusMapping | supabase/functions/change-wall-color/index.ts:70-90 | through the handler, a non-OK status maps 429 to 429, 402 to 402 and others to 500 |
| ChangeWallColor.OkReplyResult | supabase/functions/change-wall-color/index.ts:92-130 | through the handler, an OK reply succeeds exactly when it carries an image URL and its content is text or absent; the URL is returned; otherwise 500 |
| ChangeWallColor.DefaultTargets | supabase/functions/change-wall-color/index.ts:14-35 | without targets, the prompt is about the walls and keeps floor, ceiling, furniture, decorations and fixtures |
| Language.Entry | src/i18n/LanguageContext.tsx:24 | a table entry is found exactly when the language and the key are present |
| Language.T | src/i18n/LanguageContext.tsx:23-26 | `t` gives the current language's text, else the English text, else the key itself |
| Language.UnknownLanguageReadsEnglish | src/i18n/LanguageContext.tsx:23-26 | a language missing from the tables reads exactly like English |
| Language.InitialLanguage | src/i18n/LanguageContext.tsx:13-16 | the start language is the saved code when it is non-empty, else Swedish, and never empty |
| Language.SetLanguage | src/i18n/LanguageContext.tsx:18-21 | the language and the stored "hemfix-lang" value become the chosen code; other stored keys stay |
| Language.ChosenLanguagePersists | src/i18n/LanguageContext.tsx:13-21 | a chosen non-empty language is the language of the next start |

## Left out

- Floating point: amounts and areas are exact reals, so IEEE-754 rounding errors (for example `0.1 + 0.2`) and `Infinity`/`NaN` inputs to `calculateQuote` are not modelled.
- Quote.CalculateQuote: `rotPercent` and the areas are taken as given and may be any real. The non-negativity results require non-negative areas and a rate in [0, 0.30].
- Numbers.ParseDecimal reads "Infinity" and "-Infinity" as 0, where `parseFloat` gives an infinity: reals have no infinity, and sanitising removes letters before any dimension is read.
- Strings.ToLower lowers A–Z and the Latin-1 capitals only. Other Unicode case mappings of `toLowerCase` are not modelled, since the colour table's codes, names and categories are ASCII.
- Rendering, JSX, CSS classes and the displayed labels and tooltips are not modelled.
- Fresh ids are parameters. The source builds them from `Date.now()` and `Math.random()`, and the consistency lemmas assume they are fresh.
- The `FileReader` result is a parameter (`dataUrl`). Reading the file, its asynchronous completion and the clearing of the file input are not modelled.
- The multi-room editor's `photoTargetRoomId` and `expandedRoom` UI states are parameters. `ExpandedAfterRemove` models the expanded-room update on removal. Not modelled: `handleAddRoom` expanding the new room (`setExpandedRoom(newRoom.id)`), the toggling on header click, and `handlePhotoUploadClick` opening the file chooser.
- The studio path's `readOnlyRooms` flag only hides buttons, so it is not modelled.
- The other radio buttons, the date picker and the text inputs of the project-details form are instances of `ProjectDetails.Update` with one supplied field; only the ceiling height and the wallpaper radio, which do more than that, have their own members.
- The NCS colour table (`src/data/ncsColors.ts`) is a parameter; only its category list is copied.
- In `change-wall-color`, several things are not modelled:
  - reading `LOVABLE_API_KEY` from the environment, which is a parameter;
  - the `fetch` call itself; its reply is a parameter;
  - the request body sent upstream, apart from the prompt;
  - logging, the CORS headers and the JSON serialisation.
- The `change-wall-color` request body is assumed to hold strings and a string list. A `surfaceTargets` that is `null` or not an array, which would throw in `join`, is not modelled.
- Exceptions in `change-wall-color` are modelled by their message only: a body that is not JSON, a failed fetch, a service reply that is not JSON, and a reply content that is not a string (whose `substring` call throws).
- The image URL of the reply is assumed to be a string or absent; a URL of another JSON type would be sent back as it is, which is not modelled.
- The translation tables (`src/i18n/translations.ts`) are a parameter, and the `LanguageCode` type is not part of this model; a language is any string.
- `useLanguage` throwing outside a provider is not modelled.
