# resumio, modelled in Dafny

resumio is a local-first resume and portfolio builder. The user edits one
resume record per named profile, the browser keeps every profile in an
IndexedDB object store, and a live preview shows the record in one of
several resume or portfolio layouts. An exported `resume.json` can be
opened in a small static viewer which checks the document, chooses a theme
and a layout, and writes the page as an escaped HTML string.

This project models the logic of that core and proves what it promises:

- `Json`, `Wrappers`, `Text`: untyped JSON, `Option`/`Result`, and the
  JavaScript string built-ins the source relies on (`trim`, `join`, the
  comparison used to sort profile ids).
- `Schema`: the resume record and its zod schema. `Valid` states the
  field constraints on a typed record. `Validate` is the parser that
  `safeParse` runs on JSON. `Encode` is the stored JSON form. Also here:
  the sample record `DefaultResume` and `migrateResumeData`.
- `Profiles`: the profile store. `ProfileStore` is a class whose map the
  save and delete methods change. `getProfile` has recovery rules. The
  sorted listing is a loop.
- `Provider`: the session state of `ProfileProvider` as the class
  `ProfileSession`. Its methods are the provider's operations, each taken
  as one atomic step.
- `ListEdit`, `Editors`: the list operations the section editors share
  (overwrite, filter out, append, move by one with two `splice` calls),
  and the nested bullet and stack edits, with the blank entries they
  append.
- `EditPage`: the edit page's reducer, its error map, the active theme,
  the design controls' nested `ui` updates and the delete guard.
- `Render`, `ClassicTemplate`, `AtsTemplate`, `SidebarTemplate`,
  `Dispatch`: the preview layouts as sequences of titled sections and text
  nodes, and the dispatch from target and template names to a layout.
- `Viewer`, `ViewerPage`: the static viewer. It covers `escapeHtml`, the
  structural check, theme and layout fallbacks, the two template-literal
  renderers, and the document state that `loadResume` changes.

Behaviour of the code worth knowing:

- `migrateResumeData` can throw: its last line is
  `resumeSchema.parse(fallback)`, which throws when the fallback record
  breaks the schema. An older record whose `ui.theme` is `""` is one
  example. `Schema.Migrate` returns a `Failure` there, and
  `Schema.MigrateEmptyLegacyThemeExample` names such an input.
- `getProfile` parses the stored record with the schema directly; it does
  not migrate it. A stored record in an older shape is therefore
  reported invalid and replaced by the sample record
  (`Profiles.SaveInvalidThenGet`).
- A record in the current shape keeps its themes and templates under
  `ui.portfolio` and `ui.resume`. The viewer reads `ui.theme` and
  `ui.template`, so it always shows an exported record with the classic
  layout and the `"corporate"` theme
  (`Viewer.ExportedRecordsUseFallbacks`, `ViewerPage.ExportedRecordLoads`).
- The edit page's own checks and the schema disagree both ways. A name
  of one space passes `min(1)` but shows "Name is required.". Blank links
  show no error but fail `.url()` (`EditPage.ErrorsAndSchemaDiffer`).

## Model

| member | source | states |
|---|---|---|
| Schema.ParsePortfolioTemplate | src/lib/schema/resume.ts:3-9 | a portfolio template string is admitted exactly when it is one of sidebar, landing, grid, modern, classic, and the parsed value names it back |
| Schema.ParseResumeTemplate | src/lib/schema/resume.ts:11 | a resume template is admitted exactly when it is classic, compact or ats |
| Schema.ParseNavLayout | src/lib/schema/resume.ts:16 | a layout is admitted exactly when it is leftNav, topNav or none |
| Schema.ParseDensity | src/lib/schema/resume.ts:23 | a density is admitted exactly when it is comfortable or compact |
| Schema.EnumNamesRoundTrip | src/lib/schema/resume.ts:3-26 | every enum value's name parses back to that value |
| Schema.DecodeString | src/lib/schema/resume.ts:29 | `z.string()` accepts exactly the JSON strings and returns the string's own text |
| Schema.DecodeNonEmpty | src/lib/schema/resume.ts:47 | `z.string().min(1)` returns only the string itself, at least one character long |
| Schema.DecodeEmail | src/lib/schema/resume.ts:49 | `.email()` returns only the string itself, shaped like an address |
| Schema.DecodeUrl | src/lib/schema/resume.ts:54 | `.url()` returns only the string itself, with a scheme |
| Schema.DecodeAll | src/lib/schema/resume.ts:58 | `z.array(item)` succeeds exactly when every element parses, and keeps each parsed element at its position |
| Schema.DecodeStrings | src/lib/schema/resume.ts:58 | a parsed skills list has no empty entry |
| Schema.DecodeBasics | src/lib/schema/resume.ts:46-52 | parsed basics satisfy the basics constraints |
| Schema.DecodeLinks | src/lib/schema/resume.ts:53-57 | parsed links are all URLs |
| Schema.DecodeExperience | src/lib/schema/resume.ts:59-67 | a parsed role has non-empty company, role, dates and bullets |
| Schema.DecodeProject | src/lib/schema/resume.ts:68-76 | a parsed project has non-empty name, description and stack entries, and URL links |
| Schema.DecodeEducation | src/lib/schema/resume.ts:77-84 | a parsed education entry has all four fields non-empty |
| Schema.DecodePortfolioUi | src/lib/schema/resume.ts:28-32 | a parsed portfolio `ui` has a non-empty theme |
| Schema.DecodeResumeUi | src/lib/schema/resume.ts:34-38 | a parsed resume `ui` has a non-empty theme |
| Schema.DecodeUi | src/lib/schema/resume.ts:40-43 | a parsed `ui` has both themes non-empty |
| Schema.Validate | src/lib/schema/resume.ts:45-88 | whatever `safeParse` accepts satisfies every field constraint, and its `ui` is the parse of the `ui` key |
| Schema.StringsRoundTrip | src/lib/schema/resume.ts:58 | a stored string list parses back to itself exactly when no entry is empty |
| Schema.BasicsRoundTrip | src/lib/schema/resume.ts:46-52 | stored basics parse back to themselves exactly when they satisfy the constraints |
| Schema.LinksRoundTrip | src/lib/schema/resume.ts:53-57 | stored links parse back exactly when all three are URLs |
| Schema.ExperienceRoundTrip | src/lib/schema/resume.ts:59-67 | a stored role parses back exactly when it is valid |
| Schema.ProjectRoundTrip | src/lib/schema/resume.ts:68-76 | a stored project parses back exactly when it is valid |
| Schema.EducationRoundTrip | src/lib/schema/resume.ts:77-84 | a stored education entry parses back exactly when it is valid |
| Schema.PortfolioOptionsRoundTrip | src/lib/schema/resume.ts:13-19 | stored portfolio options always parse back to themselves |
| Schema.ResumeOptionsRoundTrip | src/lib/schema/resume.ts:21-26 | stored resume options always parse back to themselves |
| Schema.PortfolioUiRoundTrip | src/lib/schema/resume.ts:28-32 | a stored portfolio `ui` parses back exactly when its theme is non-empty |
| Schema.ResumeUiRoundTrip | src/lib/schema/resume.ts:34-38 | a stored resume `ui` parses back exactly when its theme is non-empty |
| Schema.UiRoundTrip | src/lib/schema/resume.ts:40-43 | a stored `ui` parses back exactly when both themes are non-empty |
| Schema.DecodeAllEncodeAll | src/lib/schema/resume.ts:58-84 | a stored array parses back to the list exactly when every element is admitted |
| Schema.ExperienceListRoundTrip | src/lib/schema/resume.ts:59-67 | a stored experience list parses back exactly when every role is valid |
| Schema.ProjectListRoundTrip | src/lib/schema/resume.ts:68-76 | a stored project list parses back exactly when every project is valid |
| Schema.EducationListRoundTrip | src/lib/schema/resume.ts:77-84 | a stored education list parses back exactly when every entry is valid |
| Schema.ValidateEncode | src/lib/schema/resume.ts:45-88 | storing a record and parsing it again gives it back exactly when it satisfies the schema, and fails otherwise |
| Schema.HttpsUrl | src/lib/schema/resume.ts:101-103 | every `https://` address is accepted as a URL |
| Schema.DefaultBasicsValid | src/lib/schema/resume.ts:92-99 | the sample basics satisfy the basics constraints, the address included |
| Schema.DefaultLinksValid | src/lib/schema/resume.ts:100-104 | the sample links are URLs |
| Schema.DefaultProject1Valid | src/lib/schema/resume.ts:137-143 | the first sample project is valid |
| Schema.DefaultProject2Valid | src/lib/schema/resume.ts:144-150 | the second sample project is valid |
| Schema.DefaultListsValid | src/lib/schema/resume.ts:105-159 | the sample skills, roles and education entries are valid |
| Schema.DefaultResumeValid | src/lib/schema/resume.ts:91-179 | the sample record satisfies the schema, so building it with `parse` never throws |
| Schema.DefaultResumeRoundTrip | src/lib/schema/resume.ts:91-179 | the stored sample record parses back to itself |
| Schema.ParseLegacyUi | src/lib/schema/resume.ts:181-195 | the legacy `ui` is accepted exactly when it is an object whose `theme` and `template`, if present, are strings; the parsed theme and template are those strings, absent when the key is absent |
| Schema.LegacyTemplate | src/lib/schema/resume.ts:197-209 | a legacy template naming a portfolio template is kept; any other or missing value gives the default `sidebar` |
| Schema.LegacyTheme | src/lib/schema/resume.ts:216 | a present legacy theme is kept, even `""`; a missing one gives the default `night` |
| Schema.Migrate | src/lib/schema/resume.ts:186-229 | a record that already parses is returned as parsed; any returned record satisfies the schema; when the record does not parse, migration succeeds exactly when the fallback record parses and then returns that parse, so a failure happens exactly when both are rejected |
| Schema.ValidateUiKey | src/lib/schema/resume.ts:85 | the parsed record's `ui` is the parse of its `ui` key, and a `ui` with an empty theme fails the whole parse |
| Schema.MigrateLegacyUi | src/lib/schema/resume.ts:211-226 | a migrated record carries the legacy theme and template with the default portfolio options, and the default `ui.resume` |
| Schema.MigrateEmptyLegacyTheme | src/lib/schema/resume.ts:216-228 | a legacy theme `""` survives `??`, breaks `min(1)`, and makes migration fail |
| Schema.MigrateEmptyLegacyThemeExample | src/lib/schema/resume.ts:186-228 | `{ ui: { theme: "" } }` is an input on which migration fails |
| Schema.MigrateNonObject | src/lib/schema/resume.ts:192-228 | anything that is not an object migrates to the sample record |
| Schema.MigrateIdempotent | src/lib/schema/resume.ts:186-190 | migrating the stored form of a migrated record gives the same record |
| Text.TrimStart | src/components/ProfileProvider.tsx:109 | removes exactly a blank prefix and stops at a non-space character |
| Text.TrimEnd | src/components/ProfileProvider.tsx:109 | removes exactly a blank suffix and stops at a non-space character |
| Text.Trim | src/components/ProfileProvider.tsx:109 | `trim()` is the input with a blank prefix and a blank suffix cut off, and what is left neither starts nor ends with white space, so exactly the white space at both ends goes |
| Text.TrimEmptyIffBlank | src/components/ProfileProvider.tsx:109-112 | `!name.trim()` holds exactly for the blank names |
| Text.TrimIdempotent | src/components/ProfileProvider.tsx:109 | trimming twice is trimming once |
| Text.Join | src/components/preview/resume/ATSTemplate.tsx:92 | `join` of no elements is empty; otherwise the result starts with the first element and ends with the last |
| Text.JoinSnoc | src/components/preview/resume/ATSTemplate.tsx:92 | joining one more element adds one separator and that element at the end |
| Text.JoinConcat | src/components/preview/resume/ATSTemplate.tsx:74 | joining two non-empty lists puts exactly one separator between their joins |
| Text.LessIrreflexive | src/lib/storage/profiles.ts:75 | no id sorts before itself |
| Text.LessTransitive | src/lib/storage/profiles.ts:75 | the id order is transitive |
| Text.LessTotal | src/lib/storage/profiles.ts:75 | any two different ids are ordered one way or the other |
| Text.LessAsymmetric | src/lib/storage/profiles.ts:75 | two ids are never ordered both ways |
| Text.Least | src/lib/storage/profiles.ts:70-75 | every non-empty set of ids has a least element, the one a sort puts first |
| Profiles.GetProfile | src/lib/storage/profiles.ts:16-53 | a missing record gives the sample resume, valid, stamped now; a record the schema rejects gives the sample resume flagged invalid, keeping its timestamp when present; otherwise the parsed resume and its timestamp; the id is always the requested one |
| Profiles.GetProfileValid | src/lib/storage/profiles.ts:16-53 | whatever `getProfile` returns satisfies the schema |
| Profiles.ProfileStore.Save | src/lib/storage/profiles.ts:55-64 | the record is written under its id, replacing only that entry, and returned; the key path stays `profileId` |
| Profiles.ProfileStore.Delete | src/lib/storage/profiles.ts:78-81 | only that key is removed, if present |
| Profiles.ProfileStore.List | src/lib/storage/profiles.ts:66-76 | one item per stored record, carrying its timestamp, in ascending id order |
| Profiles.ListingDistinct | src/lib/storage/profiles.ts:66-76 | a listing names each id once |
| Profiles.EmptyListing | src/lib/storage/profiles.ts:66-76 | only the empty store has an empty listing |
| Profiles.ListingHead | src/lib/storage/profiles.ts:66-76 | two listings of one store start with the same item |
| Profiles.ListingUnique | src/lib/storage/profiles.ts:66-76 | a store has exactly one sorted listing |
| Profiles.ListedIffStored | src/lib/storage/profiles.ts:66-76 | an id is listed exactly when it is stored |
| Profiles.ListingHeadLeast | src/lib/storage/profiles.ts:66-76 | the first listed id is stored and sorts before every other stored id |
| Profiles.RestListing | src/lib/storage/profiles.ts:66-76 | the listing without its first item lists the store without its least id |
| Profiles.SaveThenGet | src/lib/storage/profiles.ts:33-64 | saving a valid resume and reading that id back returns it, flagged valid, with the saved timestamp |
| Profiles.SaveInvalidThenGet | src/lib/storage/profiles.ts:33-64 | saving a resume the schema rejects reads back as the sample resume flagged invalid, with the saved timestamp |
| Profiles.OtherIdsUnaffected | src/lib/storage/profiles.ts:16-81 | a save or delete of one id leaves what every other id reads back unchanged |
| Provider.Loaded | src/components/ProfileProvider.tsx:59-66 | `loadProfile` copies id, resume and validity, and sets both `updatedAt` and `lastSavedAt` to the profile's timestamp |
| Provider.Seeded | src/components/ProfileProvider.tsx:72-76 | a non-empty store is left alone; an empty one gets exactly the sample resume under `"default"`, which then reads back valid |
| Provider.InitialActive | src/components/ProfileProvider.tsx:78-84 | the remembered id when it is non-empty and stored, and `"default"` in every other case: nothing remembered, an empty id, or an id with no stored record |
| Provider.ProfileSession.constructor | src/components/ProfileProvider.tsx:44-51 | the initial state: no profiles, `"default"` with the sample resume, no timestamps, valid, not saving, not ready |
| Provider.ProfileSession.Refresh | src/components/ProfileProvider.tsx:53-57 | the list becomes the store's sorted listing; nothing else changes |
| Provider.ProfileSession.LoadProfile | src/components/ProfileProvider.tsx:59-66 | the session shows what `getProfile` returns for the id; the list and the remembered id stay |
| Provider.ProfileSession.SetActiveProfile | src/components/ProfileProvider.tsx:97-105 | loads the profile and remembers it as active |
| Provider.ProfileSession.SeedIfEmpty | src/components/ProfileProvider.tsx:70-76 | the store becomes its seeded form and the list mirrors it |
| Provider.ProfileSession.ActivateStored | src/components/ProfileProvider.tsx:78-91 | the active id is the choice above; it is remembered and loaded, and the session becomes ready |
| Provider.ProfileSession.Init | src/components/ProfileProvider.tsx:68-95 | the start-up effect: seeding, then the choice, remembering and loading of the active id; the list mirrors the store |
| Provider.ProfileSession.CreateProfile | src/components/ProfileProvider.tsx:107-123 | a blank name gives "Profile name is required." and an existing one "Profile already exists.", both changing nothing; otherwise the sample resume is stored under the trimmed name, listed, and made active |
| Provider.ProfileSession.AddDefaultProfile | src/components/ProfileProvider.tsx:116-120 | the success path: the store gains exactly the new entry, and the session shows it, valid and stamped now |
| Provider.ProfileSession.DeleteProfile | src/components/ProfileProvider.tsx:125-143 | `"default"` is never deleted; otherwise only that key goes. Deleting another profile keeps the session. Deleting the active one switches to `"default"` when stored, otherwise to the least stored id, otherwise stays |
| Provider.ProfileSession.ResetProfile | src/components/ProfileProvider.tsx:145-153 | the session and the store entry of the active id become the sample resume, valid, stamped now |
| Provider.ProfileSession.UpdateResume | src/components/ProfileProvider.tsx:155-157 | only the session's resume changes |
| Provider.ProfileSession.SaveActiveProfile | src/components/ProfileProvider.tsx:159-174 | the given resume, or the session's, is stored under the active id and both timestamps become now; a failed write changes neither; `saving` is false afterwards either way; a valid payload reads back as saved |
| ListEdit.UpdateItem | src/components/editor/ExperienceEditor.tsx:20-24 | the list keeps its length, position `index` holds the new item, and every other position is unchanged (also `updateSkill` and the other editors' `updateItem`) |
| ListEdit.RemoveAt | src/components/editor/ExperienceEditor.tsx:26-28 | an in-range position is dropped and the rest kept in order; an out-of-range index keeps the list (also `removeSkill` and the other `removeItem`s) |
| ListEdit.RemoveAtShifts | src/components/editor/ExperienceEditor.tsx:26-28 | removal shortens the list by one and shifts every later entry down by one |
| ListEdit.RemoveAtMultiset | src/components/editor/ExperienceEditor.tsx:26-28 | removal takes exactly that one entry out of the multiset |
| ListEdit.Appended | src/components/editor/ExperienceEditor.tsx:30-32 | the spread append keeps the prefix and adds the item at the end |
| ListEdit.InsertAt | src/components/editor/ExperienceEditor.tsx:41 | `splice(k, 0, item)` puts the item at `k` and moves later entries up by one |
| ListEdit.Moved | src/components/editor/ExperienceEditor.tsx:34-43 | a move whose target lies outside the list changes nothing |
| ListEdit.MovedSwaps | src/components/editor/ExperienceEditor.tsx:39-42 | an in-range one-step move exchanges the entry with its neighbour and touches nothing else |
| ListEdit.MovedPermutes | src/components/editor/ExperienceEditor.tsx:34-43 | a move never adds, loses or duplicates an entry |
| ListEdit.MoveThenBack | src/components/editor/ExperienceEditor.tsx:34-43 | moving one step and then back restores the list |
| ListEdit.MoveItem | src/components/editor/ExperienceEditor.tsx:34-43 | `moveItem` on a copied array gives the move above, a permutation of the same length |
| Editors.AddExperience | src/components/editor/ExperienceEditor.tsx:8-32 | one blank role, with a single blank bullet, after the unchanged roles |
| Editors.AddProject | src/components/editor/ProjectsEditor.tsx:8-29 | one blank project, with a single blank stack entry, after the unchanged projects |
| Editors.AddEducation | src/components/editor/EducationEditor.tsx:8-28 | one entry with all four fields blank, after the unchanged entries |
| Editors.AddSkill | src/components/editor/SkillsEditor.tsx:13-15 | one blank skill after the unchanged skills |
| Editors.AddedEntriesInvalid | src/components/editor/ExperienceEditor.tsx:8-14 | every blank entry an editor appends breaks the schema |
| Editors.UpdateBullet | src/components/editor/ExperienceEditor.tsx:45-50 | only one bullet of one role changes, to the new value |
| Editors.AddBullet | src/components/editor/ExperienceEditor.tsx:52-55 | one role gains a blank last bullet; nothing else changes |
| Editors.RemoveBullet | src/components/editor/ExperienceEditor.tsx:57-61 | one role loses that bullet position, or nothing if out of range; nothing else changes |
| Editors.UpdateStack | src/components/editor/ProjectsEditor.tsx:42-47 | only one stack entry of one project changes, to the new value |
| Editors.AddStack | src/components/editor/ProjectsEditor.tsx:49-52 | one project gains a blank last stack entry; nothing else changes |
| Editors.RemoveStack | src/components/editor/ProjectsEditor.tsx:54-58 | one project loses that stack position, or nothing if out of range; nothing else changes |
| EditPage.Reduce | src/app/edit/page.tsx:20-29 | `set` gives the payload, `update` applies the updater, any other action keeps the state |
| EditPage.SetOverrides | src/app/edit/page.tsx:20-29 | a `set` forgets every earlier action |
| EditPage.UpdatesCompose | src/app/edit/page.tsx:20-29 | two updates equal one update running both in order |
| EditPage.IsValidUrl | src/app/edit/page.tsx:36-46 | blank text is accepted; anything else must parse as a URL |
| EditPage.UrlCheckWeakerThanSchema | src/app/edit/page.tsx:36-46 | every URL the schema accepts the page accepts, and blank text only the page accepts |
| EditPage.Errors | src/app/edit/page.tsx:48-70 | name and title have an error exactly when blank; each link has one exactly when it fails the URL check |
| EditPage.ValidateResume | src/app/edit/page.tsx:48-70 | the error objects built field by field are the error map above |
| EditPage.ErrorsReadOnlyNameTitleLinks | src/app/edit/page.tsx:48-70 | email, location, summary and the lists never produce an error |
| EditPage.ValidHasNoLinkErrors | src/app/edit/page.tsx:59-67 | a schema-valid record shows no link error |
| EditPage.ErrorsAndSchemaDiffer | src/app/edit/page.tsx:52-60 | a name of one space passes the schema but shows an error; a blank GitHub link shows no error but fails the schema |
| EditPage.ActiveTheme | src/app/edit/page.tsx:116-120 | the resume theme for the resume target, the portfolio theme otherwise |
| EditPage.PortfolioOptionsOrEmpty | src/app/edit/page.tsx:377-378 | spreading absent portfolio options gives no keys |
| EditPage.ResumeOptionsOrEmpty | src/app/edit/page.tsx:503-504 | spreading absent resume options gives no keys |
| EditPage.SetPortfolioTemplate | src/app/edit/page.tsx:313-327 | only `ui.portfolio.template` changes |
| EditPage.SetPortfolioTheme | src/app/edit/page.tsx:343-353 | only `ui.portfolio.theme` changes |
| EditPage.SetPortfolioLayout | src/app/edit/page.tsx:370-386 | only `ui.portfolio.options.layout` is set; the other options are kept and absent options are created |
| EditPage.SetPortfolioShowPhoto | src/app/edit/page.tsx:400-413 | only `ui.portfolio.options.showPhoto` is set; the other options are kept |
| EditPage.SetResumeTemplate | src/app/edit/page.tsx:443-456 | only `ui.resume.template` changes |
| EditPage.SetResumeTheme | src/app/edit/page.tsx:469-479 | only `ui.resume.theme` changes |
| EditPage.SetResumeDensity | src/app/edit/page.tsx:496-511 | only `ui.resume.options.density` is set; `showIcons` is kept |
| EditPage.SetResumeShowIcons | src/app/edit/page.tsx:524-537 | only `ui.resume.options.showIcons` is set; `density` is kept |
| EditPage.DesignControlsKeepValid | src/app/edit/page.tsx:313-537 | every design control keeps a valid record valid, and a theme select does so exactly when the theme is non-empty |
| EditPage.KeepsValid | src/app/edit/page.tsx:313-537 | for a record with the same content as a valid one, validity is decided by the two themes |
| EditPage.ThemeSelectShowsTheme | src/app/edit/page.tsx:116-120 | the preview shell uses the theme just selected for its target, and the other target's theme is unchanged |
| EditPage.DeleteRequest | src/app/edit/page.tsx:183-189 | the delete button asks to delete the active id, and nothing when it is `"default"` |
| Render.Titles | src/components/preview/resume/ClassicTemplate.tsx:28-111 | the section titles, in page order |
| Render.Bullets | src/components/preview/resume/ClassicTemplate.tsx:55-57 | one bullet per string, in order |
| Render.BadgeNodes | src/components/preview/resume/ClassicTemplate.tsx:81-85 | one badge per string, in order |
| Render.DateRange | src/components/preview/resume/ClassicTemplate.tsx:51 | the start date, `" - "`, then the end date |
| Render.LineRole | src/components/preview/resume/ATSTemplate.tsx:37-53 | a role shows title, company and dates as plain lines, then every bullet in order; the sidebar portfolio layout writes its roles the same way (SidebarTemplate.tsx:115-132) |
| Render.EntriesOr | src/components/preview/resume/ClassicTemplate.tsx:34-62 | the placeholder exactly for an empty list, and otherwise one entry per element in stored order |
| Render.BadgesOr | src/components/preview/resume/ClassicTemplate.tsx:95-107 | the placeholder exactly for an empty list, and otherwise the labels in order |
| ClassicTemplate.Tight | src/components/preview/resume/ClassicTemplate.tsx:10-11 | tight exactly when the density is compact; an absent density is comfortable |
| ClassicTemplate.SpacingFor | src/components/preview/resume/ClassicTemplate.tsx:27-110 | `mt-4` with gaps 4 and 3 when tight, `mt-6` with gaps 5 and 4 otherwise |
| ClassicTemplate.Role | src/components/preview/resume/ClassicTemplate.tsx:40-60 | a role shows its title, company and dates, then every bullet in order |
| ClassicTemplate.ProjectEntry | src/components/preview/resume/ClassicTemplate.tsx:73-88 | a project shows name, description and one badge per stack entry in order |
| ClassicTemplate.EducationEntry | src/components/preview/resume/ClassicTemplate.tsx:118-130 | an education entry shows the school as a heading, then the program, then the date range |
| ClassicTemplate.Template | src/components/preview/resume/ClassicTemplate.tsx:10-136 | header of name, title, location, email and website; Summary, Experience, Projects, Skills and Education in that order, each list shown as entries or its exact placeholder; spacing from the density |
| ClassicTemplate.DensityOnlySpacing | src/components/preview/resume/ClassicTemplate.tsx:27-133 | density changes the spacing and nothing else |
| ClassicTemplate.CompactLayout | src/components/preview/resume/CompactTemplate.tsx:8-10 | the compact layout is the classic one at compact density, and at no other |
| ClassicTemplate.CompactIgnoresOptions | src/components/preview/resume/CompactTemplate.tsx:8-10 | the compact layout ignores the record's own options |
| AtsTemplate.StackLine | src/components/preview/resume/ATSTemplate.tsx:73-75 | `"Stack: "` followed by the stack joined with `", "` |
| AtsTemplate.EmptyStackLine | src/components/preview/resume/ATSTemplate.tsx:73-75 | an empty stack still shows `"Stack: "` |
| AtsTemplate.ProjectEntry | src/components/preview/resume/ATSTemplate.tsx:69-77 | a project shows exactly three lines: its name, its description and its stack line |
| AtsTemplate.EducationEntry | src/components/preview/resume/ATSTemplate.tsx:107-115 | an education entry shows exactly three lines: school, program and the date range |
| AtsTemplate.SkillsBlock | src/components/preview/resume/ATSTemplate.tsx:86-94 | the placeholder exactly for an empty skills list, and otherwise one paragraph of the skills joined with `", "` |
| AtsTemplate.Template | src/components/preview/resume/ATSTemplate.tsx:7-121 | header with the contact line `location \| email \| website`; the five sections in order, lists as entries or their exact placeholder; skills as one comma-joined paragraph; no badges anywhere |
| AtsTemplate.TemplateIgnoresUiAndOtherLinks | src/components/preview/resume/ATSTemplate.tsx:7-121 | the layout reads neither `ui`, nor GitHub and LinkedIn, nor any project URL |
| SidebarTemplate.ProjectCard | src/components/preview/portfolio/SidebarTemplate.tsx:74-99 | name, a "Featured" badge, description, stack badges in order, and the repository URL |
| SidebarTemplate.Template | src/components/preview/portfolio/SidebarTemplate.tsx:7-140 | Profile, Contact (email, website, GitHub, LinkedIn in that order), Skills, About, Projects and Experience, with their exact placeholders for empty lists |
| SidebarTemplate.IgnoresEducationAndLiveUrl | src/components/preview/portfolio/SidebarTemplate.tsx:7-140 | neither education, nor any `liveUrl`, nor `ui` reaches the page |
| Dispatch.ResumeDensity | src/components/preview/ResumeRenderer.tsx:11 | the record's density when present, otherwise comfortable |
| Dispatch.ResumeLayoutFor | src/components/preview/ResumeRenderer.tsx:13-21 | compact and ats pick their layouts; every other name picks classic with the density |
| Dispatch.PortfolioLayoutFor | src/components/preview/PortfolioRenderer.tsx:5-23 | only `"sidebar"` picks the sidebar layout; a blank name falls back to `"modern"` and every other name gives the Modern layout |
| Dispatch.ResumeRenderer | src/components/preview/ResumeRenderer.tsx:10-22 | the record goes unchanged to the layout its resume template and density choose |
| Dispatch.PortfolioRenderer | src/components/preview/PortfolioRenderer.tsx:11-24 | the record goes unchanged to the layout its portfolio template chooses |
| Dispatch.Preview | src/components/ResumePreview.tsx:10-15 | the resume target uses the resume renderer, the other target the portfolio renderer, with the record unchanged |
| Dispatch.ResumeTemplates | src/components/preview/ResumeRenderer.tsx:13-21 | compact, ats and classic map to their layouts; ats ignores density |
| Dispatch.PortfolioTemplates | src/components/preview/PortfolioRenderer.tsx:12-23 | sidebar exactly picks the sidebar layout, every other template the Modern one, and so does a blank name |
| Dispatch.LayoutDependsOnlyOnItsSettings | src/components/ResumePreview.tsx:10-15 | the resume layout depends only on `ui.resume`, the portfolio layout only on `ui.portfolio.template` |
| Dispatch.PageOf | src/components/preview/ResumeRenderer.tsx:13-21 | every layout but Modern has a modelled page |
| Dispatch.ClassicCompactIsCompact | src/components/preview/resume/CompactTemplate.tsx:8-10 | template classic at compact density shows exactly what template compact shows |
| Viewer.ReplaceAll | public/viewer-dist/assets/app.js:12 | text without the pattern character is left as it is |
| Viewer.ReplaceAllConcat | public/viewer-dist/assets/app.js:12-16 | one `replaceAll` pass distributes over concatenation |
| Viewer.ReplaceAllSingle | public/viewer-dist/assets/app.js:12-16 | on one character, a pass gives the replacement or the character itself |
| Viewer.EscapeHtmlConcat | public/viewer-dist/assets/app.js:10-16 | the five passes together distribute over concatenation |
| Viewer.EscapeHtmlChar | public/viewer-dist/assets/app.js:10-16 | one character escapes to its own entity, or to itself |
| Viewer.EscapeHtmlIsPerCharacter | public/viewer-dist/assets/app.js:11-16 | because `&` is replaced first, nothing is escaped twice: escaping equals the per-character mapping |
| Viewer.EscapeEachFacts | public/viewer-dist/assets/app.js:11-16 | the per-character mapping yields no markup character, and leaves text without special characters alone |
| Viewer.EscapedHasNoMarkupChars | public/viewer-dist/assets/app.js:10-16 | escaped text contains no `<`, `>`, `"` or `'` |
| Viewer.EscapeIdentity | public/viewer-dist/assets/app.js:11-16 | text without any of the five special characters is unchanged |
| Viewer.UnescapeStep | public/viewer-dist/assets/app.js:11-16 | decoding an entity gives back its character |
| Viewer.UnescapeEscape | public/viewer-dist/assets/app.js:10-16 | escaping loses nothing: decoding the entities gives the text back |
| Viewer.IsNonEmptyStringTrims | public/viewer-dist/assets/app.js:18-19 | holds exactly for strings whose trimmed length is positive |
| Viewer.Checks | public/viewer-dist/assets/app.js:21-50 | the nine checks, one per early return |
| Viewer.ValidateResume | public/viewer-dist/assets/app.js:21-50 | `null` exactly when no check fails, otherwise the message of the first failing one |
| Viewer.FirstFailureFindsFirst | public/viewer-dist/assets/app.js:21-50 | nothing is reported exactly when every check holds; otherwise the reported message is that of a failing check with every earlier check holding |
| Viewer.ValidateIsFirstFailure | public/viewer-dist/assets/app.js:21-50 | the check reports the first failure in the fixed order object, basics, name, title, links, skills, experience, projects, education |
| Viewer.ReportedIsFirstFailure | public/viewer-dist/assets/app.js:21-50 | the chain of early returns is the first failure over the problems in order |
| Viewer.FirstFailureChain | public/viewer-dist/assets/app.js:21-50 | the first failure among nine checks is the nine-step `if` chain |
| Viewer.FirstFailureStep | public/viewer-dist/assets/app.js:21-50 | one step of the early returns |
| Viewer.ExportedRecordsPass | public/viewer-dist/assets/app.js:21-50 | every record the editor exports with a non-blank name and title passes the viewer's check |
| Viewer.PassesAllChecks | public/viewer-dist/assets/app.js:21-50 | a document meeting all nine conditions gets no message |
| Viewer.EncodedSections | public/viewer-dist/assets/app.js:21-50 | the sections of an exported record sit under the keys the viewer reads |
| Viewer.ThemeChoice | public/viewer-dist/assets/app.js:314 | a non-empty `ui.theme` string is kept, and a missing or empty one gives `"corporate"`; the choice is always truthy, so `setTheme` always applies it |
| Viewer.TemplateChoice | public/viewer-dist/assets/app.js:293-296 | the modern layout exactly when `ui.template` is `"modern"` |
| Viewer.ExportedRecordsUseFallbacks | public/viewer-dist/assets/app.js:293-314 | an exported record is shown with the classic layout and the `"corporate"` theme |
| ViewerPage.Cat | public/viewer-dist/assets/app.js:86-92 | splicing keeps the values of both fragments in order |
| ViewerPage.MarkupConcat | public/viewer-dist/assets/app.js:52-158 | the fixed markup of two string lists concatenates |
| ViewerPage.InterpolateCat | public/viewer-dist/assets/app.js:86-92 | nested `join("")` output lands between the outer literal's strings: evaluation distributes over splicing |
| ViewerPage.InterpolateCatFixed | public/viewer-dist/assets/app.js:52-158 | splicing after fixed markup prefixes that markup |
| ViewerPage.HtmlCat | public/viewer-dist/assets/app.js:52-158 | the escaped page of a splice is the concatenation of the two escaped pages |
| ViewerPage.CatStep | public/viewer-dist/assets/app.js:52-158 | splicing after a fragment with a value keeps that value first |
| ViewerPage.MarkupCat | public/viewer-dist/assets/app.js:52-158 | splicing keeps the fixed markup of both fragments, in order |
| ViewerPage.CountConcat | public/viewer-dist/assets/app.js:52-158 | character counts add over concatenation |
| ViewerPage.CountAbsent | public/viewer-dist/assets/app.js:52-158 | text without a character counts none of it |
| ViewerPage.NoInjection | public/viewer-dist/assets/app.js:52-291 | every `<`, `>`, `"` and `'` on a page comes from the template itself; user values contribute none |
| ViewerPage.NatString | public/viewer-dist/assets/app.js:11 | a natural number prints as decimal digits |
| ViewerPage.ValueString | public/viewer-dist/assets/app.js:11 | `String(v)`: a string is itself, `null` is `"null"`, a number its digits |
| ViewerPage.Prop | public/viewer-dist/assets/app.js:55-65 | a missing property prints `"undefined"`, a string property itself |
| ViewerPage.Items | public/viewer-dist/assets/app.js:73-74 | the elements of an array member, and none otherwise |
| ViewerPage.ValueStrings | public/viewer-dist/assets/app.js:125-132 | `String` of each element, in order |
| ViewerPage.Each | public/viewer-dist/assets/app.js:72-98 | `map(f).join("")` succeeds exactly when the callback succeeds on every element |
| ViewerPage.MapJoin | public/viewer-dist/assets/app.js:89-91 | `map` on anything but an array throws |
| ViewerPage.EachValues | public/viewer-dist/assets/app.js:72-98 | the values a `map(...).join("")` interpolates are each entry's, in stored order |
| ViewerPage.FlatSingle | public/viewer-dist/assets/app.js:125-132 | one value per element for callbacks that show the element itself |
| ViewerPage.FlatEncoded | public/viewer-dist/assets/app.js:72-155 | entries of an exported list show what the typed entries hold |
| ViewerPage.ValueStringsEncoded | public/viewer-dist/assets/app.js:125-132 | an exported string list prints as itself |
| ViewerPage.ItemValues | public/viewer-dist/assets/app.js:125-132 | a badge or bullet list shows each element, in order |
| ViewerPage.MapEntries | public/viewer-dist/assets/app.js:72-98 | a list succeeds exactly when every element is admitted, and then shows each entry's values in order |
| ViewerPage.Bullet | public/viewer-dist/assets/app.js:89-91 | a bullet shows exactly that bullet |
| ViewerPage.Badge | public/viewer-dist/assets/app.js:125-132 | a badge shows exactly that skill or stack entry |
| ViewerPage.RoleEntry | public/viewer-dist/assets/app.js:72-98 | a role renders exactly when it holds an array of bullets, and shows title, company, dates and bullets |
| ViewerPage.ClassicRole | public/viewer-dist/assets/app.js:72-98 | the classic role entry, as above |
| ViewerPage.ModernRole | public/viewer-dist/assets/app.js:256-287 | the modern role entry, as above |
| ViewerPage.ClassicProject | public/viewer-dist/assets/app.js:100-123 | a project renders exactly when it holds an array stack, and shows name, description and stack |
| ViewerPage.ModernProject | public/viewer-dist/assets/app.js:221-254 | a modern card also shows the repository and live URLs |
| ViewerPage.EducationEntry | public/viewer-dist/assets/app.js:134-155 | an education entry renders unless it is `null`, and shows school, program and dates |
| ViewerPage.ClassicEducation | public/viewer-dist/assets/app.js:134-155 | the classic education entry, as above |
| ViewerPage.ModernEducation | public/viewer-dist/assets/app.js:193-210 | the modern education entry, as above |
| ViewerPage.ClassicHead | public/viewer-dist/assets/app.js:55-72 | the classic header shows name, title, location, email, website and summary |
| ViewerPage.ClassicPage | public/viewer-dist/assets/app.js:52-158 | the classic page shows the header, then the experience, projects, skills and education entries |
| ViewerPage.RenderClassic | public/viewer-dist/assets/app.js:52-158 | throws exactly when `basics` or `links` is missing or `null`, a section is not an array, a role or project lacks its array, or an education entry is `null`; otherwise shows every field in page order, each list in stored order |
| ViewerPage.ClassicMarkup | public/viewer-dist/assets/app.js:52-158 | over readable sections, the classic literal fails exactly on an entry its callback cannot read, and otherwise shows the classic texts |
| ViewerPage.ModernHead | public/viewer-dist/assets/app.js:163-184 | the aside shows name, title, location, email, website, GitHub and LinkedIn |
| ViewerPage.ModernAbout | public/viewer-dist/assets/app.js:211-221 | About shows the summary |
| ViewerPage.ModernPage | public/viewer-dist/assets/app.js:160-291 | the modern page shows head, skills, education, about, projects and experience, in that order |
| ViewerPage.RenderModern | public/viewer-dist/assets/app.js:160-291 | throws on exactly the records the classic renderer throws on; otherwise shows every field in page order |
| ViewerPage.Loaded | public/viewer-dist/assets/app.js:298-323 | no document gives the load-failure alert; a rejected one its message in an alert; an accepted one that a renderer throws on the load-failure alert again; otherwise the chosen page with the record's texts |
| ViewerPage.ModernMarkup | public/viewer-dist/assets/app.js:160-291 | over readable sections, the modern literal fails exactly on an entry its callback cannot read, and otherwise shows the modern texts |
| ViewerPage.PageFor | public/viewer-dist/assets/app.js:293-296 | the modern page for `ui.template === "modern"`, the classic one otherwise |
| ViewerPage.ErrorAlert | public/viewer-dist/assets/app.js:307-311 | the alert shows exactly the message |
| ViewerPage.Document.constructor | public/viewer-dist/assets/app.js:1 | the app is empty and no theme is set |
| ViewerPage.Document.SetTheme | public/viewer-dist/assets/app.js:4-8 | a truthy theme sets `data-theme`; a falsy one leaves it; the app is untouched |
| ViewerPage.Document.Render | public/viewer-dist/assets/app.js:293-296 | throws exactly when the record cannot be rendered; otherwise the app holds the escaped chosen page |
| ViewerPage.Document.LoadResume | public/viewer-dist/assets/app.js:298-323 | a failed fetch or a throwing renderer shows the load-failure alert, a rejected document its message; an accepted one sets the chosen theme and shows its page |
| ViewerPage.EncodedRole | public/viewer-dist/assets/app.js:72-98 | an exported role holds its bullets and shows its fields |
| ViewerPage.EncodedProject | public/viewer-dist/assets/app.js:100-123 | an exported project holds its stack and shows its fields in both layouts |
| ViewerPage.EncodedEducation | public/viewer-dist/assets/app.js:134-155 | an exported education entry is not `null` and shows its fields |
| ViewerPage.EncodedLists | public/viewer-dist/assets/app.js:52-158 | an exported record's lists and classic header fields are where the renderer reads them |
| ViewerPage.EncodedModernHeader | public/viewer-dist/assets/app.js:163-219 | an exported record's modern header fields and summary are where the renderer reads them |
| ViewerPage.ModernTextsOfEncodedSections | public/viewer-dist/assets/app.js:160-291 | a document whose sections are an exported record's shows that record's modern texts |
| ViewerPage.TextsOfEncodedSections | public/viewer-dist/assets/app.js:52-158 | a document whose sections are an exported record's renders and shows that record's classic texts |
| ViewerPage.ExportedRecordRenders | public/viewer-dist/assets/app.js:52-291 | an exported record renders without throwing, and each layout shows every field it lists, each list in stored order |
| ViewerPage.ExportedRecordLoads | public/viewer-dist/assets/app.js:298-323 | loading an exported record with a name and title shows the classic page with all its fields and sets `"corporate"` |

## Left out

- IndexedDB, the `idb` library and its object-store set-up: the store is a map field; `db.put` and `db.delete` are taken to succeed, except where `SaveActiveProfile` models a failed write.
- `window.localStorage`: the remembered active id is the field `activeKey`.
- `async`/`await` ordering, React effects, state batching and the 500 ms debounced autosave: each provider operation is one atomic step.
- Timestamps from `new Date().toISOString()`: they are the caller's `now` parameter.
- Provider.ProfileSession.Init: seeding and loading use the same `now`, where the source takes two timestamps.
- Provider.ProfileSession.ResetProfile: the refreshed list is stated as the store's listing only; the save is taken to succeed.
- zod's `.email()` and `.url()` and WHATWG URL parsing are library code: `IsEmailLike` and `UrlParses` are stated approximations, not the library grammars.
- `localeCompare` collation: profile ids are ordered by code point.
- `trim()` uses the ECMAScript white-space set; no Unicode normalisation or case folding is modelled.
- JSON numbers are integers; fractions, exponents and signed zero are not modelled.
- JSX markup and CSS classes: the preview layouts are sections of text nodes, and only the density-dependent spacing is kept.
- The viewer's class attributes and white space: its fixed strings keep the tags only.
- The Modern portfolio layout (`@/components/preview/portfolio/ModernTemplate`) is not part of this model; it is the opaque tag `ModernLayout`.
- The legacy preview renderer and its layouts, `src/components/preview/PreviewRenderer.tsx`, are not part of this model.
- BasicsEditor and LinksEditor: each field edit is a record update passed to the reducer's `update` action, whose properties `EditPage.Reduce` states.
- The edit page's section `onChange` handlers: they are `update` actions replacing one section, as above.
- The edit page's "last saved" label, the invalid-data banner and the reset button's own state.
- The print button, `window.print` and the DOM beyond `#app`'s HTML and the root's `data-theme`.
- `fetch` and `response.json()`: the outcome is the `fetched` parameter of `LoadResume`, with None standing for a failed fetch, a non-ok response or unparsable JSON.
- The export pages, the JSZip packaging and `Blob` downloads.
- The remaining pages and components have no logic beyond markup: the top navigation, the layouts, the home, export and preview pages, and `SectionCard`.
- JavaScript array writes and `splice` are modelled for in-range indices only: `UpdateItem`, `UpdateBullet` and `UpdateStack` require the index to exist, as every caller passes the index of a displayed entry.
