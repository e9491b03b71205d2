# typegen-ui, modelled in Dafny

typegen-ui is the browser front end of a code generator. The user picks a
database connection and some tables, then a target language (Java,
TypeScript or C#) and a variant of it (DTO, record, interface, zod
schema, …). The user tunes that variant's advanced options, prefix and
suffix, and asks the back end to generate types or MyBatis mappers.

This project models the logic of that front end and proves what it
promises:

- **Generator settings.** The per-language, per-variant option tables and
  their defaults (`generator_types.dfy`). The settings store that
  reconciles what was persisted with the defaults and offers update, get
  and reset operations (`generator_settings.dfy`).
- **Dialogs and summaries.** The additional-options dialog
  (`options_modal.dfy`) and the configuration summary chips
  (`config_summary.dfy`).
- **Recent actions.** The command palette's recent-actions list
  (`recent_actions.dfy`).
- **Pages.** The generator page and its table picker (`generator_page.dfy`,
  `table_selector.dfy`). The mapper page with its CRUD switches and
  PascalCase file name (`mapper_page.dfy`). The connection lookup they
  share (`connections.dfy`).
- **Keyboard shortcuts.** The first-match dispatch of shortcuts
  (`keyboard_shortcuts.dfy`).
- **Dashboard.** The counters and uptime text (`dashboard.dfy`).
- **Connection form.** Validation, default ports and the test precheck
  (`connection_form.dfy`).

`seqs.dfy` and `text.dfy` hold the sequence and string helpers the rest
relies on: filter, subsequence, ASCII case mapping, JavaScript `trim`,
substring search and decimal rendering.

**Form of the model.** Pure code is modelled as datatypes, functions and
lemmas. Code that keeps React state is modelled as a class with one field
per state cell:

- the settings store;
- the recent-actions store;
- the two pages;
- the options dialog;
- the connection form.

Each method's postcondition ties the new state to a function of the old
state. The properties are proved about those functions. Three loops are
methods with invariants, each proved equal to its specification function:

- the settings reconciliation, `ensureLanguageSettings`
  (`SettingsStore.EnsureLanguageSettings`);
- the options dialog's `forEach` over the label keys
  (`OptionsModal.BuildLocalOptions`);
- the keydown dispatch (`KeyboardShortcuts.HandleKeyDown`).

**Storage.** Browser storage and JSON parsing are replaced by a value
with three cases: nothing stored, unreadable, or parsed into optional
fields.

**Where the intended behaviour and the code part ways, this model follows
the code.** Both cases are about loading persisted settings:

- Option keys that no longer belong to a variant are meant to be dropped
  on load. In the code, a persisted `advancedOptions` record replaces the
  default record wholesale, so such keys survive a reload
  (`SettingsStore.StaleOptionRetained`).
- Loaded option keys are meant to be laid over the default option keys one
  by one, so that a default key the persisted record lacks keeps its
  default value. In the code, the same wholesale replacement drops that
  key (`SettingsStore.DefaultOptionDroppedOnLoad`).

An update, by contrast, is meant to replace the option record wholesale,
and the code's `updateTypeConfig` does so (`SettingsStore.MergeLaws`).

## Model

| member | source | states |
|---|---|---|
| GeneratorTypes.OptionLabels | src/types/generator.types.ts:222-251 | every (language, variant) pair has a non-empty label table, and no table holds a key outside the known option set |
| GeneratorTypes.LabelFallback | src/types/generator.types.ts:222-251 | Java and C# fall back to the class labels for any variant but record; TypeScript uses the zod table exactly for zod and the class table for any unlisted variant |
| GeneratorTypes.DefaultFallback | src/types/generator.types.ts:256-340 | the defaults fall back the same way: Java and C# non-record variants get the class defaults, and TypeScript variants other than zod and type get the interface defaults |
| GeneratorTypes.JavaDefaultsMatchLabels | src/types/generator.types.ts:134-152 | for every Java variant, the default map has exactly the keys of the label table |
| GeneratorTypes.TypeScriptDefaultsMatchLabels | src/types/generator.types.ts:154-202 | for every TypeScript variant, the default map has exactly the keys of the label table |
| GeneratorTypes.DefaultsMatchLabels | src/types/generator.types.ts:256-319 | for Java and TypeScript, the default keys and the label keys coincide |
| GeneratorTypes.CSharpSpacingKeyMismatch | src/types/generator.types.ts:204-220 | the C# defaults name spacing `addSpaceFormatting`, the C# labels name it `extraSpacing`; apart from that key the two key sets are equal |
| GeneratorTypes.CSharpRecordSpacing | src/types/generator.types.ts:323-330 | the C# record defaults and labels differ only in the spacing key |
| GeneratorTypes.CSharpClassSpacing | src/types/generator.types.ts:332-339 | the C# class defaults and labels differ only in the spacing key |
| GeneratorTypes.UnknownKeyInNoTable | src/types/generator.types.ts:134-340 | a key whose spelling is none of the known option keys is in no label table and no default map |
| GeneratorTypes.KnownKeyNamesSpelled | src/types/generator.types.ts:134-340 | the known key spellings are exactly the spellings of the named keys, so a canonical catch-all key never aliases one of them |
| GeneratorTypes.LabelTableSizes | src/types/generator.types.ts:134-220 | no label table has more than ten options |
| GeneratorTypes.DefaultTrueOptions | src/types/generator.types.ts:256-340 | the options switched on by default, per (language, variant) pair |
| GeneratorTypes.JavaRecordDefaultKeys | src/types/generator.types.ts:262-267 | the Java record defaults: their keys, and only Swagger on |
| GeneratorTypes.TypeScriptTypeDefaultKeys | src/types/generator.types.ts:296-318 | the TypeScript type-alias defaults equal the interface defaults |
| GeneratorTypes.DefaultTypeConfig | src/types/generator.types.ts:366-372 | a fresh config has an empty prefix and suffix and the variant's default options |
| GeneratorTypes.TypeConfigKey | src/types/generator.types.ts:362-364 | the key is the language name, a hyphen, then the variant name |
| GeneratorTypes.TypeNameInjective | src/types/generator.types.ts:4-8 | two variants with the same spelling are the same variant, once a catch-all variant cannot carry a known spelling |
| GeneratorTypes.TypeConfigKeyInjective | src/types/generator.types.ts:362-364 | two (language, variant) pairs with the same storage key are the same pair |
| GeneratorTypes.DefaultSettingsShape | src/types/generator.types.ts:374-399 | the default settings seed exactly the listed variants of each language with their default configs, and select a listed variant |
| GeneratorTypes.JavaSettingsShape | src/types/generator.types.ts:14-17 | Java lists DTO and record, seeds both, and selects DTO |
| GeneratorTypes.TypeScriptSettingsShape | src/types/generator.types.ts:382-390 | TypeScript lists and seeds interface, class, type and zod, and selects interface |
| GeneratorTypes.CSharpSettingsShape | src/types/generator.types.ts:391-398 | C# lists and seeds class, record and DTO, and selects class |
| GeneratorTypes.PojoNotSeeded | src/types/generator.types.ts:4 | POJO is a Java variant but is neither listed nor seeded |
| SettingsStore.MergeLaws | src/hooks/useGeneratorSettings.ts:68-90 | an empty update changes nothing, a full update replaces the config, applying an update twice equals applying it once, and new `advancedOptions` replace the old ones wholesale |
| SettingsStore.EnsureLanguageSettings | src/hooks/useGeneratorSettings.ts:12-34 | the loop computes the reconciliation of stored settings with the defaults |
| SettingsStore.ReconcileShape | src/hooks/useGeneratorSettings.ts:12-34 | reconciled settings have exactly the default variants; each keeps its default config unless one was stored, in which case the stored fields win |
| SettingsStore.ReconcileSelectedType | src/hooks/useGeneratorSettings.ts:29-32 | a stored selected variant wins; otherwise the default one is kept |
| SettingsStore.ReconcileNothing | src/hooks/useGeneratorSettings.ts:12-34 | with nothing stored, reconciliation gives the defaults |
| SettingsStore.ReconcileIdempotent | src/hooks/useGeneratorSettings.ts:12-34 | persisting reconciled settings and reconciling them again changes nothing |
| SettingsStore.InitialSettings | src/hooks/useGeneratorSettings.ts:37-52 | nothing stored or unreadable storage gives the default settings |
| SettingsStore.InitialSettingsWellShaped | src/hooks/useGeneratorSettings.ts:37-52 | every load yields settings that hold exactly the listed variants of each language |
| SettingsStore.PersistRoundTrip | src/hooks/useGeneratorSettings.ts:37-56 | well-shaped settings that are persisted and loaded again come back unchanged |
| SettingsStore.StaleOptionRetained | src/hooks/useGeneratorSettings.ts:17-27 | an unknown option key in a stored config survives the load |
| SettingsStore.DefaultOptionDroppedOnLoad | src/hooks/useGeneratorSettings.ts:17-27 | a default option key missing from a stored `advancedOptions` is missing after the load |
| SettingsStore.UnseededVariantDropped | src/hooks/useGeneratorSettings.ts:17-27 | a stored config for a variant the defaults do not seed (POJO) is dropped on load |
| SettingsStore.SelectType | src/hooks/useGeneratorSettings.ts:58-66 | only the language's selected variant changes |
| SettingsStore.TypeConfigOf | src/hooks/useGeneratorSettings.ts:92-98 | a variant without a stored config reads as its default config |
| SettingsStore.UpdateConfig | src/hooks/useGeneratorSettings.ts:68-90 | the updated variant is added to the language's configs, and every other variant and language keeps its config |
| SettingsStore.ResetLanguage | src/hooks/useGeneratorSettings.ts:112-117 | the language returns to its defaults and the others are untouched |
| SettingsStore.ResetType | src/hooks/useGeneratorSettings.ts:119-130 | the variant gets its default config and nothing else changes |
| SettingsStore.UpdateThenGet | src/hooks/useGeneratorSettings.ts:68-98 | reading after an update gives the old config merged with the update; every other pair reads as before |
| SettingsStore.ResetTypeThenGet | src/hooks/useGeneratorSettings.ts:92-130 | reading after a variant reset gives its default config; every other pair reads as before |
| SettingsStore.UnseededUpdateLostOnReload | src/hooks/useGeneratorSettings.ts:12-90 | an update to the unseeded POJO variant is stored, but is gone after a reload |
| SettingsStore.GeneratorSettingsStore.constructor | src/hooks/useGeneratorSettings.ts:37-52 | the store starts from the loaded settings, which are well-shaped |
| SettingsStore.GeneratorSettingsStore.GetSelectedType | src/hooks/useGeneratorSettings.ts:100-105 | the language's selected variant |
| SettingsStore.GeneratorSettingsStore.GetTypeConfig | src/hooks/useGeneratorSettings.ts:92-98 | the stored config, or the default config when there is none |
| SettingsStore.GeneratorSettingsStore.UpdateSelectedType | src/hooks/useGeneratorSettings.ts:58-66 | the selection changes and no config does |
| SettingsStore.GeneratorSettingsStore.UpdateTypeConfig | src/hooks/useGeneratorSettings.ts:68-90 | the pair's config becomes the old one merged with the update; the selection is kept |
| SettingsStore.GeneratorSettingsStore.ResetSettings | src/hooks/useGeneratorSettings.ts:107-110 | the settings become the defaults |
| SettingsStore.GeneratorSettingsStore.ResetLanguageSettings | src/hooks/useGeneratorSettings.ts:112-117 | only the language is reset |
| SettingsStore.GeneratorSettingsStore.ResetTypeSettings | src/hooks/useGeneratorSettings.ts:119-130 | only the variant is reset, and it reads as its default config |
| RecentActions.Load | src/hooks/useRecentActions.ts:13-23 | nothing stored, or unreadable storage, gives the empty list |
| RecentActions.Added | src/hooks/useRecentActions.ts:40-46 | the new action, stamped with the time, comes first; every earlier entry that shares neither its id nor its label follows, in order, until five entries are reached; no other entry is kept |
| RecentActions.AddedKeepsOrder | src/hooks/useRecentActions.ts:42-44 | the entries after the first are earlier entries in their earlier order |
| RecentActions.AddedUnrelated | src/hooks/useRecentActions.ts:42-44 | when nothing clashes with the new action, the list is the new action followed by the old list, truncated to five |
| RecentActions.AddedAgain | src/hooks/useRecentActions.ts:40-46 | repeating an action only refreshes its entry at the head |
| RecentActions.AddedDistinct | src/hooks/useRecentActions.ts:40-46 | adding keeps ids and labels unique across the list |
| RecentActions.RecentActionsStore.constructor | src/hooks/useRecentActions.ts:34 | the list starts as the loaded list |
| RecentActions.RecentActionsStore.AddRecentAction | src/hooks/useRecentActions.ts:40-46 | the list becomes the added list, at most five long, and stays duplicate-free |
| RecentActions.RecentActionsStore.ClearRecentActions | src/hooks/useRecentActions.ts:48-50 | the list becomes empty |
| Connections.FindConnection | src/pages/Generator/Generator.tsx:110 | nothing is returned exactly when no connection has the id; otherwise the first connection with that id is returned |
| Connections.FirstIndexOf | src/pages/Mapper/Mapper.tsx:98 | the position of the first connection with the id |
| Connections.TableNames | src/pages/Generator/Generator.tsx:87-90 | the table names, in table order |
| GeneratorPage.ToggledTable | src/pages/Generator/Generator.tsx:79-83 | toggling flips the membership of that name only; a new name is appended; a removal drops every copy of the name and keeps every copy of the others, in order |
| GeneratorPage.ToggleTwiceRestores | src/pages/Generator/Generator.tsx:79-83 | toggling an unselected name twice restores the selection |
| GeneratorPage.ToggleKeepsNoDuplicates | src/pages/Generator/Generator.tsx:79-83 | toggling keeps the selection free of duplicates |
| GeneratorPage.SelectAll | src/pages/Generator/Generator.tsx:85-91 | equal counts clear the selection; otherwise every table name is selected, in table order |
| GeneratorPage.SelectAllComparesCounts | src/pages/Generator/Generator.tsx:86 | a selection of the right size clears even when it misses a table |
| GeneratorPage.RequestTableNames | src/pages/Generator/Generator.tsx:61 | the request's table names are null exactly when nothing is selected |
| GeneratorPage.EnabledRequestNamesTables | src/pages/Generator/Generator.tsx:139-141 | a request the enabled button sends always names the selected tables |
| GeneratorPage.GeneratorPageState.HandleTableToggle | src/pages/Generator/Generator.tsx:79-83 | only the selection changes, as the toggle says, and it stays duplicate-free |
| GeneratorPage.GeneratorPageState.HandleSelectAll | src/pages/Generator/Generator.tsx:85-91 | only the selection changes, as select-all says |
| GeneratorPage.GeneratorPageState.HandleDatabaseConnToggle | src/pages/Generator/Generator.tsx:109-120 | an unknown id changes nothing; a known one loads its tables and clears the selection and the code, which disables generation |
| MapperPage.Toggled | src/pages/Mapper/Mapper.tsx:46-65 | after a toggle the options object exists |
| MapperPage.ToggleAllCrud | src/pages/Mapper/Mapper.tsx:48-55 | toggling `allCrud` sets all five flags to the negation of its old value |
| MapperPage.ToggleSingle | src/pages/Mapper/Mapper.tsx:56-63 | toggling one operation flips it, clears `allCrud` and keeps the other flags |
| MapperPage.ToggleTwice | src/pages/Mapper/Mapper.tsx:56-63 | toggling one operation twice restores every flag except `allCrud`, which stays off |
| MapperPage.ToggleAllCrudTwice | src/pages/Mapper/Mapper.tsx:48-55 | toggling `allCrud` twice restores it and sets the others equal to it |
| MapperPage.AnyEnabledIffSomeSelected | src/pages/Mapper/Mapper.tsx:74-92 | generation is allowed by the flags exactly when some operation is selected |
| MapperPage.Split | src/pages/Mapper/Mapper.tsx:67-72 | one piece more than there are separators, and no piece holds a separator |
| MapperPage.SplitRejoins | src/pages/Mapper/Mapper.tsx:67-69 | the pieces with the separators put back between them, in order, are the original name |
| MapperPage.PascalCaseShape | src/pages/Mapper/Mapper.tsx:67-72 | the PascalCase name has no separator and is as long as the input minus its separators |
| MapperPage.PascalCaseExample | src/pages/Mapper/Mapper.tsx:67-72 | "ab_CD" becomes "AbCd": each piece is capitalised, the rest of it lower-cased, and the separator vanishes |
| MapperPage.MapperPageState.HandleOperationToggle | src/pages/Mapper/Mapper.tsx:46-65 | only the options change, as the toggle says |
| MapperPage.MapperPageState.SelectTable | src/pages/Mapper/Mapper.tsx:218 | only the selected table changes |
| MapperPage.MapperPageState.HandleDatabaseConnToggle | src/pages/Mapper/Mapper.tsx:97-111 | the connection id is stored, the tables are loaded (none for an unknown id), the table choice is cleared and generation is disabled |
| OptionsModal.LocalOptionsFor | src/components/generator/AdditionalOptionsModal.tsx:66-85 | the local options have exactly the label keys |
| OptionsModal.BuildLocalOptions | src/components/generator/AdditionalOptionsModal.tsx:66-85 | the loop builds the stored-else-default-else-false map over the label keys |
| OptionsModal.LocalOptionsShape | src/components/generator/AdditionalOptionsModal.tsx:66-85 | the dialog shows exactly the pair's label keys, each taken from the stored value, else the default, else false |
| OptionsModal.LocalOptionsWithoutStored | src/components/generator/AdditionalOptionsModal.tsx:66-85 | for Java and TypeScript, opening the dialog with nothing stored shows the defaults |
| OptionsModal.CSharpSpacingFallback | src/components/generator/AdditionalOptionsModal.tsx:71-79 | the C# spacing checkbox opens with the stored value or false, never with a default |
| OptionsModal.ReopenAfterApply | src/components/generator/AdditionalOptionsModal.tsx:66-97 | applying the dialog and opening it again shows the same values |
| OptionsModal.TypeDisplayName | src/components/generator/AdditionalOptionsModal.tsx:31-41 | a variant without a fixed display name is shown by its own name |
| OptionsModal.OptionsDialog.Open | src/components/generator/AdditionalOptionsModal.tsx:66-85 | opening rebuilds the local options from the stored options, and copies the prefix and suffix |
| OptionsModal.OptionsDialog.HandleOptionChange | src/components/generator/AdditionalOptionsModal.tsx:87-92 | only the changed key takes its new value |
| OptionsModal.OptionsDialog.HandleApply | src/components/generator/AdditionalOptionsModal.tsx:94-97 | the local values are handed back unchanged and the dialog closes |
| ConfigSummary.UnmappedKeysShowName | src/components/generator/ConfigSummary.tsx:13-56 | a key missing from the short-label table, such as the C#-only keys, is shown by its own name |
| ConfigSummary.EnabledKeys | src/components/generator/ConfigSummary.tsx:65-70 | the chips are the label keys that are switched on, in label order |
| ConfigSummary.EnabledOptions | src/components/generator/ConfigSummary.tsx:68-70 | one short label per enabled key, in the same order |
| ConfigSummary.ForeignKeysIgnored | src/components/generator/ConfigSummary.tsx:65-70 | stored keys outside the pair's labels make no difference to the chips |
| ConfigSummary.PresentIffNotBlank | src/components/generator/ConfigSummary.tsx:72-73 | a prefix or suffix is shown exactly when it is not all whitespace |
| ConfigSummary.EmptyStateIff | src/components/generator/ConfigSummary.tsx:75-79 | the empty state shows exactly when no label key is on and both prefix and suffix are blank |
| ConfigSummary.VisibleChips | src/components/generator/ConfigSummary.tsx:86 | the first twelve options, or all of them when there are fewer |
| ConfigSummary.MoreCount | src/components/generator/ConfigSummary.tsx:95-99 | the "+n more" count appears exactly beyond twelve options, and n is the number of options beyond twelve |
| ConfigSummary.ChipsAccountForAll | src/components/generator/ConfigSummary.tsx:86-99 | the shown chips plus the count cover every option |
| ConfigSummary.NoMoreCount | src/components/generator/ConfigSummary.tsx:95-99 | with at most ten options per table, the "+n more" count never appears |
| KeyboardShortcuts.FirstMatch | src/hooks/useKeyboardShortcuts.ts:21-37 | nothing fires exactly when no shortcut is eligible and matching; otherwise the first such shortcut fires |
| KeyboardShortcuts.HandleKeyDown | src/hooks/useKeyboardShortcuts.ts:15-41 | the loop fires the first-match shortcut and runs only that shortcut's action |
| KeyboardShortcuts.FirstMatchAt | src/hooks/useKeyboardShortcuts.ts:21-37 | position i fires exactly when it is eligible and matching and no earlier one is |
| KeyboardShortcuts.TypingOnlyEscape | src/hooks/useKeyboardShortcuts.ts:17-24 | while an input has focus, whatever fires is an Escape shortcut |
| KeyboardShortcuts.KeyCaseIgnored | src/hooks/useKeyboardShortcuts.ts:22-31 | the letter case of the pressed key and of the shortcut's key does not matter |
| KeyboardShortcuts.ModifiersExact | src/hooks/useKeyboardShortcuts.ts:26-30 | a shortcut fires only if Ctrl or Meta is down exactly when it asks for Ctrl, and Alt and Shift are down exactly when it asks for them |
| KeyboardShortcuts.ActionEffects | src/hooks/useKeyboardShortcuts.ts:49-90 | save calls back only when enabled; copy does nothing for empty text and otherwise writes that text |
| KeyboardShortcuts.SaveGated | src/hooks/useKeyboardShortcuts.ts:49-60 | Ctrl+S and Cmd+S fire the save shortcut, which saves only when enabled; inside an input it does not fire |
| KeyboardShortcuts.CopyGated | src/hooks/useKeyboardShortcuts.ts:72-90 | Ctrl+Shift+C fires the copy shortcut, which copies nothing when the text is empty |
| KeyboardShortcuts.EscapeWhileTyping | src/hooks/useKeyboardShortcuts.ts:62-70 | Escape still fires inside a text area |
| KeyboardShortcuts.GlobalShortcutsDisjoint | src/hooks/useKeyboardShortcuts.ts:96-140 | no event matches two global shortcuts |
| TableSelector.FilteredTables | src/components/generator/TableSelector.tsx:25-29 | a blank query lists every table; any other query keeps exactly the tables whose lower-cased name contains the lower-cased untrimmed query; the result is always an ordered subsequence |
| TableSelector.QueryCaseIgnored | src/components/generator/TableSelector.tsx:26-28 | the letter case of the query does not change the list |
| TableSelector.UntrimmedQuery | src/components/generator/TableSelector.tsx:27-28 | "us" finds the table "users" and " us" hides it |
| TableSelector.SelectButtonLabel | src/components/generator/TableSelector.tsx:52-55 | no button without tables; "Deselect All" exactly when the counts agree |
| TableSelector.LabelAgreesWithSelectAll | src/components/generator/TableSelector.tsx:52-55 | "Deselect All" clears the selection and "Select All" selects every table |
| TableSelector.EmptyMessage | src/components/generator/TableSelector.tsx:75-97 | a message appears exactly when the list is empty, and names the query when there is one |
| TableSelector.EmptyMessageShown | src/components/generator/TableSelector.tsx:25-97 | a message appears exactly when the database has no tables or, for a non-blank query, when no name contains it |
| Dashboard.UptimeParts | src/pages/Dashboard/Dashboard.tsx:24-28 | minutes are below 60, and the hours and minutes are the uptime rounded down to the minute |
| Dashboard.FormatUptimeSameMinute | src/pages/Dashboard/Dashboard.tsx:24-28 | two uptimes give the same text exactly when they fall in the same minute |
| Dashboard.UptimeTextInjective | src/pages/Dashboard/Dashboard.tsx:27 | the text determines its hours and minutes |
| Dashboard.ConnectionCounts | src/pages/Dashboard/Dashboard.tsx:21-22 | connected is at most total and both are zero before data arrives; the counts are equal exactly when every connection is up, and connected is zero exactly when none is |
| Dashboard.ConnectionCountsCons | src/pages/Dashboard/Dashboard.tsx:21 | the connected count is zero for no connections and grows by one exactly for each connection that is up |
| Dashboard.ConnectionsPanel | src/pages/Dashboard/Dashboard.tsx:125-160 | a spinner exactly while loading; otherwise the first four connections (or all, when fewer), or the empty state exactly when there are none |
| Dashboard.StatusCard | src/pages/Dashboard/Dashboard.tsx:40-46 | "Healthy" for a healthy report and "Degraded" otherwise, and an uptime line exactly when a report arrived |
| ConnectionForm.DefaultPort | src/pages/Connections/ConnectionForm.tsx:49-54 | each default port is a valid port |
| ConnectionForm.DefaultPortsDistinct | src/pages/Connections/ConnectionForm.tsx:49-54 | no two database types share a default port |
| ConnectionForm.FieldErrors | src/pages/Connections/ConnectionForm.tsx:19-41 | only PostgreSQL can fail on the schema, and the name fails exactly when it is empty or longer than 50 |
| ConnectionForm.ValidIff | src/pages/Connections/ConnectionForm.tsx:19-41 | a form is valid exactly when the name has 1 to 50 characters, host, user, password and database are filled in, the port is in 1..65535, and PostgreSQL has a schema |
| ConnectionForm.TypeOnlyAffectsSchema | src/pages/Connections/ConnectionForm.tsx:28-41 | switching the database type changes only the schema verdict, and any type but PostgreSQL accepts an empty schema |
| ConnectionForm.PrecheckWeakerThanSchema | src/pages/Connections/ConnectionForm.tsx:85-89 | a valid form passes the test precheck, but the precheck ignores the name, the port and the schema |
| ConnectionForm.InitialValuesAgree | src/pages/Connections/ConnectionForm.tsx:69-72 | the form opens on PostgreSQL with its default port and is not yet valid |
| ConnectionForm.StatusLine | src/pages/Connections/ConnectionForm.tsx:230-245 | no status line while idle; "Testing connection..." while testing; a finished test shows its message |
| ConnectionForm.SchemaErrorLineAsWrittenFails | src/pages/Connections/ConnectionForm.tsx:223-225 | the schema error line as written fails to render for one form and hides a real schema error for another |
| ConnectionForm.SchemaErrorLine | src/pages/Connections/ConnectionForm.tsx:223-225 | the corrected line shows the schema message exactly when the schema has an error |
| ConnectionForm.SchemaErrorShownIff | src/pages/Connections/ConnectionForm.tsx:19-41 | with the corrected line, the schema error shows exactly for a PostgreSQL form without a schema |
| ConnectionForm.ConnectionFormState.HandleTypeChange | src/pages/Connections/ConnectionForm.tsx:77-80 | the type changes and the port becomes its default, which is valid |
| ConnectionForm.ConnectionFormState.HandleTestConnection | src/pages/Connections/ConnectionForm.tsx:82-92 | an incomplete form is refused with an error and no service call; otherwise the test starts and its button is disabled |
| ConnectionForm.ConnectionFormState.FinishTest | src/pages/Connections/ConnectionForm.tsx:94-102 | success only for a successful response; the message comes from the response or the error, else "Connection failed" |

## Left out

- Browser storage, JSON parsing and the React effect that persists state after each change. This is browser I/O. Storage is a value with three cases: nothing stored, unreadable, or parsed.
- Stored JSON values of the wrong type (a number where a map is expected, `null` fields). The parsed shape is typed. Any option key is allowed, through the `OtherKey` case.
- JavaScript lookups that can reach the object prototype (`key in obj`, `labels[key]` for keys such as `constructor`). Keys are plain values here.
- Text.ToLower: maps only the ASCII letters; JavaScript's full Unicode case mapping is not modelled. The same holds for the capitalisation in `MapperPage.Capitalize`.
- RecentActions.Load: a loaded list is neither validated nor cut to five entries, as in the source. The five-entry bound is proved only after an addition.
- Dashboard.UptimeParts: uptime is a whole, non-negative number of seconds; fractional uptimes are not modelled.
- ConnectionForm.FieldErrors: the port is a whole number. The schema's coercion of typed text, and its acceptance of fractional ports, are not modelled. The name's length is counted in characters, not UTF-16 code units.
- ConnectionForm.FieldErrors: a field the user never filled is the empty string. For the string rules this gives the same verdict as the missing value it stands for; the error messages may differ.
- Toasts, clipboard writes and navigation appear only as effect values. The asynchronous service calls (generate, test, create connection, health, connection list) are parameters (`TestOutcome`) or are left out.
- The generator page's language and variant switches (`handleTypeChange`, `handleOptionsApply`). They only forward to the settings store, which is modelled.
- The generator page stores the tables of a connection without table info as `undefined`. Here that is the empty list, as the mapper page does explicitly. The model therefore does not capture that a non-blank search in the table picker then throws, because it calls `tables.filter` on `undefined`. The model shows "No tables match" there instead.
- The mapper request payload beyond the connection id, and the preview code strings of both pages.
- The title-casing of the language name in the options dialog.
- Rendering details: icons, classes, loading spinners other than the dashboard panel, and the header counts of the table picker.

## Findings

| source | as written | input that shows it | evidently intended | confidence | as-written member | corrected member |
|---|---|---|---|---|---|---|
| src/pages/Connections/ConnectionForm.tsx:223-225 | the schema field's error line is shown when `errors.databaseName` is set but reads `errors.schemaName.message` | a MySQL form whose database name is empty (database-name error, no schema error, so the read fails during render); a PostgreSQL form with a database name and no schema (schema error never shown) | show the line when `errors.schemaName` is set | high; not executed | ConnectionForm.SchemaErrorLineAsWrittenFails | ConnectionForm.SchemaErrorShownIff |
