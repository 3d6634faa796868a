# Community Action reporting plugin — a Dafny model

The `Report` plugin for LimeSurvey lets a superadmin keep a registry of
named *programs* and lets each survey be associated with one of them.
This project models its core bookkeeping:

- the **program registry** (the `programs` table): reading it through
  `CHtml::listData`, saving a row, seeding the default program
  `"Select a Program..."` on activation, and `managePrograms`, which adds a
  name only when it is non-empty and new, raises a duplicate notice
  otherwise, and renders the form plus one `<li>` per program;
- the **enrollment table** (`program_enrollment`): `newSurveySettings`
  appends one `(survey_id, programName)` row per settings pair and never
  deletes a row;
- the **settings descriptor** built by `beforeSurveySettings`: every
  program as its own option, and the survey's latest enrollment (or the
  default) as the current choice;
- the **authorization gate and dispatcher**: `isSuperAdmin` and
  `newDirectRequest`, which redirects a non-superadmin to the login page
  and otherwise runs the requested action.

`php_array.dfy` (module `PhpArray`) models PHP's ordered arrays: an array
is a sequence of key/value entries, `$a[$k] = $v` (`Assign`) overwrites an
existing key in place or appends a new one, and `CHtml::listData`
(`ListData`) assigns every row in order, so later rows overwrite earlier
ones with the same key. `report.dfy` (module `CommunityAction`) holds the
plugin as a class `Report` whose fields are the two tables; the methods
that change them carry `modifies` clauses and state the whole new state,
and the pure parts (the descriptor, the gate, the rendering) are
functions and lemmas.

The host database is replaced by the two in-memory tables. `findAll` is
assumed to return rows in insertion order. The `programs` table keeps its
auto-increment `id`; the object invariant `Valid()` says ids increase and
no program name is empty. Because ids are distinct, `getPrograms`'
`listData` keyed on `id` loses no row (`GetPrograms` is proved equal to
the names in table order). By contrast, the enrollment rows of one survey
all share their `survey_id` key, so `listData` keeps only the last one;
that is why the descriptor's current program is the survey's latest row.

The condition on line 184 of `newSurveySettings` assigns rather than
compares. Its value is the non-empty string `"program_enrollment"`, which
is truthy, so every settings pair becomes an enrollment row and the
generic-settings branch is dead; the model follows the code as written and
marks that branch with `assert false`. The TODO on line 183 says the old
entry should be erased, but the code never does this. Rows therefore
accumulate, and the descriptor reads the latest one
(`RepeatedSaveScenario`).

## Model

| member | source | states |
|---|---|---|
| `PhpArray.Lookup` | backend/Report/Report.php:157-159 | reads the value the one-entry `listData` array holds under the survey id (the model's reading of `current`, see the `Report.BeforeSurveySettings` line under Left out): a value is found exactly when the key is present, and it is that key's entry |
| `PhpArray.Assign` | backend/Report/Report.php:150-152 | `$a[$k] = $v` keeps an existing key's position (same key order) and appends a new key at the end; every entry afterwards is an old entry or `(k, v)` |
| `PhpArray.AssignLookup` | backend/Report/Report.php:150-152 | after `$a[$k] = $v`, `k` reads `v` and every other key reads what it read before |
| `PhpArray.AssignKeepsUniqueKeys` | backend/Report/Report.php:150-152 | assignment never creates a second entry for a key |
| `PhpArray.LastValue` | backend/Report/Report.php:157 | the reference meaning of a key in a row list: absent exactly when no row has it, otherwise the value of a row with that key after which no row has it |
| `PhpArray.ListData` | backend/Report/Report.php:157 | `listData` yields an array with unique keys whose entries are all rows of the input |
| `PhpArray.ListDataLookup` | backend/Report/Report.php:157 | in `listData`'s result each key holds the value of its last row (later rows overwrite earlier ones) |
| `PhpArray.ListDataOfUniqueKeys` | backend/Report/Report.php:221 | rows whose keys are already distinct come back from `listData` unchanged and in order |
| `PhpArray.ListDataKeys` | backend/Report/Report.php:221 | the keys of `listData`'s result are exactly the keys occurring in its rows |
| `CommunityAction.IsSuperAdmin` | backend/Report/Report.php:201-210 | the caller is authorized exactly when its permission record at index 1 exists and its `permission` field equals `"superadmin"`; a missing record or field refuses |
| `CommunityAction.DuplicateNotice` | backend/Report/Report.php:107-110 | the duplicate flash text is `The program: '`, the name verbatim, then `' already exists.`, so the name can be read back from it |
| `CommunityAction.RenderListShape` | backend/Report/Report.php:113-116 | the `foreach` builds an empty list exactly when there are no programs; otherwise the list opens with `<li>` and closes with `</li>` |
| `CommunityAction.PageShape` | backend/Report/Report.php:119-131 | the content starts with the add-program form followed by `<ul>`, ends with `</ul>`, is exactly that long plus the list, and is the bare `<ul></ul>` after the form when there are no programs |
| `CommunityAction.RenderListAppend` | backend/Report/Report.php:113-116 | rendering the list of `a + b` is rendering `a` followed by rendering `b`, so items appear in program order |
| `CommunityAction.NewestIsLastItem` | backend/Report/Report.php:104-116 | a name appended to the registry is rendered as the last `<li>` item |
| `CommunityAction.RenderPrograms` | backend/Report/Report.php:112-131 | the loop produces exactly the add-program form, `<ul>`, one `<li>p</li>` per program in order, then `</ul>` |
| `CommunityAction.LatestProgram` | backend/Report/Report.php:154-159 | a survey's current program is absent exactly when it has no enrollment row, otherwise that of a row for it after which no row for it follows |
| `CommunityAction.RowsOf` | backend/Report/Report.php:155-156 | the query returns exactly the table's rows for the survey (no others), never more rows than the table has |
| `CommunityAction.RowsOfLatest` | backend/Report/Report.php:156-159 | querying a survey's rows and keying them by `survey_id` keeps the latest row's program; the query is empty exactly when the survey has no rows |
| `CommunityAction.SettingsRows` | backend/Report/Report.php:181-188 | one row per settings pair, every row for the saved survey, and the rows' program names are the settings' values in iteration order |
| `CommunityAction.LatestAfterSave` | backend/Report/Report.php:181-193 | after saving settings for a survey, its current program is the value of the last pair saved (unchanged if none), and every other survey's current program is unchanged |
| `CommunityAction.OptionsMatchPrograms` | backend/Report/Report.php:146-152 | the options built from a program list have each key equal to its label, a key for exactly each listed program, and, for distinct programs, the programs' order |
| `CommunityAction.OtherSettingBecomesEnrollment` | backend/Report/Report.php:184-191 | because line 184 assigns, saving a single setting of ANY name makes its value the survey's program |
| `CommunityAction.Report.constructor` | backend/Report/Report.php:30-41 | a fresh plugin starts with both tables empty and its invariant holding |
| `CommunityAction.Report.GetPrograms` | backend/Report/Report.php:217-222 | reading the registry through `listData` keyed on `id` returns every program name, in table order |
| `CommunityAction.Report.SaveProgram` | backend/Report/Report.php:228-233 | saving appends one row with the next id and the given name and leaves the enrollment table alone |
| `CommunityAction.Report.Activate` | backend/Report/Report.php:44-46 | an empty registry becomes exactly `["Select a Program..."]`; a non-empty one is untouched; the registry is non-empty afterwards, so a second activation changes nothing; distinctness is kept |
| `CommunityAction.Report.ManagePrograms` | backend/Report/Report.php:95-133 | the name is appended exactly when it is non-empty and not registered; otherwise the table is untouched; the duplicate notice is raised exactly when it is registered (never for an absent name); distinct names stay distinct; the content is the page for the refreshed list |
| `CommunityAction.Report.BeforeSurveySettings` | backend/Report/Report.php:139-173 | the descriptor is the `program_enrollment` select of plugin `Report`; options map each program to itself with no other keys (in program order when names are distinct); current is the default when the survey has no rows, otherwise its latest row's program |
| `CommunityAction.Report.NewSurveySettings` | backend/Report/Report.php:178-194 | the enrollment table becomes the old rows followed by one `(survey, value)` row per settings pair, in order; nothing is removed and the programs table is untouched |
| `CommunityAction.Report.NewDirectRequest` | backend/Report/Report.php:77-90 | a non-superadmin gets the login redirect and both tables are unchanged; an authorized unknown action gets `UnknownAction` and nothing changes; `managePrograms` yields its content and notice with the registry updated as `ManagePrograms` states |
| `CommunityAction.OutreachScenario` | backend/Report/Report.php:44-194 | activation, then a superadmin adding "Outreach", then saving survey 42 with it, gives the registry `["Select a Program...", "Outreach"]` and current program "Outreach" for survey 42 |
| `CommunityAction.RepeatedSaveScenario` | backend/Report/Report.php:156-194 | saving survey 5 with "Alpha" then "Beta" shows "Beta" as current while both rows remain in the table |

## Left out

- Creating the two tables when missing and the activation flash message (lines 30-41, 49-50): host database and UI calls. The tables exist from the constructor on.
- The admin menu entry added by `afterAdminMenuLoad` (lines 57-72): UI wiring.
- Yii's redirect and `setContent` (lines 85, 88) are replaced by the `Outcome` value a request returns; the duplicate notice is returned with the content instead of going to the flash store.
- `call_user_func` on a method named by the request (lines 83-84) is modelled as a fixed action set holding only `managePrograms`; any other name yields `UnknownAction`. Arbitrary method invocation is not modelled.
- PHP loose comparison: `in_array` compares non-strictly (`"10"` equals `"1e1"`), and `== 'superadmin'` would accept a non-string permission such as `0`. The model uses exact string equality throughout.
- The `program` query parameter is a string; an absent parameter is passed as `""`, which `!= null` also treats as absent.
- The bare constant `permission` on line 204 is read as the string key `"permission"`, its value in the PHP versions of the time.
- `getPrograms` returns `null` for an empty table; the model returns the empty sequence, which behaves the same for `== null`, `in_array` and `foreach` in the callers.
- The `$sid` branch of `getPrograms` (line 220): it queries a column the `programs` table does not have and no caller passes an argument.
- The generic settings store `$this->set` (line 191): a foreign call, and unreachable.
- Settings values are modelled as strings; the host may pass other PHP values.
- Report.BeforeSurveySettings: the source stores the one-entry `listData` array itself as `current`; the model stores the program name that array holds under the survey id.
- `Report.SaveProgram`: requires a non-empty name, which the source does not check; both callers only ever pass non-empty names.
- Row order from the ORM: `findAll` is assumed to return rows in insertion order.
- Storage failures, concurrent requests and the race between the duplicate check and the insert are not modelled: every operation runs to completion alone.
