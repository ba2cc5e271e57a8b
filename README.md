# License Verification — a Dafny model

License Verification is a WordPress plugin. Site administrators use it to keep
a small database of license records ("entries"). Visitors look a record up
through a public form. Premium features are unlocked by a license key, which
a remote license server verifies.

This project models the plugin's decision logic and its stored state:

- **License** (`license.dfy`): the stored license record.
  - The periodic check `lv_is_plugin_activated`: after a confirming or
    refusing reply it makes no further request for a day unless forced.
    A transport failure does not stamp the check time: after a failure on a
    check that was due, the next call asks again; a failed forced check
    leaves the earlier stamp in force.
  - The throttled usage report.
  - The License page's activate and deactivate handlers.
  - The handlers are methods of `LicenseOptions`, which write the options
    one by one. Each is proved equal to a pure function (`Check`, `Recheck`,
    `Judge`, `Activate`, `Deactivate`), and the lemmas state the plugin's
    promises about those functions.
- **Schema** (`schema.dfy`): the form's field definitions.
  - The built-in defaults.
  - The Form Builder's row builder.
  - Form-name and retrieval-field handling, including the free tier's pin
    to "License Number".
- **Entries** (`entries.dfy`): the entry list, in which an entry's identity
  is its position.
  - Adding an entry checks required fields and, on the free tier, a cap of
    ten entries.
  - Bulk and single delete remove entries and renumber the rest.
  - The premium edit handler applies a partial update.
  - The loops over fields and ids are methods proved against recursive
    specification functions.
- **Positions** (`positions.dfy`): deletion by position (`unset` followed by
  `array_values`), and how the surviving entries are renumbered.
- **Cities** (`cities.dfy`): the city eligibility list and its eligibility
  test.
- **Backups** (`backups.dfy`): creating a snapshot of the entries, and
  restoring entries wholesale from an uploaded backup.
- **Lookup** (`lookup.dfy`): the public `[license_verification]` shortcode.
  - Its checks, in order: the system is enabled, fields are configured, and
    the retrieval field is valid.
  - The session-backed city gate.
  - The first-match lookup of the submitted value.
  - The result card's rows and photo.
- **Php** (`php.dfy`): the PHP primitives the logic depends on.
  - `empty()` on strings, which is true for both `""` and `"0"`.
  - Reading a posted value.
  - The input name derived from a field label.

Some things are parameters of the model:

- the clock;
- `home_url()`;
- `strtotime` (a function `string -> Option<int>`);
- the license server's replies;
- upload outcomes;
- the PHP session value;
- the capability check;
- the premium flag `premium` that every admin handler takes: in the plugin it
  is the answer of `lv_is_plugin_activated()` computed when the page loads.

Where an option may be missing, the model holds an `Option`, and each reader
applies the same default the plugin uses at that point.

## Model

| member | source | states |
|---|---|---|
| Php.FieldKey | license-verification.php:949 | an input name is never longer than its label and uses only the characters `sanitize_key` keeps |
| Php.KeyIsFixedPoint | license-verification.php:949 | a label already made of key characters is its own input name |
| Php.FieldKeyIdempotent | license-verification.php:949 | deriving the input name twice gives the same name as deriving it once |
| Php.FieldKeyConcat | license-verification.php:949 | the input name of a concatenation is the concatenation of the input names |
| Php.FieldKeyCollisions | license-verification.php:949 | labels that differ only in one letter's case, or in a space against an underscore, share one input name |
| Positions.Without | license-verification.php:1008-1013 | unset-then-reindex never lengthens the list |
| Positions.Kept | license-verification.php:1008-1013 | a survivor's new index is at most its old index |
| Positions.WithoutLength | license-verification.php:1008-1013 | the list shrinks by exactly the number of in-range positions dropped |
| Positions.WithoutAt | license-verification.php:1008-1013 | the surviving entry from old position i is at new position `Kept(i)` |
| Positions.WithoutFrom | license-verification.php:1008-1013 | every entry after the delete came from a position that was not dropped, at the place `Kept` gives |
| Positions.KeptMonotonic | license-verification.php:1008-1013 | survivors keep their relative order |
| Positions.WithoutInRange | license-verification.php:997-998 | ids outside the list (which fail the `isset` test) have no effect |
| Positions.WithoutNothing | license-verification.php:997-998 | dropping no in-range position leaves the list unchanged |
| Positions.WithoutOne | license-verification.php:1034-1035 | dropping one position equals splicing that element out |
| Positions.DeleteRenumbers | license-verification.php:1034-1035 | deleting position 2 of five moves the entries at 3 and 4 down to 2 and 3 |
| Schema.DefaultFields | license-verification.php:645-651 | there are five required text fields, and the last is "License Number" |
| Schema.Rows | license-verification.php:675-683 | the builder yields at most one field per row, each with a non-empty label and type |
| Schema.Origins | license-verification.php:675-683 | the complete rows are listed in increasing order, and all of them are listed |
| Schema.BuildFields | license-verification.php:668-688 | every saved field has a non-empty label and type, and there are no more fields than rows |
| Schema.RowsFromOrigins | license-verification.php:675-683 | field k comes from the k-th complete row, and it is required iff that row number was ticked |
| Schema.BuildFieldsExact | license-verification.php:668-688 | the saved list holds exactly the complete rows, in order; it is empty if either posted array is empty |
| Schema.FormOptions.ActivationHook | license-verification.php:2179-2197 | activation overwrites the fields and the retrieval field; it sets the form name only when that is missing or falsy |
| Schema.FormOptions.LoadFields | license-verification.php:652-656 | a missing field list reads as the defaults; a stored empty list is replaced by the defaults and written back |
| Schema.FormOptions.SaveFormName | license-verification.php:658-666 | an empty name is ignored, and any other name is stored |
| Schema.FormOptions.SaveFields | license-verification.php:668-688 | only the premium tier saves; the stored list becomes `BuildFields` of the posted rows |
| Schema.FormOptions.SaveRetrievalField | license-verification.php:690-698 | the choice is stored iff the tier is premium or the choice is "License Number" |
| Schema.FormOptions.ReadRetrievalField | license-verification.php:700-704 | on the free tier the field reads as "License Number", and any other stored value is overwritten |
| Schema.FreeTierRetrievalPinned | license-verification.php:690-704 | a free-tier attempt to choose another field still leaves "License Number" showing |
| License.ReportUsage | license-verification.php:167-186 | the record changes iff more than a day has passed since the last report and the report got HTTP 200; then only the stamp moves, to now |
| License.UsageReportThrottled | license-verification.php:171-184 | once a report has stamped now, any report within the next day changes nothing, whatever its reply |
| License.Deactivate | license-verification.php:1772-1784 | the key and the usage stamp are kept; status, expiry, expiry text, registered site and both transients are cleared; without a key nothing happens |
| License.CheckSound | license-verification.php:73-164 | a true answer leaves a record that is active and not yet expired |
| License.CheckCached | license-verification.php:89-90 | an unforced check within a day makes no request, and it answers the stored validity |
| License.CheckBadExpiry | license-verification.php:126-135 | an affirmation with an unparseable or past expiry clears status, expiry and expiry text |
| License.CheckWrongSite | license-verification.php:137-141 | an affirmation naming another non-empty site deactivates the license but keeps its expiry |
| License.CheckConfirms | license-verification.php:143-151 | an affirmation for this site with a future expiry activates the license until that expiry and stamps the check time |
| License.CheckTransportFailure | license-verification.php:101-124 | network errors, non-200 replies and empty or non-array bodies keep the record (only the alert may change) and answer the prior validity |
| License.FailedCheckRetries | license-verification.php:101-124 | on a check that was due, a transport failure does not stamp the check time, so the next unforced check asks the server again |
| License.ForcedFailureKeepsStamp | license-verification.php:89-124 | a forced check that fails in transport keeps the earlier stamp, so while that stamp is under a day old the next unforced check answers from the cache |
| License.CheckRefused | license-verification.php:152-160 | any other reply deactivates the license, clears the expiry, stamps the check time and stores the server's message or a fallback |
| License.CheckTwiceWithinADay | license-verification.php:89-90 | after a confirming check, the next unforced check within a day makes no request |
| License.ActivateSound | license-verification.php:1705-1770 | a successful activation needs a non-empty key and leaves that key active and unexpired; a failure keeps the key and both transients |
| License.ActivationIgnoresSite | license-verification.php:1743-1765 | a key registered to another site still activates, and the next forced check revokes it |
| License.DeactivateThenCheck | license-verification.php:1772-1784 | after deactivation, only a fresh server affirmation makes the check answer true |
| License.LicenseOptions.ReportUsageTime | license-verification.php:167-186 | the method's writes equal `ReportUsage` |
| License.LicenseOptions.IsPluginActivated | license-verification.php:73-164 | the option writes and the answer equal `Check`, and a true answer means the license is active and unexpired |
| License.LicenseOptions.VerifyWithServer | license-verification.php:91-124 | the handling of the verify request's outcome equals `Recheck` |
| License.LicenseOptions.ApplyVerdict | license-verification.php:126-160 | the handling of a decoded reply equals `Judge` |
| License.LicenseOptions.ActivateLicense | license-verification.php:1705-1770 | the option writes and the reported outcome equal `Activate` |
| License.LicenseOptions.DeactivateLicense | license-verification.php:1772-1784 | the option writes equal `Deactivate` |
| Entries.FreeTierStoresDefaultLabels | license-verification.php:922 | on the free tier the stored schema is ignored: the add's outcome is the same whatever is stored, and a successful add stores exactly the five built-in labels |
| Entries.CollectFreeIgnoresFiles | license-verification.php:951 | off the premium tier no upload is read: the new entry and its errors do not depend on the uploads |
| Entries.CollectErrors | license-verification.php:946-978 | an add has no errors iff every field resolves to a value |
| Entries.CollectErrorsFromFields | license-verification.php:946-976 | every reported error is the error of some failing field of the form |
| Entries.CollectKeys | license-verification.php:946-976 | the new entry holds only schema labels, and a successful add stores every field's label |
| Entries.CollectValues | license-verification.php:946-976 | with unique labels, each resolved field's value is stored under its label |
| Entries.EmptyRequiredBlocks | license-verification.php:968-971 | a required text field posted as "" or "0" blocks the add |
| Entries.EditedKeys | license-verification.php:1048-1069 | the edited entry holds only schema labels, so labels outside the schema are dropped |
| Entries.EditedAt | license-verification.php:1052-1068 | with distinct labels, a label is present iff its field resolves, and then it holds the new upload, else the posted value, else the old value or "" |
| Entries.EditKeepsUnsubmitted | license-verification.php:1066-1067 | a field that is neither posted nor uploaded keeps its old value |
| Entries.EditFailedUploadDrops | license-verification.php:1052-1063 | a failed upload on edit removes that label from the entry |
| Entries.FileUrls | license-verification.php:999-1007 | the uploads deleted with an entry are non-empty values of its file fields, and every non-empty file-field value is among them |
| Entries.Selected | license-verification.php:997-1011 | bulk delete acts on exactly the in-range requested ids, each once |
| Entries.SelectedInRequestOrder | license-verification.php:997-1011 | the selected ids follow the order of their first occurrence in the request |
| Entries.BulkDeleteResult | license-verification.php:993-1020 | bulk delete keeps exactly the entries at unselected positions, in their original order |
| Entries.ResolveEntry | license-verification.php:946-976 | the add handler's loop computes `Collect`, and it finds no errors iff every field resolves |
| Entries.EditedEntry | license-verification.php:1049-1069 | the edit handler's loop computes `Edited` and the replaced uploads, and uses only schema labels |
| Entries.SelectForDeletion | license-verification.php:997-1011 | the bulk-delete loop marks exactly the in-range ids and collects their uploads |
| Entries.EntryStore.AddEntry | license-verification.php:929-989 | the order of checks: no fields, then the free cap of 10 (before validation), then required fields; only a clean add appends |
| Entries.EntryStore.BulkDelete | license-verification.php:993-1020 | with a valid id and the capability, the selected positions are removed and the rest are renumbered; otherwise nothing changes |
| Entries.EntryStore.DeleteEntry | license-verification.php:1022-1041 | one in-range position is spliced out; any other id changes nothing |
| Entries.EntryStore.EditEntry | license-verification.php:1045-1073 | premium only: the entry at the id is replaced by the partial update, and the other entries keep their positions |
| Entries.FreeTierCap | license-verification.php:932-933 | with ten entries, a free-tier add is refused, while a premium add is not held back by the cap |
| Cities.Eligible | license-verification.php:1963-1969 | a city passes iff some city record has exactly that name and is marked "eligible" |
| Cities.EligibleAppend | license-verification.php:1296-1306 | adding a city never revokes another city's eligibility |
| Cities.CityList.AddCity | license-verification.php:1296-1310 | a premium request with a non-empty name appends the city; any other request changes nothing |
| Cities.CityList.RemoveCities | license-verification.php:1312-1322 | in-range ids are removed and the rest renumbered; premium only, and at least one id is needed |
| Cities.CityList.RemoveCity | license-verification.php:1325-1337 | one in-range position is spliced out; premium only |
| Backups.BackupList.CreateBackup | license-verification.php:1345-1362 | premium only, and only with entries: the snapshot is appended, and a non-array list is reset first |
| Backups.Restore | license-verification.php:1364-1378 | a decoded array with an `entries` member replaces the entry list wholesale; anything else changes nothing |
| Backups.BackupRoundTrip | license-verification.php:1345-1378 | restoring a just-created backup brings back exactly the saved entries |
| Backups.RestoreBypassesCap | license-verification.php:1368-1371 | a restore can leave more than ten entries |
| Lookup.RetrievalFieldOk | license-verification.php:1928-1934 | the retrieval field is valid iff some non-file field has exactly that label |
| Lookup.FirstMatch | license-verification.php:2019-2025 | the lookup returns the first entry whose retrieval field equals the value; no result means that no entry matches |
| Lookup.DisplayRows | license-verification.php:2044-2049 | every row shows a field the entry holds, with falsy values as "-"; every held non-file field has a row, and every row comes from such a field |
| Lookup.ShownPositions | license-verification.php:2044-2045 | the positions, in increasing order, of exactly the non-file fields the entry holds |
| Lookup.DisplayRowsExact | license-verification.php:2044-2049 | the table has exactly one row per shown field, in field order: row k is the k-th shown field's label and displayed value |
| Lookup.FirstFile | license-verification.php:2033-2036 | the photo field is the first file field |
| Lookup.Photo | license-verification.php:2033-2039 | a photo is shown iff the first file field's label and the entry's value under it are both non-empty, and then it is that value |
| Lookup.CityGate | license-verification.php:1942-1996 | the session gains a city only when the gate is active, a check was posted, and the city is eligible |
| Lookup.Shortcode | license-verification.php:1900-2099 | the checks apply in order (disabled, not configured, bad retrieval field); the form shows iff the gate is off or a city is in the session; a lookup happens iff the form shows and a verify was posted |
| Lookup.LookupSound | license-verification.php:2013-2025 | a match is the first entry holding the value posted under the field's input name; "no match" means no entry holds it |
| Lookup.GateGuardsForm | license-verification.php:1998-1999 | with the gate on, the form shows only to a session holding a city, and only an eligible city enters the session |
| Lookup.EmptyCityListHidesForm | license-verification.php:1942-1999 | with the gate on, an empty city list and no session city, neither the city form nor the lookup form is shown |
| Lookup.ShortcodeDefaults | license-verification.php:1902-1903 | the shortcode's own defaults (no fields; retrieval field "CNIC") reject the page before activation has stored options |
| Lookup.ExactComparison | license-verification.php:2020 | the lookup compares strings exactly ("0" is not ""), while the card shows a stored "0" as "-" |

## Left out

- HTML, CSS and JavaScript output, admin notices and page layout are not modelled. Only the decisions behind them are.
- The HTTP client (`wp_remote_post`) is not modelled. Its outcome is a `Reply` parameter, and timeouts and TLS are not modelled.
- JSON decoding is not modelled. A decoded body is either not an array or a map of string members. Non-string members (for example an `expiry` that is a number) and an `entries` member that is not a list of string maps are not represented.
- `sanitize_text_field` is treated as the identity. Its trimming and tag stripping are not modelled.
- `strtotime` is a parameter. In the activate handler, a reply without an `expiry` member reads as a failed parse.
- The clock is one `now` value per request. Transient expiry is represented only by the one-day age test.
- Upload handling, file-existence checks and `unlink` are not modelled. An upload is an outcome parameter, and deletions only return the list of URLs they would remove.
- The backup download handler only sets headers and writes output, so it is not modelled.
- The general settings, template selection, success message, ad banner, login-access handlers and the uninstall hook are not part of this model. The template appears only as the choice between drawing a result card or not.
- Concurrency between requests is not modelled. Each handler runs on the option values read at its start.
- `in_array($i, $required)` compares loosely in PHP. It is modelled as membership of the row number in an integer list.
- Stored options that hold something other than the expected array (apart from the backup list) are not modelled. The entries and cities are always lists.
- The License page runs a forced check (`lv_is_plugin_activated(true)`) before its activate and deactivate handlers. The model provides the check and the handlers as separate operations and does not compose them into one page load.
- Ids (entry ids, city ids, the edited entry's id) are the integers after PHP's `intval`. A non-numeric id in the request reads as 0 and so acts on entry or city 0; the model takes the ids as integers and does not show this conversion.
- Lookup.Shortcode: the session city stays in the session once set. The model does not track session expiry or a session shared across forms.

### Quirks of the code

The model reproduces these behaviours as written; each line says what a reader might otherwise expect.

- Entries.EntryStore.AddEntry: the free-tier cap is checked before validation, so a free-tier add at ten entries reports the cap even when fields are missing; one might expect the missing fields to be reported too.
- Schema.FormOptions.SaveRetrievalField: a premium choice is stored without checking that it names a non-file field; one might expect the Form Builder to refuse it. Only the shortcode checks it later (`Lookup.RetrievalFieldOk`).
- License.Deactivate: deactivation keeps the stored key and the usage-report stamp; one might expect the key to be removed.
- License.ActivationIgnoresSite: activation does not compare the reply's `site_url` with this site; one might expect it to refuse a key registered elsewhere, as the periodic check does.
- License.FailedCheckRetries: a failed verify request does not stamp the check time, so a check that was due is retried on every call while the server is unreachable; one might expect one attempt a day. After a failed forced check the earlier stamp stays in force (License.ForcedFailureKeepsStamp).
