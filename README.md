# Course administration dashboard: a verified model of its controllers

This project models the logic of a browser dashboard for a small course catalogue. The catalogue has instructors (Dozenten), rooms (Räume), participants (Teilnehmer), courses (Kurse) and enrollments (Anmeldungen). A remote record service stores all of them, one app per entity.

Each entity has a tab. A tab is a small state machine:
- It holds the loaded list (plus the related lists it needs for names), `loading`, the open dialog, the record being edited, the id waiting for delete confirmation, the `saving` flag and the form.
- Its handlers are `load`, `openNew`, `openEdit`, `handleSave` and `handleDelete`.

The dashboard page adds two things: an overview with counts and the payment rate, and a sidebar that switches between the six tabs.

Modules:
- `JsValues`: optional values, the whitespace set that `trim()` strips, and the three fallback idioms on strings ('' for absent, absent for '', none for empty).
- `Decimal`: the decimal numeral of a whole number and the number a digit string denotes. Both round trips are proved.
- `AppTypes`: the field records of the five apps, and the reference codec as two opaque functions. Also the shared payment filter.
- `Store`: one service table as a class over an ordered sequence of records with unique ids. Any call may fail, and a failed call changes nothing. `AsMap` gives the map view; lookup by id is also here.
- `TeilnehmerTab`, `DozentenTab`, `RaeumeTab`, `KurseTab`, `AnmeldungenTab`: one module per tab. Each holds:
  - the form as a `Draft` datatype;
  - the record→form and form→fields conversions with their round-trip lemmas;
  - a `Controller` class whose methods are the handlers.
- `Dashboard`: the overview statistics, the payment rate and its text, the `OverviewTab` and `Shell` classes, and the active-tab switch.

Each handler is one atomic step. `handleSave` is split in two: the guard, and `Submit`, the `try`/`finally` block that runs the store call and the reload. When a handler's store call succeeds, it then reloads. That reload can itself fail, and the handler reports this in `Done(reloaded)`.

## Model

| member | source | states |
|---|---|---|
| JsValues.Trim | src/components/tabs/TeilnehmerTab.tsx:47 | The trimmed name is the slice of the input left after removing every leading and every trailing whitespace character: the parts cut off are all whitespace. It is empty exactly when the input is all whitespace; otherwise it starts and ends with non-whitespace. |
| JsValues.TrimBlank | src/components/tabs/TeilnehmerTab.tsx:47 | Trimming both ends leaves nothing if and only if every character is whitespace. |
| JsValues.OrEmpty | src/components/tabs/TeilnehmerTab.tsx:38-41 | `x || ''` is '' exactly when the field is absent or empty, and is the field's text otherwise. |
| JsValues.EmptyToNone | src/components/tabs/TeilnehmerTab.tsx:51-54 | `s || undefined` is absent exactly when the input is '', and is the input's text otherwise. |
| JsValues.NonEmpty | src/components/tabs/KurseTab.tsx:128 | `?.fields.name || null` gives no name exactly when the name is absent or empty, and the name itself otherwise. |
| JsValues.EmptyToNoneOrEmpty | src/components/tabs/TeilnehmerTab.tsx:38-54 | A field read into the form as '' when absent and saved as absent when '' comes back unchanged if and only if it was not present-but-empty. |
| JsValues.OrEmptyEmptyToNone | src/components/tabs/TeilnehmerTab.tsx:38-54 | Text saved as absent-when-empty and read back into the form is the same text. |
| Decimal.Show | src/components/tabs/RaeumeTab.tsx:38 | The numeral of a number is non-empty digits without a leading zero; it starts with '0' only for zero. |
| Decimal.ShowInt | src/pages/Dashboard.tsx:64-65 | An integer in a sub-text is a sign exactly when it is negative, followed by a canonical numeral that reads back as its magnitude. |
| Decimal.Parse | src/components/tabs/RaeumeTab.tsx:50 | `Number(s)` of a digit string is zero exactly when every digit is '0'. Together with Decimal.ParseShow and Decimal.ShowParse, it inverts Decimal.Show. |
| Decimal.ShowOptional | src/components/tabs/RaeumeTab.tsx:38 | A stored capacity shows as '' exactly when it is absent, and otherwise as a canonical numeral. |
| Decimal.ParseOptional | src/components/tabs/RaeumeTab.tsx:50 | An empty input saves no capacity, and any other digit string saves a number. That number is zero exactly when every digit is '0'. |
| Decimal.ParseShow | src/components/tabs/RaeumeTab.tsx:38-50 | Reading back the numeral of n gives n. |
| Decimal.ShowParse | src/components/tabs/RaeumeTab.tsx:38-50 | A numeral without leading zeros, read as a number and written again, is the same numeral. |
| Decimal.OptionalRoundTrip | src/components/tabs/RaeumeTab.tsx:38-50 | A stored capacity (present or absent) shown in its input and saved again is the same capacity. |
| Decimal.OptionalTextRoundTrip | src/components/tabs/RaeumeTab.tsx:38-50 | '' or a canonical numeral typed into a number input, saved and shown again, is the same text. |
| AppTypes.RefOf | src/components/tabs/KurseTab.tsx:98-99 | A reference is written exactly when the form id is not ''. |
| AppTypes.IdOf | src/components/tabs/KurseTab.tsx:80-81 | A missing reference, or one the codec cannot read, gives the form id ''. A non-empty form id is the id the codec extracts from the reference. |
| AppTypes.IsPaid | src/components/tabs/AnmeldungenTab.tsx:103 | An enrollment counts as paid exactly when its flag is present and true; an absent flag is unpaid, as `bezahlt || false` reads it. |
| AppTypes.RefRoundTrip | src/components/tabs/KurseTab.tsx:80-99 | Under the codec's decode-after-encode law, a form id saved as a reference reads back as the same id; no reference is written exactly when the id is ''. |
| AppTypes.IdRoundTrip | src/components/tabs/KurseTab.tsx:80-99 | Under that law, a reference the app created (or none), read into the form and saved again, is the same reference. |
| AppTypes.PaidOnes | src/components/tabs/AnmeldungenTab.tsx:103 | The paid filter keeps only enrollments whose flag is set, all taken from the list, and is no longer than the list. |
| AppTypes.CountOpen | src/components/tabs/AnmeldungenTab.tsx:104 | The open count is at most the number of enrollments, and zero exactly when every enrollment is paid. |
| AppTypes.PaidPlusOpen | src/components/tabs/AnmeldungenTab.tsx:103-104 | The paid enrollments and the unpaid enrollments, counted separately, add up to the whole list. |
| Store.Replace | src/components/tabs/TeilnehmerTab.tsx:57 | An update gives the record with the id the new fields and leaves every other record where and as it was. |
| Store.Remove | src/components/tabs/TeilnehmerTab.tsx:70 | A delete leaves only records with other ids, all taken from the table. |
| Store.AppendFresh | src/components/tabs/TeilnehmerTab.tsx:59 | A create under a fresh id keeps the ids unique and adds exactly that entry to the map view. |
| Store.ReplaceKeeps | src/components/tabs/TeilnehmerTab.tsx:57 | An update keeps the ids unique and the same, changes exactly that map entry, and changes nothing for an unknown id. |
| Store.RemoveKeeps | src/components/tabs/TeilnehmerTab.tsx:70 | A delete keeps the remaining ids unique and removes exactly that id from the map view. |
| Store.Find | src/components/tabs/KurseTab.tsx:128 | The search by id finds nothing if and only if no record has the id; otherwise it returns the first record with that id. |
| Store.FoundName | src/components/tabs/KurseTab.tsx:126-134 | A name lookup gives the name of the first record with the id, with an empty name counting as none; with unique ids that is the name of the record with the id. It gives nothing when no record has the id, and any name it gives is non-empty. |
| Store.FindFirst | src/components/tabs/KurseTab.tsx:128 | The search by id returns the record with the id that no earlier record shares. |
| Store.FindEach | src/components/tabs/KurseTab.tsx:126-134 | With unique ids, searching for any record's own id finds that record. |
| Store.FindUnique | src/components/tabs/KurseTab.tsx:126-134 | With unique ids, searching for a record's own id finds that record. |
| Store.Table.List | src/components/tabs/TeilnehmerTab.tsx:24 | A successful fetch returns every record in the service's order. |
| Store.Table.Create | src/components/tabs/TeilnehmerTab.tsx:59 | A successful create appends one record under a non-empty unused id, which adds one map entry; a failed one changes nothing. |
| Store.Table.Update | src/components/tabs/TeilnehmerTab.tsx:57 | A successful update needs a known id and replaces that record's fields; a failed one changes nothing. |
| Store.Table.Delete | src/components/tabs/TeilnehmerTab.tsx:70 | A successful delete needs a known id and removes it; a failed one changes nothing. |
| Store.Table.Save | src/components/tabs/TeilnehmerTab.tsx:56-60 | Exactly one mutation: an update of the edited record's id when there is one, otherwise a create. |
| TeilnehmerTab.DraftOf | src/components/tabs/TeilnehmerTab.tsx:37-42 | Each input shows the stored value, or '' when the field is absent. |
| TeilnehmerTab.FieldsOf | src/components/tabs/TeilnehmerTab.tsx:50-55 | The fields sent never hold an empty optional text, and opening them again gives back exactly the form. |
| TeilnehmerTab.CanSave | src/components/tabs/TeilnehmerTab.tsx:47 | Saving goes ahead exactly when the name holds a non-whitespace character. |
| TeilnehmerTab.SavedFields | src/components/tabs/TeilnehmerTab.tsx:50-55 | The name is written verbatim; each optional field is omitted exactly when it is empty, and otherwise written as typed. |
| TeilnehmerTab.EditSaveRoundTrip | src/components/tabs/TeilnehmerTab.tsx:35-55 | Opening a record and saving it unchanged writes back the same fields if and only if the name is present and no optional field is present-but-empty. |
| TeilnehmerTab.Controller.constructor | src/components/tabs/TeilnehmerTab.tsx:14-20 | After mounting: empty list, loading, dialog closed, nothing edited or pending, empty form. |
| TeilnehmerTab.Controller.Load | src/components/tabs/TeilnehmerTab.tsx:22-25 | On success the list is exactly the service's records; on failure it stays. Loading ends either way. |
| TeilnehmerTab.Controller.OpenNew | src/components/tabs/TeilnehmerTab.tsx:29-33 | Nothing is edited, the form is all '', and the dialog is open. |
| TeilnehmerTab.Controller.OpenEdit | src/components/tabs/TeilnehmerTab.tsx:35-44 | The record is being edited, the form holds its fields with absent ones as '', and the dialog is open. |
| TeilnehmerTab.Controller.SetForm | src/components/tabs/TeilnehmerTab.tsx:152-164 | Typing into an input sets the form to the typed draft. |
| TeilnehmerTab.Controller.CloseDialog | src/components/tabs/TeilnehmerTab.tsx:144-168 | The cancel button, or closing the dialog, closes it. |
| TeilnehmerTab.Controller.RequestDelete | src/components/tabs/TeilnehmerTab.tsx:134 | The row's id waits for confirmation. |
| TeilnehmerTab.Controller.CancelDelete | src/components/tabs/TeilnehmerTab.tsx:178 | Closing the confirmation clears the pending id. |
| TeilnehmerTab.Controller.Submit | src/components/tabs/TeilnehmerTab.tsx:48-65 | One save of the given fields. On success the dialog closes and the list reloads; on failure the table, list and dialog stay. `saving` ends false. |
| TeilnehmerTab.Controller.HandleSave | src/components/tabs/TeilnehmerTab.tsx:46-66 | It does nothing (no call, no state change) if and only if the trimmed name is empty. Otherwise the table ends as one update of the edited record or one create, with these fields. |
| TeilnehmerTab.Controller.HandleDelete | src/components/tabs/TeilnehmerTab.tsx:68-73 | No pending id means no effect. Otherwise that record is removed, the pending id cleared and the list reloaded; a failed delete keeps the pending id and does not reload. |
| TeilnehmerTab.EditThenSave | src/components/tabs/TeilnehmerTab.tsx:35-66 | Editing a record and saving it at once does not stop at the guard. On success it replaces that record's fields with themselves. |
| DozentenTab.DraftOf | src/components/tabs/DozentenTab.tsx:35-40 | Each input shows the stored value, or '' when the field is absent. |
| DozentenTab.FieldsOf | src/components/tabs/DozentenTab.tsx:48-52 | The form is sent as it is: every field is written, even when empty, and reading the record back gives the form. |
| DozentenTab.CanSave | src/components/tabs/DozentenTab.tsx:45 | Saving goes ahead exactly when the name holds a non-whitespace character. |
| DozentenTab.EditSaveWritesEmpty | src/components/tabs/DozentenTab.tsx:33-52 | Editing and saving unchanged writes back the same fields if and only if all four are present. A missing e-mail, phone or subject is written as ''. |
| DozentenTab.Controller.constructor | src/components/tabs/DozentenTab.tsx:12-18 | Initial state as for participants. |
| DozentenTab.Controller.Load | src/components/tabs/DozentenTab.tsx:20-23 | The list is replaced wholesale on success and kept on failure; loading ends. |
| DozentenTab.Controller.OpenNew | src/components/tabs/DozentenTab.tsx:27-31 | Nothing is edited, the four fields are '', and the dialog is open. |
| DozentenTab.Controller.OpenEdit | src/components/tabs/DozentenTab.tsx:33-42 | The form holds the record's fields with absent ones as ''. |
| DozentenTab.Controller.SetForm | src/components/tabs/DozentenTab.tsx:151-163 | Typing into an input sets the form to the typed draft. |
| DozentenTab.Controller.CloseDialog | src/components/tabs/DozentenTab.tsx:143-167 | The cancel button, or closing the dialog, closes it. |
| DozentenTab.Controller.RequestDelete | src/components/tabs/DozentenTab.tsx:131 | The row's id waits for confirmation. |
| DozentenTab.Controller.CancelDelete | src/components/tabs/DozentenTab.tsx:177 | Closing the confirmation clears the pending id. |
| DozentenTab.Controller.Submit | src/components/tabs/DozentenTab.tsx:46-57 | One save, then close and reload; a failure changes nothing but `saving`, which ends false. |
| DozentenTab.Controller.HandleSave | src/components/tabs/DozentenTab.tsx:44-58 | It does nothing if and only if the trimmed name is empty. Otherwise one update or create of the unchanged form. |
| DozentenTab.Controller.HandleDelete | src/components/tabs/DozentenTab.tsx:60-65 | No pending id means no effect; otherwise delete, clear the pending id and reload. A failure keeps the id. |
| RaeumeTab.DraftOf | src/components/tabs/RaeumeTab.tsx:35-39 | Each text input shows the stored value, or '' when absent; the capacity input holds digits, and is empty exactly when no capacity is stored. |
| RaeumeTab.FieldsOf | src/components/tabs/RaeumeTab.tsx:47-51 | Opening the sent fields again shows the same name and building. No empty building is written, and the capacity is absent exactly when its input is empty. |
| RaeumeTab.CanSave | src/components/tabs/RaeumeTab.tsx:44 | Saving goes ahead exactly when the room name holds a non-whitespace character. |
| RaeumeTab.EditSaveRoundTrip | src/components/tabs/RaeumeTab.tsx:36-50 | Editing and saving unchanged keeps the capacity. It writes back the same fields if and only if the room name is present and the building is not present-but-empty. |
| RaeumeTab.SaveEditRoundTrip | src/components/tabs/RaeumeTab.tsx:36-51 | A form whose capacity is '' or a numeral without leading zeros, saved and opened again, is the same form. |
| RaeumeTab.Controller.constructor | src/components/tabs/RaeumeTab.tsx:12-18 | Initial state as for participants. |
| RaeumeTab.Controller.Load | src/components/tabs/RaeumeTab.tsx:20-23 | The list is replaced wholesale on success and kept on failure; loading ends. |
| RaeumeTab.Controller.OpenNew | src/components/tabs/RaeumeTab.tsx:27-31 | Nothing is edited, the three fields are '', and the dialog is open. |
| RaeumeTab.Controller.OpenEdit | src/components/tabs/RaeumeTab.tsx:33-41 | The form holds the record's fields and the capacity as its numeral, or ''. |
| RaeumeTab.Controller.SetForm | src/components/tabs/RaeumeTab.tsx:140 | Typing sets the form; the capacity input holds digits only. |
| RaeumeTab.Controller.CloseDialog | src/components/tabs/RaeumeTab.tsx:124-144 | The cancel button, or closing the dialog, closes it. |
| RaeumeTab.Controller.RequestDelete | src/components/tabs/RaeumeTab.tsx:110 | The card's id waits for confirmation. |
| RaeumeTab.Controller.CancelDelete | src/components/tabs/RaeumeTab.tsx:154 | Closing the confirmation clears the pending id. |
| RaeumeTab.Controller.Submit | src/components/tabs/RaeumeTab.tsx:45-61 | One save, then close and reload; a failure changes nothing but `saving`, which ends false. |
| RaeumeTab.Controller.HandleSave | src/components/tabs/RaeumeTab.tsx:43-62 | It does nothing if and only if the trimmed room name is empty. Otherwise one update or create with the capacity as a number. |
| RaeumeTab.Controller.HandleDelete | src/components/tabs/RaeumeTab.tsx:64-69 | No pending id means no effect; otherwise delete, clear the pending id and reload. A failure keeps the id. |
| KurseTab.StatusOrPlanned | src/components/tabs/KurseTab.tsx:82 | The form's status is the record's non-empty status, else 'geplant'. |
| KurseTab.DraftOf | src/components/tabs/KurseTab.tsx:71-85 | Each text input shows the stored value, or '' when absent. A number input is empty exactly when no number is stored. The instructor and room choices hold the id the reference decodes to, or ''. The status is never empty. |
| KurseTab.FieldsOf | src/components/tabs/KurseTab.tsx:90-100 | The title is sent as typed; no empty text field is written, and each text field reads back as typed. A number, reference or status is absent exactly when its input is empty. |
| KurseTab.CanSave | src/components/tabs/KurseTab.tsx:88 | Saving goes ahead exactly when the title holds a non-whitespace character. |
| KurseTab.EditSaveRoundTrip | src/components/tabs/KurseTab.tsx:71-101 | Editing a course and saving it unchanged keeps its numbers and the references the app created, and gives a status-less course 'geplant'. It writes back the same fields if and only if the title and a non-empty status are present and no text field is present-but-empty. |
| KurseTab.SaveEditRoundTrip | src/components/tabs/KurseTab.tsx:71-101 | A form with canonical numbers and a status, saved and opened again, is the same form; instructor and room ids survive the codec. |
| KurseTab.StatusLabel | src/components/tabs/KurseTab.tsx:16-30 | No badge for an absent or empty status. A shown badge is never empty, and an unknown status is shown as it is. |
| KurseTab.KnownStatusLabels | src/components/tabs/KurseTab.tsx:16-21 | The four known statuses show their German labels, and no known status is shown raw. |
| KurseTab.NewCourseFields | src/components/tabs/KurseTab.tsx:91-101 | A new course with only a title is sent as the title and status 'geplant', everything else absent, and shows the badge "Geplant". |
| KurseTab.DozentName | src/components/tabs/KurseTab.tsx:126-129 | When the reference decodes to the id of a loaded instructor (ids unique), the name shown is that instructor's name, or none when it is empty. No reference means no name, and a name shown is non-empty and belongs to an instructor with the decoded id. |
| KurseTab.RaumName | src/components/tabs/KurseTab.tsx:131-134 | When the reference decodes to the id of a loaded room (ids unique), the name shown is that room's name, or none when it is empty. No reference means no name, and a name shown is non-empty and belongs to a room with the decoded id. |
| KurseTab.ChosenNamesShown | src/components/tabs/KurseTab.tsx:98-134 | An instructor and a room chosen from the loaded lists and saved are displayed under their own names, or with no name when that name is empty. |
| KurseTab.Controller.constructor | src/components/tabs/KurseTab.tsx:40-48 | After mounting: the three lists empty, loading, dialog closed, empty planned form. |
| KurseTab.Controller.Load | src/components/tabs/KurseTab.tsx:50-61 | All three lists are replaced together when all three fetches succeed, and none otherwise; loading ends. |
| KurseTab.Controller.OpenNew | src/components/tabs/KurseTab.tsx:65-69 | Nothing is edited, the form is empty with status 'geplant', and the dialog is open. |
| KurseTab.Controller.OpenEdit | src/components/tabs/KurseTab.tsx:71-85 | The form holds the record converted as in the round-trip lemmas. |
| KurseTab.Controller.SetForm | src/components/tabs/KurseTab.tsx:241-248 | Typing sets the form; the number inputs hold digits only. |
| KurseTab.Controller.CloseDialog | src/components/tabs/KurseTab.tsx:216-284 | The cancel button, or closing the dialog, closes it. |
| KurseTab.Controller.RequestDelete | src/components/tabs/KurseTab.tsx:171 | The card's id waits for confirmation. |
| KurseTab.Controller.CancelDelete | src/components/tabs/KurseTab.tsx:294 | Closing the confirmation clears the pending id. |
| KurseTab.Controller.Submit | src/components/tabs/KurseTab.tsx:89-111 | One save, then close and reload all lists; a failure changes nothing but `saving`, which ends false. |
| KurseTab.Controller.HandleSave | src/components/tabs/KurseTab.tsx:87-112 | It does nothing if and only if the trimmed title is empty. Otherwise one update or create of the converted form. |
| KurseTab.Controller.HandleDelete | src/components/tabs/KurseTab.tsx:114-119 | No pending id means no effect; otherwise delete, clear the pending id and reload. A failure keeps the id and the lists. |
| KurseTab.NewCourse | src/components/tabs/KurseTab.tsx:65-112 | New course, type a non-blank title, save: on success exactly one planned course with that title and nothing else is appended under a fresh id. |
| AnmeldungenTab.NewDraft | src/components/tabs/AnmeldungenTab.tsx:44 | A new enrollment is unpaid, dated today, and cannot be saved until both choices are made. |
| AnmeldungenTab.DraftOf | src/components/tabs/AnmeldungenTab.tsx:50-55 | Each choice holds the id its reference decodes to, or ''. The date input shows the stored date or ''. The checkbox is ticked exactly when the stored flag is true. |
| AnmeldungenTab.CanSave | src/components/tabs/AnmeldungenTab.tsx:60 | Saving goes ahead exactly when a participant and a course are chosen. The "none" item of either select is ''. |
| AnmeldungenTab.FieldsOf | src/components/tabs/AnmeldungenTab.tsx:63-68 | The participant and course references and the payment flag are always written. |
| AnmeldungenTab.SaveEditRoundTrip | src/components/tabs/AnmeldungenTab.tsx:48-68 | Under the codec law, a form saved and opened again is the same form. |
| AnmeldungenTab.EditSaveRoundTrip | src/components/tabs/AnmeldungenTab.tsx:48-68 | Editing an enrollment the app created and saving unchanged keeps both references and the payment state. It writes back the same fields if and only if the flag is present and the date is not present-but-empty. |
| AnmeldungenTab.MissingReferenceBlocksSave | src/components/tabs/AnmeldungenTab.tsx:51-60 | An enrollment whose participant or course reference is missing or unreadable opens with that choice empty, and cannot be saved. |
| AnmeldungenTab.TeilnehmerName | src/components/tabs/AnmeldungenTab.tsx:88-91 | When the reference decodes to the id of a loaded participant (ids unique), the text shown is that participant's name, or '—' when it is empty. The text is never empty, is '—' for no reference, and any other text is the name of a participant with the decoded id. |
| AnmeldungenTab.KursTitel | src/components/tabs/AnmeldungenTab.tsx:93-96 | When the reference decodes to the id of a loaded course (ids unique), the text shown is that course's title, or '—' when it is empty. The text is never empty, is '—' for no reference, and any other text is the title of a course with the decoded id. |
| AnmeldungenTab.ChosenNamesShown | src/components/tabs/AnmeldungenTab.tsx:63-96 | A participant and a course chosen from the loaded lists and saved are shown under their own name and title, or '—' when those are empty. |
| AnmeldungenTab.BezahltCount | src/components/tabs/AnmeldungenTab.tsx:103 | The paid count never exceeds the enrollments. Its value is fixed by AnmeldungenTab.OffenCount: it is the number of enrollments less the unpaid ones. |
| AnmeldungenTab.OffenCount | src/components/tabs/AnmeldungenTab.tsx:103-104 | The open count is exactly the number of unpaid enrollments, so never negative; paid plus open is the total. |
| AnmeldungenTab.Controller.constructor | src/components/tabs/AnmeldungenTab.tsx:17-25 | After mounting: the three lists empty, loading, dialog closed, nothing edited or pending, an empty unpaid form. |
| AnmeldungenTab.Controller.Load | src/components/tabs/AnmeldungenTab.tsx:27-38 | The three lists are replaced together when all three fetches succeed, and none otherwise; loading ends. |
| AnmeldungenTab.Controller.OpenNew | src/components/tabs/AnmeldungenTab.tsx:42-46 | Nothing is edited, no participant or course is chosen, unpaid, dated the given day, and the dialog is open. |
| AnmeldungenTab.Controller.OpenEdit | src/components/tabs/AnmeldungenTab.tsx:48-57 | The form holds the decoded ids, the date or '', and the flag or false. |
| AnmeldungenTab.Controller.SetForm | src/components/tabs/AnmeldungenTab.tsx:193-219 | Choosing, typing or ticking sets the form to the new draft. |
| AnmeldungenTab.Controller.CloseDialog | src/components/tabs/AnmeldungenTab.tsx:185-225 | The cancel button, or closing the dialog, closes it. |
| AnmeldungenTab.Controller.RequestDelete | src/components/tabs/AnmeldungenTab.tsx:175 | The row's id waits for confirmation. |
| AnmeldungenTab.Controller.CancelDelete | src/components/tabs/AnmeldungenTab.tsx:235 | Closing the confirmation clears the pending id. |
| AnmeldungenTab.Controller.Submit | src/components/tabs/AnmeldungenTab.tsx:61-78 | One save, then close and reload all lists; a failure changes nothing but `saving`, which ends false. |
| AnmeldungenTab.Controller.HandleSave | src/components/tabs/AnmeldungenTab.tsx:59-79 | It does nothing if and only if the participant or the course is not chosen. Otherwise one update or create with both references. |
| AnmeldungenTab.Controller.HandleDelete | src/components/tabs/AnmeldungenTab.tsx:81-86 | No pending id means no effect; otherwise delete, clear the pending id and reload. A failure keeps the id. |
| AnmeldungenTab.SaveRightAfterOpenNew | src/components/tabs/AnmeldungenTab.tsx:42-60 | Saving straight after opening a new enrollment does nothing and leaves the service unchanged. |
| Dashboard.StatsOf | src/pages/Dashboard.tsx:33-41 | The paid count of fetched lists never exceeds the enrollments. Its value is fixed by Dashboard.OpenPaymentsCounted: the enrollments less the paid count is the number of unpaid enrollments. |
| Dashboard.OffeneZahlungen | src/pages/Dashboard.tsx:46 | The open payments add up with the paid count to the enrollments. They are non-negative exactly when the paid count does not exceed the enrollments. |
| Dashboard.OpenPaymentsCounted | src/pages/Dashboard.tsx:40-46 | The open payments are exactly the unpaid enrollments, so never negative. |
| Dashboard.RoundPercent | src/pages/Dashboard.tsx:99 | The rate is the whole number nearest to 100·paid/total, halves up. It is at most 100 when paid ≤ total. |
| Dashboard.PaymentRate | src/pages/Dashboard.tsx:99 | The card shows '—' if and only if there are no enrollments, and otherwise a canonical numeral followed by " %". |
| Dashboard.PaymentRateShown | src/pages/Dashboard.tsx:99 | The number on the card is the rounded rate and lies between 0 and 100. |
| Dashboard.PaymentSub | src/pages/Dashboard.tsx:100 | The payment card's sub-text is two canonical numerals around " von ", and they read back as the paid count and the enrollments. |
| Dashboard.EnrollmentSub | src/pages/Dashboard.tsx:65 | When the paid count does not exceed the enrollments, the sub-text is two canonical numerals before " bezahlt · " and " offen". They read back as the paid count and the open count, so the open count has no sign. |
| Dashboard.EnrollmentSubCounts | src/pages/Dashboard.tsx:65 | The enrollments card reads "b bezahlt · o offen": b is the paid count and o the unpaid count, with no sign. |
| Dashboard.FortyPercent | src/pages/Dashboard.tsx:99-100 | 4 paid of 10 reads "40 %" and "4 von 10"; no enrollments read "—" and "0 von 0". |
| Dashboard.OverviewTab.constructor | src/pages/Dashboard.tsx:23-24 | All counts start at zero and loading. |
| Dashboard.OverviewTab.Fetch | src/pages/Dashboard.tsx:26-43 | The statistics of the five lists are set when all five fetches succeed, and stay otherwise; loading ends. |
| Dashboard.OverviewTab.OpenPayments | src/pages/Dashboard.tsx:46 | The open payments shown are never negative and add up with the paid count to the enrollments. |
| Dashboard.MountedAmong | src/pages/Dashboard.tsx:176-181 | Only the active tab is mounted, once per block that has it. |
| Dashboard.MountedOnce | src/pages/Dashboard.tsx:176-181 | When each tab has one block, exactly the active tab's block is mounted. |
| Dashboard.MountedNone | src/pages/Dashboard.tsx:176-181 | A tab without a block mounts nothing. |
| Dashboard.NavCoversSlots | src/pages/Dashboard.tsx:13-20 | The sidebar entries list the six tabs in the order of the content blocks, and every tab appears once. |
| Dashboard.Shell.constructor | src/pages/Dashboard.tsx:120 | The page opens on the overview, and only the overview is mounted. |
| Dashboard.Shell.Navigate | src/pages/Dashboard.tsx:151 | Clicking an entry makes its tab active, and exactly that tab is mounted. |

## Left out

- The reference codec (`createRecordUrl`, `extractRecordId`) is not part of this model. Both are otherwise arbitrary functions, with one assumption: `extractRecordId(undefined)` gives no id (`AppTypes.Extract` of an absent reference is `None`). The lookups, `AppTypes.IdOf` and `AnmeldungenTab.MissingReferenceBlocksSave` rely on it. Decode-after-encode is a stated precondition (`DecodesEncoded`) wherever a lemma needs it.
- KurseTab.StatusLabel: looks a status up as a key of the four labels only. `STATUS_LABELS` (src/components/tabs/KurseTab.tsx:16-21) is a plain object, so at line 27 a status named after an `Object.prototype` member behaves differently. 'toString' or 'constructor' finds an inherited function, which React renders as nothing. '__proto__' finds an object, on which React throws. The model shows all of these as the raw status.
- RaeumeTab.FieldsOf: capacities are whole, non-negative numerals here (`WellFormed`). The number input at src/components/tabs/RaeumeTab.tsx:140 still lets through text such as '-3', '2.5' or '1e3', despite `min="1"`, and `Number` stores each of them as typed. The same holds for the course's participant limit and price.
- The record service's network calls, authentication and error values are left out. Each call either succeeds as described or fails with no effect.
- Timing is left out: `Promise.all` joins, `useEffect` scheduling, callbacks after unmount, and a reload that overlaps a later handler. Each handler is one atomic step. The reload a save or delete starts is not awaited in the source, and here it runs inside the handler.
- Store.Table: the service's order of records is not known. A create appends at the end, and an update and a delete keep the order of the rest.
- KurseTab.FieldsOf: `preis` is a decimal with two places in the source, and `Number` of any text can be NaN. Here both number inputs hold digit strings (`WellFormed`), so prices are whole numbers. `toFixed(2)` display is left out.
- Decimal.ShowParse: proved over unbounded whole numbers. The source stores `Number(s)` as a double, so above 2^53 a numeral can come back rounded, and from 10^21 it prints in exponent form. The text round trip holds in the source only below 2^53.
- Decimal.OptionalTextRoundTrip: the same bound applies. A numeral typed into a number input comes back unchanged in the source only when it is below 2^53.
- RaeumeTab.SaveEditRoundTrip: the same bound applies to the capacity, which the source stores as a double.
- KurseTab.SaveEditRoundTrip: the same bound applies to `max_teilnehmer` and `preis`, which the source stores as doubles.
- Store.Table.Update: a successful update needs an id the table holds; an update of an unknown id fails here. This is a modelling choice for the backend, whose behaviour for an unknown id is not part of this model.
- Store.Table.Delete: a successful delete likewise needs an id the table holds, by the same modelling choice.
- Dashboard.RoundPercent: rounds the exact ratio half up. The source rounds a floating-point product, which can land below an exact half. For example, 29 of 200 gives 14 in the source and 15 here.
- Date formatting with `date-fns` and its fallback are left out. The current date in `openNew` of the enrollments tab is a parameter.
- Rendering is left out: JSX, styling, icons, initials, the empty-state texts, and the two presentation components. The confirmation dialog's close event, which clears the pending id, is modelled as `CancelDelete`, a step of its own.
- Select widgets map the "none" item to ''. Here the form is set directly (`SetForm`) to any draft, so the choice lists are not modelled.
- HandleDelete: the guard is JavaScript falsiness, so a pending id of '' is also a no-op. This follows the code.
- HandleSave: in the source a failed store call propagates as a rejected promise after `finally` clears `saving`. Here it is the `Failed` outcome with `saving` cleared. `saving` is cleared in `finally` (TeilnehmerTab.tsx:46-66), so the button re-enables after a failed save.
- The round trip "edit, then save unchanged, writes the same fields" holds only under conditions, which the lemmas state. Participants and rooms need no present-but-empty optional field. Instructors need all fields present, since the form is sent as it is. Courses need a non-empty status, since an absent one becomes 'geplant'.
