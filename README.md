# Time tracker: PIN gate, reports and time arithmetic in Dafny

This project models the client of a small time-tracking web app. Users keep
pay-rate profiles, clock in and out, and enter or edit time entries. Every
administrative action waits behind a four-digit PIN. The PIN is stored as the
lower-case hex text of a SHA-256 digest in the caller's `user_roles` row. The
model covers:

- **the PIN flows**:
  - the verification modal;
  - the setup modal and the settings page's "set without verification" form;
  - changing the PIN after checking the current one;
  - the six-digit reset codes, which expire after 15 minutes and are marked
    used once redeemed.
- **the action gate**: when the user's `require_pin` flag is not explicitly
  false, a protected action is stored in a one-slot pending action. It runs
  once after the PIN is verified and is discarded on cancel. The manual-entry
  form has a gate without that slot.
- **reports**: the profile filter; the loop that adds up completed entries
  per profile; the CSV layout of the export.
- **time texts**: the duration, earnings and running-clock texts; the
  clock-in and clock-out rules.
- **the two hooks** that read the caller's role and PIN requirement.
- **the dashboard's PIN status check**, and which profile becomes active
  after loading.

Each React handler that updates component state becomes a method of a
`class` whose fields are that component's state. Its `modifies` clause names
exactly the state it sets, and its `ensures` tie the new state to pure
specification functions. The database is the class `Store.Database`, one
field per table. Each backend call takes a `Reply` saying whether the backend
answered or failed.

The signed-in identity is a parameter `Option<UserId>`. So are the current
time, the browser's confirm dialog, the random draw of the reset code and
date parsing. SHA-256 is an abstract `Digest` function. Its hex encoding is
modelled and proved invertible.

Durations are integer milliseconds. Hourly rates are integer cents.
Earnings are milliseconds times cents. So every sum is exact, and
`toFixed(2)` is applied once, to the exact quotient, rounding half up.

- Integer division uses the Euclidean `/` of Dafny, which agrees with
  `Math.floor` for the positive divisors used here.
- JavaScript's `%` is modelled by `Common.JsRem`, whose remainder takes the
  sign of the dividend.
- A backward clock difference is therefore shown as the source would show
  it, not excluded by a precondition.

The model keeps three behaviours of the code that a reader may not expect:

- The PIN modal does not clear its input on success.
- In a reset, the "mark as used" update is sent without checking its
  result. If that update fails, the PIN is still reset, and the code stays
  redeemable (`Settings.VerifyResetOutcome`, `mark` reply).
- A PIN setup whose user has no `user_roles` row reports success, but writes
  nothing (`PinSetup.SetupWithoutRowChangesNothing`).

Modules: `Common`, `Hex`, `Store`, `PinVerify`, `PinSetup`, `Settings`,
`PinRequirement`, `Roles`, `Profiles`, `TimeEntries`, `Manual`, `Clock`,
`Reports`, `Dash`. They follow the source's files one to one; the first
three are shared.

## Model

| member | source | states |
|---|---|---|
| Common.OrNull | client/src/components/ManualEntry.tsx:57 | `text \|\| null`: missing exactly for the empty text, otherwise the text itself |
| Common.MessageOr | client/src/components/PinSetupModal.tsx:51 | `err.message \|\| fallback`: the message when it is non-empty, else the fallback |
| Common.StripNonDigits | client/src/components/PinVerifyModal.tsx:81 | `replace(/\D/g, '')` leaves only digits, never lengthens, and leaves an all-digit text unchanged (both directions) |
| Common.Take | client/src/components/TimeEntryList.tsx:71-72 | `slice(0, n)`: a prefix of the text, at most `n` long, the whole text when it is short enough |
| Common.DigitInput | client/src/components/PinVerifyModal.tsx:76-81 | a numeric input with `maxLength`: only digits, within the length limit, and an acceptable value is kept as typed |
| Common.NatToString | client/src/pages/Reports.tsx:159 | `String(n)` of a count is a non-empty run of digits |
| Common.NatToStringLength | client/src/pages/Settings.tsx:90 | a number with `k` decimal digits prints as exactly `k` characters |
| Common.DecimalValueOfNatToString | client/src/pages/Reports.tsx:159 | the printed digits read back as the number |
| Common.IntToString | client/src/components/TimeEntryList.tsx:53 | `String(n)` of an integer: the digits, with a '-' exactly for a negative value |
| Common.PadStart | client/src/components/ClockInOut.tsx:101 | `padStart(width, pad)`: the original text at the end, pad characters before it, length the larger of the two |
| Common.JsRem | client/src/components/ClockInOut.tsx:98-99 | JavaScript's `%`: equal to the Euclidean remainder for a non-negative dividend, its negation of the magnitude's remainder for a negative one |
| Common.Filter | client/src/components/ProfileManager.tsx:108-111 | a filtered table holds exactly the rows that pass, never more rows, and all rows when every row passes |
| Common.FilterSnoc | client/src/components/ClockInOut.tsx:26-31 | filtering one more row adds it at the end exactly when it passes |
| Common.FilterDistinct | client/src/pages/Reports.tsx:55-58 | filtering distinct values leaves them distinct |
| Common.ParseDate | client/src/components/TimeEntryList.tsx:99 | `new Date('')` is an Invalid Date, so `toISOString` of an empty text never yields an instant |
| Common.UpdateWhere | client/src/pages/Settings.tsx:166-169 | an `UPDATE ... WHERE` keeps the length and replaces exactly the matching rows |
| Common.DecimalValueSnoc | client/src/pages/Reports.tsx:159 | appending a digit to a decimal text multiplies its value by ten and adds the digit |
| Common.RoundedHundredths | client/src/pages/Reports.tsx:159-161 | `toFixed(2)`'s choice of hundredths: the nearest, ties rounded up, stated as a two-sided bound |
| Common.Hundredths | client/src/pages/Reports.tsx:159-161 | hundredths written as a whole part, '.', two digits |
| Common.HundredthsValue | client/src/pages/Reports.tsx:159-161 | the digits of that text, the point left out, denote the hundredths |
| Common.Fixed2 | client/src/components/TimeEntryList.tsx:65 | `(n / d).toFixed(2)`: a '-' exactly for a negative quotient, '.' before two final digits, only number characters |
| Common.Fixed2Value | client/src/components/TimeEntryList.tsx:61-65 | the digits of `Fixed2(n, d)` denote the magnitude of `n / d` rounded to hundredths |
| Hex.HexDigit | client/src/components/PinVerifyModal.tsx:65 | one nibble as a lower-case hexadecimal character |
| Hex.ToHexString | client/src/components/PinVerifyModal.tsx:65 | `b.toString(16)` is non-empty |
| Hex.ByteToHex | client/src/components/PinVerifyModal.tsx:65 | a byte as exactly two lower-case hexadecimal characters |
| Hex.PaddedHexIsTwoNibbles | client/src/components/PinVerifyModal.tsx:65 | `toString(16).padStart(2, '0')` equals the two-nibble text of the byte, for every byte |
| Hex.AllLowerHexConcat | client/src/components/PinVerifyModal.tsx:65 | joining lower-case hex texts gives a lower-case hex text |
| Hex.Encode | client/src/components/PinVerifyModal.tsx:64-65 | the joined text has two lower-case hex characters per digest byte |
| Hex.EncodeAt | client/src/components/PinVerifyModal.tsx:64-65 | byte `i` of the digest sits at characters `2i` and `2i+1` |
| Hex.HexValue | client/src/components/PinVerifyModal.tsx:65 | reading a character back: defined exactly on lower-case hex characters, below 16 |
| Hex.HexValueOfDigit | client/src/components/PinVerifyModal.tsx:65 | reading back the character of a nibble gives the nibble |
| Hex.Decode | client/src/components/PinVerifyModal.tsx:64-65 | the reference inverse of the encoding; a decoded text has two characters per byte |
| Hex.DecodeEncode | client/src/components/PinVerifyModal.tsx:64-65 | round trip: decoding the encoded digest gives the digest back, for every byte sequence |
| Hex.EncodeInjective | client/src/components/PinVerifyModal.tsx:64-65 | two digests have the same text exactly when they are equal |
| Hex.HashPin | client/src/components/PinVerifyModal.tsx:60-66 | `hashPin`: lower-case hex, two characters per digest byte, 64 for a SHA-256 digest |
| Hex.HashPinEqual | client/src/components/PinVerifyModal.tsx:47 | the hash comparison succeeds exactly when the two PINs' digests agree |
| Store.SingleRole | client/src/components/PinVerifyModal.tsx:32-38 | `.single()` on `user_roles`: the caller's row exactly when the read succeeds and the row exists; a failed read carries its message |
| Store.FindProfile | client/src/components/TimeEntryList.tsx:24 | `profiles.find`: a profile of the list with that id, and none exactly when no profile has it |
| Store.WithPinHash | client/src/components/PinSetupModal.tsx:40-43 | the hash update sets only the caller's `pin_hash`, keeps every other row, and adds no row |
| Store.MarkUsed | client/src/pages/Settings.tsx:166-169 | marks exactly the records with that id as used |
| Store.WithoutProfile | client/src/components/ProfileManager.tsx:108-111 | after the delete, exactly the profiles with other ids remain |
| Store.WithProfileFields | client/src/components/ProfileManager.tsx:141-147 | the update changes name and rate of exactly the profile with that id |
| Store.WithoutEntry | client/src/components/TimeEntryList.tsx:118-121 | after the delete, exactly the entries with other ids remain |
| Store.WithEntryPatch | client/src/components/TimeEntryList.tsx:96-104 | the update patches exactly the entry with that id |
| Store.Database.UpdatePinHash | client/src/components/PinSetupModal.tsx:40-45 | the `user_roles` table after the update, unchanged when the backend fails |
| Store.Database.InsertResetCode | client/src/pages/Settings.tsx:94-103 | one record appended on success, nothing otherwise |
| Store.Database.MarkResetCodeUsed | client/src/pages/Settings.tsx:166-169 | the record marked used on success, nothing otherwise |
| Store.Database.InsertProfile | client/src/components/ProfileManager.tsx:40-46 | one profile appended on success, nothing otherwise |
| Store.Database.UpdateProfile | client/src/components/ProfileManager.tsx:141-147 | the profile's fields updated on success, nothing otherwise |
| Store.Database.DeleteProfile | client/src/components/ProfileManager.tsx:108-111 | the profile removed on success, nothing otherwise |
| Store.Database.InsertTimeEntry | client/src/components/ManualEntry.tsx:50-58 | one entry appended on success, nothing otherwise |
| Store.Database.UpdateTimeEntry | client/src/components/TimeEntryList.tsx:96-104 | the entry patched on success, nothing otherwise |
| Store.Database.DeleteTimeEntry | client/src/components/TimeEntryList.tsx:118-121 | the entry removed on success, nothing otherwise |
| PinVerify.Verify | client/src/components/PinVerifyModal.tsx:17-58 | a wrong length is refused before any read; success exactly when the caller's row stores the hash of this PIN; a mismatch (a missing hash included) shows the error and clears the input; no user or a failed read only shows an error |
| PinVerify.NoStoredHashNeverVerifies | client/src/components/PinVerifyModal.tsx:47-52 | a user whose PIN was never set never passes the modal |
| PinVerify.PinVerifyModal.constructor | client/src/components/PinVerifyModal.tsx:13-15 | starts with an empty input, no error, not loading |
| PinVerify.PinVerifyModal.EnterPin | client/src/components/PinVerifyModal.tsx:76-81 | the input holds only digits, at most four |
| PinVerify.PinVerifyModal.Submit | client/src/components/PinVerifyModal.tsx:17-58 | `onSuccess` runs exactly when `Verify` says so; the error and input follow `Verify`; the store is only read; `loading` ends false except after the length check |
| PinSetup.NewPinError | client/src/components/PinSetupModal.tsx:20-28 | a PIN is accepted exactly when it is four ASCII digits equal to its confirmation; first the format message, then the mismatch message |
| PinSetup.SetPin | client/src/components/PinSetupModal.tsx:16-55 | the input checks come first; success exactly when they pass, a user is signed in and the write succeeds; success stores the new PIN's hash in the caller's row only |
| PinSetup.SetupThenVerify | client/src/components/PinSetupModal.tsx:40-48 | after a successful setup on an existing row, the same PIN passes the verification modal |
| PinSetup.SetupWithoutRowChangesNothing | client/src/components/PinSetupModal.tsx:40-48 | without a row the "successful" setup leaves the table as it was, and no PIN verifies afterwards |
| PinSetup.PinSetupModal.constructor | client/src/components/PinSetupModal.tsx:10-14 | starts with empty inputs, no error, not loading |
| PinSetup.PinSetupModal.EnterPin | client/src/components/PinSetupModal.tsx:74-79 | the input holds only digits, at most four |
| PinSetup.PinSetupModal.EnterConfirmPin | client/src/components/PinSetupModal.tsx:88-93 | the confirmation holds only digits, at most four |
| PinSetup.PinSetupModal.Submit | client/src/components/PinSetupModal.tsx:16-55 | `onSuccess` runs exactly when `SetPin` succeeds; the table and the error follow `SetPin`; `loading` ends false once the input checks pass |
| Settings.ChangePinOutcome | client/src/pages/Settings.tsx:22-77 | the new PIN is checked first; a stored hash other than the current PIN's refuses the change, so does no stored PIN; success exactly when every check and both calls pass; success replaces only the caller's hash |
| Settings.ChangeThenVerify | client/src/pages/Settings.tsx:52-66 | after a change the new PIN verifies, and the old one no longer does unless the two share a digest |
| Settings.SixDigits | client/src/pages/Settings.tsx:90 | a number from 100000 to 999999 prints as six digits that read back as it |
| Settings.NewResetCode | client/src/pages/Settings.tsx:89-101 | the new record is unused, expires 15 minutes after creation, and its code is six digits denoting 100000 to 999999 |
| Settings.RequestResetOutcome | client/src/pages/Settings.tsx:79-116 | no user or a failed insert shows its error; success exactly when both pass, appending one record and keeping the others |
| Settings.NewestRedeemable | client/src/pages/Settings.tsx:139-154 | the chosen record is the caller's, carries the code, is unused and unexpired, and is created no earlier than any other such record; none exactly when there is no such record |
| Settings.VerifyResetOutcome | client/src/pages/Settings.tsx:118-183 | the new PIN is checked first; no redeemable record refuses with "Invalid or expired reset code"; success exactly when a record exists and every call passes; success stores the new hash, and marks the chosen record used when the marking call succeeds |
| Settings.MarkedCodeIsSpent | client/src/pages/Settings.tsx:166-169 | a record marked used is never redeemable again, at any time |
| Settings.RequestRedeemReplay | client/src/pages/Settings.tsx:79-183 | a freshly requested code redeems once within its 15 minutes and sets the new hash; redeeming it again is refused; redeeming it at its expiry instant is refused |
| Settings.SettingsPage.constructor | client/src/pages/Settings.tsx:8-20 | every input empty, no message, all panels closed |
| Settings.SettingsPage.ChangePin | client/src/pages/Settings.tsx:22-77 | the new table and the messages follow `ChangePinOutcome`; success clears the three inputs, failure keeps them |
| Settings.SettingsPage.RequestReset | client/src/pages/Settings.tsx:79-116 | the new table, messages and `resetSent` follow `RequestResetOutcome`; the alert shows the stored code; `loading` ends false |
| Settings.SettingsPage.Redeem | client/src/pages/Settings.tsx:139-169 | the backend part of a redemption agrees with `VerifyResetOutcome`, and the tables are updated exactly on success |
| Settings.SettingsPage.ResetAttempt | client/src/pages/Settings.tsx:118-170 | the checks and calls of a redemption agree with `VerifyResetOutcome`; `loading` ends false once the input checks pass |
| Settings.SettingsPage.ShowReset | client/src/pages/Settings.tsx:171-179 | the message for the outcome; on success the reset form closes and its inputs clear |
| Settings.SettingsPage.VerifyReset | client/src/pages/Settings.tsx:118-183 | tables, messages and form follow `VerifyResetOutcome` |
| Settings.SettingsPage.DirectSetPin | client/src/pages/Settings.tsx:185-226 | the new table and messages follow `SetPin`; success closes and clears the form |
| Settings.SettingsPage.EnterCurrentPin | client/src/pages/Settings.tsx:264-266 | the current PIN input keeps only digits, at most 4 of them, and an acceptable value as typed; the page's input invariant `Valid` is kept |
| Settings.SettingsPage.EnterNewPin | client/src/pages/Settings.tsx:277-279 | the new PIN (also 398-400 in the reset form) input keeps only digits, at most 4 of them, and an acceptable value as typed; the page's input invariant `Valid` is kept |
| Settings.SettingsPage.EnterConfirmNewPin | client/src/pages/Settings.tsx:290-292 | the confirmation (also 411-413 in the reset form) input keeps only digits, at most 4 of them, and an acceptable value as typed; the page's input invariant `Valid` is kept |
| Settings.SettingsPage.EnterDirectPin | client/src/pages/Settings.tsx:320-322 | the direct-set PIN input keeps only digits, at most 4 of them, and an acceptable value as typed; the page's input invariant `Valid` is kept |
| Settings.SettingsPage.EnterDirectConfirm | client/src/pages/Settings.tsx:334-336 | the direct-set confirmation input keeps only digits, at most 4 of them, and an acceptable value as typed; the page's input invariant `Valid` is kept |
| Settings.SettingsPage.EnterResetCode | client/src/pages/Settings.tsx:385-387 | the reset code input keeps only digits, at most 6 of them, and an acceptable value as typed; the page's input invariant `Valid` is kept |
| PinRequirement.ResolvePinRequired | client/src/hooks/usePinRequired.ts:12-34 | the gate is off exactly when the caller's row holds an explicit `require_pin = false`; a missing user, a failed read, a thrown call and a missing flag all require the PIN |
| PinRequirement.PinRequiredHook.constructor | client/src/hooks/usePinRequired.ts:5-6 | before the check answers, the PIN is required and the hook is loading |
| PinRequirement.PinRequiredHook.Check | client/src/hooks/usePinRequired.ts:12-34 | `pinRequired` follows `ResolvePinRequired`; every path ends with `loading` false |
| Roles.ResolveRole | client/src/hooks/useUserRole.ts:12-39 | no user gives no role; a stored non-empty role is used; a failed read, a thrown call, or a missing or empty role gives 'user' |
| Roles.AdminOnlyFromRow | client/src/hooks/useUserRole.ts:27-41 | `isAdmin` holds only when the caller's row was read and says 'admin'; failures never grant admin |
| Roles.UserRoleHook.constructor | client/src/hooks/useUserRole.ts:5-6 | no role yet, loading |
| Roles.UserRoleHook.Fetch | client/src/hooks/useUserRole.ts:12-39 | `role` follows `ResolveRole`; `loading` ends false |
| Profiles.RateText | client/src/components/ProfileManager.tsx:73 | `hourly_rate.toString()` of a rate in cents: a '-' exactly for a negative rate, whole dollars without a point |
| Profiles.ProfileManager.constructor | client/src/components/ProfileManager.tsx:22-30 | empty forms, nothing being edited, empty slot, modal closed |
| Profiles.ProfileManager.AddClick | client/src/components/ProfileManager.tsx:60-67 | behind the gate the add action is stored and the modal opens; otherwise the form opens at once |
| Profiles.ProfileManager.EditClick | client/src/components/ProfileManager.tsx:69-80 | name and rate are pre-filled either way; editing starts at once only without the gate |
| Profiles.ProfileManager.ConfirmDelete | client/src/components/ProfileManager.tsx:105-119 | deletes only when confirmed and the backend succeeds; alerts exactly on a failed delete |
| Profiles.ProfileManager.DeleteClick | client/src/components/ProfileManager.tsx:82-89 | behind the gate the delete waits in the slot and nothing is deleted; otherwise it runs as `ConfirmDelete` |
| Profiles.ProfileManager.PinSuccess | client/src/components/ProfileManager.tsx:91-103 | the modal closes, the stored action runs once by its type (an empty id runs nothing), the slot empties |
| Profiles.ProfileManager.PinCancel | client/src/components/ProfileManager.tsx:176-179 | the modal closes and the slot empties without running anything |
| Profiles.ProfileManager.AddProfile | client/src/components/ProfileManager.tsx:32-58 | an empty name or rate is a no-op; otherwise one profile is inserted on success and the form resets; with no user `loading` stays set |
| Profiles.ProfileManager.EditProfile | client/src/components/ProfileManager.tsx:137-157 | an empty name or rate is a no-op; otherwise the profile is updated on success and editing ends |
| Profiles.ProfileManager.CancelEdit | client/src/components/ProfileManager.tsx:165-169 | editing ends with empty inputs |
| Profiles.ProfileManager.CancelAdd | client/src/components/ProfileManager.tsx:278-281 | the add form closes with empty inputs |
| TimeEntries.ProfileName | client/src/components/TimeEntryList.tsx:23-26 | the profile's name, or 'Unknown' for a missing profile or an empty name; never empty |
| TimeEntries.ProfileRate | client/src/components/TimeEntryList.tsx:28-31 | the profile's rate, or 0 for a missing profile |
| TimeEntries.DurationParts | client/src/components/TimeEntryList.tsx:50-51 | a forward difference splits into whole hours and 0 to 59 minutes that add up to the whole minutes; a backward one gives negative hours and minutes in -60 to 0 |
| TimeEntries.CalculateDuration | client/src/components/TimeEntryList.tsx:43-54 | 'In progress' exactly for an open entry; otherwise the hours and minutes of the difference |
| TimeEntries.CalculateEarnings | client/src/components/TimeEntryList.tsx:56-66 | '$0.00' for an open entry; otherwise the exact hours times the rate with two decimals, and zero for an unknown profile |
| TimeEntries.Prefill | client/src/components/TimeEntryList.tsx:70-74 | the form holds the first 16 characters of each timestamp, '' for a missing clock-out, the notes or '' |
| TimeEntries.EditPatch | client/src/components/TimeEntryList.tsx:95-103 | there is a payload exactly when the clock-in and a non-empty clock-out are valid dates, so a cleared clock-in never yields one; the payload holds the parsed times, null for an empty clock-out or empty notes, and the update time |
| TimeEntries.SaveUntouchedKeepsNulls | client/src/components/TimeEntryList.tsx:70-103 | saving an untouched form of an open entry builds a payload exactly when its clock-in reads back; that payload keeps the clock-out missing, and keeps notes or turns empty notes into none |
| TimeEntries.TimeEntryList.constructor | client/src/components/TimeEntryList.tsx:15-22 | nothing edited, empty slot, modal closed, empty form |
| TimeEntries.TimeEntryList.Edit | client/src/components/TimeEntryList.tsx:68-76 | the edit waits in the slot with the pre-filled form; the modal opens |
| TimeEntries.TimeEntryList.Delete | client/src/components/TimeEntryList.tsx:78-81 | the delete waits in the slot; the modal opens |
| TimeEntries.TimeEntryList.ConfirmDelete | client/src/components/TimeEntryList.tsx:115-129 | deletes only when confirmed and the backend succeeds; alerts exactly on a failed delete |
| TimeEntries.TimeEntryList.PinSuccess | client/src/components/TimeEntryList.tsx:83-93 | the modal closes, the stored edit or delete runs once, the slot empties |
| TimeEntries.TimeEntryList.PinCancel | client/src/components/TimeEntryList.tsx:136-139 | the modal closes and the slot empties without running anything |
| TimeEntries.TimeEntryList.SaveEdit | client/src/components/TimeEntryList.tsx:95-113 | without an `EditPatch` payload the handler throws before the update: no write, no alert, no refresh, editing stays open; otherwise the entry is patched and editing ends on success, with an alert on failure |
| TimeEntries.TimeEntryList.CancelEdit | client/src/components/TimeEntryList.tsx:181 | editing ends |
| Manual.NewEntry | client/src/components/ManualEntry.tsx:50-58 | a row exactly when both times are valid dates; the row is completed, carries the form's profile and parsed times, and has null notes exactly for empty ones |
| Manual.ManualEntry.constructor | client/src/components/ManualEntry.tsx:15-23 | closed, modal closed, blank form, not loading |
| Manual.ManualEntry.OpenClick | client/src/components/ManualEntry.tsx:25-31 | behind the gate only the modal opens; otherwise the form opens |
| Manual.ManualEntry.PinSuccess | client/src/components/ManualEntry.tsx:33-36 | the modal closes and the form opens |
| Manual.ManualEntry.PinCancel | client/src/components/ManualEntry.tsx:78 | the modal closes and the form stays closed |
| Manual.ManualEntry.Submit | client/src/components/ManualEntry.tsx:38-71 | an incomplete form only alerts; otherwise one entry is inserted on success and the form resets and closes, a failed insert or an invalid date alerts, and `loading` ends false on every path after the check |
| Manual.ManualEntry.CancelForm | client/src/components/ManualEntry.tsx:142-144 | the form closes and resets |
| Clock.OpenEntries | client/src/components/ClockInOut.tsx:26-31 | the query returns exactly the caller's running entries on that profile |
| Clock.OpenEntry | client/src/components/ClockInOut.tsx:26-34 | `.single()`: a running entry exactly when the read succeeds and there is exactly one |
| Clock.ClockInIsFound | client/src/components/ClockInOut.tsx:47-61 | after clocking in on a profile with nothing running, the check finds the new entry |
| Clock.NewOpenEntry | client/src/components/ClockInOut.tsx:49-54 | the inserted row is running, starts now, and has null notes exactly for empty ones |
| Clock.ClockOutPatch | client/src/components/ClockInOut.tsx:73-76 | clocking out sets the clock-out time, keeps the clock-in, and keeps the old notes when no new ones were typed |
| Clock.ElapsedParts | client/src/components/ClockInOut.tsx:97-99 | for a forward difference, minutes and seconds lie in 0 to 59 |
| Clock.ElapsedPartsSum | client/src/components/ClockInOut.tsx:97-99 | hours, minutes and seconds add up to the whole seconds elapsed |
| Clock.Pad2IsPadStart | client/src/components/ClockInOut.tsx:101 | the two-digit padding is `padStart(2, '0')` of `String(n)` |
| Clock.Pad2Digits | client/src/components/ClockInOut.tsx:101 | a padded count shows at least two digits that read back as the count, exactly two below 100 |
| Clock.ClockFields | client/src/components/ClockInOut.tsx:101 | three digit fields joined by colons show the counts they denote |
| Clock.ClockText | client/src/components/ClockInOut.tsx:101 | the clock text reads back as its hours, minutes and seconds |
| Clock.ElapsedTime | client/src/components/ClockInOut.tsx:90-102 | '00:00:00' with nothing running; otherwise fields that read back as the elapsed hours, minutes and seconds |
| Clock.ClockInOut.constructor | client/src/components/ClockInOut.tsx:12-14 | nothing running, no notes, not loading |
| Clock.ClockInOut.CheckActiveEntry | client/src/components/ClockInOut.tsx:20-35 | nothing happens without a profile or a user; otherwise the running entry is `OpenEntry` |
| Clock.ClockInOut.ClockIn | client/src/components/ClockInOut.tsx:37-65 | no profile only alerts; otherwise one running entry is inserted on success, the notes clear and the active entry is re-read; with no user `loading` stays set |
| Clock.ClockInOut.ClockOut | client/src/components/ClockInOut.tsx:67-88 | nothing running is a no-op; otherwise the entry is patched with `ClockOutPatch`, and on success notes and active entry clear |
| Reports.Without | client/src/pages/Reports.tsx:55-58 | `filter(id => id !== x)` keeps exactly the other values and keeps them distinct |
| Reports.WithoutRemovesAt | client/src/pages/Reports.tsx:55-58 | removing a value's one occurrence keeps the others in order |
| Reports.Toggle | client/src/pages/Reports.tsx:48-65 | "all" selects all alone; the selection is never empty and never mixes "all" with ids; distinct ids stay distinct |
| Reports.ToggleKeepsValid | client/src/pages/Reports.tsx:48-65 | every toggle keeps the selection "all" alone or a non-empty list of distinct ids |
| Reports.ToggleAppends | client/src/pages/Reports.tsx:48-65 | ticking a profile narrows "all" down to it or appends it |
| Reports.ToggleRemoves | client/src/pages/Reports.tsx:48-65 | unticking removes the profile and keeps the order; unticking the last one selects "all" |
| Reports.ToggleTwice | client/src/pages/Reports.tsx:48-65 | ticking and unticking the same profile restores the selection |
| Reports.IndexOf | client/src/pages/Reports.tsx:125-135 | `profileMap.has/get`: the first row of that profile, or the end when none |
| Reports.CountedEntries | client/src/pages/Reports.tsx:108-117 | the reference list: exactly the completed, known, selected entries |
| Reports.ForProfile | client/src/pages/Reports.tsx:125-137 | the reference list of one profile's entries |
| Reports.ProfileIds | client/src/pages/Reports.tsx:125 | the profile ids of the entries, position by position |
| Reports.FirstOccurrences | client/src/pages/Reports.tsx:144 | the values in the order they first occur: the same values, each once |
| Reports.Ids | client/src/pages/Reports.tsx:144 | one id per row |
| Reports.SumColAppend | client/src/pages/Reports.tsx:161 | a column total grows by the appended row's value |
| Reports.AddToRowSums | client/src/pages/Reports.tsx:125-137 | adding an entry to its row raises a column total by the entry's contribution |
| Reports.ForProfileSnoc | client/src/pages/Reports.tsx:108-137 | one more entry joins only its own profile's list |
| Reports.SumColUpdate | client/src/pages/Reports.tsx:134-137 | replacing one row changes a column total by the difference of the old and new values |
| Reports.ProfileIdsSnoc | client/src/pages/Reports.tsx:108 | one more entry appends its profile id |
| Reports.FirstOccurrencesSnoc | client/src/pages/Reports.tsx:125-133 | a new value is appended to the first occurrences exactly when it has not been seen |
| Reports.TallyColumns | client/src/pages/Reports.tsx:108-137 | the rows' counts add up to the number of counted entries, and their hours and earnings to `totalHours` and `totalEarnings` |
| Reports.SumsSnoc | client/src/pages/Reports.tsx:119-123 | one more entry adds its duration and earnings to the reference sums |
| Reports.StepTotals | client/src/pages/Reports.tsx:108-123 | one turn of the loop adds the entry's duration and earnings exactly when it is counted |
| Reports.TallyTotals | client/src/pages/Reports.tsx:108-123 | `totalHours` and `totalEarnings` are the sums over the counted entries |
| Reports.AddToRowIds | client/src/pages/Reports.tsx:125-132 | a row is appended exactly when its profile has none yet |
| Reports.TallyOrder | client/src/pages/Reports.tsx:125-144 | `entriesByProfile` lists each profile with a counted entry once, in the order of first occurrence |
| Reports.OtherRowAgrees | client/src/pages/Reports.tsx:134-137 | an entry of another profile leaves a row correct |
| Reports.BumpedRowAgrees | client/src/pages/Reports.tsx:134-137 | bumping a profile's row by its entry keeps the row correct |
| Reports.FreshRowAgrees | client/src/pages/Reports.tsx:125-137 | a profile's first entry gives a correct new row |
| Reports.AddToRowRowAgrees | client/src/pages/Reports.tsx:125-137 | every row stays correct after one counted entry |
| Reports.AddToRowMissing | client/src/pages/Reports.tsx:125-132 | a profile still without a row has no counted entry |
| Reports.AddToRowAgrees | client/src/pages/Reports.tsx:125-137 | adding a counted entry keeps all rows correct and misses no profile |
| Reports.TallyRows | client/src/pages/Reports.tsx:108-144 | each row holds its profile's entry count, summed duration and duration times rate; a profile without a row has no counted entry |
| Reports.Aggregate | client/src/pages/Reports.tsx:108-138 | the `forEach` loop computes exactly the reference totals and rows |
| Reports.JoinLinesAppend | client/src/pages/Reports.tsx:157-161 | joining two runs of lines is the concatenation of their texts |
| Reports.JoinLinesSnoc | client/src/pages/Reports.tsx:158-160 | each `csv +=` adds one newline-terminated line |
| Reports.JoinClosingLines | client/src/pages/Reports.tsx:161 | the total line comes after a blank line |
| Reports.LineEnd | client/src/pages/Reports.tsx:157-161 | the first line break, or the end when there is none |
| Reports.LineEndAt | client/src/pages/Reports.tsx:157-161 | a line without a break ends at its newline |
| Reports.LinesOfJoin | client/src/pages/Reports.tsx:157-161 | lines without breaks, joined and split again, come back unchanged |
| Reports.HeaderBreakFree | client/src/pages/Reports.tsx:157 | the header holds no line break |
| Reports.RowTexts | client/src/pages/Reports.tsx:158-160 | one line per row |
| Reports.RowTextsPrefix | client/src/pages/Reports.tsx:158-160 | each loop turn adds the next row's line |
| Reports.DigitsHaveNoBreak | client/src/pages/Reports.tsx:159 | digits hold neither a line break nor a comma |
| Reports.NumberHasNoBreak | client/src/pages/Reports.tsx:159 | a `toFixed(2)` text holds neither a line break nor a comma |
| Reports.RowTextHasNoBreak | client/src/pages/Reports.tsx:159 | a row line holds no line break when the profile name holds none |
| Reports.TotalTextHasNoBreak | client/src/pages/Reports.tsx:161 | the total line holds no line break |
| Reports.BreakFreeConcat | client/src/pages/Reports.tsx:157-161 | runs of break-free lines join into a break-free run |
| Reports.RowTextsBreakFree | client/src/pages/Reports.tsx:158-160 | the row lines are break-free |
| Reports.CsvLinesBreakFree | client/src/pages/Reports.tsx:157-161 | all lines of the export are break-free |
| Reports.CsvLayout | client/src/pages/Reports.tsx:154-161 | read back line by line, the export is the header, one line per profile row in order, a blank line and the total line |
| Reports.ReportsPage.constructor | client/src/pages/Reports.tsx:23-28 | no dates, no report, no profiles, "all" selected |
| Reports.ReportsPage.LoadProfiles | client/src/pages/Reports.tsx:34-46 | the profiles are shown when a user is signed in and the query returns rows |
| Reports.ReportsPage.ProfileToggle | client/src/pages/Reports.tsx:48-65 | the selection becomes `Toggle` of the old one and stays valid |
| Reports.ReportsPage.GenerateReport | client/src/pages/Reports.tsx:67-152 | missing dates only alert; otherwise the report is the aggregation of all fetched entries, a failed fetch alerts, and `loading` ends false |
| Reports.ReportsPage.ExportCsv | client/src/pages/Reports.tsx:154-170 | the export text, built line by line, equals `CsvText` of the report, and there is none without a report |
| Dash.Dashboard.constructor | client/src/pages/Dashboard.tsx:16-21 | loading, no profiles, no PIN set |
| Dash.Dashboard.CheckPinStatus | client/src/pages/Dashboard.tsx:29-46 | a failed or empty read changes nothing; otherwise `hasPinSet` follows the stored hash and a missing or empty one asks for setup |
| Dash.Dashboard.LoadProfiles | client/src/pages/Dashboard.tsx:48-67 | a successful load shows the rows and activates the first one; a failure keeps both; no user changes nothing |
| Dash.Dashboard.SetupSucceeded | client/src/pages/Dashboard.tsx:99-102 | the setup modal closes for good and the PIN counts as set |

## Definitions

The table above lists every member that carries a contract, except those
that model no source line: the arithmetic and slicing helpers `Common.Pow10`,
`Common.DigitChar`, `Common.SignedSlices`, `Clock.MulAtLeast`,
`Clock.DivRemUnique` and `Reports.MulAddRight`, and
`Store.Database.constructor`, which only sets up the tables. The definitions below carry no contract; they are the
terms the contracts are stated in. Generic sequence operations (sums over
columns, joining and splitting lines) are listed with the part of the report
they serve.

- `Reports.Bump`, `Reports.AddToRow`, `Reports.Step`, `Reports.Tally`: one turn of the `forEach` over the fetched entries and the accumulators after it, client/src/pages/Reports.tsx:108-138.
- `Reports.Counted`: the guards of that `forEach`, client/src/pages/Reports.tsx:109-117.
- `Reports.ReportOf`: the object passed to `setReportData`, client/src/pages/Reports.tsx:140-145.
- `Reports.RowText`, `Reports.TotalText`, `Reports.CsvLines`, `Reports.CsvText`: the lines of the CSV export, client/src/pages/Reports.tsx:157-161.
- `Settings.Redeemable`: the filter of the reset-code query, client/src/pages/Settings.tsx:139-147.
- `Roles.IsAdmin`, `Roles.UserRoleHook.IsAdminNow`: `role === 'admin'`, client/src/hooks/useUserRole.ts:41.
- `Manual.Complete`: the required-fields test, client/src/components/ManualEntry.tsx:40.
- `Clock.Pad2`, `Clock.ShowsClock`: the `HH:MM:SS` text, client/src/components/ClockInOut.tsx:101.
- `Store.Patched`: a time entry after an update sets the payload's columns, client/src/components/TimeEntryList.tsx:96-104.
- `Common.Distinct`: a list without repeated values.
- `Settings.DigitsAtMost`: the values the PIN and reset-code inputs let through.
- `Dash.PinIsSet`: `pin_hash !== null && pin_hash !== ''`, client/src/pages/Dashboard.tsx:40.
- `Clock.IsOpenFor`: the filters of the active-entry query, client/src/components/ClockInOut.tsx:29-31.
- `Reports.Selects`: `selectedProfiles.includes('all') \|\| selectedProfiles.includes(id)`, client/src/pages/Reports.tsx:115 and 368.
- `Reports.ValidSelection`: the selections `handleProfileToggle` can reach from `['all']`, client/src/pages/Reports.tsx:48-65.
- `Reports.Ms`, `Reports.EarningsOf`: one entry's duration and its earnings at its profile's rate, client/src/pages/Reports.tsx:119-120.
- `Reports.SumMs`, `Reports.SumEarnings`: the totals over a list of entries, the reference for `totalHours` and `totalEarnings`, client/src/pages/Reports.tsx:122-123.
- `Reports.SumCol`: a column total over the rows, the reference for the row sums, client/src/pages/Reports.tsx:161.
- `Reports.RowAgrees`, `Reports.RowsAgree`: a row holds its profile's count, summed duration and earnings, client/src/pages/Reports.tsx:125-137.
- `Reports.JoinLines`, `Reports.Lines`: writing lines each followed by a newline, and splitting a text at its newlines, client/src/pages/Reports.tsx:157-161.
- The render conditions `Dash.Dashboard.ShowsPinSetup` (client/src/pages/Dashboard.tsx:97), `Dash.Dashboard.ShowsManualEntry` (client/src/pages/Dashboard.tsx:129-130), `TimeEntries.ShowsEntryActions` (client/src/components/TimeEntryList.tsx:214) and `PinSetup.PinSetupModal.ShowsCancelButton` (client/src/components/PinSetupModal.tsx:105).

## Left out

- Floating point: hours, rates and earnings are JavaScript numbers in the app and exact integers here. `toFixed(2)` is modelled as round-half-up on the exact value, so results that differ only by floating-point rounding are not captured. Neither are `toFixed`'s exponent forms for very large values.
- `Profiles.RateText`: states the sign and the whole-dollar case. The shortest-decimal rule of `Number.prototype.toString` for arbitrary floats is not captured.
- Date parsing and formatting (`new Date(...)`, `toISOString`, `toLocaleString`, `formatDateTime`) are parameters. Parsing a non-empty text is the parameter `DateParser`, which may report an Invalid Date; an empty text is always invalid. Timestamps carry their ISO text and their milliseconds side by side.
- The unhandled rejection that an Invalid Date causes in `handleSaveEdit` is modelled only as "nothing happens"; the browser's error report is left out.
- The report query's date window and ordering are not modelled; its result is a parameter. `Reports.ReportsPage.GenerateReport` receives the rows the two queries return.
- `Dash.Dashboard.LoadProfiles` and `Reports.ReportsPage.LoadProfiles` receive the profile query's rows as a parameter. The query's `user_id` filter and, on the dashboard, its newest-first ordering belong to the backend and are not derived from `Store.Database`.
- Dashboard's `loadTimeEntries` (a parameterised read of the ten newest entries) and sign-out are left out. So are the server routes, the login page, the app shell and the profile selector.
- The PDF export of the reports page, the CSV file download (blob, object URL, link click) and the file name are left out. Only the CSV text is modelled.
- `Reports.CsvLayout`: requires profile names without line breaks. The source does no CSV quoting, so a name holding a comma or a newline breaks the layout.
- SHA-256 and `TextEncoder` together are the abstract function `Hex.Digest`. Collision resistance is not assumed; where it matters, the lemmas state their conclusion relative to the digest's values.
- `Settings.NewResetCode`: `created_at` is modelled as the client's `now`. The insert sends no `created_at`, so the database default sets it in the app. `Settings.NewestRedeemable` orders by that field.
- `Math.random()` is the parameter `draw` of `Settings.NewResetCode`. E-mail delivery of the code is a placeholder in the source and is left out; the code is returned as the demo alert shows it.
- The `"No user role found"` branch of `handleChangePin` cannot be reached: `.single()` reports a missing row as an error first. Its message constant is kept, but no path returns it.
- Console logging, the timers (the one-second re-render of the running clock, React effects), the order in which concurrent asynchronous handlers finish, and the loading flags' effect on disabled buttons are left out.
- Input `onChange` handlers that only copy text into a field are left out. The exception is the PIN and reset-code inputs of the two modals and of the settings page, whose digit filtering and length limit are modelled. The report date inputs are also left out.
- `handleDeleteProfile` and `startEdit` in ProfileManager are never called from the rendered component and are left out; `confirmDelete` and `handleEditClick` do the same work.
- The verification modal's "Forgot PIN?" link: the markup at `client/src/components/PinVerifyModal.tsx` lines 99-117 is malformed, so it is left out.
- Rendering is limited to the conditions that decide what the user can do: the setup modal, the manual-entry panel, the entry action buttons, and the setup modal's Cancel button.
