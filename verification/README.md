# Profile wizard: a verified model

This project models the logic of a three-step profile wizard. The app is a
React Native app with a Redux store. A user creates or edits a profile in
three steps:

1. basic information: full name, e-mail and age;
2. address: city, state and country;
3. a summary, from which the profile is saved.

Saved profiles live in an in-memory list. The whole list is mirrored into a
single storage slot.

The model has one Dafny module per core source file, plus `Wrappers` (the `Option` type), `Navigation` (the router the screens share) and `WizardFlows` (whole user journeys).

- `Validation` (`validation.dfy`) covers the two form validators.
  - They are pure functions from the typed strings to a map from field to
    error message.
  - They rely on `String.prototype.trim` and the whitespace class `\s`, which
    are modelled over the ECMAScript whitespace set.
  - The e-mail regular expression is stated as the split it describes.
  - `Number()` is modelled for decimal notation.
- `ProfileSlice` (`profile_slice.dfy`) covers the `profiles` slice.
  - The slice state is a class, `ProfileState`. Its fields are the draft, the
    saved list, the `loading` flag and the edited id.
  - Each reducer and each `extraReducers` case is a method on that class.
  - The list computations are functions: replace-by-id, append, filter-by-id
    and find-by-id.
  - The storage slot is a class with a single field. A save or delete thunk
    writes that field.
- `Navigation` (`navigation.dfy`) covers the router. The current screen is a
  step; `push` and `back` change it.
- `BasicInfo`, `AddressInfo` and `Summary` cover the three screens.
  - Each form screen is a class holding its local component state, which is
    the typed fields and the error map.
  - Its handlers are methods that act on the store and the router.
- `WizardFlows` drives the screens the way a user does, from start to finish:
  - create a profile from an empty store;
  - retry after a failed write;
  - edit one stored profile's city.

  The flows submit through the corrected `Summary.HandleSubmit` (see
  "## Findings"), which shows a message only when the save is fulfilled. The
  program as written behaves like `Summary.HandleSubmitAsWritten`: a failed
  save is still announced, as `Summary.FailedSaveReportedAsCreated` shows.

## Model

| member | source | states |
|---|---|---|
| Validation.TrimStart | frontend/utils/validation.ts:13 | The leading half of `trim`. The result is a suffix of the input, everything dropped is whitespace, and the result does not start with whitespace. |
| Validation.TrimEnd | frontend/utils/validation.ts:13 | The trailing half of `trim`. The result is a prefix of the input, everything dropped is whitespace, and the result does not end with whitespace. |
| Validation.TrimEmptyIffAllSpace | frontend/utils/validation.ts:13 | `x.trim() === ''` holds exactly when every character of `x` is whitespace. |
| Validation.BlankIffMissing | frontend/utils/validation.ts:13 | The guard `!x \|\| x.trim() === ''` holds exactly when the property is missing or holds only whitespace. |
| Validation.RequiredError | frontend/utils/validation.ts:13-15 | A required field gets a verdict exactly when it is missing or blank, and the verdict is that field's "required" message. |
| Validation.EmailError | frontend/utils/validation.ts:17-21 | The e-mail gets a verdict exactly when it is not accepted. The verdict is "Email is required" when the e-mail is blank and "Please enter a valid email" otherwise, so the two never appear together. |
| Validation.EmailPatternAtSplit | frontend/utils/validation.ts:19 | For a string with an `@` in it, the shape check holds in both directions exactly when: the part before the `@` is non-empty; neither part contains whitespace or another `@`; and the domain contains a `.` with at least one character on each side. |
| Validation.EmailPatternNeedsAt | frontend/utils/validation.ts:19 | A string without an `@` is never accepted. |
| Validation.EmailExamples | frontend/utils/validation.ts:19 | `a@b.c` is accepted and `not-an-email` is rejected. |
| Validation.NumberValueOfDigits | frontend/utils/validation.ts:25 | `Number(s)` of a non-empty run of decimal digits is the run's decimal value. |
| Validation.AgeError | frontend/utils/validation.ts:23-27 | The age gets a verdict exactly when it is not accepted. The verdict is "Age is required" when the age is blank and the range message otherwise. |
| Validation.AgeOfDigits | frontend/utils/validation.ts:23-27 | A run of decimal digits passes the age check exactly when its value lies in 1..150. |
| Validation.DecimalAgeAcceptedIff | frontend/utils/validation.ts:23-27 | For every whole number n, its decimal rendering passes the age check exactly when 1 <= n <= 150. So "1" and "150" pass, and "0" and "151" fail. |
| Validation.NonNumericAgeRejected | frontend/utils/validation.ts:25 | `"abc"` reads as `NaN` and fails the age check. |
| Validation.ValidateBasicInfo | frontend/utils/validation.ts:10-30 | The result has only the keys fullName, email and age. Each key is present exactly when that field is rejected, and it carries the message the source assigns. |
| Validation.ValidateAddressInfo | frontend/utils/validation.ts:32-48 | The result has only the keys city, state and country. Each key is present exactly when that field is missing or blank, and it carries the field's "required" message. |
| Validation.BasicInfoPassesIff | frontend/utils/validation.ts:10-30 | The map is empty exactly when the full name is not blank and both the e-mail and the age are accepted. |
| Validation.AddressInfoPassesIff | frontend/utils/validation.ts:32-48 | The map is empty exactly when none of city, state and country is blank. |
| Validation.OnlyCityBlank | frontend/utils/validation.ts:35-45 | The three checks are independent. A blank city alongside a filled state and country gives exactly `{city: "City is required"}`. |
| ProfileSlice.DraftOf | frontend/store/profileSlice.ts:107 | The spread of a stored profile carries every property, the id included, plus the avatar when there is one. Each property reads back as stored. |
| ProfileSlice.IndexOfId | frontend/store/profileSlice.ts:104 | This is the first position holding the id, or the list length when no profile has it. |
| ProfileSlice.FindById | frontend/store/profileSlice.ts:104 | The result is `None` exactly when no profile has the id. Otherwise it is the first profile with that id, and it is in the list. |
| ProfileSlice.ReplaceWhereId | frontend/store/profileSlice.ts:66-68 | The length is kept, every profile with the id is replaced by the new one, and every other profile stays in its place. |
| ProfileSlice.RemoveWhereId | frontend/store/profileSlice.ts:86 | No profile with the id survives. Every other profile keeps its number of occurrences. |
| ProfileSlice.RemoveKeepsOrder | frontend/store/profileSlice.ts:86 | After a delete, the remaining profiles keep their relative order: the result is a subsequence of the original. |
| ProfileSlice.RemoveUnknownIdIsIdentity | frontend/store/profileSlice.ts:86 | Deleting an id that no profile has leaves the list as it was. |
| ProfileSlice.RemoveKeepsIdsUnique | frontend/store/profileSlice.ts:144 | A delete preserves the invariant that no two saved profiles share an id. |
| ProfileSlice.SavedList | frontend/store/profileSlice.ts:64-72 | With a truthy `editingId`, the length is kept and the profiles with that id are replaced in place. Otherwise the profile is appended, and the old list is an unchanged prefix. |
| ProfileSlice.EditOfUnknownIdIsIdentity | frontend/store/profileSlice.ts:64-68 | An edit whose id matches nothing returns the list unchanged and appends nothing. It is a replace, not an upsert. |
| ProfileSlice.EditReplacesInPlace | frontend/store/profileSlice.ts:64-68 | When ids are unique, an edit replaces exactly the one profile with the edited id, at its position. |
| ProfileSlice.SaveKeepsIdsUnique | frontend/store/profileSlice.ts:64-72 | A save keeps ids unique in two cases: an edit keeps the edited id, or a creation brings an id that is not yet saved. |
| ProfileSlice.LoadedList | frontend/store/profileSlice.ts:44-51 | Loading yields the stored list. An absent slot or an unreadable one yields an empty list. |
| ProfileSlice.ProfileState.constructor | frontend/store/profileSlice.ts:32-37 | The initial state: empty draft, empty list, not loading, no edited id. |
| ProfileSlice.ProfileState.UpdateDraft | frontend/store/profileSlice.ts:96-98 | The draft becomes old draft plus payload: the payload's keys overwrite and every other key keeps its value. The list, `loading` and `editingId` are untouched. |
| ProfileSlice.ProfileState.ClearDraft | frontend/store/profileSlice.ts:99-102 | The draft becomes empty and `editingId` becomes null. The list and `loading` are untouched. |
| ProfileSlice.ProfileState.CancelEditing | frontend/store/profileSlice.ts:110-113 | Same effect as `clearDraft`. |
| ProfileSlice.ProfileState.StartEditing | frontend/store/profileSlice.ts:103-109 | If a saved profile has the id, it becomes the edited id and the draft becomes that profile's spread. Otherwise the state is unchanged. |
| ProfileSlice.ProfileState.LoadProfiles | frontend/store/profileSlice.ts:117-119 | The saved list becomes the loaded list. Nothing else changes. |
| ProfileSlice.ProfileState.MarkPending | frontend/store/profileSlice.ts:120-122 | `loading` becomes true. Nothing else changes. |
| ProfileSlice.ProfileState.MarkRejected | frontend/store/profileSlice.ts:137-139 | `loading` becomes false. The list, the draft and the edited id are unchanged. |
| ProfileSlice.ProfileState.SaveProfileThunk | frontend/store/profileSlice.ts:55-77 | A successful write stores the saved list computed from the current state, and returns the profile together with the edited id. A failed write leaves the slot alone and rejects. |
| ProfileSlice.ProfileState.SaveFulfilled | frontend/store/profileSlice.ts:123-136 | The list becomes the saved list computed from the payload. The draft is cleared, `editingId` becomes null and `loading` becomes false. |
| ProfileSlice.ProfileState.SaveProfileAsync | frontend/store/profileSlice.ts:120-139 | Afterwards `loading` is false. When the save is fulfilled, memory and storage hold the same new list and the session is reset. When it is rejected, the list, the draft, the edited id and the slot are unchanged. |
| ProfileSlice.ProfileState.DeleteProfileThunk | frontend/store/profileSlice.ts:79-90 | A successful write stores the current list without the id and returns the id. A failed write leaves the slot alone. |
| ProfileSlice.ProfileState.DeleteFulfilled | frontend/store/profileSlice.ts:143-146 | The list loses the profiles with the id and `loading` becomes false. The draft and the edited id are unchanged. |
| ProfileSlice.ProfileState.DeleteProfileAsync | frontend/store/profileSlice.ts:140-149 | Afterwards `loading` is false. When the delete is fulfilled, memory and storage hold the same filtered list. When it is rejected, both are unchanged. |
| Navigation.Router.Push | frontend/app/basic-info.tsx:39 | The pushed screen becomes current. |
| Navigation.Router.Back | frontend/app/address-info.tsx:31 | The wizard's previous screen becomes current. |
| BasicInfo.BasicInfoScreen.constructor | frontend/app/basic-info.tsx:25-28 | Each field starts from the draft, or from `''` when the draft lacks it. There are no errors. |
| BasicInfo.BasicInfoScreen.ChangeFullName | frontend/app/basic-info.tsx:79-82 | The field takes the text. Only the fullName error is cleared; the other errors stay. |
| BasicInfo.BasicInfoScreen.ChangeEmail | frontend/app/basic-info.tsx:97-100 | The field takes the text. Only the email error is cleared. |
| BasicInfo.BasicInfoScreen.ChangeAge | frontend/app/basic-info.tsx:116-119 | The field takes the text. Only the age error is cleared. |
| BasicInfo.BasicInfoScreen.HandleNext | frontend/app/basic-info.tsx:30-40 | The local values are validated first. A non-empty verdict is stored, and the draft and the screen are unchanged. An empty verdict merges exactly `{fullName, email, age}` into the draft and moves to the address step. |
| AddressInfo.AddressInfoScreen.constructor | frontend/app/address-info.tsx:24-27 | Each field starts from the draft, or from `''`. There are no errors. |
| AddressInfo.AddressInfoScreen.ChangeCity | frontend/app/address-info.tsx:67-70 | The field takes the text. Only the city error is cleared. |
| AddressInfo.AddressInfoScreen.ChangeState | frontend/app/address-info.tsx:85-88 | The field takes the text. Only the state error is cleared. |
| AddressInfo.AddressInfoScreen.ChangeCountry | frontend/app/address-info.tsx:103-106 | The field takes the text. Only the country error is cleared. |
| AddressInfo.AddressInfoScreen.HandleBack | frontend/app/address-info.tsx:29-32 | Without validating, `{city, state, country}` is merged into the draft and the router goes back one step. |
| AddressInfo.AddressInfoScreen.HandleNext | frontend/app/address-info.tsx:34-44 | A non-empty verdict is stored, and the draft and the screen are unchanged. An empty verdict merges `{city, state, country}` and moves to the summary. |
| Summary.BuildProfile | frontend/app/summary.tsx:27-36 | The id is `editingId` when that is truthy, and the fresh id otherwise. Every other property comes from the draft, or is `''` when absent; this includes the avatar. |
| Summary.ResubmitUnchangedEdit | frontend/app/summary.tsx:27-36 | Submitting an edit draft that was left unchanged rebuilds the stored profile exactly. The only difference is that a missing avatar becomes `''`. |
| Summary.SubmitKeepsIdsUnique | frontend/app/summary.tsx:28 | The built profile keeps saved ids unique, provided a new profile's fresh id is not yet taken. |
| Summary.HandleEdit | frontend/app/summary.tsx:22-24 | The router goes back to the address step. The draft and the edited id are untouched. |
| Summary.HandleSubmitAsWritten | frontend/app/summary.tsx:26-50 | As written: the save is dispatched. "updated" is shown exactly when `editingId` was truthy at submit, and "created" otherwise. The message and the return to the list follow a rejected save as well. |
| Summary.FailedSaveReportedAsCreated | frontend/app/summary.tsx:38-49 | The discrepancy: a first save whose write fails is announced as created, while the slot and the list stay empty. |
| Summary.HandleSubmit | frontend/app/summary.tsx:26-50 | Corrected: a message is shown exactly when the save is fulfilled. That message is "updated" or "created" as above, and the list is then in both memory and storage. A rejected save keeps the draft and the screen. |
| WizardFlows.Launch | frontend/app/_layout.tsx:12-14 | Starting the app loads the stored list into a fresh store, on the profile list. |
| WizardFlows.EnterBasicInfo | frontend/app/basic-info.tsx:30-40 | Typing valid values and pressing Next merges exactly those values and moves to the address step. |
| WizardFlows.ConfirmBasicInfo | frontend/app/basic-info.tsx:25-40 | Pressing Next on a valid seeded screen merges the seeded values back into the draft. |
| WizardFlows.EnterAddressInfo | frontend/app/address-info.tsx:34-44 | Typing valid values and pressing Next merges exactly those values and moves to the summary. |
| WizardFlows.RetypeCity | frontend/app/address-info.tsx:24-44 | Retyping only the city keeps the seeded state and country. |
| WizardFlows.FillNewProfile | frontend/app/index.tsx:23-26 | Add followed by two valid steps: the draft holds exactly what was typed and no id is being edited. |
| WizardFlows.FillCityEdit | frontend/app/index.tsx:28-31 | Edit on the stored profile, an unchanged first step and a new city. |
| WizardFlows.SeededDraftKeepsAddress | frontend/store/profileSlice.ts:107 | After the seeded basic step, the draft still holds the stored state and country. |
| WizardFlows.FilledDraftBuildsProfile | frontend/app/summary.tsx:27-36 | A draft filled by both steps builds exactly the typed profile under the fresh id, with avatar `''`. |
| WizardFlows.EditedDraftBuildsProfile | frontend/app/summary.tsx:27-36 | The edit draft builds the stored profile with only the city changed, and the edit replaces it in the list. |
| WizardFlows.CreateFlow | frontend/app/summary.tsx:26-50 | From an empty store: the list and the slot hold exactly the new profile. Reloading gives the same list, the session is reset, and "created" is shown. |
| WizardFlows.RetryAfterFailedWrite | frontend/store/profileSlice.ts:137-139 | Under the corrected `Summary.HandleSubmit`, a failed write shows nothing and keeps the draft, and a second submit stores the profile once and shows "created". As written, the first submit would already announce "created" (`Summary.FailedSaveReportedAsCreated`). |
| WizardFlows.EditCityFlow | frontend/store/profileSlice.ts:123-128 | Editing the city of the one stored profile replaces it in place under its own id, and "updated" is shown. |
| WizardFlows.AnaEmailAccepted | frontend/utils/validation.ts:19 | `ana@x.com` passes the shape check. |
| WizardFlows.AnaAgeAccepted | frontend/utils/validation.ts:25 | `"30"` passes the age check. |
| WizardFlows.AnaPassesBothSteps | frontend/utils/validation.ts:10-48 | Ana from Lima, Peru passes both validators. |
| WizardFlows.CreateAnaFlow | frontend/app/summary.tsx:26-50 | The create journey with literal values stores exactly Ana's profile. |

## Findings

| source | as written | input that shows it | evidently intended | confidence | as-written member | corrected member |
|---|---|---|---|---|---|---|
| frontend/app/summary.tsx:38-49 | The "Success" alert is raised in the `.then` of the dispatched save. The promise a dispatched async thunk returns resolves whether the thunk was fulfilled or rejected. | A first profile whose storage write fails: "Profile created successfully!" is shown, then the list screen, yet the slot and the list stay empty. | Announce success, and leave the summary, only when the save was fulfilled. | not executed; high, given how async thunk dispatch resolves | Summary.FailedSaveReportedAsCreated | Summary.HandleSubmit |

## Left out

- Storage I/O: `AsyncStorage` and `JSON.stringify`/`JSON.parse` are not modelled. The slot is a field holding a list, an absent value or an unreadable value.
- Storage write failures: whether a write succeeds is a parameter, `writeSucceeds`. A failed write is taken to leave the slot as it was.
- Latency and interleaving: the simulated latency and any interleaving of thunks are left out. Each dispatch runs as one atomic step (pending, thunk, then fulfilled or rejected), so overlapping saves and deletes are not modelled.
- Validation.NumberValue: only decimal notation is read (an optional sign, digits, an optional fraction). Exponents, hexadecimal, binary and octal literals, and `Infinity` read as `NaN` here. `Infinity` fails the range check in the source too. A string such as `"1e2"` or `"0x10"` would pass in the source but is rejected by the model.
- Floating point: `Number` values are exact reals. Rounding of long digit strings is not modelled.
- Date.now(): `Date.now()` is the `freshId` parameter.
- Rendering: React rendering, styles, the title text and the Alert dialog are left out. The message the alert would show is returned instead, and pressing OK is the push to the list.
- Router history: the router is only the current step. `router.back()` returns to the wizard's previous step (`Previous`), not to an arbitrary history entry.
- Cleared error keys: the field handlers set the error key to `undefined`. The model removes the key, which gives the same display.
- The avatar picker: frontend/app/basic-info.tsx:58-70 uses `pickImage`, `avatar` and `Image` in the screen's JSX, but none of them is declared or imported (the imports are lines 1-17). As written, rendering the basic-info screen would therefore throw a `ReferenceError` before any handler runs, and no journey could get past step 1. The model leaves lines 58-70 out and treats the screen as rendering without them, so no screen puts an avatar into the draft; a saved profile's avatar is always the draft's avatar or `''`.
- Delete confirmation: frontend/app/index.tsx's delete confirmation dialog is left out. Its handlers are covered by `WizardFlows.Launch`, `FillNewProfile`, `FillCityEdit` and `DeleteProfileAsync`.
- Validation timing: Next validates the local values before anything is merged, so a rejected Next never changes the draft. An edit save only replaces a profile with the edited id; it never appends.
- Literal age examples: the age examples `"1"`, `"150"`, `"0"` and `"151"` are covered by `Validation.DecimalAgeAcceptedIff` for all whole numbers, not by separate literal lemmas.
