# next-cucina form logic, in Dafny

next-cucina is a recipe-sharing web application: users register, sign in and
publish recipes (title, description, minutes, difficulty, ingredients, steps and
an optional photo). Storage, sign-in and file hosting belong to a hosted backend;
the application's own logic is the state handling of three forms. This project
models that logic and proves what it promises:

- the recipe-creation form of the dashboard (`app/dashboard/page.tsx`): the
  ingredient and step editors (add the trimmed input if it is not blank, then
  clear the input; remove the entry at a position), the publish-button gate, the
  photo picker, and the submit handler that uploads the photo under
  `recipes/<clock>_<file name>`, builds the record owned by the signed-in user and
  keeps the button disabled after a successful publish;
- the registration page (`app/register/page.tsx`): the submit handler's
  loading/error transitions and the mapping of sign-up error codes to three
  messages;
- the sign-in page (`app/login/page.tsx`): the same transitions with one message
  for every failure.

Modules, one per concern:

- `Text` (text.dfy): ECMAScript's `String.prototype.trim`, which strips
  WhiteSpace and LineTerminator code points (sections 12.2 and 12.3 of ECMA-262),
  characterised and proved unique and idempotent.
- `FormLists` (form_lists.dfy): the two list updates as functions on values
  (`Add`, and `KeepOthers` for `filter((_, i) => i !== index)`), with lemmas tying
  removal to sequence slices.
- `UploadPaths` (upload_paths.dfy): the decimal rendering of the millisecond
  clock and the photo's storage path, proved injective.
- `Recipes` (recipes.dfy): the `Difficulty` enumeration (`facile`, `media`,
  `difficile`), the `NewRecipe` payload the form writes, and the `Recipe` datatype.
  `Recipe` only records the shape of a stored document as `types/recipe.ts`
  declares it: no modelled operation reads documents back, so no member uses it.
- `Auth` (auth.dfy): the signed-in user and the outcome of a sign-in or sign-up call.
- `Dashboard` (dashboard.dfy): class `RecipeForm`, whose fields are the
  component's state and whose methods are its handlers. Its invariant `Valid()`
  says every list entry is trimmed and non-blank.
- `Register` (register.dfy) and `Login` (login.dfy): classes `RegisterPage` and
  `LoginPage`. Each asynchronous handler is split at its one `await`: `Begin…` is
  the part before the call, `Finish…` the part after it settles, and `Handle…`
  runs both.

Every call to the backend is a parameter: the signed-in user (`Option<User>`),
how the photo upload ended (`Uploaded(url)` or `UploadFailed`), how the document
insert ended, how sign-in or sign-up ended (`Succeeded` or `Failed(code)`, the
code an opaque string). The two clock readings of the submit handler
(`Date.now()` for the file name, `new Date()` for `createdAt`) are two `nat`
parameters.

Facts about the code that the model keeps:
- a recipe created without a photo is stored with `imageUrl == ""`;
- difficulty is one of `facile`, `media`, `difficile`;
- `handleSubmit` itself does not check that the lists are non-empty; only the
  disabled button (`RecipeForm.SubmitEnabled`) does.

The buttons' `disabled` attributes are plain predicates on the page state:
`Dashboard.RecipeForm.SubmitEnabled` is the negation of app/dashboard/page.tsx:249,
`Register.RegisterPage.SubmitDisabled` is app/register/page.tsx:75, and
`Login.LoginPage.SubmitDisabled` is app/login/page.tsx:68. What the handlers do
to these gates is stated by the constructor, `HandleSubmit`, `Begin…` and
`Finish…` rows below.

## Model

| member | source | states |
|---|---|---|
| Text.Trim | app/dashboard/page.tsx:42-43 | the trimmed text is empty exactly when every code point is WhiteSpace or LineTerminator; otherwise it neither starts nor ends with one |
| Text.TrimIsTrimOf | app/dashboard/page.tsx:42-43 | the input is a trimmable prefix, then the trimmed text, then a trimmable suffix |
| Text.TrimUnique | app/dashboard/page.tsx:42-43 | any text that satisfies that characterisation equals the trim: the characterisation fully determines it |
| Text.TrimIdempotent | app/dashboard/page.tsx:43 | trimming an already trimmed entry leaves it unchanged, so stored entries are fixed points of trim |
| FormLists.IsEntryTrimmed | app/dashboard/page.tsx:43 | a list entry (non-empty, no trimmable code point at either end) is exactly a non-empty string that trim leaves unchanged |
| FormLists.AddKeepsEntries | app/dashboard/page.tsx:41-46 | adding to a list of trimmed, non-blank entries keeps every entry trimmed and non-blank |
| FormLists.Add | app/dashboard/page.tsx:41-46 | blank input (trims to empty): list and input unchanged; otherwise the list grows by exactly one, the old entries keep their order as a prefix, the new last entry is the trimmed input (trimmed and non-blank), and the input becomes "" |
| FormLists.KeepOthers | app/dashboard/page.tsx:48-50 | the position filter drops exactly one entry when the index is a position of the list and none otherwise |
| FormLists.KeepOthersInside | app/dashboard/page.tsx:49 | for 0 <= index < length, the filter yields list[..index] + list[index+1..]: that entry goes, the others keep their order |
| FormLists.KeepOthersOutside | app/dashboard/page.tsx:49 | for an index outside the list the filter keeps every entry |
| FormLists.KeepOthersKeepsEntries | app/dashboard/page.tsx:48-50 | removal keeps every remaining entry trimmed and non-blank |
| UploadPaths.Decimal | app/dashboard/page.tsx:73 | the clock is rendered as a non-empty string of decimal digits with no leading zero |
| UploadPaths.DecimalValue | app/dashboard/page.tsx:73 | the rendered digits denote the clock value again |
| UploadPaths.UploadPath | app/dashboard/page.tsx:73-74 | the photo path starts with "recipes/", then a decimal digit, and ends with "_" followed by the file name |
| UploadPaths.UploadPathInjective | app/dashboard/page.tsx:73-74 | two photo paths recipes/<clock>_<name> are equal only when both clock and file name are equal |
| Dashboard.RecipeForm.constructor | app/dashboard/page.tsx:16-28 | the initial form: empty text fields, 30 minutes, difficulty media, no photo, empty lists, not submitting; the publish button (disabled attribute at line 249) starts disabled |
| Dashboard.RecipeForm.ChangeImage | app/dashboard/page.tsx:35-39 | the first chosen file becomes the photo; choosing no file keeps the previous one |
| Dashboard.RecipeForm.AddIngredient | app/dashboard/page.tsx:41-46 | ingredients and their input become what Add gives; steps and the step input do not change; entries stay trimmed and non-blank |
| Dashboard.RecipeForm.RemoveIngredient | app/dashboard/page.tsx:48-50 | an index in range removes exactly that ingredient, any other index changes nothing; steps and inputs do not change |
| Dashboard.RecipeForm.AddStep | app/dashboard/page.tsx:52-57 | steps and their input become what Add gives; ingredients and the ingredient input do not change |
| Dashboard.RecipeForm.RemoveStep | app/dashboard/page.tsx:59-61 | an index in range removes exactly that step, any other index changes nothing; ingredients and inputs do not change |
| Dashboard.RecipeForm.HandleSubmit | app/dashboard/page.tsx:63-107 | no user: nothing changes; a photo is uploaded exactly when one was chosen, at recipes/<clock>_<name>; a failed upload writes nothing and re-enables the button; otherwise the record copies title, description, time, difficulty, ingredients and steps, is owned by the user's uid and has the download URL or "" as imageUrl; isSubmitting stays true (publish button of line 249 disabled, redirect to / scheduled) exactly when the insert succeeds and is false after a failure; a record sent from an enabled form has at least one ingredient and one step; the record's entries are trimmed and non-blank |
| Register.ErrorMessage | app/register/page.tsx:27-33 | every failure code gives a non-empty message; the e-mail-in-use and weak-password messages are given exactly for their codes, the generic one exactly for every other code |
| Register.RegisterPage.constructor | app/register/page.tsx:10-13 | no error shown, not loading, nothing navigated |
| Register.RegisterPage.BeginRegister | app/register/page.tsx:17-19 | loading is set, the error is cleared, the create-account button (disabled attribute at line 75) is disabled |
| Register.RegisterPage.FinishRegister | app/register/page.tsx:21-36 | loading is cleared, so the button of line 75 is enabled again; success pushes /dashboard and leaves the error as it is; failure shows the message for its code and does not navigate |
| Register.RegisterPage.HandleRegister | app/register/page.tsx:16-37 | after the whole handler: success has navigated to /dashboard with no error shown; failure shows exactly one non-empty message; loading is false either way; the shown error is always one of the page's messages |
| Login.LoginPage.constructor | app/login/page.tsx:10-13 | no error shown, not loading, nothing navigated |
| Login.LoginPage.BeginLogin | app/login/page.tsx:17-19 | loading is set, the error is cleared, the sign-in button (disabled attribute at line 68) is disabled |
| Login.LoginPage.FinishLogin | app/login/page.tsx:21-30 | loading is cleared, so the button of line 68 is enabled again; success pushes /dashboard and leaves the error as it is; any failure shows the single invalid-credentials message |
| Login.LoginPage.HandleLogin | app/login/page.tsx:16-31 | after the whole handler: success has navigated to /dashboard with no error; any failure, whatever its code, shows "Email o password non validi."; loading is false either way |

## Left out

- The backend calls (upload, download URL, document insert, sign-in, sign-up) are parameters giving their outcome; the backend's own behaviour, and any document read, are not modelled.
- The clock (`Date.now()`, `new Date()`) is two parameters; `createdAt` is a millisecond count, not a date object.
- The 2000 ms delay before the redirect to `/` after publishing: the model records the redirect as scheduled (`redirect`) at once.
- Toasts and `console.error`: user notifications and logging with no effect on state.
- The dashboard's render guards (redirect to `/login` when no user, the loading screen) and the identity context behind `useAuth`: context/AuthContext and lib/firebase are not part of this model.
- The plain `onChange` setters of title, description, time, difficulty, e-mail, password and the two list inputs: each is a single field assignment, done in the model by assigning the field.
- The browser's form validation (`required`, `min={1}`, `minLength={6}`), which can stop the submit event before the handler runs: not modelled.
- Dashboard.RecipeForm.HandleSubmit: does not model a second submit started while the first is still awaiting the backend; the disabled button prevents it and the handler runs to completion in one step here.
- `time` is an `int`; `Number(...)` on the input can also give fractions or NaN, which are not modelled.
- `difficulty` is the three-value enumeration; the `as any` cast at app/dashboard/page.tsx:174 means only the select's options keep it in range.
- Strings are sequences of Unicode code points; JavaScript's UTF-16 code units (and lone surrogates) are not modelled.
- UploadPaths.Decimal: renders every natural number in plain digits; JavaScript switches to exponent notation from 10^21 on, far beyond any clock reading.
- The feed (app/page.tsx), the detail and edit views (app/ricette/[id]/page.tsx, app/dashboard/edit/[id]/page.tsx) with their ownership check, and the presentation components (components/, app/layout.tsx): reading and rendering with no form logic of the three pages modelled here.
