# Ritchie-Invest admin client — a Dafny model of its core

The admin client is a React single-page application for editing a course
catalogue: chapters, lessons, game modules (multiple-choice questions,
fill-in-the-blank sentences, true-or-false statements) and market tickers.
This project models the parts of it whose behaviour can be stated exactly:

- the API base URL normalisation and the path join (`src/lib/api.ts`);
- the service functions that build the requests and decode the responses,
  for game modules, tickers, chapters and lessons, including the
  bearer-header builders;
- the fill-in-the-blank and true-or-false creation dialogs: payload
  trimming, validation, the blank-list invariant, reset on close;
- the two form schemas, with the schema library's rules;
- the two authentication state machines: the route guard of `src/App.tsx`
  and the `useAuth` hook.

Each network call is modelled as the response the server gives: a status
code and the decoded JSON body. A service operation takes that response as
a parameter. It returns the request it would send together with what the
call returns or throws. Local and session storage are maps. Asynchronous
steps are split at their `await`. The outcome of each awaited call is an
input.

Modules, one per source file plus shared helpers:

- `Wrappers`: Option and Result.
- `Text`: the JavaScript `trim`, the whitespace set it removes, and UTF-16
  `length`.
- `Json`: decoded JSON values, truthiness and property access.
- `Storage`: Web Storage `getItem`.
- `Http`: requests and responses, the list-response convention and bearer
  headers.
- `Api`, `GameModuleService`, `TickerService`, `ChapterService`,
  `LessonService`, `FieldRules`, `LessonSchema`, `GameModuleSchema`,
  `FillInTheBlankDialog`, `TrueOrFalseDialog`, `App`, `UseAuth`: one per
  source file.

Two edge cases of the code are worth knowing:

- An empty, blank or slash-only value normalises to `"https:"`
  (`Api.SlashOnlyRawGivesBareScheme`), and normalising that again gives
  `"https://https:"` (`Api.BareSchemeIsNotAFixpoint`). Idempotence holds
  for schemed outputs with no whitespace at either end
  (`Api.NormalizeBaseIdempotent`).
- A non-integer `order` gets zod 3's default integer message,
  "Expected integer, received float". The French "L'ordre est requis"
  message belongs to the `min(1)` rule alone, and an order of `0.5` reports
  both issues (`LessonSchema.HalfOrderFailsTwice`).

## Model

| member | source | states |
|---|---|---|
| Api.RawBase | src/lib/api.ts:1 | the configured value when set (even if empty), `http://localhost:3000` otherwise |
| Api.WithScheme | src/lib/api.ts:3-5 | the result always carries a scheme; an existing scheme is kept as it is; otherwise `https://` is put in front |
| Api.StripTrailingSlashes | src/lib/api.ts:6 | the result is a prefix of the input that does not end in `/`, and what it drops is all `/` |
| Api.NormalizeBase | src/lib/api.ts:2-6 | the base never ends in `/`, always starts with `http:`/`https:` in any case, and is the trimmed, schemed value minus its final run of slashes |
| Api.InitApiBaseUrl | src/lib/api.ts:1-8 | the step-by-step updates of `normalized` give `NormalizeBase(RawBase(configured))` |
| Api.DefaultBaseIsLocalhost | src/lib/api.ts:1-8 | with nothing configured the base is `http://localhost:3000` |
| Api.SlashOnlyRawGivesBareScheme | src/lib/api.ts:2-6 | a raw value that trims to empty or to slashes only yields `"https:"` |
| Api.EmptyRawGivesBareScheme | src/lib/api.ts:2-6 | `""` and `" \t"` both yield `"https:"` |
| Api.NormalizeBaseSchemedIff | src/lib/api.ts:2-6 | the base carries a whole scheme iff some non-`/` character follows the scheme of the trimmed, schemed value |
| Api.WhitespaceBeforeTrailingSlashKept | src/lib/api.ts:2-6 | whitespace before the trailing slashes survives as the base's last character |
| Api.NormalizeBaseAddsScheme | src/lib/api.ts:2-6 | a trimmed schemeless value without trailing `/` becomes exactly `https://` + value |
| Api.NormalizeBaseFixpoint | src/lib/api.ts:2-6 | a trimmed schemed value without trailing `/` is left unchanged |
| Api.NormalizeBaseIdempotent | src/lib/api.ts:2-6 | re-normalising a schemed, trimmed output returns it unchanged |
| Api.BareSchemeIsNotAFixpoint | src/lib/api.ts:2-6 | re-normalising the empty value's `"https:"` gives `"https://https:"`, so idempotence needs the scheme |
| Api.BuildApiUrl | src/lib/api.ts:10-14 | a schemed path is returned unchanged; otherwise the base is a prefix followed by exactly one `/` and the path without its leading `/` |
| Api.BuildApiUrlIdempotent | src/lib/api.ts:10-14 | over a schemed base, joining a joined URL returns it unchanged |
| Text.Trim | src/lib/api.ts:2 | the result is the slice of the input between its leading and trailing whitespace runs; it is empty iff the input is all whitespace, and otherwise starts and ends with non-whitespace |
| Text.TrimOfTrimmed | src/lib/api.ts:2 | a string with no whitespace at either end trims to itself |
| Text.TrimIdempotent | src/components/true-or-false-module-create-dialog.tsx:50 | trimming twice is trimming once |
| Text.Utf16Length | src/schemas/lesson.schema.ts:4 | the `length` is between the number of characters and twice that |
| Http.TokenHeaders | src/services/chapter.service.ts:12-16 | the header record built in place has the JSON content type always and `Bearer <token>` exactly when the token is present and non-empty, nothing else |
| Http.DecodeList | src/services/chapter.service.ts:26-29 | a bare array is the list; otherwise the list exists iff the body is an object whose `key` is an array, and then it is that array |
| Http.DecodeListBothShapes | src/services/ticker.service.ts:27-28 | the bare and the wrapped `{key: list}` shapes both decode to the list |
| Http.DecodeListRejects | src/services/ticker.service.ts:29 | `null`, `{}` and a non-array `key` are no list |
| GameModuleService.EncodeChoices | src/services/game-module.service.ts:145 | the choices array has one object per choice, in order |
| GameModuleService.DecodeChoices | src/services/game-module.service.ts:145 | a decoded list has as many choices as the array has objects |
| GameModuleService.ChoicesRoundTrip | src/services/game-module.service.ts:145 | choices are copied unchanged: decoding the encoded list returns it |
| GameModuleService.Payload | src/services/game-module.service.ts:139-165 | the envelope has exactly `gameType` and `contract`; `gameType` is the form's tag; `contract` has exactly that kind's fields |
| GameModuleService.PayloadRoundTrip | src/services/game-module.service.ts:139-165 | every field of every variant is copied unchanged: decoding the envelope returns the form |
| GameModuleService.CreateGameModule | src/services/game-module.service.ts:132-179 | POST through the authenticated client to `<base>/lessons/<id>/modules` with exactly the envelope `Payload(form)`, which decodes to the form; Ok iff 2xx, else "Failed to create game module" |
| GameModuleService.GetGameModulesByLesson | src/services/game-module.service.ts:115-130 | non-2xx throws "Failed to fetch lesson" first; the list is `body.modules` exactly when that is an array (a bare array is refused); otherwise "API did not return a list of modules"; the second test changes no outcome |
| FillInTheBlankDialog.TrimBlank | src/components/fill-in-the-blank-module-create-dialog.tsx:56-60 | text and correction message trimmed, a missing message read as `""`, `isCorrect` unchanged |
| FillInTheBlankDialog.TrimBlanks | src/components/fill-in-the-blank-module-create-dialog.tsx:56-60 | a new list with each entry trimmed, of the same length |
| FillInTheBlankDialog.NonEmpty | src/components/fill-in-the-blank-module-create-dialog.tsx:61 | keeps exactly the entries with non-empty text and adds none |
| FillInTheBlankDialog.NonEmptyAppend | src/components/fill-in-the-blank-module-create-dialog.tsx:61 | the filter keeps the relative order: filtering a concatenation concatenates the filtered parts |
| FillInTheBlankDialog.NonEmptyKeepsFilled | src/components/fill-in-the-blank-module-create-dialog.tsx:61 | entries that all have text pass the filter unchanged |
| FillInTheBlankDialog.Survivors | src/components/fill-in-the-blank-module-create-dialog.tsx:56-61 | every survivor has non-empty text that is its own trim, and there are no more survivors than entries |
| FillInTheBlankDialog.CheckSubmission | src/components/fill-in-the-blank-module-create-dialog.tsx:54-75 | fewer than two survivors gives "Ajoutez au moins deux choix non vides." (checked first); no correct survivor gives "Marquez au moins une bonne réponse."; an accepted payload has the trimmed texts and the survivors, at least two, all filled, one correct |
| FillInTheBlankDialog.Dialog.constructor | src/components/fill-in-the-blank-module-create-dialog.tsx:21-29 | the form starts with empty texts and two empty blank entries, no error |
| FillInTheBlankDialog.Dialog.Input | src/components/fill-in-the-blank-module-create-dialog.tsx:104-179 | typing changes the values but not the number of entries, and keeps the error line |
| FillInTheBlankDialog.Dialog.AppendBlank | src/components/fill-in-the-blank-module-create-dialog.tsx:199-200 | one empty entry is appended and the list stays at two or more |
| FillInTheBlankDialog.Dialog.RemoveBlank | src/components/fill-in-the-blank-module-create-dialog.tsx:187-188 | removal is a no-op at two entries or fewer, and otherwise removes exactly entry `idx`; the list never drops below two |
| FillInTheBlankDialog.Dialog.Submit | src/components/fill-in-the-blank-module-create-dialog.tsx:54-76 | an empty required input stops the submit; otherwise the error is cleared first, then set to the refusal message with no request, or the checked payload is issued |
| FillInTheBlankDialog.Dialog.Close | src/components/fill-in-the-blank-module-create-dialog.tsx:47-52 | closing resets the form to its defaults and clears the error |
| TrueOrFalseDialog.Payload | src/components/true-or-false-module-create-dialog.tsx:48-52 | the payload is TRUE_OR_FALSE with the sentence trimmed (and trim-stable) and `isTrue` unchanged |
| TrueOrFalseDialog.Dialog.constructor | src/components/true-or-false-module-create-dialog.tsx:21-25 | the form starts with sentence `""`, `isTrue` false, no error |
| TrueOrFalseDialog.Dialog.Input | src/components/true-or-false-module-create-dialog.tsx:80-95 | editing changes the values and keeps the error line |
| TrueOrFalseDialog.Dialog.Submit | src/components/true-or-false-module-create-dialog.tsx:46-53 | an empty sentence stops the submit; otherwise the error is cleared and the request is always issued with the payload |
| TrueOrFalseDialog.Dialog.Close | src/components/true-or-false-module-create-dialog.tsx:39-44 | closing resets the form to its defaults and clears the error |
| TickerService.TickersUrl | src/services/ticker.service.ts:20 | `buildApiUrl('/tickers')` is `<base>/tickers` |
| TickerService.GetTickers | src/services/ticker.service.ts:19-30 | GET `<base>/tickers` with JSON headers and credentials; non-2xx gives "Failed to fetch tickers"; a bare array wins; else `body.tickers` when an array; else "API did not return a list of tickers" |
| TickerService.GetTickersAcceptsBothShapes | src/services/ticker.service.ts:27-28 | a 2xx answer with the bare or the wrapped list yields that list |
| TickerService.TickerBody | src/services/ticker.service.ts:32-42 | the body has exactly `name`, `symbol`, `type`, `currency`, copied from the input |
| TickerService.CreateTicker | src/services/ticker.service.ts:32-46 | POST to `<base>/tickers` with exactly `TickerBody(d)`, which decodes to the input; Ok iff 2xx, else "Failed to create ticker" |
| TickerService.SameEndpoint | src/services/ticker.service.ts:20 | listing and creating target the same URL |
| ChapterService.GetAuthHeaders | src/services/chapter.service.ts:10-17 | JSON content type always; `Authorization: Bearer <token>` exactly when the session token is present and non-empty |
| ChapterService.ChapterBody | src/services/chapter.service.ts:32-40 | the create body is exactly `{title, description}` |
| ChapterService.PatchBody | src/services/chapter.service.ts:46-54 | each of `title`, `description`, `isPublished` is in the body iff given, with its value |
| ChapterService.EmptyPatchSendsEmptyObject | src/services/chapter.service.ts:46-54 | an update with no field sends `{}` |
| ChapterService.GetChapters | src/services/chapter.service.ts:19-30 | GET `<base>/chapters` with the session headers; non-2xx gives "Failed to fetch chapters"; bare array, else `body.chapters`, else "API did not return a list of chapters" |
| ChapterService.CreateChapter | src/services/chapter.service.ts:32-44 | POST `<base>/chapters` with `{title, description}`; Ok iff 2xx, else "Failed to create chapter" |
| ChapterService.UpdateChapter | src/services/chapter.service.ts:46-58 | PUT `<base>/chapters/<id>` with only the given fields; Ok iff 2xx, else "Failed to update chapter" |
| ChapterService.GetChapterById | src/services/chapter.service.ts:60-68 | GET `<base>/chapters/<id>`; Ok iff 2xx, else "Chapter not found" |
| LessonService.AuthHeaders | src/services/lesson.service.ts:13-17 | JSON content type always; `Authorization: Bearer <token>` exactly when the local token is present and non-empty |
| LessonService.GetLessonsByChapter | src/services/lesson.service.ts:10-28 | GET `<base>/lessons/chapter/<id>` with the local headers; non-2xx gives "Failed to fetch lessons"; bare array, else `body.lessons`, else "API did not return a list of lessons" |
| LessonService.CreateLessonBody | src/services/lesson.service.ts:43 | the body has the data's fields plus `chapterId`; the argument overrides the data's `chapterId`; every other field is the data's |
| LessonService.CreateLessonBodyFromForm | src/services/lesson.service.ts:30-43 | for lesson form values the body has exactly `title`, `description`, `order`, `chapterId` |
| LessonService.CreateLesson | src/services/lesson.service.ts:30-47 | POST `<base>/lessons` with the merged body; Ok iff 2xx, else "Failed to create lesson" |
| FieldRules.MinLength | src/schemas/lesson.schema.ts:4-5 | one issue with the message iff the UTF-16 length is below the minimum |
| FieldRules.IntegerAtLeast | src/schemas/lesson.schema.ts:6 | no issue iff integer and at least the minimum; the integer issue iff fractional; the message iff below the minimum |
| FieldRules.Refine | src/schemas/game-module.schema.ts:6-16 | one issue with the message iff the check fails |
| LessonSchema.Validate | src/schemas/lesson.schema.ts:3-7 | accepted iff title and description have at least 2 code units and order is an integer of at least 1; each message present iff its own rule fails; no other issue and no repeat is listed |
| LessonSchema.AstralTitleIsLongEnough | src/schemas/lesson.schema.ts:4 | a one-character title outside the Basic Multilingual Plane passes `min(2)` |
| LessonSchema.HalfOrderFailsTwice | src/schemas/lesson.schema.ts:6 | an order of 0.5 reports both the integer and the minimum issue |
| LessonSchema.Fields | src/schemas/lesson.schema.ts:9 | the form values as the object `{title, description, order}` |
| GameModuleSchema.Validate | src/schemas/game-module.schema.ts:3-17 | accepted iff type has at least 2 code units, order is an integer of at least 1 and config parses; each message present iff its own rule fails; no other issue and no repeat is listed; a config that does not parse (the caught `JSON.parse` exception) is one failed rule, never an error of `Validate` |
| GameModuleSchema.BadConfigAlone | src/schemas/game-module.schema.ts:6-16 | with the other fields valid, a bad config is exactly one config issue |
| App.Decide | src/App.tsx:46-48 | nothing until checked; redirect to login iff checked and signed out; the children iff checked and signed in |
| App.RequireAuth.constructor | src/App.tsx:8-9 | both flags start false |
| App.RequireAuth.CheckAuth | src/App.tsx:12-40 | both tokens: signed in and checked, no refresh; refresh token alone: refresh starts with it; none: checked and signed out; storage untouched |
| App.RequireAuth.RefreshSettled | src/App.tsx:23-34 | success overwrites both tokens, failure removes both; while mounted the guard ends checked and signed in iff refreshed; after unmount the flags are untouched |
| App.RequireAuth.Unmount | src/App.tsx:43 | the cleanup clears `isMounted` only |
| App.RequireAuth.Render | src/App.tsx:46-48 | from the guard's own flags: nothing iff not yet checked, the login redirect iff checked and signed out, the page iff checked and signed in |
| App.BothTokensShowPage | src/App.tsx:15-21 | with both tokens stored the page is shown at once |
| App.NoRefreshTokenRedirects | src/App.tsx:15-39 | without a refresh token, with or without an access token, the guard redirects at once |
| App.RefreshWhileMounted | src/App.tsx:22-34 | a refresh settled while mounted stores the new pair and shows the page, or removes both tokens and redirects |
| App.RefreshAfterUnmount | src/App.tsx:22-43 | a refresh settled after unmount still writes or removes both stored tokens but leaves the guard unchecked |
| UseAuth.Hook.constructor | src/hooks/useAuth.ts:13-14 | both flags start false, no call made |
| UseAuth.Hook.Effect | src/hooks/useAuth.ts:16-41 | runs once; a session access token alone means signed in and checked, no refresh; else a local refresh token calls `refreshSafe`; else checked and signed out |
| UseAuth.Hook.RefreshSettled | src/hooks/useAuth.ts:20-30 | success signs in; failure calls `clearTokens` and signs out; checked either way |
| UseAuth.Hook.Login | src/hooks/useAuth.ts:43-47 | `setTokens` and signing in happen only after the login call returns, and `login` then resolves with no value; the login call's error propagates with the state untouched |
| UseAuth.Hook.Logout | src/hooks/useAuth.ts:49-54 | the server is called only with a stored refresh token; tokens cleared and signed out only after it returns; its error leaves both untouched |
| UseAuth.InitialCheckCompletes | src/hooks/useAuth.ts:16-41 | after any refresh settles the hook is checked, signed in iff a session token or a successful refresh |

## Left out

- The authenticated client `fetchWithAuth` is not part of this model: its refresh-on-401, retry and coalescing, and the headers it may add. Calls through it are only marked as such.
- `refreshSafe`, `setTokens`, `clearTokens`, `getRefreshToken`, `loginApi`, `logoutApi` are not part of this model. The hook records its calls to `refreshSafe`, `setTokens`, `clearTokens`, `loginApi` and `logoutApi` in order, and their outcomes are inputs. `getRefreshToken`'s result is `Logout`'s `storedRefreshToken` parameter; no call to it is recorded.
- `fetch`, `res.ok`, `res.json` and `JSON.stringify`: a response is a status and an already decoded JSON value, and a body is a JSON value. Property order in serialised text is not modelled.
- `JSON.parse` is a caller-supplied predicate on strings: its `false` stands for the exception the config rule catches. No exception is modelled.
- The schema library is assumed to be zod 3: its default `invalid_type` message is the one `FieldRules.NotAnInteger` holds; no file of the repository pins the version, and zod 4 words the message differently.
- The `z.coerce.number()` conversion from the input's text, including `NaN`: `order` is the coerced number.
- Floating point: numbers are exact reals. The ticker's price and variation fields are display-only and not modelled.
- React, react-hook-form and react-query machinery are not modelled: rendering, query caching and invalidation, mutation pending states, the per-field `required` messages shown under inputs, field-array ids and `<Navigate>`'s location state.
- Mutation callbacks are not modelled: the close-and-reset on success, and the "Erreur lors de l'ajout" error that both the fill-in-the-blank and the true-or-false dialogs set on failure. Submitting is modelled as "request issued / not issued".
- React StrictMode's doubled effects, and any concurrency between effects, are not modelled. Each effect runs once: `App.RequireAuth.CheckAuth` and `UseAuth.Hook.Effect` each require a `started` flag that is still false, and each sets it.
- The `payload = {}` fall-through of `createGameModule` is not modelled, because the form type is a closed union and cannot reach it.
- Strings are sequences of Unicode scalar values, so JavaScript strings holding lone surrogates cannot be represented.
- `import.meta.env` is the `configured` parameter of `Api.RawBase`. Browser storage is the `Storage.Store` parameter.
- The user-interface files are not part of this model: the ticker, chapter and game-module lists, the login form, the chapter page, the sidebar, the lesson and generic game-module dialogs, and the style tables.
- LessonSchema.Validate: states which issues appear, not the order in which they are listed.
- GameModuleSchema.Validate: states which issues appear, not the order in which they are listed.
