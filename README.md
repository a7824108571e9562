# Colour picker application store, in Dafny

This project models the state store of a single-page colour-picking
application (`AppProvider` in `src/context/AppContext.tsx`). The store holds
four cells:

- the interface language: English (`en`) or Arabic (`ar`);
- the theme: `light` or `dark`;
- the colour currently being edited, an arbitrary string that starts as `#3B82F6`;
- the favourites, an ordered list of colour strings, newest first.

It keeps three of them in the origin's local storage (`app_language`,
`app_theme`, `app_favorites`, the last as JSON text) and reflects the
settings on the document's root element: `dir` is `rtl` exactly for Arabic,
`lang` is the language tag, and the class `dark` is present exactly in the dark
theme.

Files:

- `wrappers.dfy`: `Option` (a stored value or `null`) and `Result` (start-up can fail).
- `json.dfy`: `JSON.stringify` and `JSON.parse` for arrays of strings, with the
  string escapes of JSON. `DecodeEncode` proves that every list survives the
  trip through storage.
- `favorites.dfy`: saving (a de-duplicating prepend) and deleting (a filter),
  with lemmas for idempotence, order, counts and the no-duplicates invariant.
- `settings.dfy`: the two settings, their stored tags, the validated-or-default
  start-up readers, the theme flip, the header's language toggle and the text
  direction.
- `app_context.dfy`: the start-up state read from storage (`Boot`), what the
  effects write (`Persist`), and the class `AppStore` whose methods are the
  store's operations. Its invariant `Valid()` says that storage and the
  document agree with the cells.
- `scenarios.dfy`: whole-store runs (save twice then delete, language button
  pressed twice, restarts) proved from the members' contracts.

Three places where the code is less forgiving, or less immediate, than one
might expect:

- A stored favourites value that is malformed JSON does not fall back to the
  empty list. The code at `AppContext.tsx:42` has no guard, so `JSON.parse`
  throws, and `AppStore.Mount` returns `Failure`. Well-formed JSON of another
  shape (`{}`, `5`, `null`, `[1]`) is parsed by the code and the provider
  mounts. The model rejects it as well, a narrowing listed under "Left out".
- Persistence and the document updates happen in effects after the render.
  The model applies them synchronously inside each mutator (see "Left out").
- Favourites read at start-up are not checked for duplicates. So the
  no-duplicates property is stated as preserved by each mutator
  (`NoDup(old) ==> NoDup(new)`) rather than as part of `Valid()`.

## Model

| member | source | states |
|---|---|---|
| Json.DecodeEncode | src/context/AppContext.tsx:61-63 | The JSON text written for any list of strings is parsed back (as at line 42) to exactly that list, in order. |
| Json.ParseEscapedString | src/context/AppContext.tsx:62 | A string written with JSON escapes and a closing quote reads back as the same string; the text after it is left untouched. |
| Json.ParseEncodedItems | src/context/AppContext.tsx:62 | A non-empty comma-separated run of encoded strings, closed by `]`, reads back as the same list; the text after the `]` is left untouched. |
| Favorites.Add | src/context/AppContext.tsx:77-81 | A colour not yet saved goes in front: the length grows by one, it is at index 0 and the old list follows it. A colour already saved leaves the list unchanged. Afterwards the colour is in the list, the list holds exactly the old entries plus that colour, and a list without duplicates keeps none. |
| Favorites.Remove | src/context/AppContext.tsx:83-85 | The result holds exactly the old entries different from the colour, each as often as before, and no entry equal to the colour. It is a subsequence of the old list, so the remaining entries keep their relative order. |
| Favorites.AddIdempotent | src/context/AppContext.tsx:78 | Saving the same colour twice in a row gives the same list as saving it once. |
| Favorites.RemoveAbsent | src/context/AppContext.tsx:84 | Deleting a colour that is not in the list leaves the list unchanged. |
| Favorites.RemoveIdempotent | src/context/AppContext.tsx:84 | Deleting the same colour twice in a row gives the same list as deleting it once. |
| Favorites.RemoveKeepsNoDup | src/context/AppContext.tsx:83-85 | A list without duplicates has none after a delete. |
| Favorites.RemoveOnceLength | src/context/AppContext.tsx:83-85 | Deleting a colour that occurs exactly once shortens the list by exactly one, whatever duplicates other colours have. |
| Favorites.RemovePresentLength | src/context/AppContext.tsx:83-85 | In a list without duplicates, deleting a colour that is present shortens the list by exactly one. |
| Favorites.OnceInNoDup | src/context/AppContext.tsx:78 | In a list without duplicates, a saved colour occurs exactly once. |
| Favorites.RemoveUndoesAdd | src/context/AppContext.tsx:77-85 | Deleting a colour just saved into a list that did not hold it restores that list. |
| Favorites.ApplyKeepsNoDup | src/context/AppContext.tsx:77-85 | Any sequence of saves and deletes keeps a duplicate-free list duplicate-free. |
| Settings.LanguageFromStorage | src/context/AppContext.tsx:28-31 | At start-up the language is the stored one when the stored text is exactly `en` or `ar`. Otherwise (missing or any other text) it is English. |
| Settings.ThemeFromStorage | src/context/AppContext.tsx:33-36 | At start-up the theme is the stored one when the stored text is exactly `light` or `dark`. Otherwise it is light. |
| Settings.Flipped | src/context/AppContext.tsx:70 | The toggled theme always differs from the old one (of two values: light becomes dark and dark becomes light). |
| Settings.FlippedTwice | src/context/AppContext.tsx:70 | Toggling the theme twice restores it. |
| Settings.Toggled | src/components/Header.tsx:15 | The header's button always switches to the other language. |
| Settings.ToggledTwice | src/components/Header.tsx:15 | Pressing the language button twice restores the language. |
| Settings.DirOf | src/context/AppContext.tsx:48 | The document direction is `rtl` or `ltr`. It is `rtl` exactly when `isRTL` (line 91) holds for the language. |
| AppContext.FavoritesFromStorage | src/context/AppContext.tsx:40-43 | At start-up the favourites are empty when the key is missing or holds the empty string. When the key holds the text line 62 writes for some list, they are exactly that list. Any other non-empty text that cannot be read makes the reader fail, and the result is `[]` only for a missing key, the empty string, or text that reads as an empty array: there is no fallback to `[]`. |
| AppContext.BootUnreadableFavorites | src/context/AppContext.tsx:40-43 | Whatever the other keys hold, a start over storage whose `app_favorites` is non-empty and unreadable fails. |
| AppContext.BootTruncatedFavorites | src/context/AppContext.tsx:42 | A start over storage whose `app_favorites` holds `{` fails. |
| AppContext.BootPersist | src/context/AppContext.tsx:28-63 | Starting over storage in which the effects wrote a language, a theme and a list restores exactly those three, whatever else storage holds. |
| AppContext.BootEmpty | src/context/AppContext.tsx:28-43 | With nothing stored, the store starts in English, light, with no favourites. |
| AppContext.AppStore.constructor | src/context/AppContext.tsx:26-63 | The first render: the cells take the start-up values and the colour is `#3B82F6`. The three effects write the keys over the old storage. `dir`/`lang` follow the language and the dark class follows the theme. |
| AppContext.AppStore.Mount | src/context/AppContext.tsx:26-63 | Mounting fails exactly when the stored favourites cannot be read. Otherwise the store holds the start-up values, persists them and satisfies `Valid()`. The `dark` class is added or removed by theme and the other classes are kept. |
| AppContext.AppStore.Reload | src/context/AppContext.tsx:46-63 | Between operations, a new start over the store's storage would restore its language, theme and favourites exactly. |
| AppContext.AppStore.IsRTL | src/context/AppContext.tsx:91 | `isRTL` holds exactly when the language is Arabic, and exactly when the document's `dir` is `rtl`. |
| AppContext.AppStore.SetLanguage | src/context/AppContext.tsx:65-67 | The language becomes the given one and `app_language` is written with its tag. With the effect at lines 46-50, `dir` becomes `rtl` for Arabic and `ltr` for English, and `lang` becomes the tag. Theme, colour, favourites and the class list are not in its frame. |
| AppContext.AppStore.ToggleLanguage | src/components/Header.tsx:15 | The language switches to the other one, with storage and document updated as for `setLanguage`. |
| AppContext.AppStore.ToggleTheme | src/context/AppContext.tsx:69-71 | The theme flips and `app_theme` is written. With the effect at lines 52-59, `dark` is added to the class list in the dark theme and removed in the light theme; other classes are kept. |
| AppContext.AppStore.SetCurrentColor | src/context/AppContext.tsx:73-75 | The current colour becomes the given string verbatim. Only that cell is in its frame, so nothing is written to storage. |
| AppContext.AppStore.AddFavorite | src/context/AppContext.tsx:77-81 | The favourites become `Add(old, c)`. With the effect at lines 61-63, `app_favorites` holds their JSON. A duplicate-free list stays duplicate-free. Only the favourites and storage are in its frame. |
| AppContext.AppStore.RemoveFavorite | src/context/AppContext.tsx:83-85 | The favourites become `Remove(old, c)`. With the effect at lines 61-63, `app_favorites` holds their JSON. A duplicate-free list stays duplicate-free. Only the favourites and storage are in its frame. |
| Scenarios.SaveTwiceThenDelete | src/context/AppContext.tsx:38-85 | On a first start, saving `#3B82F6` gives `[#3B82F6]`. Saving it again gives the same list. Deleting it gives `[]`, and storage then holds `[]`. |
| Scenarios.LanguageButtonTwice | src/components/Header.tsx:15 | From a first start, one press of the language button makes the document `rtl`; a second press makes it `ltr` again. |
| Scenarios.RestartWithFavorites | src/context/AppContext.tsx:40-43 | A start over storage whose `app_favorites` holds the text `["#FF0000","#00FF00"]` shows exactly those favourites, in that order. |
| Scenarios.Restart | src/context/AppContext.tsx:28-63 | A start over the storage of any store between operations has the same language, theme and favourites, and the default colour. |

`t(key)` (`AppContext.tsx:87-89`) is modelled by `AppStore.Translate`, a lookup
of the key in the current language's table. It has no row because it carries
no contract: the tables themselves are not part of this model (see below).

## Left out

- Render timing: the effects at `AppContext.tsx:46-63` run after React renders. `addFavorite` tests the rendered list (line 78) and updates through `prev` (line 79). The model treats each call as seeing the latest state and persisting at once.
- An effect runs only when its cell changes. Under `Valid()` a write of an unchanged value leaves storage as it was, so the model writes unconditionally.
- `t(key)`: the translation tables (`src/utils/translations`) are not part of this model. `AppStore.Translate` takes the tables as a parameter.
- `useApp` throwing outside a provider (`AppContext.tsx:112-118`) is React wiring. It is not modelled.
- Json.Decode: accepts only a JSON array of strings. Any other well-formed JSON value (a number, an object, `null`, an array holding a non-string) is rejected with `Unsupported`. The code instead lets `JSON.parse` return it and stores it as the favourites.
- Json.Decode: rejects `\u` escapes that name UTF-16 surrogates, including a surrogate pair that `JSON.parse` would combine. Dafny characters are Unicode scalar values, so a JavaScript string holding a lone surrogate has no counterpart here.
- Storage failures (`getItem`/`setItem` throwing, a full quota) are not modelled. Storage is a map that always accepts writes.
- Colour parsing and format conversion (the `colord` library), the share image, share sheet and clipboard live in the views and external libraries. They are not part of the store.
