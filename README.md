# chatcorelab: webhook reply engine and admin session, in Dafny

chatcorelab is a minimal multi-tenant message responder. It has two independent
pieces of decision logic, and this project models both.

- **The `/webhook` handler** (`index.js`). It checks the `x-api-key` header and then
  the `message` field. It resolves the locale (`en` or `pt`) from `lang` and looks up
  the client's knowledge in a static table. It classifies the lower-cased message by
  keyword: hours, then booking, then menu, else a greeting. Finally it answers with
  `{reply, meta: {client, lang}}`. The handler is pure, so module `Webhook` models it
  with datatypes and functions (`webhook.dfy`).
- **The admin panel** (`plataforma/app.js`). It holds a demo account table and a
  session (`currentUser`, `currentSection`, the login error text, the screen shown,
  the rendered card). The login, logout, navigation, client-switch and page-load
  handlers change that session. It sits on a `storage` object that uses the
  browser's durable store and falls back to an in-memory dictionary. Both are
  classes with mutable fields:
  - `KeyValueStorage.SessionStorage` (`storage.dfy`);
  - `AdminSession.AdminPanel` (`admin.dfy`).

Module `Text` (`text.dfy`) defines the JavaScript string operations that index.js and
plataforma/app.js use: `toLowerCase`, `trim`, `startsWith` and `includes`. Module `Wrappers`
(`wrappers.dfy`) holds `Option`, which stands for JavaScript's `undefined`/`null`.

The model follows three behaviours of the code that are easy to miss:
- The hours and booking fallback texts are Portuguese in both locales
  (index.js:53-55). They are not chosen by locale.
- `renderSection` makes any name the current section, not only one of the seven
  (plataforma/app.js:127).
- When nothing is saved at page load, the login screen shows and `currentUser` is
  left as it was (plataforma/app.js:237-238).

## Model

| member | source | states |
|---|---|---|
| Text.Lower | index.js:49 | `toLowerCase` keeps the length; that it leaves no upper-case letter is stated by LowerIdempotent |
| Text.LowerIdempotent | index.js:49 | lower-casing gives a lower-case string, so lower-casing twice equals lower-casing once |
| Text.StartsWith | index.js:46 | `startsWith` holds exactly when the prefix is no longer than the text and agrees with it character by character |
| Text.Contains | index.js:52 | the empty keyword is always contained; a contained keyword is no longer than the text; the full characterisation is ContainsIff |
| Text.ContainsIff | index.js:52 | `includes` holds exactly when some start index holds an occurrence of the keyword |
| Text.ContainsLower | index.js:49-52 | an occurrence in the message survives lower-casing, as the lower-cased keyword |
| Text.TrimStart | plataforma/app.js:90 | the result is a suffix of the input; everything dropped is white space; the result does not start with white space |
| Text.TrimEnd | plataforma/app.js:90 | the result is a prefix of the input; everything dropped is white space; the result does not end with white space |
| Text.Trim | plataforma/app.js:90 | `trim` never lengthens the string; that it leaves no white space at either end and removes only end white space is stated by TrimSpec and TrimIsSlice |
| Text.TrimSpec | plataforma/app.js:90 | `trim` leaves no white space at either end; its result occurs inside the input; a string with no white space at its ends is unchanged |
| Text.TrimIsSlice | plataforma/app.js:90 | `trim` removes white space only at the ends: its result is a slice of the input with only white space outside it |
| Webhook.LocaleTag | index.js:46 | the locale written into `meta.lang` is "pt" or "en" |
| Webhook.ResolveLocale | index.js:46 | the locale is English exactly when `lang` is present and its lower-cased form starts with "en"; absent, empty or any other hint gives Portuguese |
| Webhook.LocaleTagResolves | index.js:46 | sending back the `meta.lang` tag as `lang` resolves to the same locale |
| Webhook.ResolveLocaleIgnoresCase | index.js:46 | the letter case of `lang` does not change the locale |
| Webhook.KnowledgeTable | index.js:33-44 | the `knowledge` table has the one tenant "culinaris", with both locales, each holding exactly `horarios` and `reservas`, and no entry is empty |
| Webhook.TopicsFor | index.js:47 | an absent client, an unknown client or a client without the locale gives the empty mapping; otherwise that client's entry for the locale |
| Webhook.MentionsAny | index.js:52 | an empty keyword always matches; no keyword list never matches; the full characterisation is MentionsAnyIff |
| Webhook.MentionsAnyIff | index.js:52 | the `includes(...) \|\| ...` chain holds exactly when one of the keywords occurs |
| Webhook.Classify | index.js:49-58 | Unknown exactly when no keyword list matches the lower-cased message; otherwise a matched intent that is first in the hours, booking, menu order |
| Webhook.KeywordsAreLowerCase | index.js:52-56 | every keyword is its own lower-case form |
| Webhook.KeywordDecides | index.js:52-56 | a message holding a keyword of an intent, in any letter case, gets that intent or an earlier one; an hours keyword always gives Hours |
| Webhook.BookingBeatsMenu | index.js:54-56 | with a booking keyword and a menu keyword and no hours keyword, the intent is Booking |
| Webhook.ClassifyIgnoresCase | index.js:49 | classifying the lower-cased message gives the same intent |
| Webhook.MenuReply | index.js:57 | the menu link text is never empty |
| Webhook.GreetingReply | index.js:59-61 | the greeting text is never empty |
| Webhook.EntryOr | index.js:53 | `kb[key] \|\| fallback`: a present non-empty entry is returned, otherwise the fallback; never empty when the fallback is not |
| Webhook.Compose | index.js:52-62 | hours gives `horarios` or the hours fallback; booking gives `reservas` or the booking fallback; menu and greeting depend only on the locale; the reply is never empty |
| Webhook.UnknownTenantGetsFallbacks | index.js:47-55 | an absent or unknown client gets exactly the fixed fallback texts for hours and booking |
| Webhook.MenuIgnoresTenant | index.js:56-57 | the menu reply is the same for every client and every knowledge table |
| Webhook.OrElse | index.js:15 | `v \|\| d` on an optional string: the string when it is present and non-empty, otherwise the default; never empty when the default is not |
| Webhook.ClientLabel | index.js:66 | `meta.client` is the client when it is present and non-empty, otherwise "default" |
| Webhook.Respond | index.js:46-67 | the reply is never empty; `meta.client` echoes the client or says "default"; `meta.lang` is the resolved locale; the reply is the composed one for the classified intent and the client's topics |
| Webhook.ConfiguredKey | index.js:15 | the configured key is never empty; it is the environment's key when that is set and non-empty, and "dev-key" when `API_KEY` is unset or empty, so then anyone sending "dev-key" is admitted |
| Webhook.Authorized | index.js:17-23 | with a non-empty configured key, exactly the header equal to it is admitted |
| Webhook.HandleWebhook | index.js:19-31 | for a parsed body, a bad key gives 401 "unauthorized" whatever the body says; with a good key a missing body or message gives 400 "message required"; success exactly when both guards pass, and then the payload is `Respond` on the body |
| Webhook.UnauthorizedIgnoresBody | index.js:19-20 | a rejected key gives the same 401 for any two parsed bodies |
| Webhook.HoursQuestionPt | index.js:52 | "Qual o horário?" is an hours request |
| Webhook.HoursQuestionEn | index.js:52 | "What are your hours?" is an hours request |
| Webhook.CulinarisHours | index.js:33-53 | an hours request for "culinaris" in either language gets that tenant's hours text in that language, with client and language echoed |
| Webhook.ExampleReservaIsBooking | index.js:54 | "reserva" is a booking request |
| Webhook.GreetingIsUnknown | index.js:52-58 | "olá" names no topic |
| Webhook.AnonymousGreeting | index.js:58-66 | a message naming no topic, sent without client or language, gets the Portuguese greeting and meta `{client: "default", lang: "pt"}` |
| KeyValueStorage.SessionStorage.constructor | plataforma/app.js:14-16 | the store in use starts as the persisted map when the durable store works, and as the empty fallback dictionary when it throws |
| KeyValueStorage.SessionStorage.SetItem | plataforma/app.js:17-23 | the store maps the key to the value afterwards; every other key reads as before; the store not in use is untouched |
| KeyValueStorage.SessionStorage.GetItem | plataforma/app.js:24-30 | a value exactly when the key is stored, and then the stored value |
| KeyValueStorage.SessionStorage.RemoveItem | plataforma/app.js:31-37 | the key is gone afterwards and reads as nothing; every other key reads as before |
| AdminSession.DemoAccounts | plataforma/app.js:3-12 | an address in `accounts` is one of the two demo addresses, has password "1234" and a non-empty display name, and has no white space at its ends and no upper-case letter, so (NormalizedAlready) it is its own normal form and login can reach it |
| AdminSession.NormalizeEmail | plataforma/app.js:90 | the normalised address is as long as the trimmed one, so it is empty exactly when the typed address is only white space; its shape is stated by NormalizedShape |
| AdminSession.NormalizedShape | plataforma/app.js:90 | a normalised address has no white space at its ends and no upper-case letter |
| AdminSession.NormalizeEmailIdempotent | plataforma/app.js:90 | trimming and lower-casing a normalised address changes nothing |
| AdminSession.AttemptLogin | plataforma/app.js:89-99 | missing fields exactly when the normalised address or the password is empty; accepted exactly when both are non-empty and the address is an account with that password; the accepted user is the normalised address |
| AdminSession.LoginIgnoresCaseAndPadding | plataforma/app.js:90-96 | letter case and surrounding white space in the typed address do not change the outcome; a signed-in user is a normalised address |
| AdminSession.NormalizedAlready | plataforma/app.js:90 | an address with no white space at its ends and no capital letter is already normalised |
| AdminSession.ExampleDemoLogin | plataforma/app.js:89-99 | any typing of cliente1@demo.pt signs in with "1234"; "4321" is refused as invalid; an empty password asks for both fields |
| AdminSession.ExampleUnregisteredLogin | plataforma/app.js:96-98 | any typing of an address missing from the table, with any non-empty password, is refused as invalid |
| AdminSession.LoginErrorText | plataforma/app.js:92-102 | the error text is empty exactly after an accepted attempt |
| AdminSession.ParseSection | plataforma/app.js:131-183 | the `switch` inverts the section names: a section is found exactly for one of the seven names, and it is the one with that name |
| AdminSession.DisplayName | plataforma/app.js:129 | the account's display name when it has one, otherwise the user itself, and "null" when nobody is signed in |
| AdminSession.Render | plataforma/app.js:126-185 | the placeholder "not found" card exactly for a name outside the seven sections; otherwise that section's card with the user's display name |
| AdminSession.StartCardNamesAccount | plataforma/app.js:129-137 | a demo account on the start section sees the conversations card with its own display name |
| AdminSession.StartupUserAsWritten | plataforma/app.js:234 | as written, a saved value resumes when it is non-empty and either an account or an inherited object property name |
| AdminSession.StartupUser | plataforma/app.js:233-234 | a saved value resumes exactly when it is non-empty and an account |
| AdminSession.InheritedNameResumesSession | plataforma/app.js:234 | "toString" is not an account, yet the lookup as written resumes it; the corrected lookup refuses it |
| AdminSession.AdminPanel.constructor | plataforma/app.js:40-41 | nobody is signed in, the section is "conversas", nothing is shown, and the session invariant holds |
| AdminSession.AdminPanel.RenderSection | plataforma/app.js:126-127 | the section becomes exactly the given name, even an unknown one; the content is that name's card; the session invariant is kept |
| AdminSession.AdminPanel.ShowAdminPage | plataforma/app.js:71-77 | the admin screen shows the current section's card; user and section are unchanged; the session invariant is kept |
| AdminSession.AdminPanel.ShowLoginPage | plataforma/app.js:80-86 | the login screen shows with the error text cleared; the session invariant is kept |
| AdminSession.AdminPanel.Login | plataforma/app.js:89-104 | a refused attempt changes only the error text; an accepted one sets the user to the normalised address, stores it under "currentUser", clears the error and shows the admin screen; the invariant (a signed-in user is an account and is the one storage holds) is kept |
| AdminSession.AdminPanel.Logout | plataforma/app.js:107-111 | nobody is signed in; "currentUser" is removed from storage and then reads as nothing; the login screen shows |
| AdminSession.AdminPanel.Navigate | plataforma/app.js:222-228 | an entry with a non-empty section name renders it; one without changes nothing; the session invariant is kept |
| AdminSession.AdminPanel.SwitchClient | plataforma/app.js:205-209 | the chosen account becomes the user and is stored; the current section is rendered again for it |
| AdminSession.AdminPanel.Startup | plataforma/app.js:232-240 | a saved value that is an account resumes on the admin screen; otherwise the login screen shows and the user is unchanged; the invariant is kept |

## Left out

- Express setup, JSON body parsing, `app.listen`, the port default and environment loading (index.js:1-7, index.js:71-74): framework plumbing and I/O. The environment value enters `ConfiguredKey` as a parameter.
- `/health` and its `process.uptime()` float (index.js:10-12): a runtime clock.
- Full Unicode `toLowerCase`: `Text.Lower` lower-cases ASCII and Latin-1 letters, one character to one character. Letters outside that range, and mappings that change the length, are not modelled.
- JSON values of other types in the body (numbers, objects, arrays as `client`, `message` or `lang`): only strings and absence are modelled. `Body` is the body after JSON parsing: a body the parser rejects (malformed JSON, or larger than the parser's size limit) is answered by the parser with 400 or 413 before the API-key check (index.js:7, index.js:26), so the key check comes first only for parsed bodies.
- Webhook.TopicsFor: an absent client gives the empty mapping. JavaScript actually looks up the key "undefined", which the shipped table does not hold either, so the result is the same for it.
- All DOM work: element lookups, `classList` toggling, the HTML templates (only which card and which display name are kept), `populateClientSelect`, `highlightMenuItem`, clearing the input fields, and the event-listener wiring (touch and Enter-key triggers call the same handlers).
- KeyValueStorage.SessionStorage: whether the durable store throws is fixed for the life of the page. A store that works for some calls and throws for others is not modelled, nor is the browser's own persistence between page loads beyond the `persisted` map given to the constructor. On the fallback path, keys naming Object.prototype members read as the inherited member and `__proto__` cannot be stored; the page only uses the key "currentUser".
- KeyValueStorage.SessionStorage.SetItem: on the fallback path, `fallbackStorage["__proto__"] = value` with a string value stores nothing (plataforma/app.js:21); the model stores it.
- KeyValueStorage.SessionStorage.GetItem: on the fallback path, a never-stored key naming an Object.prototype member such as "toString" reads as the inherited member (plataforma/app.js:28); the model reads nothing.
- KeyValueStorage.SessionStorage.RemoveItem: on the fallback path, a key naming an Object.prototype member still reads as the inherited member after `delete` (plataforma/app.js:35); the model reads nothing.
- AdminSession.AdminPanel.SwitchClient: requires the chosen value to be an account, because the select's options are exactly the account table's keys (plataforma/app.js:56-63). That builder is not part of this model.
- AdminSession.AdminPanel.Startup: follows `StartupUser`, the corrected lookup (see Findings), not the lookup as written.
- Repeated identical requests to the webhook give identical responses because every member of `Webhook` is a function; no separate lemma states this.

## Findings

| source | as written | input that shows it | evidently intended | confidence | as-written member | corrected member |
|---|---|---|---|---|---|---|
| plataforma/app.js:234 | `savedUser && accounts[savedUser]` reads `accounts` as a plain object, so names inherited from `Object.prototype` are truthy too | the stored `currentUser` is "toString" (or "constructor", "valueOf", ...): the admin screen opens for a user that is not an account | resume only when the saved value is an own key of `accounts` | medium; not executed | AdminSession.StartupUserAsWritten (with AdminSession.InheritedNameResumesSession) | AdminSession.StartupUser |
