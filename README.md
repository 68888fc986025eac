# MyGameDiary — a Dafny model of its core

MyGameDiary is a Django site where players keep a diary of the video games
they play. Each player has a profile, which may be private, and game cards:
at most one card per game. Players send support requests, which an admin
switches between pending and solved. A form-template editor lets a user place
form elements on a preview page and save the layout as a JSON template.

This project models the logic behind those features and proves what it
promises:

- **Access** (`access.dfy`): the access-control rules of the players
  application.
  - Group membership, where `'All'` admits everyone.
  - The anonymous-only gate.
  - Profile ownership, a textual comparison of keys with an admin override.
  - Profile visibility: admin, self or not private. A missing or malformed key
    always fails.
- **Records** (`records.dfy`): the records and the `filter(pk=...).first()`
  lookup. A missing key matches nothing, text that is not an integer raises
  `ValueError`, and an integer key finds its row or nothing. ORM filters are
  modelled as multisets of table rows.
- **Players** (`players.dfy`): the views' record operations on a `Diary`
  object holding the tables.
  - The two toggles: a request's status and a profile's privacy.
  - Game-card creation under the one-card-per-game constraint.
  - Request creation and the `requests_remaining` arithmetic.
  - The list queries: a profile's cards, public cards of a game by owner name,
    and requests by status, newest first.
  - The redirect after a card is deleted.
- **Templates** (`templates.dfy`): the template store's save (create or update)
  and load (a projection of four fields). Every failure is answered with
  status 400.
- **Editor** (`editor.dfy`): the editor page's state, modelled as an
  `EditorPage` object.
  - The element list and the per-type counters that name new elements.
  - Adding, removing and recounting elements.
  - The name and description inputs, and property editing.
  - Dragging and resizing inside the preview.
  - Editing a select element's options.
- **ApiUtils** (`api_utils.dfy`): `get_clear_name`, which removes one leading
  article.
- **SessionUtils** (`session.dfy`): storing a value in the session and reading
  it back, optionally popping it.
- **SearchField** (`search.dfy`): the game-list search box's show/hide and
  highlight rule.
- **Games** (`games.dfy`): `Game.__str__` and `get_genres_names`.
- Helper modules:
  - `wrappers.dfy`: `Option`.
  - `text.dfy`: Python's `str`/`int` on integers, the whitespace `int()` strips, `trim`,
    `toLowerCase`, `indexOf` and `join`.
  - `ordering.dfy`: a sort by a total preorder, and string order.

Several things that the source gets from its environment are parameters here:

- identifiers taken from the clock (`Date.now()`, `auto_now`);
- the result of a `fetch`;
- the body of a request after `json.loads`;
- the acting user and profile.

## Model

| member | source | states |
|---|---|---|
| Access.IsMemberOf | MyGameDiary/players_app/mixins.py:16-19 | A user without groups (an anonymous one included) is a member exactly when `'All'` is named. Without `'All'`, only a logged-in user can be a member. |
| Access.WildcardAdmitsEveryone | MyGameDiary/players_app/mixins.py:17-18 | When `'All'` is among the allowed groups, every user is a member. |
| Access.MembershipIsIntersection | MyGameDiary/players_app/mixins.py:16-19 | Without `'All'`, a user is a member exactly when one of the user's groups is named. |
| Access.NoGroupsNoRights | MyGameDiary/players_app/mixins.py:19 | An empty list of allowed groups admits nobody. |
| Access.ContextRights | MyGameDiary/players_app/mixins.py:21-23 | The context holds exactly the key `user_has_rights`, and it is true exactly for members. |
| Access.AnonymousHasNoRights | MyGameDiary/players_app/mixins.py:16-28 | A visitor who passes the anonymous-only test has no rights under any group list without `'All'`. `get_context_rights` reports false for them. |
| Access.ProfileOwnership | MyGameDiary/players_app/mixins.py:36-39 | An admin always passes. A non-admin passes only when `profile_pk` is exactly the printed form of their own key. |
| Access.OwnershipWithoutKey | MyGameDiary/players_app/mixins.py:37-39 | Without `profile_pk` (which prints as "None"), only an admin passes. |
| Access.OwnershipByKey | MyGameDiary/players_app/mixins.py:36-39 | For a non-admin, a printed key passes exactly when it is the acting profile's own key. |
| Access.OwnerReachesOwnProfile | MyGameDiary/players_app/mixins.py:36-39 | A non-admin who passes the ownership test names their own profile. Looking that key up finds that profile or nothing. |
| Access.OwnershipIsTextual | MyGameDiary/players_app/mixins.py:39 | "07" finds profile 7 in the database, yet fails the textual ownership comparison for profile 7. |
| Access.ProfileNotPrivate | MyGameDiary/players_app/mixins.py:47-58 | The visibility test passes only when the key finds an existing profile. |
| Access.VisibilityByKey | MyGameDiary/players_app/mixins.py:51-53 | For an existing profile, visibility holds exactly for an admin, for the profile itself, or when the profile is public. |
| Access.VisibilityNeedsProfile | MyGameDiary/players_app/mixins.py:50-58 | A missing or malformed key fails the test, even for an admin. |
| Access.PrivateProfileHidden | MyGameDiary/players_app/mixins.py:53 | A private profile is hidden from another profile without admin rights. |
| Records.LookupPk | MyGameDiary/players_app/mixins.py:50-57 | `Invalid` exactly when the text does not parse as an integer. `Missing` exactly for no key or an absent integer. `Found` carries exactly the parsed integer, and it is a key of the table. |
| Text.ParseIntStripsSeparators | MyGameDiary/players_app/mixins.py:49 | A printed key padded with the ASCII separators U+001C and U+001F parses back to the key: `int()` strips them as it strips spaces. |
| Records.LookupPrintedKey | MyGameDiary/players_app/mixins.py:51 | A key printed by Python and looked up again finds its row exactly when the row exists. |
| Players.SwitchStatus | MyGameDiary/players_app/views.py:128-130 | Only the named request changes, and only its `active` flag is negated. The keys are unchanged. |
| Players.SwitchStatusTwice | MyGameDiary/players_app/views.py:129 | Switching a request twice restores the table: the status is an involution. |
| Players.SwitchPrivacy | MyGameDiary/players_app/views.py:195-197 | Only the named profile changes, and only its `is_private` flag is negated. The keys are unchanged. |
| Players.SwitchPrivacyTwice | MyGameDiary/players_app/views.py:196 | Switching privacy twice restores the table. |
| Players.AddCardKeepsOnePerGame | MyGameDiary/players_app/views.py:246 | Adding a card for a game the profile has no card for keeps the one-card-per-game constraint. |
| Players.PendingOf | MyGameDiary/players_app/views.py:93 | The keys of exactly the profile's pending requests. |
| Players.RequestsRemaining | MyGameDiary/players_app/views.py:93-94 | At most 5. It equals 5 exactly when the profile has no pending request. |
| Players.AddRequestRemaining | MyGameDiary/players_app/views.py:84-94 | A new pending request of a profile lowers its remaining count by exactly one. |
| Players.SwitchStatusRemaining | MyGameDiary/players_app/views.py:93-94 | Switching a request changes its owner's remaining count. Solving a pending request adds one and reopening takes one. Other profiles are unaffected. |
| Players.NewestFirstIsPreorder | MyGameDiary/players_app/views.py:114-118 | Ordering by descending timestamp is a total preorder. |
| Players.RequestList | MyGameDiary/players_app/views.py:111-118 | The list is a permutation of exactly the requests the `display` filter keeps: pending for "active", solved for "solved", all otherwise. It is sorted newest first. |
| Players.RequestListPartition | MyGameDiary/players_app/views.py:113-118 | The pending list and the solved list are disjoint, and together they make up the full list. |
| Players.OnProfile | MyGameDiary/players_app/views.py:175 | The keys of exactly the profile's cards. |
| Players.ProfileCards | MyGameDiary/players_app/views.py:169-181 | A card is listed exactly when the profile exists, the card is the profile's, and either `display` is "all" or the letter filter keeps it. A missing profile lists nothing, never every card. |
| Players.ProfileViewAsWritten | MyGameDiary/players_app/views.py:156-181 | The page is refused exactly when the visibility test on the query's `profile_pk` fails. Otherwise it lists the cards of the URL's `pk`. |
| Players.ProfileViewAsWrittenLeaksPrivateCards | MyGameDiary/players_app/views.py:156-176 | A counterexample: a non-admin sees the card of another user's private profile by naming a public profile in `profile_pk`. |
| Players.ProfileViewGuarded | MyGameDiary/players_app/views.py:156-181 | Cards are shown exactly when the listed profile exists and is the viewer's own, public, or seen by an admin. |
| Players.PublicCardsForGame | MyGameDiary/players_app/views.py:319-329 | The list is a permutation of exactly the game's cards on public profiles, sorted by owner name. A missing game gives an empty list. |
| Players.DeleteSuccessUrl | MyGameDiary/players_app/views.py:308-309 | The URL is a profile page, and its `<pk>` segment is the acting profile's printed key. |
| Players.DeleteSuccessUrlFindsActor | MyGameDiary/players_app/views.py:308-309 | Looking up the page's `<pk>` segment finds the acting profile. |
| Players.DeleteSuccessUrlNamesActor | MyGameDiary/players_app/views.py:308-309 | Two deleters land on the same page exactly when they are the same profile, whoever owned the card. |
| Players.Diary.ChangeStatus | MyGameDiary/players_app/views.py:125-136 | Succeeds exactly when the request exists. Then the request table becomes `SwitchStatus` of it; otherwise nothing changes. The other tables are unchanged, and the invariant is kept. |
| Players.Diary.ChangePrivacy | MyGameDiary/players_app/views.py:192-203 | Succeeds exactly when the key finds a profile. Then the profile table becomes `SwitchPrivacy` of it; a missing or malformed key changes nothing. |
| Players.Diary.ChangePrivacyView | MyGameDiary/players_app/views.py:184-210 | The privacy flips exactly when the ownership test passes and the key finds a profile. So an admin can flip any existing profile, an owner can flip their own, and a non-admin can flip no other. Otherwise nothing changes. |
| Players.Diary.CreateGameCard | MyGameDiary/players_app/views.py:240-255 | The outcome is `InvalidGameId` exactly for a malformed key, `GameNotFound` exactly for a missing game, and `AlreadyInPortfolio` exactly when the profile already has a card for the game. A created card has a fresh key, belongs to the acting profile and is the only change. Every other outcome changes nothing. |
| Players.Diary.AddCard | MyGameDiary/players_app/views.py:245-254 | For an existing game, a new card unless the pair already exists (the unique constraint). The invariant is kept. |
| Players.Diary.CreateRequest | MyGameDiary/players_app/views.py:84-89 | Adds exactly one pending request of the acting profile under a fresh key. The remaining count drops by one. |
| Templates.Member | editor_app/views.py:43-44 | Python's `data[key]`: a value exactly when `data` is an object with that key. |
| Templates.Load | editor_app/views.py:66-79 | Loads exactly when the template exists and its configuration has `elements` and `elementCounts`. It then returns exactly `name`, `description` and those two values. Otherwise the status is 400, and a missing template gives `NotFound`. |
| Templates.LoadIgnoresOtherKeys | editor_app/views.py:69-74 | A configuration key other than `elements` and `elementCounts` never affects the answer. |
| Templates.LoadIgnoresOtherRows | editor_app/views.py:68 | Loading one template does not depend on the other rows. |
| Templates.TemplateStore.Save | editor_app/views.py:37-62 | Covers both paths. An update checks, in order, that the template exists, then `description`, then `name`, then that neither is `null` (the NOT NULL columns). It overwrites `name`, `description` and the whole `configuration`. A create needs a non-null `name`, takes the whole body as configuration and leaves the description empty. A body that is not JSON is an error. Every answer with status 400 leaves the store unchanged. |
| Templates.TemplateStore.CreateThenLoad | editor_app/views.py:49-73 | Round trip: loading a created template gives back the posted `name`, `elements` and `elementCounts`, with an empty description. |
| Templates.TemplateStore.UpdateThenLoad | editor_app/views.py:40-73 | Round trip: loading an updated template gives back the posted `name`, `description`, `elements` and `elementCounts`. |
| Editor.TypeName | MyGameDiary/static_deployment/js/editor.js:376-385 | "Unknown" exactly for a type the toolbar does not offer. |
| Editor.Without | MyGameDiary/static_deployment/js/editor.js:167 | The kept elements are exactly those whose id differs. |
| Editor.FirstWithId | MyGameDiary/static_deployment/js/editor.js:163 | `None` exactly when no element has the id. Otherwise the result is an element of the list with that id. |
| Editor.FirstWithIdIsFirst | MyGameDiary/static_deployment/js/editor.js:163 | The element found is the one at the first index holding the id. |
| Editor.WithoutCount | MyGameDiary/static_deployment/js/editor.js:162-167 | Filtering by id never raises a type's count. It lowers the count of the first found element's type. |
| Editor.Clamp | MyGameDiary/static_deployment/js/editor.js:38-39 | The result lies between the bounds when they are ordered, keeps a value already inside, and snaps a value outside to the nearer bound. |
| Editor.ConstrainDimensions | MyGameDiary/static_deployment/js/editor.js:562-569 | Always `x >= 0`, `y >= 0`, width `>= 50` and height `>= 30`. A width or height that fits is kept, and the box then stays inside the preview. A box already inside is unchanged. |
| Editor.ResizeRequest | MyGameDiary/static_deployment/js/editor.js:573-638 | Each handle's own edges follow the pointer: a west handle moves the left edge by `dx`, an east handle the right edge, a north handle the top by `dy`, and a south handle the bottom. |
| Editor.ResizeKeepsOppositeEdges | MyGameDiary/static_deployment/js/editor.js:573-638 | Each handle moves only its own edges: the opposite edges stay put, and a side handle keeps the other dimension. |
| Editor.FindById | MyGameDiary/static_deployment/js/editor.js:163 | The loop's result is the first element with the id. |
| Editor.FilterOutId | MyGameDiary/static_deployment/js/editor.js:167 | The loop keeps exactly the elements with another id, in order. |
| Editor.Recount | MyGameDiary/static_deployment/js/editor.js:754-766 | Counters exist for the toolbar's types and for the loaded types. Each equals the number of loaded elements of its type. |
| Editor.EditorPage.constructor | MyGameDiary/static_deployment/js/editor.js:1-19 | An empty page with every toolbar counter at 0. |
| Editor.EditorPage.CountersNonNegative | MyGameDiary/static_deployment/js/editor.js:162-166 | Under the page invariant, no counter is ever negative: a counter only drops when an element of its type is removed. |
| Editor.EditorPage.GenerateElementName | MyGameDiary/static_deployment/js/editor.js:133-143 | The type's counter goes up by one, and the name is the type's name followed by the new count. |
| Editor.EditorPage.AddElement | MyGameDiary/static_deployment/js/editor.js:145-160 | Appends exactly one element and bumps its type's counter. The defaults: position (20,20) and width 200; height 150 exactly for pictures, else 40; two options exactly for selects, else none. |
| Editor.EditorPage.RemoveElement | MyGameDiary/static_deployment/js/editor.js:162-172 | No element with the id remains, and the others keep their order. The first found element's type counter drops by one, only when one was found. The selection is cleared exactly when it had that id. |
| Editor.EditorPage.LoadConfiguration | MyGameDiary/static_deployment/js/editor.js:730-777 | Without a template id: no elements, every counter 0, and the default name. A failed fetch changes nothing. A loaded template replaces the elements (`|| []`), the name and the description, and recounts every counter. |
| Editor.EditorPage.SaveFormName | MyGameDiary/static_deployment/js/editor.js:113-116 | The trimmed input, or the default name when the input is blank. The name never starts with a space. |
| Editor.EditorPage.SaveDescription | MyGameDiary/static_deployment/js/editor.js:118-121 | The description becomes the trimmed input. |
| Editor.EditorPage.EditProperty | MyGameDiary/static_deployment/js/editor.js:393-402 | A blank input leaves the elements as they were. Any other input sets the property to the trimmed text, and nothing else changes. |
| Editor.EditorPage.Drag | MyGameDiary/static_deployment/js/editor.js:33-43 | The position is clamped to `0 <= x <= width - w` and `0 <= y <= height - h`, and the box stays inside when it fits. |
| Editor.EditorPage.Resize | MyGameDiary/static_deployment/js/editor.js:557-645 | The element takes the constrained box the handle asks for, so it keeps `x, y >= 0` and a size of at least 50 by 30. |
| Editor.EditorPage.AddOption | MyGameDiary/static_deployment/js/editor.js:337-341 | Appends "Option n+1" to the element's options, where n is the previous number of options. |
| Editor.EditorPage.RemoveOption | MyGameDiary/static_deployment/js/editor.js:322-326 | `splice(k, 1)`: option k is removed, and the others keep their order. |
| Editor.EditorPage.SetOption | MyGameDiary/static_deployment/js/editor.js:313-316 | Option k becomes the new value, and nothing else changes. |
| Editor.NamesRepeat | MyGameDiary/static_deployment/js/editor.js:133-167 | Generated names are not unique: add two text fields, remove the first, add another, and both remaining fields are named "TextField2". |
| ApiUtils.ClearName | MyGameDiary/games_app/api_utils.py:149-158 | "A " removes 2 characters, "An " removes 3 and "The " removes 4. Any other name is unchanged. The result is always a suffix of the name. |
| ApiUtils.ClearNameShortens | MyGameDiary/games_app/api_utils.py:149-158 | The result is shorter exactly when the name starts with one of the three articles. |
| ApiUtils.ClearNameNotIdempotent | MyGameDiary/games_app/api_utils.py:150-155 | Only one article is removed: "The A X" gives "A X", and applying it again gives "X". |
| ApiUtils.ClearNameCaseSensitive | MyGameDiary/games_app/api_utils.py:150-157 | "the X" and "AN X" are kept as they are. |
| ApiUtils.ClearNameKeepsWordsStartingLikeArticles | MyGameDiary/games_app/api_utils.py:150-157 | "Anthem" and "Theme Park" are kept as they are. |
| SessionUtils.StoreInSession | MyGameDiary/MyGameDiary/session_utils.py:6-13 | Stores exactly when the request and the key are truthy, setting only that key. Otherwise the session is unchanged. |
| SessionUtils.GetFromSession | MyGameDiary/MyGameDiary/session_utils.py:16-29 | The stored value, or `None` when the key is absent or the request or key is falsy. Only a pop with a truthy key changes the session, removing that key. A pop of an absent key changes nothing. |
| SessionUtils.StoreThenPop | MyGameDiary/MyGameDiary/session_utils.py:6-29 | After a store, a pop returns the value and a second read returns `None`. The other keys are unchanged. |
| SearchField.Switch | MyGameDiary/MyGameDiary/static/js/search-field.js:16-17 | `remove(off); add(on)`: `on` is present and `off` absent. The other classes are unchanged. |
| SearchField.Matches | MyGameDiary/MyGameDiary/static/js/search-field.js:12 | True exactly when the lower-cased search occurs somewhere in the lower-cased text. An empty search always matches, and a match is never longer than the text. |
| SearchField.ColourHighlight | MyGameDiary/MyGameDiary/static/js/search-field.js:11-27 | A highlight turns `text-warning` exactly when the search is non-empty and its text contains the search, ignoring case. Otherwise it turns `text-white`. It sets `show` exactly when it reveals its game. |
| SearchField.ColourHighlights | MyGameDiary/MyGameDiary/static/js/search-field.js:8-27 | Every highlight is recoloured. `show` ends true exactly when some highlight reveals the game. |
| SearchField.OnInput | MyGameDiary/MyGameDiary/static/js/search-field.js:3-38 | Each game gets exactly one of `d-flex` (when shown) and `d-none`, and keeps its other classes. Each highlight is coloured by whether it matched. |
| SearchField.EmptySearchShowsEveryGame | MyGameDiary/MyGameDiary/static/js/search-field.js:22-31 | With an empty search, a game is shown exactly when it has a highlight. |
| SearchField.NoHighlightsHidden | MyGameDiary/MyGameDiary/static/js/search-field.js:7-35 | A game without highlights is hidden, whatever the search. |
| SearchField.MatchesIgnoresCase | MyGameDiary/MyGameDiary/static/js/search-field.js:12 | Lower-casing either text first does not change whether it matches. |
| SearchField.ShownByMatch | MyGameDiary/MyGameDiary/static/js/search-field.js:12-15 | With a non-empty search, a game is shown exactly when one of its highlight texts contains the search, ignoring case. |
| Games.Describe | MyGameDiary/games_app/models.py:23-24 | The string is "id: <pk> - '" (where an unsaved key prints as "None"), then the game's name, then "' (<year>)". Each part sits at its own position. |
| Games.DescribeShowsKey | MyGameDiary/games_app/models.py:23-24 | Two versions of a game that differ only in their key print differently. |
| Games.DescribeShowsName | MyGameDiary/games_app/models.py:23-24 | Two versions of a game that differ only in their name print differently. |
| Games.GenresByName | MyGameDiary/games_app/models.py:7-8 | The genres are a permutation of the game's genres, sorted by name (`Genre.Meta.ordering`). |
| Games.Names | MyGameDiary/games_app/models.py:28-29 | One name per genre, in the same order. |
| Games.GenresNames | MyGameDiary/games_app/models.py:26-30 | The loop's list of names, joined with ", ", over the genres in name order. |
| Games.GenresNamesShortLists | MyGameDiary/games_app/models.py:27-30 | "" for a game without genres. A game with one genre gives just that genre's name. |
| Games.JoinContainsEachPart | MyGameDiary/games_app/models.py:30 | Every genre name occurs in the joined text. |
| Games.JoinLength | MyGameDiary/games_app/models.py:30 | The joined text is the names plus exactly one separator between consecutive names. |

## Left out

- URL keys declared `<int:pk>` (the request switch, the profile page and the game's card list) are integers. Their `ValueError` branches cannot be reached, so they are not modelled. Query-string keys are parsed.
- Python's `int()` is modelled on ASCII whitespace (space, `\t` to `\r`, and the separators U+001C to U+001F), an optional sign and ASCII digits. Non-ASCII whitespace that `int()` also strips (U+0085, U+00A0, U+2000 to U+200A, U+3000 and the like) is not. Underscores between digits and non-ASCII digits are not accepted.
- Records.LookupPk: keys are unbounded integers, so every well-formed number is `Found` or `Missing`. This misses two cases.
  - A key beyond the database's 64-bit range, such as `99999999999999999999`, makes the database driver raise `OverflowError`. That is not a `ValueError`, so no handler catches it and the request ends in a server error.
  - Under Python's default limit on integer-string conversion, `int()` rejects a text of more than 4300 digits with a `ValueError`. The source then reports an invalid id.
- `trim()` removes ASCII whitespace only (space and `\t` to `\r`). The Unicode spaces, U+00A0, U+FEFF and the line separators it also removes are not modelled. `toLowerCase()` lowers ASCII letters only.
- The `starts_with`, `by_profile`, `on_profile`, `on_public_profiles`, `pending` and `solved` managers are not part of this model. Each is defined by its call site; `starts_with` is a parameter, because the field it tests is not known.
- The five-request quota that `LimitPendingRequestsMixin` enforces is not part of this model. Only the `requests_remaining` arithmetic is modelled.
- `PlayerRequestSwitchView` uses `UserRightsMixin` only for page context and has no gate. The model does not add one.
- Messages and their text are left out. Only success is told apart from failure.
- The redirect of `ProfileChangePrivacyView` is left out. With a missing or non-numeric key, `reverse_lazy` raises `NoReverseMatch`, because the `<int:pk>` converter accepts digits only. The request then ends in a server error.
- `order_by` on text compares code points. The database's collation is not modelled.
- Database concurrency is left out. The (profile, game) uniqueness is a sequential check.
- The clock (`Date.now()`, `auto_now`), `fetch`, `confirm`/`alert`, the DOM, `FileReader` and `json.loads` are outside the model. Their results are parameters.
- JSON numbers are integers, and editor coordinates are integers (JavaScript numbers may be fractional).
- `FormTemplate.name` is a `CharField` and `description` a `TextField`. The model stores the JSON value posted for each, without Django's coercion to text. It does not model the `max_length` of 100 on `name`, which the database may or may not enforce. A `null` in either field is modelled as the database's refusal.
- The editor reads `templateId` from the save answer, but the server sends `template_id`. The model keeps the two sides separate and does not reconcile them.
- Editor elements are values designated by their index in the element list. Object identity and aliasing between `selectedElement`, `draggedElement` and the list are not modelled. The selection is kept as an id.
- Editor.EditorPage.AddElement: requires a type the toolbar offers. For any other type the source produces an `undefined`/`NaN` name, which is not modelled.
- Editor.EditorPage.LoadConfiguration: the case where a template was found is modelled with elements whose `type` is a string. Any other JSON there is not modelled. Types named like an `Object.prototype` member are not modelled either (see Editor.Recount).
- Editor.TypeName: a type named like an `Object.prototype` member (`constructor`, `toString`, `hasOwnProperty`, `__proto__`, …) is not modelled. The source's object lookup finds the inherited property and returns it instead of 'Unknown'; the model answers 'Unknown'.
- Editor.Recount: counters are a map, not a plain object. For a loaded type named like an `Object.prototype` member, the source starts from the inherited property: it builds a string counter such as "function Object() { [native code] }1", or it loses the assignment to `__proto__`. The model counts 1 for such a type.
- SearchField.OnInput: DOM elements are values. The handler returns the games with their new classes instead of changing them in place.
- ApiUtils.ClearName removes at most one leading article, so it is not idempotent. ClearNameNotIdempotent proves this.
- The IGDB/Twitch API calls and the rest of `api_utils.py`, together with login, registration, forms, admin screens and templates, are outside the core and are not modelled.

## Findings

| source | as written | input that shows it | evidently intended | confidence | as-written member | corrected member |
|---|---|---|---|---|---|---|
| MyGameDiary/players_app/mixins.py:48 | `ProfileView` is guarded by the visibility test, which reads the query's `profile_pk`. The view then lists the cards of the URL's `pk` (views.py:157, 172). This holds for the revision of mixins.py shown here. views.py imports three mixins (views.py:8-10) that this mixins.py does not define, and it sets `self.profile_pk` in its views. So the revision it runs with may check `self.profile_pk`, and there the leak would not occur. | Profile 1 is private and belongs to someone else, profile 2 is public, and the viewer is profile 3 without admin rights. `/players/profile/1/?display=all&profile_pk=2` lists profile 1's cards. | The visibility test applies to the profile the page lists. | not executed; holds only for the mixins.py revision shown, and the deployed revision may already check the listed profile | Players.ProfileViewAsWritten, Players.ProfileViewAsWrittenLeaksPrivateCards | Players.ProfileViewGuarded |
