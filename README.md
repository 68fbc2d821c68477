# Hack or Snooze client: the local story mirror

Hack or Snooze is a browser client for a hosted story-sharing service. Users
browse, submit, favorite, edit and delete story links. The service holds all
durable state. The client keeps an in-memory mirror of it: the global
`storyList` and the signed-in `currentUser` with their favorites and own
stories. This project models that mirror and the decisions the page handlers
take, and proves what each operation does to it.

- `wrappers.dfy`, module `Wrappers`: `Option`, and `Reply<T>`. A `Reply` is
  the service's answer to one request: `Success(payload)`, or `Failure(status)`.
  The status is `None` when no HTTP response arrived, so that
  `err.response.status` could not be read.
- `models.dfy`, module `Models` (js/models.js):
  - `Story`: a class whose six fields are `const`, since nothing reassigns them after construction.
  - `StoryList` and `User`: classes whose story arrays are `seq` fields, because the client reassigns or mutates those arrays.
  - The id searches. `ContainsId` is the reference predicate that the search loops and `FindIndex` are proved against.
- `stories.dfy`, module `Stories` (js/stories.js):
  - The handlers `submitNewStory`, `submitEditForm` and `toggleUserFavorite`. Each takes the service's reply as an input.
  - The markup decisions of `generateStoryMarkup`: a `Markup` value, and a `StoryItem` class for the page element that `updateFavoritedCSS` changes in place.
  - The two page loops.
  - The four status-code-to-message switches.

A missing `currentUser` (`null`) is modelled as `User?`. `addStory`,
`editStory` and `toggleFavorite` read `user.loginToken` or call a method on the
user before sending anything. With no user, each of them throws a `TypeError`
that has no `response`. The handler's `catch` then falls to its default message,
and the model states exactly that.

## Model

| member | source | states |
|---|---|---|
| `Models.Story.constructor` | js/models.js:15-22 | the new story carries storyId, title, author, url, username and createdAt of the data object unchanged |
| `Models.Story.IsFavoritedBy` | js/models.js:41-46 | true exactly when some story in the user's favorites has this story's id |
| `Models.Story.IsOwnedBy` | js/models.js:48-53 | true exactly when some story in the user's own stories has this story's id |
| `Models.SearchId` | js/models.js:42-45 | the early-return search loop finds an id exactly when the list contains it |
| `Models.StoriesFromData` | js/models.js:176-177 | `map(s => new Story(s))` gives a list of the same length whose i-th story mirrors the i-th data object |
| `Models.FindIndex` | js/models.js:143-147 | findIndex result is -1 exactly when no story has the id; otherwise it is in range, the story there has the id, and no earlier story has it |
| `Models.StoryList.constructor` | js/models.js:62-64 | the list holds exactly the given stories |
| `Models.StoryList.GetStoryIndexById` | js/models.js:142-148 | the same first-match / -1 contract over the list's stories; as a function it cannot change them |
| `Models.User.constructor` | js/models.js:163-181 | username, name, createdAt and token are copied; favorites and ownStories are element-wise conversions of the given lists, same length and order, empty when a list is absent |
| `Models.User.ToggleFavorite` | js/models.js:304-305 | favorites become the element-wise conversion of the service's list; ownStories is unchanged, and username and loginToken are constants |
| `Models.AllMirrorContainsId` | js/models.js:41-46 | after a conversion, a story id is in the converted list exactly when it is in the service's list |
| `Models.FindIndexIsFirstMatch` | js/models.js:142-148 | any index that is a first match is the one findIndex returns |
| `Models.FindIndexPrepend` | js/models.js:142-148 | after a story is prepended, the new story is found at 0 and every other first match moves up by one |
| `Models.FindIndexUnique` | js/models.js:142-148 | when ids are distinct, each story is found at its own index |
| `Models.PrependKeepsUniqueIds` | js/stories.js:87 | prepending a story whose id is new keeps the ids of the list distinct |
| `Models.ReplaceKeepsIndex` | js/stories.js:247-248 | replacing the looked-up story with one of the same id keeps it the first match and keeps ids distinct |
| `Stories.FlagRoundTrip` | js/stories.js:124 | reading back a written `data-favorited` flag gives the flag |
| `Stories.StoryMarkup` | js/stories.js:25-41 | with no user: no favorite, edit or delete button and the flag false; with a user: edit and delete shown iff owned, symbol '-' iff favorited, favorited class and flag iff favorited; the result is always consistent |
| `Stories.GenerateStoryMarkup` | js/stories.js:22-56 | the generated item is a new element and shows exactly `StoryMarkup` of the story for the current user |
| `Stories.StoryItem.constructor` | js/stories.js:45-55 | the new page item shows the given markup |
| `Stories.StoryItem.UpdateFavoritedCSS` | js/stories.js:151-157 | the item's markup becomes `FavoritedCSSUpdated` of the old one: new symbol '+' iff the story was favorited, icon classes and favorited class toggled, flag set to the negation |
| `Stories.UpdateFlipsFlag` | js/stories.js:151-157 | updating with the shown flag negates the flag |
| `Stories.UpdateKeepsConsistent` | js/stories.js:151-157 | updating a consistent item with its shown flag keeps symbol, icon class, favorited class and flag in agreement |
| `Stories.UpdateTwiceRestores` | js/stories.js:151-157 | two updates in a row give back the original item |
| `Stories.PutStoriesOnPage` | js/stories.js:60-72 | one item per story of the list, in order, each a new and distinct element showing that story's markup |
| `Stories.PutFavoritesOnPage` | js/stories.js:161-180 | exactly one notification when there is no favorite; otherwise one item per favorite, in order, each a new and distinct element showing that favorite's markup |
| `Stories.SubmitFailureText` | js/stories.js:94-111 | 400 gives the URL-required text, 401 the login-required text, any other or missing code the could-not-reach-API text |
| `Stories.FavoriteFailureText` | js/stories.js:130-147 | 401 and 404 each give their own alert; any other or missing code the default |
| `Stories.DeleteFailureText` | js/stories.js:190-210 | 404, 403 and 401 each give their own alert; any other or missing code the default |
| `Stories.EditFailureText` | js/stories.js:253-276 | 404, 403, 401 and 400 each give their own text; any other or missing code the default |
| `Stories.SubmitNewStory` | js/stories.js:75-114 | on success a new story is prepended to the story list and appended to the user's own stories, nothing else changes, the new story is found at index 0, every other lookup moves up by one, and distinct ids stay distinct when the new id was not already present; on failure, or with no user, the mapped message and nothing changes |
| `Stories.SubmitEditForm` | js/stories.js:236-279 | on success the first story with the edited id is replaced and the length and every other entry stay; when the reply keeps the id, the lookup still finds it at the same index and distinct ids stay distinct; with no such story the list is unchanged; on failure, or with no user, the mapped message and the list is unchanged |
| `Stories.FavoriteMethod` | js/stories.js:125 | 'delete' exactly when the item is favorited, 'post' exactly when it is not |
| `Stories.ToggleUserFavorite` | js/stories.js:119-149 | sends the method chosen from the item's flag for the item's id; on success the favorites mirror the service's list and the item is updated with the old flag; on failure the mapped alert and nothing changes; with no user nothing is sent |

## Left out

- The axios requests (`getStories`, `addStory`, `deleteStory`, `editStory`, `getData`, `signup`, `login`, `loginViaStoredCredentials`, `syncUserInfo`, and the request inside `toggleFavorite`): network I/O. Their replies are the `Reply` inputs of the handlers.
- `async`/`await` ordering: each handler is modelled as one atomic step taken once its reply is known.
- The success path of `deleteStoryClick` (js/stories.js:186-189): it refetches the stories and the user from the service and keeps no local logic. Only its error mapping is modelled.
- `getAndShowStoriesOnStart` and `openEditForm`: they only fetch data and fill the page.
- `Story.getHostName`: a wrapper over the browser's WHATWG URL parser, which is not part of this model. The host name, title, author and link text of the markup are therefore not modelled.
- HTML templating, jQuery DOM calls, `alert`, `console`, form resets and page hiding. The model keeps only the classes, attributes and buttons that the decisions set.
- js/nav.js: it only shows and hides page components and wires click handlers.
- Login-token handling: it is delegated to the external service; the token is only copied into the user.
- `Stories.GenerateStoryMarkup`, `Stories.PutStoriesOnPage`, `Stories.PutFavoritesOnPage`: assume that every story's url parses. The source calls `getHostName` (`new URL(url)`) for each story, which throws on a url the parser rejects and would leave a partial page. The service refuses such urls with status 400 when a story is submitted or edited.
- `Stories.PutFavoritesOnPage`: requires a signed-in user. With none, the source's read of `currentUser.favorites` throws an uncaught `TypeError`.
- `Stories.StoryItem.UpdateFavoritedCSS`: toggling the two icon classes is modelled as flipping one boolean. jQuery's `toggleClass` would give an element holding neither or both classes after toggling; such an element cannot come from `generateStoryMarkup`.
- `Models.User.ToggleFavorite`: assumes the reply carries a favorites list. A reply without one would throw after the service had already changed, and that case is not modelled.
- Data objects are taken to carry the six story fields as strings. Missing or extra fields of the service's JSON objects are not modelled. The one exception is a user's absent `favorites` or `ownStories`, which is `None`.
- Exceptions thrown after a successful reply, for example during re-rendering, are not modelled. `submitNewStory` and `submitEditForm` would catch those too.
