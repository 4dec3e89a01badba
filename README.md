# Article feed client — a Dafny model

This project models the logic under the user interface of a React article-feed client:

- **Content formatters.** The create and edit pages turn an article's raw text into an HTML list of paragraphs. The article modal has a simpler paragraph-only formatter.
- **Form validation and request bodies.**
  - The edit page's required-field map, and the multipart body the create and edit pages build one `append` at a time.
  - The edit page's three-way image directive.
  - The settings page's name, phone and password rules, and its update payload.
- **List updates** after a successful server reply:
  - like, dislike and block on the feed;
  - delete on the author's own list;
  - adding and removing preferences on the settings page.
- **Session state.**
  - The `user` slice reducer (`setUser`, `clearUser`).
  - The private-route guard.
  - The navbar's conditional logout.
- **The shared HTTP client's 401 interceptor** together with `refreshAccesToken`. The model shows that refresh calls can nest to any depth.
- **The category enumeration and the article record.**

One Dafny module per source file:

- `ContentFormat`: both formatters.
- `JsString`: JavaScript's `trim`, `split` and `join` on `seq<char>`.
- `Form`: the multipart body.
- `Article`, `CreateArticle`, `EditArticle`, `MyArticleModal`, `Settings`, `Dashboard`, `ArticleList`, `UserSlice`, `PrivateRoute`, `Navbar`, `HttpClient`: one module each.

## How the model is built

**Pure code becomes functions and lemmas.** This covers the formatters, the validators, the list transforms, the guard and the reducer.

**State-changing code becomes classes.** A component's `useState` variables become fields of a class such as `EditArticlePage`. Each handler becomes a method that reassigns those fields. Its `ensures` ties the new state to the specification functions. Likewise:

- `FormData` is a class whose `Append` method extends its entry list.
- The `user` slice is a `UserStore` class whose reducers assign the seven fields one by one.
- The request config is a `RequestConfig` object with a mutable `retry` (`_retry`) flag.

**Server replies are parameters.**

- An `ApiReply` is `Answered(success)` when the promise resolved, or `Threw(message)` when it rejected.
- A handler's effect on the page state depends only on that value.

**The HTTP client.** The server is a finite script of outcomes, one consumed per request. Once the script is used up, every request gets no response. This gives the mutual recursion between the interceptor and the refresh call a termination measure without assuming it terminates. `RefreshChain` shows that a server answering 401 `n` times makes the client issue `n` nested refresh POSTs.

**The whitespace set of `trim`.** `JsString.IsWhitespace` lists ECMAScript's WhiteSpace and LineTerminator characters:

- tab, vertical tab, form feed, space, no-break space and the byte-order mark;
- the Unicode `Zs` space characters;
- line feed, carriage return, and the line and paragraph separators.

**`\d` in the phone rule.** In ECMAScript `\d` is `[0-9]`, whatever the flags, so the rule accepts ASCII digits only.

### Notes on the source

- **The two `formatContent` copies** (`src/pages/CreateArticle.tsx:25-36` and `src/pages/EditArticle.tsx:109-113`) compute the same expression; they differ only in layout. They are modelled once, as `ContentFormat.FormatContent`, so both pages format every input identically by construction.
- **A `"\n"` inside a paragraph splits it across list items.** `ContentFormat.FormatContentTwoLines` shows the consequence: the `<p class="mb-4">` tag opens in one `<li>` and its `</p>` closes in the next.
- **`IArticle.blocks` is declared a number** (`src/enum/ArticleCategory.ts:30`), but `src/pages/ArticleList.tsx:69` reads `article.blocks.length`. The model follows the declaration (`blocks: nat`, a count). The list's card rendering is not modelled.
- **`articleCategories` is imported** by `src/pages/CreateArticle.tsx:5` and `src/pages/EditArticle.tsx:6`, but `src/enum/ArticleCategory.ts` does not export it. The model's `Article.AllCategories` lists the enumeration's ten members instead.
- **The feed appends `{ userId: user.id }`,** but the `user` slice has no `id` field. The model takes the user id as a parameter of `Dashboard.DashboardPage.HandleReaction`.
- **The article modal reads `article.content`,** which `IArticle` does not declare. `MyArticleModal.ModalArticle` carries the fields the modal reads.
- **Validation is not the same on the two pages.** The edit page tests fields for emptiness without trimming, so whitespace-only fields pass. The settings page trims the names.

## Model

| member | source | states |
|---|---|---|
| JsString.IndexOf | src/pages/CreateArticle.tsx:27 | the search `split` makes: the position of the first occurrence of the separator at or after the start, or none exactly when there is no occurrence there |
| JsString.Join | src/pages/EditArticle.tsx:33 | `Array.prototype.join`: the pieces with the separator between them; `JsString.Split` states that joining the pieces of a split gives back its input |
| JsString.Trim | src/pages/CreateArticle.tsx:28 | the trimmed string is no longer than its input |
| JsString.TrimShape | src/pages/CreateArticle.tsx:28 | `trim` yields a string with no whitespace at either end that is a contiguous slice of its input, with only whitespace cut on each side; it is empty exactly when the input is all whitespace |
| JsString.TrimIdempotent | src/pages/CreateArticle.tsx:32-33 | trimming a trimmed string changes nothing |
| JsString.Split | src/pages/CreateArticle.tsx:27 | `split` with a non-empty separator yields at least one piece, no piece contains the separator, and joining the pieces with the separator gives back the input |
| JsString.SplitWithout | src/pages/CreateArticle.tsx:27 | a string without the separator splits into itself alone |
| JsString.SplitAtFirst | src/pages/CreateArticle.tsx:27 | `split` cuts at the first occurrence of the separator and continues on the rest |
| ContentFormat.FormatContent | src/pages/CreateArticle.tsx:25-36 | `formatContent` of the create page, and of the edit page (src/pages/EditArticle.tsx:109-113, the same expression); no contract of its own: `FormatContentFramed`, `ListItemsShape`, `FormatContentHasNoLineBreak`, `FormatContentSingleLine` and `FormatContentTwoLines` state what it yields |
| ContentFormat.FormatParagraphs | src/components/MyArticleModal.tsx:57-61 | the modal's `formatContent`: the paragraph pass alone with a plain `<p>`; `FormatParagraphsEmpty`, `FormatParagraphsSingle` and `FormatParagraphsCons` state what it yields for every input |
| ContentFormat.Paragraphs | src/pages/CreateArticle.tsx:26-29 | the paragraph pass both formatters share: split on `"\n\n"`, then trim and wrap each segment in the given opening tag and `</p>` |
| ContentFormat.WrapParagraphs | src/pages/CreateArticle.tsx:28-29 | the map-and-join over the segments, in order; `WrapParagraphsOne` gives one segment's output |
| ContentFormat.ListItems | src/pages/CreateArticle.tsx:30-33 | the item texts of the list pass: split the paragraphs on `'\n'`, drop blank pieces, trim the rest; `ListItemsShape` states their shape |
| ContentFormat.NonBlankTrimmed | src/pages/CreateArticle.tsx:32-33 | the filter-then-trim step, never longer than its input; the lemmas below state which lines survive and how |
| ContentFormat.WrapItems | src/pages/CreateArticle.tsx:33-34 | the map-and-join of the items into `<li>` elements, in order; `WrapItemsOne`, `WrapItemsTwo` and `WrapItemsOmits` state its output |
| ContentFormat.WrapParagraphsOne | src/pages/CreateArticle.tsx:28-29 | one segment becomes the opening tag, the trimmed segment and `</p>` |
| ContentFormat.WrapItemsOne | src/pages/CreateArticle.tsx:33-34 | one item becomes `<li class="mb-2">`, the item and `</li>` |
| ContentFormat.NonBlankTrimmedAppend | src/pages/CreateArticle.tsx:32-33 | the filter-then-trim step distributes over concatenation, so order is kept |
| ContentFormat.LineItemClean | src/pages/CreateArticle.tsx:32-33 | a line contributes no item exactly when it is all whitespace, and otherwise one non-empty trimmed item |
| ContentFormat.NonBlankTrimmedAround | src/pages/CreateArticle.tsx:32-33 | the items of a line between two blocks of lines sit between those blocks' items |
| ContentFormat.BlankLineDropped | src/pages/CreateArticle.tsx:32 | a whitespace-only line produces no item |
| ContentFormat.NonBlankLineKept | src/pages/CreateArticle.tsx:32-33 | a line with non-whitespace produces exactly its trimmed self, in place |
| ContentFormat.NonBlankTrimmedOfTrimmed | src/pages/CreateArticle.tsx:32-33 | lines already non-empty and trimmed pass through unchanged |
| ContentFormat.NonBlankTrimmedShape | src/pages/CreateArticle.tsx:32-33 | every item that survives is non-empty and trimmed |
| ContentFormat.NonBlankTrimmedOmits | src/pages/CreateArticle.tsx:32-33 | filtering and trimming introduce no character absent from the lines |
| ContentFormat.WrapItemsOmits | src/pages/CreateArticle.tsx:33-34 | wrapping items in `<li>` tags introduces no character absent from the items and tags |
| ContentFormat.FormatContentFramed | src/pages/CreateArticle.tsx:35 | the output always starts with `<ul class="list-disc pl-6">` and ends with `</ul>` |
| ContentFormat.ListItemsShape | src/pages/CreateArticle.tsx:30-33 | every list item is non-empty, trimmed and free of line feeds; blank lines yield no item |
| ContentFormat.FormatContentHasNoLineBreak | src/pages/CreateArticle.tsx:26-35 | the output contains no `'\n'`: the second split consumes every line feed |
| ContentFormat.ListOmitsBreak | src/pages/CreateArticle.tsx:33-35 | items without line feeds are wrapped into a list without line feeds |
| ContentFormat.LinesOmitBreak | src/pages/CreateArticle.tsx:31 | pieces that do not contain the one-character separator do not contain that character |
| ContentFormat.MissingFirstChar | src/pages/CreateArticle.tsx:27 | a string lacking the separator's first character does not contain the separator |
| ContentFormat.FormatContentSingleLine | src/pages/CreateArticle.tsx:26-35 | content without `'\n'` formats to exactly one item holding one styled paragraph of the trimmed content |
| ContentFormat.FormatContentEmpty | src/pages/CreateArticle.tsx:26-35 | empty content formats to one item holding one empty styled paragraph |
| ContentFormat.SingleParagraph | src/pages/CreateArticle.tsx:26-29 | content without `'\n'` becomes a single paragraph of its trimmed text |
| ContentFormat.FormatOfOneParagraph | src/pages/CreateArticle.tsx:26-35 | a single tag-delimited paragraph without line feeds becomes exactly one list item |
| ContentFormat.TagsTrimmed | src/pages/CreateArticle.tsx:32-33 | text between a `<…` opening and a `…>` closing is trimmed as a whole, so the item keeps its tags |
| ContentFormat.OneItem | src/pages/CreateArticle.tsx:30-34 | a non-empty, trimmed line without line feeds wraps as one `<li>` |
| ContentFormat.NoBlankLineAround | src/pages/CreateArticle.tsx:27 | two lines joined by a single `'\n'` contain no `"\n\n"` |
| ContentFormat.FormatContentTwoLines | src/pages/CreateArticle.tsx:27-35 | two trimmed lines joined by one `'\n'` become two items: the `<p>` opens in the first and closes in the second |
| ContentFormat.TwoLinesParagraph | src/pages/CreateArticle.tsx:26-29 | two such lines form one paragraph whose opening tag and first line precede the line feed |
| ContentFormat.TaggedLinesClean | src/pages/CreateArticle.tsx:32-33 | the two halves of that paragraph are non-empty, trimmed and free of line feeds |
| ContentFormat.TwoLinesTrimmed | src/pages/CreateArticle.tsx:28 | two trimmed lines joined by `'\n'` are trimmed as a whole |
| ContentFormat.SingleSegment | src/pages/CreateArticle.tsx:26-29 | content without `"\n\n"` that is already trimmed becomes one paragraph of itself |
| ContentFormat.FormatOfTwoLines | src/pages/CreateArticle.tsx:30-35 | paragraphs forming two clean lines format to exactly those two items |
| ContentFormat.TwoItems | src/pages/CreateArticle.tsx:30-33 | such paragraphs yield exactly two list items |
| ContentFormat.WrapItemsTwo | src/pages/CreateArticle.tsx:33-34 | two items wrap as two consecutive `<li>` elements |
| ContentFormat.SplitAtBreak | src/pages/CreateArticle.tsx:31 | two line-feed-free lines joined by `'\n'` split back into those two lines |
| ContentFormat.FormatParagraphsEmpty | src/components/MyArticleModal.tsx:57-61 | empty content yields exactly `<p></p>` |
| ContentFormat.FormatParagraphsSingle | src/components/MyArticleModal.tsx:59 | content without `"\n\n"` yields `<p>`, its trimmed text and `</p>`; single line feeds inside are kept |
| ContentFormat.FormatParagraphsCons | src/components/MyArticleModal.tsx:59 | the modal formatter yields one trimmed `<p>…</p>` per `"\n\n"`-separated segment, in order |
| Article.Label | src/enum/ArticleCategory.ts:4-13 | each category's string value; `LabelsDistinct` and `LabelIsCapitalisedName` state it |
| Article.CategoryCount | src/enum/ArticleCategory.ts:3-14 | there are exactly ten categories, each listed once |
| Article.LabelsDistinct | src/enum/ArticleCategory.ts:4-13 | two categories have the same label only if they are the same category |
| Article.LabelIsCapitalisedName | src/enum/ArticleCategory.ts:4-13 | each label is its member name with the first letter kept and the rest lower-cased |
| Article.WithoutId | src/pages/Dashboard.tsx:76 | filtering out an id never lengthens the list |
| Article.WithoutIdMembers | src/pages/Dashboard.tsx:76 | an article survives the filter iff it was present and carries another id |
| Article.WithoutIdAppend | src/pages/Dashboard.tsx:76 | the filter distributes over concatenation, so the survivors keep their order |
| Article.WithoutIdLength | src/pages/ArticleList.tsx:32 | the list shrinks by exactly the number of articles with that id |
| Article.WithoutAbsentId | src/pages/ArticleList.tsx:32 | an id no article carries leaves the list unchanged |
| Form.Names | src/pages/CreateArticle.tsx:57-65 | the field names, one per entry, in append order |
| Form.Get | src/pages/CreateArticle.tsx:57-65 | looking up a name finds a value iff an entry has that name, and the value belongs to such an entry |
| Form.ArticleFieldNames | src/pages/CreateArticle.tsx:58-62 | the five common fields are named title, description, content, tags and category, in that order |
| Form.ArticleFieldsShape | src/pages/CreateArticle.tsx:58-62 | the five common fields are title, description, content, tags and category, in that order, and each name looks up exactly the value given for it |
| Form.NamesAppend | src/pages/CreateArticle.tsx:57-65 | appending entries appends their names |
| Form.GetAppend | src/pages/CreateArticle.tsx:57-65 | a lookup after appending finds the earlier entry first |
| Form.FormData.constructor | src/pages/CreateArticle.tsx:57 | a new body has no entries |
| Form.FormData.Append | src/pages/CreateArticle.tsx:58 | `append` adds exactly one entry at the end |
| Form.FormData.AppendArticleFields | src/pages/EditArticle.tsx:80-84 | the five common fields are appended, in order, after what was there |
| CreateArticle.CreateEntries | src/pages/CreateArticle.tsx:55-65 | the entries the create page appends; `CreateFieldOrder` and `CreateEntriesValues` state their names and values, `BuildCreateForm` that the appends produce them |
| CreateArticle.CreateFieldOrder | src/pages/CreateArticle.tsx:57-65 | fields go out as title, description, content, tags, category, then `image` only when a file was chosen |
| CreateArticle.CreateEntriesValues | src/pages/CreateArticle.tsx:55-65 | the `content` field holds the formatted text, never the raw text; `image` holds the file, and there is no `image` entry without one |
| CreateArticle.BuildCreateForm | src/pages/CreateArticle.tsx:55-65 | the body built by successive appends is exactly the specified entry list |
| CreateArticle.CreateArticlePage.constructor | src/pages/CreateArticle.tsx:44-53 | nothing is submitting, posted or navigated |
| CreateArticle.CreateArticlePage.Submit | src/pages/CreateArticle.tsx:54-84 | exactly one body is posted; the page moves to `/my-articles` iff the server answered with `success`; the submitting flag is false afterwards on every outcome |
| EditArticle.ValidateForm | src/pages/EditArticle.tsx:60-68 | an error entry exists exactly for the empty fields among the five, with no trimming, and carries its message; the map is empty iff all five are non-empty |
| EditArticle.ImageDirective | src/pages/EditArticle.tsx:85-91 | exactly one directive: `image` with the new file if there is one, otherwise `removeImage` = `false` when an existing image is present and `true` when it is not |
| EditArticle.EditEntries | src/pages/EditArticle.tsx:78-91 | the entries the edit page appends; `EditEntriesNames` and `EditEntriesLookup` state their names and values, `BuildEditForm` that the appends produce them |
| EditArticle.EditEntriesNames | src/pages/EditArticle.tsx:78-91 | the five fields in order, then exactly one image directive |
| EditArticle.EditEntriesLookup | src/pages/EditArticle.tsx:78-91 | `content` is the formatted text; the body has `image` iff a new file is chosen, and `removeImage` iff not |
| EditArticle.DirectiveLookup | src/pages/EditArticle.tsx:85-91 | a single directive entry is found under its own name and not under the other |
| EditArticle.FirstImage | src/pages/EditArticle.tsx:35 | the existing image is `images[0]` when that is a non-empty string, and null otherwise |
| EditArticle.FieldKeysDistinct | src/pages/EditArticle.tsx:132-197 | each input clears its own error key, and no two inputs share one |
| EditArticle.BuildEditForm | src/pages/EditArticle.tsx:78-91 | the body built by successive appends is exactly the specified entry list |
| EditArticle.EditArticlePage.constructor | src/pages/EditArticle.tsx:12-20 | all fields empty, no images, no errors, loading |
| EditArticle.EditArticlePage.LoadArticle | src/pages/EditArticle.tsx:25-42 | on success the fields take the article's values, tags joined with `", "` and the existing image set to the first image; otherwise they are unchanged; loading stops either way |
| EditArticle.EditArticlePage.HandleImageChange | src/pages/EditArticle.tsx:48-53 | with at least one file, the new image becomes the first file and the existing image is cleared; with none, nothing changes |
| EditArticle.EditArticlePage.HandleRemoveImage | src/pages/EditArticle.tsx:55-58 | both images are cleared, so the next submit sends `removeImage` = `true` |
| EditArticle.EditArticlePage.ChangeField | src/pages/EditArticle.tsx:132-197 | the edited field takes the value and only its own error entry is blanked |
| EditArticle.EditArticlePage.Submit | src/pages/EditArticle.tsx:70-107 | a failing validation replaces the errors and sends nothing; otherwise exactly one body is sent, and the page moves to `/my-articles` iff the server answered with `success` |
| EditArticle.EditArticlePage.SendForm | src/pages/EditArticle.tsx:78-102 | after validation passes: exactly one body, built from the form values, is sent, and the page moves to `/my-articles` iff the server answered with `success` |
| Settings.ValidationErrors | src/pages/Settings.tsx:43-48 | a name error iff the trimmed name is empty; a phone error iff the phone is non-empty and not 10 to 15 ASCII digits; a password error iff it is non-empty and shorter than 6; each with its message and no other keys |
| Settings.ValidationPasses | src/pages/Settings.tsx:43-51 | validation passes iff no rule fires |
| Settings.WithPreference | src/pages/Settings.tsx:88-92 | the list after adding the selection: appended only when non-empty and not yet listed; `AddKeepsDistinct` and `SettingsPage.HandleAddPreference` state its effect |
| Settings.AddKeepsDistinct | src/pages/Settings.tsx:88-92 | adding keeps the list duplicate-free, keeps the old entries in place, and a non-empty selection ends up listed |
| Settings.WithoutPreference | src/pages/Settings.tsx:84 | removal never lengthens the list |
| Settings.RemoveCounts | src/pages/Settings.tsx:84 | removal drops every occurrence of the preference and keeps every other value as often as before |
| Settings.RemoveAppend | src/pages/Settings.tsx:84 | removal distributes over concatenation, so the rest keep their order |
| Settings.RemoveKeepsDistinct | src/pages/Settings.tsx:84 | a duplicate-free list stays duplicate-free after removal |
| Settings.SubmittedNamesPresent | src/pages/Settings.tsx:61-65 | a payload that is sent carries non-blank, trimmed names |
| Settings.SettingsPage.constructor | src/pages/Settings.tsx:10-18 | all fields empty, no preferences, no errors |
| Settings.SettingsPage.ValidateInputs | src/pages/Settings.tsx:43-52 | the error map is replaced wholesale by the rules' map, and the result is true iff it is empty |
| Settings.SettingsPage.HandleFieldChange | src/pages/Settings.tsx:54-57 | the field takes the value and only its error entry is blanked |
| Settings.SettingsPage.SetDob | src/pages/Settings.tsx:147 | the date input sets `dob` and touches no error |
| Settings.SettingsPage.SelectCategory | src/pages/Settings.tsx:174 | the selection takes the chosen category |
| Settings.SettingsPage.HandleAddPreference | src/pages/Settings.tsx:88-96 | a non-empty, unlisted selection is appended and the selection reset to `''`; otherwise list and selection are unchanged |
| Settings.SettingsPage.HandleRemovePreference | src/pages/Settings.tsx:83-86 | the list becomes the filtered list |
| Settings.SettingsPage.HandleSubmit | src/pages/Settings.tsx:59-81 | nothing is sent when validation fails; otherwise one payload goes out with trimmed names and phone, dob, preferences and password as they are |
| Dashboard.Reacted | src/pages/Dashboard.tsx:39-42 | one article after a like or dislike by a user; `ReactionFields` and `LikedTwice` state its effect |
| Dashboard.WithReaction | src/pages/Dashboard.tsx:38-44 | the mapped list keeps its length |
| Dashboard.WithReactionAt | src/pages/Dashboard.tsx:38-44 | position by position, an article with the id gains the reaction and every other article is unchanged |
| Dashboard.ReactionFields | src/pages/Dashboard.tsx:38-63 | a like appends exactly one `{userId}` to `likes` of matching articles and changes no other field, `dislikes` included; a dislike does the same to `dislikes` |
| Dashboard.LikedTwice | src/pages/Dashboard.tsx:41 | there is no deduplication: two likes by one user add two entries |
| Dashboard.DashboardPage.constructor | src/pages/Dashboard.tsx:11-13 | no articles, no selection, loading |
| Dashboard.DashboardPage.LoadArticles | src/pages/Dashboard.tsx:16-29 | a successful fetch replaces the list, any other outcome keeps it; loading stops either way |
| Dashboard.DashboardPage.HandleReaction | src/pages/Dashboard.tsx:34-70 | on `success` the list becomes the reacted list; a reply without `success` or a rejection leaves it unchanged |
| Dashboard.DashboardPage.HandleBlock | src/pages/Dashboard.tsx:72-83 | on `success` every article with the id is removed, the rest in order; otherwise the list is unchanged |
| Dashboard.DashboardPage.OpenModal | src/pages/Dashboard.tsx:85-87 | the selection becomes the given article |
| Dashboard.DashboardPage.CloseModal | src/pages/Dashboard.tsx:89-91 | the selection becomes null |
| ArticleList.View | src/pages/ArticleList.tsx:50-54 | "No articles found." iff the list is empty, otherwise one card per article in order |
| ArticleList.EditPath | src/pages/ArticleList.tsx:42 | the path is `/edit-article/` followed by the article id |
| ArticleList.ArticleListPage.constructor | src/pages/ArticleList.tsx:9 | the list starts empty |
| ArticleList.ArticleListPage.LoadArticles | src/pages/ArticleList.tsx:13-23 | a successful fetch replaces the list, any other outcome keeps it |
| ArticleList.ArticleListPage.HandleDelete | src/pages/ArticleList.tsx:28-39 | on `success` exactly the articles with the id are removed, order kept, length reduced by their count; otherwise the list is unchanged |
| ArticleList.ArticleListPage.HandleEdit | src/pages/ArticleList.tsx:41-43 | one navigation to the article's edit path |
| UserSlice.Reduce | src/store/userSlice.ts:27-46 | the slice's two reducers; `ReducerLaws` and `LastActionDecides` state its laws, and `UserStore.SetUser` and `UserStore.ClearUser` that the field assignments agree with it |
| UserSlice.LastActionDecides | src/store/userSlice.ts:27-46 | after any non-empty sequence of actions the state is decided by the last one |
| UserSlice.ReducerLaws | src/store/userSlice.ts:28-46 | `setUser` sets all seven fields from the payload and is last-write-wins; `clearUser` yields the initial state from any state and is idempotent |
| UserSlice.UserStore.constructor | src/store/userSlice.ts:14-22 | the initial state: every string empty, no preferences, null token |
| UserSlice.UserStore.SetUser | src/store/userSlice.ts:28-37 | the field-by-field assignments give the reducer's state for `setUser` |
| UserSlice.UserStore.ClearUser | src/store/userSlice.ts:38-46 | the field-by-field assignments give the reducer's state for `clearUser` |
| PrivateRoute.Guard | src/components/PrivateRoute.tsx:9 | the outlet renders iff the email is non-empty; otherwise exactly one redirect to `/login` with replacement |
| PrivateRoute.GuardReadsOnlyEmail | src/components/PrivateRoute.tsx:7-9 | the decision depends on the email alone, so a null token with an email still passes |
| PrivateRoute.ClearedSessionRedirects | src/components/PrivateRoute.tsx:9 | after `clearUser` the guard redirects to `/login` |
| Navbar.IsActive | src/components/Navbar.tsx:30 | `isActive`: the location is exactly the path; `MenuTargets` states that at most one entry is active |
| Navbar.Target | src/components/Navbar.tsx:50-89 | each menu entry's route; `MenuTargets` states that the four are distinct |
| Navbar.MenuTargets | src/components/Navbar.tsx:30-89 | the four entries lead to distinct paths, so on any path name at most one entry is highlighted |
| Navbar.LogoutToast | src/components/Navbar.tsx:16-27 | success iff status 200; any other status shows the fixed refusal message; a rejection shows the server's message, or the fallback when it has none |
| Navbar.NavbarView.constructor | src/components/Navbar.tsx:8-12 | no navigation or toast yet |
| Navbar.NavbarView.HandleLogout | src/components/Navbar.tsx:14-28 | on status 200 the session is cleared and the page moves to `/login` with replacement; otherwise session and navigation are untouched; one toast either way |
| MyArticleModal.Render | src/components/MyArticleModal.tsx:9-45 | nothing is shown unless open with an article; otherwise its title and tags, the content through the paragraph formatter, the first image iff there are images, the reaction counts and the block count |
| MyArticleModal.EmptyContentView | src/components/MyArticleModal.tsx:24 | an empty body shows as `<p></p>` |
| HttpClient.Send | src/axios/axiosInstance.ts:10-25 | a request's first attempt is the one asked for, and it consumes the server's script |
| HttpClient.Refresh | src/utils/authUtils.ts:4-12 | each refresh first issues one unmarked POST to `/auth/refresh-token` through the same client; it yields a boolean and never rejects |
| HttpClient.SuccessPassesThrough | src/axios/axiosInstance.ts:11 | a resolved response is returned unchanged, with no refresh |
| HttpClient.RejectedUnchanged | src/axios/axiosInstance.ts:15-23 | a non-401 error, an error without a response, or a 401 on a marked config is rejected unchanged, with no refresh |
| HttpClient.MarkedSendsOnce | src/axios/axiosInstance.ts:15-23 | a marked config makes exactly one request |
| HttpClient.RefreshFailureRejects | src/axios/axiosInstance.ts:15-23 | a 401 whose refresh fails rejects the original error, with no replay |
| HttpClient.RefreshSuccessReplaysOnce | src/axios/axiosInstance.ts:15-21 | a 401 whose refresh succeeds replays the marked config exactly once and returns the replay's outcome |
| HttpClient.OnlyOwnRequests | src/axios/axiosInstance.ts:10-25 | after the first request, every request made is a refresh POST or a replay of the original on its marked config |
| HttpClient.RefreshOnlyRefreshes | src/utils/authUtils.ts:6 | a refresh issues only refresh POSTs |
| HttpClient.RefreshChain | src/utils/authUtils.ts:4-12 | against `n` 401 answers, a request makes `n` nested unmarked refresh POSTs: the marker does not bound refresh recursion |
| HttpClient.RequestConfig.constructor | src/utils/authUtils.ts:6 | each refresh starts from a new, unmarked config |
| HttpClient.ApiClient.constructor | src/axios/axiosInstance.ts:4-7 | the client starts with no requests made |
| HttpClient.ApiClient.Request | src/axios/axiosInstance.ts:10-25 | the interceptor's steps produce `Send`'s outcome and requests; the config is marked before the refresh starts, and stays marked |
| HttpClient.ApiClient.RefreshAccessToken | src/utils/authUtils.ts:4-12 | the call through the client produces `Refresh`'s result and requests |

## Left out

- **The HTTP transport.** Axios itself, cookies, the base URL, headers and the status-to-rejection rule are not modelled. Replies are parameters.
  - `Navbar.LogoutReply` takes the status as given.
  - `HttpClient.Outcome` takes as given whether a request resolved.
- **Toasts and console logging.** These are left out except for the logout toast, whose message choice is part of the logout contract.
- **JSX rendering and styling.** This includes the confirmation modals and the feed's article modal. Of `src/components/MyArticleModal.tsx`, only the visibility guard, the formatter and the shown values are modelled.
- **The login, signup and verification pages.** Their validation is declared through a schema library that is not part of this model.
- **The create page's schema validation.** The create page validates through a schema library that is not part of this model. `CreateArticlePage.Submit` models `onSubmit`, which runs only after that validation passes.
- **Store persistence and router wiring** (`src/store/store.ts`, `src/App.tsx`). The rehydration timing is asynchronous I/O.
- **The fetch on mount of the settings profile.** Its date normalisation depends on the platform's date and time-zone library.
- **Object-URL image previews.** They are a browser API.
- **Concurrency.** Handlers run one at a time.
  - Simultaneous 401s that each start a refresh are not modelled.
  - The difference between the stale `articles` closure in `src/pages/ArticleList.tsx:32` and the functional updates on the feed is not visible.
- **The refresh POST's empty body.** The request body is not part of `HttpClient.Attempt`.
- **Settings.ValidationErrors: code points, not UTF-16.** The password length counts characters as code points, while JavaScript's `length` counts UTF-16 code units. The two differ only for characters outside the Basic Multilingual Plane.
- **HttpClient.Send: a finite server.** The server is a finite script. A server that answers forever is not modelled.
- **`user.id`** on the feed is a parameter, since the session state has no such field.
