# Issue tracker: a Dafny model of its resolvers and client helpers

The issue tracker keeps three collections: users, issues and comments. They are served
through a GraphQL API and shown in a React client. This project models two parts of it
and proves properties of each.

**The server.**
- `Store.IssueStore` is the MongoDB-backed resolver set: the queries, the field
  resolvers and the seven mutations (`createUser`, `login`, `deleteUser`, `createIssue`,
  `assignIssue`, `updateIssueStatus`, `addComment`).
- The store is a class whose three collections are maps keyed by id. Each collection also
  keeps the natural order in which the database returns documents.
- Queries are functions that read the store. Mutations are methods that update it and
  keep its invariant `Valid()`. That invariant says every user document passes the schema,
  emails are unique, no `assignedIssues` list has duplicates, and the orders index the maps.
- The mongoose schema constraints (minimum lengths, the e-mail pattern, lower-casing, the
  status enumeration, the issue pre-save hook and timestamps) are in `Models`.
- The earlier in-memory resolver set and its sample records are in `InMemory` and `Fixture`.

**The client.**
- Pure helpers: the status tables and badge colours (`Utils`), the navigation highlight
  (`Navigation`), and the users page's counts (`UsersList`).
- Filtering on the issues page (`IssuesList`) and on the "My Issues" page (`MyIssues`),
  including the stable newest-first sort.
- The form state of the issue page (`IssueDetail`) and of the create/edit dialog
  (`IssueModal`).
- The handlers of these pages. They are methods that record, in an `Outbox`, the
  mutations they send and the toasts they show. A caller-supplied `accepts` predicate says
  whether the server accepts each mutation.

Some behaviours are kept as the code does them, even where the documentation describes
the system differently:
- `login` with an unknown name throws without an error code, not a not-found error.
- `deleteUser` with an id that matches no user returns null. A not-found error is only
  raised when the driver throws.
- The in-memory `issuesCount` ignores its arguments.
- `addComment` does not refresh the issue's `updatedAt`.

Modules and files:

| file | module | contents |
|---|---|---|
| optional.dfy | Optional | `Option` |
| domain.dfy | Domain | ids, times, `Status`, JavaScript argument values (`Arg`: undefined, null or a string), error codes, `Result` |
| seqs.dfy | Seqs | `filter`, `find`, `$addToSet`, subsequences, duplicate-freedom, the insertion order of a map |
| text.dfy | Text | `String.prototype.trim`, `toLowerCase` on ASCII letters only, `startsWith`, `includes` |
| models.dfy | Models | the three documents and their schema rules |
| collections.dfy | Collections | the store's collection invariants and how each write keeps them |
| store.dfy | Store | `IssueStore`: queries, field resolvers, mutations |
| in_memory.dfy, fixture.dfy | InMemory, Fixture | the array-backed resolvers and the sample data |
| client.dfy | Client | the client's records, the mutation requests, toasts, `Outbox` |
| utils.dfy, navigation.dfy, users_list.dfy, issues_list.dfy, sorting.dfy, my_issues.dfy, issue_detail.dfy, issue_modal.dfy | one module each | the pages and helpers named above |

## Model

| member | source | states |
|---|---|---|
| Domain.ParseStatus | backend/src/models/issues.ts:14-18 | a name is accepted exactly when it is the name of one of the five statuses, and then it names that status |
| Domain.ParseStatusName | backend/src/models/issues.ts:16 | every status name parses back to its status |
| Text.Trim | backend/src/graphql/resolvers.ts:182 | the trimmed string is no longer than the input and neither starts nor ends with whitespace |
| Text.TrimIsSlice | backend/src/graphql/resolvers.ts:182 | the trimmed string occurs in the input with only whitespace before and after it |
| Text.TrimEmptyIffBlank | frontend/src/components/IssueModal.tsx:76 | trimming gives the empty string exactly when the input is all whitespace |
| Text.TrimIdempotent | frontend/src/components/IssueModal.tsx:84-85 | trimming twice is trimming once |
| Text.ToLower | frontend/src/components/IssuesList.tsx:69 | the length is kept and each character is lower-cased on its own |
| Text.ToLowerIdempotent | frontend/src/components/IssuesList.tsx:69-70 | lower-casing twice is lower-casing once |
| Text.LowerIsFixedPoint | backend/src/models/users.ts:13 | a string is lower case exactly when lower-casing leaves it unchanged |
| Text.Includes | frontend/src/components/IssuesList.tsx:69-70 | `includes` holds exactly when the query occurs at some position |
| Text.IncludesEmpty | frontend/src/components/IssuesList.tsx:69-70 | every string includes the empty query |
| Seqs.Filter | backend/src/index.ts:60 | `Array.prototype.filter`: membership is membership plus the predicate, and the result is a subsequence |
| Seqs.FilterFilter | frontend/src/components/IssuesList.tsx:77 | filtering by two predicates in turn equals filtering once by their conjunction |
| Seqs.Find | backend/src/index.ts:63 | `Array.prototype.find`: none exactly when no element satisfies the predicate; otherwise the first that does |
| Seqs.AddToSet | backend/src/graphql/resolvers.ts:232-234 | `$addToSet`: the element is present afterwards, nothing else is added, and the prefix is kept |
| Seqs.AddToSetOnce | backend/src/graphql/resolvers.ts:232-234 | on a duplicate-free array the result stays duplicate-free and the element occurs exactly once |
| Seqs.AddToSetIdempotent | backend/src/graphql/resolvers.ts:232-234 | adding the same element twice is adding it once |
| Models.NormalizeEmail | backend/src/models/users.ts:13 | the stored address has the input's length, is lower case, and is the input when the input already is |
| Models.NormalizeEmailIdempotent | backend/src/models/users.ts:13 | normalising twice is normalising once |
| Models.ValidUser | backend/src/models/users.ts:3-15 | the user schema: a name of at least 5 characters, a required lower-case address matching the pattern |
| Models.NewUserValid | backend/src/models/users.ts:4-14 | a new user validates exactly when the name has at least 5 characters and the lower-cased address matches the pattern |
| Models.EmailSplit | backend/src/models/users.ts:14 | an address whose local part has no `@` validates exactly when the local part is a dotted word and the domain a dotted word ending in a 2- or 3-character suffix |
| Models.EmailAccepted | backend/src/models/users.ts:14 | "alice@example.com" matches the pattern |
| Models.EmailRejected | backend/src/models/users.ts:14 | "alice@example" (no top-level suffix) does not match |
| Models.NewUser | backend/src/graphql/resolvers.ts:89-93 | the new user document has the lower-cased address, the kept hash, no assigned issues and both timestamps at creation |
| Models.NewUserAsWritten | backend/src/graphql/resolvers.ts:89-93 | the document as the schema casts it: identical except that the undeclared `hashPwd` is dropped |
| Models.AssignTo | backend/src/graphql/resolvers.ts:227-229 | the issue gets the assignee, status ASSIGNED and the new time, and nothing else changes |
| Models.WithStatus | backend/src/graphql/resolvers.ts:259-260 | the issue gets the status and the new time, and nothing else changes |
| Models.WithAssignedIssue | backend/src/graphql/resolvers.ts:232-234 | the issue id is in the user's list, `updatedAt` is stamped, and nothing else changes |
| Models.AssignTwiceListedOnce | backend/src/graphql/resolvers.ts:232-234 | assigning the same issue twice leaves the list as after once, with the issue in it exactly once |
| Models.WithComment | backend/src/graphql/resolvers.ts:304-306 | `$push`: the comment id is appended, earlier ids are kept, nothing else (not even `updatedAt`) changes |
| Models.NewIssue | backend/src/graphql/resolvers.ts:180-187 | a new issue is OPEN, unassigned, without comments, with the given fields and both times at creation |
| Models.Touch | backend/src/models/issues.ts:41-44 | the pre-save hook stamps `updatedAt` and changes nothing else |
| Models.ValidIssue | backend/src/models/issues.ts:4-13 | the issue schema: title and description of at least 5 characters each |
| Models.TouchKeepsValidity | backend/src/models/issues.ts:41-44 | the hook never changes whether the document validates |
| Models.TouchIdempotent | backend/src/models/issues.ts:41-44 | saving twice at the same time is saving once |
| Models.BlankTitleAccepted | backend/src/models/issues.ts:4-8 | the title is validated untrimmed, so five spaces are a valid title |
| Models.PaddedDescriptionRejected | backend/src/graphql/resolvers.ts:182 | the description is validated after trimming, so "  ab  " fails the 5-character minimum |
| Models.ValidComment | backend/src/models/comments.ts:3-18 | the comment schema: content of at least 1 character, and both an author and an issue reference |
| Store.IssueStore.UserList | backend/src/graphql/resolvers.ts:33-35 | `users` lists every stored user, once per user, in the collection's natural (insertion) order |
| Store.IssueStore.IssueList | backend/src/graphql/resolvers.ts:18-27 | the unfiltered issue list holds every stored issue, once per issue |
| Store.IssueStore.Issues | backend/src/graphql/resolvers.ts:18-27 | `issues` lists exactly the stored issues that match each supplied filter, in natural order |
| Store.IssueStore.IssuesCount | backend/src/graphql/resolvers.ts:12-17 | a truthy status counts the issues with that status name (none for an unknown name); otherwise all issues are counted |
| Store.IssueStore.FindIssue | backend/src/graphql/resolvers.ts:28-32 | `issue` finds the stored issue with the id, or null when there is none |
| Store.IssueStore.FindUser | backend/src/graphql/resolvers.ts:36-38 | `user` finds the stored user with the id, or null when there is none |
| Store.IssueStore.AssignedTo | backend/src/graphql/resolvers.ts:47-50 | an unassigned issue resolves to null; an assigned one to its assignee when that user still exists |
| Store.IssueStore.IssueComments | backend/src/graphql/resolvers.ts:44-46 | an issue's comments are exactly the stored comments referring to it, in natural order |
| Store.IssueStore.CommentAuthor | backend/src/graphql/resolvers.ts:53-55 | a comment's author resolves exactly when that user exists, and then to them |
| Store.IssueStore.CommentIssue | backend/src/graphql/resolvers.ts:56-58 | a comment's issue resolves exactly when that issue exists, and then to it |
| Store.IssueStore.AssignedIssues | backend/src/graphql/resolvers.ts:61-63 | a user's assigned issues are exactly the stored issues assigned to them |
| Store.IssueStore.AssignedIssuesAgree | backend/src/graphql/resolvers.ts:47-63 | an issue is in a stored user's `assignedIssues` exactly when its `assignedTo` resolves to that user |
| Store.IssueStore.AssignedIssuesDisjoint | backend/src/graphql/resolvers.ts:61-63 | no issue is listed under two different users |
| Store.IssueStore.FirstUserNamed | backend/src/graphql/resolvers.ts:118 | `findOne({name})` gives null exactly when no user has the name; otherwise the first user in natural order with that name (names are not unique) |
| Store.IssueStore.Login | backend/src/graphql/resolvers.ts:111-150 | each failure in source order: missing argument, unknown name, missing hash, wrong password, missing secret; otherwise a token signing the found user's name and id |
| Store.IssueStore.LoginFailsForUserAsWritten | backend/src/graphql/resolvers.ts:126 | a user saved as the resolver writes it (hash dropped) can never log in |
| Store.IssueStore.LoginSucceedsForNewUser | backend/src/graphql/resolvers.ts:111-150 | with the hash kept, the matching password and a configured secret log the user in |
| Store.IssueStore.CreateUser | backend/src/graphql/resolvers.ts:67-109 | the checks in source order with their errors, then validation and uniqueness of id and email; on success only the user is inserted, as the corrected document that keeps the hash (first "## Findings" row); every failure leaves the store unchanged |
| Store.IssueStore.DeleteUser | backend/src/graphql/resolvers.ts:153-166 | a missing id is rejected; an unknown id returns null and changes nothing; otherwise the user is removed and returned |
| Store.IssueStore.InsertUser | backend/src/graphql/resolvers.ts:95-97 | the insert adds the user at the end of the natural order and keeps the invariant |
| Store.IssueStore.AddAssignedIssue | backend/src/graphql/resolvers.ts:232-234 | `$addToSet` on one user: only that user changes, and the invariant (no duplicates) is kept |
| Store.IssueStore.SaveIssue | backend/src/models/issues.ts:41-44 | `save` stores the touched document, appending new ids to the natural order |
| Store.IssueStore.ApplyAssignment | backend/src/graphql/resolvers.ts:227-236 | the assignment's two writes: the issue as `AssignTo` makes it, and the user with the issue added to their set |
| Store.IssueStore.CreateIssue | backend/src/graphql/resolvers.ts:168-201 | title and description are required; the saved issue has the trimmed description and the schema's defaults; an invalid document is not saved |
| Store.IssueStore.AssignIssue | backend/src/graphql/resolvers.ts:203-237 | both ids are required, the user is checked before the issue, and on success the issue is ASSIGNED to that user, who lists it once |
| Store.IssueStore.UpdateIssueStatus | backend/src/graphql/resolvers.ts:239-263 | id and status are required and the issue must exist; any enumerated status replaces any other; an unknown name fails validation; only status and time change |
| Store.IssueStore.AddComment | backend/src/graphql/resolvers.ts:265-309 | the checks in source order; on success the comment is stored and its id appended to that issue alone |
| InMemory.Issues | backend/src/index.ts:59-61 | exactly the records equal (`===`) to each supplied argument, in array order |
| InMemory.IssuesUnfiltered | backend/src/index.ts:59-61 | without arguments the whole array is returned |
| InMemory.IssuesCount | backend/src/index.ts:58 | the array's length, which bounds every filtered list |
| InMemory.FindIssue | backend/src/index.ts:62-64 | none exactly when no record has the id; otherwise the first record that does |
| InMemory.FindUser | backend/src/index.ts:66-68 | none exactly when no record has the id; otherwise the first record that does |
| InMemory.AssignedTo | backend/src/index.ts:76-79 | a missing or null reference gives none; otherwise the user lookup of the reference |
| InMemory.AssignedIssues | backend/src/index.ts:88-91 | a user's issues are the `issues` query filtered on that user |
| InMemory.AssignedIssuesDisjoint | backend/src/index.ts:88-91 | no issue is listed under two users with different ids |
| InMemory.AssignedIssuesAgree | backend/src/index.ts:76-91 | with distinct user ids, an issue is listed under a user exactly when its assignee resolves to them |
| InMemory.IssueCommentsAsWritten | backend/src/index.ts:71-75 | matches comments on an `issue` field; a comment without that field is never listed |
| InMemory.CommentsWithoutIssueField | backend/src/index.ts:74 | when no comment carries `issue`, every issue's comment list is empty |
| InMemory.IssueComments | backend/src/data.ts:88-131 | matching on the `issueId` the records carry lists exactly the issue's comments, in array order |
| InMemory.CommentAuthorAsWritten | backend/src/index.ts:82-85 | looks up `authorId`; a comment without it has no author |
| InMemory.CommentAuthor | backend/src/data.ts:88-131 | looking up the `author` the records carry finds the author by id |
| Fixture.SampleCount | backend/src/index.ts:58 | on the sample data `issuesCount` is 5 |
| Fixture.OpenIssues | backend/src/data.ts:28-83 | on the sample data `issues(status: "OPEN")` is the single login bug |
| Fixture.AliceIssues | backend/src/data.ts:28-83 | `issues(assignedTo: Alice)` is exactly the dark-mode and CI/CD issues, in that order |
| Fixture.LoginBugCommentsAsWritten | backend/src/index.ts:74 | as written, the login bug lists no comments |
| Fixture.LoginBugComments | backend/src/data.ts:88-103 | corrected, the login bug lists its two comments in order |
| Fixture.FirstCommentAuthorAsWritten | backend/src/index.ts:84 | as written, the first comment has no author |
| Fixture.FirstCommentAuthor | backend/src/data.ts:88-95 | corrected, the first comment's author is Bob |
| Client.ArgOf | frontend/src/components/IssuesList.tsx:100-101 | an absent optional becomes `undefined`, a present one the string |
| Client.Outbox.Send | frontend/src/components/IssuesList.tsx:98 | a sent mutation is appended to the log |
| Client.Outbox.Show | frontend/src/components/IssuesList.tsx:104 | a shown toast is appended to the log |
| Utils.OptionValues | frontend/src/lib/utils.ts:10-16 | the values of the options, index by index |
| Utils.StatusOptionsEachOnce | frontend/src/lib/utils.ts:10-16 | `STATUS_OPTIONS` offers all five statuses, each exactly once |
| Utils.AsFilterOption | frontend/src/lib/utils.ts:20 | a spread option keeps its caption, and its value parses back to its status |
| Utils.StatusOptionsWithAll | frontend/src/lib/utils.ts:18-21 | "all"/"All Status" first, then each status option in order |
| Utils.AllIsNoStatus | frontend/src/lib/utils.ts:18-21 | "all" names no status, and no later entry is "all" |
| Utils.BadgeColor | frontend/src/lib/utils.ts:24-38 | the empty class string exactly for names outside the enumeration |
| Utils.BadgeColorsDistinct | frontend/src/lib/utils.ts:24-38 | every status has a non-empty colour, and different statuses have different colours |
| Navigation.HomeActiveOnlyAtRoot | frontend/src/components/NavigationBar.tsx:8-12 | the home link is active exactly on "/" |
| Navigation.ActiveOnExtensions | frontend/src/components/NavigationBar.tsx:10 | any other link is active on itself and on every extension of it |
| Navigation.ActiveMeansPrefix | frontend/src/components/NavigationBar.tsx:8-12 | a link is active only on pathnames that begin with it |
| Navigation.IssuesActiveOnIssuePage | frontend/src/components/NavigationBar.tsx:10 | "/issues" is active on "/issues/42" |
| Navigation.UsersActiveOnUsersX | frontend/src/components/NavigationBar.tsx:10 | the prefix test is raw: "/users" is active on "/usersX" |
| UsersList.UsersWithIssueCount | frontend/src/components/UsersList.tsx:32-35 | one entry per user, in order, counting that user's assigned issues |
| UsersList.ActiveUsers | frontend/src/components/UsersList.tsx:99-101 | the number of users with at least one assigned issue, counted user by user (`CountActive`); at most the number of users, and zero exactly when no user has an issue |
| UsersList.TotalAssignments | frontend/src/components/UsersList.tsx:114-117 | the sum of the assignment counts: no user's count exceeds it, and it is zero exactly when no user has an issue |
| UsersList.TotalAssignmentsCons | frontend/src/components/UsersList.tsx:114-117 | the left fold also sums from the front: a user added first adds their count |
| UsersList.ActiveUsersAtMostAssignments | frontend/src/components/UsersList.tsx:99-117 | there are never more active users than assignments |
| UsersList.NoAssignmentsIffNoActive | frontend/src/components/UsersList.tsx:99-117 | no assignments exactly when no user is active |
| UsersList.IssueBadge | frontend/src/components/UsersList.tsx:153-157 | no badge exactly for a count of zero; "issue" for one, "issues" otherwise |
| IssuesList.FilteredIssues | frontend/src/components/IssuesList.tsx:67-78 | exactly the issues passing search, status and assignee filters, in server order |
| IssuesList.SearchIgnoresCase | frontend/src/components/IssuesList.tsx:68-70 | the search ignores the query's case, and means that the query occurs in the title or the description |
| IssuesList.AssigneeFilterMeaning | frontend/src/components/IssuesList.tsx:73-76 | "all" passes every issue; "unassigned" passes the unassigned ones; anything else passes issues assigned to that id |
| IssuesList.NoFilterShowsAll | frontend/src/components/IssuesList.tsx:37-39 | with the initial filters every issue is listed, in order |
| IssuesList.FiltersCompose | frontend/src/components/IssuesList.tsx:67-78 | the three filters applied one after another give the same list |
| IssuesList.AssigneeId | frontend/src/components/IssuesList.tsx:101 | `assignedTo?.id`: present exactly when there is an assignee |
| IssuesList.EditRequest | frontend/src/components/IssuesList.tsx:97-113 | `assignIssue` exactly for OPEN, otherwise `updateIssueStatus` with a status that parses back to the chosen one |
| IssuesList.EditToast | frontend/src/components/IssuesList.tsx:104-120 | an error toast exactly when the mutation failed |
| IssuesList.CreateRequest | frontend/src/components/IssuesList.tsx:83 | the create mutation carries the payload's title and description |
| IssuesList.CreateToast | frontend/src/components/IssuesList.tsx:84-88 | an error toast exactly when the mutation failed, with the page's messages |
| IssuesList.IssuesListPage.constructor | frontend/src/components/IssuesList.tsx:37-39 | an empty search and both selectors on "all" |
| IssuesList.IssuesListPage.Visible | frontend/src/components/IssuesList.tsx:67-78 | the listed issues are a subsequence of the server's, holding exactly those shown under the current filters |
| IssuesList.IssuesListPage.SetFilters | frontend/src/components/IssuesList.tsx:37-39 | the setters replace the three filter values |
| IssuesList.IssuesListPage.HandleCreateIssue | frontend/src/components/IssuesList.tsx:80-91 | one create mutation, then one toast for its outcome |
| IssuesList.IssuesListPage.HandleEditIssue | frontend/src/components/IssuesList.tsx:93-123 | exactly one mutation, then one toast for its outcome |
| Sorting.WithKey | frontend/src/components/MyIssues.tsx:68-71 | the elements with one key value, in order |
| Sorting.Insert | frontend/src/components/MyIssues.tsx:68-71 | inserting adds exactly the element |
| Sorting.InsertDescending | frontend/src/components/MyIssues.tsx:68-71 | inserting into a descending list keeps it descending |
| Sorting.SortDescending | frontend/src/components/MyIssues.tsx:68-71 | the result is a permutation of the input, ordered by descending key |
| Sorting.InsertKeepsTies | frontend/src/components/MyIssues.tsx:68-71 | insertion goes before the equal keys it meets, so the order among ties is kept |
| Sorting.SortIsStable | frontend/src/components/MyIssues.tsx:68-71 | elements with equal keys keep their relative order (the stable `Array.prototype.sort`) |
| MyIssues.AssignmentsQuery | frontend/src/components/MyIssues.tsx:32-38 | the query runs exactly for a signed-in user with a non-empty id, and with that id |
| MyIssues.MyFilteredIssues | frontend/src/components/MyIssues.tsx:57-71 | no data lists nothing; otherwise exactly the issues matching title search and status, newest update first |
| MyIssues.MyFilteredIssuesPermutes | frontend/src/components/MyIssues.tsx:59-71 | the list is a permutation of the filtered issues |
| MyIssues.MyFilteredIssuesKeepTies | frontend/src/components/MyIssues.tsx:68-71 | issues updated at the same time keep the server's order |
| MyIssues.HandleEditIssue | frontend/src/components/MyIssues.tsx:73-90 | no mutation for OPEN, `updateIssueStatus` otherwise; the success toast unless that mutation failed |
| IssueDetail.LocalBadgeColor | frontend/src/components/IssueDetail.tsx:52-65 | the page's own table: empty exactly for unknown names and for ASSIGNED |
| IssueDetail.LocalBadgeColorDiffersOnAssigned | frontend/src/components/IssueDetail.tsx:52-65 | it agrees with the shared colours everywhere except ASSIGNED |
| IssueDetail.AssignedUser | frontend/src/components/IssueDetail.tsx:197-199 | none for an unassigned issue; otherwise the listed user with the assignee's id, if any |
| IssueDetail.InitialAssignee | frontend/src/components/IssueDetail.tsx:102 | the assignee's id, or "unassigned" when it is missing or empty: never empty; the assignee's id when there is a non-empty one |
| IssueDetail.NewComment | frontend/src/components/IssueDetail.tsx:151-157 | the comment carries the input, the issue, the fixed author id, the new id and the time |
| IssueDetail.IssueDetailPage.constructor | frontend/src/components/IssueDetail.tsx:69-72 | OPEN, no assignee selection, an empty input, no local comments |
| IssueDetail.IssueDetailPage.Load | frontend/src/components/IssueDetail.tsx:99-104 | the form copies the issue's status and its initial assignee selection |
| IssueDetail.IssueDetailPage.HandleAddComment | frontend/src/components/IssueDetail.tsx:148-162 | a blank input does nothing; otherwise the comment is sent, and appended and the input cleared only if accepted |
| IssueDetail.IssueDetailPage.HandleEditIssue | frontend/src/components/IssueDetail.tsx:164-194 | `assignIssue` first when a user is selected, stopping if it fails; then `updateIssueStatus` |
| IssueDetail.StatusUpdateWinsOverAssign | frontend/src/components/IssueDetail.tsx:177-193 | on the server, assigning then setting a status leaves that status and keeps the assignee |
| IssueModal.EditAssignee | frontend/src/components/IssueModal.tsx:58 | `assignedTo?.id ?? "unassigned"` |
| IssueModal.SelectedUser | frontend/src/components/IssueModal.tsx:79 | none exactly when no listed user has the id; otherwise a listed user with it |
| IssueModal.BuildPayload | frontend/src/components/IssueModal.tsx:79-92 | trimmed title and description; no assignee exactly for "unassigned" or an unknown id; an id exactly when editing |
| IssueModal.IssueForm.constructor | frontend/src/components/IssueModal.tsx:40-44 | an empty form, OPEN, not loading |
| IssueModal.IssueForm.Reset | frontend/src/components/IssueModal.tsx:51-67 | closed: nothing changes; open: the issue's fields, or a blank OPEN unassigned form |
| IssueModal.IssueForm.SaveEnabledIff | frontend/src/components/IssueModal.tsx:193 | Save is enabled exactly when neither field is blank and no save is running |
| IssueModal.IssueForm.PayloadTrimmed | frontend/src/components/IssueModal.tsx:76-85 | a payload that passed the guard has non-empty, already-trimmed title and description |
| IssueModal.IssueForm.Submit | frontend/src/components/IssueModal.tsx:94-101 | the payload is handed over once, the dialog closes, loading is off again |
| IssueModal.IssueForm.HandleSave | frontend/src/components/IssueModal.tsx:75-102 | a blank field changes nothing; otherwise exactly `BuildPayload` of the form's fields is handed over and the dialog closes |

## Left out

- `me` is not modelled: it returns the request context's user, and authentication middleware is not part of this model.
- Hashing, token signing, the signing secret and the clock are parameters (`hash`, `compare`, `sign`, `secret`, `now`), not implementations.
- Ids are given strings. A malformed ObjectId cast error is not modelled, so `deleteUser`'s driver-exception "user not found" never arises.
- Times are integers. ISO-8601 strings are compared through `new Date(...)` only in the My Issues sort, and the sort key is the integer; an unparseable date (NaN) is not modelled.
- Store.IssueStore.DeleteUser: states the removed user and a subsequence of the natural order rather than the exact new order; issues and comments that refer to the user keep dangling references, as in the source.
- The two writes of `assignIssue` and of `addComment` are modelled as succeeding together; a failure between them (partial update) is not modelled.
- The GraphQL transport, schema type checking, `populate` and Apollo's error envelope are not modelled; an uncoded error is `Uncoded`.
- The e-mail pattern is modelled as the language it describes (dotted words, `@`, a dotted domain with a 2–3 character suffix), not as a regular-expression engine.
- Rendering, `cn()`, `AuthContext`, the login and register forms, the loading skeletons and the dashboard/prototype pages are not modelled.
- The users page's create/edit/delete handlers only log their arguments and are not modelled.
- IssueModal.IssueForm.HandleSave: `onSave` is not awaited, so a rejected mutation never reaches the dialog's `catch`; the dialog closes either way, as modelled.
- IssueDetail.IssueDetailPage.HandleAddComment: the comment id is `Date.now()`, given here as `newId`; the page shows no toast.
- The client's `User.assignedIssues` is reduced to the list of ids; only its length is used.
- The issue page's local status options table is not modelled; it is only rendered.
- MyIssues: the error and "please log in" toasts of the page's early returns are not modelled.
- Text.ToLower: folds only the ASCII letters A–Z; JavaScript's `toLowerCase` folds every Unicode letter, so a search such as "CAFÉ" does not find "café" in the model (IssuesList, MyIssues), while the source finds it.
- Models.NormalizeEmail: mongoose's `lowercase` uses the full Unicode `toLowerCase`; the model folds only ASCII, so an address holding a non-ASCII capital (the Kelvin sign, say, which lower-cases to an ASCII "k") is stored and validated differently from the source.
- Models.ValidUser, Models.ValidIssue, Models.ValidComment: `minLength` counts UTF-16 code units, the model's `|s|` counts characters; a title or name of astral characters (each two units) that passes the source's minimum may be rejected by the model.
- Store.IssueStore.CreateUser: the password-length check counts characters, not the UTF-16 units of JavaScript's `.length` ("🔑🔑🔑🔑" has length 8 in the source, 4 in the model). The document it stores keeps the hash: it is the corrected half of the first "## Findings" row; the document the code as written saves, with the hash dropped by strict mode, appears only through Models.NewUserAsWritten and Store.IssueStore.LoginFailsForUserAsWritten.

## Findings

| source | as written | input that shows it | evidently intended | confidence | as-written member | corrected member |
|---|---|---|---|---|---|---|
| backend/src/graphql/resolvers.ts:89-93 | `new User({..., hashPwd})` on a schema (backend/src/models/users.ts:3-22) without a `hashPwd` path: strict mode drops the hash, so `login` hands `bcrypt.compare` no hash and fails | `createUser(name: "alice", email: "a@b.com", hashPwd: "password1")` then `login(name: "alice", identifier: "password1")` | the hash is stored and that login returns a token | high, not executed | Store.IssueStore.LoginFailsForUserAsWritten | Store.IssueStore.LoginSucceedsForNewUser |
| backend/src/index.ts:74 | `Issue.comments` matches `comment.issue`, but the records (backend/src/data.ts:88-131) carry `issueId` | the login-bug issue of the sample data | its two comments are listed | high, not executed | Fixture.LoginBugCommentsAsWritten | Fixture.LoginBugComments |
| backend/src/index.ts:84 | `Comment.author` looks up `comment.authorId`, but the records carry `author` | the first sample comment | its author is Bob | high, not executed | Fixture.FirstCommentAuthorAsWritten | Fixture.FirstCommentAuthor |
