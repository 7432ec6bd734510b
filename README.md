# Kanban backend: access policy, CORS rule and board handlers

This project models the core of a kanban backend in Dafny. Boards hold lists, lists hold
cards, and cards hold tasks, tags and comments.

- **`js.dfy` (module `Js`)**: the JavaScript value semantics the code relies on.
  - `undefined` is modelled as `Option`.
  - Truthiness: `""`, `0` and `undefined` are falsy.
  - `a || b` defaults and `String(x)`.
  - `String.prototype.trim`, using ECMAScript white space and line terminators.
  - `split` and `join` on a one-character separator.
  - The case-insensitive `bearer ` prefix test.
- **`auth.dfy` (module `Auth`)**:
  - the payloads of the two token kinds: user tokens carry an id, a name and a role
    normalised to `admin` or `employee`; viewer tokens are bound to one board;
  - the soft authentication middleware, which attaches the verified claims of a
    `Bearer` header or nothing, and always lets the request through;
  - the role gate, which answers 401 without a user principal and 403 for a role not
    in the list;
  - the board-scoped viewer gate.

  Signing returns the payload. Signature and expiry checking is a verifier passed in
  as a parameter: a function from the token text to the claims or nothing.
- **CORS rule in `app.js` (module `Cors`)**: `CORS_ORIGIN` is split on commas, each
  piece is trimmed and the empty ones are dropped. A request origin is accepted when
  it is absent, when no origins are configured, or when it is listed.
- **Board handlers in `app.js` (module `Store`)**:
  - A `Db` value is one state of the relational store: projects, boards, lists,
    cards, tasks, tags, comments, and board–user membership rows.
  - `CreateBoardSpec`, `PatchBoardSpec` and `DeleteBoardSpec` give the new state
    after `POST /boards`, `PATCH /boards/:boardid` and `DELETE /boards/:boardid`.
  - Lemmas prove what the handlers promise. The store invariant `Consistent` holds
    that no row refers to a missing parent and that list and card positions are
    dense, 0..n-1 under each parent; every handler preserves it.
  - The class `Store` keeps the tables as fields and runs each handler statement by
    statement, in the order the source does. This includes the seeding loop and the
    two nested cascade loops of the delete. Each method is proved equal to its
    specification function and to preserve `Valid()`.

Two intended behaviours are not implemented by the handlers, and the model follows
the code:

- A transactional delete cascade. The handler runs its deletes one by one; a missing
  board yields 500 only after the steps, which delete nothing.
- `closed` implying progress 100. `PATCH` writes any number as `progress`.

## Model

| member | source | states |
|---|---|---|
| Js.Trim | backend/src/middleware/auth.js:32 | `trim()` returns a string with no white space at either end, never longer than its input |
| Js.TrimStartRemovesWhitespace | backend/src/app.js:10 | the leading trim keeps a suffix of the input, and everything it removes is white space |
| Js.TrimEndRemovesWhitespace | backend/src/app.js:10 | the trailing trim keeps a prefix of the input, and everything it removes is white space |
| Js.TrimKeepsChars | backend/src/app.js:10 | trimming adds no character: every character of the result is in the input |
| Js.TrimAllWhitespace | backend/src/middleware/auth.js:32 | a string of white space alone trims to the empty string |
| Js.TrimOfTrimmed | backend/src/app.js:10 | a string with no white space at either end is its own trim |
| Js.TrimIdempotent | backend/src/app.js:10 | trimming twice is trimming once |
| Js.TrimPadded | backend/src/middleware/auth.js:32 | white space around a non-empty trimmed string is exactly what `trim()` removes |
| Js.Split | backend/src/app.js:10 | `split(',')` yields at least one piece, and no piece contains the separator |
| Js.JoinSplit | backend/src/app.js:10 | joining the pieces of a split with the same separator gives the string back |
| Js.SplitJoin | backend/src/app.js:10 | splitting a join of separator-free pieces gives the pieces back |
| Js.StringOr | backend/src/app.js:106-110 | `x \|\| fallback` on a string: the given string when it is non-empty, the fallback otherwise |
| Js.IntOr | backend/src/app.js:110 | `x \|\| fallback` on a number: the given number when it is non-zero, the fallback otherwise |
| Js.ToJsString | backend/src/middleware/auth.js:62 | `String(x)`: a string is itself, and `undefined` is "undefined" |
| Js.HasBearerPrefix | backend/src/middleware/auth.js:28 | `toLowerCase().startsWith('bearer ')` holds exactly when the header has at least 7 characters, and they are b, e, a, r, e, r (each in either case) followed by a space |
| Cors.TrimAll | backend/src/app.js:10 | `.map(s => s.trim())` keeps the length, and piece i becomes the trim of piece i |
| Cors.NonEmpty | backend/src/app.js:10 | `.filter(Boolean)` keeps exactly the non-empty strings and never adds any |
| Cors.ParseOrigins | backend/src/app.js:10 | every configured origin is non-empty and trimmed at both ends |
| Cors.ParsedOriginsHaveNoComma | backend/src/app.js:10 | no configured origin contains a comma |
| Cors.OriginAllowed | backend/src/app.js:14 | a request is refused exactly when it names a non-empty origin and the list is non-empty and does not contain it |
| Cors.AllBlankPiecesGiveNoOrigins | backend/src/app.js:10 | pieces that all trim to nothing leave no origin |
| Cors.UnconfiguredAllowsAll | backend/src/app.js:10-14 | with `CORS_ORIGIN` unset, empty, or only commas and blanks, the list is empty and every origin is accepted |
| Cors.ConfiguredOrigins | backend/src/app.js:10-14 | with entries configured, an origin is accepted if and only if it is empty or equals the trim of some entry |
| Auth.SignUserToken | backend/src/middleware/auth.js:7-15 | a user token has kind "user" and subject the user id; its role is "admin" exactly when the input role is "admin", else "employee"; its name defaults to "User" when falsy; it has no board id |
| Auth.SignViewerToken | backend/src/middleware/auth.js:17-23 | a viewer token has kind "viewer" and exactly the given board id, with no subject, name or role |
| Auth.SoftAuth | backend/src/middleware/auth.js:26-40 | no principal for a missing or empty header or one without the case-insensitive `bearer ` prefix; otherwise the verifier's answer for the trimmed text after the 7-character prefix |
| Auth.AuthMiddleware | backend/src/middleware/auth.js:26-40 | sets `req.user` to the principal `SoftAuth` gives, and always passes the request on |
| Auth.RequireRole | backend/src/middleware/auth.js:43-53 | 401 if and only if there is no user principal (none or a viewer); passes if and only if a user principal's role is among the roles; 403 otherwise |
| Auth.AllowViewerForBoard | backend/src/middleware/auth.js:57-69 | halts, with 403, if and only if the principal is a viewer whose `String(fkboardid)` differs from the requested id |
| Auth.UserTokenPassesStaffGate | backend/src/middleware/auth.js:43-53 | every user token passes `requireRole('admin','employee')`, whatever role was asked for at signing |
| Auth.UserTokenAdminGate | backend/src/middleware/auth.js:43-53 | a user token passes an admin-only gate if and only if it was signed with role "admin" |
| Auth.ViewerTokenFailsRoleGate | backend/src/middleware/auth.js:43-53 | a viewer token is answered 401 by every role gate |
| Auth.ViewerTokenScope | backend/src/middleware/auth.js:57-69 | a viewer token passes the board gate if and only if the requested board is the one it was issued for |
| Auth.BearerHeaderAttachesClaims | backend/src/middleware/auth.js:26-40 | `Bearer` in any letter case, with any white space around the token, attaches exactly what the token verifies to |
| Auth.SignedUserRequestPassesStaffGate | backend/src/middleware/auth.js:26-53 | a request whose bearer token verifies to a user token passes the staff gate |
| Auth.SharedLinkRequest | backend/src/middleware/auth.js:26-69 | a request with a verified viewer token passes the board gate on its own board and is answered 403 on any other |
| Auth.BareSchemeIsAnonymous | backend/src/middleware/auth.js:28-38 | a header that is only `Bearer` and blanks yields no principal, given that the verifier rejects the empty token as `jwt.verify` does |
| Auth.AnonymousRequest | backend/src/middleware/auth.js:26-69 | without a usable header, every role gate answers 401 and the board gate lets the request through |
| Store.RowOf | backend/src/app.js:136-148 | the answer row carries the board's id, its stored fields, and the ids of its member rows (the same shaping as app.js:187-199) |
| Store.HasRequiredFields | backend/src/app.js:88 | the create body passes the 400 check exactly when `projectName` is a non-empty string and `fkpoid` a non-zero number |
| Store.UpsertProject | backend/src/app.js:92-100 | the upsert adds the id if missing, as an open project named after the board; an existing project stays as it was |
| Store.NewBoard | backend/src/app.js:102-111 | the new board is open with progress 0, titled after the project; description defaults to "", creator to "System" and 0 |
| Store.SeedLists | backend/src/app.js:115-120 | every seeded list belongs to the new board |
| Store.SeedListsRows | backend/src/app.js:115-120 | the seeding loop inserts exactly the ids first..first+n-1, with name i at position i under the new board |
| Store.SeededLists | backend/src/app.js:114-120 | a new board has exactly three lists, "To-do", "In-progress" and "Done", at positions 0, 1 and 2 |
| Store.SeededListsKeepOtherBoards | backend/src/app.js:114-120 | seeding leaves every other board's lists as they were |
| Store.AttachMembers | backend/src/app.js:123-127 | attaching keeps every existing member row, and adds only rows of the new board for ids sent |
| Store.CreateBoardSpec | backend/src/app.js:86-128 | a create adds exactly the new board id and leaves cards, tasks, tags and comments untouched |
| Store.AttachedMembersOfNewBoard | backend/src/app.js:122-128 | a new board's members are exactly the distinct ids sent, and none when `memberIds` is absent or empty |
| Store.CreatedBoardShape | backend/src/app.js:86-155 | after a create, the new board exists as `NewBoard` builds it; its project exists, unchanged if it existed before; its lists are exactly "To-do", "In-progress" and "Done" at positions 0, 1 and 2, densely positioned; its members are exactly the distinct ids sent |
| Store.CreateBoardKeepsRefs | backend/src/app.js:86-128 | the rows a create adds refer to existing rows |
| Store.CreateBoardKeepsListsDense | backend/src/app.js:114-120 | after a create, the lists of every board are still densely positioned |
| Store.CreateBoardKeepsCardsDense | backend/src/app.js:114-120 | after a create, the cards of every list are still densely positioned |
| Store.CreateBoardKeepsConsistent | backend/src/app.js:86-128 | creating a board keeps the store consistent |
| Store.Store.CreateBoard | backend/src/app.js:86-155 | 400 with unchanged store without `projectName` and `fkpoid`; otherwise the store becomes `CreateBoardSpec` under a fresh id, the answer is that board's row, and `Valid()` holds |
| Store.Store.CreateBoardState | backend/src/app.js:86-155 | the create handler's effect as a whole-store equality, keeping ids below the counters |
| Store.Store.CreateBoardRows | backend/src/app.js:86-150 | the create handler statement by statement: each table and counter after the call |
| Store.Store.SeedDefaultLists | backend/src/app.js:115-120 | the loop adds `SeedLists` of the three default names and advances the list counter by three |
| Store.Store.AddBoardMembers | backend/src/app.js:123-127 | member rows are added only for a non-empty array |
| Store.HasUpdates | backend/src/app.js:167 | without a title, description or progress, the board row is left as it is |
| Store.ApplyPatch | backend/src/app.js:162-169 | only the fields present change, each to the value sent; every other board field is kept |
| Store.ReplaceMembers | backend/src/app.js:171-180 | without an array nothing changes; with one, the result holds only other boards' existing rows and rows of this board for ids sent |
| Store.PatchBoardSpec | backend/src/app.js:158-180 | a patch keeps the set of boards and leaves projects, lists, cards, tasks, tags and comments untouched |
| Store.ReplaceMembersEffect | backend/src/app.js:171-180 | other boards' member rows are untouched; with an array, the board's members become exactly its distinct ids; without one, nothing changes |
| Store.PatchIdempotent | backend/src/app.js:158-206 | sending the same `PATCH` twice has the effect of sending it once |
| Store.ReplaceMembersIgnoresDuplicates | backend/src/app.js:173-178 | the resulting membership depends only on the set of ids sent, not on their order or repeats |
| Store.AttachIsReplaceOnNewBoard | backend/src/app.js:123-127 | on a board without members, attaching at creation equals replacing, with or without a `memberIds` array |
| Store.PatchBoardKeepsConsistent | backend/src/app.js:158-180 | updating an existing board keeps the store consistent |
| Store.Store.PatchBoard | backend/src/app.js:158-206 | 500 with unchanged store when the board is missing; otherwise the store becomes `PatchBoardSpec` and the answer is the updated row; `Valid()` holds |
| Store.Store.PatchBoardState | backend/src/app.js:158-206 | the update handler's effect as a whole-store equality; board ids unchanged |
| Store.Store.PatchBoardRows | backend/src/app.js:158-205 | the update handler statement by statement, including the three ways a missing board ends in 500 with nothing changed |
| Store.Store.ReplaceBoardMembers | backend/src/app.js:171-180 | the board's rows are deleted; the insert succeeds exactly when the board exists or the array is empty |
| Store.DeleteBoardSpec | backend/src/app.js:209-225 | a delete removes exactly the board id from the boards and leaves the projects untouched |
| Store.DeleteBoardRemovesSubtree | backend/src/app.js:209-225 | after a delete, nothing of the board's subtree is left: board, lists, cards, tasks, tags, comments and member rows |
| Store.DeleteBoardKeepsOtherRows | backend/src/app.js:209-225 | every row outside the deleted subtree survives unchanged |
| Store.CascadeRows | backend/src/app.js:214-222 | visiting one more list in the cascade drops exactly the children of that list's cards |
| Store.DeleteBoardKeepsRefs | backend/src/app.js:209-225 | after the cascade, no row refers to a deleted row |
| Store.DeleteBoardKeepsDense | backend/src/app.js:209-225 | the remaining boards' lists and lists' cards stay densely positioned |
| Store.DeleteBoardKeepsConsistent | backend/src/app.js:209-225 | deleting a board keeps the store consistent |
| Store.NoMembersOfMissingBoard | backend/src/app.js:224 | in a store without orphans, deleting a missing board's member rows deletes nothing |
| Store.DeleteMissingBoardChangesNothing | backend/src/app.js:209-231 | in a store without orphans, deleting a missing board changes nothing |
| Store.Store.DeleteBoard | backend/src/app.js:209-232 | the store becomes `DeleteBoardSpec`; the answer is the id when the board existed, else 500; `Valid()` holds |
| Store.Store.DeleteBoardState | backend/src/app.js:209-232 | the delete handler's effect as a whole-store equality, keeping ids below the counters |
| Store.Store.DeleteBoardRows | backend/src/app.js:209-231 | the delete handler statement by statement: each table after the cascade, the member and list deletes, and the board delete |
| Store.Store.DeleteCardsOfLists | backend/src/app.js:213-222 | the outer loop deletes the cards of the visited lists and those cards' tasks, tags and comments, in any visiting order |
| Store.Store.DeleteListCards | backend/src/app.js:215-221 | one list: its cards' children, then its cards |
| Store.Store.DeleteChildrenOfCards | backend/src/app.js:216-220 | the inner loop deletes the tasks, tags and comments of the visited cards |
| Store.Store.DeleteCardChildren | backend/src/app.js:217-219 | one card: its tasks, tags and comments |

## Left out

- JWT signing and verification: the HMAC signature, the secret, the `7d` lifetime and the `iat`/`exp` claims. The verifier is a parameter that returns claims or nothing.
- `Number(user_id)` in the user token, and `Number(...)` on `fkpoid`, `addedbyid`, `uid` and the path parameter: inputs are already integers, so `NaN` and string coercion are not modelled.
- `String(name || 'User')`, `String(projectName)`, `String(addedby)`, `String(description)` and `String(fkboardid)` on values that are not strings: body fields are modelled as strings or absent.
- In `PATCH`, a `title`, `description` or `progress` that is not of the expected `typeof` is modelled as absent, which is how the handler treats it.
- Auth.AllowViewerForBoard: `req.params || {}` is modelled as an optional board parameter; `String(undefined)` is "undefined", as in the source.
- Js.HasBearerPrefix: compares the first seven characters after ASCII lower-casing rather than lower-casing the whole header. Only ASCII letters lower-case to the letters of `bearer`, so the two agree.
- Express, the `cors` package wiring (`credentials`, the error object), `dotenv` and `console.error` logging. The CORS decision is a predicate.
- The read handlers `GET /members`, `GET /projects` and `GET /projects/:fkpoid/boards` (app.js lines 24-83), and the health route; `prisma/seed.js`.
- The board's database-generated `fkboardid` and `created_at`, and the names in the answer's `members`. The answer lists member user ids as a set; `findMany` order is not modelled, and sets are visited in any order.
- User ids in `memberIds` that do not exist make `createMany` fail after earlier writes. There is no user table, so every user id is accepted.
- Transactions, concurrency and database failures other than the missing board.
- Store.Store.DeleteBoard: the answer `{ deleted: boardid }` is modelled as `Ok(b)`.
- Store.ApplyPatch: `progress` is not kept within 0..100, and `status` is not tied to it, because the handler does neither.
- Store.ApplyPatch: `progress` is modelled as an integer. The handler writes any JSON number; what it and the store do with a fractional value such as `42.5` or an infinite one such as `1e400` is not modelled.
