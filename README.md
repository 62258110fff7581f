# deepconnection.life admin core in Dafny

This project models the core of the deepconnection.life admin system. The system is an
Express/Mongoose backend with a React dashboard. The model covers:

- **Roles and permissions.** A role holds one level per category for seven categories. A level
  is 0 none, 1 view, 2 edit, 3 delete or 4 all. The role handlers create, read, update and
  delete roles (`roles.dfy`).
- **Backend users.** Users need an email or a phone, and each of the two is unique among the
  users that hold it. The password is stored hashed. The handlers create, list, read, update and
  delete users (`users.dfy`).
- **Login and the authentication middleware** (`auth.dfy`, `middleware.dfy`).
- **The resource handlers:**
  - services (`services.dfy`) and programs (`programs.dfy`);
  - bookings, which refer to a service and a program (`bookings.dfy`);
  - child issues (`childissues.dfy`);
  - contact requests, which refer to a child issue (`contacts.dfy`);
  - blog posts (`blogs.dfy`) and suggestions (`suggestions.dfy`).
- **The dashboard:**
  - the session store and its persistence in local storage (`session.dfy`);
  - the request interceptor that attaches the Bearer token (`apiclient.dfy`);
  - the management pages' permission gating, filter bodies and form conversions (`pages.dfy`).

Each collection is a class holding `rows: map<Id, Record>` and an id allocation counter.
Each handler is a method on that class. It either:

- returns `Fail(code, message)` and leaves the table unchanged, or
- returns `Done(code, message, value)` and applies exactly the change its contract states.

Other tables appear as read-only parameters.

Every table keeps a ghost invariant `Valid()`. It says:

- every id lies below the counter;
- required strings are non-empty;
- enums are respected;
- unique fields are unique.

The source's own behaviour decides how a save that breaks a schema rule is modelled. A broken
unique index, required field, enum or cast makes Mongoose's `save()` throw, and the handler's
catch block answers 500. The model gives exactly that 500 reply and leaves the table alone.
This is why the invariant holds after every handler.

JavaScript semantics the model writes out explicitly (all in `common.dfy`):

- truthiness (`Present`, `Truthy`);
- `??` (`Coalesce`);
- `String.prototype.trim` over the JavaScript whitespace set (`Trim`);
- the idiom "trim it, or keep the old value" (`KeepOr`);
- `split` on one character (`Split`, with its inverse `Join`);
- Mongoose's Boolean cast (`CastBoolean`) and its Number cast on integers (`CastNumber`).

External functions and services become parameters:

- bcrypt is a function `hash`, and compare means `hash(p) == stored`;
- `jwt.sign` is a function `sign` of the claims and the expiry;
- `jwt.verify` is a function `verify` giving the claims, or `None` for any failure.

## Model

| member | source | states |
|---|---|---|
| Common.Coalesce | backend/admin/controllers/BookingManagement/Service.controller.js:24 | `??` gives the default exactly when the value is null or undefined; an explicit `false` or `0` is kept |
| Common.StatusFilter | backend/admin/controllers/BookingManagement/Service.controller.js:50-52 | an absent or empty status means no filter; "true" or true selects true; any other value selects false |
| Common.Trim | backend/admin/controllers/BookingManagement/Booking.controller.js:46-54 | the trimmed string is no longer than the input, neither starts nor ends with whitespace, and is empty exactly when the input is blank |
| Common.TrimIdempotent | backend/admin/controllers/BookingManagement/Booking.controller.js:187-191 | trimming a stored (trimmed) value again changes nothing |
| Common.KeepOr | backend/admin/controllers/BookingManagement/Booking.controller.js:187-191 | an absent, empty or whitespace-only input keeps the current value; any other input is stored trimmed and is non-empty |
| Common.Lower | backend/admin/controllers/BookingManagement/Program.controller.js:18-20 | lower-casing keeps the length and lower-cases each character |
| Common.Split | backend/admin/middleware/authMiddleware.js:10 | splitting gives at least one part, and no part contains the separator |
| Common.JoinSplit | backend/admin/middleware/authMiddleware.js:10 | joining the parts of a split with the separator gives back the original string |
| Common.SplitJoin | dashboard/src/api/api.jsx:15 | splitting a join of separator-free parts gives back the parts |
| Common.CastBoolean | backend/admin/models/booking/service.model.js:8-11 | a boolean is kept and null or undefined casts to nothing |
| Common.CastNumber | backend/admin/models/contact/contact.model.js:26-30 | a number is kept; a boolean is 1 or 0; null, undefined and the empty string give no value |
| Common.CastDigits | backend/admin/models/contact/contact.model.js:26-30 | a string of decimal digits, with or without a leading `-` or `+`, casts to its signed value |
| Roles.ValidRoleLevels | backend/admin/models/backendUser/roleAndPermission.model.js:8-49 | a role the schema accepts holds a level in 0..4 for every one of the seven categories |
| Roles.NewRole | backend/admin/controllers/BackendUserManagement/RolePermission.controller.js:33-39 | create stores the trimmed name and the four supplied levels; suggestions, backend users and roles take the default 0; with valid inputs the record is valid |
| Roles.CheckLevel | backend/admin/controllers/BackendUserManagement/RolePermission.controller.js:18-24 | an omitted level becomes the fallback; a supplied level in the enum is kept as it is; any other supplied level is an error |
| Roles.FirstInvalid | backend/admin/controllers/BackendUserManagement/RolePermission.controller.js:126-135 | names the first of dashboard, bookingManagement, blogManagement and contactUsManagement, in that order, whose supplied level is outside the enum; none exactly when all four pass |
| Roles.Patched | backend/admin/controllers/BackendUserManagement/RolePermission.controller.js:137-150 | a blank name keeps the old one; each of the four editable levels is replaced when supplied and kept when omitted; the other three levels are unchanged; validity is preserved |
| Roles.RoleTable.Create | backend/admin/controllers/BackendUserManagement/RolePermission.controller.js:4-66 | 400 for a blank name, then 409 for an existing trimmed name, then 500 for a level outside the enum; success inserts exactly `NewRole` under a fresh id; failures change nothing; `Valid` is kept |
| Roles.RoleTable.Get | backend/admin/controllers/BackendUserManagement/RolePermission.controller.js:85-103 | 200 with the stored role exactly when the id exists, else 404 |
| Roles.RoleTable.Update | backend/admin/controllers/BackendUserManagement/RolePermission.controller.js:106-189 | 404 for an unknown id; 409 for a rename to another role's name; 400 naming the first invalid level; success exactly when none of these applies, storing `Patched`; failures change nothing |
| Roles.RoleTable.Delete | backend/admin/controllers/BackendUserManagement/RolePermission.controller.js:192-211 | removes exactly that role, else 404; users are not touched |
| Users.PopulateRole | backend/admin/controllers/BackendUserManagement/BackendUser.controller.js:101-106 | the populated role exists exactly when the reference resolves, and it carries that role's name |
| Users.View | backend/admin/controllers/BackendUserManagement/BackendUser.controller.js:107 | the returned view copies id, name, email, phone and block; it has no password field |
| Users.BlockFilter | backend/admin/controllers/BackendUserManagement/BackendUser.controller.js:89-91 | no filter exactly when block is undefined; "true" or true selects blocked users; any other value selects unblocked users |
| Users.Contact | backend/admin/controllers/BackendUserManagement/BackendUser.controller.js:50-51 | an optional email or phone is stored trimmed exactly when it is truthy |
| Users.PatchedUser | backend/admin/controllers/BackendUserManagement/BackendUser.controller.js:194-213 | the role is replaced when given; the name is replaced by its trim when truthy; the password is re-hashed only when supplied; block is applied only when boolean; email and phone change only when truthy; a user keeps an email or a phone |
| Users.SaveKeepsConsistent | backend/admin/models/backendUser/backendUser.model.js:10-19 | saving an accepted record keeps email and phone unique among holders (the sparse unique indexes) |
| Users.UserTable.Create | backend/admin/controllers/BackendUserManagement/BackendUser.controller.js:8-71 | 400 for a blank name or no password; 400 for neither email nor phone; 409 when the lookup finds a user by the email or the phone exactly as sent: an empty string finds a stored empty string, and an omitted field finds every user lacking it. The message names email when the found user's email equals the one sent, else phone; 404 for an unknown role; 500 exactly when the unique indexes reject `NewUser`; success otherwise, storing the hash and never the plaintext |
| Users.UserTable.List | backend/admin/controllers/BackendUserManagement/BackendUser.controller.js:76-132 | returns the password-free views of exactly the users passing the block filter and, with a role filter, whose role matches; total is the count |
| Users.UserTable.Get | backend/admin/controllers/BackendUserManagement/BackendUser.controller.js:138-163 | 200 with the password-free view exactly when the id exists, else 404 |
| Users.UserTable.Update | backend/admin/controllers/BackendUserManagement/BackendUser.controller.js:168-228 | 404 for an unknown id; 409 when a changed email, then a changed phone, is held; 404 for a role id that does not resolve; 500 exactly when the schema rejects `PatchedUser`; success otherwise, storing it; failures change nothing |
| Users.UserTable.Delete | backend/admin/controllers/BackendUserManagement/BackendUser.controller.js:233-256 | removes exactly that user, else 404 |
| Auth.FindByEmail | backend/admin/controllers/Auth/Auth.controller.js:18 | finds the one user holding exactly this email, or none exactly when nobody holds it |
| Auth.ResolveRole | backend/admin/controllers/Auth/Auth.controller.js:18 | the role record exactly when the reference resolves |
| Auth.RoleName | backend/admin/controllers/Auth/Auth.controller.js:47 | the role's name, or "No Role" when there is no role or the name is empty |
| Auth.ExpiresIn | backend/admin/controllers/Auth/Auth.controller.js:50 | the configured expiry when set, else "7d" |
| Auth.Login | backend/admin/controllers/Auth/Auth.controller.js:5-72 | 400 when email or password is missing; the same 400 "Invalid email or password" exactly for an unknown email or a wrong password; 403 exactly for a blocked user with the right password; success carries the signed token, the summary and the resolved role |
| Auth.PhoneOnlyNeverLogsIn | backend/admin/controllers/Auth/Auth.controller.js:18 | a user without an email never logs in |
| Auth.HolderLogsIn | backend/admin/controllers/Auth/Auth.controller.js:43-62 | the unblocked holder of an email logs in with a matching password; the token and the summary carry the same role name |
| Auth.BlockedUserReplies | backend/admin/controllers/Auth/Auth.controller.js:27-40 | a blocked user gets 403 with the right password and the unknown-email reply with a wrong one |
| Middleware.ExtractToken | backend/admin/middleware/authMiddleware.js:10-16 | a token exactly when the header has a non-empty second space-separated part; that part holds no space |
| Middleware.Attach | backend/admin/middleware/authMiddleware.js:31-37 | `req.user` carries the user's id, name and email, the resolved role record and its name or "No Role" |
| Middleware.Decide | backend/admin/middleware/authMiddleware.js:7-47 | 401 without a token; 401 when verification fails; 404 when the user is gone; admission exactly otherwise |
| Middleware.BlockIgnored | backend/admin/middleware/authMiddleware.js:22-39 | blocking or unblocking a user never changes the decision |
| Middleware.Request.Authenticate | backend/admin/middleware/authMiddleware.js:7-47 | on admission sets `req.user` and calls next exactly once; on rejection answers the decision's code and changes nothing |
| Services.ServiceTable.Create | backend/admin/controllers/BookingManagement/Service.controller.js:6-38 | 400 for a blank name; 409 for an existing exact trimmed name; status defaults to true only when nullish; success inserts one service |
| Services.ServiceTable.List | backend/admin/controllers/BookingManagement/Service.controller.js:43-82 | returns exactly the services passing the status filter; total is the count |
| Services.ServiceTable.Get | backend/admin/controllers/BookingManagement/Service.controller.js:88-106 | 200 with the stored service exactly when the id exists, else 404 |
| Services.ServiceTable.Update | backend/admin/controllers/BookingManagement/Service.controller.js:111-144 | 404 for an unknown id; 409 for a rename to another service's name; success exactly otherwise, so the same name or a free name is stored; status is set only when boolean; a blank name keeps the old one |
| Services.ServiceTable.Delete | backend/admin/controllers/BookingManagement/Service.controller.js:149-168 | removes exactly that service, else 404; bookings are untouched |
| Programs.NewStatus | backend/admin/controllers/BookingManagement/Program.controller.js:144-148 | a boolean is taken as is; "true" and "false" become the boolean they spell; anything else keeps the status |
| Programs.ProgramTable.Create | backend/admin/controllers/BookingManagement/Program.controller.js:6-45 | 400 for a blank name; 409 when a name equals the trimmed name ignoring case; status defaults to true only when nullish |
| Programs.ProgramTable.List | backend/admin/controllers/BookingManagement/Program.controller.js:50-86 | returns exactly the programs passing the status filter; total is the count |
| Programs.ProgramTable.Get | backend/admin/controllers/BookingManagement/Program.controller.js:91-114 | 200 with the stored program exactly when the id exists, else 404 |
| Programs.ProgramTable.Update | backend/admin/controllers/BookingManagement/Program.controller.js:119-164 | 404 for an unknown id; 409 for a rename matching any program ignoring case, the program's own name included; success exactly otherwise; status follows `NewStatus` |
| Programs.ProgramTable.Delete | backend/admin/controllers/BookingManagement/Program.controller.js:169-193 | removes exactly that program, else 404 |
| Bookings.PatchedBooking | backend/admin/controllers/BookingManagement/Booking.controller.js:151-193 | supplied references replace the old ones; blank texts keep the old value; other texts are stored trimmed |
| Bookings.SaveKeepsConsistent | backend/admin/models/booking/booking.model.js:8-17 | saving an accepted record keeps email and phone each unique across bookings |
| Bookings.BookingTable.Create | backend/admin/controllers/BookingManagement/Booking.controller.js:5-75 | 400 for any falsy field; then 404 for an unknown service; then 404 for an unknown program; then 409 for a held email or phone; then 500 exactly when the schema rejects `NewBooking`; success otherwise, storing the texts trimmed |
| Bookings.BookingTable.Get | backend/admin/controllers/BookingManagement/Booking.controller.js:99-126 | 200 with the booking and its service and program populated exactly when they resolve, else 404 |
| Bookings.BookingTable.Update | backend/admin/controllers/BookingManagement/Booking.controller.js:129-211 | 404 for an unknown id, service or program; 409 for a changed email, then for a changed phone, another booking holds; 500 exactly when the schema rejects `PatchedBooking`; success otherwise, storing it; failures change nothing |
| Bookings.BookingTable.Delete | backend/admin/controllers/BookingManagement/Booking.controller.js:214-239 | removes exactly that booking, else 404 |
| ChildIssues.BooleanOr | backend/admin/controllers/ContactManagement/ChildIssue.controller.js:24 | status is the supplied boolean, else the fallback |
| ChildIssues.CastAsWritten | backend/admin/models/contact/childIssue.model.js:3-12 | casting a `{ name, status }` document keeps status and yields no `issue` |
| ChildIssues.CreateAsWritten | backend/admin/controllers/ContactManagement/ChildIssue.controller.js:6-41 | as written: 400 for a blank name; with `strictQuery` on and a non-empty collection, 409; otherwise 500 |
| ChildIssues.CreateAsWrittenNeverSucceeds | backend/admin/controllers/ContactManagement/ChildIssue.controller.js:22-28 | as written, under either `strictQuery` setting, no input creates a child issue; "Anxiety" on an empty collection gives 500 |
| ChildIssues.UpdateAsWritten | backend/admin/controllers/ContactManagement/ChildIssue.controller.js:116-151 | as written: 404 for an unknown id; with `strictQuery` on, any truthy name gives 409; otherwise 200 with the text unchanged and only the status updated |
| ChildIssues.RenameAsWrittenIsLost | backend/admin/controllers/ContactManagement/ChildIssue.controller.js:127-137 | as written, a rename is never stored: with `strictQuery` off it is answered 200, with it on it is refused with 409 |
| ChildIssues.ChildIssueTable.Create | backend/admin/controllers/ContactManagement/ChildIssue.controller.js:6-41 | corrected: 400 for a blank name; 409 for an existing trimmed name; success stores the trimmed name as `issue` with status true unless a boolean is supplied |
| ChildIssues.ChildIssueTable.List | backend/admin/controllers/ContactManagement/ChildIssue.controller.js:46-85 | returns exactly the issues passing the status filter; total is the count |
| ChildIssues.ChildIssueTable.Get | backend/admin/controllers/ContactManagement/ChildIssue.controller.js:90-111 | 200 with the stored issue exactly when the id exists, else 404 |
| ChildIssues.ChildIssueTable.Update | backend/admin/controllers/ContactManagement/ChildIssue.controller.js:116-151 | corrected: 404 for an unknown id; 409 exactly when the trimmed name differs and is taken, success otherwise; a blank name keeps the text; status is set only when boolean |
| ChildIssues.ChildIssueTable.Delete | backend/admin/controllers/ContactManagement/ChildIssue.controller.js:156-178 | removes exactly that issue, else 404; contacts are untouched |
| Contacts.WebsiteOf | backend/admin/controllers/ContactManagement/ContactUs.controller.js:38-45 | the website is 0 when nullish and the number itself when a number |
| Contacts.PatchedContact | backend/admin/controllers/ContactManagement/ContactUs.controller.js:144-154 | the child issue is replaced when supplied; name, email and message keep the old value when blank, else are trimmed; phone is stored as sent when truthy; website changes only for a number |
| Contacts.SaveKeepsConsistent | backend/admin/models/contact/contact.model.js:8-17 | saving an accepted record keeps phone unique and email unique, each on its own |
| Contacts.ContactTable.Create | backend/admin/controllers/ContactManagement/ContactUs.controller.js:7-64 | 400 for a missing required field; 404 for an unknown child issue; 409 exactly when one contact holds both the email and the phone; 500 exactly when the website does not cast or a unique index rejects `NewContact`; success otherwise, storing the phone as sent and the other texts trimmed |
| Contacts.ContactTable.Get | backend/admin/controllers/ContactManagement/ContactUs.controller.js:92-117 | 200 with the contact and its child issue populated exactly when it resolves, else 404 |
| Contacts.ContactTable.Update | backend/admin/controllers/ContactManagement/ContactUs.controller.js:122-169 | 404 for an unknown id or child issue; no duplicate pre-check, so failures are 404 or 500; 500 exactly when the checks pass and the schema or unique index rejects `PatchedContact`; success otherwise, storing it |
| Contacts.ContactTable.Delete | backend/admin/controllers/ContactManagement/ContactUs.controller.js:174-199 | removes exactly that contact, else 404 |
| Blogs.ImageOr | backend/admin/controllers/BlogManagement/Blog.controller.js:39 | a blank or absent image gives the fallback; any other image is stored trimmed |
| Blogs.RawOr | backend/admin/controllers/BlogManagement/Blog.controller.js:34 | a truthy value is taken as sent, else the fallback |
| Blogs.NewBlog | backend/admin/controllers/BlogManagement/Blog.controller.js:30-41 | status as sent or "draft"; a blank image is null; absent tags are []; required texts are trimmed |
| Blogs.PatchedBlog | backend/admin/controllers/BlogManagement/Blog.controller.js:144-155 | every text keeps its old value when blank; tags are replaced whenever a list is sent, the empty list included |
| Blogs.EmptyPatchIsIdentity | backend/admin/controllers/BlogManagement/Blog.controller.js:144-155 | an update supplying nothing leaves the blog unchanged |
| Blogs.SaveKeepsConsistent | backend/admin/models/blog/blog.model.js:4-43 | saving an accepted record keeps every blog within the enums with its required fields non-empty |
| Blogs.BlogTable.Create | backend/admin/controllers/BlogManagement/Blog.controller.js:6-57 | 400 for a missing required field; 500 exactly when the schema rejects `NewBlog`; success inserts exactly `NewBlog` |
| Blogs.BlogTable.List | backend/admin/controllers/BlogManagement/Blog.controller.js:62-86 | returns exactly the blogs whose status and category equal the truthy query values; total is the count |
| Blogs.BlogTable.Get | backend/admin/controllers/BlogManagement/Blog.controller.js:91-115 | 200 with the stored blog exactly when the id exists, else 404 |
| Blogs.BlogTable.Update | backend/admin/controllers/BlogManagement/Blog.controller.js:120-169 | 404 for an unknown id; 500 exactly when the schema rejects `PatchedBlog`; success stores it |
| Blogs.BlogTable.Delete | backend/admin/controllers/BlogManagement/Blog.controller.js:174-199 | removes exactly that blog, else 404 |
| Suggestions.PatchedSuggestion | backend/admin/controllers/SuggestionManagement/Suggestion.controller.js:129-131 | each field keeps its old value when blank, else is stored trimmed |
| Suggestions.SaveKeepsConsistent | backend/admin/models/suggestion/suggestion.model.js:8-12 | saving an accepted record keeps emails unique |
| Suggestions.SuggestionTable.Create | backend/admin/controllers/SuggestionManagement/Suggestion.controller.js:6-49 | 400 for a missing field; 409 when the raw email is held; 500 whenever the schema rejects the trimmed record, including when only the trimmed email is held or a field is whitespace only; success otherwise, storing the trimmed fields |
| Suggestions.SuggestionTable.Get | backend/admin/controllers/SuggestionManagement/Suggestion.controller.js:75-100 | 200 with the stored suggestion exactly when the id exists, else 404 |
| Suggestions.SuggestionTable.Update | backend/admin/controllers/SuggestionManagement/Suggestion.controller.js:105-148 | 404 for an unknown id; 409 when a changed email is held; 500 exactly when the checks pass and the schema rejects `PatchedSuggestion`; success otherwise, storing it |
| Suggestions.SuggestionTable.Delete | backend/admin/controllers/SuggestionManagement/Suggestion.controller.js:153-178 | removes exactly that suggestion, else 404 |
| Session.SessionState.constructor | dashboard/src/redux/authSlice.js:3-8 | the initial session knows nothing and is not yet checked |
| Session.SessionState.Login | dashboard/src/redux/authSlice.js:15-27 | takes the payload's triple, marks the session checked, and stores exactly that triple under "authData" |
| Session.SessionState.Logout | dashboard/src/redux/authSlice.js:30-37 | clears the triple, marks the session checked, and removes "authData" only |
| Session.SessionState.LoadUserFromStorage | dashboard/src/redux/authSlice.js:40-51 | restores the stored triple when present, else leaves it unchanged; marks the session checked |
| Session.LoginThenReload | dashboard/src/redux/authSlice.js:23-26 | a reload after login restores the same token, user and role |
| Session.LogoutThenReload | dashboard/src/redux/authSlice.js:36-48 | a reload after logout restores nothing |
| ApiClient.BearerHeader | dashboard/src/api/api.jsx:15 | the header is "Bearer " followed by exactly the token |
| ApiClient.StoredToken | dashboard/src/api/api.jsx:13-14 | the stored token when "authData" exists, else none |
| ApiClient.RequestConfig.AttachToken | dashboard/src/api/api.jsx:12-16 | sets Authorization exactly when a truthy token is stored; no other header and not the URL changes |
| ApiClient.BearerRoundTrip | backend/admin/middleware/authMiddleware.js:10 | the middleware recovers exactly the token the interceptor attached, when the token holds no space |
| ApiClient.LoginTokenAdmits | backend/admin/controllers/Auth/Auth.controller.js:43-51 | the token a successful login returns, sent back in the Bearer header, admits the user who logged in with the role name the login reported, when verify inverts sign and the token holds no space |
| ApiClient.SpacedTokenIsCut | backend/admin/middleware/authMiddleware.js:10 | a token holding a space reaches the middleware cut at that space |
| ApiClient.SendAuthenticated | dashboard/src/api/api.jsx:11-19 | end to end, the middleware sees the stored token unchanged |
| Pages.PermissionLevel | dashboard/src/pages/BlogManagement/BlogManagement.jsx:48 | the page's level is the role's entry, or 0 without a role |
| Pages.PageLevelInRange | dashboard/src/pages/BookingManagement/BookingManagement.jsx:43 | with a valid role, every page's level lies in 0..4 |
| Pages.MenuIsOffered | dashboard/src/pages/BlogManagement/BlogManagement.jsx:367-397 | the menu holds View from 1 (on contacts always), Edit from 2, Delete from 3, and the toggle from 4 labelled by the row status; each item appears once |
| Pages.MenuMonotone | dashboard/src/pages/BookingManagement/ServiceManagement.jsx:257-260 | raising the level never removes a menu item |
| Pages.CreateImpliesEdit | dashboard/src/pages/SuggestionManagement/SuggestionManagement.jsx:155 | whoever sees the create button (level 2 or more) may also edit rows |
| Pages.BlogRowsOnlyApprove | dashboard/src/pages/BlogManagement/BlogManagement.jsx:390-391 | a stored blog has no status field, so at level 4 its menu offers Approve and never Disapprove |
| Pages.KeptExactly | dashboard/src/pages/BlogManagement/BlogManagement.jsx:54-58 | the filter body holds exactly the keys whose value is non-empty, with the values unchanged |
| Pages.BuildBody | dashboard/src/pages/ContactManagement/ContactManagement.jsx:49-52 | the loop builds exactly that body, and every key of the body is a filter key |
| Pages.PageBodyKeys | dashboard/src/pages/SuggestionManagement/SuggestionManagement.jsx:46-49 | each page's filter keys are distinct, and its body only names those keys |
| Pages.SubmittedTags | dashboard/src/pages/BlogManagement/BlogManagement.jsx:95 | an empty field gives []; otherwise one trimmed tag per comma-separated piece |
| Pages.PrefilledTags | dashboard/src/pages/BlogManagement/BlogManagement.jsx:176 | no tags prefill the empty string |
| Pages.TagsRoundTrip | dashboard/src/pages/BlogManagement/BlogManagement.jsx:95-176 | an edit that leaves the tags field untouched sends back the stored tags, when each is trimmed and comma-free and the list is not one empty tag |
| Pages.WebsiteLabel | dashboard/src/pages/ContactManagement/ContactManagement.jsx:140 | "DeepConnection" exactly for website 0, "Kiddicove" for any other value |
| Pages.StatusChoice | dashboard/src/pages/BookingManagement/ServiceManagement.jsx:371 | the select gives true exactly for "true" |
| Pages.StatusSelectRoundTrip | dashboard/src/pages/BookingManagement/ProgramManagement.jsx:371 | choosing the option a status renders as gives that status back |
| Pages.TogglePayload | dashboard/src/pages/BookingManagement/ServiceManagement.jsx:99-101 | the toggle sends the negated status and no name |
| Pages.ToggleService | dashboard/src/pages/BookingManagement/ServiceManagement.jsx:97-105 | the toggle, through the update handler, always succeeds, flips the status and keeps the name |
| Pages.ToggleProgram | dashboard/src/pages/BookingManagement/ProgramManagement.jsx:97-105 | the same for programs, through the program status rule |
| Pages.BookingPrefill | dashboard/src/pages/BookingManagement/BookingManagement.jsx:166-174 | a reference is prefilled exactly when it resolves, with the booking's id; the texts are copied |
| Pages.PrefillFetched | dashboard/src/pages/BookingManagement/BookingManagement.jsx:170-171 | prefilling a fetched booking keeps a reference exactly when the service or program still exists |
| Pages.PermissionLabel | dashboard/src/pages/RoleManagement/RoleMAnagement.jsx:92-98 | "None" exactly for levels outside 1..4, the levels 0 and undisplayable ones included |
| Pages.LabelRoundTrip | dashboard/src/pages/RoleManagement/RoleMAnagement.jsx:107-121 | the label names its level: reading it back gives the level, for every level in the enum |
| Pages.RolePrefill | dashboard/src/pages/RoleManagement/RoleMAnagement.jsx:130-136 | the edit prefill copies the name and exactly the four editable levels |
| Pages.SelectedLevelsAccepted | dashboard/src/pages/RoleManagement/RoleMAnagement.jsx:286-295 | levels chosen from the selects never draw the handlers' level error |
| Pages.PrefillResubmitIsIdentity | dashboard/src/pages/RoleManagement/RoleMAnagement.jsx:57-65 | submitting an unchanged edit form leaves a stored, trimmed role exactly as it was |

## Left out

- Persistence is left out: Mongoose, MongoDB, connections, routing, CORS and logging. Tables are in-memory maps.
- Unique indexes, required fields, enums and casts are checked at the point of `save()`. A violation gives the handler's own 500 reply, as its catch block does. Races between a pre-check and the save are not modelled, because nothing runs concurrently.
- Users.UserTable.Create: an omitted email or phone is taken to reach the database as null, because the connection sets no `ignoreUndefined`. So it finds every user lacking that field; for example, a phone-only create is refused with 409 while any user without an email exists. If the key were dropped from the filter instead, the sub-filter would find every user, and that reading is not modelled.
- `findOne({ email })` in login finds the one user holding that email. It relies on the sparse unique index (`EmailsUnique`).
- Regular-expression and `$text` filters are left out, because they are patterns MongoDB evaluates:
  - the name, email and phone filters of the user list;
  - the name and search filters of the service, program and child-issue lists;
  - the search of the blog list.
- The role filter of the user list is the predicate `roleMatches`.
- Programs.ProgramTable.Create: the `^name$` case-insensitive regular expression is modelled as ASCII case-insensitive equality. It differs for names holding regular-expression metacharacters, and for non-ASCII letters, which MongoDB's case-insensitive match folds and `Lower` does not.
- Programs.ProgramTable.Update: the same case-insensitive equality is used in place of the regular expression.
- The Mongoose version is not pinned, and the two defaults of `strictQuery` differ on lookups by an undeclared path. The as-written child-issue members take the setting as a parameter and are stated for both.
- The program model file is not part of this model. Program is taken to be a required name and a Boolean status, as in the service schema.
- The list handlers of bookings, contacts and suggestions are left out, as is the blog status-toggle route the dashboard calls (the server defines no such route).
- The dashboard sends its filter bodies with `POST …/all`. For blogs, services, programs, bookings and contact requests the server defines no such route (their lists are `GET /`), so the body `Pages.BuildBody` builds reaches a handler only on the suggestion page. The model covers how the body is built, not its delivery.
- Newest-first sorting, `createdAt`/`updatedAt` timestamps and the `select` projections of populated references are left out. Lists are returned as maps from id to record.
- bcrypt and JWT are parameters: a `hash` function, a `sign` function and a `verify` oracle. Expiry timing is inside `verify`, and any verification failure is `None`.
- The middleware assumes the verified claims carry an id.
- `Number()` coercion in `validatePermission` is left out: levels arrive as typed optional integers. The dashboard's role form sends numbers (`Number(e.target.value)`).
- `JSON.stringify` and `JSON.parse` around local storage are taken to be inverse. A stored entry is the value it serialises.
- Body fields are taken to be strings (or, where typed so, booleans and numbers). A non-string where the handler calls `.trim()` throws and gives the handler's 500. An object would become a MongoDB query operator, e.g. `{ "$ne": null }` as the login email. Neither is modelled.
- Common.CastNumber: only integers are modelled (website is an integer field). Strings that `Number()` reads as fractions, exponents, hexadecimal or `Infinity` ("1.5", "1e3", "0x10") are cast errors here, while Mongoose stores them. Contacts.WebsiteOf inherits this, so such a website gives 500 in the model and 201 in the source.
- Blog tags are an optional list of strings. Non-array values and their casts are not modelled.
- Users.UserTable.Create: the "password required" rule of the schema is not checked separately. The hash of a supplied non-empty password is taken to be non-empty.
- Pages.PermissionLevel: the `|| 0` fallback for an undefined or `NaN` entry is not modelled separately, because role records always hold all seven levels (the schema's defaults).
- React rendering, modals, toasts, debounce timers, menu positioning and event listeners are left out. Pages without gating logic are left out as well.

## Findings

| source | as written | input that shows it | evidently intended | confidence | as-written member | corrected member |
|---|---|---|---|---|---|---|
| backend/admin/controllers/ContactManagement/ChildIssue.controller.js:22-28 | the handler builds `new ChildIssue({ name, status })`, but the schema's required text path is `issue`, so strict mode drops `name` and every save fails validation (500); with `strictQuery` on (the Mongoose 6 default) a non-empty collection is answered 409 before the save | `POST { name: "Anxiety" }` on an empty collection | store the trimmed name in `issue` and answer 201 | not executed | ChildIssues.CreateAsWrittenNeverSucceeds | ChildIssues.ChildIssueTable.Create |
| backend/admin/controllers/ContactManagement/ChildIssue.controller.js:127-137 | the update compares with and assigns `existingIssue.name`, which is not a schema path, so a rename is never stored: with `strictQuery` off (the Mongoose 7 default) it is answered 200, and with it on the `name` lookup finds the issue itself and refuses every rename with 409 | `PATCH { name: "Grief" }` for an issue whose text is "Anxiety" | store the trimmed new name in `issue`, with the duplicate check | not executed | ChildIssues.RenameAsWrittenIsLost | ChildIssues.ChildIssueTable.Update |
