# Rescue-connect in Dafny

A model of the food-donation application Rescue-connect. Donors post
surplus food with a quantity, an expiry duration in hours, an optional
photo and a location. Receivers list the donations still available and
request one, which creates a Receive record that copies the donation's
foods. Accounts sign up and log in with a role; the login page then opens
the role's dashboard.

The model covers the server's schemas and routes and the client pages that
build their requests and read their answers:

- common.dfy (`Common`): options, ids, millisecond timestamps, HTTP answers, and JavaScript truthiness, the `or` operator on strings and `String()`
- text.dfy (`Text`): `trim`, `toLowerCase`, decimal rendering
- multipart.dfy (`Multipart`): `FormData` entries, and how the body parser shows a repeated text field (as an array)
- donation_schema.dfy (`DonationSchema`): food item, location, Donation and Receive, their enums, defaults and validation
- user_schema.dfy (`UserSchema`): the user schema, its setters, the pre-save password hook (`class UserDocument`)
- store.dfy (`Store`): the three collections as a `class Database` with sequences, plus newest-first ordering and the unique indexes
- donation_routes.dfy (`DonationRoutes`): `POST /add-donation`, `GET /user-donations/:userId`, `GET /all-donations`
- receive_routes.dfy (`ReceiveRoutes`): `GET /donations/pending`, `POST /recievers/donations/request/:donationId`
- login_routes.dfy (`LoginRoutes`): `POST /login`, `POST /signup` as written, and signup with an access level
- dashboard.dfy (`DonateDashboard`): `getCountdown`
- login_page.dfy (`LoginPage`): the login form, session keys in localStorage, and routing by role
- donate_form.dfy (`DonateForm`): the Donate page: draft food, food list, multipart body
- donation_page.dfy (`DonationPage`): the DonationPage form: food rows edited in place, location, multipart body
- signup_page.dfy (`SignupPage`): the signup form with nested volunteer fields, multipart body
- integration.dfy (`Integration`): what the server makes of the pages' requests, and the pages of its answers

How the model is built:
- Time is integer milliseconds, and `now` is a parameter.
- An expiry duration is a whole number of hours, so a food expires at `createdAt + expiryDuration * 3 600 000`.
- Document ids are natural numbers drawn from one counter in the store.
- Several foreign operations are parameters of the operations that use them: `JSON.parse`, `JSON.stringify`, bcrypt's hash and compare, the file names multer assigns and the preview URLs the browser creates.
- A route answers `Ok`, `Err` or `NoReply`. `NoReply` is for a rejected promise that the handler does not catch. Express 4 leaves such a request unanswered; the model assumes Express 4, because no package manifest fixes the version.
- Mongoose is assumed to be version 5 or later, for the same reason. From version 5 on, Mongoose runs a path's setters on query values, so the login lookup compares the trimmed username and the signup duplicate check compares the trimmed username and the trimmed, lower-cased email. Under Mongoose 4 the duplicate check of Server/Routes/LoginRoutes.js:34 would compare the email as sent, and the login lookup the username as sent.

Where the documented intent and the code disagree, the model follows the
code:
- The user schema's roles are `admin`, `volunteer` and `general`. The login page also offers `others` and `public`. No stored user can have those roles, so logging in with them always fails (`Integration.LoginNeverOpensAdminDashboard`).
- The login answer carries userId, username, email, mobile and role, but neither `accessLevel` nor `generalType`. The login page therefore always stores an empty `accessLevel` (`LoginPage.ServerLoginSession`).
- `accessLevel` is meant to be derived from the role at signup, but the signup route never sets it. It is a required field, so signup cannot store a user (see Findings).
- Donations are created at `/api/add-donation`. The DonationPage component posts to `/api/donations`, a path no router defines, so that page's answer is modelled only as a success flag and a message.
- The signup page posts multipart form data, but the server installs only JSON and URL-encoded body parsers. The signup route therefore sees an empty body and answers 400 (`Integration.SignupFromPage`).
- The pending listing of the receive routes does not filter by expiry; only `/all-donations` does.
- A request is not refused for a donation that is no longer Pending, despite the comment above that check.
- A per-food status is sent and defaulted by the route, but the food-item schema has no such field, so it is never stored.
- The signup route has no `try`/`catch`.
- The donation routes file imports a default export (Server/Routes/donationRoutes.js:3) that the donation model file does not provide. As ES modules, linking then fails and the server does not start. Module loading is not modelled: every DonationRoutes member models the routes as they would run with that import fixed, against the schemas as declared.

## Model

| member | source | states |
|---|---|---|
| DonationSchema.ParseUnit | Server/modals/donationModal.js:7 | a unit is accepted exactly when it is "kg" or "persons", and the accepted unit's name is the input |
| DonationSchema.UnitNameRoundTrip | Server/modals/donationModal.js:7 | every unit's name is accepted as that unit |
| DonationSchema.CastFood | Server/modals/donationModal.js:4-10 | a food validates exactly when its name is non-empty, quantity and expiryDuration are present and the unit is in the enum; the stored item has those values and the optional photo |
| DonationSchema.CastFoodIgnoresStatus | Server/modals/donationModal.js:4-10 | the food-item schema has no status: any per-food status leaves the stored item unchanged |
| DonationSchema.CastFoods | Server/modals/donationModal.js:24 | a food list validates exactly when every item does, and the stored list keeps length and order item by item |
| DonationSchema.CastLocation | Server/modals/donationModal.js:13-17 | a location validates exactly when lat and lng are present; a missing address becomes "" |
| DonationSchema.NewDonation | Server/modals/donationModal.js:22-33 | a new donation is Pending with acceptedBy null and carries the given owner, foods, location and creation time |
| DonationSchema.NewReceive | Server/modals/donationModal.js:38-51 | a new Receive is Pending, needsSupport is false, no volunteer is assigned, and it carries the given requester, foods, location and link |
| UserSchema.ParseRole | Server/modals/userModal.js:26-30 | a role is accepted exactly when it is admin, volunteer or general |
| UserSchema.ParseAccessLevel | Server/modals/userModal.js:32-36 | an access level is accepted exactly when it is super, support or general |
| UserSchema.ParseGeneralType | Server/modals/userModal.js:39-54 | a general type is accepted exactly when it is one of the ten listed names |
| UserSchema.NamesRoundTrip | Server/modals/userModal.js:26-54 | each role, access level and general type name is accepted as that value |
| Text.Trim | Server/modals/userModal.js:22-24 | the trimmed text is a slice of the input with only whitespace cut from either end, and it neither starts nor ends with whitespace |
| Text.TrimIdempotent | Server/modals/userModal.js:22 | trimming a trimmed text changes nothing |
| Text.Lower | Server/modals/userModal.js:23 | lower-casing keeps the length and maps each character on its own |
| UserSchema.NormaliseEmailIdempotent | Server/modals/userModal.js:23 | a stored email is its own trim and its own lower case, so assigning it again changes nothing |
| UserSchema.CastUser | Server/modals/userModal.js:20-75 | a user validates exactly when username, email, mobile and password are non-empty, role and accessLevel are present and in their enums, and generalType is null or in its enum; the stored user has those values |
| UserSchema.UserDocument.constructor | Server/modals/userModal.js:20-75 | a new document has trimmed username and mobile and a trimmed, lower-cased email; generalType, volunteerInfo and proofDocument are null, donates and receives are empty, and the password counts as modified |
| UserSchema.UserDocument.PreSave | Server/modals/userModal.js:78-87 | the password is replaced by its hash exactly when it was modified; otherwise the stored hash is left as it is |
| UserSchema.UserDocument.Stored | Server/modals/userModal.js:32-36 | a document without accessLevel never validates; a validated document keeps its username, email, mobile, password and role |
| UserSchema.SaveTwice | Server/modals/userModal.js:78-87 | saving twice hashes at most once |
| UserSchema.UserDocument.ComparePassword | Server/modals/userModal.js:90-92 | the answer is the hash library's comparison of the candidate with the stored hash, and the document is only read |
| Store.SortNewestFirst | Server/Routes/donationRoutes.js:84 | the result is ordered by createdAt, newest first, and is a permutation of the input |
| Store.FilterAppend | Server/Routes/donationRoutes.js:102-112 | filtering a concatenation filters each part and concatenates, so the elements kept keep their relative order |
| Store.FilterMembers | Server/Routes/donationRoutes.js:102-106 | the filter keeps exactly the elements that satisfy the callback, each as often as it occurs |
| Store.FindDonation | Server/Routes/recieveRoutes.js:28 | a donation is found exactly when one with that id is stored, and the one found is stored and has that id |
| Store.Database.InsertUser | Server/modals/userModal.js:22-23 | a user is added exactly when no stored user has its username or its email, and then it gets a fresh id; otherwise nothing changes |
| Store.Database.InsertDonation | Server/Routes/donationRoutes.js:66-72 | the new donation, with a fresh id, is appended and the store's invariant is kept |
| Store.Database.InsertReceive | Server/Routes/recieveRoutes.js:35-45 | the new Receive, with a fresh id, is appended and the store's invariant is kept |
| DonationRoutes.FoodValues | Server/Routes/donationRoutes.js:31-42 | a foods string is parsed, and a failed parse is the only failure; a value that is not an array becomes a one-element list |
| DonationRoutes.MissingField | Server/Routes/donationRoutes.js:26 | when the check passes, userId, foods and location are present and neither text is empty |
| DonationRoutes.LocationOf | Server/Routes/donationRoutes.js:45-47 | a location text is parsed and a failed parse is the only failure; an object is taken as it is |
| DonationRoutes.Normalise | Server/Routes/donationRoutes.js:50-57 | each food keeps name, quantity and unit, gets photo null, status as sent or "Pending", and expiryDuration as sent or 0; a null or undefined food throws |
| DonationRoutes.NormaliseAll | Server/Routes/donationRoutes.js:50-57 | the foods list keeps its length and order, item by item, and fails exactly when some item is null or undefined |
| DonationRoutes.WithPhotosAt | Server/Routes/donationRoutes.js:60-64 | the k-th upload becomes the k-th food's photo; uploads beyond the foods are dropped, foods beyond the uploads keep their photo, and the list keeps its length |
| DonationRoutes.WithPhotos | Server/Routes/donationRoutes.js:60-64 | attaching uploads keeps the number of foods (WithPhotosAt gives each food's photo) |
| DonationRoutes.UploadPath | Server/Routes/donationRoutes.js:62 | a photo is served from "uploads/" followed by exactly the stored file name |
| DonationRoutes.AttachPhotos | Server/Routes/donationRoutes.js:60-64 | the loop over the uploads produces exactly the list described by WithPhotos |
| DonationRoutes.Prepare | Server/Routes/donationRoutes.js:24-64 | 400 "All fields are required" exactly when userId, foods or location is missing; 400 "Invalid foods format" exactly when the foods string does not parse; an exception exactly when the location does not parse or a food is null; otherwise the normalised foods with the uploads attached |
| DonationRoutes.Saved | Server/Routes/donationRoutes.js:66-77 | 201 with a new Pending donation exactly when the prepared foods and location validate; 500 "Server error" for an exception or a failed validation |
| DonationRoutes.AddDonation | Server/Routes/donationRoutes.js:22-79 | the answer is the one Prepare and Saved describe, and a donation is appended to the store exactly when the answer is 201 |
| DonationRoutes.UserDonations | Server/Routes/donationRoutes.js:81-90 | the listing holds exactly that owner's donations, as a permutation of them, newest first |
| DonationRoutes.FreshFoods | Server/Routes/donationRoutes.js:102-106 | a food is kept exactly when createdAt plus its expiry hours lies strictly after now |
| DonationRoutes.FreshFoodsAppend | Server/Routes/donationRoutes.js:102-106 | the available foods of a concatenation are those of each part, in that order, so the foods kept keep their relative order |
| DonationRoutes.WithFreshFoods | Server/Routes/donationRoutes.js:100-110 | a listed donation differs from the stored one only in its foods, which are exactly its available foods |
| DonationRoutes.ListedAs | Server/Routes/donationRoutes.js:100-110 | one donation contributes nothing, or itself with its available foods, and it contributes exactly when some food is available |
| DonationRoutes.KeepAvailable | Server/Routes/donationRoutes.js:100-112 | the listing is no longer than its input and every listed donation has a food |
| DonationRoutes.AllDonations | Server/Routes/donationRoutes.js:92-119 | `GET /all-donations` lists at most the stored donations, each with at least one food; AllDonationsListing and AllDonationsSound characterise it |
| DonationRoutes.AllDonationsInStoreOrder | Server/Routes/donationRoutes.js:97-112 | the listing follows store order: listing the store is listing any prefix followed by listing the rest |
| DonationRoutes.KeepAvailableAppend | Server/Routes/donationRoutes.js:100-112 | the listing works donation by donation, so surviving donations keep their relative order |
| DonationRoutes.KeepAvailableOne | Server/Routes/donationRoutes.js:107-110 | one donation is listed with its unexpired foods when it has any, and is dropped otherwise |
| DonationRoutes.KeepAvailableSound | Server/Routes/donationRoutes.js:100-112 | every listed donation is an input donation with exactly its unexpired foods, at least one of them |
| DonationRoutes.KeepAvailableComplete | Server/Routes/donationRoutes.js:100-112 | every input donation with an unexpired food is listed |
| DonationRoutes.AllDonationsListing | Server/Routes/donationRoutes.js:92-119 | a stored donation is listed exactly when it is Pending and has a food that has not expired, and it is listed with only those foods |
| DonationRoutes.AllDonationsSound | Server/Routes/donationRoutes.js:92-119 | everything listed is a stored Pending donation with its other fields unchanged and only unexpired foods |
| ReceiveRoutes.PendingDonations | Server/Routes/recieveRoutes.js:7-16 | the listing holds exactly the Pending donations, as a permutation of them, newest first |
| ReceiveRoutes.PendingShowsExpired | Server/Routes/recieveRoutes.js:9 | a Pending donation whose foods have all expired is still in the pending listing, while the available listing leaves it out |
| ReceiveRoutes.Request | Server/Routes/recieveRoutes.js:21-50 | 400 without a receiverId, then 404 for an unknown donation, then 400 for a donation without foods; otherwise 200 with a Pending Receive that copies the donation's foods and location and links to it |
| ReceiveRoutes.RequestIgnoresStatusAndExpiry | Server/Routes/recieveRoutes.js:31-32 | any stored donation with a food can be requested, whatever its status and however old its foods are |
| ReceiveRoutes.RequestDonation | Server/Routes/recieveRoutes.js:21-50 | the answer is the one Request describes; a Receive with a fresh id is appended exactly on 200; donations are never changed |
| ReceiveRoutes.RequestTwice | Server/Routes/recieveRoutes.js:21-50 | two requests for the same donation both succeed and add two distinct Receives linked to it |
| LoginRoutes.ReplyFor | Server/Routes/LoginRoutes.js:18-25 | the answer about a user carries its id, username, email, mobile and role |
| LoginRoutes.LoginMissing | Server/Routes/LoginRoutes.js:9-10 | when the check passes, username, password and role are present and non-empty |
| LoginRoutes.Selects | Server/Routes/LoginRoutes.js:12 | the filter compares the stored username with the trimmed query value and the role name as sent; a selected user's role is the one the role text names |
| LoginRoutes.FindUser | Server/Routes/LoginRoutes.js:12 | a user is found exactly when one has the trimmed username and the role, and the user found has them |
| LoginRoutes.LoginTrimsUsername | Server/Routes/LoginRoutes.js:12 | logging in with a username padded by spaces is logging in with its trimmed form |
| LoginRoutes.Login | Server/Routes/LoginRoutes.js:7-26 | 400 exactly when a field is missing; otherwise 200 exactly when a user with that username and role has a hash the password matches, with that user's reply; every other failure is the same 401 "Invalid credentials" |
| LoginRoutes.WrongRoleRefused | Server/Routes/LoginRoutes.js:12-13 | the right username under another role is refused with 401, whatever the password |
| LoginRoutes.LoginAfterInsert | Server/Routes/LoginRoutes.js:12-25 | a user just added can log in with any name that trims to its username, its role and a matching password, and gets its own reply |
| LoginRoutes.SignupMissing | Server/Routes/LoginRoutes.js:31-32 | when the check passes, all five fields are present and non-empty |
| LoginRoutes.Duplicate | Server/Routes/LoginRoutes.js:34 | a signup is a duplicate exactly when a stored user has the trimmed username or the trimmed, lower-cased email |
| LoginRoutes.DuplicateNormalises | Server/Routes/LoginRoutes.js:34 | submitting the normalised username and email gives the same duplicate verdict |
| LoginRoutes.EmailVariantIsDuplicate | Server/Routes/LoginRoutes.js:34-36 | an email that differs from a stored one only in case or surrounding spaces is a duplicate |
| LoginRoutes.Save | Server/Routes/LoginRoutes.js:39 | a document that fails validation gets no answer and adds nothing; otherwise the hook runs and the user is added with 201 exactly when its username and email are free |
| LoginRoutes.Signup | Server/Routes/LoginRoutes.js:29-49 | 400 when a field is missing, 409 when the normalised username or email is taken; otherwise no answer, and no user is ever added |
| LoginRoutes.AccessLevelFor | Server/modals/userModal.js:32-36 | admin, volunteer and general are given super, support and general, one each |
| LoginRoutes.SignupWithAccessLevel | Server/Routes/LoginRoutes.js:29-49 | same 400 and 409; otherwise one user is added with 201 exactly when the schema and the unique indexes accept it, with a trimmed username and mobile, a normalised email, the role's access level and the hashed password |
| DonateDashboard.GetCountdown | Rescue-connect/src/DonateDashboard.jsx:32-44 | Expired exactly when the expiry is not after now; otherwise the hours are the whole hours left, the minutes are below 60, and together they are the whole minutes left |
| DonateDashboard.HoursFromMinutes | Rescue-connect/src/DonateDashboard.jsx:40-41 | whole hours times 60 plus the leftover minutes equals the whole minutes |
| DonateDashboard.CountdownStep | Rescue-connect/src/DonateDashboard.jsx:37-41 | one minute later the countdown shows exactly one minute less |
| DonateDashboard.CountdownText | Rescue-connect/src/DonateDashboard.jsx:38-43 | the text is "Expired" exactly for an expired countdown |
| DonateDashboard.CountdownTextInjective | Rescue-connect/src/DonateDashboard.jsx:43 | distinct countdowns are shown as distinct texts |
| LoginPage.Changed | Rescue-connect/src/login.jsx:13-16 | the named input takes the value and the other inputs keep theirs |
| LoginPage.ChangesCommute | Rescue-connect/src/login.jsx:13-16 | the last change to an input wins, and changes to different inputs commute |
| LoginPage.BodyOf | Rescue-connect/src/login.jsx:26 | each field of the login body counts as present exactly when the form's field is non-empty |
| LoginPage.DataOf | Server/Routes/LoginRoutes.js:18-25 | the login answer carries the username and the role's name, and neither accessLevel nor generalType |
| LoginPage.SessionWrites | Rescue-connect/src/login.jsx:33-39 | userId, username and role are written as String() makes them, accessLevel is written or "" when falsy, generalType is written only when truthy, and no other key changes |
| LoginPage.LocalStorage.SetItem | Rescue-connect/src/login.jsx:33-39 | one key is set to the value and every other key is kept |
| LoginPage.DashboardFor | Rescue-connect/src/login.jsx:44-55 | volunteer, others and public each open their own dashboard, and every other role opens /dashboard |
| LoginPage.StoredRoleDashboards | Rescue-connect/src/login.jsx:44-55 | a volunteer opens the volunteer dashboard; admins and general users open /dashboard |
| LoginPage.LoginScreen.constructor | Rescue-connect/src/login.jsx:5-10 | the form starts empty with role "general" |
| LoginPage.LoginScreen.HandleChange | Rescue-connect/src/login.jsx:13-16 | only the named input of the form changes |
| LoginPage.LoginScreen.OnResponse | Rescue-connect/src/login.jsx:31-58 | on success the session keys are written and the role's dashboard is opened; on failure nothing is stored and the message is the server's or "Login failed ❌" |
| LoginPage.LoginScreen.OnNetworkError | Rescue-connect/src/login.jsx:59-61 | the message becomes "Something went wrong" and nothing else changes |
| LoginPage.ServerLoginSession | Rescue-connect/src/login.jsx:36-39 | after a login through the server, accessLevel is stored as "" and generalType is never written |
| DonateForm.DraftChanged | Rescue-connect/src/Donate.jsx:44-47 | the named input of the draft takes the value; the other inputs, the photo and the status are kept |
| DonateForm.FoodEntriesContent | Rescue-connect/src/Donate.jsx:114-126 | the body holds one "foods" text per food, in order, and under "photos" exactly the photos of the foods that have one, in order |
| Multipart.TextsUnderSound | Server/Routes/donationRoutes.js:20-24 | every text the body parser gathers under a key was appended under that key |
| Multipart.FilesUnderSound | Server/Routes/donationRoutes.js:20-22 | every file `upload.array("photos")` gathers was appended under "photos" |
| Multipart.TextsUnderAppend | Server/Routes/donationRoutes.js:20-24 | the texts under a key of a concatenated body are those of each part, in order |
| Multipart.FilesUnderAppend | Server/Routes/donationRoutes.js:20-22 | the files under a key of a concatenated body are those of each part, in order |
| DonateForm.DonateState.constructor | Rescue-connect/src/Donate.jsx:7-20 | no foods, a blank draft with unit "kg" and status "Pending", and the form closed |
| DonateForm.DonateState.HandleChange | Rescue-connect/src/Donate.jsx:44-47 | only the named input of the draft changes |
| DonateForm.DonateState.HandleFileChange | Rescue-connect/src/Donate.jsx:49-54 | a chosen file becomes the draft's photo with its preview; no file changes nothing |
| DonateForm.DonateState.AddFood | Rescue-connect/src/Donate.jsx:86-102 | a draft without a name, quantity or expiry is refused and nothing changes; otherwise it is appended, the draft is reset and the form closed |
| DonateForm.DonateState.Submit | Rescue-connect/src/Donate.jsx:104-126 | nothing is sent exactly when the list is empty; otherwise the body built in the loop is userId, location, then each food's entries in order |
| DonateForm.DonateState.OnSubmitted | Rescue-connect/src/Donate.jsx:134-139 | a success clears the food list and a failure keeps it |
| DonationPage.FoodChanged | Rescue-connect/src/components/DonatePage/DonationPage.jsx:26-30 | only the named field of the row changes; the photo and the preview are kept |
| DonationPage.RemoveAt | Rescue-connect/src/components/DonatePage/DonationPage.jsx:62 | exactly the row at the index goes, and the rows before and after keep their order |
| DonationPage.LocationChanged | Rescue-connect/src/components/DonatePage/DonationPage.jsx:63 | only the named location field changes |
| DonationPage.PhotoKeyInjective | Rescue-connect/src/components/DonatePage/DonationPage.jsx:75 | different rows have different photo keys |
| DonationPage.PhotoEntriesAt | Rescue-connect/src/components/DonatePage/DonationPage.jsx:75 | under a row's photo key there is that row's photo when it has one, and nothing otherwise |
| DonationPage.PageEntriesContent | Rescue-connect/src/components/DonatePage/DonationPage.jsx:65-75 | the body holds a single "foods" text with every row in order, and each row's photo only under that row's key |
| DonationPage.DonationPageState.constructor | Rescue-connect/src/components/DonatePage/DonationPage.jsx:8-13 | exactly one blank row, an empty location and no message |
| DonationPage.DonationPageState.HandleFoodChange | Rescue-connect/src/components/DonatePage/DonationPage.jsx:26-30 | only that field of that row changes; the list keeps its length and the other rows |
| DonationPage.DonationPageState.HandleFileChange | Rescue-connect/src/components/DonatePage/DonationPage.jsx:32-38 | no file changes nothing; a file becomes that row's photo with its preview |
| DonationPage.DonationPageState.AddFood | Rescue-connect/src/components/DonatePage/DonationPage.jsx:61 | one blank row is appended |
| DonationPage.DonationPageState.RemoveFood | Rescue-connect/src/components/DonatePage/DonationPage.jsx:62 | exactly the row at the index is removed, and the list never becomes empty |
| DonationPage.DonationPageState.HandleLocationChange | Rescue-connect/src/components/DonatePage/DonationPage.jsx:63 | only the named location field changes |
| DonationPage.DonationPageState.Submit | Rescue-connect/src/components/DonatePage/DonationPage.jsx:65-75 | the body built in the loop is the text fields followed by each row's photo under its key, row by row |
| DonationPage.DonationPageState.OnSubmitted | Rescue-connect/src/components/DonatePage/DonationPage.jsx:77-85 | a success resets to one blank row and an empty location; a failure keeps the form and shows the server's message or "Error posting donation ❌" |
| SignupPage.SignupChanged | Rescue-connect/src/signup.jsx:21-32 | a volunteer input changes only that field of volunteerInfo; any other input changes only its own field |
| SignupPage.KeyEntriesContent | Rescue-connect/src/signup.jsx:42-48 | each key is appended exactly once, with its own text, and no other key appears |
| SignupPage.SignupEntriesContent | Rescue-connect/src/signup.jsx:41-51 | every form key is appended exactly once, with volunteerInfo as JSON, and proofDocument once exactly when a file was chosen |
| SignupPage.SignupScreen.constructor | Rescue-connect/src/signup.jsx:4-19 | every field starts empty except role "volunteer", and no file is chosen |
| SignupPage.SignupScreen.HandleChange | Rescue-connect/src/signup.jsx:21-32 | the form changes as SignupChanged describes |
| SignupPage.SignupScreen.HandleFileChange | Rescue-connect/src/signup.jsx:34-36 | the chosen file, or none, replaces the previous one |
| SignupPage.SignupScreen.Submit | Rescue-connect/src/signup.jsx:38-51 | the body built key by key is the one SignupEntries describes |
| SignupPage.SignupScreen.OnResponse | Rescue-connect/src/signup.jsx:58-63 | the message is "Signup successful ✅", or the server's message, or "Signup failed ❌" |
| SignupPage.SignupScreen.OnNetworkError | Rescue-connect/src/signup.jsx:64-67 | the message becomes "Something went wrong" and the form and the file are unchanged |
| Integration.CountdownAgreesWithListing | Rescue-connect/src/DonateDashboard.jsx:37-38 | the dashboard shows Expired exactly when the available listing drops the food |
| Integration.ListedThenExpired | Server/Routes/donationRoutes.js:92-119 | a donation with one two-hour food is listed when it is created, and three hours later nothing listed comes from it |
| Integration.BodyFromEntries | Server/Routes/donationRoutes.js:24-42 | a "foods" field appended more than once reaches the route as an array with one primitive per text |
| Integration.RepeatedFoodsNeverSaved | Server/Routes/donationRoutes.js:31-42 | a Donate page submission with two or more foods is never saved, whatever its photos, ids and location |
| Integration.PhotoShift | Server/Routes/donationRoutes.js:60-64 | when the first food has no photo and the second has one, the server gives the second food's photo to the first. The shift shows only in this attach step: by Integration.RepeatedFoodsNeverSaved, a Donate-page submission with two or more foods is never stored |
| Integration.LoginNeverOpensAdminDashboard | Rescue-connect/src/login.jsx:44-55 | after a login through the server only the volunteer dashboard or /dashboard is opened |
| Integration.SignupFromPage | Rescue-connect/src/signup.jsx:53-56 | a signup from the page reaches the signup route as written with an empty body, so it is answered 400 and adds no user |
| Integration.SignupThenLogin | Server/Routes/LoginRoutes.js:12-25 | after a successful signup, logging in with the same username, password and role succeeds with the same reply |

## Left out

- Mongoose's casting of text to numbers and to ObjectIds is left out. Quantities, expiry durations, coordinates and ids arrive as integers or as missing. A userId text that cannot be cast is treated as missing, whereas the source would answer 500.
- Floating-point quantities and coordinates are left out; they are integers here.
- DonateDashboard.GetCountdown: computes with exact integer division. The source's floating-point divisions, and `Number()` on a non-numeric expiry, are not modelled.
- `Date.setHours` works in local time, so a daylight-saving change moves the expiry by an hour; here the expiry is exactly `expiryDuration` times 3 600 000 ms later. Fractional hours are not modelled.
- Text.Trim: strips ASCII whitespace and a few Unicode spaces, not every character JavaScript's `trim` strips.
- Text.Lower: lower-cases ASCII letters only.
- bcrypt is a pair of parameters: `hash` and `matches`. Salting and its randomness are not modelled.
- Multer's disk storage and generated file names are not modelled: uploads are given as file names in upload order.
- `JSON.parse` and `JSON.stringify` are parameters. A location text that parses to `null` or to a non-object is not modelled.
- Database failures, and the 500 answers they cause in every route, are not modelled. That includes the receive route's "Server error ❌", since a copied Receive always validates.
- Store.SortNewestFirst: the order of donations with equal creation times is left open, as MongoDB leaves it.
- Browser and UI code is left out: rendering, camera capture (`openCamera`, `captureImage`), geolocation, `alert`, `fetch`/`axios`, and the Donate page's redirect to /login when no session is stored. Pages receive a server answer as a success flag and a body.
- DonationPage.DonationPageState.HandleFoodChange and DonationPage.DonationPageState.HandleFileChange: the source shallow-copies the list and then writes into the shared row object (the photo and preview, for a file). The model updates a row by value, so the aliasing of the old state's row is not captured.
- The Express version is assumed to be 4. Under Express 5 an uncaught rejection is answered 500 instead of `NoReply`. Under Express 5, with body-parser 2, the signup page's multipart post also leaves `req.body` undefined, so destructuring it throws and the answer is 500, not the 400 of Integration.SignupFromPage. Under Express 4 on Node 15 or later an unhandled rejection ends the server process, so a signup reaching `user.save()` also takes the server down; the model shows only the missing answer.
- Server start-up, CORS, static file serving and the database connection are left out.
- Concurrency is left out: concurrent requests are sequential calls on the store.
- LoginRoutes.Login, LoginRoutes.Selects, LoginRoutes.Duplicate: only string or missing body values are modelled, which is what the login page sends. `express.json()` passes any JSON value on to `findOne`. Numbers and booleans are cast to text there. Objects act as query operators: `{"$ne": null}` as the username selects the first user with the role, whatever the name, and the same as the signup email is a duplicate as soon as any user exists. A non-string password makes bcrypt's compare reject, so that login request gets no answer. None of these cases is modelled.

## Findings

| source | as written | input that shows it | evidently intended | confidence | as-written member | corrected member |
|---|---|---|---|---|---|---|
| Server/Routes/LoginRoutes.js:38 | the new user is built from username, email, mobile, role and password only, but accessLevel is required by the schema (Server/modals/userModal.js:32-36), so every save fails validation; with no catch the request gets no answer and no account is ever created | any complete body with a free username and email, e.g. username "ann", email "a@b", mobile "1", role "volunteer", password "p" | accessLevel set from the role at creation, so that a valid signup stores the user and answers 201; mapping admin to super, volunteer to support and general to general is this model's choice | high; not executed | LoginRoutes.Signup | LoginRoutes.SignupWithAccessLevel |
