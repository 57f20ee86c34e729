# CosmicVault in Dafny

CosmicVault is a stargazing catalogue. Users sign up, log observations
of celestial objects (stars, exoplanets, galaxies and more), browse
constellations, and manage the catalogue from an admin panel. An Express
backend over a SQL Server database serves the data. A React front end reads it.

This project models two layers:

- **The backend handlers.** These are the celestial-object, user,
  observation-log, constellation and object-type controllers.
  - They run over `Store.Database`, a class whose seven tables are map fields.
  - The SQL model functions become methods of that class.
  - The invariant `Valid()` says three things, and every method keeps it:
    - every key was issued by its identity counter;
    - every star or exoplanet detail row belongs to an existing object;
    - usernames are unique.
  - Deleting an object removes its detail rows with it.
  - Each handler method states its HTTP answer and the new state of the
    tables it may change. It does this for the validation failure, the
    missing row, the uniqueness conflict and the success case.
- **The front-end pages.**
  - The list pages of objects, observation logs and constellations:
    their filters, their delete-then-drop-from-the-list updates, the
    log card toggle and the constellation fallback.
  - The admin panel: per-type counts, per-user observation counts,
    distinct tracked objects, recent activity, deletes, and add forms that
    trim their input.
  - The sign-up form: the order of its client-side checks and the user it
    hands to the app.
  - Filters are pure functions, specified as order-preserving filters of
    the fetched list, with membership, multiplicity and subsequence.
  - Page state is a class per component with a method per handler.

A value that JavaScript may leave undefined or null is an `Option`.
`x || d` is written out through the truthiness predicates of module
`Js`, in which `""` and `0` count as false. An awaited call is an input:
a `Result` when its value is used, an `Outcome` when it is not. The same
goes for the `confirm` dialog's answer and today's date.

Three behaviours of the code are modelled as written:

- **The object list's magnitude filter.** It reads `Magnitude`, but the
  backend sends `ApparentMagnitude`, so every backend row has magnitude
  0.
  - `MagnitudeRangeIgnoredForApiRows`: the range has no effect while it
    contains 0.
  - `RangeWithoutZeroHidesApiRows`: once the range excludes 0, every row
    is hidden.
- **The constellation handlers' arguments.** They pass `rightAscension`
  where the SQL model expects the abbreviation. The declination and the
  form's abbreviation are never stored.
- **The log date filter.** It compares full timestamps with bare dates
  as strings. A log from the end day falls outside the window.

## Model

| member | source | states |
|---|---|---|
| Text.ToLowerIdempotent | src/components/CelestialObjects.tsx:58-63 | lower-casing twice equals lower-casing once |
| Text.IncludesIff | src/components/CelestialObjects.tsx:62-63 | `includes` holds exactly when the term occurs at some offset inside the bounds |
| Text.IncludesEmpty | src/components/CelestialObjects.tsx:62-63 | every string includes the empty string |
| Text.LexLeReflexive | src/components/ObservationLogs.tsx:59-60 | the string order used by the date filter is reflexive |
| Text.LexLeTotal | src/components/ObservationLogs.tsx:59-60 | any two dates are comparable |
| Text.LexLeTransitive | src/components/ObservationLogs.tsx:59-60 | the string order is transitive |
| Text.LexLeAntisymmetric | src/components/ObservationLogs.tsx:59-60 | two strings that are each at most the other are equal |
| Text.LexLePrefix | src/components/ObservationLogs.tsx:59-60 | a string is at most every extension of it |
| Text.LexLeProperExtension | src/components/ObservationLogs.tsx:59-60 | a proper extension is never at most its prefix |
| Text.TrimEmptyIff | src/components/AdminPanel.tsx:115 | `trim()` yields "" exactly when the string is all whitespace |
| Seqs.FilterIndicesEmbed | src/components/CelestialObjects.tsx:57 | the kept positions are strictly increasing and point at kept elements |
| Seqs.FilterMembership | src/components/CelestialObjects.tsx:57 | `filter` keeps an element exactly when it is in the list and passes the test |
| Seqs.FilterMultiplicity | src/components/CelestialObjects.tsx:57 | `filter` keeps every copy of a passing element and none of a failing one |
| Seqs.FilterIsSubsequence | src/components/CelestialObjects.tsx:57 | `filter` keeps the original order |
| Seqs.FilterAll | src/components/CelestialObjects.tsx:57 | a test every element passes leaves the list unchanged |
| Seqs.FilterNone | src/components/CelestialObjects.tsx:57 | a test no element passes leaves nothing |
| Seqs.FilterCongruent | src/components/CelestialObjects.tsx:57 | two tests that agree on the list filter it alike |
| Seqs.FilterFilter | src/components/CelestialObjects.tsx:57 | filtering twice is filtering once by the conjunction |
| Seqs.FilterAppend | src/components/CelestialObjects.tsx:57 | filtering distributes over concatenation |
| Seqs.RemoveKey | src/components/CelestialObjects.tsx:51 | dropping a key keeps exactly the other rows, each copy of them, in order |
| Seqs.PrefixOfSubsequence | src/components/AdminPanel.tsx:599-601 | a prefix of a subsequence is a subsequence |
| Seqs.DistinctBound | src/components/AdminPanel.tsx:592 | a Set built from a list is no larger than the list |
| Seqs.FilterCountIsMultiplicity | src/components/AdminPanel.tsx:45 | counting the rows whose field has a value is the multiplicity of that value among the fields |
| Store.Database.CreateCelestialObject | backend/src/models/celestialObjectModel.js:77-92 | inserts the base row under a fresh id and returns that id |
| Store.Database.UpdateCelestialObject | backend/src/models/celestialObjectModel.js:127-143 | replaces the row of an existing id (1 row affected); otherwise changes nothing (0) |
| Store.Database.DeleteCelestialObject | backend/src/models/celestialObjectModel.js:178-185 | removes the object and its detail rows; 1 row affected if it existed, else 0 |
| Store.Database.GetCelestialObjectById | backend/src/models/celestialObjectModel.js:39-74 | found exactly when the id is present; the base row, the joined type name (absent when the type id is unknown), the joined constellation name (absent when unset or unknown), and its star and exoplanet detail rows, each present exactly when that detail row exists |
| Store.Database.CreateStarDetails | backend/src/models/celestialObjectModel.js:95-108 | adds the star details keyed by the object's id and returns that id |
| Store.Database.UpdateStarDetails | backend/src/models/celestialObjectModel.js:146-159 | replaces existing star details (1) or changes nothing (0) |
| Store.Database.GetStarDetailsByObjectId | backend/src/models/celestialObjectModel.js:188-195 | found exactly when the object has star details, and returns them |
| Store.Database.CreateExoplanetDetails | backend/src/models/celestialObjectModel.js:111-124 | adds the exoplanet details keyed by the object's id and returns that id |
| Store.Database.UpdateExoplanetDetails | backend/src/models/celestialObjectModel.js:162-175 | replaces existing exoplanet details (1) or changes nothing (0) |
| Store.Database.GetExoplanetDetailsByObjectId | backend/src/models/celestialObjectModel.js:198-205 | found exactly when the object has exoplanet details, and returns them |
| Store.Database.GetObjectTypeById | backend/src/models/objectTypeModel.js:13-20 | found exactly when the type id is present, and returns that row |
| Store.Database.CreateObjectType | backend/src/models/objectTypeModel.js:23-33 | inserts the type under a fresh id |
| Store.Database.DeleteObjectType | backend/src/models/objectTypeModel.js:36-43 | removes the type; 1 if it existed, else 0 |
| Store.Database.GetUserById | backend/src/models/userModel.js:13-20 | found exactly when the user id is present, and returns that row |
| Store.Database.GetUserByUsername | backend/src/models/userModel.js:23-30 | returns the id of the user with that username, or nothing when no user has it |
| Store.Database.CreateUser | backend/src/models/userModel.js:33-44 | refused, changing nothing, exactly when the username is taken; otherwise inserts under a fresh id |
| Store.Database.UpdateUser | backend/src/models/userModel.js:47-59 | refused exactly when another user has the new username; otherwise replaces an existing row (1) or changes nothing (0) |
| Store.Database.DeleteUser | backend/src/models/userModel.js:62-69 | removes the user; 1 if it existed, else 0 |
| Store.Database.GetObservationLogById | backend/src/models/observationLogModel.js:52-74 | found exactly when the log id is present; the log with the joined username and object name, each absent exactly when the referenced user or object is missing |
| Store.Database.CreateObservationLog | backend/src/models/observationLogModel.js:77-91 | inserts the log under a fresh id |
| Store.Database.UpdateObservationLog | backend/src/models/observationLogModel.js:94-109 | replaces an existing log (1) or changes nothing (0) |
| Store.Database.DeleteObservationLog | backend/src/models/observationLogModel.js:112-119 | removes the log; 1 if it existed, else 0 |
| Store.Database.GetConstellationById | backend/src/models/constellationModel.js:13-20 | found exactly when the constellation id is present, and returns that row |
| Store.Database.CreateConstellation | backend/src/models/constellationModel.js:23-34 | inserts (name, description, abbreviation) under a fresh id |
| Store.Database.UpdateConstellation | backend/src/models/constellationModel.js:37-49 | replaces an existing row (1) or changes nothing (0) |
| Store.Database.DeleteConstellation | backend/src/models/constellationModel.js:52-59 | removes the constellation; 1 if it existed, else 0 |
| CelestialObjectController.BaseRow | backend/src/controllers/celestialObjectController.js:72-80 | name and type id as given; constellation, right ascension, declination, magnitude and distance as given when truthy, otherwise null or "" |
| CelestialObjectController.DetailPlanFor | backend/src/controllers/celestialObjectController.js:86-109 | star details are written exactly when given and the type is named "Star"; exoplanet details exactly when given and the type is named "Exoplanet"; an unknown type writes neither |
| CelestialObjectController.GetCelestialObjectById | backend/src/controllers/celestialObjectController.js:23-47 | 404 "Celestial object not found" for a missing id; otherwise 200 with exactly the joined view the store lookup returns: the object, its type and constellation names and its detail rows |
| CelestialObjectController.CreateCelestialObject | backend/src/controllers/celestialObjectController.js:50-129 | 400 and no change without a name and type; otherwise a fresh base row, the detail row its type calls for, and 201 with the new ids |
| CelestialObjectController.UpdateCelestialObject | backend/src/controllers/celestialObjectController.js:132-235 | 400 without a name and type; 404 and no change for a missing id; otherwise the base row is replaced, the matching detail row is updated or created, and the answer is 200 |
| CelestialObjectController.DeleteCelestialObject | backend/src/controllers/celestialObjectController.js:238-272 | 400 and no change while an exoplanet names the object as host star; 404 for a missing id; otherwise 200, with the object and its details removed |
| CelestialObjectController.DeleteCelestialObjectAsWritten | backend/src/controllers/celestialObjectController.js:238-272 | the call to a function the model module does not export throws, so every delete answers 500 and never succeeds |
| UserController.GetUserById | backend/src/controllers/userController.js:22-44 | 404 "User not found" for a missing id; otherwise 200 with the whole row |
| UserController.CreateUser | backend/src/controllers/userController.js:47-71 | 400 without all three fields; 500 and no change for a taken username; otherwise 201 with the new id, username and email |
| UserController.UpdateUser | backend/src/controllers/userController.js:74-106 | 400; 404 for a missing id; 500 when another user has the username; otherwise the row is replaced and the answer is 200 |
| UserController.DeleteUser | backend/src/controllers/userController.js:109-132 | 404 for a missing id; otherwise 200 and the row is removed |
| UserController.LoginDecision | backend/src/controllers/userController.js:135-170 | 400 without username and password; success exactly when a user was found and the password matches; any other case is 401 with the same message |
| UserController.UnknownUserLooksLikeWrongPassword | backend/src/controllers/userController.js:147-161 | an unknown username and a wrong password get an identical answer |
| UserController.LoginUser | backend/src/controllers/userController.js:135-179 | login succeeds exactly when some user has that username and password, and then answers with that user's id, username and email |
| ObservationLogController.LogRow | backend/src/controllers/observationLogController.js:60-67 | the three required fields as given; notes, equipment and seeing condition as given when truthy, otherwise "" |
| ObservationLogController.GetObservationLogById | backend/src/controllers/observationLogController.js:22-46 | 404 "Observation log not found" for a missing id; otherwise 200 with the joined log |
| ObservationLogController.CreateObservationLog | backend/src/controllers/observationLogController.js:49-81 | 400 and no change without user, object and date; otherwise the row is added under a fresh id and the answer is 201 |
| ObservationLogController.UpdateObservationLog | backend/src/controllers/observationLogController.js:84-125 | 400; 404 for a missing id; otherwise the row is replaced and the answer is 200 |
| ObservationLogController.DeleteObservationLog | backend/src/controllers/observationLogController.js:128-151 | 404 for a missing id; otherwise 200 and the row is removed |
| ConstellationController.ConstellationRow | backend/src/controllers/constellationController.js:60-65 | stores the name; the description or ""; and, in the Abbreviation column, the right ascension or "" |
| ConstellationController.DeclinationAndAbbreviationNeverStored | backend/src/models/constellationModel.js:23-49 | requests that differ only in declination and abbreviation store the same row |
| ConstellationController.GetConstellationById | backend/src/controllers/constellationController.js:22-46 | 404 "Constellation not found" for a missing id; otherwise 200 with the row |
| ConstellationController.CreateConstellation | backend/src/controllers/constellationController.js:49-85 | 400 and no change without a name; otherwise a new row under a fresh id, and 201 echoing the request |
| ConstellationController.UpdateConstellation | backend/src/controllers/constellationController.js:88-133 | 400; 404 for a missing id; otherwise the row is replaced and the answer is 200 |
| ConstellationController.DeleteConstellation | backend/src/controllers/constellationController.js:136-159 | 404 for a missing id; otherwise 200 and the row is removed |
| ObjectTypeController.TypeRow | backend/src/controllers/objectTypeController.js:60 | stores the type name and the description, or "" |
| ObjectTypeController.GetObjectTypeById | backend/src/controllers/objectTypeController.js:22-46 | 404 "Object type not found" for a missing id; otherwise 200 with the row |
| ObjectTypeController.CreateObjectType | backend/src/controllers/objectTypeController.js:49-73 | 400 and no change without a type name; otherwise a new row under a fresh id, and 201 echoing the request |
| ObjectTypeController.DeleteObjectType | backend/src/controllers/objectTypeController.js:76-99 | 404 for a missing id; otherwise 200 and the row is removed |
| CelestialObjectsPage.FilteredObjects | src/components/CelestialObjects.tsx:57-69 | exactly the objects that match search, type and magnitude range, every copy, in list order |
| CelestialObjectsPage.TypeOptions | src/components/CelestialObjects.tsx:35 | "All" followed by one label per fetched type, in order |
| CelestialObjectsPage.EmptySearchMatchesEverything | src/components/CelestialObjects.tsx:62-63 | an empty search term matches every object |
| CelestialObjectsPage.OpenFilterShowsAll | src/components/CelestialObjects.tsx:57-69 | with no term, type "All" and a range holding every magnitude, the list is shown unchanged |
| CelestialObjectsPage.SelectedTypeNarrowsAllView | src/components/CelestialObjects.tsx:64 | choosing a type shows exactly the "All" view's objects of that type, in the same order |
| CelestialObjectsPage.MagnitudeRangeIgnoredForApiRows | src/components/CelestialObjects.tsx:61 | for rows lacking `Magnitude`, any two ranges containing 0 show the same objects |
| CelestialObjectsPage.RangeWithoutZeroHidesApiRows | src/components/CelestialObjects.tsx:61 | for rows lacking `Magnitude`, a range without 0 shows nothing |
| CelestialObjectsPage.ObjectListPage.constructor | src/components/CelestialObjects.tsx:15-21 | the initial state: no objects, types ["All"], range [0, 15] |
| CelestialObjectsPage.ObjectListPage.Visible | src/components/CelestialObjects.tsx:57-69 | the cards on screen are the filtered list for the current controls: the stored objects that pass them, in order |
| CelestialObjectsPage.ObjectListPage.LoadData | src/components/CelestialObjects.tsx:29-45 | a failed type fetch keeps all state and shows its message; otherwise the type list is replaced, and the objects are replaced or the error shown |
| CelestialObjectsPage.ObjectListPage.DeleteObject | src/components/CelestialObjects.tsx:47-55 | nothing without confirmation; on success exactly that id's rows leave the list; on failure the list stays and the error is shown |
| ObservationLogsPage.FilteredLogs | src/components/ObservationLogs.tsx:53-62 | exactly the logs that match search, condition and date window, every copy, in list order |
| ObservationLogsPage.Toggle | src/components/ObservationLogs.tsx:213 | clicking the expanded log collapses it; clicking any other log expands it alone |
| ObservationLogsPage.ToggleTwice | src/components/ObservationLogs.tsx:213 | two clicks on a log leave it expanded if it was, and otherwise collapse everything |
| ObservationLogsPage.NoDateBoundsKeepsEveryDate | src/components/ObservationLogs.tsx:59-60 | with both dates empty the date test drops out |
| ObservationLogsPage.BoundsAreInclusive | src/components/ObservationLogs.tsx:59-60 | a log dated exactly on both bounds is inside the window |
| ObservationLogsPage.InvertedWindowIsEmpty | src/components/ObservationLogs.tsx:59-60 | a window whose end precedes its start shows nothing |
| ObservationLogsPage.EndDayTimestampsExcluded | src/components/ObservationLogs.tsx:60 | a timestamp that extends the end date falls outside the window |
| ObservationLogsPage.StartDayTimestampsIncluded | src/components/ObservationLogs.tsx:59 | a timestamp that extends the start date is inside the window |
| ObservationLogsPage.LogListPage.constructor | src/components/ObservationLogs.tsx:16-23 | the initial state: no logs, condition "All", no dates, nothing expanded |
| ObservationLogsPage.LogListPage.Visible | src/components/ObservationLogs.tsx:53-62 | the cards on screen are the filtered list for the current controls: the stored logs that pass them, in order |
| ObservationLogsPage.LogListPage.LoadLogs | src/components/ObservationLogs.tsx:30-41 | a successful fetch replaces the logs; a failed one keeps them and shows its message |
| ObservationLogsPage.LogListPage.DeleteLog | src/components/ObservationLogs.tsx:43-51 | nothing without confirmation; on success exactly that id's logs leave the list; on failure the message is shown |
| ObservationLogsPage.LogListPage.ToggleExpanded | src/components/ObservationLogs.tsx:213 | the expanded log becomes the toggle of the old one |
| ConstellationsPage.FilteredConstellations | src/components/Constellations.tsx:89-94 | exactly the constellations whose name or description contains the term, every copy, in order |
| ConstellationsPage.EmptySearchKeepsAll | src/components/Constellations.tsx:89-94 | an empty search keeps every constellation |
| ConstellationsPage.ConstellationListPage.constructor | src/components/Constellations.tsx:14-23 | the initial state: no rows, an empty form, the modal closed |
| ConstellationsPage.ConstellationListPage.Visible | src/components/Constellations.tsx:89-94 | the cards on screen are the filtered list for the search term: the stored rows matching it, in order |
| ConstellationsPage.ConstellationListPage.LoadConstellations | src/components/Constellations.tsx:32-46 | a fetched list is used even when empty, and a missing one becomes []; a failed fetch uses the bundled list and shows the fallback message |
| ConstellationsPage.ConstellationListPage.DeleteConstellation | src/components/Constellations.tsx:48-56 | nothing without confirmation; on success exactly that id's rows leave the list; on failure the message is shown |
| ConstellationsPage.ConstellationListPage.HandleAddConstellation | src/components/Constellations.tsx:58-83 | an empty name sends nothing and shows "Constellation name is required"; otherwise the form is sent, then reset with the modal closed on success, or kept with the error shown on failure |
| AdminPanel.TypeCount | src/components/AdminPanel.tsx:45 | the count of a type is how often its name occurs among the objects' type names |
| AdminPanel.Summarize | src/components/AdminPanel.tsx:41-46 | a type card: its id, its name, its description or 'Object type', and its object count |
| AdminPanel.TypeSummaries | src/components/AdminPanel.tsx:41-46 | one card per fetched type, in order |
| AdminPanel.UserLogs | src/components/AdminPanel.tsx:349 | exactly the logs of that user, every copy of each, in order |
| AdminPanel.ObservationCount | src/components/AdminPanel.tsx:365 | a user's observation count is how often the user id occurs among the logs |
| AdminPanel.TrackedObjects | src/components/AdminPanel.tsx:592 | the tracked objects are exactly the object ids of that user's logs |
| AdminPanel.TrackedObjectsMembership | src/components/AdminPanel.tsx:592 | an object id is in the Set exactly when some log of that user names it |
| AdminPanel.TrackedNeverExceedsObservations | src/components/AdminPanel.tsx:588-592 | "Objects Tracked" never exceeds "Total Observations" |
| AdminPanel.RecentActivity | src/components/AdminPanel.tsx:320 | the first five logs, or all of them when there are fewer |
| AdminPanel.RecentForUser | src/components/AdminPanel.tsx:599-601 | the first five of that user's logs, in list order, all of that user |
| AdminPanel.AddTypeGuardIsBlank | src/components/AdminPanel.tsx:115 | the add guard refuses exactly the names made only of whitespace |
| AdminPanel.Panel.constructor | src/components/AdminPanel.tsx:12-26 | the initial state: empty lists, empty forms, the modal closed |
| AdminPanel.Panel.LoadData | src/components/AdminPanel.tsx:32-56 | when all five fetches succeed, the type cards are computed and the lists replaced; if any fails, nothing is replaced |
| AdminPanel.Panel.DeleteType | src/components/AdminPanel.tsx:58-67 | on a confirmed success exactly that id's cards go; otherwise nothing changes |
| AdminPanel.Panel.DeleteUser | src/components/AdminPanel.tsx:69-80 | on a confirmed success exactly that id's rows go; a confirmed failure raises "Failed to delete user. Please try again." |
| AdminPanel.Panel.DeleteConstellation | src/components/AdminPanel.tsx:82-93 | as DeleteUser, with the constellation alert |
| AdminPanel.Panel.DeleteObject | src/components/AdminPanel.tsx:95-106 | as DeleteUser, with the object alert |
| AdminPanel.Panel.HandleAddType | src/components/AdminPanel.tsx:113-130 | a name blank after trimming sends nothing and alerts; otherwise the untrimmed form is sent, then reset with the modal closed on success, or kept with an alert on failure |
| AdminPanel.Panel.HandleAddConstellation | src/components/AdminPanel.tsx:132-154 | as HandleAddType; the failure alert carries the error message |
| SignupPage.SignupError | src/components/SignupPage.tsx:24-32 | "Please fill in all fields" exactly when a field is empty; the length message exactly when all are filled and the password is shorter than 3; nothing otherwise |
| SignupPage.EmptyPasswordReportsEmptiness | src/components/SignupPage.tsx:24-32 | an empty password reports the emptiness error, not the length error |
| SignupPage.ClientCheckImpliesBackendCheck | backend/src/controllers/userController.js:51-56 | a form the page lets through passes the backend's required-fields check |
| SignupPage.UserFromResponse | src/components/SignupPage.tsx:38-43 | the app user carries the response's id, username and email, and today as member-since |
| SignupPage.SignupForm.constructor | src/components/SignupPage.tsx:12-16 | the initial state: empty fields, no error, not loading |
| SignupPage.SignupForm.HandleSubmit | src/components/SignupPage.tsx:18-52 | the request is made exactly when the checks pass; a refused form shows its check's message; a successful request logs the user in; a failed one shows its message; loading ends false |
| Scenarios.UnusedObjectDelete | backend/src/controllers/celestialObjectController.js:238-272 | for an existing object that hosts no exoplanet, the delete as written answers 500 while the guarded delete answers 200 |
| Scenarios.CreateThenReadStar | backend/src/controllers/celestialObjectController.js:50-129 | an object of type "Star" created with star details reads back with those details, defaulted as create stores them, and no exoplanet details |
| Scenarios.HostStarDeleteRefusedUntilExoplanetGone | backend/src/controllers/celestialObjectController.js:238-272 | deleting a star that an exoplanet names as host is refused with 400; after the exoplanet is deleted, the star's delete succeeds |

## Findings

| source | as written | input that shows it | evidently intended | confidence | as-written member | corrected member |
|---|---|---|---|---|---|---|
| backend/src/controllers/celestialObjectController.js:243 | the delete handler calls `celestialObjectModel.isUsedAsHostStar`, which the model module (backend/src/models/celestialObjectModel.js:207-219) neither defines nor exports; the call throws a TypeError, and the catch answers 500 | DELETE /objects/1 for an existing object that no exoplanet names as its host star: 500 "Error deleting celestial object", and the row stays | refuse with 400 while an exoplanet names the object as host star; otherwise 404 for a missing id or 200 after deleting | not executed | CelestialObjectController.DeleteCelestialObjectAsWritten | CelestialObjectController.DeleteCelestialObject |

## Left out

- The list endpoints (`getAll…`) and the by-user log route: queries with no logic beyond SQL. The pages take their answers as inputs.
- The 500 answers of the catch blocks, apart from the two that follow from a rule the model keeps: a taken username and the host-star call. Database errors, connection failures and the echoed `error` text are not modelled.
- Store.UniqueUsernames: the uniqueness of usernames is taken from the database schema. createUser and updateUser (backend/src/models/userModel.js:33-59) run no check of their own. The model refuses a taken username in Store.Database.CreateUser and Store.Database.UpdateUser, and the handlers turn that refusal into the 500 of their catch block.
- Foreign keys apart from the detail tables: what deleting a user, an object in use or a type in use does to logs and objects, and constellations set to null. The database schema is not part of this model.
- Store.Database.CreateStarDetails, Store.Database.CreateExoplanetDetails: the create response's `starId` and `exoplanetId` are the object's own id. The actual value of `SCOPE_IDENTITY()` on a table without an identity column is not modelled.
- The SQL model layer's numeric coercions (`parseFloat(...) || 0`, `parseInt(...) || null`) and decimal precision: the rows keep the handler's values.
- The SQL model layer's key and column mismatches. The detail updates filter on `WHERE StarID = @StarID` and `WHERE ExoplanetID = @ExoplanetID` (backend/src/models/celestialObjectModel.js:157, :172) and set columns (SurfaceTemperature, HostStarName, ...) that the insert does not use. The detail lookups getStarDetailsByObjectId and getExoplanetDetailsByObjectId (:188-205) and the by-id query's exoplanet join (`co.ObjectID = ed.ObjectID`, :70) go through an ObjectID column, while the star join goes through StarID (:69). The model keys every detail row by its object's id, so all of these look a row up by the same key, and the updates write the same fields that create writes.
- The schema's CreatedAt, `GETDATE()` and the `toLocaleDateString` display.
- Store.Database.GetUserByUsername: usernames are matched by exact string equality, in the lookup, in the uniqueness rule and so at login. The database collation is not modelled: SQL Server's `=` ignores trailing blanks and, under the default collation, case, so "Alice " can find the row of "alice" and "ALICE" can collide with "alice".
- ObservationLogController.LogRow: the observation date is stored and read back as the submitted string. The `DateTime` conversion of the SQL model layer is not modelled: it stores a datetime, the list answers with full timestamps, and a string that is not a date fails with 500.
- JSON typing of request fields: ids arrive as numbers or strings. The model takes them as integers.
- Lower-casing: `ToLower` maps ASCII A-Z only. Full Unicode case mapping is not modelled.
- String length and comparison: these work on code points, not UTF-16 code units.
- NaN, as a truthiness case and as a magnitude.
- Errors that are not `Error` instances, whose fallback messages ("Failed to load data", ...) replace the error text. The model always uses the error's message.
- The transient `loading` and `formLoading` flags during an await, and `console.error` / `console.log` output.
- The reload that follows a successful write (`await loadData()` and friends): a separate `Load…` call, not part of the write handler.
- The audit-log, statistics and streak controllers, the routes, the other pages and `api.ts`: not part of the core modelled here.
- Concurrency between handlers. Each handler runs alone over the tables and is not atomic with respect to other requests.
