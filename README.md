# Supply-chain dashboard core, modelled in Dafny

This is a model of the logic inside the farm-to-consumer dashboard demo
(Themydee/saas-App, a React/TypeScript front end). The app shows one product's
journey from the farm, through transporters, warehouses and retailers, to a
consumer. With the JSX, the browser storage and the network calls removed, the
core is:

- a fixed directory of users, products and transit/storage/retail/feedback
  events, and the product-journey query over it;
- the journey timeline: events tagged by kind, merged and sorted stably by
  time, with a harvest milestone in front and a current-status milestone at
  the end;
- dashboard aggregations:
  - status tallies;
  - the newest-five "recent activity" list;
  - the warehouse temperature and humidity bands;
  - the transporter's shipment progress;
- the local user registry behind the login/register page, and the consumer
  page's search, favourites, feedback and rating state;
- the role/path/title mappings of the side bar, header, home, auth and profile
  pages, and the avatar's initials.

Timestamps are integers: milliseconds since the epoch, UTC. The fixtures use
the ISO strings of `src/lib/constants.ts`, converted by hand. The union types
of `src/lib/types.ts` become datatypes, and optional fields become `Option`.

Modules, one per source file or shared concept:

| module | file | models |
|---|---|---|
| `Wrappers` | wrappers.dfy | `Option` |
| `Types` | types.dfy | `src/lib/types.ts`: roles, statuses, records, and parsing of the string literals |
| `Seqs` | seqs.dfy | `Array.prototype.filter`/`find`/`some`/`slice`, on sequences |
| `StableSort` | sorting.dfy | `Array.prototype.sort` with a numeric comparator (stable, as ECMAScript 2019 requires) |
| `Text` | text.dfy | `toLowerCase`/`toUpperCase` (ASCII), `includes`, `split` |
| `Directory` | directory.dfy | `src/lib/constants.ts` |
| `Journey` | journey.dfy | `src/components/common/ProductJourney.tsx` |
| `Tally` | tally.dfy | the `filter(...).length` status counts shared by the dashboards |
| `Home`, `Farmer`, `Transporter`, `Warehouse` | home.dfy, farmer.dfy, transporter.dfy, warehouse.dfy | the dashboard pages |
| `Auth` | auth.dfy | `src/pages/Auth.tsx`: class `AuthPage` holds the registry as a `seq` |
| `Consumer` | consumer.dfy | `src/pages/Consumer.tsx`: class `ConsumerPage` holds the page state |
| `Profile` | profile.dfy | `src/pages/Profile.tsx`: class `ProfilePage` holds the page state |
| `SideNav`, `Header`, `Avatar` | sidenav.dfy, header.dfy, avatar.dfy | the layout components and `UserAvatar` |

## Model

| member | source | states |
|---|---|---|
| Types.ParseRole | src/lib/types.ts:2 | a string parses to a role only when it is that role's literal |
| Types.RoleNameRoundTrip | src/lib/types.ts:2 | each of the six roles parses back from its own literal |
| Types.ParseStatus | src/lib/types.ts:32 | a string parses to a product status only when it is that status's literal |
| Types.StatusNameRoundTrip | src/lib/types.ts:32 | each of the five statuses parses back from its own literal |
| Seqs.FilterMembership | src/lib/constants.ts:233-235 | an element is in a `filter` result iff it is in the input and satisfies the predicate |
| Seqs.FilterIsSubsequence | src/lib/constants.ts:233-235 | a `filter` result keeps the input's order: it is a subsequence of the input |
| Seqs.FilterMultiplicity | src/lib/constants.ts:233-235 | a `filter` result holds every copy of a matching element and no copy of any other |
| Seqs.FindFirst | src/lib/constants.ts:228 | `find` is absent iff no element matches; otherwise it returns the element at the first matching index |
| StableSort.SortByPermutation | src/components/common/ProductJourney.tsx:36 | sorting returns a permutation of its input |
| StableSort.SortBySorted | src/components/common/ProductJourney.tsx:36 | the sorted sequence is non-decreasing by key |
| StableSort.SortByStable | src/components/common/ProductJourney.tsx:36 | for every key, the elements with that key appear in input order |
| StableSort.TiesOfTake | src/pages/Home.tsx:75 | the elements with a given key that survive `slice(0, n)` are a prefix of those in the whole sequence |
| Text.ToLower | src/pages/Consumer.tsx:25-26 | lower-casing keeps the length and maps each character |
| Text.ToUpper | src/components/common/UserAvatar.tsx:32 | upper-casing keeps the length and maps each character |
| Text.IncludesIff | src/components/layout/SideNav.tsx:37-40 | `includes` holds iff the pattern occurs at some position of the string |
| Text.IncludesEmpty | src/pages/Consumer.tsx:24-27 | every string includes the empty string |
| Text.SplitNoSeparator | src/components/common/UserAvatar.tsx:29 | a string without the separator splits into itself alone |
| Directory.FindProductFirst | src/lib/constants.ts:228 | the product lookup is absent iff no product has the id; otherwise it is the first product with that id |
| Directory.JourneyProduct | src/lib/constants.ts:227-231 | `getProductJourney` is undefined iff no product has the id; otherwise its product is the first with that id |
| Directory.JourneyEvents | src/lib/constants.ts:233-235 | each event list of a journey holds exactly the directory's events with that product id, every copy of each, in directory order |
| Directory.GetCurrentUser | src/lib/constants.ts:239-242 | the current user is the first seed user, the farmer `farmer-1` |
| Directory.IsUserRole | src/lib/constants.ts:244-247 | holds iff the role literal is the current user's role, which is `farmer` |
| Directory.SeedIdsDistinct | src/lib/constants.ts:4-98 | seed product ids and user ids are pairwise distinct |
| Directory.Prod001Journey | src/lib/constants.ts:100-212 | prod-001 has two delivered transit legs, one storage and one retail event, and two timestamp ties |
| Directory.Prod003Journey | src/lib/constants.ts:100-212 | prod-003 has one in-transit leg without a delivery time, and no other events |
| Journey.Tagged | src/components/common/ProductJourney.tsx:20-35 | entry i carries the i-th event of transit ++ storage ++ retail, tagged by its source list |
| Journey.AllEventsPermutation | src/components/common/ProductJourney.tsx:20-36 | `allEvents` is a permutation of the tagged concatenation and has its length |
| Journey.AllEventsEntries | src/components/common/ProductJourney.tsx:24-34 | each entry comes from its own kind's list; its key is the delivery time of a delivered leg, else the pickup time, or the received time |
| Journey.AllEventsSorted | src/components/common/ProductJourney.tsx:36 | `allEvents` is non-decreasing by timestamp |
| Journey.AllEventsStable | src/components/common/ProductJourney.tsx:20-36 | entries with equal timestamps keep concatenation order |
| Journey.TimelineShape | src/components/common/ProductJourney.tsx:105-188 | the timeline is the harvest milestone, then `allEvents` in order, then the current-status milestone |
| Journey.HeadingForms | src/components/common/ProductJourney.tsx:131-137 | "Delivered to", "Picked up from", "Stored at" and "Received at" headings each occur exactly for their kind of event |
| Journey.StatusBadgeDistinct | src/components/common/ProductJourney.tsx:177-180 | the five badge labels are distinct, and "Sold" is shown exactly for a sold product |
| Journey.TwoTiedPairsOrder | src/components/common/ProductJourney.tsx:36 | two tied pairs a=c < b=d sort to a, c, b, d |
| Journey.Prod001Timeline | src/components/common/ProductJourney.tsx:20-36 | for the seed data, prod-001 orders as transit-001, storage-001, transit-002, retail-001, with both ties kept; the timeline has 6 rows |
| Journey.Prod003Timeline | src/components/common/ProductJourney.tsx:105-188 | for the seed data, prod-003's one leg sorts by pickup time; the timeline has 3 rows |
| Tally.StatusCountZero | src/pages/Home.tsx:51-55 | a status count is 0 iff no product has that status |
| Tally.StatusCountsSum | src/pages/Home.tsx:50-56 | the five status counts sum to the number of products |
| Home.ProductStatusTally | src/pages/Home.tsx:50-56 | each count is the number of products with that status, and the five sum to the product count |
| Home.SeedTally | src/pages/Home.tsx:50-56 | for the seed products the tally is 0, 1, 1, 1, 0 |
| Home.Candidates | src/pages/Home.tsx:59-73 | the candidate rows are the transit rows, then the storage rows, one per event |
| Home.RecentActivityRows | src/pages/Home.tsx:59-75 | there are min(5, transit + storage) rows; each comes from a transit event (delivery time if delivered, else pickup time) or a storage event (received time) |
| Home.RecentActivityNewestFirst | src/pages/Home.tsx:74 | the rows are non-increasing by time |
| Home.RecentActivityDropped | src/pages/Home.tsx:74-75 | every dropped candidate is no newer than the last row kept |
| Home.RecentActivityStable | src/pages/Home.tsx:74-75 | rows with equal times keep candidate order: transit before storage |
| Home.SixCandidatesOrder | src/pages/Home.tsx:74-75 | six candidates with the seed's time pattern give the seed's five rows |
| Home.SeedCandidates | src/lib/constants.ts:100-200 | the six seed candidates, their ids and their time pattern |
| Home.SeedRecentActivity | src/pages/Home.tsx:59-75 | for the seed data the rows are transit-004, transit-003, storage-002, transit-002, transit-001 |
| Home.RolePath | src/pages/Home.tsx:38-47 | farmer, transporter and warehouse go to their own path; consumer goes to `/consumer`; retailer and admin go to `/profile` |
| Farmer.ShowOverview | src/pages/Farmer.tsx:86-113 | each of the four counts is the number of products with that status, and together they are the products not sold |
| Farmer.OverviewCoversUnsold | src/pages/Farmer.tsx:86-113 | the four counts sum to at most the product count, with equality iff none is sold |
| Farmer.StatusColor | src/pages/Farmer.tsx:18-27 | the muted class is used iff the string is not one of the five statuses |
| Farmer.StatusColorDistinct | src/pages/Farmer.tsx:18-27 | the five statuses get five distinct classes |
| Farmer.StatusIcon | src/pages/Farmer.tsx:29-38 | leaf iff at-farm, clock iff in-transit, check iff in-warehouse/at-retailer/sold, cross iff anything else |
| Transporter.Counts | src/pages/Transporter.tsx:100-114 | each count is the number of legs with that status, and they sum to the number of legs |
| Transporter.CountsSum | src/pages/Transporter.tsx:100-114 | the scheduled, in-transit and delivered counts sum to the number of legs |
| Transporter.SeedCounts | src/pages/Transporter.tsx:100-114 | for the seed legs the counts are 0, 1, 3 |
| Transporter.ProductForTransit | src/pages/Transporter.tsx:29-31 | absent iff no product has the id; otherwise the first product with that id |
| Transporter.Progress | src/pages/Transporter.tsx:34-47 | delivered gives 100 and scheduled 0; in transit the value lies in 0..99; absent (NaN) exactly for a zero-length leg read at its pickup time |
| Transporter.ProgressIsFloor | src/pages/Transporter.tsx:39-46 | between pickup and the estimated delivery, the value r is the floored percentage: r*total <= elapsed*100 < (r+1)*total |
| Transporter.ProgressEnds | src/pages/Transporter.tsx:43-46 | before pickup the value is 0; at or after the estimated delivery it is 99 |
| Transporter.ProgressMonotone | src/pages/Transporter.tsx:39-46 | for a fixed in-transit leg whose pickup precedes its estimated delivery, progress does not decrease as time passes |
| Transporter.ProgressFallsForInvertedLeg | src/pages/Transporter.tsx:42-46 | when the estimated delivery precedes pickup, progress falls as time passes: 99 shortly before pickup, 0 at pickup |
| Warehouse.WarehouseProducts | src/pages/Warehouse.tsx:22-24 | a product is listed iff it is in the warehouse, as many times as it occurs in the input |
| Warehouse.WarehouseProductsOrder | src/pages/Warehouse.tsx:22-24 | the list keeps directory order |
| Warehouse.SeedWarehouseProducts | src/pages/Warehouse.tsx:22-24 | for the seed data the list is `[prod-002]` |
| Warehouse.WarehouseInfo | src/pages/Warehouse.tsx:30 | absent iff no user is a warehouse; otherwise the first warehouse user |
| Warehouse.SeedWarehouseInfo | src/pages/Warehouse.tsx:30 | for the seed users it is `warehouse-1` |
| Warehouse.OrElse | src/pages/Warehouse.tsx:189 | `x \|\| fallback`: the value when present and non-empty, else the fallback |
| Warehouse.ShowInventoryCard | src/pages/Warehouse.tsx:178-207 | variety defaults to "Standard"; "received" is missing iff no storage event has the product id, and then location is "Unassigned"; otherwise both come from the first such event |
| Warehouse.TemperatureBand | src/pages/Warehouse.tsx:228-232 | blue iff below 2, red iff above 8, green iff 2..8 inclusive |
| Warehouse.HumidityBand | src/pages/Warehouse.tsx:234-238 | amber iff below 70, blue iff above 90, green iff 70..90 inclusive |
| Warehouse.SeedConditionsGreen | src/pages/Warehouse.tsx:228-238 | both seed storage events are green for temperature and humidity |
| Auth.RolePath | src/pages/Auth.tsx:38-47 | farmer, transporter and warehouse go to their own path; retailer and consumer go to `/consumer`; admin or an unknown role goes to `/` |
| Auth.FindAccountFirst | src/pages/Auth.tsx:54 | the login lookup is absent iff no stored account has that email, password and role; otherwise it is the first such account |
| Auth.DecimalString | src/pages/Auth.tsx:87 | the id is a non-empty string of decimal digits |
| Auth.DecimalStringValue | src/pages/Auth.tsx:87 | the id's digits spell the clock reading it was made from |
| Auth.DistinctTimesDistinctIds | src/pages/Auth.tsx:87 | registrations at different milliseconds get different ids |
| Auth.LoginAfterRegister | src/pages/Auth.tsx:54-88 | after appending an account with a fresh email, the lookup by its email, password and role finds it |
| Auth.AppendKeepsDistinct | src/pages/Auth.tsx:78-88 | appending an account with a fresh email keeps the emails pairwise distinct |
| Auth.AuthPage.constructor | src/pages/Auth.tsx:19-53 | the form role starts as farmer, over the stored accounts |
| Auth.AuthPage.ChangeRole | src/pages/Auth.tsx:23-25 | the form role becomes one of the four offered on the form (farmer, transporter, warehouse, consumer); the accounts are unchanged |
| Auth.AuthPage.Login | src/pages/Auth.tsx:49-71 | succeeds iff some stored account matches email, password and role; returns the first match and the role's path, which is one of `/farmer`, `/transporter`, `/warehouse`, `/consumer`; changes nothing |
| Auth.AuthPage.Register | src/pages/Auth.tsx:73-98 | a taken email (under any role) fails and changes nothing; otherwise exactly one account is appended, emails stay distinct, a login with it succeeds, and the landing path is one of the four form roles' paths; the picked role stays one the form offers |
| Consumer.FilteredProducts | src/pages/Consumer.tsx:24-27 | a product is kept iff its lower-cased name or type includes the lower-cased term, with every copy of each kept product |
| Consumer.FilteredProductsOrder | src/pages/Consumer.tsx:24 | the filtered list keeps directory order |
| Consumer.EmptySearchKeepsAll | src/pages/Consumer.tsx:24-27 | an empty term keeps every product |
| Consumer.Toggled | src/pages/Consumer.tsx:57-62 | the id's membership flips and every other id's membership is unchanged; an absent id is appended at the end; a present id loses every copy while other ids keep theirs |
| Consumer.ToggleTwice | src/pages/Consumer.tsx:57-62 | toggling an absent id twice restores the list |
| Consumer.ToggleRemoveOrder | src/pages/Consumer.tsx:57-62 | removing an id keeps the other favourites in order |
| Consumer.ProductFeedback | src/pages/Consumer.tsx:71-73 | a feedback entry is returned iff it has the product id, with every copy of each |
| Consumer.ProductFeedbackOrder | src/pages/Consumer.tsx:71-73 | the feedback keeps fixture order |
| Consumer.SeedFeedback | src/pages/Consumer.tsx:71-73 | for the seed feedback, prod-001 has all of it and prod-002 none |
| Consumer.ConsumerPage.constructor | src/pages/Consumer.tsx:18-22 | empty search, no selection, empty feedback, rating 5, no favourites |
| Consumer.ConsumerPage.SetSearchTerm | src/pages/Consumer.tsx:18 | only the search term changes |
| Consumer.ConsumerPage.SelectProduct | src/pages/Consumer.tsx:38-44 | only the selection changes |
| Consumer.ConsumerPage.ClearSelection | src/pages/Consumer.tsx:162 | the back button clears the selection and nothing else |
| Consumer.ConsumerPage.SetFeedback | src/pages/Consumer.tsx:20 | only the feedback text changes |
| Consumer.ConsumerPage.SetRating | src/pages/Consumer.tsx:313-319 | star i sets the rating to i + 1, which stays in 1..5 |
| Consumer.ConsumerPage.SubmitFeedback | src/pages/Consumer.tsx:46-55 | without a selection nothing changes; otherwise the feedback text is cleared |
| Consumer.ConsumerPage.ToggleFavorite | src/pages/Consumer.tsx:57-69 | favourites become the toggled list; the action word reflects the list before the toggle |
| SideNav.ActiveRole | src/components/layout/SideNav.tsx:35-42 | the first matching check among `/farmer`, `/transporter`, `/warehouse`, `/consumer`-or-`/retailer` decides; no match gives consumer; never admin |
| SideNav.ItemsFor | src/components/layout/SideNav.tsx:98-156 | retailer and consumer both get the retailer list; the admin list is never shown |
| SideNav.ShownItems | src/components/layout/SideNav.tsx:98-156 | some item list is always shown, never the admin one |
| SideNav.ListsHaveDistinctTargets | src/components/layout/SideNav.tsx:46-75 | within each item list the targets are distinct |
| SideNav.AtMostOneHighlighted | src/components/layout/SideNav.tsx:98-156 | at most one shown item is highlighted for any path |
| SideNav.Heading | src/components/layout/SideNav.tsx:81-86 | "Consumer View" iff the role is none of farmer, transporter, warehouse, retailer |
| SideNav.ConsumerViewHeading | src/components/layout/SideNav.tsx:81-86 | for the active role, "Consumer View" iff it is consumer |
| Header.PageTitleIsFirstMatch | src/components/layout/Header.tsx:50-59 | the title comes from the first matching rule among six; the default title iff none matches |
| Header.LinkFor | src/components/layout/Header.tsx:64-118 | farmer, transporter, warehouse and consumer get a link to `/<role>`; any other role gets none |
| Header.NavLinkAsWritten | src/components/layout/Header.tsx:61-119 | the links as written: none without a user; farmer and consumer highlighted on their own path, transporter and warehouse on `/farmer` |
| Header.TransporterLinkAsWritten | src/components/layout/Header.tsx:84 | the transporter link, as written, is highlighted iff the path contains `/farmer` |
| Header.TransporterLinkOnOwnPage | src/components/layout/Header.tsx:84 | as written, the transporter link is not highlighted on `/transporter` but is on `/farmer` |
| Header.NavLinkFor | src/components/layout/Header.tsx:61-119 | the corrected links: each is highlighted iff the path contains its own target |
| Header.IntendedAgreesOutsideHighlight | src/components/layout/Header.tsx:61-119 | the corrected and as-written links differ only in the transporter and warehouse highlight |
| Header.TransporterLinkIntended | src/components/layout/Header.tsx:84 | corrected, the transporter link is highlighted on `/transporter` |
| Avatar.FirstCharsOfSplit | src/components/common/UserAvatar.tsx:27-33 | the first characters of the parts are the characters that start a word |
| Avatar.InitialsAreWordStarts | src/components/common/UserAvatar.tsx:27-33 | the initials are the upper-cased word-start characters of the name |
| Avatar.FirstCharsLength | src/components/common/UserAvatar.tsx:29-31 | empty parts contribute nothing: one character per non-empty part |
| Avatar.InitialsLength | src/components/common/UserAvatar.tsx:29-31 | the initials have one character per non-empty space-separated part |
| Avatar.SingleWordInitial | src/components/common/UserAvatar.tsx:28-32 | a non-empty name without spaces gives exactly its upper-cased first character |
| Avatar.WordStartsOfWord | src/components/common/UserAvatar.tsx:29-30 | a word without spaces contributes only its first character |
| Avatar.WordStartsOfWordThenSpace | src/components/common/UserAvatar.tsx:29-30 | a word followed by a space contributes its first character, and the rest starts a new word |
| Avatar.TwoWordInitials | src/components/common/UserAvatar.tsx:28-32 | two space-separated words give their two upper-cased first characters |
| Avatar.JohnSmith | src/components/common/UserAvatar.tsx:28-32 | "John Smith" gives "JS" |
| Avatar.RoleColor | src/components/common/UserAvatar.tsx:36-45 | the muted class is used iff the string is not one of the six roles |
| Avatar.RoleColorDistinct | src/components/common/UserAvatar.tsx:36-45 | the six roles get six distinct classes |
| Profile.BackToDashboardPath | src/pages/Profile.tsx:102-129 | no user gives `''`; each of the six roles goes to `'/' + role`; an unrecognised role goes to `/home` |
| Profile.RetailerPathsDisagree | src/pages/Profile.tsx:114-116 | retailer goes to `/profile` from home, `/consumer` from auth and `/retailer` from the profile page; the other four non-admin roles agree |
| Profile.WithField | src/pages/Profile.tsx:63-69 | only the named field takes the new value; every other field is unchanged |
| Profile.ProfilePage.constructor | src/pages/Profile.tsx:20-37 | no user and no image; not editing, not saving |
| Profile.ProfilePage.Mount | src/pages/Profile.tsx:23-34 | the stored user is preferred; without one, the current user is used |
| Profile.ProfilePage.StartEditing | src/pages/Profile.tsx:36 | only the editing flag is set |
| Profile.ProfilePage.CancelEditing | src/pages/Profile.tsx:36 | only the editing flag is cleared |
| Profile.ProfilePage.InputChange | src/pages/Profile.tsx:63-69 | the user becomes the user with that field replaced; nothing else changes |
| Profile.ProfilePage.ImageUpload | src/pages/Profile.tsx:71-84 | with data, image and the user's avatar both become it, and nothing else changes; without a file nothing changes |
| Profile.ProfilePage.Save | src/pages/Profile.tsx:86-91 | the saving flag is set and the timer captures the user shown now; nothing else changes |
| Profile.ProfilePage.SaveTimerFired | src/pages/Profile.tsx:90-99 | the user captured at Save is stored, whatever was edited since; editing and saving end; the shown user is unchanged |
| Profile.ProfilePage.BackToDashboard | src/pages/Profile.tsx:102-129 | the path for the current user's role, or `''` without a user |
| Profile.ProfilePage.Logout | src/pages/Profile.tsx:131-138 | the stored user is removed and the path is `/auth` |
| Profile.EditWhileSaving | src/pages/Profile.tsx:86-99 | an edit typed while a save is pending is shown but not stored |
| Profile.SaveThenRevisit | src/pages/Profile.tsx:63-99 | edit, save, then remount: the page shows the edited user |

## Left out

- Rendering is not modelled: JSX layout, icons (other than the icon choices above), CSS classes other than the ones listed, toasts, tabs, animations, the QR placeholder, routing and the index page.
- Browser I/O is not modelled. `localStorage` and JSON become `seq`/`Option` fields of the classes. `FileReader` becomes the `data` parameter of `ImageUpload`. `navigate` becomes a returned path. The axios fetch of the current user in the header becomes the `currentUserRole` parameter.
- The Express server and the Mongoose user model are not part of this model; neither holds any logic.
- `formatDate` is not modelled, because it is locale-dependent formatting. ISO timestamps are integers, which keeps their order.
- Clock reads (`new Date()`, `Date.now()`) are parameters: `now` of `Transporter.Progress` and of `Auth.AuthPage.Register`.
- Transporter.Progress: computes the exact rational `floor(elapsed*100/total)` instead of JavaScript's floating-point `(elapsed/total)*100`, so it can differ on rounding at an exact percentage boundary. The zero-length leg (infinite or NaN quotient) is modelled.
- Warehouse.TemperatureBand / Warehouse.HumidityBand: readings are `real`; the bands need only comparisons.
- Text.ToLower / Text.ToUpper: ASCII only; no Unicode case mapping.
- Journey.AllEvents / Home.RecentActivity: require every delivered leg to have an `actualDeliveryTime` (`WellFormedJourney`, `AllWellFormed`). The source sorts an undefined key as NaN there.
- A journey is built from constant fixtures by pure functions, so "building a journey leaves the fixtures unchanged" holds by construction and has no lemma.
- Auth.AuthPage: does not model the `isLoggingIn`/`isRegistering` flags, which are set and reset within one handler. The typed-in name and the toasts' text are not state here.
- Auth.AuthPage.Register: the id is `DecimalString(now)`, the decimal form of the clock parameter (`Auth.DecimalStringValue`). Two registrations at the same millisecond would share an id, as in the source.
- Profile.ProfilePage.InputChange / ImageUpload / Save: require a loaded user. The page renders only a loading message until `user` is set (src/pages/Profile.tsx:140), so these handlers are unreachable before then.
- Profile.ProfilePage.InputChange: the input names are the four editable fields (name, email, company, location). An arbitrary key spread into the user record is not modelled.
- Consumer.ConsumerPage: the search handler only shows a toast, so it is not modelled. The filter is `Consumer.FilteredProducts` over the page's term.
- Transporter.ProgressMonotone: requires the pickup to precede the estimated delivery. For an inverted leg the source's progress falls as time passes (`Transporter.ProgressFallsForInvertedLeg`); the seed data has no such leg.
- Profile.ProfilePage.Save: at most one save timer is modelled (`pending`). The Save button is disabled while saving (src/pages/Profile.tsx:253), so a second timer cannot be armed.
- Journey.StatusIcon / Journey.CurrentStatusIcon: the milestone icon choice has no contract beyond its definition.
- The price formatting (`toFixed`) and the product-card fallbacks shown only for display are not modelled.

## Findings

| source | as written | input that shows it | evidently intended | confidence | as-written member | corrected member |
|---|---|---|---|---|---|---|
| src/components/layout/Header.tsx:78-101 | the transporter and warehouse nav links are highlighted when the path includes `/farmer` | role `transporter`, path `/transporter`: not highlighted (and highlighted on `/farmer`) | each link is highlighted when the path includes its own target, as the farmer and consumer links are | not executed | Header.TransporterLinkOnOwnPage | Header.NavLinkFor |
