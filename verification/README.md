# Portfolio profile API: read-side query logic in Dafny

This project models the query logic of a single-profile portfolio service (an
Express server backed by one Mongoose `Profile` document, plus a React Skills
page). It covers:

- the profile document and the conversions its schema applies when a document is
  stored: trimming, lower-casing, enum checks and defaults (`Schema`);
- the two document methods, `getSkillsByCategory` and `getTopSkills`
  (`ProfileMethods`, with the stable sort in `SkillOrder`);
- the read handlers `getProjects` (skill filter and pagination), `searchProfile`
  (case-insensitive substring search) and `getSkillsByCategory` (a flat list, or
  a grouping by category) (`Controller`, with the grouping in `Grouping`);
- the Skills page helpers `getSkillLevel`, `filterSkills` and
  `getCurrentSkills`, and its tab list (`SkillsPage`).

The supporting modules are:

- `Text`: lower-casing, `includes`, trimming, and the name order.
- `Scenarios`: the fixtures of the server's request tests, restated as lemmas about the model.
- `Seqs`: `filter`, `slice`, and the subsequence relation.
- `Wrappers`: `Option` and `Result`.

Every handler is a pure function of the already-loaded active profile and the
query parameters. An in-place mutation is modelled as a function that returns
the updated value. `Array.prototype.sort` is stable (ECMAScript 2019), so both
sorts are modelled as one stable insertion sort, `SkillOrder.StableSort`.
`SkillOrder.StableSortUnique` shows that every stable sort gives the same
result, so the choice of algorithm does not matter.

`getProjects` runs without query validation, so any page number reaches it. The
model follows the code on this point:

- page 0 yields an empty page;
- a negative page makes `slice` count from the end of the list
  (`Controller.NegativePageCountsFromEnd`).

## Model

| member | source | states |
|---|---|---|
| Text.Lower | server/controllers/profileController.js:210 | `toLowerCase` keeps the length, maps each character on its own and leaves no upper-case letter |
| Text.IncludesIff | server/controllers/profileController.js:220-222 | `s.includes(t)` holds exactly when `t` occurs in `s` at some index |
| Text.IncludesChars | server/controllers/profileController.js:220-222 | every character of a contained term occurs in the text |
| Text.IncludesTrans | server/controllers/profileController.js:232-236 | containment is transitive: a text that contains a term contains every part of that term |
| Text.IncludesLower | server/controllers/profileController.js:233-235 | lower-casing both sides keeps a containment |
| Text.Trim | server/models/Profile.js:4-8 | a `trim: true` value has no surrounding white space and is the original string with only white space removed at both ends |
| Text.TrimOfTrimmed | server/models/Profile.js:4-8 | trimming a value without surrounding white space leaves it unchanged |
| Text.NormalizeIdempotent | server/models/Profile.js:150-156 | storing a `trim` plus `lowercase` value a second time changes nothing |
| Text.NameLeqTotal | client/src/pages/Skills.js:103 | the name comparator orders every pair of names |
| Text.NameLeqTrans | client/src/pages/Skills.js:103 | the name comparator is transitive |
| Text.NameLeqAntisym | client/src/pages/Skills.js:103 | two names that compare both ways are equal |
| Seqs.SubseqTrans | server/controllers/profileController.js:133-141 | filtering after filtering or slicing still keeps a subsequence of the original |
| Seqs.Filter | server/models/Profile.js:194 | `filter` keeps an order-preserving subsequence whose members are exactly the elements that pass the test |
| Seqs.FilterCounts | server/models/Profile.js:194 | `filter` keeps each passing element as often as it occurs and drops every failing one |
| Seqs.FilterConcat | server/controllers/profileController.js:293-299 | filtering a concatenation is concatenating the filtered parts |
| Seqs.FilterMono | server/controllers/profileController.js:232-257 | a weaker test keeps a supersequence |
| Seqs.JsSlice | server/controllers/profileController.js:141 | `slice(start, end)` resolves negative and oversized indexes against the length and returns that run |
| Seqs.JsSliceNonNegative | server/controllers/profileController.js:141 | for `0 <= start <= end` a slice is the run between the two indexes, each clamped to the length |
| Seqs.JsSliceIsSubseq | server/controllers/profileController.js:141 | a slice is a subsequence of its array |
| Schema.ParseLevel | server/models/Profile.js:157-161 | only the four level spellings are accepted, each for its own level |
| Schema.ParseCategory | server/models/Profile.js:162-166 | only the six category spellings are accepted, each for its own category |
| Schema.ParseStatus | server/models/Profile.js:29-33 | only the three status spellings are accepted, each for its own status |
| Schema.EnumRoundTrip | server/models/Profile.js:157-166 | parsing the stored spelling of a level, category or status gives that value back |
| Schema.Weight | server/models/Profile.js:199 | the level weights are 1 for beginner, 2 for intermediate, 3 for advanced and 4 for expert, each weight belonging to that level only |
| Schema.WeightInjective | server/models/Profile.js:199 | different levels have different weights |
| Schema.StoredLowerIsNormalized | server/models/Profile.js:150-156 | a trimmed, lower-cased value is in stored form |
| Schema.CastSkill | server/models/Profile.js:150-167 | a skill is stored exactly when the name is present and the level and category are valid; each failing path is reported; the stored name is trimmed and lower-cased; a given level or category is stored as parsed, and the defaults are intermediate and other |
| Schema.CastProject | server/models/Profile.js:3-34 | a project is stored exactly when title and description are present and the status is valid; title, description and each link are stored trimmed; the skills are lower-cased one by one; the dates are kept; a given status is stored as parsed and the default is completed |
| Schema.CastWork | server/models/Profile.js:36-67 | a work entry is stored exactly when company, position and start date are present; company, position and description are stored trimmed; the dates are kept; a given `current` is kept and the default is false |
| Schema.CastEducation | server/models/Profile.js:69-95 | an education entry is stored exactly when institution and degree are present and the GPA is within 0..10; institution, degree and field are stored trimmed; the dates and GPA are kept |
| Schema.TrimLinks | server/models/Profile.js:97-118 | each of the five link paths is present exactly when given and then stored as its trim, so every stored link is trimmed |
| Schema.TrimLinksStored | server/models/Profile.js:97-118 | stored links are stored again unchanged, and casting them twice is casting them once |
| Schema.CastProfile | server/models/Profile.js:120-174 | a profile is stored exactly when name and email are present; name, title, bio, location and phone are stored trimmed; the email is trimmed and lower-cased; every present link is stored trimmed; the sub-documents are kept; a given `isActive` is kept and the default is true |
| SkillOrder.LeqTotal | server/models/Profile.js:199-201 | either comparator orders every pair of skills |
| SkillOrder.LeqTrans | server/models/Profile.js:199-201 | either comparator is transitive |
| SkillOrder.TiedMeaning | client/src/pages/Skills.js:98-105 | the level comparator ties exactly equal levels, and the name comparator ties exactly equal names |
| SkillOrder.Insert | server/models/Profile.js:201 | inserting into a sorted list keeps it sorted and adds exactly the new skill |
| SkillOrder.InsertTies | server/models/Profile.js:201 | insertion places the new skill ahead of every skill it ties with |
| SkillOrder.StableSort | server/models/Profile.js:200-201 | the sort's output is ordered, is a permutation of its input, and keeps tied skills in input order |
| SkillOrder.StableIsPermutation | server/models/Profile.js:200-201 | a stable reordering is a permutation |
| SkillOrder.SortedTiesDetermine | server/models/Profile.js:200-201 | two sorted lists that agree on the order of every tie group are equal |
| SkillOrder.StableSortUnique | server/models/Profile.js:200-201 | every sorted, stable reordering of a list equals `StableSort` of it |
| ProfileMethods.SkillsInCategory | server/models/Profile.js:193-195 | `getSkillsByCategory` keeps exactly the skills whose category is spelled as given, each as often as it occurs, in document order |
| ProfileMethods.SkillsInCategoryExact | server/models/Profile.js:193-195 | an unknown category spelling selects nothing; a known one selects exactly that category |
| ProfileMethods.GetTopSkills | server/models/Profile.js:198-203 | the profile's skills are sorted by level, stably and as a permutation, and nothing else changes; the result is a prefix of them whose length follows `slice(0, limit)` with default 10 |
| ProfileMethods.TopSkillsAreTop | server/models/Profile.js:198-203 | the first top skill has the highest level of all, and no skill left out outranks a skill returned |
| ProfileMethods.TopSkillsKeepTieOrder | server/models/Profile.js:200-201 | the skills of each level keep their document order |
| Grouping.Lookup | server/controllers/profileController.js:294-296 | a key is present exactly when some bucket carries it |
| Grouping.AddSkill | server/controllers/profileController.js:293-299 | one reduce step creates a key only on the first sight of a category, at the end, and adds one skill |
| Grouping.AddSkillBucket | server/controllers/profileController.js:297 | one reduce step appends the skill to its own bucket and leaves every other bucket as it was |
| Grouping.FirstSeenSnoc | server/controllers/profileController.js:293-299 | appending a skill moves no category's first occurrence, except that of a new category |
| Grouping.GroupByCategory | server/controllers/profileController.js:293-299 | the buckets hold as many skills as there are skills |
| Grouping.GroupedBuckets | server/controllers/profileController.js:293-299 | each bucket holds exactly the skills of its category, in document order |
| Grouping.GroupedKeys | server/controllers/profileController.js:293-299 | the keys are exactly the categories present, in order of first occurrence |
| Grouping.GroupKeysDistinct | server/controllers/profileController.js:293-299 | no key appears twice |
| Grouping.Flatten | client/src/pages/Skills.js:115-121 | the concatenated buckets are as long as the buckets together, and bucket `i` is the run starting after the buckets before it |
| Grouping.BucketsInPlaceUnique | client/src/pages/Skills.js:115-121 | a list of the right length with every bucket in its run is the concatenation of the buckets |
| Grouping.FlattenGroupedInOrder | server/controllers/profileController.js:293-299 | in the concatenated grouping, run `i` is exactly the skills of the `i`-th category seen, in document order |
| Grouping.FlattenGrouped | server/controllers/profileController.js:293-299 | concatenating the buckets gives back every skill, each as often as it occurs |
| Controller.MentionsWeaken | server/controllers/profileController.js:220-257 | a field that contains a term also contains every part of that term |
| Controller.ProjectCandidates | server/controllers/profileController.js:130-137 | with no or an empty `skill` every project is a candidate; otherwise the candidates are exactly the projects having a skill that contains the lower-cased filter, each as often as it occurs, in order |
| Controller.PageCount | server/controllers/profileController.js:150 | `Math.ceil(total / limit)` is the fewest pages of `limit` items that hold `total` items, and is 0 only when there is nothing to show |
| Controller.SkipIsProduct | server/controllers/profileController.js:120 | the skip of a page counts `limit` items for each earlier page |
| Controller.OffsetIsProduct | server/controllers/profileController.js:120 | the offset is `(page - 1) * limit` for every page number, including 0 and negative ones |
| Controller.PageOf | server/controllers/profileController.js:141 | page `page` holds the items after the skip, up to `limit` of them |
| Controller.GetProjects | server/controllers/profileController.js:117-152 | the pagination block reports page, limit, the candidate count and the page count; page 1 and later pages are windows of the candidates; page 0 is empty; every page is a subsequence of the projects |
| Controller.NegativePageCountsFromEnd | server/controllers/profileController.js:120-141 | a negative page selects the window ending `-page * limit` items before the end of the candidates |
| Controller.PagePastEnd | server/controllers/profileController.js:139-151 | a page after the last one is empty and reports the same total |
| Controller.PageIsSlice | server/controllers/profileController.js:141 | every page from 1 on is one contiguous run of the candidates |
| Controller.PagesUpToPrefix | server/controllers/profileController.js:139-151 | pages 1 to k, concatenated, are the first k pages' worth of the candidates |
| Controller.PagesCoverCandidates | server/controllers/profileController.js:139-151 | reading pages 1 to `pages` in order yields every candidate exactly once, in order |
| Controller.SearchTerm | server/controllers/profileController.js:210-257 | the summary is present exactly when name, bio or title match; each list keeps exactly the matching projects, skills, work entries and education entries, each as often as it occurs, in order |
| Controller.SearchProfile | server/controllers/profileController.js:193-263 | a missing or empty `q` fails with "Search query is required"; any other `q` is searched lower-cased and echoed back |
| Controller.SearchEmptyIff | server/controllers/profileController.js:210-257 | the result is entirely empty exactly when nothing in the profile matches |
| Controller.SearchNarrows | server/controllers/profileController.js:210-257 | a longer query finds a subsequence of what any part of it finds, in every section |
| Controller.SkillFilterWithinSearch | server/controllers/profileController.js:133-136 | the projects a skill filter keeps are among the projects a search for the same text finds |
| Controller.GetSkillsByCategory | server/controllers/profileController.js:274-303 | a non-empty `category` gives the flat list of that category's skills, each as often as it occurs, in order; otherwise the grouping, whose buckets are the categories' skills, whose keys are the categories present in first-seen order, and whose size is the number of skills |
| Controller.GroupedAgreesWithFlat | server/controllers/profileController.js:286-303 | the flat answer for a category is that category's bucket of the grouped answer |
| SkillsPage.SkillLevel | client/src/pages/Skills.js:64-67 | the bar width lies in 0..100; it is 0 exactly for an unknown level, and 25, 50, 75 and 100 exactly for beginner, intermediate, advanced and expert |
| SkillsPage.SkillLevelFollowsWeight | client/src/pages/Skills.js:64-67 | the bar width orders levels as their rank does, and differs for different levels |
| SkillsPage.NoDevOpsOrMobileTab | client/src/pages/Skills.js:54-62 | only the first tab is "all", and no tab shows devops or mobile |
| SkillsPage.Kept | client/src/pages/Skills.js:91-95 | a non-empty search term keeps exactly the skills whose lower-cased name contains the lower-cased term, each as often as it occurs, in order; an empty term keeps all |
| SkillsPage.Refine | client/src/pages/Skills.js:89-106 | the searched list comes out ordered by the chosen key and stable; it holds each kept skill as often as the input does; with an empty term it is a permutation of its input |
| SkillsPage.Working | client/src/pages/Skills.js:85-87 | the list to filter is the array for "all", the bucket for a category, or nothing when the data is missing |
| SkillsPage.FilterSkills | client/src/pages/Skills.js:84-109 | missing data gives an empty list; the grouped object under "all" comes back untouched; otherwise the result holds each searched skill of the working list as often as that list does, sorted stably by the chosen key |
| SkillsPage.AllSkills | client/src/pages/Skills.js:116-121 | the spread is empty without data; otherwise it is as long as the buckets together and holds each bucket as one run, in key order |
| SkillsPage.TabReachesShown | client/src/pages/Skills.js:111-127 | each tab reaches its own list through `filterSkills`: everything under "all", its bucket otherwise |
| SkillsPage.CurrentSkills | client/src/pages/Skills.js:111-127 | the current tab lists the searched skills of its list, each as often as that list holds it, sorted stably by the chosen key; with an empty search it lists all of them |
| SkillsPage.AllTabListsEverySkill | client/src/pages/Skills.js:113-123 | under "all" with no search, the page lists every skill of the profile as often as it occurs |
| SkillsPage.NamedTabShowsItsCategory | client/src/pages/Skills.js:54-62 | a category tab lists only its own category, so devops and mobile skills appear only under "all" |
| SkillsPage.NamedTabListsWholeCategory | client/src/pages/Skills.js:124-126 | with no search, a category tab lists every skill of that category |
| Scenarios.ProjectScenarios | server/tests/profile.test.js:196-225 | for the two-project fixture: the default page lists both and reports a total of 2; `skill=react` keeps only "React App"; `limit=1` gives one project with page 1 and limit 1 |
| Scenarios.TopSkillScenarios | server/tests/profile.test.js:241-258 | for the three-skill fixture: the default limit returns three skills with the expert first; `limit=2` returns two |
| Scenarios.SearchScenarios | server/tests/profile.test.js:280-299 | for the search fixture: `q=react` finds the header, one project and exactly the "react" skill; no `q` fails with "Search query is required" |

## Left out

- Database access is not modelled. This covers `Profile.findOne({ isActive: true })`, the 404 for a missing profile and the 500 error paths. Every handler takes the loaded profile as a parameter.
- The HTTP envelope (`success`, status codes) and the request validation middleware are not modelled.
- Query strings reach the model already parsed. Numeric coercion of strings, `NaN`, fractional numbers and repeated query keys are not modelled.
- Unicode handling is simplified. `toLowerCase` is modelled by its ASCII part. White space is ASCII blank and the control characters `\t` to `\r`. `localeCompare` is replaced by the lexicographic order on character codes.
- Dates are carried as opaque values, because nothing in the core computes with them. The `links` sub-document is modelled only by its five `trim: true` string paths. A GPA is carried as a `real` and only compared against the bounds 0 and 10.
- The text of Mongoose's validation messages is not modelled. A failed cast reports the failing paths.
- `unique`, the indexes and the timestamps of the schema are left out, because they are database behaviour.
- Schema.CastProfile: takes the sub-documents already cast by `CastSkill`, `CastProject`, `CastWork` and `CastEducation`. It requires them to be in stored form instead of casting them again.
- Controller.GetProjects: requires `limit >= 1`, so zero and negative limits are not modelled. With a zero limit the page count is `Infinity` when there are candidates and `NaN` when there are none; neither is an integer. The `/projects` route has no query validation (server/routes/profile.js:22), so a negative limit does reach the handler, and its page window and page count are left out. Every page number is allowed.
- Controller.SearchProfile: takes `q` as given, and the model follows the controller, which rejects only a missing or empty `q`. On `/search` the query validation (server/middleware/validation.js:61-68) runs first. It rewrites `q` to its trim, so the model's `q` stands for the trimmed query. It rejects a present `q` whose trim is empty or longer than 200 characters, answering 400 with `Validation failed` rather than the controller's message; the model does not carry that cap or that response.
- ProfileMethods.GetTopSkills: `limit` is an integer or absent. The controller's `parseInt` and a `NaN` limit are not modelled.
- SkillsPage.FilterSkills: sorts a copy. The page sorts the cached bucket in place, so the cache is reordered too; that side effect is not modelled.
- SkillsPage.SkillLevel: covers only the level spellings. It does not cover names such as `constructor`, which the page's object lookup would find on the object prototype.
- SkillsPage.Working: covers only the tab values. An array indexed by a numeric string, which no tab produces, is not modelled.
- The rest of the client is not modelled: rendering, icons, colours and the top-skills chart.
- `getProfile`, `createProfile`, `updateProfile`, `deleteProfile` and authentication are outside the modelled core.
