# Ai-Mentor core rules, modelled in Dafny

Ai-Mentor is a learning assistant. An Express backend generates skill roadmaps and
micro-lessons with the Gemini text-generation API, caches them in memory,
grades project submissions with a stub scorer, and records a user's progress
in MongoDB. A React client shows roadmaps, toggles completed topics and steps,
and falls back to a small built-in roadmap catalog when its database has no row.

This project models the sequential rules under that glue as pure Dafny
functions over immutable values, and proves what they promise:

- **Project catalog and stub scorer** (`Projects`). The template is chosen by the
  first key of the ordered catalog that occurs in the lower-cased sub-skill.
  A submission is validated, scored from a fixed score list and given a
  feedback band. `Math.random()` becomes a real parameter in [0, 1).
- **Generation pipeline without the network** (`Gemini`, `GenerationCache`,
  `RoadmapRoute`, `MicroSkillsRoute`). Covers:
  - how a reply of the text-generation endpoint becomes text or an error;
  - the code-fence stripping before `JSON.parse`;
  - the route caches, threaded through as a `map` value;
  - the reshaping of generated sub-skills and micro-skills;
  - the deterministic fallback payloads.

  The generator's outcome and `JSON.parse` are parameters.
- **Progress and user-record updates** (`ProgressRoute`, `UserModel`,
  `UsersRoute`). Each handler is the update it applies to an in-memory copy of
  the user records. Its HTTP error statuses are modelled as a `Reply` datatype.
  The three source files use three different user shapes, and each is modelled as
  its own record type.
- **Static roadmap builders and lookups** (`SkillsRoute`, `FallbackRoadmaps`,
  `RoadmapService`): the three-level skill roadmap, the fallback catalog with
  its trimmed, case-insensitive exact lookup, the id slug of a fallback
  roadmap, and the database-or-fallback decision.
- **Client completion toggles** (`RoadmapContext`, `Dashboard`): the topic set
  toggle and clear, the step-list toggle, the progress percentage and the
  progress message bands.

`Wrappers` and `Http` hold the `Option`, `Result`, `Reply` and `Answer` shapes.
`Js` models the JavaScript semantics the handlers rely on:
- truthiness and `||` defaults;
- `toLowerCase`, `toUpperCase` and `trim`, with the ECMAScript white-space set;
- `startsWith`, `endsWith` and `includes`;
- decimal formatting inside template literals.

Percentages are exact. `Math.round(c / t * 100)` is rounding half up of the
rational `100c/t`, computed as `(200c + t) div 2t`. The dashboard percentage is
a Dafny `real`.

## Model

| member | source | states |
|---|---|---|
| Js.Lower | backend/routes/roadmap.js:15 | `toLowerCase` keeps the length and maps every character through the ASCII letter lower-casing |
| Js.LowerIdempotent | backend/routes/roadmap.js:15 | lower-casing a lower-cased string changes nothing |
| Js.LowerConcat | backend/routes/microSkills.js:16 | lower-casing distributes over concatenation |
| Js.Upper | backend/routes/skills.js:5 | `toUpperCase` keeps the length and maps every character through the ASCII letter upper-casing |
| Js.Trim | backend/services/gemini.js:63 | `trim` yields a string with no white space at either end, found in the input right after its leading white space, and everything it drops on either side is white space |
| Js.TrimTrimmed | backend/services/gemini.js:63 | trimming a string without surrounding white space returns it unchanged |
| Js.TrimPadded | backend/routes/roadmap.js:15 | any white space added around a trimmed string is removed again by `trim` |
| Js.NatToString | backend/routes/roadmap.js:27 | the decimal text of an index: non-empty, all digits, without a leading zero, and its digits read back as a decimal number give the index |
| Js.NatToStringInjective | backend/routes/roadmap.js:27 | distinct indices render as distinct decimal texts |
| Js.IndexedIdsDistinct | backend/routes/roadmap.js:27 | `${key}-${i}` identifiers of distinct indices differ |
| Js.IndexedIdsPairwiseDistinct | backend/routes/roadmap.js:27 | a list numbered `${key}-${i}`, as the reshaped sub-skills and the reshaped lessons (backend/routes/microSkills.js:28) are, has pairwise distinct ids |
| Projects.FirstKeyIn | backend/routes/projects.js:43-48 | the returned position is the first catalog key, from the start position on, contained in the text; none means no later key is contained |
| Projects.ProjectFor | backend/routes/projects.js:39-48 | the template chosen is that of the first key contained in the lower-cased sub-skill; when no key is contained it is the default template |
| Projects.GetProject | backend/routes/projects.js:50-58 | the reply echoes the sub-skill, uses id "project-" + lower-cased sub-skill, passing score 75, maximum 100 and the chosen template's contents |
| Projects.AdvancedReactPatterns | backend/routes/projects.js:39-48 | "Advanced React Patterns" gets the react template |
| Projects.JavascriptBeforeJava | backend/routes/projects.js:6-33 | "javascript basics" contains the java key too, yet gets the javascript template because its key is declared first |
| Projects.DatabaseBeforeData | backend/routes/projects.js:6-33 | "database design" contains the data key too, yet gets the database template because its key is declared first |
| Projects.ParseSubmissionType | backend/routes/projects.js:71-74 | a submission type is accepted exactly when it is one of code, url, file |
| Projects.GenerateFeedback | backend/routes/projects.js:105-131 | excellent exactly from 90, great exactly in 80..89, good exactly in 75..79, keep trying exactly below 75 |
| Projects.ScoreIndex | backend/routes/projects.js:76-78 | the index is `floor(random * 6)`, always a valid position in the score list |
| Projects.Submit | backend/routes/projects.js:66-98 | 400 exactly when sub-skill or type is missing or the type is invalid; otherwise the score is the list entry at the random index, passed iff score >= 75, maximum 100, the band's feedback, and the request fields echoed |
| Projects.ContentNotRead | backend/routes/projects.js:64-94 | the submitted content has no influence on the reply |
| Projects.KeepTryingIffFailed | backend/routes/projects.js:76-81 | for an accepted submission the keep-trying feedback is given exactly when the submission did not pass |
| Projects.EveryScoreReachable | backend/routes/projects.js:76-78 | every entry of the score list is drawn for some random value |
| Projects.FeedbackMonotone | backend/routes/projects.js:105-131 | a higher score never gets a lower feedback band |
| Gemini.GenError.Message | backend/services/gemini.js:11-75 | a transport failure passes its own message through; a bad status gives "Gemini API error: " followed by the status in decimal; every other message is non-empty |
| Gemini.ApiStatusMessagesDistinct | backend/services/gemini.js:42 | different statuses give different error messages |
| Gemini.GenerateContent | backend/services/gemini.js:9-57 | text is returned exactly when a key is configured, the reply is ok and carries non-empty candidate text; otherwise the missing key, the thrown error, the bad status or the missing content is reported, in that order |
| Gemini.DropOpeningFence | backend/services/gemini.js:64-68 | a leading json-tagged fence loses 7 characters, else a bare fence 3, else nothing |
| Gemini.DropClosingFence | backend/services/gemini.js:69-71 | a trailing fence loses 3 characters, else nothing |
| Gemini.StripFences | backend/services/gemini.js:63-72 | the text handed to the parser is trimmed and never longer than the reply |
| Gemini.ParseJsonResponse | backend/services/gemini.js:60-77 | parsing succeeds exactly when the parser accepts the stripped text; every failure is the single parse error |
| Gemini.Generate | backend/services/gemini.js:99-100 | a generation failure is passed on unchanged; generated text goes through the fence stripping and parser |
| Gemini.StripFencesIsSlice | backend/services/gemini.js:63-72 | the stripped text is a contiguous piece of the reply |
| Gemini.AtMostOneFencePerSide | backend/services/gemini.js:64-71 | stripping cuts 0, 3 or 7 characters from the front of the trimmed reply and 0 or 3 from its back, and nothing else |
| Gemini.FencedRoundTrip | backend/services/gemini.js:63-72 | a trimmed payload wrapped in a json-tagged fence block is recovered exactly |
| Gemini.BareFencedRoundTrip | backend/services/gemini.js:63-72 | a trimmed payload wrapped in an untagged fence block is recovered exactly: the bare fence is not mistaken for a json-tagged one |
| Gemini.UnfencedUnchanged | backend/services/gemini.js:63-72 | a trimmed payload that neither starts nor ends with a fence passes unchanged |
| Gemini.JsonTagCheckedFirst | backend/services/gemini.js:64-68 | the json tag of an opening fence is removed with it, so the tagged prefix is checked before the bare fence |
| Gemini.InnerFencesKept | backend/services/gemini.js:64-71 | only the outermost fence on each side is removed; an inner fenced block survives |
| GenerationCache.Serve | backend/routes/roadmap.js:17-41 | a hit returns the stored payload; a miss with a produced payload stores and returns it; a miss without one returns the fallback and stores nothing; other entries are untouched |
| GenerationCache.HitIgnoresProducer | backend/routes/roadmap.js:17-20 | on a hit neither the generator's outcome nor the fallback matters |
| GenerationCache.StoredKeyHits | backend/routes/roadmap.js:33 | once a payload is stored, the next request for that key returns it and changes nothing |
| GenerationCache.ServeKeepsInvariant | backend/routes/roadmap.js:25-33 | any property held by every cached entry and by the produced payload holds for every entry afterwards |
| RoadmapRoute.Reshape | backend/routes/roadmap.js:25-31 | length kept; names and descriptions kept; sub-skill i gets id key-i; order is the supplied one when truthy, else i+1; only the first is unlocked; none completed |
| RoadmapRoute.Produced | backend/routes/roadmap.js:23-31 | a generated roadmap is usable exactly when generation succeeded and it has a sub-skill list with no `null` element, whose i-th element then becomes the i-th reshaped sub-skill under the cache key |
| RoadmapRoute.NonNull | backend/routes/roadmap.js:26-28 | the sub-skill array passes exactly when no element is `null`, and then element for element |
| RoadmapRoute.NullSubSkillFallsBack | backend/routes/roadmap.js:26-40 | a generated sub-skill array holding `null` makes the reshaping throw, so the fallback is answered and nothing is cached |
| RoadmapRoute.FallbackRoadmap | backend/routes/roadmap.js:45-58 | skill name is the skill or "Programming", domain is it + " Development", five sub-skills with raw-name ids name-0..4, orders 1..5, only the first unlocked |
| RoadmapRoute.PostRoadmap | backend/routes/roadmap.js:7-42 | a missing skill is 400 with the cache unchanged; otherwise the reply is the cached entry under lower(trim) key, or the newly reshaped roadmap which is cached, or the fallback with the cache unchanged |
| RoadmapRoute.CacheKey | backend/routes/roadmap.js:15 | the key is the lower-cased skill with only white space cut from its two ends; it is trimmed and has no upper-case ASCII letter |
| RoadmapRoute.CacheKeyIgnoresCase | backend/routes/roadmap.js:15 | skills equal up to letter case share the cache key |
| RoadmapRoute.CacheKeyIgnoresPadding | backend/routes/roadmap.js:15 | white space around a skill does not change its cache key |
| RoadmapRoute.CacheKeyIdempotent | backend/routes/roadmap.js:15 | a cache key is its own cache key |
| RoadmapRoute.HitIgnoresGenerator | backend/routes/roadmap.js:17-20 | on a cache hit the generator's outcome does not matter |
| RoadmapRoute.RepeatedRequestHits | backend/routes/roadmap.js:17-33 | after a roadmap is cached, a request whose skill has the same key gets the same reply and leaves the cache as it is |
| RoadmapRoute.PostRoadmapOnlyAdds | backend/routes/roadmap.js:33 | a request never changes or removes an entry; the only key it can add is the request's own |
| RoadmapRoute.PostRoadmapKeepsCacheWellFormed | backend/routes/roadmap.js:25-33 | if every cached roadmap is reshaped under its key, that stays so |
| RoadmapRoute.ServedRoadmapShaped | backend/routes/roadmap.js:25-41 | with a well-formed cache every roadmap served has ids, unlock and completion flags shaped under the cache key or, for the fallback, the raw skill |
| MicroSkillsRoute.Reshape | backend/routes/microSkills.js:26-31 | length and lesson content kept; lesson i gets id key-i and order i+1 whatever was supplied; none completed |
| MicroSkillsRoute.Produced | backend/routes/microSkills.js:24-31 | generated lessons are usable exactly when generation succeeded with a lesson list, which is then reshaped |
| MicroSkillsRoute.StripBackslashS | backend/routes/microSkills.js:63 | the identifier mangling removes every backslash followed by one or more s, never lengthens, and leaves a string without backslashes unchanged |
| MicroSkillsRoute.StripPlainPrefix | backend/routes/microSkills.js:63 | a leading part without backslashes is kept character for character in front of the rest |
| MicroSkillsRoute.BackslashRunDropped | backend/routes/microSkills.js:63 | a backslash followed by a whole run of s is deleted and nothing else there changes |
| MicroSkillsRoute.LoneBackslashKept | backend/routes/microSkills.js:63 | a backslash not followed by s is kept |
| MicroSkillsRoute.FallbackMicroSkills | backend/routes/microSkills.js:45-91 | four lessons titled Introduction, Core Concepts, Practical Application, Best Practices, ids skill-subSkill-i in raw case, orders 1..4, none completed, sub-skill echoed |
| MicroSkillsRoute.PostMicroSkills | backend/routes/microSkills.js:8-42 | a missing skill or sub-skill is 400 with the cache unchanged; otherwise cached entry, newly cached reshaped lessons, or the fallback with the cache unchanged |
| MicroSkillsRoute.KeysCollide | backend/routes/microSkills.js:16 | the composite key is not injective: ("a-b", "c") and ("a", "b-c") share it |
| MicroSkillsRoute.CacheKey | backend/routes/microSkills.js:16 | the key is the lower-cased skill, a dash, then the lower-cased sub-skill, with no upper-case ASCII letter |
| MicroSkillsRoute.CacheKeyIgnoresCase | backend/routes/microSkills.js:16 | requests equal up to letter case share the key |
| MicroSkillsRoute.HitIgnoresGenerator | backend/routes/microSkills.js:18-21 | on a cache hit the generator's outcome does not matter |
| MicroSkillsRoute.RepeatedRequestHits | backend/routes/microSkills.js:18-33 | after lessons are cached, a request with the same key gets the same reply and leaves the cache as it is |
| MicroSkillsRoute.PostMicroSkillsKeepsCacheWellFormed | backend/routes/microSkills.js:26-33 | if every cached entry is reshaped under its key, that stays so |
| MicroSkillsRoute.FallbackIdsAgreeWhenLowerCase | backend/routes/microSkills.js:16-50 | the fallback's raw-case ids follow the cache-key scheme only when skill and sub-skill are already lower case |
| MicroSkillsRoute.SpacesKeptInIdentifiers | backend/routes/microSkills.js:63-73 | a sub-skill without backslashes, spaces included, is embedded unchanged in both generated identifiers |
| MicroSkillsRoute.BackslashRunRemoved | backend/routes/microSkills.js:63 | what the pattern does match is a backslash with its run of s: "a\\ssb" becomes "ab" |
| ProgressRoute.RoundHalfUp | backend/routes/progress.js:23-25 | the result r is the integer nearest to 100c/t with halves rounded up: 2tr - t <= 200c < 2tr + t |
| ProgressRoute.Percentage | backend/routes/progress.js:23-25 | 0 unless the total is positive; otherwise the rounded percentage of the completed count, or the type error when the completed list is missing |
| ProgressRoute.PercentageNotClamped | backend/routes/progress.js:23-25 | 3 completed of 2 gives 150: the percentage is not clamped |
| ProgressRoute.PercentageWithinBounds | backend/routes/progress.js:23-25 | with no more completed than total topics the percentage lies in 0..100 |
| ProgressRoute.RoundingExamples | backend/routes/progress.js:24 | 1/2 gives 50, 1/3 gives 33, 2/3 gives 67, 1/8 gives 13 |
| ProgressRoute.FindSkill | backend/routes/progress.js:19-21 | the index found is the first entry whose lower-cased name equals the lower-cased skill; none means no entry matches |
| ProgressRoute.Upsert | backend/routes/progress.js:27-46 | the first match is replaced in place with the request's skill, its domain and total or the old ones; without a match an entry with domain "" and total 15 is appended; other entries untouched |
| ProgressRoute.PostUpdate | backend/routes/progress.js:6-55 | 400 without user id or skill, 404 for an unknown user, 500 for a missing topic list with a positive total, each leaving the store unchanged; otherwise the upserted list is stored and returned |
| ProgressRoute.FindAfterUpsert | backend/routes/progress.js:19-46 | after an upsert the skill is found at the replaced index, or at the old length when appended |
| ProgressRoute.UpdateIdempotent | backend/routes/progress.js:6-55 | repeating a successful update gives the same reply and the same store |
| ProgressRoute.UpsertTouchesOneEntry | backend/routes/progress.js:27-46 | the list grows by at most one, and only the matched or appended position differs, holding the request's skill |
| ProgressRoute.ReplaceWithoutTotal | backend/routes/progress.js:23-33 | replacing without a total keeps the old total but records percentage 0 |
| ProgressRoute.Remove | backend/routes/progress.js:82-84 | an entry is kept exactly when its name does not match the skill case-insensitively |
| ProgressRoute.RemoveConcat | backend/routes/progress.js:82-84 | removal keeps the order of the remaining entries |
| ProgressRoute.RemoveNothing | backend/routes/progress.js:82-84 | removing a skill no entry matches changes nothing |
| ProgressRoute.DeleteSkill | backend/routes/progress.js:73-93 | 404 for an unknown user with the store unchanged; otherwise the filtered list is stored and returned |
| ProgressRoute.DeleteIdempotent | backend/routes/progress.js:73-93 | deleting twice is deleting once |
| ProgressRoute.DeleteUndoesInsert | backend/routes/progress.js:37-84 | deleting a skill just appended restores the list |
| UserModel.FindSkill | backend/models/User.js:122 | the index found is the first skill entry matching case-insensitively; none means no entry matches |
| UserModel.FindSubSkill | backend/models/User.js:129 | the index found is the first sub-skill entry with exactly that id; none means no entry has it |
| UserModel.Record | backend/models/User.js:136-147 | afterwards the micro-skill is recorded; an absent id is appended at the end with the given title, a present one leaves the list as it was; distinct ids stay distinct |
| UserModel.UpdateSubSkills | backend/models/User.js:129-147 | the sub-skill list keeps its length exactly when the sub-skill id is found, and otherwise grows by one; the found or appended slot holds the previous (or a fresh) entry with only its micro-skill list changed, by recording the micro-skill; other entries untouched |
| UserModel.UpdateMicroSkillProgress | backend/models/User.js:121-151 | the skill list keeps its length exactly when the skill is found, and otherwise grows by one; the found or appended slot holds the previous (or a fresh) entry with only its sub-skill list changed, by recording under the sub-skill; other skills untouched |
| UserModel.AppendOnly | backend/models/User.js:136-147 | the affected micro list is the old one with at most the new id appended, and the sub-skill list grows by at most one |
| UserModel.UpdateIdempotent | backend/models/User.js:121-151 | calling twice with the same arguments equals calling once |
| UserModel.SubSkillsIdempotent | backend/models/User.js:129-147 | recording into the sub-skill list twice equals recording once |
| UserModel.UpdateKeepsNoDuplicates | backend/models/User.js:136-147 | if no micro list holds an id twice, none does afterwards |
| UserModel.NewSubSkillAppended | backend/models/User.js:131-134 | an unknown sub-skill id gets an unlocked entry appended, holding only the new micro-skill |
| UserModel.NewSkillAppended | backend/models/User.js:124-134 | an unknown skill gets an entry appended with one new sub-skill holding the new micro-skill |
| UsersRoute.UpdateProfile | backend/routes/users.js:21-47 | 403 when the ids differ, 404 for an unknown user; otherwise name, bio and avatar are replaced exactly when given and nothing else changes |
| UsersRoute.FindSkillById | backend/routes/users.js:103 | the index found is the first skill with the id; none means no skill has it |
| UsersRoute.RemoveId | backend/routes/users.js:139 | a skill is kept exactly when its id differs |
| UsersRoute.AddSkill | backend/routes/users.js:49-88 | 403, then 400 without name, then 404, then 409 for a case-insensitive duplicate, each leaving the users unchanged; otherwise the skill is appended with level "Beginner" and years 0 as defaults |
| UsersRoute.UpdateSkill | backend/routes/users.js:90-121 | 403, 404 user, 404 skill, each leaving the users unchanged; otherwise only that skill changes, level replaced when truthy and years when given |
| UsersRoute.DeleteSkill | backend/routes/users.js:123-150 | 403, 404 user, 404 skill, each leaving the users unchanged; otherwise exactly the skills with that id are removed |
| UsersRoute.StartRoadmap | backend/routes/users.js:152-187 | 403, then 400 without roadmap id or role, then 500 for an unknown user; otherwise the current roadmap is replaced with progress 0 and the given or empty step list |
| UsersRoute.UpdateRoadmapProgress | backend/routes/users.js:189-216 | 403, then 404 without a current roadmap; otherwise steps and progress replaced when given, roadmap id and role untouched |
| UsersRoute.OwnerCheckFirst | backend/routes/users.js:21-216 | when the ids differ every mutating route answers 403 and changes nothing |
| UsersRoute.AddSkillKeepsNoCaseDuplicates | backend/routes/users.js:66-76 | if no two skills share a case-insensitive name before an add, none do after |
| UsersRoute.RemoveIdConcat | backend/routes/users.js:139 | removal keeps the order of the remaining skills |
| UsersRoute.DeleteUndoesAdd | backend/routes/users.js:49-150 | deleting a freshly added skill by its new id restores the users |
| UsersRoute.UpdateSkillIdempotent | backend/routes/users.js:103-109 | repeating a skill update gives the same reply and the same users |
| UsersRoute.StartThenProgress | backend/routes/users.js:160-203 | after a start, a progress update succeeds and keeps roadmap id and role while replacing what it is given |
| SkillsRoute.Capitalize | backend/routes/skills.js:5 | the first character is upper-cased and the rest kept |
| SkillsRoute.GenerateRoadmap | backend/routes/skills.js:4-58 | the skill is echoed, the domain is the capitalised skill + " Development", three levels Beginner, Intermediate, Advanced of five topics and three projects, the first topic naming the skill |
| SkillsRoute.Search | backend/routes/skills.js:61-77 | 400 without skill, otherwise the generated roadmap |
| SkillsRoute.TopicTotalIsProgressDefault | backend/routes/skills.js:10-56 | the roadmap has 15 topics in all, the default topic total of the progress route |
| SkillsRoute.OnlyFirstTopicDepends | backend/routes/skills.js:14-54 | roadmaps for any two skills differ at most in the first Beginner topic |
| SkillsRoute.DomainCapitalisesFirst | backend/routes/skills.js:5 | "react" is filed under "React Development" |
| FallbackRoadmaps.FindRole | src/data/fallbackRoadmaps.js:114-116 | the index found is the first entry whose lower-cased role equals the key; none means no entry's does |
| FallbackRoadmaps.GetFallbackRoadmap | src/data/fallbackRoadmaps.js:112-117 | an entry is returned exactly when some catalog role equals the trimmed lower-cased input, and it is that catalog entry itself |
| FallbackRoadmaps.CatalogRolesLower | src/data/fallbackRoadmaps.js:3-75 | the lower-cased roles are "frontend developer", "devops engineer", "full stack developer" |
| FallbackRoadmaps.RolesDistinct | src/data/fallbackRoadmaps.js:1-110 | catalog roles differ pairwise ignoring case, so at most one entry matches |
| FallbackRoadmaps.StepsNumbered | src/data/fallbackRoadmaps.js:1-110 | every entry has three steps numbered 1, 2, 3 |
| FallbackRoadmaps.PaddedMixedCaseFound | src/data/fallbackRoadmaps.js:112-117 | "  frontend DEVELOPER " finds the Frontend Developer entry |
| FallbackRoadmaps.ExactMatchOnly | src/data/fallbackRoadmaps.js:112-117 | "Frontend" and "Backend Developer" find nothing: the match is exact, not by substring |
| RoadmapService.DashRuns | frontend/src/services/roadmapService.js:36 | replacing white-space runs leaves no white space and never lengthens |
| RoadmapService.DashRunsPlain | frontend/src/services/roadmapService.js:36 | a prefix without white space is kept unchanged |
| RoadmapService.DashRunsRun | frontend/src/services/roadmapService.js:36 | a whole run of white space becomes a single dash |
| RoadmapService.NoWhiteSpaceUnchanged | frontend/src/services/roadmapService.js:36 | text without white space is unchanged |
| RoadmapService.DashTwoWords | frontend/src/services/roadmapService.js:36 | two words each preceded by a white-space run become dash, word, dash, word |
| RoadmapService.GetFallbackRoadmapData | frontend/src/services/roadmapService.js:28-43 | nothing exactly when the catalog has no entry; otherwise id "fallback-" + the dashed lower-cased input, and role, description and steps from the catalog entry |
| RoadmapService.FetchRoadmapByRole | frontend/src/services/roadmapService.js:4-26 | a query with a row returns the row; an error, an exception or no row all return the fallback data or nothing |
| RoadmapService.FetchOutcomes | frontend/src/services/roadmapService.js:4-26 | the database row is returned exactly when the query found one, the catalog entry exactly when it did not and the catalog knows the role, and `null` exactly when neither has it |
| RoadmapService.LeadingSpaceKeptInId | frontend/src/services/roadmapService.js:28-43 | " Frontend Developer" finds the entry but, being untrimmed, gets id "fallback--frontend-developer" |
| RoadmapContext.ToggleTopic | src/context/RoadmapContext.jsx:9-19 | the topic's membership is flipped and every other topic's kept |
| RoadmapContext.ClearCompleted | src/context/RoadmapContext.jsx:21-23 | no topic is completed afterwards, whatever was before |
| RoadmapContext.ToggleTwice | src/context/RoadmapContext.jsx:9-19 | toggling a topic twice restores the set |
| RoadmapContext.TogglesCommute | src/context/RoadmapContext.jsx:9-19 | toggles of two topics commute |
| RoadmapContext.ToggleChangesCountByOne | src/context/RoadmapContext.jsx:9-19 | a toggle changes the number of completed topics by exactly one |
| Dashboard.RemoveAll | frontend/src/components/Dashboard.jsx:33 | the filter keeps exactly the steps other than the given one and never lengthens |
| Dashboard.ToggleStep | frontend/src/components/Dashboard.jsx:31-34 | the step's presence is flipped, other steps' kept, and an absent step is appended at the end |
| Dashboard.RemoveAllConcat | frontend/src/components/Dashboard.jsx:33 | the filter keeps the order of the remaining steps |
| Dashboard.RemoveAllNoDuplicates | frontend/src/components/Dashboard.jsx:33 | filtering a duplicate-free list leaves it duplicate-free |
| Dashboard.ToggleKeepsNoDuplicates | frontend/src/components/Dashboard.jsx:32-34 | a duplicate-free list stays duplicate-free |
| Dashboard.ToggleTwiceAbsent | frontend/src/components/Dashboard.jsx:32-34 | toggling an absent step twice restores the exact list |
| Dashboard.ToggleTwicePresent | frontend/src/components/Dashboard.jsx:32-34 | toggling a present step twice keeps the same steps, with that step moved to the end |
| Dashboard.ProgressPercentage | frontend/src/components/Dashboard.jsx:49-51 | 0 without steps; otherwise the percentage times the total is 100 times the completed count |
| Dashboard.PercentageBelow | frontend/src/components/Dashboard.jsx:49-56 | the percentage is below a bound exactly when 100 times the completed count is below bound times total |
| Dashboard.ProgressMessage | frontend/src/components/Dashboard.jsx:53-58 | each of the four messages is chosen exactly in its band: 0, above 0 and below 50, 50 up to below 100, 100 and above |
| Dashboard.MessageBands | frontend/src/components/Dashboard.jsx:49-58 | start exactly when nothing is completed or there are no steps, great start below half, excellent from half to below all, congratulations from all on |

## Left out

- Network, storage and clocks: the Gemini `fetch`, its prompt text and sampling parameters, Mongoose and Supabase reads and writes, `localStorage`, and every timestamp, `submissionId` and the pre-save hook. A handler is modelled as the update it applies to an in-memory map of users or a cache value.
- Gemini.GenerateContent: the reply is abstracted to its `ok` flag, status and the text at `candidates[0].content.parts[0].text`. The error body logged on a bad status is not modelled.
- Gemini.ParseJsonResponse: `JSON.parse` is an abstract partial function supplied by the caller.
- Randomness: `Math.random()` is a real parameter in [0, 1). Floating-point products such as `Math.random() * 6` and `completedTopics.length / totalTopics * 100` are computed exactly.
- ProgressRoute.RoundHalfUp: does not model the floating-point error of `c / t * 100` before `Math.round`, because the model uses exact rationals.
- Dashboard.ProgressPercentage: is a Dafny real. The unguarded division on the toggle path (frontend/src/components/Dashboard.jsx:41) is float-only display arithmetic and is not modelled.
- Js.Lower and Js.Upper: map ASCII letters only. Non-ASCII case mapping of `toLowerCase` and `toUpperCase` is not modelled.
- Request fields are modelled as absent or string (or number, or list) values. Non-string JSON values such as an array `skill`, and invalid ObjectId cast errors, are not modelled.
- ProgressRoute.Upsert: Mongoose schema strict mode may drop fields such as `completedTopics` and `totalTopics` that the progress schema does not declare. The entry is modelled as the handler writes it.
- UsersRoute.UpdateProfile: assumes Mongoose removes `undefined` keys from the update, so an omitted field keeps its value.
- UserModel.UpdateMicroSkillProgress: models the intended find-or-create semantics. The source pushes a plain object into a Mongoose array and then mutates the plain object (backend/models/User.js:125-126, 132-133). Whether that mutation reaches the stored sub-document is defined by the library and is not modelled. Schema validation on `save` (backend/models/User.js:150) is not modelled either. `subSkillName` and `title` are declared `required` (backend/models/User.js:8-11, 23-26), and a required String rejects `''`. So the `subSkillName: ''` entry that the method creates for a new sub-skill (backend/models/User.js:132), or an absent or empty `microSkillTitle`, would by Mongoose's documented behaviour make the save reject. In that case UserModel.NewSubSkillAppended and UserModel.NewSkillAppended describe an in-memory result that is never stored; the rejection rests on the library's documented behaviour, not on anything in the repository.
- RoadmapRoute.Reshape and MicroSkillsRoute.Reshape: keep the fields the generator is asked for (name, description, order; title, explanation, code, output, notes). Any further fields the spread `...subSkill` would copy are not modelled.
- The 500 replies of the catch blocks in projects.js, skills.js and users.js come only from failures of storage or of the runtime, and are not modelled. The missing-topic-list TypeError in progress.js and the unknown user in the start-roadmap route are modelled.
- GET routes (progress listing, user fetch, roadmap service reads other than `fetchRoadmapByRole`), backend/routes/roadmaps.js (its lookup is a regular expression evaluated by the database), and backend/server.js wiring.
- React rendering, pages and components, the HTTP client wrappers and the auth contexts.
- Concurrency: read-modify-write races on a user document and duplicate generation on concurrent cache misses.
- The user model behind backend/routes/users.js is not part of this model. Its record is shaped from the fields the routes read and write.
- frontend/src/data/fallbackRoadmaps.js, imported by roadmapService.js, is not part of this model. src/data/fallbackRoadmaps.js is used in its place.
