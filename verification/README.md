# Tactical lab generator and progress model

This project models the logic of a cybersecurity-training front-end.
The application presents generated Red Team and Blue Team "labs" grouped into sector modules.
It records which labs an operative has completed, and it derives credits, a level, a rank and forum privilege from that record.
An admin panel edits users, the forum and the module list.

The model covers five pieces.

- **The lab generator** `generateTacticalLabs` (module `Generator`). It turns a sector prefix, a list of phases, a lab count and a defensive flag into one lab record per position.
  - The index arithmetic lives in `Partition`: blocks of `ceil(labCount / |phases|)`, the clamped phase index, the sub-id and the difficulty tier.
  - The string rendering lives in `Text`: decimal and hexadecimal printing, `padStart` and `join` for the generator; ASCII `toLowerCase` and `includes` for the search filters; `lastIndexOf` for splitting a completion key; `slice` and a one-character `replace` for the forum timestamps.
  - The English and Bengali templates are kept verbatim as constants.
- **The shipped catalog** `INITIAL_MODULES` (module `Catalog`): fourteen sectors, seven per team, with their authored phase tables.
- **Progress and scoring** (module `Progress`):
  - the completion key `${module.id}-${i}`;
  - the completion toggle;
  - `totalCredits` (ten per completed lab of the catalog);
  - `stats` (total labs, completed entries, level, rank);
  - the forum privilege threshold.
- **Search filters** (module `Filters`): the team and text filters over modules and over journal posts.
- **List handlers** (module `Admin`): credit grants, suspension, post deletion, module addition, and forum posting and replying.
  - The clock readings these handlers take are parameters.

Records follow `types.ts` as immutable datatypes (module `Types`).
Every derived value is a pure function of the module list and the completion map.
`Scenarios` instantiates the general results on the shipped catalog.

## Model

| member | source | states |
|---|---|---|
| Partition.LabsPerPhase | constants.tsx:11 | blocks have at least one lab whenever there are labs to place |
| Partition.BlocksCover | constants.tsx:11 | `labsPerPhase * |phases| >= labCount`, so the blocks cover every position |
| Partition.PhaseIndex | constants.tsx:14 | the phase index of every position is a valid index into the phases |
| Partition.ClampInactive | constants.tsx:14 | the `Math.min` clamp never changes the floor quotient for a position below `labCount` |
| Partition.SubId | constants.tsx:16 | the sub-id lies between 1 and `labsPerPhase` |
| Partition.Reconstruct | constants.tsx:14-16 | `phaseIndex * labsPerPhase + subId - 1` gives back the position |
| Partition.PositionInjective | constants.tsx:14-16 | two positions with the same phase index and sub-id are the same position |
| Partition.PhaseIndexMonotone | constants.tsx:14 | the phase index never decreases along the positions |
| Partition.PhaseBlock | constants.tsx:14 | a position is in phase p exactly when it lies in p's block of `labsPerPhase` positions |
| Partition.PhaseUsed | constants.tsx:11-14 | phase p receives some lab exactly when `p * labsPerPhase < labCount` |
| Partition.TwoPhasesFiveLabs | constants.tsx:11-14 | with 2 phases and 5 labs, positions 0-2 go to phase 0 and 3-4 to phase 1 |
| Partition.FourthPhaseUnused | constants.tsx:11-14 | with 4 phases and 5 labs the blocks have 2 labs and the fourth phase gets none |
| Partition.TierMonotone | constants.tsx:18 | the tier (Foundational, Specialist, Elite) never decreases along the positions |
| Partition.FirstIsFoundational | constants.tsx:18 | position 0 is Foundational whenever there is a lab |
| Partition.TierBlocks | constants.tsx:18 | Foundational is exactly the first `ceil(3n/10)` positions and Elite exactly those from `ceil(7n/10)` on |
| Text.FromToRadix | constants.tsx:19 | reading back the digits `toString` prints gives the number |
| Text.PadStart | constants.tsx:19 | `padStart` keeps the text as a suffix, fills in front with the pad character, and reaches the width |
| Text.LeadingZeros | constants.tsx:19 | leading zeros do not change the value of a digit string |
| Text.DecInjective | constants.tsx:64 | different numbers print differently |
| Text.Join | constants.tsx:51 | joining nothing gives the empty text, one element gives itself, and a join starts with its first element |
| Text.JoinSnoc | constants.tsx:51 | the join is built left to right: one more element appends the separator and that element, so every tool is printed in order |
| Text.Contains | App.tsx:104 | `includes` holds exactly when the pattern occurs at some position |
| Text.Prefix | App.tsx:138 | `slice(0, n)` keeps the first n characters, or all of a shorter text |
| Text.ReplaceFirst | App.tsx:138 | a one-character `replace` changes only the first occurrence, and keeps the length |
| Generator.LabNumber | constants.tsx:19 | the lab number is all digits, at least 4 long, exactly 4 below 10000, and reads back as `i + 1` |
| Generator.FirstTool | constants.tsx:22 | a phase's first tool when it has one, and the text `undefined` when the list is empty |
| Generator.Quiz | constants.tsx:75-79 | one question with four options whose marked answer is "Neutralize the threat" for a defensive lab and "Execute the payload" for an offensive one |
| Generator.LabAt | constants.tsx:13-80 | every lab has 4 English and 4 Bengali steps and one valid quiz answer, and carries its phase's technique, Bengali technique, platform and tools, no rule, and the structured name |
| Generator.Generate | constants.tsx:13-81 | one lab per position, each well formed, carrying its phase's technique and tools and its team's quiz answer |
| Generator.GenerateTacticalLabs | constants.tsx:5-82 | fails exactly when there are labs to make and no phases; otherwise yields the `labCount` labs of `Generate`, and no labs for a count of 0 |
| Generator.NameStructure | constants.tsx:64 | a name is prefix, dash, padded number, colon, phase name and `(Mod subId)` |
| Generator.NameDecodes | constants.tsx:64 | the number field can be read back out of a name |
| Generator.NamesDistinct | constants.tsx:13-64 | within one sector the lab names are pairwise distinct |
| Generator.CommandRevealsTeam | constants.tsx:45-47 | the command starts with `sky-shield` exactly for defensive labs, and offensive commands start with `sky-breach` |
| Generator.SetupRevealsTeam | constants.tsx:49-72 | the setup walkthrough opens with the line `[BLUE_TEAM_PROTOCOL_SECURE]:` for defensive labs and `[RED_TEAM_PROTOCOL_44]:` for offensive ones, so its second character is `B` exactly for defensive labs |
| Generator.ObjectiveNamesTier | constants.tsx:65 | the objective opens with the lab's tier in brackets |
| Generator.SamePhaseSameFields | constants.tsx:67-71 | labs in the same phase block share technique, platform and tools |
| Catalog.Sector | constants.tsx:168-183 | a sector has `labCount` labs, each consistent with the team when the defensive flag matches the team |
| Catalog.InitialModules | constants.tsx:166-184 | fourteen sectors, each worth ten credits per lab |
| Catalog.CatalogIdsDistinct | constants.tsx:168-183 | the fourteen module ids are pairwise distinct |
| Catalog.CatalogTeams | constants.tsx:168-183 | every Red Team sector is generated offensive and every Blue Team sector defensive |
| Catalog.CatalogSides | constants.tsx:168-183 | the first seven sectors are Red Team and the last seven Blue Team; web pentesting comes first with 1000 labs |
| Scenarios.CatalogTotal | constants.tsx:166-184 | the catalog holds 6400 labs |
| Scenarios.SocialEngineeringBlocks | constants.tsx:172 | 500 labs over 3 phases give blocks of 167; lab 499 is the 166th of the third phase |
| Scenarios.AiBlocks | constants.tsx:173 | 400 labs over 6 phases give blocks of 67, and the sixth phase gets 65 labs |
| Progress.SplitKeyRoundTrip | App.tsx:249 | splitting a completion key at its last dash gives back the module id and lab index |
| Progress.KeyInjective | App.tsx:83 | distinct (module id, lab index) pairs have distinct keys |
| Progress.Toggle | App.tsx:248-251 | the toggled key holds the negation of its old truthiness, and every other entry is unchanged |
| Progress.ToggleLab | App.tsx:248-251 | the lab's key flips its truthiness, and the completion of every other lab of every module is unchanged |
| Progress.ToggleCatalogKey | App.tsx:248-251 | with distinct ids, toggling any key that names a catalog lab moves the credits by exactly +10 or -10 |
| Progress.ToggleTwiceTruth | App.tsx:248-251 | toggling twice restores the truthiness of every key |
| Progress.ToggleTwicePresent | App.tsx:248-251 | toggling a present key twice restores the map exactly |
| Progress.ToggleTwiceAbsent | App.tsx:248-251 | toggling an absent key twice leaves an explicit `false`, so the map differs from the original |
| Progress.CompletedInModule | App.tsx:83 | a module's completed count lies between 0 and its number of labs |
| Progress.CompletedInCountsKeys | App.tsx:83 | a module's completed count is the number of its distinct completed keys |
| Progress.TotalCredits | App.tsx:81-86 | credits are a multiple of 10, between 0 and ten times the total number of labs |
| Progress.CreditedKeysExactly | App.tsx:81-86 | a key earns credit exactly when it is set and names a lab of the catalog |
| Progress.CreditsCountKeys | App.tsx:81-86 | with distinct module ids, credits are ten per credited key |
| Progress.CreditsIgnoreOtherKeys | App.tsx:81-86 | keys of absent modules or out-of-range indices have no effect on the credits |
| Progress.ToggleOutsideCatalog | App.tsx:248-251 | toggling a key that names no catalog lab leaves the credits unchanged |
| Progress.ToggleMovesCreditsByTen | App.tsx:248-251 | with distinct ids, toggling a catalog lab moves the credits by exactly +10 or -10 |
| Progress.CreditsVersusCompleted | App.tsx:81-90 | with distinct module ids, credits are at most ten per completed entry, with equality exactly when every completed key names a catalog lab |
| Progress.LevelBand | App.tsx:91 | level n covers exactly the credits from `1000(n-1)` to `1000n - 1` |
| Progress.LevelMonotone | App.tsx:91 | more credits never lower the level |
| Progress.LevelAtLeastOne | App.tsx:91 | the level is at least 1 |
| Progress.RankMonotone | App.tsx:92-96 | a higher level never carries a lower rank |
| Progress.RankBreakpoints | App.tsx:92-96 | the rank steps use strict comparisons: 21 is Ghost Operative, 20 Master, 15 Elite, 10 Specialist, 5 Initiate |
| Progress.PrivilegeIsLevelTwo | App.tsx:505 | forum privilege holds exactly from level 2 on |
| Progress.CompletedCount | App.tsx:90 | the completed count is at most the number of entries, is zero exactly when no entry is set, and equals it exactly when every entry is set |
| Progress.ComputeStats | App.tsx:88-99 | the total is the catalog's lab count and `completed` the number of set entries; the level is at least 1 and brackets the credits, and the rank is the level's rank |
| Scenarios.FreshOperative | App.tsx:81-99 | an empty record gives 0 credits, level 1, rank Initiate, 6400 total labs and no forum privilege |
| Scenarios.TwoWebLabs | App.tsx:81-90 | two completed web labs earn 20 credits, while a stale key past the last lab counts as completed but earns nothing |
| Filters.Filter | App.tsx:103 | the kept elements all satisfy the predicate and come from the list, and every satisfying element is kept |
| Filters.FilterIsSubsequence | App.tsx:103 | filtering keeps the original order |
| Filters.FilterAppend | App.tsx:103 | filtering a concatenation filters each part |
| Filters.FilteredModules | App.tsx:101-107 | a module is listed exactly when it belongs to the view's team and its lower-cased title or category contains the lower-cased search; the listing keeps catalog order |
| Filters.ViewTeam | App.tsx:102 | the red-team view lists the Red Team, and every other view the Blue Team |
| Filters.EmptySearchListsTeam | App.tsx:101-107 | an empty search lists every module of the view's team |
| Filters.TeamsPartition | App.tsx:101-107 | the red and blue listings together have as many entries as the module list |
| Filters.LongerSearchNarrows | App.tsx:101-107 | extending the search text never adds a module to the listing |
| Filters.FilteredAfterAppend | App.tsx:101-107 | an added module joins a listing exactly when it matches |
| Filters.FilteredPosts | App.tsx:109-115 | a post is listed exactly when its title, Bengali title or category contains the search |
| Filters.EmptySearchListsAllPosts | App.tsx:109-115 | an empty search lists every post |
| Scenarios.SevenPerTeam | App.tsx:101-107 | each team's view of the catalog has seven modules |
| Admin.UpdateUserCredits | App.tsx:118-120 | users with the id gain the amount and others are untouched; no other field changes |
| Admin.CreditsInverse | App.tsx:118-120 | deducting what was granted restores the user list |
| Admin.CreditsCompose | App.tsx:118-120 | two grants to one user add up |
| Admin.CreditsNotClamped | App.tsx:118-120 | for every matching user whose balance plus the amount is negative, the new balance is negative: there is no clamp at zero |
| Admin.ToggleUserStatus | App.tsx:122-124 | exactly the users with the id change status, and nothing else changes |
| Admin.ToggleStatusTwice | App.tsx:122-124 | suspending and reinstating restores the user list |
| Admin.AdminKeepsIds | App.tsx:118-124 | both user handlers keep every user's id in place |
| Admin.DeletePost | App.tsx:126-128 | no kept post carries the id, every post with another id is kept, the kept posts stay in order, and exactly as many posts are removed as carry the id |
| Admin.DeleteIdempotent | App.tsx:126-128 | deleting twice removes nothing more |
| Admin.DeleteAbsent | App.tsx:126-128 | deleting an id no post carries changes nothing |
| Admin.AddModule | App.tsx:130-132 | the new module goes after the existing ones, which are kept |
| Admin.AddModuleTotals | App.tsx:130-132 | adding a module adds its labs to the total and its completed labs to the credits |
| Admin.AddModuleKeepsDistinct | App.tsx:130-132 | a module with a fresh id keeps the module ids distinct |
| Admin.IdsInjective | App.tsx:137-150 | post and comment ids determine the clock reading they were made from |
| Admin.Stamp | App.tsx:138 | the timestamp is the first sixteen characters of the ISO text, with the first `T` turned into a space |
| Admin.StampOfIsoDate | App.tsx:138 | an ISO date-time becomes `YYYY-MM-DD HH:mm` |
| Admin.AddForumPost | App.tsx:134-142 | the new post goes in front with the draft's fields, the id `fp-<now>`, the timestamp `Stamp(iso)` and no comments; the rest follows unchanged |
| Admin.DeleteUndoesAdd | App.tsx:126-142 | when no existing post carries the id `fp-<now>`, deleting the added post restores the forum |
| Admin.SameMillisecondDeletesBoth | App.tsx:126-142 | two posts added in the same millisecond share an id, so deleting one deletes both |
| Admin.AddForumComment | App.tsx:144-159 | each post with the id gets a comment by OPERATIVE_YOU appended, stamped with the clock readings taken at that post's position; nothing else changes |
| Admin.DuplicateIdsGetOwnReadings | App.tsx:144-159 | two posts sharing the id, reached at different milliseconds, receive comments with different ids |
| Admin.CommentsGrowByMatches | App.tsx:144-159 | a reply adds one comment per post carrying the id |
| Admin.ReplyAddsOne | App.tsx:144-159 | with distinct post ids, replying to an existing post adds exactly one comment |

## Left out

- Rendering: all JSX, styling, navigation and the components the application composes (module cards, terminal, forum, admin panel, landing page, translations). These are presentation only.
- Persistence: `localStorage` reads and writes and `JSON.parse` (App.tsx:63-74) are I/O. Stored JSON that does not parse makes the initialiser throw at App.tsx:65; there is no fallback to an empty record.
- React state machinery (`useState`, `useMemo`, `useEffect`): each derived value is a pure function of its inputs.
- Clock readings: `Date.now()` and `new Date().toISOString()` in the forum handlers are parameters (`now`, `iso`). The comment handler reads the clock once per matching post, inside its map callback, so `Admin.AddForumComment` takes one reading per position (`now(k)`, `iso(k)`).
- Default arguments: `generateTacticalLabs` defaults `labCount` to 300 and `isDefensive` to false (constants.tsx:8-9). The model has no defaults, so every call passes both. The seven Red Team sectors (constants.tsx:168-174) rely on the `isDefensive` default, and `Catalog.InitialModules` passes false for them explicitly.
- Partition.TierOf: the source compares against the floating-point products `labCount * 0.3` and `labCount * 0.7`. The model uses the exact integer comparisons `10i < 3n` and `10i < 7n`. For whole numbers `i` and `n` these agree.
- Text.Lower: `toLowerCase` folds the full Unicode range; the model lowers ASCII letters only. The Bengali text has no case, so it is unaffected.
- Generator.Instructions and Generator.BnInstructions: the contracts state the count of four steps. The wording is the verbatim template and is not restated as a property.
- Credits, lab counts and ids are unbounded integers; JavaScript's double-precision limits are not modelled.
- The journal's post literals (`BLOG_POSTS`, constants.tsx:186-467): `FilteredPosts` takes the post list as a parameter.
- The validation input of the lab view (App.tsx:334-341) has no logic.
- `types.ts` declares records only (its chat and grounding-source records belong to parts outside this model). The remaining records are transcribed without properties of their own.
- Partition.FourthPhaseUnused: the ceiling-division blocks do not spread labs evenly, so a phase can receive no labs at all. This is what the code does, so it is stated as a property, not as a defect.

## Behaviour worth noting

- `stats.completed` is the raw number of set entries (App.tsx:90). It is not restricted to keys that name catalog labs, so stale keys count. `Progress.CreditsVersusCompleted` states the exact relation to the credits.
- Toggling an absent key twice leaves `key: false` in the record rather than restoring the original map (`Progress.ToggleTwiceAbsent`). Only truthiness is restored.
- Phases are not guaranteed to be covered evenly (`Partition.FourthPhaseUnused`).
