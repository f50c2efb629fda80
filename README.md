# Blog index and two browser games, modelled in Dafny

This project models the logic core of a personal web site:

- **The blog content index** (`lib/blog.ts`), in `blog.dfy`, module `Blog`.
  - `getAllPosts` lists the published `.mdx` posts of the content directory, newest first.
  - `getPostBySlug` resolves one post, or signals "not found".
  - The directory is an explicit value: missing, or its files in listing order.
    Each file comes already split by the front-matter parser into metadata and body.
- **The Symbol Trainer** (`app/vibes/typing-game/page.tsx`), in `typing_game.dfy`, module `TypingGame`.
  It is a 60-second typing round.
  - The character picker and its start guard.
  - The retrying random pick of the next target.
  - The per-key counters: typed, attempts, streak, best streak and misses.
  - The countdown and the rounded accuracy.
  - The screen state lives in the class `Trainer`, whose methods are the component's handlers.
- **Weber Catcher** (`app/vibes/weber/page.tsx`), in `weber.dfy`, module `Weber`.
  A kettle catches falling coal, steaks, ice and propane tanks.
  - The weighted item pick.
  - The catch rule: points, heat, steak doubling, the score floor and propane game over.
  - Difficulty scaling and the kettle clamp.
  - The item pass of a frame, spawning and the heat drain.
  - The mutable game record is the class `Game`. One animation frame is `Game.Frame`.

Randomness is a parameter everywhere. A sequence of draws in [0, 1) stands for successive
results of `Math.random()`. Numbers are exact: integers are unbounded, and positions, heat
and times are `real`. The accuracy percentage is the rounding of the exact ratio (see Left out).

## Model

| member | source | states |
|---|---|---|
| Blog.Slug | lib/blog.ts:29 | the slug followed by `.mdx` is the file name again |
| Blog.IsMdx | lib/blog.ts:27 | the `.mdx` filter; `SlugOfFileName` states that every `slug + ".mdx"` passes it |
| Blog.SlugOfFileName | lib/blog.ts:27-29 | `slug + ".mdx"` passes the `.mdx` filter and strips back to `slug`, so slugs and post file names correspond one to one |
| Blog.DefaultsForEmptyFrontMatter | lib/blog.ts:32-40 | with no metadata a post gets title, date and description `""`, tags `[]`, no cover and `published` false, so it is never listed |
| Blog.VisibilityAgrees | lib/blog.ts:39-42 | the listing's test on the defaulted flag (`?? false`) is truthy exactly when the raw flag is, which is the resolver's test at line 56 |
| Blog.ToMeta | lib/blog.ts:32-40 | the record built from a file's metadata with the `??` defaults; stated by `DefaultsForEmptyFrontMatter` and `VisibilityAgrees` |
| Blog.MdxMetas | lib/blog.ts:25-41 | the filter and map over the listing; stated by `MdxMetasMembers` |
| Blog.PublishedOnly | lib/blog.ts:42 | the published filter; stated by `PublishedOnlyMembers` |
| Blog.GetAllPosts | lib/blog.ts:22-23 | a missing directory yields the empty list |
| Blog.Find | lib/blog.ts:47-51 | a found file is in the directory under the requested name; nothing is found exactly when no file has that name |
| Blog.GetPostBySlug | lib/blog.ts:46-69 | a missing directory gives NotFound; a found post carries the requested slug and a truthy `published`; every outcome is stated by `GetPostBySlugOutcomes` |
| Blog.LexLess | lib/blog.ts:43 | JavaScript's `<` on the date strings; its order laws are the `LexLess…` lemmas below |
| Blog.LexLessIrreflexive | lib/blog.ts:43 | no date is `<` itself under JavaScript string comparison |
| Blog.LexLessAsymmetric | lib/blog.ts:43 | `a < b` excludes `b < a` |
| Blog.LexLessTotal | lib/blog.ts:43 | two different dates are always ordered one way or the other |
| Blog.LexLessTransitive | lib/blog.ts:43 | `<` on strings is transitive |
| Blog.NotLessTransitive | lib/blog.ts:43 | `>=` on strings is transitive |
| Blog.LexLessCommonPrefix | lib/blog.ts:43 | a shared prefix does not change the order of two dates |
| Blog.InsertByDate | lib/blog.ts:43 | one step of the sort; stated by `InsertByDatePermutes` and `InsertByDateSorted` |
| Blog.InsertByDatePermutes | lib/blog.ts:43 | one sort step adds exactly the inserted entry (multiset and length) |
| Blog.InsertByDateSorted | lib/blog.ts:43 | one sort step keeps a newest-first list newest-first |
| Blog.SortByDateDesc | lib/blog.ts:43 | the sort by descending date; stated by `SortByDateDescCorrect` |
| Blog.SortByDateDescCorrect | lib/blog.ts:43 | the sort yields a newest-first permutation of its input |
| Blog.SortByDateDescSorted | lib/blog.ts:43 | the sorted list is newest-first |
| Blog.SortByDateDescPermutes | lib/blog.ts:43 | the sorted list has exactly the entries of its input |
| Blog.DescendingPairwise | lib/blog.ts:43 | in a newest-first list every earlier date is `>=` every later one |
| Blog.PublishedOnlyMembers | lib/blog.ts:42 | the published filter keeps exactly the entries whose flag is truthy |
| Blog.MdxMetasMembers | lib/blog.ts:25-41 | a metadata record is produced exactly when some `.mdx` file of the directory yields it, with the stripped slug and defaults |
| Blog.GetAllPostsPublishedAndOrdered | lib/blog.ts:42-43 | every listed post is published, and the list is ordered by date descending, adjacent and pairwise |
| Blog.GetAllPostsPermutation | lib/blog.ts:25-43 | the listing is a permutation of the published `.mdx` entries: nothing added, nothing lost |
| Blog.GetAllPostsMembers | lib/blog.ts:25-43 | a record is listed exactly when it is published and comes from an `.mdx` file of the directory |
| Blog.GetPostBySlugOutcomes | lib/blog.ts:46-69 | no `<slug>.mdx` gives NotFound; a falsy `published` gives NotFound; otherwise the post is that file's defaulted metadata with its body |
| Blog.FindUnique | lib/blog.ts:47-53 | in a directory of distinct names, the file with the requested name is the one read |
| Blog.ListedIffResolvable | lib/blog.ts:42-58 | a slug is listed exactly when resolving it succeeds, and the resolved metadata is the listed record |
| Blog.ExampleMdxMetas | lib/blog.ts:27-41 | three `.mdx` files give three records with slugs `a`, `b`, `c` in listing order |
| Blog.ExamplePublishedOnly | lib/blog.ts:42 | of two published records and a draft, the draft is dropped |
| Blog.ExampleDates | lib/blog.ts:43 | `"2024-01-01" < "2024-06-01"` |
| Blog.ExampleSort | lib/blog.ts:43 | two records with increasing dates come back in reverse |
| Blog.ExampleListing | lib/blog.ts:22-44 | the sample directory lists `b` then `a`; the draft `c` is left out |
| Blog.ExampleDraftNotFound | lib/blog.ts:56-58 | the existing draft `c` resolves to NotFound |
| Blog.ExampleMissingNotFound | lib/blog.ts:49-51 | a slug without a file resolves to NotFound |
| TypingGame.Dedup | app/vibes/typing-game/page.tsx:88 | `new Set(s.split(''))` has no repeated character and exactly the characters of `s` |
| TypingGame.Remove | app/vibes/typing-game/page.tsx:127-128 | deleting `c` from the selection keeps every other member and loses `c`; it stays duplicate-free |
| TypingGame.ActiveChars | app/vibes/typing-game/page.tsx:111-114 | the active characters are never empty, and are drawn from `ALL_CHARS` when the selection is |
| TypingGame.CanStart | app/vibes/typing-game/page.tsx:269 | `canStart`; `CanStartOffersChoice` states that it leaves at least two characters to draw from |
| TypingGame.CanStartOffersChoice | app/vibes/typing-game/page.tsx:269 | whenever `canStart` holds there are at least two characters to draw from |
| TypingGame.DrawIndex | app/vibes/typing-game/page.tsx:19 | `floor(u * n)` for a draw in [0, 1) is a valid index |
| TypingGame.FirstPick | app/vibes/typing-game/page.tsx:16-22 | the kept draw is a character of `chars`, and not `exclude` when there is more than one character |
| TypingGame.PickRandom | app/vibes/typing-game/page.tsx:16-22 | the retry loop returns the character of the first acceptable draw |
| TypingGame.JsLength | app/vibes/typing-game/page.tsx:217 | `e.key.length` counts UTF-16 code units: never fewer than the characters, and 1 exactly for one character up to U+FFFF |
| TypingGame.JsLengthAgrees | app/vibes/typing-game/page.tsx:217 | the code-unit length equals the number of characters exactly when none lies beyond U+FFFF |
| TypingGame.AstralKeyLength | app/vibes/typing-game/page.tsx:187 | an emoji key is one character of length 2, so both key handlers ignore it |
| TypingGame.Press | app/vibes/typing-game/page.tsx:217-247 | one scored key; stated by `PressHit` and `PressMiss` |
| TypingGame.PressHit | app/vibes/typing-game/page.tsx:221-233 | a correct key adds one to typed, attempts and streak, raises the best streak to the new streak, leaves misses and keeps the counter invariant |
| TypingGame.PressMiss | app/vibes/typing-game/page.tsx:221-247 | a wrong key adds one to misses and attempts, resets the streak, keeps typed and best streak and the counter invariant |
| TypingGame.Replay | app/vibes/typing-game/page.tsx:168-247 | the counters after a round's keys; stated by `ReplayCounts`, `ReplayStreak` and `ReplayBest` |
| TypingGame.ReplayCounts | app/vibes/typing-game/page.tsx:168-247 | after any keys since the reset, attempts is the number of keys, typed the number of hits and misses the number of misses |
| TypingGame.ReplayStreak | app/vibes/typing-game/page.tsx:226-247 | the streak is the run of hits at the end of the keys so far |
| TypingGame.ReplayBest | app/vibes/typing-game/page.tsx:226-233 | the best streak is the longest run of consecutive hits so far |
| TypingGame.Ticks | app/vibes/typing-game/page.tsx:199-205 | `n` ticks of the timer; stated by `Countdown` |
| TypingGame.Countdown | app/vibes/typing-game/page.tsx:199-205 | from `t` seconds, `n < t` ticks leave `t - n` seconds still playing, and tick `t` ends the round at 0, never below |
| TypingGame.Accuracy | app/vibes/typing-game/page.tsx:266 | 100 before any attempt, and between 0 and 100 whenever typed does not exceed attempts |
| TypingGame.AccuracyRounds | app/vibes/typing-game/page.tsx:266 | the accuracy is the exact ratio `100 * typed / attempts` rounded half up; the page rounds a double product instead, which differs at some half-way ratios (see Left out) |
| TypingGame.AccuracyPerfect | app/vibes/typing-game/page.tsx:266 | with no misses the accuracy is exactly 100 |
| TypingGame.Trainer.constructor | app/vibes/typing-game/page.tsx:86-97 | symbols mode, idle, every character selected, a preview drawn from `ALL_CHARS`, zero counters, 60 seconds |
| TypingGame.Trainer.SelectMode | app/vibes/typing-game/page.tsx:116-123 | the new mode is set and the preview is redrawn from its characters; counters, clock and selection unchanged |
| TypingGame.Trainer.ToggleChar | app/vibes/typing-game/page.tsx:125-137 | the character's membership flips, every other character keeps its own, and the preview is redrawn from the new selection |
| TypingGame.Trainer.SelectAll | app/vibes/typing-game/page.tsx:139-146 | every character is selected and the preview is drawn from `ALL_CHARS` |
| TypingGame.Trainer.Clear | app/vibes/typing-game/page.tsx:148-152 | the selection is emptied, so the round cannot start; the preview is kept |
| TypingGame.Trainer.StartGame | app/vibes/typing-game/page.tsx:165-181 | playing, every counter zero, 60 seconds, first target drawn from the active characters |
| TypingGame.Trainer.PressStart | app/vibes/typing-game/page.tsx:305-343 | the start button starts a round exactly when `canStart`; "Play Again" always starts one; otherwise nothing changes |
| TypingGame.Trainer.GoToMenu | app/vibes/typing-game/page.tsx:154-163 | back to idle with a new preview; counters, clock and selection unchanged |
| TypingGame.Trainer.Score | app/vibes/typing-game/page.tsx:217-247 | a key of JavaScript length 1: the counters take one `Press` step; on a hit the next target differs from the previous one; the invariant `attempts == typed + misses`, `streak <= best` is kept |
| TypingGame.Trainer.KeyDown | app/vibes/typing-game/page.tsx:184-256 | keys whose JavaScript length (`JsLength`, in UTF-16 code units) is not 1 change nothing, an emoji key included; idle keys start a round only when `canStart`; playing keys are scored |
| TypingGame.Trainer.Tick | app/vibes/typing-game/page.tsx:196-211 | while playing, one tick takes one second off, or finishes the round at 0 when at most 1 second is left; other phases are untouched |
| TypingGame.Trainer.ShownAccuracy | app/vibes/typing-game/page.tsx:266 | the shown accuracy lies in [0, 100] and is 100 with no attempts or no misses; its value is `Accuracy`'s exact rounding |
| Weber.Config | app/vibes/weber/page.tsx:33-38 | each item type has its row of the item table |
| Weber.TotalWeightIs100 | app/vibes/weber/page.tsx:41 | the weights add up to 100 |
| Weber.Select | app/vibes/weber/page.tsx:41-47 | the subtracting walk of `pickItemType`; stated by `SelectFirstReaching`, `SelectFallback` and `PickBands` |
| Weber.SelectFirstReaching | app/vibes/weber/page.tsx:42-46 | the pick is the first type in table order whose cumulative weight reaches the scaled draw |
| Weber.SelectFallback | app/vibes/weber/page.tsx:47 | a draw beyond the total weight falls back to coal |
| Weber.PickBands | app/vibes/weber/page.tsx:40-48 | scaled draws of at most 60 give coal, (60, 72] steak, (72, 92] ice, (92, 100] propane, above 100 coal |
| Weber.PickItemType | app/vibes/weber/page.tsx:40-48 | the subtracting loop returns the walk's type for draw `u` |
| Weber.PickedTypeBands | app/vibes/weber/page.tsx:40-48 | for a draw in [0, 1) the type is coal exactly when `u <= 0.6`, steak exactly on (0.6, 0.72], ice on (0.72, 0.92], propane above 0.92 |
| Weber.CatchPoints | app/vibes/weber/page.tsx:472-475 | the points of a catch; stated by `CatchCoal`, `CatchIce` and `CatchSteak` |
| Weber.CatchHeat | app/vibes/weber/page.tsx:476-481 | the heat after a catch; stated by `CatchCoal`, `CatchIce`, `CatchSteak` and `CatchKeepsBounds` |
| Weber.AddPoints | app/vibes/weber/page.tsx:482-483 | the score floored at zero; stated by `CatchIce` and `CatchKeepsBounds` |
| Weber.CatchCoal | app/vibes/weber/page.tsx:476-478 | a coal catch adds 1 point and 12 heat, capped at 100 |
| Weber.CatchIce | app/vibes/weber/page.tsx:479-483 | an ice catch takes 5 points, floored at 0, and 30 heat, floored at 0 |
| Weber.CatchSteak | app/vibes/weber/page.tsx:472-475 | a steak is worth 20 exactly when the heat is at least 100 and 10 otherwise; heat unchanged |
| Weber.CatchKeepsBounds | app/vibes/weber/page.tsx:472-483 | any scoring catch leaves the score non-negative and the heat within [0, 100] |
| Weber.SpeedLevel | app/vibes/weber/page.tsx:406 | the level is `floor(score / 25)` |
| Weber.FallSpeed | app/vibes/weber/page.tsx:407 | the fall speed of a level; stated by `DifficultyMonotone` |
| Weber.SpawnInterval | app/vibes/weber/page.tsx:429 | the spawn interval of a level, never below 350 ms; stated by `DifficultyMonotone` |
| Weber.DifficultyMonotone | app/vibes/weber/page.tsx:406-430 | a higher score never lowers level or fall speed, the spawn interval stays within [350, 900] and shrinks, and reaches 350 exactly from score 275 |
| Weber.Clamp | app/vibes/weber/page.tsx:424 | the kettle x lies in [0, W - 80]; it is 0 on a canvas narrower than the kettle; an x already inside is kept |
| Weber.KettleStep | app/vibes/weber/page.tsx:409-424 | the kettle stays on the canvas; the pointer is kept or dropped; the steps are stated by `KettleEases` and `KettleKeys` |
| Weber.KettleEases | app/vibes/weber/page.tsx:411-415 | with the pointer inside and no key held, the kettle closes 15% of its gap to the pointer |
| Weber.KettleKeys | app/vibes/weber/page.tsx:416-424 | a held left or right key moves 7 px within the canvas; with an active pointer the kettle first eases toward it, then steps, and the pointer is dropped; both keys cancel |
| Weber.DrainBounds | app/vibes/weber/page.tsx:497 | the drain never takes heat below 0 nor raises it, and takes exactly `0.15 * dt / 16` when there is enough |
| Weber.Drain | app/vibes/weber/page.tsx:497 | the heat drain of a frame; stated by `DrainBounds` |
| Weber.FrameDelta | app/vibes/weber/page.tsx:336 | a frame is at most 50 ms, and is the real gap between timestamps whenever that gap is at most 50 ms |
| Weber.Move | app/vibes/weber/page.tsx:453 | moving an item changes only its y |
| Weber.MoveAll | app/vibes/weber/page.tsx:452-453 | every item of the list is moved in place, order kept |
| Weber.OffScreen | app/vibes/weber/page.tsx:456 | an item below the canvas; `SweepWithoutBoom` states that such items are dropped and score nothing |
| Weber.InCatchBox | app/vibes/weber/page.tsx:445-466 | the catch box; `SweepBoomIff` and `SweepWithoutBoom` state what a catch does |
| Weber.Sweep | app/vibes/weber/page.tsx:451-491 | the pass never looks at more items than there are |
| Weber.SweepBoomIff | app/vibes/weber/page.tsx:461-470 | the pass ends the game exactly when a propane tank is among the caught items |
| Weber.SweepWithoutBoom | app/vibes/weber/page.tsx:451-491 | without propane, every item is looked at, the survivors are exactly the items still falling, and score and heat come from the caught kinds in order; items below the canvas count for nothing |
| Weber.SweepStopsAtPropane | app/vibes/weber/page.tsx:467-470 | with propane, the pass stops at the first caught tank (no caught propane comes before it): later items do not matter, and score and heat come only from catches before it |
| Weber.SweepKeepsBounds | app/vibes/weber/page.tsx:472-483 | a frame's catches keep the score non-negative and the heat within [0, 100] |
| Weber.SweepKeepsIds | app/vibes/weber/page.tsx:490 | the survivors keep their order, so identifiers stay increasing and in range |
| Weber.SpawnStepMeaning | app/vibes/weber/page.tsx:427-442 | a frame adds at most one item, with the next identifier, the picked type, at the top of the canvas; the timer restarts between the interval and 300 ms more |
| Weber.SpawnKeepsIds | app/vibes/weber/page.tsx:433-441 | spawning keeps identifiers increasing and below `nextId` |
| Weber.NewItem | app/vibes/weber/page.tsx:432-441 | a new item at the top of the canvas; stated by `SpawnStepMeaning` |
| Weber.SpawnStep | app/vibes/weber/page.tsx:427-442 | the spawn step of a frame; stated by `SpawnStepMeaning` and `SpawnKeepsIds` |
| Weber.SweepItems | app/vibes/weber/page.tsx:451-494 | the item loop with `continue` and `break` computes the pass: its score, heat and explosion, and the survivors, or the moved prefix after an explosion |
| Weber.Game.constructor | app/vibes/weber/page.tsx:234-306 | start screen, kettle centred, empty round, no pointer, no keys |
| Weber.Game.Resize | app/vibes/weber/page.tsx:296-301 | the canvas size follows the window; nothing else changes |
| Weber.Game.StartGame | app/vibes/weber/page.tsx:267-280 | playing, zero score and heat, no items, identifiers and timer reset, kettle centred |
| Weber.Game.KeyDown | app/vibes/weber/page.tsx:309-315 | the key is remembered; space or Enter outside a round starts one; otherwise the round is untouched |
| Weber.Game.KeyUp | app/vibes/weber/page.tsx:316 | the key is forgotten; nothing else changes |
| Weber.Game.PointerMove | app/vibes/weber/page.tsx:317-320 | the pointer x follows the mouse or the first touch |
| Weber.Game.TouchStart | app/vibes/weber/page.tsx:321-324 | the first touch sets the pointer; a tap outside a round starts one |
| Weber.Game.MoveKettle | app/vibes/weber/page.tsx:409-424 | the kettle and pointer take one `KettleStep` |
| Weber.Game.Spawn | app/vibes/weber/page.tsx:426-442 | timer, items and next identifier take one `SpawnStep` |
| Weber.Game.UpdateItems | app/vibes/weber/page.tsx:444-494 | score, heat and state follow the pass; the list becomes the survivors, or stays the moved prefix after an explosion |
| Weber.Game.Play | app/vibes/weber/page.tsx:405-498 | a playing frame composes kettle, spawn, item pass and heat drain, and keeps score >= 0, heat in [0, 100] and increasing identifiers |
| Weber.Game.Frame | app/vibes/weber/page.tsx:335-498 | a frame records the time; only while playing does it run the playing step with `min(time - last, 50)` ms |

## Left out

- File system, `path.join` and the front-matter parser: the directory is a value of already-parsed entries.
  A read error and a malformed front-matter block are not modelled.
- Blog.GetPostBySlug: Next's `notFound()` throws; here it is the value `NotFound`.
  The lookup is by the exact file name `slug + ".mdx"`; the normalisation that `path.join` applies is not modelled.
  A slug with `/`, `.` or `..` segments is NotFound here unless a file of that exact name exists.
  In the source, `"./a"` and `"x/../a"` open `a.mdx`, and `"../x"` reads outside the content directory.
- Blog.GetPostBySlugOutcomes: states the outcomes of the exact-name lookup only.
  For a slug that `path.join` normalises (`"./a"` with a published `a.mdx`) the source returns the post where the model says NotFound.
- Blog.ListedIffResolvable: the equivalence holds in the source only for slugs without `/`, `.` or `..` segments.
  In the source `"./a"` resolves to a published `a.mdx` although only `"a"` is listed.
- YAML dates that the parser turns into `Date` objects: `date` is a string.
  Strings are sequences of characters, so UTF-16 code-unit order and code-point order are not told apart.
- Blog.SortByDateDesc: the comparator never returns 0, so the order among posts of equal date depends on the engine's sort.
  The model inserts each later entry ahead of equal dates, as a binary insertion sort does.
  Only the date order and the permutation are claimed.
- The React plumbing in both games: hooks, refs, timers, `requestAnimationFrame`, event listeners, JSX and the canvas drawing.
  The floating score texts, the feedback flash and the displayed heat rounding are drawing-only.
- The trainer's characters-per-minute figure, a float division for display.
- TypingGame.Accuracy: the percentage is the half-up rounding of the exact ratio `100 * typed / attempts`.
  The page rounds the double `(typed / attempts) * 100`, which falls just below .5 at some half-way ratios.
  For 23 of 40 the double is 57.49999999999999, so the page shows 57 where the model gives 58; 46/80, 29/200, 57/200 and 113/200 behave alike.
- TypingGame.AccuracyRounds: states the rounding of the exact ratio, not of the double; the two differ at the ratios listed above.
- TypingGame.Trainer.ShownAccuracy: its value is `Accuracy`'s, so it shares the same half-way difference; its bounds and its 100 hold for the double as well.
- TypingGame.PickRandom and every trainer method that draws: they require that some draw in the sequence is acceptable.
  The source loops on `Math.random()` until one is.
- TypingGame.Trainer: counters are separate fields, as in the component.
  The two copies of streak and best streak (a ref and a state value) are one field.
- TypingGame.Trainer.KeyDown: the space key's `preventDefault` is browser behaviour and is not modelled.
- Weber: floating-point rounding. Positions, speeds, heat and times are exact reals.
- Weber.Game.Frame: requires frame times that do not go backwards. Browser animation timestamps never do.
- The other pages of the site: the dart-throwing globe, the whiteboard and the static pages have no game logic of this kind.
