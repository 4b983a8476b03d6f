# Tunic transition tracker: state reconstruction

This project models how the tracker rebuilds a `Save` snapshot of a TUNIC
randomizer run from two text files. The first is the randomizer's spoiler
log, which lists the checks and the door pairings. The second is the game's
save file, which holds the settings, the code flags and the portals the
player has used. Every parser is a pure left fold over the files' lines:

- `Spoiler` and `SavePass` are the two passes the spoiler parsers share.
- `SpoilerParse` chains them: skeleton, log, save.
- `Tracker` is the current `ParseWithSpoiler` in `tracker/tracker.go`. It
  sweeps undiscovered doors while skipping shops, projects the shop list into
  the "Shop" scene, and publishes only on success.
- `Legacy` is the older `parseWithSpoiler` in `main.go`.
- `NoSpoiler` is the older `parseWithoutSpoiler`. It guesses connections
  from the order of the used portals, with a look-ahead window for the shop.
  `ParseWithoutSpoiler` is that parse as written, with the pair step of the
  Findings row. `ParseIntended` is the same parse with that step corrected.
- `Recent` is `mostRecentSave`: which save file is read.
- `Codes`, `TrackerCodes`, `MainCodes` and `Registries` hold the two constant
  code registries and prove they are shaped so that one save line raises at
  most one flag.
- `Patterns` replaces the three regular expressions with explicit matchers.
- `SaveFlags` is the first-match-wins settings chain.
- `Snapshot` holds the payload types.
- `Sweep` is the undiscovered-door sweep.

The world registry is taken as a `World` value: scene names, the doors of
each scene, the region of every door, and the scene-name translation. The
file system is replaced by its outcomes: the lines of a file, or its absence.

Where the code and the documentation of the system disagree, the model
follows the code. The documentation says every door of a spoiler log appears
in exactly one pairing. The code does not rely on this: a door the save file
uses but the log never pairs is marked observed, gets no entrance, and is not
swept either (`SavePass.PortalLine`, `Tracker.BuildEntrance`).

## Model

| member | source | states |
|---|---|---|
| `Patterns.MatchPortal` | tracker/tracker.go:65 | a match returns a token with no bar and no empty token, and the line is exactly prefix + token + "\|1" |
| `Patterns.MatchPortalLine` | tracker/tracker.go:65 | every line built as prefix + token + "\|1" matches with exactly that token when the token is valid, and fails otherwise |
| `Patterns.MatchItemSound` | tracker/tracker.go:67 | a matching line is built from leading whitespace, a `-`/`x` marker, a hyphen-free region and a check name free of ':' followed by ": " |
| `Patterns.MatchItemComplete` | tracker/tracker.go:67 | every line built from such well-shaped pieces matches, returning exactly those groups |
| `Patterns.MatchPairing` | tracker/tracker.go:66 | no match exactly when no dash-after-whitespace with a later " -- " separator exists; a match is the leftmost such dash and the last separator that leaves text after it |
| `Patterns.MatchPairingLine` | tracker/tracker.go:66 | an indented `- a -- b` line with a dash-free `b` pairs `a` with `b` |
| `Text.TrimPrefix` | tracker/tracker.go:153 | with the prefix present the line is prefix + result; otherwise the line comes back unchanged |
| `Text.Field1OfKey` | tracker/tracker.go:229 | the second `\|`-field of a `key\|value` line (bar-free key) is the value up to its own first bar |
| `Text.DecimalInjective` | tracker/tracker.go:317 | different shop numbers render as different decimal strings |
| `Text.DecimalRoundTrip` | tracker/tracker.go:317 | reading the rendered digits back gives the number |
| `Codes.Signal` | tracker/codes.go:6-75 | every signal ends in "\|1"; granted items start with "Granted ", all others with "SV_" |
| `Codes.SignalInjective` | tracker/codes.go:4-77 | two well-formed signatures render to the same save line only when they are equal |
| `Codes.FairyPrefix` | codes.go:6-25 | a fairy's signal starts with "SV_Fairy_" + its number + "_" |
| `Codes.InitCodes` | tracker/tracker.go:104-109 | every registered (family, flag) is present and false, and nothing else is present |
| `Codes.MarkCodes` | tracker/tracker.go:239-245 | one save line keeps the families and each family's flags, and a flag is up exactly when it was up or the line equals its signal |
| `Codes.MarkAllExactly` | tracker/tracker.go:239-245 | after the save file a flag is up exactly when it was up before or some line equals its signal; no flag is ever lowered |
| `Codes.OneLineOneFlag` | tracker/tracker.go:239-245 | with distinct signals, a save line equal to two flags' signals names one (family, flag) |
| `TrackerCodes.Size` | tracker/codes.go:4-77 | the registry holds 36 flags |
| `TrackerCodes.FamilyCount` | tracker/codes.go:4-77 | the families are exactly the 18 listed scene names |
| `TrackerCodes.KeysAreUnique` | tracker/codes.go:4-77 | no (family, flag) is listed twice |
| `TrackerCodes.SignalsAreUnique` | tracker/codes.go:4-77 | the 36 signal lines are pairwise distinct |
| `TrackerCodes.RowsWellFormed` | tracker/codes.go:6-75 | every signature is well formed, so its signal starts with "SV_" or "Granted " and ends in "\|1" |
| `TrackerCodes.FairiesOnce` | tracker/codes.go:11-69 | the fairies are numbered 1 to 20, each number on exactly one entry |
| `MainCodes.FamilySizes` | codes.go:4-46 | 33 flags: Fairies 20, Treasures 4, Doors 8, Flags 1 |
| `MainCodes.FamilyCount` | codes.go:4-46 | the families are exactly Fairies, Treasures, Doors and Flags |
| `MainCodes.FairiesInOrder` | codes.go:5-26 | the k-th Fairies entry is fairy k, and its signal starts "SV_Fairy_k_" |
| `MainCodes.KeysAreUnique` | codes.go:4-46 | no (family, flag) is listed twice |
| `MainCodes.SignalsAreUnique` | codes.go:4-46 | the 33 signal lines are pairwise distinct |
| `MainCodes.RowsWellFormed` | codes.go:6-44 | every signature is a well-formed "SV_…\|1" variable |
| `Registries.TrackerRegistryExtends` | tracker/codes.go:4-77 | every signal of the older registry is in the newer one, and every newer signal is an older one or one of the three granted items |
| `SaveFlags.Classify` | tracker/tracker.go:213-236 | a line taken by a link has that link's shape; a line no link takes has no link's shape; a keyed link's line contains a bar |
| `SaveFlags.Disjoint` | tracker/tracker.go:213-236 | no line has the shape of two different links |
| `SaveFlags.ClassifyExact` | tracker/tracker.go:213-236 | a line takes link f exactly when it has f's shape, so the chain's order does not matter |
| `SaveFlags.ShortChainRestricts` | main.go:369-390 | the shorter chain is the full chain with the held items and campfire keys dropped |
| `SaveFlags.Apply` | tracker/tracker.go:213-236 | a settings line touches neither scenes, counters, code flags, the save name, the hash nor the log's fields |
| `SaveFlags.ApplySwitches` | tracker/tracker.go:213-227 | each switch is set by its exact line; "archipelago\|1" also sets Randomized; nothing else changes a switch |
| `SaveFlags.ApplyValues` | tracker/tracker.go:228-235 | seed, spawn, campfire and Dath campfire are set exactly by their key's line: the seed to the second field, scenes through the translation |
| `SaveFlags.ApplyAllSwitches` | tracker/tracker.go:209-236 | after the save file a switch is on exactly when it was on or its line occurs; Randomized also with "archipelago\|1" |
| `SaveFlags.ApplyAllValues` | tracker/tracker.go:228-235 | after the save file each keyed value is the one its last `key\|value` line gives, or unchanged when there is none |
| `SaveFlags.SignalsAreNotSettings` | tracker/tracker.go:213-247 | a code signal is no settings line in either chain and no portal line |
| `SaveFlags.PortalsAreNotSettings` | tracker/tracker.go:213-247 | a portal line is no settings line in either chain |
| `Snapshot.Skeleton` | tracker/tracker.go:84-100 | one empty scene per scene name, zero counters, empty header and whereabouts, the given code section |
| `Snapshot.AddEntrance` | tracker/tracker.go:281-284 | the door is written in the region with its entrance total up by one, and everything else is kept |
| `Snapshot.SkeletonBooks` | tracker/tracker.go:84-100 | the skeleton's check books balance at zero and no scene has more undiscovered entrances than entrances |
| `Sweep.ListingExact` | tracker/tracker.go:291-292 | a (scene, door) pair is visited exactly when the door is in that scene's door list |
| `Sweep.MarkUnseen` | tracker/tracker.go:298-306 | one unobserved door gets the blank record in its scene, whose undiscovered count rises by one and whose total rises when the policy counts it; the global undiscovered count rises by one and every other scene is kept |
| `Sweep.SweepAll` | tracker/tracker.go:291-308 | the sweep keeps the scene set, the header, whereabouts, code flags, check counters and the global entrance total |
| `Sweep.SweepCounts` | tracker/tracker.go:291-308 | each scene's undiscovered count rises by its pending doors, and its total too when the policy counts them; the global undiscovered count rises by all pending doors |
| `Sweep.SweepEntrances` | tracker/tracker.go:291-308 | a pending door of the scene holds the blank record, and every other key keeps its entry |
| `Sweep.Swept` | tracker/tracker.go:291-308 | the sweep of the world's door list returns exactly the world's scenes with the header, whereabouts and code flags kept; one definition serves all three parsers through their policy |
| `Sweep.SweepBounded` | tracker/tracker.go:299-305 | when swept doors are counted in their scene, no scene's undiscovered entrances exceed its total |
| `Spoiler.RecordCheck` | tracker/tracker.go:167-175 | the check is stored as found exactly when not marked `-`; its scene's entrances and other scenes are kept |
| `Spoiler.RecordCheckBooks` | tracker/tracker.go:167-175 | counting a check keeps global check counters equal to the sums over scenes, with undiscovered ≤ total |
| `Spoiler.HandleIgnoresQuiesce` | tracker/tracker.go:146 | a line outside the section is handled the same whatever the suppression flag was |
| `Spoiler.PassSkipsSection` | tracker/tracker.go:142-150 | the pass handles exactly the lines outside the "Major Items" section, where the first untabbed line after it is processed normally; the flag is left up exactly when the log ends inside the section |
| `Spoiler.PassSeed` | tracker/tracker.go:152-154 | the spoiler seed is the remainder of the last "Seed: " line outside the section, or unchanged when there is none |
| `Spoiler.PassKeeps` | tracker/tracker.go:140-188 | the log sets no header field but the spoiler seed, and touches neither whereabouts nor code flags |
| `Spoiler.HandleAllCheckTotals` | tracker/tracker.go:156-176 | the global check total rises by the counted lines and undiscovered by those marked `-` |
| `Spoiler.HandleAllSceneCounts` | tracker/tracker.go:156-176 | each scene's check counters rise by the counted lines naming it, undiscovered by those marked `-` |
| `Spoiler.HandleAllMarks` | tracker/tracker.go:170 | a check of a scene is stored exactly when it was there or a counted line names it, with the last such line's mark |
| `Spoiler.PassBooks` | tracker/tracker.go:156-176 | every line keeps the global check counters equal to the sums over scenes, with undiscovered ≤ total per scene |
| `Spoiler.PassKeepsSceneEntrances` | tracker/tracker.go:140-188 | the log writes no entrance into any scene and counts none there |
| `Spoiler.Step` | tracker/tracker.go:139-188 | one log line keeps the scene set; its effect over a whole log is stated by `Spoiler.PassSkipsSection`, `Spoiler.PassSeed`, `Spoiler.HandleAllPairs` and the other `Spoiler.HandleAll` lemmas |
| `Spoiler.Pass` | tracker/tracker.go:139-188 | the whole log keeps the scene set; its effect is stated by the same lemmas |
| `Spoiler.HandleAllLinkTotals` | tracker/tracker.go:184 | the global entrance total rises by two per recorded pairing; undiscovered stays |
| `Spoiler.HandleAllShops` | tracker/tracker.go:180-183 | the shop list grows by the doors paired with "Shop" or "Shop Portal", in log order |
| `Spoiler.HandleAllPairs` | tracker/tracker.go:185-186 | a door is in the pairing map exactly when a recorded pairing names it (or it was there), with the other end of the last one |
| `Spoiler.PairingLine` | tracker/tracker.go:178-187 | a pairing line records a→b and b→a, adds two entrances and lists a exactly when b is a shop; an unknown-scene check line stops it first |
| `Spoiler.CheckLine` | tracker/tracker.go:156-176 | a check line of a known scene counts once globally and in its scene, undiscovered only when marked `-`; with an unknown scene nothing changes and no pairing is tried |
| `SavePass.Settle` | tracker/tracker.go:212-245 | settings and code flags leave scenes and counters alone |
| `SavePass.Use` | tracker/tracker.go:247-286 | a portal line keeps the scene set, header, whereabouts and code flags; what it records is stated by `SavePass.PortalLine` |
| `SavePass.SettleLocal` | tracker/tracker.go:212-236 | the header and whereabouts a save line produces depend only on the settings chain |
| `SavePass.UseIgnoresSettings` | tracker/tracker.go:247-286 | what a portal line does depends only on the scenes, counters and doors seen, not on settings or flags |
| `SavePass.PortalLine` | tracker/tracker.go:247-286 | a portal line always marks its door observed and notes "Shop"; it records the door, raising that scene's total by one, exactly when the door is no stop and the rule places it; otherwise no scene changes |
| `SavePass.SeeAllSettings` | tracker/tracker.go:209-245 | after the loop the header and whereabouts are the flag chain's and the code flags the registry's, independent of the portal lines |
| `SavePass.SeeAllPortals` | tracker/tracker.go:209-287 | after the loop scenes, counters and the doors seen follow the portal lines alone |
| `SavePass.UseAllObserved` | tracker/tracker.go:248-253 | the observed doors are exactly the portal doors, and a shop was found exactly when "Shop" is one |
| `SavePass.UseAllCounts` | tracker/tracker.go:281-284 | a scene's entrance total rises once per recording portal line; nothing else of its counters changes |
| `SavePass.UseAllEntrance` | tracker/tracker.go:281-284 | a portal door the rule places in the scene holds the rule's value; every other key is as before |
| `SavePass.UseAllBounded` | tracker/tracker.go:281-284 | the loop keeps every scene's undiscovered entrances within its total |
| `SpoilerParse.Header` | tracker/tracker.go:84-123 | skeleton scenes, zero counters, all code flags down, and only the log's mtime and the hash in the header |
| `SpoilerParse.ReadHeader` | tracker/tracker.go:137-188 | after the log: the last "Seed: " value, two entrances per pairing, the counted checks, and the shop-paired doors in order |
| `SpoilerParse.ReadScene` | tracker/tracker.go:156-176 | after the log each scene has no entrance and the check counts of the lines naming it |
| `SpoilerParse.ReadPairs` | tracker/tracker.go:185-186 | after the log a door is paired exactly when a pairing names it, with the last one's other end |
| `SpoilerParse.ReadMarks` | tracker/tracker.go:170 | after the log a check is stored exactly when a counted line names it, with the last one's mark |
| `SpoilerParse.ReadBooks` | tracker/tracker.go:137-188 | after the log the check books balance and entrances are bounded |
| `SpoilerParse.VisitedDoors` | tracker/tracker.go:247-254 | the save loop observes exactly the portal doors and finds a shop exactly when "Shop" is one |
| `SpoilerParse.VisitedScene` | tracker/tracker.go:281-284 | the save loop adds one entrance to a scene per portal line it records there |
| `SpoilerParse.VisitedEntrance` | tracker/tracker.go:281-284 | a portal door the rule places in a scene holds its resolved value; every other key is as the log left it |
| `SpoilerParse.VisitedSettings` | tracker/tracker.go:192-245 | the save loop sets the name, header and whereabouts by the flag chain and the code flags by the registry |
| `SpoilerParse.VisitedBooks` | tracker/tracker.go:209-287 | the save loop keeps the books balanced and entrances bounded |
| `SpoilerParse.SavedHeader` | tracker/tracker.go:120-245 | after both files, whatever the portal rule, the header, whereabouts and code flags are exactly what the two files say |
| `Tracker.Resolve` | tracker/tracker.go:256-284 | a door is recorded exactly when the log pairs it and both it and its partner have a region, in its own region as Door{partner's region, partner} |
| `Tracker.PortalPlaces` | tracker/tracker.go:251-284 | the tracker's rule places a door in a scene exactly when it is not "Shop", is paired, both doors have regions and its region is that scene |
| `Tracker.ShopLabelInjective` | tracker/tracker.go:317 | different shop indices give different "Shop Portal n" keys |
| `Tracker.Stock` | tracker/tracker.go:311-320 | the shop projection touches only the "Shop" scene |
| `Tracker.StockCounts` | tracker/tracker.go:311-320 | the "Shop" scene's entrance total rises by the length of the shop list, and nothing else of its counters or checks changes |
| `Tracker.StockLabel` | tracker/tracker.go:313-318 | "Shop Portal i" leads to the i-th listed door, with its region or "" when it has none |
| `Tracker.StockOthers` | tracker/tracker.go:311-320 | every other key of the "Shop" scene keeps its entry |
| `Tracker.ParseWithSpoiler` | tracker/tracker.go:111-201 | the parse fails exactly when the stat, the log or the save file fails, with that failure |
| `Tracker.ParsePublished` | tracker/tracker.go:83-337 | with every file read the payload is published, with the two files' header, whereabouts and code flags and balanced books |
| `Tracker.Publish` | tracker/tracker.go:335 | the state changes only on success, and then to the payload |
| `Tracker.Finish` | tracker/tracker.go:291-320 | the sweep and the shop list return exactly the world's scenes with the header, whereabouts and code flags kept; their effect is stated by `Tracker.FinishCounts` and `Tracker.FinishEntrance` |
| `Tracker.Build` | tracker/tracker.go:111-320 | the payload built from both files holds exactly the world's scenes; its contents are stated by the `Tracker.Build*` lemmas |
| `Tracker.FinishCounts` | tracker/tracker.go:291-320 | after the sweep and the shop list, each scene's entrance counters rise by its pending doors, plus the shop list for "Shop" when a shop was used |
| `Tracker.FinishEntrance` | tracker/tracker.go:291-320 | a shop label holds its listed door, a pending listed door holds Door{}, every other key is as the save loop left it |
| `Tracker.FinishBooks` | tracker/tracker.go:291-320 | the sweep and the shop list keep the books balanced and entrances bounded |
| `Tracker.PlacedResolvable` | tracker/tracker.go:256-284 | with the log's pairing the rule places exactly the resolvable doors, at their partner and the partner's region |
| `Tracker.RecordedUsed` | tracker/tracker.go:247-286 | the lines the save loop records into a scene are exactly the portal lines naming a door resolvable into it |
| `Tracker.BuildHeader` | tracker/tracker.go:120-245 | the published header, whereabouts and code flags are what the two files say |
| `Tracker.BuildBooks` | tracker/tracker.go:83-320 | the published global check counters are the sums over scenes, and no scene has more undiscovered entrances or checks than counted |
| `Tracker.BuildTotals` | tracker/tracker.go:167-184 | global totals: two entrances per pairing, one undiscovered per pending door, and the log's counted checks with those marked `-` undiscovered |
| `Tracker.BuildSceneChecks` | tracker/tracker.go:167-175 | a scene's check counters are the log's lines naming it, undiscovered those marked `-` |
| `Tracker.BuildSceneEntrances` | tracker/tracker.go:281-318 | a scene's entrance total is its resolved portal lines plus its pending doors plus, for a used shop, the shop list; undiscovered is its pending doors |
| `Tracker.VisitedEntranceTotal` | tracker/tracker.go:281-284 | after the save loop a scene counts exactly its resolved portal lines, none undiscovered |
| `Tracker.VisitedEntranceMap` | tracker/tracker.go:281-284 | after the save loop a scene holds exactly its used resolvable doors, each leading to its destination |
| `Tracker.FinishEntranceAfter` | tracker/tracker.go:291-320 | the sweep and shop list turn the save loop's entrances into the final per-door description |
| `Tracker.BuildEntrance` | tracker/tracker.go:247-320 | each door's final entrance: a shop label, else its resolved destination, else Door{} for an unused listed non-shop door, else absent |
| `Tracker.BuildMarks` | tracker/tracker.go:170 | a published check is stored exactly when the log names it, with the last line's mark |
| `Legacy.Resolve` | main.go:287-305 | a door is recorded exactly when the log pairs it and it has a region, as its partner's name, whether or not the partner has a region |
| `Legacy.Parse` | main.go:150-234 | the parse reports an error exactly when the stat, the log or the save file fails, with that failure, and always returns a payload over all scenes |
| `Legacy.ParseWithSpoiler` | main.go:121-333 | with the older registry there is no error exactly when every file is read |
| `Legacy.ParseComplete` | main.go:121-333 | with every file read there is no error, and the payload has the two files' header, whereabouts and code flags and balanced books |
| `Legacy.Partial` | main.go:150-234 | what comes back with each error: the skeleton, the skeleton with the log's status and hash, or the log's counters and seed with the save's name |
| `Legacy.PlacedKnown` | main.go:279-306 | the older rule places exactly the paired non-shop doors with a region, as their partner's name |
| `Legacy.RecordedUsed` | main.go:279-306 | the lines recorded into a scene are exactly the portal lines naming a door known in it |
| `Legacy.Build` | main.go:150-324 | the payload built from both files holds exactly the world's scenes; its contents are stated by the `Legacy.Build*` lemmas |
| `Legacy.BuildHeader` | main.go:226-277 | the header, whereabouts and code flags are what the two files say |
| `Legacy.BuildBooks` | main.go:204-321 | the books balance, and no scene has more undiscovered entrances than entrances |
| `Legacy.BuildTotals` | main.go:204-218 | two entrances per pairing, one undiscovered per unused listed door (shops included), and the log's checks |
| `Legacy.BuildSceneChecks` | main.go:204-212 | a scene's check counters are the log's lines naming it, undiscovered those marked `-` |
| `Legacy.VisitedEntranceTotal` | main.go:302-305 | after the save loop a scene counts exactly its resolved portal lines, none undiscovered |
| `Legacy.BuildSceneEntrances` | main.go:302-321 | a scene's entrance total is its resolved portal lines plus its unused listed doors; undiscovered is the latter |
| `Legacy.VisitedEntranceMap` | main.go:302-305 | after the save loop a scene holds exactly its used known doors, each as its partner's name |
| `Legacy.BuildEntrance` | main.go:279-324 | each door's final entrance: its partner's name when used and known, else "" for an unused listed door, else absent |
| `Legacy.BuildMarks` | main.go:207 | a check is stored exactly when the log names it, with the last line's mark |
| `NoSpoiler.Tokens` | main.go:392-396 | the collected doors are portal tokens |
| `NoSpoiler.TokensArePortals` | main.go:392-396 | the door list and the lookup set hold the same doors |
| `NoSpoiler.WindowWidth` | main.go:403-406 | the window is 2 wide exactly when the fixed-shop line occurs in the save, 6 otherwise |
| `NoSpoiler.ShopDoor` | main.go:414-428 | one window door keeps the scene set, header, whereabouts, code flags, check counters and undiscovered counts; what it writes is stated by `NoSpoiler.WindowEntrance` |
| `NoSpoiler.Window` | main.go:413-429 | the whole window keeps the same parts; what it writes is stated by `NoSpoiler.WindowEntrance` |
| `NoSpoiler.WindowEntrance` | main.go:413-429 | the window writes "Shop Portal" for exactly its doors that are not "Shop Portal" and have a region, in their own region |
| `NoSpoiler.Fill` | main.go:413-429 | the window's inner loop computes the window |
| `NoSpoiler.PairAsWritten` | main.go:433-458 | as-written half of the Findings row: with both regions known, both regions' scenes hold a → b and b → a; region2's scene takes region1's checks, check counters and undiscovered count, with region1's entrance total plus 2; region1's total rises by 1 when the regions differ; the global total rises by 2; other scenes are kept; with a region unknown nothing changes |
| `NoSpoiler.Pair` | main.go:433-458 | corrected half of the Findings row: the pair the source evidently intends keeps the scene set, header, whereabouts, code flags, check counters and undiscovered counts; what it writes is stated by `NoSpoiler.PairLinks` |
| `NoSpoiler.PairLinks` | main.go:433-458 | corrected half of the Findings row: with both regions known the corrected pair links a → b in region1 and b → a in region2, raises each region's total once (twice when they coincide) and the global total twice, and keeps every other scene; with a region unknown nothing changes |
| `NoSpoiler.Walk` | main.go:408-461 | the walk, with either pair step, keeps the scene set, header, whereabouts, code flags, check counters and undiscovered counts; what it writes is stated by `NoSpoiler.WalkPlaced` |
| `NoSpoiler.WalkTail` | main.go:408-410 | with either pair step, a cursor with i + lookahead ≥ the list's length acts no more, so the trailing doors are never written |
| `NoSpoiler.WalkReads` | main.go:408-461 | with either pair step, the walk from cursor i reads no door before i and never the last door |
| `NoSpoiler.WindowSkips` | main.go:430 | with either pair step, the two doors just past a shop window are skipped whatever they are |
| `NoSpoiler.Cursor` | main.go:408-461 | the cursor loop, with the source's pair step or the corrected one, computes the walk from cursor 0 |
| `NoSpoiler.WalkPlaced` | main.go:408-461 | the source's walk records only used doors with a region, leading to "Shop Portal" or to a used door; the corrected walk also keeps each door in its own region's scene |
| `NoSpoiler.PairAsWrittenMisplaces` | main.go:455-458 | as-written half of the Findings row: with doors a (scene A) and b (scene B), tokens [a, b, x] and fixed shops, scene B gets door a and a total of 2, so a door sits outside its region |
| `NoSpoiler.PairKeepsRegions` | main.go:450-458 | corrected half of the Findings row: on the same input the corrected pair leaves B with b → a alone, counted once |
| `NoSpoiler.WalkKeeps` | main.go:408-461 | corrected half of the Findings row: the corrected walk writes no checks and marks nothing undiscovered in any scene |
| `NoSpoiler.WalkBlank` | main.go:408-461 | with either pair step, a payload with no checks, no check counts and no undiscovered entrances stays so through the walk |
| `NoSpoiler.ParseWithoutSpoiler` | main.go:335-478 | the parse as the source writes it returns exactly the world's scenes; its header, counters, checks and entrances are stated by `NoSpoiler.ParseHeader`, `NoSpoiler.ParseCounts`, `NoSpoiler.ParseChecks` and `NoSpoiler.ParseEntrance` |
| `NoSpoiler.ParseHeader` | main.go:336-390 | header and whereabouts come from the shorter chain; no code section; nothing from a spoiler log |
| `NoSpoiler.ParseCounts` | main.go:464-475 | the sweep raises each scene's undiscovered count by its unused listed doors, shops included, leaves its total, and the global undiscovered count by all such doors |
| `NoSpoiler.PendingInUnseen` | main.go:464-467 | without shop skipping the sweep acts on exactly the unused listed doors |
| `NoSpoiler.ParseChecks` | main.go:398 | no check is stored or counted |
| `NoSpoiler.ParseEntrance` | main.go:408-475 | in the parse as written an unused listed door is ""; any other recorded door is a used door with a region leading to "Shop Portal" or a used door, though not necessarily a door of this scene |
| `NoSpoiler.ParseIntended` | main.go:335-478 | corrected half of the Findings row: the parse with the corrected pair step returns exactly the world's scenes |
| `NoSpoiler.IntendedEntrance` | main.go:408-475 | corrected half of the Findings row: in the corrected parse an unused listed door is ""; any other recorded door is a used door of this very scene leading to "Shop Portal" or a used door |
| `Recent.MostRecentSave` | main.go:81-108 | "" exactly when no ".tunic" file is newer than the zero time; otherwise a ".tunic" name strictly newer than earlier saves and no older than later ones |
| `Recent.PickUnique` | main.go:100-103 | the pick is unique: on ties the first listed file wins |
| `Recent.PickExists` | main.go:90-105 | a pick exists exactly when some save is newer than the zero time |

## Left out

- File system, scanning and panics are left out. `os.Stat`, `os.Open`, `os.ReadDir`, `file.Info` and bufio's line splitting become inputs: an mtime, an optional list of lines, or a list of (name, mtime) entries. The bufio token-size limit and the panics of `parseWithoutSpoiler` and `mostRecentSave` are not modelled.
- `NoSpoiler.ParseWithoutSpoiler` takes the save file's lines directly. Which file they come from is `Recent.MostRecentSave`, whose input list is in the order `os.ReadDir` returns, sorted by name.
- The MD5 content hash is a parameter `digest` of the save name and the log's mtime, because it is a foreign call.
- `time.Time` is an integer, with 0 as Go's zero time.
- Go's `int` counters are unbounded naturals. They only ever grow from zero, by at most a few per line.
- Logging is not modelled. This includes the warnings for unknown scenes and doors and the seed-mismatch warning; that warning only logs, so nothing in the model depends on it.
- The HTTP server, settings, the polling goroutine and the global `State` are left out. Publishing is `Tracker.Publish` on an explicit state value.
- The world registry is a parameter. `Consistent` requires every region, listed scene and "Shop" to be a scene, because Go would panic writing to a missing scene's nil map.
- `TranslateScene` is a total function. Its error only logs.
- Go map iteration order is not modelled. Registries are lists; their keys and signals are proved distinct, so the order is immaterial. `allDoors` is a list of (scene, doors) entries.
- Patterns: the pairing matcher picks the leftmost dash that starts a match and, within it, the last " -- " that leaves text after it. This is how Go's leftmost-first greedy `(.+)` behaves on these lines. `.` is read as any character, since scanned lines hold no newline.
- NoSpoiler.PairAsWritten: models the source's single write of region2's record, which is a copy of region1's record. It does not model the later sharing of one Go map by the two scenes. After that write, a later pair, window or sweep entry written into either scene shows up in both in Go; in the model it stays in the scene it was written to.
- NoSpoiler.ParseWithoutSpoiler: models the source's pair step, including the misplacement in the Findings row, but not the map sharing that step leaves behind (see the line above). `NoSpoiler.ParseIntended` is the same parse with the corrected step.
- NoSpoiler.ParseCounts: states the entrance totals as the walk's totals. It gives no closed count of windows and pairs.
- NoSpoiler.WindowEntrance: states the window's written entrances but not its per-door total increments. Those are stated for the pair by `NoSpoiler.PairLinks`.
- NoSpoiler.ParseHeader: `parseWithoutSpoiler` leaves `Codes` nil. Here the code section is `map[]`, which serves the same.

## Findings

| source | as written | input that shows it | evidently intended | confidence | as-written member | corrected member |
|---|---|---|---|---|---|---|
| main.go:455-458 | the record stored for region2 is read from `payload.Scenes[region1]`: it holds region1's doors and total, and it shares region1's map | door "a" in scene "A", door "b" in scene "B", fixed shops, portal tokens ["a", "b", "x"]: scene "B" ends with "a" among its entrances and an entrance total of 2 | read `payload.Scenes[region2]`, so "B" holds only b → a with a total of 1 | not executed | `NoSpoiler.PairAsWrittenMisplaces` | `NoSpoiler.PairKeepsRegions` |

The model keeps both halves. `NoSpoiler.ParseWithoutSpoiler` runs the pair step as written (`NoSpoiler.PairAsWritten`), and `NoSpoiler.ParseEntrance` states what can be promised of it. `NoSpoiler.ParseIntended` runs the corrected step (`NoSpoiler.Pair`), and `NoSpoiler.IntendedEntrance` proves the intended property: every recorded door sits in its own region's scene.
