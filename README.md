# Rug: easy harvesting and crafting-rule files, in Dafny

This project models two features of Rug, a server-side extension for a voxel sandbox game.
Both live in `RugServer.java`.

**Easy harvesting.** When the `easyHarvesting` setting is not `off`, a right-click with the main hand on a plant, on the server, is handled as follows:
- A mature crop (any crop block, nether wart or cocoa) drops its loot minus one seed. It is then replanted at age 0, or cleared to air when the loot held no seed.
- A stem plant (sugar cane, cactus, bamboo, kelp, twisting, weeping and cave vines) loses the block two past the root of its stem, so its base block stays planted. A lone block is left alone.
- In `require_hoe` mode only a hoe works, every face may be clicked, and a successful harvest wears the hoe by one.
- In any other mode, a stem plant that grows up cannot be harvested from its top face, and one that grows down cannot be harvested from its bottom face. A mature crop is harvested from any face.

**Crafting rules.** A crafting rule is a setting that switches a group of bundled recipe files in or out of the world's datapack. For a string-valued rule, the update works in three steps:
1. It deletes every recipe file whose name starts with one of the rule's recipe names.
2. In the `rug` namespace, it deletes every advancement whose name starts with the rule name.
3. Unless the value is `off`, it installs `<recipe>_<value>.json` for each recipe. In `rug` it also writes the advancement `<rule>_<value>.json`, whose rewards are `rug:<file name without .json>`.

Integer rules (above 0) and boolean rules (true) copy the recipe files and, in `rug`, write the advancement `<rule>.json`. Every other value deletes the recipe files and, in `rug`, that advancement.

The model has three modules:
- `Blocks` holds the host's block, item and direction types as plain values. The world is reduced to one vertical column of block states; heights outside the column read as air and cannot be written.
- `EasyHarvesting` holds the use-block callback.
  - `UseBlockSpec` is the callback as a function of the inputs and the old column. `UseBlock` runs it imperatively on a `World` and a `Player` object and is proved equal to it.
  - `Harvest`, `HarvestCrop`, `HarvestStem` and `BreakAt` are the branches.
  - `IsMature` and `GetAgeProperty` are the source's two helpers.
  - `StemLength`, `StemCount`, `StemRoot` and `StemTarget` describe what `harvestStemPlant`'s loop finds.
  - `FirstSeed` and `WithoutSeed` describe what the drop loop does to the loot.
- `CraftingRules` holds the names and list building of `updateCraftingRule`, `copyRecipes`, `deleteRecipes`, `writeAdvancement` and `removeAdvancement`.
  - The datapack is a value `Pack`: the file names in the rule's recipe directory, and each advancement file's reward list.
  - `AfterUpdate` is the specification of one update. `UpdateCraftingRule` performs it with the source's loops and is proved equal to it.

## Model

| member | source | states |
|---|---|---|
| `EasyHarvesting.IsMature` | src/main/java/de/rubixdev/rug/RugServer.java:441-458 | Only a crop at or past its maximum age, nether wart at age 3 or cocoa at age 2 is mature. A mature block always has an age property, so the reset to age 0 never meets the `null` of `getAgeProperty`; it is never air. |
| `EasyHarvesting.ReplantedIsYoung` | src/main/java/de/rubixdev/rug/RugServer.java:171-174 | The reset `state.with(getAgeProperty(block), 0)` of a mature block keeps the block and its other properties and makes it no longer mature, so a second click does not harvest it again. The one exception is a crop whose maximum age is 0. |
| `EasyHarvesting.FirstSeed` | src/main/java/de/rubixdev/rug/RugServer.java:159-167 | Gives the index of the first dropped stack whose item is the block item of the harvested block, or the list length when there is none. No earlier stack is such a seed. |
| `EasyHarvesting.WithoutSeedTakesOne` | src/main/java/de/rubixdev/rug/RugServer.java:159-169 | Seed removal keeps the length, every item and every tool wear. At most one stack changes: the first seed, whose count drops by exactly 1. The total item count drops by 1 exactly when the loot holds a seed. |
| `EasyHarvesting.DropStacks` | src/main/java/de/rubixdev/rug/RugServer.java:159-169 | The in-place loop over the drop list: its new contents are the loot with the first seed decremented, it reports whether a seed was taken, and every stack is dropped in list order after its decrement. The column and broken positions stay unchanged. |
| `EasyHarvesting.StemOf` | src/main/java/de/rubixdev/rug/RugServer.java:175-198 | Exactly the eleven stem and vine blocks are dispatched. Each is mapped to itself or, for a head block (kelp, twisting, weeping and cave vines), to its plant variant, with a vertical grow direction. Up is picked for sugar cane, cactus, bamboo, kelp and twisting vines; down for weeping and cave vines. |
| `EasyHarvesting.StemLengthSpan` | src/main/java/de/rubixdev/rug/RugServer.java:211-214 | The stem walk from a position finds `n` stem blocks in a row against the grow direction, followed by a non-stem position. |
| `EasyHarvesting.StemHarvestableIff` | src/main/java/de/rubixdev/rug/RugServer.java:216 | The guard `count == 1 && !ahead` refuses exactly when no stem block lies right behind and none right ahead of the clicked position. |
| `EasyHarvesting.StemRootFacts` | src/main/java/de/rubixdev/rug/RugServer.java:209-217 | `root` is the first non-stem position `count` steps behind `pos`, with `count - 1` stem blocks strictly between. The base just past the root is the clicked block or a stem block. On a harvest, the broken block two past the root is the clicked block or part of its stem, and never the base. |
| `EasyHarvesting.HarvestStemPlant` | src/main/java/de/rubixdev/rug/RugServer.java:208-219 | The loop keeps `root == pos` moved `count` steps back and counts the stem blocks it has passed. The result is true exactly when the guard passes; then the only change is `breakBlock` two past the root. Otherwise nothing changes. |
| `EasyHarvesting.HarvestClicked` | src/main/java/de/rubixdev/rug/RugServer.java:150-198 | The branch chain, in the source's order, makes exactly the change `Harvest` specifies. It reports PASS when no branch applies or the stem harvest refuses. |
| `EasyHarvesting.UseBlock` | src/main/java/de/rubixdev/rug/RugServer.java:133-204 | The callback's result, new column, dropped stacks, broken positions and main-hand stack are those of `UseBlockSpec`. |
| `EasyHarvesting.Player.DamageMainHand` | src/main/java/de/rubixdev/rug/RugServer.java:200-202 | The main-hand stack's wear grows by the given amount; nothing else changes. |
| `EasyHarvesting.ClosedGatePasses` | src/main/java/de/rubixdev/rug/RugServer.java:134-136 | With the setting `off`, on the client or with the off hand, the result is PASS and nothing changes. |
| `EasyHarvesting.RequireHoeWithoutHoePasses` | src/main/java/de/rubixdev/rug/RugServer.java:141-144 | In `require_hoe` mode, anything but a hoe (or no player) gives PASS and changes nothing. |
| `EasyHarvesting.PassChangesNothingAndToolWear` | src/main/java/de/rubixdev/rug/RugServer.java:200-203 | Every PASS leaves the world and the tool unchanged. The tool is worn by exactly 1 only in `require_hoe` mode on SUCCESS. SUCCESS needs an open gate. |
| `EasyHarvesting.MatureCropReplanted` | src/main/java/de/rubixdev/rug/RugServer.java:150-174 | Behind an open gate, a mature crop gives SUCCESS and drops the loot with one seed withheld. Only the clicked position changes: it gets the same block and other properties at age 0 when the loot held a seed, and air otherwise. |
| `EasyHarvesting.StemPlantHarvest` | src/main/java/de/rubixdev/rug/RugServer.java:175-198 | Behind an open gate and on an allowed face, a stem plant gives SUCCESS exactly when a stem block lies behind or ahead of the click. Then exactly one block is broken, two past the root and inside the plant, and the base block is unchanged. |
| `EasyHarvesting.DisallowedFacePasses` | src/main/java/de/rubixdev/rug/RugServer.java:145-193 | Outside `require_hoe` mode, a stem plant that grows up clicked on its top face, or one that grows down clicked on its bottom face, gives PASS and changes nothing. |
| `EasyHarvesting.MatureCropAnyFace` | src/main/java/de/rubixdev/rug/RugServer.java:145-174 | The face check does not reach the mature-crop branch: behind an open gate a mature crop gives SUCCESS with the same outcome whichever face is clicked. |
| `CraftingRules.StripJsonSuffix` | src/main/java/de/rubixdev/rug/RugServer.java:399 | `replace(".json", "")` on `name + ".json"` gives back `name` when `name` has no ".json" in it. |
| `CraftingRules.RecipeFileReward` | src/main/java/de/rubixdev/rug/RugServer.java:398-400 | The reward for the installed file `<recipe>_<value>.json` is `rug:<recipe>_<value>`. |
| `CraftingRules.RecipeFilesAreRecipes` | src/main/java/de/rubixdev/rug/RugServer.java:331-338 | Every installed `<recipe>_<value>.json` starts with its recipe name, so the prefix filter finds it on the next update. |
| `CraftingRules.MatchesMembers` | src/main/java/de/rubixdev/rug/RugServer.java:297-301 | For one listed file, the inner loop adds only that file, and adds it exactly when it starts with some recipe name. |
| `CraftingRules.InstalledMembers` | src/main/java/de/rubixdev/rug/RugServer.java:293-303 | `installedRecipes` holds exactly the listed files that start with one of the recipe names. |
| `CraftingRules.StaleAdvancementsMembers` | src/main/java/de/rubixdev/rug/RugServer.java:312-321 | `installedAdvancements` holds exactly the listed names, with ".json" removed, that start with the rule name. |
| `CraftingRules.RecipeFileNames` | src/main/java/de/rubixdev/rug/RugServer.java:332-335 | `tempRecipes` is `<recipe>_<value>.json` for each recipe, in order. |
| `CraftingRules.InstalledRecipes` | src/main/java/de/rubixdev/rug/RugServer.java:293-303 | The nested loop over the listing and the recipe names builds `Installed`: each file once per recipe name it starts with, in listing order. |
| `CraftingRules.InstalledAdvancements` | src/main/java/de/rubixdev/rug/RugServer.java:312-321 | The loop over the advancement listing builds the stale names in listing order. |
| `CraftingRules.WriteAdvancement` | src/main/java/de/rubixdev/rug/RugServer.java:388-402 | The advancement `<ruleName>.json` gets the template's rewards followed by one `rug:` reward per recipe, in order. Other advancements and the recipe files are kept. |
| `CraftingRules.CopyRecipes` | src/main/java/de/rubixdev/rug/RugServer.java:357-367 | Adds every recipe file and, in `rug`, writes the rule's advancement. |
| `CraftingRules.DeleteRecipes` | src/main/java/de/rubixdev/rug/RugServer.java:369-386 | Removes every recipe file and, on request in `rug`, the rule's advancement. |
| `CraftingRules.UpdateCraftingRule` | src/main/java/de/rubixdev/rug/RugServer.java:281-355 | Given directory listings that enumerate the datapack, the update's new datapack is `AfterUpdate`, branch by rule type. |
| `CraftingRules.StringRuleRecipes` | src/main/java/de/rubixdev/rug/RugServer.java:290-338 | After a string update, a file matching a recipe name is present exactly when it is one of the value's `<recipe>_<value>.json` files. For `off` no such file is present. Every other file is as before. |
| `CraftingRules.StringRuleAdvancement` | src/main/java/de/rubixdev/rug/RugServer.java:331-338 | After a string update in `rug` to a value other than `off`, `<rule>_<value>.json` rewards the template's recipes, then `rug:<recipe>_<value>` for each recipe in order. |
| `CraftingRules.StringRuleIdempotent` | src/main/java/de/rubixdev/rug/RugServer.java:290-338 | Applying the same string value twice leaves the same recipe files as applying it once. |
| `CraftingRules.StringRuleOffUndoes` | src/main/java/de/rubixdev/rug/RugServer.java:290-338 | `off` after any value leaves the same recipe files as `off` alone. |
| `CraftingRules.BoolRuleOffUndoesOn` | src/main/java/de/rubixdev/rug/RugServer.java:350-354 | Switching a boolean rule on and then off removes its recipe files and, in `rug`, its advancement. Nothing else changes. |

## Left out

- All file-system work is abstracted to the `Pack` value: the real files, `copyFile`, `readJson`/`writeJson`, `Files.list`, `deleteIfExists` and the JSON contents other than the reward list.
- Copies are taken to succeed. A bundled resource that is missing, or a `Files.list` that fails and yields no files, is not modelled.
- The integer-rule edit of each recipe's `result.count` (lines 342-349) is not modelled. It rewrites the contents of the copied files, which the model does not hold.
- The `CaseFormat` conversion of the rule name (line 288) is a library call. Rule names are taken already converted.
- `registerCraftingRule`, the rule observers, `reload`, `onServerLoadedWorlds`, `onServerClosed` and the datapack-enable command are host calls and directory management.
- `canHasTranslations` is resource loading and JSON parsing. `savePlayerData` is serialisation and a file swap. `registerCommands`, `onInitialize`, `onGameStarted` and `version` only register things with the host.
- The furnace-experience and banner-layer injections are not part of this model. The first substitutes a floating-point value behind a flag set by host call order; the second replaces one constant.
- Only one vertical column of the world is modelled. The rule reads only the clicked position and positions straight above and below it.
- The loot table (`Block.getDroppedStacks`) is host code and is given as the parameter `loot`.
- `CropBlock.isMature` is host code. The model takes the host's rule: age at least the crop's maximum age.
- `Block.dropStack` is modelled as recording every stack, in order. The host's discarding of empty stacks and the item entities it spawns are not modelled. Neither is `ItemStack.getItem` reporting air for an empty stack.
- `World.breakBlock` is modelled as a no-op on air and otherwise as setting air and recording the position. The broken block's own loot, and the fluid a waterlogged plant such as kelp leaves behind, are not modelled.
- `Player.DamageMainHand` adds the damage as given. The host's handling of creative mode, the Unbreaking enchantment, tool breakage and `sendToolBreakStatus` is not modelled.
- `CraftingRules.StringRuleAdvancement` requires that no recipe name joined with the value contains ".json". Otherwise `replace` would also remove an inner occurrence.
- `CraftingRules.StringRuleIdempotent` covers only the recipe files. For advancements the same holds only when no advancement file name contains ".json" more than once.
