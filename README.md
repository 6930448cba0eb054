# Slot machine engine — a Dafny model

This project models the game engine of a browser slot-machine game. The engine lives in
`src/slot-machine/index.ts`, and the model covers:

- **Symbol catalogue.** `defineSymbol` fills the defaults: no name, score 0, common. The library
  holds eight definitions. `empty` is the special zero-score filler; the seven others are common
  and worth one point each. The catalogue also has the per-rarity index and `createSymbol`, which
  copies a definition into a new instance.
- **Viewport sampler (`pickSymbols`).** It pads the owned collection up to the grid size
  (4 rows × 5 columns = 20) with one shared `empty` instance, then draws a sample of exactly 20.
  `createInitialOwnedSymbols` builds the seed collection.
- **Score tabulation (`processSpin`).** The effect pass visits every cell and activates the
  symbols that have targets. The tabulation then groups the viewport by score, drops the zero
  group, and visits the other scores in ascending order. Every member of a group adds its score
  to the total.
- **Game state (`useSlotMachine`).** The state is the owned collection, the viewport, the spinning
  flag, the score, the spin count, the prize offer and the two window flags. The transitions are
  `spin`, `handleSpinComplete`, `openPrizeWindow`, `addSymbol` and `selectPrize`. The Skip button
  of the prize window only closes it.

Modelling choices:

- A symbol instance is `Symbol(id, def)`. The `id` stands for JavaScript object identity.
  `indexOf` searches by `id`; the filler search (`_.find` with the `empty` definition as pattern)
  compares name, score and rarity.
- The padding in `pickSymbols` is one object repeated, so all padding slots share one `id`.
- The machine hands out identities from a counter `nextId`. Every `createSymbol` call takes one.
- `_.sampleSize` is lodash's partial Fisher–Yates shuffle. The random numbers are an input
  `draws`: step `i` exchanges position `i` with position `i + draws[i] % (n - i)`.
- The machine is a class whose methods update its fields in place. The seed collection is built
  in an array, as the source does.

Files:

- `symbols.dfy`: the catalogue.
- `sampling.dfy`: sampling, `pickSymbols` and the seed collection.
- `tabulation.dfy`: `processSpin`.
- `collection.dfy`: the searches and the slot overwrite of `addSymbol`.
- `slot_machine.dfy`: the state machine.

Main results:

- **Sampler.** The viewport always has 20 symbols. From a collection of at most 20 it is a
  rearrangement of the collection plus the missing number of padding fillers. From a larger
  collection it is made of distinct owned instances.
- **Tabulation.** The batches come in strictly ascending non-zero scores. Each batch holds exactly
  the cells with its score. The total added equals the sum of all viewport scores.
- **Invariant.** Every transition keeps the machine's invariant:
  - the viewport fills the grid with owned instances;
  - the owned collection never drops below 20;
  - all instances are distinct objects.
- **Spin.** A spin is refused, with nothing changed, unless `canSpin` holds. Otherwise it counts
  exactly one spin. After it, no spin can start until the prize window is closed.
- **Prize.** Completing a spin offers the three-element sample, under the given draws, of the common symbols in library order: three different common symbols. A prize taken with
  `addSymbol` always ends up owned. It replaces exactly the slot of the first filler, looking in
  the viewport first and then in the owned collection. If there is no filler, it is appended.

## Model

| member | source | states |
|---|---|---|
| Symbols.DefineSymbol | src/slot-machine/index.ts:31-39 | every given property wins; an omitted name, score or rarity becomes `''`, 0 or common |
| Symbols.Library | src/slot-machine/index.ts:41-88 | only `empty` is special, and the others are common; `empty` scores 0 and the others score 1; none has targets |
| Symbols.LibraryInjective | src/slot-machine/index.ts:41-88 | different keys have different definitions |
| Symbols.FilterMembers | src/slot-machine/index.ts:92-98 | the filter keeps exactly the definitions of the given rarity, each from the keys, and keeps them distinct when the keys are distinct |
| Symbols.KeptPositions | src/slot-machine/index.ts:92-98 | the positions the filter keeps lie inside the key list |
| Symbols.KeptPositionsIncrease | src/slot-machine/index.ts:92-98 | the kept positions strictly increase |
| Symbols.KeptPositionsCount | src/slot-machine/index.ts:92-98 | the filter keeps one definition per kept position |
| Symbols.FilterAt | src/slot-machine/index.ts:92-98 | the i-th definition kept is the library definition of the key at the i-th kept position |
| Symbols.FilterKeepsKeyOrder | src/slot-machine/index.ts:92-98 | the filter lists the kept definitions in key order |
| Symbols.ByRarityMembers | src/slot-machine/index.ts:92-98 | a library definition is in a rarity's list iff it has that rarity; the list has no repeats |
| Symbols.ByRarityInLibraryOrder | src/slot-machine/index.ts:92-98 | a rarity's list follows library order: its i-th entry is the definition at the i-th of strictly increasing library positions |
| Symbols.FilterKeepsAll | src/slot-machine/index.ts:92-98 | when every key has the rarity, the filter keeps all their definitions, in order |
| Symbols.FilterSkipsFirst | src/slot-machine/index.ts:92-98 | when only the first key lacks the rarity, the filter keeps the definitions of the rest, in order |
| Symbols.ScoringKeysCommon | src/slot-machine/index.ts:41-88 | every library key after `empty` is common |
| Symbols.CommonPoolOrder | src/slot-machine/index.ts:94 | the common list is the seven definitions after `empty`, in library order |
| Symbols.CommonPoolSize | src/slot-machine/index.ts:94 | the common list has seven definitions |
| Symbols.AllKeysComplete | src/slot-machine/index.ts:41-90 | the key list names every library key exactly once |
| Symbols.CreateSymbol | src/slot-machine/index.ts:111-116 | the new instance carries the library definition of a key, or a copy of the given definition, under the identity it is given |
| Symbols.IsFiller | src/slot-machine/index.ts:245 | the `_.find` pattern: name, score and rarity equal those of `empty` (`icon` is not compared; see "## Left out") |
| Symbols.FillerIsEmptyOnly | src/slot-machine/index.ts:245 | of the library symbols, exactly `empty` matches the filler pattern |
| Sampling.SampleSize | src/slot-machine/index.ts:121-129 | a sample has min(n, length) elements |
| Sampling.SwapPermutes | src/slot-machine/index.ts:121-129 | one shuffle step rearranges the sequence |
| Sampling.ShufflePermutes | src/slot-machine/index.ts:121-129 | the shuffle loses and duplicates nothing |
| Sampling.SampleDrawsFrom | src/slot-machine/index.ts:121-129 | a sample takes each element at most as often as it occurs; a sample of at least the whole length is a rearrangement of the whole |
| Sampling.ShuffleKeepsDistinct | src/slot-machine/index.ts:235 | shuffling pairwise different elements keeps them pairwise different |
| Sampling.ShuffleKeepsDistinctIds | src/slot-machine/index.ts:121-129 | shuffling pairwise different instances keeps them pairwise different |
| Sampling.SampleOfDistinct | src/slot-machine/index.ts:235 | a sample of different elements is made of different elements of the source |
| Sampling.Repeat | src/slot-machine/index.ts:123-126 | n copies of one value, and nothing else |
| Sampling.Padding | src/slot-machine/index.ts:122-127 | padding brings a collection to exactly 20, or adds nothing to a larger one, and consists of the one filler |
| Sampling.PickSymbols | src/slot-machine/index.ts:120-130 | the viewport has exactly 20 symbols for any owned length, 0 included |
| Sampling.PickFromShortCollection | src/slot-machine/index.ts:120-130 | from at most 20 owned, the viewport is a rearrangement of the owned instances plus (20 − length) copies of the one padding filler |
| Sampling.PickFromLargeCollection | src/slot-machine/index.ts:120-130 | from at least 20 owned, the viewport takes owned instances, each at most as often as owned, and distinct instances stay distinct |
| Sampling.SeedIdsDistinct | src/slot-machine/index.ts:132-140 | the 20 seed positions hold pairwise different identities, all among the 25 the seed creates |
| Sampling.CreateInitialOwnedSymbols | src/slot-machine/index.ts:132-140 | 20 instances: cat, cherry, coin, flower and spade at 5, 7, 9, 11 and 13, `empty` elsewhere, all different objects with fresh identities |
| Collection.FindFiller | src/slot-machine/index.ts:245-246 | the search fails iff no instance matches the filler pattern; otherwise it returns the first match |
| Collection.IndexOf | src/slot-machine/index.ts:253-255 | the first position holding the identity, or -1 iff none does |
| Collection.ReplaceInstance | src/slot-machine/index.ts:252-253 | only the first slot holding the target changes, to the new instance; nothing changes when the target is absent |
| Collection.FillerToReplace | src/slot-machine/index.ts:244-246 | the first filler of the viewport, else the first of the owned collection; none iff neither has a filler |
| Collection.FillersZero | src/slot-machine/index.ts:244-248 | no fillers iff the filler search fails |
| Collection.FillersAppend | src/slot-machine/index.ts:248-250 | appending adds one filler exactly when the appended instance is one |
| Collection.FillersUpdate | src/slot-machine/index.ts:252-253 | overwriting a slot removes its filler, if any, and adds the new instance's |
| Collection.IndexOfMember | src/slot-machine/index.ts:253 | with distinct identities, the identity search finds exactly the instance |
| Collection.ReplaceKeepsDistinctIds | src/slot-machine/index.ts:252-263 | replacing with an unused identity keeps the instances distinct |
| Collection.ReplaceKeepsVisibleOwned | src/slot-machine/index.ts:252-263 | replacing the same owned instance in both collections keeps every visible instance owned |
| Tabulation.InsertKey | src/slot-machine/index.ts:169-171 | inserting into ascending keys keeps them strictly ascending and adds exactly the new key |
| Tabulation.ScoreKeys | src/slot-machine/index.ts:168-171 | the keys are strictly ascending and are exactly the non-zero scores that occur |
| Tabulation.MembersWithScore | src/slot-machine/index.ts:168-174 | in viewport order, exactly the cells with the given score |
| Tabulation.BatchesFor | src/slot-machine/index.ts:172-174 | one batch per key |
| Tabulation.Batches | src/slot-machine/index.ts:168-174 | batch scores are strictly ascending and are exactly the non-zero scores present; each batch holds exactly the cells with its score; zero forms no batch |
| Tabulation.SumAtConcat | src/slot-machine/index.ts:175-185 | adding two lists of members adds their sums |
| Tabulation.SumAtExtend | src/slot-machine/index.ts:175-185 | a member's score does not change when later cells are added |
| Tabulation.MembersSumStep | src/slot-machine/index.ts:174-185 | one more cell adds its score to its own batch only |
| Tabulation.MembersSum | src/slot-machine/index.ts:174-185 | a batch adds exactly the scores equal to its key |
| Tabulation.SumWhereSplit | src/slot-machine/index.ts:172-185 | sums over disjoint score sets add up |
| Tabulation.SumWhereCovers | src/slot-machine/index.ts:169 | when the dropped keys are only zero, the covered scores sum to the total |
| Tabulation.KeySet | src/slot-machine/index.ts:169-171 | the set of the keys |
| Tabulation.BatchesForTotal | src/slot-machine/index.ts:172-186 | the batches of distinct keys add the scores lying in those keys |
| Tabulation.SumWhereEmpty | src/slot-machine/index.ts:172-186 | no keys add nothing |
| Tabulation.SumAtStep | src/slot-machine/index.ts:176-183 | one more member adds its score |
| Tabulation.BatchesTotalStep | src/slot-machine/index.ts:172-186 | one more batch adds its members' sum |
| Tabulation.TabulationTotal | src/slot-machine/index.ts:168-186 | the batches add the sum of all viewport scores, each non-zero score once |
| Tabulation.ActivateSymbols | src/slot-machine/index.ts:154-165 | the cells activated are exactly those whose symbol has targets, in grid order; nothing else changes |
| Tabulation.AddBatches | src/slot-machine/index.ts:172-186 | the running total, batch by batch and member by member, equals the batches' total |
| Tabulation.TabulateScore | src/slot-machine/index.ts:167-186 | the tabulation adds exactly the sum of the viewport's scores |
| Tabulation.ProcessSpin | src/slot-machine/index.ts:147-187 | the effect pass activates the symbols with targets; the score grows by the sum of the viewport's scores |
| SlotMachine.DrawPrizeOptions | src/slot-machine/index.ts:233-235 | the offer is the sample of size three, under the given draws, of the common list in library order; so it is three different common definitions from the library |
| SlotMachine.AddInstance | src/slot-machine/index.ts:239-265 | the pure form of the `addSymbol` update, with no contract of its own; AddSymbolEffect, AddCountsOneInstance and AddKeepsValid state its effect |
| SlotMachine.PlaceInstance | src/slot-machine/index.ts:239-265 | the overwrite of the two collections is AddInstance: the first-found filler's slot in each, or an append to the owned collection |
| SlotMachine.FoundFillerIsOwned | src/slot-machine/index.ts:244-246 | when every visible instance is owned, the filler found is a filler and is owned |
| SlotMachine.PickKeepsValid | src/slot-machine/index.ts:212-219 | a new viewport keeps the collections' invariant |
| SlotMachine.AddKeepsValid | src/slot-machine/index.ts:239-265 | adding keeps the collections' invariant, and the added instance is owned, so a prize is never lost |
| SlotMachine.AddCountsOneInstance | src/slot-machine/index.ts:239-265 | owned non-fillers grow by one unless the prize is a filler; the owned length grows only when no filler exists; the viewport length is unchanged |
| SlotMachine.AddSymbolEffect | src/slot-machine/index.ts:241-263 | without a filler, the owned collection gains the new instance at its end and the viewport is unchanged. With one, the replaced instance is an owned filler: in each collection, only the slot holding it becomes the new instance |
| SlotMachine.ReplaceAtIdentity | src/slot-machine/index.ts:253-260 | with distinct identities, the identity overwrite touches exactly the slot holding the instance |
| SlotMachine.Machine.CanSpin | src/slot-machine/index.ts:206 | a spin may start iff the machine is not spinning and neither the prize window nor the payment window is open |
| SlotMachine.Machine.constructor | src/slot-machine/index.ts:189-205 | seed collection, the viewport a copy of it, score 0, no spins, no offer, windows closed, a spin allowed |
| SlotMachine.Machine.Spin | src/slot-machine/index.ts:206-220 | refused with no change unless a spin is allowed. Otherwise it sets spinning, counts one spin and shows a 20-sample of the owned collection; nothing else changes and no spin is allowed afterwards |
| SlotMachine.Machine.OpenPrizeWindow | src/slot-machine/index.ts:233-237 | the window opens with the three-element sample of the common list under the given draws, three different common definitions; nothing else changes |
| SlotMachine.Machine.HandleSpinComplete | src/slot-machine/index.ts:222-237 | the score grows by the viewport's sum; spinning stops; the prize window opens with the three-element sample of the common list under the given draws, three different common definitions, so no spin can start |
| SlotMachine.Machine.AddSymbol | src/slot-machine/index.ts:239-265 | the collections change as AddInstance says, the new instance is owned, and no other field changes |
| SlotMachine.Machine.SelectPrize | src/slot-machine/index.ts:267-270 | the prize is added as by AddSymbol and the window closes, so a spin is allowed again unless spinning or paying |
| SlotMachine.Machine.ClosePrizeWindow | src/slot-machine/SlotMachinePage.tsx:186 | Skip closes the prize window and changes nothing else |

## Left out

- Animations are not modelled: framer-motion controls, `await`, and the order of `Promise.all` inside a batch. The batch order is kept, and the order inside a batch does not change the sum.
- Effects (`Effect`, `effects`, `probability`) are not modelled. The source never applies them; its effect loop only animates. The model keeps only whether `targets` is set.
- Icons and colours are not modelled. As a consequence, the filler pattern compares name, score and rarity but not `icon`. The only instances that differ from `empty` by icon alone are definitions passed in directly; none are in the library.
- The payment window is never opened in the source. Its flag only blocks spins.
- Randomness comes from the `draws` input. Lodash's own random number generator is not modelled.
- Scores are integers. Non-integer scores are not modelled. `parseInt` on the group keys would truncate them: a score of 1.5 gives the key 1. If a score-1 group also exists, that group is visited twice and the 1.5 symbols are never added. If none exists, the lookup of group 1 is undefined and `symbolGroup.map` throws, so `handleSpinComplete` never clears `spinning` and no spin can start again. The source cannot reach this: every library score is an integer and effects are never applied.
- The score-animation lookup `viewportSymbols.indexOf(symbol)` (src/slot-machine/index.ts:177) is not modelled; it only selects which animation to play.
- React mechanics are replaced by plain fields that the methods update in sequence: state setters, updater closures, and the `addSymbol` closure reading the render's collections. The Skip button (src/slot-machine/SlotMachinePage.tsx:186) is the only part of the page that is modelled.
- The comment at src/slot-machine/index.ts:167 says "descending", but the code sorts ascending. The model follows the code. `_.compact` drops the zero key, so zero-score symbols form no batch; the model follows this too.
- The no-op path, where the chosen filler is not owned and the assignment to index -1 adds no element, is not covered by the machine's lemmas. `ReplaceInstance` and `PlaceInstance` model it, but the invariant proves it unreachable: every visible instance is owned and the owned collection never drops below 20. So padding never happens during play.
