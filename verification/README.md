# Badger rewards engine: a verified model

This project models the off-chain rewards engine of the Badger system, in Dafny 4.11, and proves what it promises.
In every cycle the engine

1. turns unlock schedules, harvests and tree distributions into token amounts per user,
2. combines them and adds them to the amounts published before,
3. publishes a file with one claim per user, a Merkle root over all claims and a proof for each.

`dafny verify dfyconfig.toml` checks the whole project.

## How it is organised

| file | what it holds |
|---|---|
| `Prelude.dfy`, `Dicts.dfy`, `Sorting.dfy` | exceptions as values, `int()`, insertion-ordered dictionaries, stable sorting |
| `Abi.dfy` | byte strings and the contract ABI encoding of a claim, written out and proved injective |
| `MerkleTree.dfy` | the tree: building, proofs, completeness, binding |
| `RewardsList.dfy`, `RewardsUtils.dfy` | rewards lists, their totals, and combining them |
| `Publication.dfy` | the cumulative list and the published file |
| `Cycles.dfy` | runs of cycles and their block ranges |
| `Schedules.dfy` | how much of a token is released by a given time |
| `UserBalances.dfy`, `Multipliers.dfy`, `Boost.dfy` | balances as shared mutable objects, APY multipliers, boosts by stake ratio |
| `Vaults.dfy` | the setts, the stakes collected from their balance objects, and what this leaves in these objects |
| `Snapshot.dfy`, `SettRewards.dfy`, `Assistant.dfy` | splitting a distribution among users, all of `calc_snapshot`, and all setts of a cycle |
| `MetaRewards.dfy` | harvests, the four sushi setts, and tree distributions |
| `Conservation.dfy` | claims over a run against what was credited, and releases over a run against what was locked |
| `Pipeline.dfy` | one whole cycle of code, and runs of such cycles: claims stay within what was locked, distributed and harvested |
| `Geyser.dfy`, `ShareSeconds.dfy`, `Signature.dfy` | geyser balances, share-seconds, call signatures |

## Modelling decisions

- **The hash is a parameter**: any function from byte strings to 32-byte digests. Completeness needs nothing else.
  Binding asks only that this function does not collide on the finitely many byte strings that are actually hashed,
  because no function to 32 bytes is injective everywhere. That a claim can never be mistaken for an inner node is not
  assumed: an encoded claim is at least 224 bytes long and an inner node hashes 64 bytes.
- **Verification of a proof** is the fold of `combined_hash` over it; the contract that verifies is not part of this model.
- **Numbers**: Python floats are exact reals, Python integers are unbounded integers, floor division is floor division
  and `int()` truncates. Amounts in the published file are integers; their decimal text is not modelled.
- **Errors** are values: `IndexError` for an empty tree or a short amounts array, `ZeroDivisionError`, `EncodingError` for a
  value outside its ABI type, `OverflowError` for an amount of DIGG that the chain cannot be asked to convert,
  `AssertionError`, `ValueError` for a leaf that is not in the tree.
- **Dictionaries remember insertion order**, since it fixes the indices of the claims. The documentation of
  `to_merkle_format` says that users are sorted alphabetically; the code does not sort them, and the model follows the code.
- **Objects are objects** where the source updates them in place: `RewardsList`, `UserBalance`, `UserBalances`, `User` and
  `MerkleTree` are classes. Each method is proved to follow a function on values, and the theorems are about that function.
- **Publication** (proposal and approval on chain) is one step, after which the contract knows the cycle and end block of
  the file.
- **Events carry the balances** of their sett at their block, in place of the memoised query. The setts' own balances are
  objects, used for the boosts first and for the snapshots after that.

## What a user is paid

A cycle adds to a user's published amount of a token the whole units of three parts (`Pipeline.CycleAdds`), and a run adds
these up (`Pipeline.RunAdds`):

- of what each sett's schedules release in the period, the floor of the user's part by balance times boost
  (`SettRewards.SnapshotPerUser`, `Assistant.AllSettAmounts`);
- of each distribution after the first block and up to the last, the floor of the user's part by balance
  (`MetaRewards.DistributionsPay`);
- of each sushi harvest strictly between the two, the user's exact part by balance (`MetaRewards.HarvestsPay`).

The boosts in the first part follow from balances, prices and wallets (`Vaults.BoostsByDollars`).

## When block ranges overlap

`calc_next_cycle_range` takes the block after the last published one as start and the chain height less 100 as end. Nothing
compares the two: the check that the start is not too close to the end is only a comment. What this means is exact here:

- ranges do not overlap if and only if the chain height does not fall before any cycle but the last
  (`Cycles.RunOrderedIffHeightsRise`);
- no block's distributions are rewarded twice if and only if of any two ranges one ends by the time the later of both has
  started (`Cycles.TreeOnceIffApart`; for harvests `Cycles.HarvestOnceIffApart`). In a run this is a condition on the
  heights and the block published up to before it (`Cycles.RunTreeOnceIff`, `Cycles.RunHarvestOnceIff`). It is weaker than
  the first: heights may fall, if no later cycle climbs over rewarded blocks again.

The same conditions decide whether any recorded harvest or distribution can be processed twice
(`MetaRewards.RunProcessesOnce`); on a chain whose height does not fall none is. And the one for distributions is all that
is asked of the ranges for claims to stay within the funds (`Pipeline.ClaimsWithinFunds`).

## When balances are counted twice

`UserBalances.__add__` keeps and updates the objects of its operands. One addition is right whatever objects the operands
share (`Balances.UserBalances.Add`), but `combine_balances` over several sets is not: the object kept for an address grows
while sets are added, so a set that files the same object again adds the grown amount. With positive balances the result is
the merge of the original balances if and only if, for every address, the kept object is met again at most in the second
set that lists the address (`Balances.CombineExact`). For sets `[a, b, a]` with a common address, `a`'s object is met again
third, and the address ends with twice the sum of both (`Balances.ThirdTimeDoubles`). Sets that share no objects are
always combined correctly.

## What a snapshot sees

`calculate_sett_balances` hands out the same objects again when it is asked again. In each cycle `badger_boost` converts
them to dollars in place and combines the setts of each group in place. So the snapshot of a sett does not see the
balances that were fetched but their dollars; and for a user whom no earlier sett of the group has, it sees the dollars of
the whole group and, in the native groups, of the wallet (`Vaults.CollectStakes`).

The conversion is harmless, since credits do not depend on the unit of the balances (`SettRewards.CreditsUnit`); the growth
is not. With positive balances a snapshot sees just the sett's own dollars if and only if no user whose object the group
keeps for it has anything else in the group (`Vaults.SeenIsOwn`), and then the sett is paid as if nothing had been touched
(`Assistant.UndistortedCredits`). The bounds on rewards and claims hold either way.

## Model

| member | source | states |
|---|---|---|
| Merkle.PathProofFolds | assistant/rewards/classes/MerkleTree.py:28-59 | for any number of leaves and any hash, the proof of any leaf folds to the root, also where a lone node is promoted |
| Merkle.Binding | assistant/rewards/classes/MerkleTree.py:18-59 | whatever leaf any proof, of any length, folds to the root is one of the elements |
| Merkle.EqualRoots | assistant/rewards/classes/MerkleTree.py:18-59 | two trees with equal roots have the same elements and the same sorted leaves |
| Merkle.SortedDigests | assistant/rewards/classes/MerkleTree.py:19 | the leaves are exactly the digests of the elements, strictly ascending |
| Merkle.LeavesAscend | assistant/rewards/classes/MerkleTree.py:19 | as numbers the leaves strictly ascend, and they are the digests of the elements |
| Merkle.NextLayerAt | assistant/rewards/classes/MerkleTree.py:46-59 | position k of the next layer hashes digests 2k and 2k+1, the one that is the smaller number first, or is the lone last digest |
| Merkle.LessIsValue | assistant/rewards/classes/MerkleTree.py:54-59 | the order of digests is that of the numbers they stand for |
| Merkle.LayersLinked | assistant/rewards/classes/MerkleTree.py:39-51 | the first layer holds the leaves, and each further one is the next layer of the one before, up to a layer of at most one |
| Merkle.ProofEntries | assistant/rewards/classes/MerkleTree.py:28-37 | a proof lists, from the leaf upwards, the sibling in every layer in which there is one |
| Merkle.FoldOnce | assistant/rewards/classes/MerkleTree.py:54-59 | each step of a fold hashes the two digests with the smaller number first |
| Merkle.SortedPairSymmetric | assistant/rewards/classes/MerkleTree.py:54-59 | the hash of two siblings does not depend on which is left, so proofs need no directions |
| Merkle.LayerCount | assistant/rewards/classes/MerkleTree.py:40-44 | n leaves give ceil(log2 n) + 1 layers |
| Merkle.LayerSize | assistant/rewards/classes/MerkleTree.py:40-51 | layer i has ceil(n / 2^i) digests |
| Merkle.PathProofLength | assistant/rewards/classes/MerkleTree.py:28-37 | a proof has at most ceil(log2 n) entries |
| Merkle.TopLayer | assistant/rewards/classes/MerkleTree.py:24-26 | the top layer is the root alone, or empty without elements |
| Merkle.MerkleTree.constructor | assistant/rewards/classes/MerkleTree.py:18-20 | a new tree holds the sorted digests and all layers above them |
| Merkle.MerkleTree.GetLayers | assistant/rewards/classes/MerkleTree.py:39-44 | the loop terminates with all layers up to the root |
| Merkle.MerkleTree.GetRoot | assistant/rewards/classes/MerkleTree.py:24-26 | the root, or an index error for an empty tree |
| Merkle.MerkleTree.GetProof | assistant/rewards/classes/MerkleTree.py:28-37 | an element gets a proof that folds to the root; anything else is a value error |
| Abi.EncodeInjective | assistant/rewards/classes/RewardsList.py:138-149 | different claims never have the same encoding |
| Abi.DecodesTo | assistant/rewards/classes/RewardsList.py:138-149 | a decoder that follows the two offsets reads back index, user, cycle, tokens and amounts, in this order |
| Abi.EncodesIff | assistant/rewards/classes/RewardsList.py:138-149 | encoding fails exactly on a number or length outside 256 bits |
| Abi.EncodeLength | assistant/rewards/classes/RewardsList.py:138-149 | an encoded claim is never as long as two digests |
| Rewards.RewardsList.IncreaseUserRewards | assistant/rewards/classes/RewardsList.py:37-53 | the in-place update adds the amount, or 0 for a negative one, to the user's amount and the token's total, and changes no other |
| Rewards.ApplyContents | assistant/rewards/classes/RewardsList.py:37-53 | after any increases, each amount is the sum of the clamped credits, and only credited users and tokens appear |
| Rewards.ApplyConsistent | assistant/rewards/classes/RewardsList.py:37-53 | after any increases, each total is the sum over users, and a token has a total exactly when it has holders |
| Rewards.OrderIrrelevant | assistant/rewards/classes/RewardsList.py:37-53 | the same increases in any order give every user the same tokens and amounts, and the same totals |
| Rewards.ApplyTotal | assistant/rewards/classes/RewardsList.py:50-53 | a total grows by everything credited in its token |
| Rewards.ItemsContents | assistant/rewards/rewards_utils.py:99-102 | iterating over a rewards list meets each of its entries exactly once |
| Rewards.RewardsList.ToNodeEntry | assistant/rewards/classes/RewardsList.py:107-168 | a user's node lists the tokens in order with their whole amounts, and its encoding or the encoding error |
| Rewards.RewardsList.ToMerkleFormat | assistant/rewards/classes/RewardsList.py:170-191 | one node per user with index 0..n-1 and its encoding; fails exactly when a node does not fit its ABI types |
| RewardsUtils.CombineRewards | assistant/rewards/rewards_utils.py:97-103 | the nested loops credit every entry of every list once, into a new list |
| RewardsUtils.CombinedContents | assistant/rewards/rewards_utils.py:97-103 | the combined list holds for each user and token the sum over the lists, with consistent totals |
| RewardsUtils.CombinedTotal | assistant/rewards/rewards_utils.py:97-103 | the total of a combined list is the sum of the totals of its parts |
| RewardsUtils.CombineOrder | assistant/rewards/rewards_utils.py:97-103 | combining the same lists in any order gives the same tokens, amounts and totals |
| RewardsUtils.CombinedOrder | assistant/rewards/rewards_utils.py:97-103 | the users of the first list come first, in its order |
| RewardsUtils.NestedCombine | assistant/rewards/rewards_assistant.py:70-225 | combining lists that were combined before gives the tokens, amounts and totals of combining all of them at once |
| Publication.GetCumulativeClaimableForToken | assistant/rewards/rewards_utils.py:32-44 | the amount at the token's first place, an index error if the amounts end before it, 0 when it is not listed |
| Publication.ProcessCumulativeRewards | assistant/rewards/rewards_utils.py:106-122 | new rewards and all published amounts are credited; fails exactly when an entry lacks an amount |
| Publication.CumulativeContents | assistant/rewards/rewards_utils.py:106-122 | each cumulative amount is the published one plus the new one, nothing is dropped, totals are consistent |
| Publication.CumulativeOrder | assistant/rewards/rewards_utils.py:106-122 | users with new rewards come first in the cumulative list, in the order of the new rewards |
| Publication.RewardsToMerkleTree | assistant/rewards/classes/MerkleTree.py:62-112 | publishes the list, or fails exactly when it is empty or not encodable |
| Publication.PublishedAmounts | assistant/rewards/classes/RewardsList.py:107-124 | tokens and amounts of the file read back to the whole part of what each user holds |
| Publication.EntriesVerify | assistant/rewards/classes/MerkleTree.py:88-100 | indices are 0..n-1, every entry's node encodes that entry, and every proof folds to the published root |
| Publication.OnlyPublishedClaimsVerify | assistant/rewards/classes/MerkleTree.py:77-100 | any claim that verifies against the published root is, field by field, one in the file |
| Publication.LeafCount | assistant/rewards/classes/MerkleTree.py:77-100 | the tree has as many leaves as there are users |
| Publication.TotalsCoverClaims | assistant/rewards/classes/MerkleTree.py:83 | the published total of a token covers all its claims, exceeds them by less than one unit per holder, and equals them when rewards are whole |
| Cycles.PublishRewards | assistant/rewards/rewards_assistant.py:223-230 | the end of a cycle publishes the previous amounts plus the combined rewards of three lists, or fails exactly when that cannot be published |
| Cycles.StepContents | assistant/rewards/rewards_assistant.py:223-230 | a cycle adds to each published amount the whole part of its combined reward, and drops nobody |
| Cycles.RunAmounts | assistant/rewards/rewards_utils.py:106-122 | after any number of cycles, a published amount is the initial one plus the whole parts of all cycles' rewards |
| Cycles.RunMonotone | assistant/rewards/rewards_checker.py:280-290 | over any run no published amount decreases and no user or token disappears |
| Cycles.RunRanges | scripts/rewards/rewards_utils.py:51-67 | each cycle's range starts after the last published block, ends 100 below the chain height, and cycles are numbered consecutively |
| Cycles.OrderedIffAdvancing | scripts/rewards/rewards_utils.py:57-66 | ranges never overlap if and only if none between two others ends before its predecessor's end |
| Cycles.RunOrderedIffHeightsRise | scripts/rewards/rewards_utils.py:57-66 | in a run, ranges never overlap if and only if the chain height does not fall between inner cycles |
| Cycles.TreeOnceIffApart | assistant/subgraph/client.py:57 | whatever the ranges, no block's distributions are rewarded twice if and only if of any two ranges one ends by the time the later has started |
| Cycles.HarvestOnceIffApart | assistant/rewards/meta_rewards/calc_meta_rewards.py:11-15 | the same for harvests, whose windows end one block earlier |
| Cycles.RunTreeOnceIff | scripts/rewards/rewards_utils.py:57-66 | for the ranges of a run the condition is one on the chain heights and the block published up to before the run |
| Cycles.RunHarvestOnceIff | scripts/rewards/rewards_utils.py:57-66 | the same for harvests |
| Cycles.OrderedOnce | assistant/rewards/meta_rewards/calc_meta_rewards.py:11-15 | in ordered ranges no block's harvest or distribution is counted in two cycles |
| Cycles.RewardedOnce | assistant/subgraph/client.py:57 | with non-empty ranges exactly the blocks inside the run are counted, except the boundary blocks of each window |
| Schedules.GetDistributedForTokenAt | assistant/rewards/calc_snapshot.py:136-165 | the sum over schedules of the clamped floored release; fails exactly when a started schedule has no duration or a running one locks nothing |
| Schedules.ReleasedMonotone | assistant/rewards/calc_snapshot.py:136-165 | releases never go back and never exceed the locked tokens |
| Schedules.ReleasedComplete | assistant/rewards/calc_snapshot.py:143-147 | once every duration has passed, all locked tokens are released |
| Schedules.ReleasedByAccuracy | assistant/rewards/calc_snapshot.py:143-147 | a release is the exact linear amount rounded down |
| Schedules.DistributionAccuracy | assistant/rewards/calc_snapshot.py:53-55 | in any period a token's distribution is off the exact amount by less than one unit per schedule |
| Schedules.DistributionsTelescope | assistant/rewards/calc_snapshot.py:53-55 | over any run of periods, distributions and what falls between periods add up to the release from first start to last end |
| Schedules.NeverOverDistributed | assistant/rewards/calc_snapshot.py:53-55 | ordered periods never distribute more than is released or locked, and abutting periods exactly what is released |
| Schedules.ParseSchedules | assistant/rewards/calc_snapshot.py:168-175 | schedules are grouped by token, in order, tokens in the order of their first schedule |
| Schedules.OfTokenMultiplicity | assistant/rewards/calc_snapshot.py:168-175 | grouping loses no schedule and duplicates none |
| Balances.UserBalances.TotalBalance | assistant/rewards/classes/UserBalance.py:26-27 | the sum of all balances |
| Balances.UserBalances.PercentageOfTotal | assistant/rewards/classes/UserBalance.py:29-30 | a user's part of the total, or a division by zero |
| Multipliers.BoostAll | assistant/rewards/calc_snapshot.py:40-42 | boosting every user's object in place leaves exactly the boosted sheet, each balance boosted once |
| Balances.UserBalances.Add | assistant/rewards/classes/UserBalance.py:41-48 | adds the other balances into this dictionary in place and returns a new set over the same objects with the merged balances, whatever objects the operands share |
| Balances.CombineBalances | assistant/rewards/rewards_utils.py:179-183 | for sets that may share objects: which object each address keeps, and the running sum it ends with |
| Balances.CombineExact | assistant/rewards/rewards_utils.py:179-183 | the result is the merge of the original balances if and only if no kept object is met again after the second set that lists its address; always so for sets that share nothing |
| Balances.CombineTwo | assistant/rewards/rewards_utils.py:179-183 | combining two sets that share nothing gives their merge, keeps the first object of every address and leaves the objects that are not kept unchanged |
| Balances.ThirdTimeDoubles | assistant/rewards/rewards_utils.py:179-183 | adding a set once more after another one doubles everything combined so far |
| Balances.SumOnlyWithoutLateRepeats | assistant/rewards/classes/UserBalance.py:41-48 | the same for each address: its running sum is the sum of its positive balances exactly under that condition |
| Balances.MergeAllContents | assistant/rewards/rewards_utils.py:179-183 | a merge has the union of the addresses, each with the sum of its balances, and totals add up |
| Balances.Rebuild | assistant/rewards/classes/UserBalance.py:20-24 | rebuilding the dictionary from its values keeps order and objects |
| Multipliers.ApplyBoosts | assistant/rewards/calc_snapshot.py:36-46 | multiplies every balance in place by the user's own boost, or by 1 without one, and yields every user's multiplier; fails exactly when a total or share is zero |
| Multipliers.MultiplierForm | assistant/rewards/calc_snapshot.py:36-46 | a multiplier is the user's boost times one factor common to all users |
| Multipliers.MultipliersInProportion | assistant/rewards/calc_snapshot.py:36-46 | the multipliers of two users are to each other as their boosts, where no boost counts as 1 |
| Multipliers.WeightedMean | assistant/rewards/calc_snapshot.py:36-46 | weighted by the shares before the boost, multipliers average exactly one |
| Multipliers.MeanBetween | assistant/rewards/rewards_assistant.py:59-62 | the least multiplier of a sett is at most 1 and the greatest at least 1 |
| Multipliers.MultiplierBounds | assistant/rewards/calc_snapshot.py:36-46 | with boosts in [1,3] multipliers lie in [1/3,3] and are ordered as the users' boosts are, where no boost counts as 1 |
| Snapshot.PayToken | assistant/rewards/calc_snapshot.py:80-124 | credits every user's floored share, with the tree account's share split again or withheld; fails exactly on a division by zero |
| Snapshot.CannotPay | assistant/rewards/calc_snapshot.py:80-124 | a payout fails exactly when something is distributed and nobody holds anything, or the tree account does in one of the two setts with unclaimed balances and that sett's are empty |
| Snapshot.SplitAmong | assistant/rewards/calc_snapshot.py:99-122 | every holder on the sheet is credited the floored product of unit and balance |
| Snapshot.PayoutConserves | assistant/rewards/calc_snapshot.py:80-124 | credits and the withheld tree share total at most the distribution, short by less than one unit per recipient |
| Snapshot.TreeShareWithheld | assistant/rewards/calc_snapshot.py:92-124 | in other setts exactly the tree account's share is withheld |
| Snapshot.PayoutPerUser | assistant/rewards/calc_snapshot.py:82-124 | every user is credited the floor of the distribution times balance over total, plus the floor of the tree account's share, where it is split again, times unclaimed balance over total unclaimed |
| Snapshot.PayoutUnit | assistant/rewards/calc_snapshot.py:82-124 | a payout does not depend on the unit in which the balances of the sett are counted |
| SettRewards.CalcSnapshot | assistant/rewards/calc_snapshot.py:13-133 | boosts balances where the sett is non-native, credits every token's payout, and returns the multipliers; fails exactly on a division by zero or on an amount of DIGG that cannot be converted |
| SettRewards.SnapshotPerUser | assistant/rewards/calc_snapshot.py:36-124 | in every token a user is credited the floor of the released amount times their weight over all weights, where a weight is the balance, in non-native setts times the user's boost; and in `native.cvx` and `native.cvxCrv` the floor of their part of the tree account's share by the unclaimed balances of bCVX and bcvxCRV |
| SettRewards.CreditsOfToken | assistant/rewards/calc_snapshot.py:52-124 | what a sett credits in a token comes from that token's own distribution |
| SettRewards.SnapshotWithinRelease | assistant/rewards/calc_snapshot.py:52-124 | a sett's rewards in a token are at most what its schedules release in the period |
| SettRewards.SettWithinRelease | assistant/rewards/calc_snapshot.py:29-133 | the same for boosted balances and re-split tree shares, and the resulting list is consistent |
| SettRewards.CreditsUnit | assistant/rewards/boost.py:21-31 | converting all balances of a sett to dollars changes none of its credits, boosted or not |
| Assistant.CalcSettRewards | assistant/rewards/rewards_assistant.py:41-71 | collects the stakes from the balance objects, computes the boosts, combines the snapshots of all setts but the two without rewards over what the objects then hold, and records the least and greatest multiplier of each boosted sett; fails exactly when one of the snapshots does |
| Assistant.AllSettAmounts | assistant/rewards/rewards_assistant.py:48-70 | the combined list holds for every user and token the sum of what all setts pay, except `native.digg` and `experimental.digg` |
| Assistant.ExtremesAroundOne | assistant/rewards/rewards_assistant.py:59-62 | what is recorded for a sett is a minimum in [1/3,1] and a maximum in [1,3] |
| Assistant.SettRewardsWithinReleases | assistant/rewards/rewards_assistant.py:41-70 | the combined rewards of all setts in a token are at most what all their schedules release in the period |
| Assistant.UndistortedCredits | assistant/rewards/rewards_assistant.py:49-58 | a sett is credited as from the balances fetched, when no user whose object its group keeps for it has anything else in the group |
| MetaRewards.WindowMultiplicity | assistant/rewards/meta_rewards/calc_meta_rewards.py:11-15 | the filter keeps every copy of the events strictly inside the range and no other |
| MetaRewards.HarvestsCounted | assistant/rewards/meta_rewards/calc_meta_rewards.py:11-15 | over any ranges a recorded harvest is processed as often as its block is counted, copies included |
| MetaRewards.DistributionsCounted | assistant/subgraph/client.py:57 | the same for tree distributions |
| MetaRewards.HarvestsOnce | assistant/rewards/meta_rewards/calc_meta_rewards.py:11-15 | whatever the ranges, no harvest of any record is processed twice if and only if no block is counted twice for harvests |
| MetaRewards.DistributionsOnce | assistant/subgraph/client.py:23-57 | the same for tree distributions |
| MetaRewards.RunProcessesOnce | scripts/rewards/rewards_utils.py:57-66 | in any run no distribution and no harvest can be processed twice if and only if the heights satisfy these conditions, as they do whenever the height does not fall |
| MetaRewards.ProcessRewards | assistant/rewards/meta_rewards/calc_meta_rewards.py:26-57 | credits every holder their exact share of every event, in the one token only; the final agreement check never fails, only an event without holders does |
| MetaRewards.CalcRewards | assistant/rewards/meta_rewards/calc_meta_rewards.py:11-23 | credits the exact shares of the events strictly inside the range, and nothing when there are none |
| MetaRewards.CalcAllSushiRewards | assistant/rewards/meta_rewards/sushi.py:10-52 | the combination of the windowed harvests of the four sushi setts; fails exactly when one selected harvest has no holders |
| MetaRewards.TakenWithinRecorded | assistant/rewards/meta_rewards/calc_meta_rewards.py:11-15 | when no block is counted twice, the amounts that all cycles take of distributions and harvests are at most those recorded |
| MetaRewards.HarvestsConserve | assistant/rewards/meta_rewards/calc_meta_rewards.py:30-41 | the shares add up to the harvested amounts exactly |
| MetaRewards.HarvestsPay | assistant/rewards/meta_rewards/calc_meta_rewards.py:30-41 | every user is credited the sum over the harvests of amount times balance over total balance |
| MetaRewards.WindowShares | assistant/rewards/meta_rewards/calc_meta_rewards.py:11-41 | these are the shares of exactly the recorded harvests strictly between the first and the last block |
| MetaRewards.SushiAmounts | assistant/rewards/meta_rewards/sushi.py:10-52 | the sushi rewards of a user are the shares of the harvests of all four setts, in xSUSHI and no other token |
| MetaRewards.CalcTreeRewards | assistant/rewards/meta_rewards/tree_rewards.py:13-77 | credits the floored shares of the distributions after the start block; fails exactly when one has no holders |
| MetaRewards.DistributionsPay | assistant/rewards/meta_rewards/tree_rewards.py:43-73 | in each token every user is credited the sum over its distributions of the floor of amount times balance over total balance |
| MetaRewards.DistributedShares | assistant/subgraph/client.py:23-57 | these are the shares of exactly the recorded distributions after the first block and up to the last |
| MetaRewards.TreeRewardsConserve | assistant/rewards/meta_rewards/tree_rewards.py:43-73 | in each token the credits total at most what was distributed, short by less than one unit per recipient |
| Conservation.CumulativeTotal | assistant/rewards/rewards_utils.py:106-122 | the cumulative total is the new total plus all claims published before |
| Conservation.ClaimsWithinCredits | assistant/rewards/rewards_assistant.py:199-230 | over any number of cycles all claims in a token grow by what the sources have credited, short by less than one unit per holder and cycle |
| Conservation.GainsWithinLocked | assistant/rewards/calc_snapshot.py:52-55 | when no block is counted twice, all that the schedules of all setts release over the cycles, whose ranges may be empty or go back, is at most what was locked in them |
| Pipeline.GenerateRewardsInRange | assistant/rewards/rewards_assistant.py:199-230 | one whole cycle from schedules, balance objects, wallets and recorded events to the file: every published amount grows by the whole units of what the setts, the distributions and the harvests owe; fails exactly when a source fails or the result cannot be published |
| Pipeline.CycleAdds | assistant/rewards/rewards_assistant.py:199-230 | in one step every user's amount in every token grows by the whole units of three parts: of the setts' releases, of the distributions after the first block and up to the last, and of the harvests strictly in between |
| Pipeline.RunAdds | assistant/rewards/rewards_assistant.py:199-230 | over any run of whole cycles every user can claim the initial amount and the whole units of what each cycle owes |
| Pipeline.FindUnclaimedAddresses | assistant/rewards/rewards_assistant.py:207-211 | the loop collects the users to ask for unclaimed balances, in file order |
| Pipeline.UnclaimedContents | assistant/rewards/rewards_assistant.py:207-211 | these are exactly the users whose claim lists one of the two tokens, each once |
| Pipeline.GeneratedIsStep | assistant/rewards/rewards_assistant.py:199-230 | what a successful cycle publishes is one step of a run, so all theorems on runs hold of it |
| Pipeline.PipelineIsRun | assistant/rewards/rewards_assistant.py:199-230 | a run of whole cycles is a run over consistent lists, with the ranges of `calc_next_cycle_range` |
| Pipeline.CycleWithinFunds | assistant/rewards/rewards_assistant.py:213-225 | a cycle credits at most what its schedules release in its period, its distributions and its harvests, and at least its harvests and, short of at most one unit per recipient, its distributions |
| Pipeline.ClaimsWithinFunds | assistant/rewards/rewards_assistant.py:199-230 | over any run in which no block is counted twice, also with ranges that are empty or go back, all users together can never claim more of a token than at first plus all that was ever locked for it, all recorded distributions of it and, for xSUSHI, all recorded harvests |
| Pipeline.RisingIsApart | scripts/rewards/rewards_utils.py:57-66 | when the height does not fall between cycles, no block is counted twice, so the bound holds |
| Boost.FilterDustContents | assistant/rewards/boost.py:74-75 | exactly the users above one dollar remain, with their balances |
| Boost.CalcCumulative | assistant/rewards/boost.py:34-40 | position i holds the sum of the first i + 1 values |
| Boost.CalcBoost | assistant/rewards/boost.py:43-50 | each share p is mapped to 3 - 2p, at least 1 |
| Boost.BadgerBoost | assistant/rewards/boost.py:165-187 | every ranked user gets the boost of their rank; more native stake per non-native balance gets a higher boost, and no stake exactly 1 |
| Boost.RankingContents | assistant/rewards/boost.py:165-171 | the ranking lists every non-native user once, by falling stake ratio |
| Boost.AllRanked | assistant/rewards/boost.py:172-180 | the cumulative shares end at exactly 1 |
| Boost.RankedShareIncreases | assistant/rewards/boost.py:172-180 | cumulative shares strictly increase |
| Boost.BoostRange | assistant/rewards/boost.py:181-187 | every boost is in [1,3), and exactly 1 at the last rank and without a stake |
| Boost.HigherRatioHigherBoost | assistant/rewards/boost.py:137-187 | a strictly higher stake ratio gets a strictly higher boost, also after users without stake are set to 1 |
| Boost.BoostsByStakes | assistant/rewards/boost.py:53-61 | of two users the one with more stake times the other's non-native balance gets the higher boost; without stake it is exactly 1 |
| Boost.BoostsByShares | assistant/rewards/boost.py:137-187 | a boost is at least 3 less twice the share of all users with as much stake per balance, below 3 less twice the share of those with more, and the former when nobody ties |
| Boost.MoreStakeHigherBoost | assistant/rewards/boost.py:53-61 | of two users with equal non-native balances the one with more native stake gets the higher boost |
| Boost.BoostMeaning | assistant/rewards/boost.py:165-187 | without a tie, a boost is 3 less twice the share of balances held by users with at least that ratio, whatever the storage order |
| Boost.BoostBetween | assistant/rewards/boost.py:165-187 | with or without ties, a boost is at least 3 less twice the share of users with at least that ratio, and below 3 less twice the share of users with a higher one |
| Boost.BoostsAreGood | assistant/rewards/boost.py:181-187 | the boosts handed to the setts are in the range the multipliers rely on |
| Boost.PreparedIsGood | assistant/rewards/boost.py:124-130 | filtering dust leaves stakes that meet the conditions of the ranking theorems |
| Boost.PreparedByStakes | assistant/rewards/boost.py:124-187 | exactly the users above one dollar get a boost, which follows the stakes that are above one dollar in each group |
| Vaults.ConvertToUsd | assistant/rewards/boost.py:21-31 | every balance is multiplied by the sett's dollars per unit, in place |
| Vaults.CollectStakes | assistant/rewards/boost.py:85-125 | the loop over all setts and the wallets yields the dollars of the three groups, and leaves in the objects of every sett what its snapshot then sees |
| Vaults.GroupTotalContents | assistant/rewards/boost.py:85-125 | a user's stake in a group is the sum of the dollars in all its setts and in the wallet |
| Vaults.StakesByName | assistant/rewards/boost.py:85-125 | the three stakes of a user are the dollars in the three setts of DIGG, in the three of BADGER, each with the wallet, and in all others but `experimental.digg` |
| Vaults.BoostsByDollars | assistant/rewards/boost.py:78-187 | from balances, prices and wallets to boosts: more native dollars per other dollar gets a higher boost, no native dollars exactly 1, and only users with more than one other dollar get one |
| Vaults.SeenIsOwn | assistant/rewards/boost.py:88-99 | a snapshot sees just the sett's own dollars if and only if no user whose object the group keeps for it has anything else in the group |
| Sorting.SortedByContents | assistant/rewards/boost.py:165-171 | sorting by key permutes the list into ascending keys |
| Sorting.SortedByStable | assistant/rewards/boost.py:165-171 | elements with equal keys keep their order |
| Geyser.CalcBalances | assistant/rewards/rewards_utils.py:164-176 | each user's balance is the total of their latest event; fails exactly on a negative timestamp |
| Geyser.LatestIsMaximal | assistant/rewards/rewards_utils.py:167-172 | the latest event of a user has the user's greatest timestamp |
| Geyser.ArrivalOrderIrrelevant | assistant/rewards/rewards_utils.py:166-172 | with distinct timestamps the order of arrival does not matter |
| ShareSeconds.User.ProcessTransfer | assistant/rewards/classes/User.py:26-36 | updates the three fields, or rejects a transfer from before the last update |
| ShareSeconds.AccumulatorIsSum | assistant/rewards/classes/User.py:26-36 | after any time-ordered transfers the accumulator is the second-by-second sum of the clamped deposit |
| ShareSeconds.AccumulatorGrows | assistant/rewards/classes/User.py:26-36 | the accumulator never decreases |
| Signature.ParseSignature | helpers/multicall/signature.py:7-25 | the loop with its stack computes the scanner's parts, or the index error |
| Signature.FailsIffUnmatched | helpers/multicall/signature.py:20-21 | parsing fails exactly when some closing parenthesis has no partner before it |
| Signature.PartsConcatenate | helpers/multicall/signature.py:7-25 | for balanced input the parts concatenate to the input up to its last outermost close |
| Signature.RoundTrip | helpers/multicall/signature.py:7-25 | a name and any balanced groups, however nested, parse into exactly that name and those groups |

## Left out

- The token and type fields of a user balance, which no modelled code reads.
- Assistant.CalcSettRewards: writing the boosts file, and its section per user, which copies boosts and multipliers by address.
- MetaRewards.CalcTreeRewards: the subgraph query is replaced by the list of distributions known at the end block, each with its balances; that a distribution in the very end block meets the objects the snapshots have changed is not derived.
- Cycles.Run: each cycle is published before the next one starts; pending proposals and the contract's own checks are not modelled.
- Pipeline.ClaimsWithinFunds: asks that setts and schedules are only ever appended.
- Pipeline.GenerateRewardsInRange: unclaimed balances and block times come from functions; fetching and chunking are not modelled, nor are the reads that only feed logs.
- `publish_new_root`, which publishes a root it is given and has no caller in the repository, and the minimum interval between runs of `rootUpdater`.
- Floating-point rounding: shares, boosts and unfloored harvest rewards are exact reals here.
- The inputs of `badger_boost`: prices, decimals and boost ratios, given as dollars per unit of a sett, and the wallet balances; also the per-user information written beside the boosts.
- `calculate_sett_balances`: the queries and the blacklist loop; balances start as its positive result. Within a cycle the same objects are used throughout, but what a cycle leaves in them is not carried over to another cycle at the same end block.
- Address checksums and letter case, hexadecimal and decimal text, JSON, file names and content hashes.
- `track_user_metadata`, the sources of a rewards list, and the metadata section of the file, which is empty in this pipeline.
- `verify_rewards`, `compare_rewards`, the rewards log, console output other than the divisions it performs, and `calculate_digg_allocation`.
- `Signature.encode_data` and `decode_data`: the selector and the value encoding.
