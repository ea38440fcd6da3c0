# Bridge-user reward monitor, modelled in Dafny

The monitor watches a chain for mint events of three bridged tokens (USDC,
USDT, WETH). It pays 0.1 ether to every receiver not yet in its ledger, in
`batchSend` transactions of at most 100 recipients each. It keeps two pieces
of state:

- a cursor: the block where the next scan starts;
- a ledger: the addresses already paid or already seen. It is seeded at start-up
  from the payout contract's earlier `sendValue` events.

This project models the part of the monitor with real logic:

- the chunked block-range scanners, with the topic padding and the address
  extraction they use (`scanner.dfy`, `hex.dfy`);
- one iteration of the scan controller, as a class with `cursor` and `ledger`
  fields and a `Step` method (`controller.dfy`);
- the batch payer (`dispatch.dfy`);
- the pure helpers `split_list_by_n` and the `.json` rule of `load_abi`
  (`utils.dfy`);
- the Python and `eth_utils` string operations these rely on (`pytext.dfy`).

Some things are parameters instead of code:

- the node's log query: a function from a `Filter` to the returned logs;
- EIP-55 checksumming (`Canon`);
- the nonce read before each batch;
- the chain head seen by a step.

The scanners and the token loop are `while`/`for` loops proved against
specification functions (`Scan`, `Candidates`). `RewardMonitor.Step` is proved
against the pure round function `NextRound` and the state update `After`.
The properties are lemmas about those functions.

## Model

| member | source | states |
|---|---|---|
| PyText.Remove0x | src/scripts/new_bridge_users_reward.py:31 | `remove_0x_prefix` drops exactly a leading `0x`/`0X` and leaves any other string alone |
| PyText.Add0x | src/scripts/new_bridge_users_reward.py:37 | `add_0x_prefix` always yields a prefixed string, adding `0x` only when none is there |
| PyText.RJust | src/scripts/new_bridge_users_reward.py:31 | `rjust(width, fill)` has length max(len, width), ends with the input and is padded with `fill` only |
| PyText.TakeLast | src/scripts/new_bridge_users_reward.py:37 | the slice `s[-n:]` has length min(len, n) and is a suffix of `s` |
| Hex.Hex | src/scripts/new_bridge_users_reward.py:37 | the hex text of a topic has two hex digits per byte |
| Hex.HexAt | src/scripts/new_bridge_users_reward.py:37 | the hex text is positional: byte `i` of a topic occupies positions `2i` and `2i+1`, holding `ByteHex` of that byte (its high nibble, then its low nibble, as lower-case digits) |
| Hex.TopicAddressOfWord | src/scripts/new_bridge_users_reward.py:37 | for a 32-byte topic, the extracted address is `0x` plus the hex of its low 20 bytes (42 characters) |
| Hex.PadThenTake | src/scripts/new_bridge_users_reward.py:31-37 | 40 hex digits left-padded with `0` to 64 and cut back to the last 40 are unchanged; the padded text is 64 long |
| Hex.AddressTopicRoundTrip | src/scripts/new_bridge_users_reward.py:31-37 | padding any `0x`-address to a topic (line 31) and extracting the address from it (line 37) gives the address back; the topic is `0x` plus 64 digits |
| Hex.ZeroTopicIsZeroWord | src/scripts/new_bridge_users_reward.py:29-31 | the mint filter's second topic is exactly the hex text of the all-zero 32-byte word, whose extracted address is `ADDRESS_ZERO` |
| Utils.SplitFlatten | src/utils.py:5-7 | concatenating the chunks of `split_list_by_n(xs, n)` gives `xs` back |
| Utils.SplitChunkSizes | src/utils.py:6-7 | every chunk is non-empty and at most `n` long; every chunk but the last is exactly `n` long |
| Utils.SplitCount | src/utils.py:6 | there are ceil(len/n) chunks, none exactly for the empty list |
| Utils.SplitChunkAt | src/utils.py:6-7 | chunk `k` is the slice `xs[k*n : k*n+n]`, so the split is positional and keeps order |
| Utils.AbiFileName | src/utils.py:11-12 | the name always ends in `.json`; it equals the input exactly when the input already ends in `.json`, otherwise it is the input plus `.json` |
| Utils.AbiFileNameIdempotent | src/utils.py:11-12 | applying the suffix rule twice is the same as applying it once |
| Scanner.ChunksBounded | src/scripts/new_bridge_users_reward.py:22-26 | every queried range `[lo, hi]` satisfies `from <= lo < hi <= end` and `hi - lo <= step` |
| Scanner.ChunksContiguous | src/scripts/new_bridge_users_reward.py:24-39 | the first range starts at `from`, each range starts at the previous range's end (the shared boundary block), the last ends at `end`; no range exactly when `from >= end` |
| Scanner.ChunksCover | src/scripts/new_bridge_users_reward.py:24-39 | every block of `[from, end]` lies in some queried range: no gaps |
| Scanner.ChunksCount | src/scripts/new_bridge_users_reward.py:25-39 | the loop issues ceil((end - from)/step) queries, so it terminates |
| Scanner.LogsOfMembers | src/scripts/new_bridge_users_reward.py:27-36 | a log is collected exactly when some queried range returned it |
| Scanner.ReceiversSnoc | src/scripts/new_bridge_users_reward.py:36-38 | one more log either appends the checksummed address in its topic to the list, or, when the log lacks that topic, raises the missing-topic error |
| Scanner.ReceiversFailureSticks | src/scripts/new_bridge_users_reward.py:36-38 | once a log has raised, later logs do not change the outcome: the error propagates out of the scan |
| Scanner.ReceiversMembers | src/scripts/new_bridge_users_reward.py:36-40 | a successful extraction holds exactly the checksummed addresses found in the receiver topic of the logs |
| Scanner.ScanExact | src/scripts/new_bridge_users_reward.py:36-40 | the returned set is exactly the checksummed receivers of all logs of all queried ranges; the scan raises exactly when one such log lacks the topic |
| Scanner.AppendReceivers | src/scripts/new_bridge_users_reward.py:36-38 | the inner loop's result is the extraction over the logs seen so far plus this range's logs |
| Scanner.ScanFailsAt | src/scripts/new_bridge_users_reward.py:27-38 | a log without its topic returned for any one range makes the whole scan fail with the missing-topic error |
| Scanner.ScanRange | src/scripts/new_bridge_users_reward.py:21-40 | the chunk loop returns exactly `Scan` over the ranges `Chunks(from, end, step)` |
| Scanner.MintAddressList | src/scripts/new_bridge_users_reward.py:21-40 | `get_mint_address_list` returns the mint-event scan: `Transfer` from the zero address, receiver in topic 2 |
| Scanner.SendRewardAddressList | src/scripts/new_bridge_users_reward.py:43-61 | `get_send_reward_address_list` returns the payout scan: `sendValue` events, receiver in topic 1 |
| Dispatch.SendReward | src/scripts/new_bridge_users_reward.py:86-102 | the batch loop submits exactly the transactions `Transactions(addresses, mock_send, nonce)` |
| Dispatch.TransactionsShape | src/scripts/new_bridge_users_reward.py:87-97 | dry run submits nothing; otherwise one transaction per batch, in batch order; each batch has 1 to 100 recipients, amount 10^17, value 10^17 times the batch size, and the nonce read before it |
| Dispatch.TransactionsPayEach | src/scripts/new_bridge_users_reward.py:87 | the recipients of the transactions concatenate to the address list, so each address is paid once; there are ceil(len/100) transactions |
| Dispatch.TransactionsTotalValue | src/scripts/new_bridge_users_reward.py:96 | the values of a round's transactions add up to 10^17 wei per address |
| Controller.UnionAllExact | src/scripts/new_bridge_users_reward.py:73-76 | the union succeeds exactly when every scan does, and then holds exactly what the individual scans hold |
| Controller.CandidatesExact | src/scripts/new_bridge_users_reward.py:73-76 | a step's candidates are the union of the three tokens' mint receivers; the step aborts exactly when one scan raises |
| Controller.ScanTokens | src/scripts/new_bridge_users_reward.py:73-76 | the token loop returns exactly `Candidates` |
| Controller.NextRound | src/scripts/new_bridge_users_reward.py:68-78 | a step is idle exactly when `head - cursor < 100`; otherwise `end = min(cursor + 10000, head)`, so `cursor < end <= head` and `end - cursor <= 10000`. It aborts exactly when it is not idle and the candidate scan over `[cursor, end]` fails; otherwise the candidates are that scan's result and the new users are the candidates minus the ledger |
| Controller.RoundKeepsLedger | src/scripts/new_bridge_users_reward.py:78-81 | the ledger never shrinks and becomes old ledger plus all candidates; paid addresses were not in it and now are; the cursor becomes `end` and never regresses; re-diffing the candidates finds nobody; idle and aborted steps change nothing |
| Controller.RunStopsAtAbort | src/scripts/new_bridge_users_reward.py:141-143 | a run performs at most one round per loop iteration, and ends early exactly at its first aborted round: the uncaught `IndexError` ends the process |
| Controller.NoAddressPaidTwice | src/scripts/new_bridge_users_reward.py:141-143 | over any run of steps, up to the round that ends the process, the paid sets are pairwise disjoint and disjoint from the seeded ledger; all are in the final ledger; the cursor never moves back |
| Controller.ListOf | src/scripts/new_bridge_users_reward.py:79 | `list(valid_users)` holds exactly the set's elements, each once |
| Controller.RewardMonitor.constructor | src/scripts/new_bridge_users_reward.py:132-139 | the monitor starts with the seeded ledger and the cursor at block 1899874 |
| Controller.RewardMonitor.Step | src/scripts/new_bridge_users_reward.py:65-81 | one `check_cross_chain_user`: the round is `NextRound` of the old state, and the new state is `After` it. `send_reward` receives exactly the new users, each once. The transactions are `Transactions` of that list, or none when idle or aborted |
| Controller.Start | src/scripts/new_bridge_users_reward.py:128-139 | start-up fails exactly when the payout scan from block 2266993 to the head fails; otherwise the ledger is that scan's result and the cursor is 1899874 |

## Left out

- Logging (src/log_config.py and every `logging.info`): it has no effect on state.
- RPC transport is not modelled: middleware, the gas strategy, `send_transaction` and `wait_for_transaction_receipt` (lines 91-102, 117-122). The receipt status is only logged and nothing reads it back, so transactions are outputs without outcomes.
- `w3.eth.filter(...).get_all_entries()` is the `Query` parameter. `w3.eth.block_number` is the `head` argument. `get_transaction_count` is the `NonceSource` parameter, indexed by batch number.
- The keccak hashes of the event signatures are symbolic constructors of `EventSignature`. EIP-55 checksumming is the `Canon` parameter. `Web3.toWei(0.1, 'ether')` is the integer constant 10^17.
- Config and secret loading is not modelled: `toml.load`, `load_dotenv`, the private key, `sys.argv`, the contract binding. Nor is the file read and JSON parse of `load_abi` (src/utils.py:13-17). The token addresses come from `src.constant`, which is not part of this model; they are the `tokens` field.
- The `while True` / `time.sleep(5)` driver (lines 141-143) is not a method. `Controller.Run` describes a finite run of steps on values. It stops at the first aborted round, because the exception that aborts it is not caught and ends the process.
- Exceptions raised by RPC calls inside `send_reward` are not modelled. In the code, such an exception is not caught either: it ends the process with earlier batches already submitted and the ledger and cursor unchanged.
- Scanner.ScanRange: the opening `assert from_block < end_block` is a precondition, not an `AssertionError` path. `Step` always meets it. `Start` requires a head past block 2266993.
- Scanner.ScanRange: a zero `step` would loop forever in the source, so `step > 0` is required. Every caller uses the default 10000.
- Utils.SplitByN: `range` raises on a zero step, so `n > 0` is required. The only caller passes 100.
- Three behaviours of the code are easy to miss; the model follows the code. (1) A log missing its address topic raises `IndexError`. Nothing catches it, so the step aborts and the process exits; the log is not skipped and no later round happens. (2) The ledger takes every candidate, not only the addresses paid, and it does so whether or not any transaction succeeded. (3) Ranges are inclusive of `toBlock`, so neighbouring chunks and consecutive steps share their boundary block. The set result and the ledger absorb the repeats.
- Hex.Topic: topics are byte sequences of any length. A node only returns 32-byte topics, for which `Hex.TopicAddressOfWord` gives the 42-character address. A topic of 20 to 31 bytes still yields 40 hex digits, as in the source. On a topic shorter than 20 bytes the model's `Canon` parameter still yields an address, where `Web3.toChecksumAddress` would raise `ValueError`.
- Controller.RewardMonitor.Step: an aborted round returns with the state unchanged. That the process then exits is stated by `Controller.Run`, not by the method.
