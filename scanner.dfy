/**
 * The chunked block-range scanners `get_mint_address_list` and
 * `get_send_reward_address_list` (src/scripts/new_bridge_users_reward.py
 * lines 21-61). Both walk a cursor from `from_block` to `end_block` in
 * sub-ranges of at most `step` blocks, ask the node for the logs of each
 * sub-range, and collect one checksummed address per log. They differ only in
 * the filter they send and in the topic slot holding the address, captured
 * here by `EventKind`.
 *
 * The node's log query and EIP-55 checksumming are parameters: `Query` and
 * `Canon`. A sub-range is queried with an inclusive `toBlock`, and the next
 * one starts at the same block, so neighbouring chunks share their boundary
 * block; the set result absorbs the repeats.
 */
module Scanner {
  import opened Wrappers
  import opened PyText
  import opened Hex

  type Address = string

  /** `Web3.toChecksumAddress`, left uninterpreted. */
  type Canon = string -> Address

  /** The keccak hashes of the two event signatures, kept symbolic. */
  datatype EventSignature = TransferSignature | SendValueSignature

  /** The argument of `w3.eth.filter`. */
  datatype Filter = Filter(address: Address, signature: EventSignature, indexed: seq<string>,
                           fromBlock: int, toBlock: int)

  datatype Log = Log(topics: seq<Topic>)

  /** `w3.eth.filter(f).get_all_entries()`, left uninterpreted. */
  type Query = Filter -> seq<Log>

  /** `event['topics'][slot]` raising `IndexError`. */
  datatype ScanError = MissingTopic(slot: nat)

  /** Mint: `Transfer` from the zero address, receiver in topic 2.  Payout: `sendValue`, receiver in topic 1. */
  datatype EventKind = Mint | Payout

  /** One query's block range, both ends inclusive. */
  datatype Chunk = Chunk(lo: int, hi: int)

  /** The default `step` of both scanners. */
  const DEFAULT_STEP: nat := 10000

  function FilterFor(kind: EventKind, contract: Address, c: Chunk): Filter {
    match kind
    case Mint => Filter(contract, TransferSignature, [ZeroTopic()], c.lo, c.hi)
    case Payout => Filter(contract, SendValueSignature, [], c.lo, c.hi)
  }

  function Slot(kind: EventKind): nat {
    match kind
    case Mint => 2
    case Payout => 1
  }

  /** The sub-ranges the loop queries, in order, for a cursor starting at `lo`. */
  function Chunks(lo: int, end: int, step: nat): seq<Chunk>
    requires step > 0
    decreases end - lo
  {
    if lo >= end then []
    else
      var hi := Min(lo + step, end);
      [Chunk(lo, hi)] + Chunks(hi, end, step)
  }

  /** All logs returned for the chunks `cs`, in query order. */
  function LogsOf(query: Query, kind: EventKind, contract: Address, cs: seq<Chunk>): seq<Log> {
    if cs == [] then []
    else LogsOf(query, kind, contract, cs[..|cs| - 1]) + query(FilterFor(kind, contract, cs[|cs| - 1]))
  }

  /**
   * `address_list` after the loop has appended the address of every log in
   * `logs`: the checksummed address in topic `slot` of each log, in order,
   * or the `IndexError` raised by the first log that has no such topic.
   */
  function Receivers(logs: seq<Log>, slot: nat, canon: Canon): Result<seq<Address>, ScanError> {
    if forall j :: 0 <= j < |logs| ==> slot < |logs[j].topics| then
      Success(seq(|logs|, j requires 0 <= j < |logs| && slot < |logs[j].topics| =>
                            canon(TopicAddress(logs[j].topics[slot]))))
    else Failure(MissingTopic(slot))
  }

  /** What a scan over `[from, end]` returns: `set(address_list)`, or the error it raises. */
  function Scan(query: Query, canon: Canon, kind: EventKind, contract: Address,
                from: int, end: int, step: nat): Result<set<Address>, ScanError>
    requires step > 0
  {
    match Receivers(LogsOf(query, kind, contract, Chunks(from, end, step)), Slot(kind), canon)
    case Failure(e) => Failure(e)
    case Success(list) => Success(set a | a in list)
  }

  // ---- The chunk loop's ranges ----

  /** Every queried range lies inside `[from, end]`, is non-empty and spans at most `step` blocks. */
  lemma {:induction false} ChunksBounded(from: int, end: int, step: nat)
    requires step > 0
    ensures forall i :: 0 <= i < |Chunks(from, end, step)| ==>
              from <= Chunks(from, end, step)[i].lo < Chunks(from, end, step)[i].hi <= end &&
              Chunks(from, end, step)[i].hi - Chunks(from, end, step)[i].lo <= step
    decreases end - from
  {
    if from < end {
      ChunksBounded(Min(from + step, end), end, step);
    }
  }

  /**
   * The first range starts at `from`, each next range starts where the previous
   * one ended (so the boundary block is queried twice), and the last ends at `end`.
   */
  lemma {:induction false} ChunksContiguous(from: int, end: int, step: nat)
    requires step > 0
    ensures from >= end <==> Chunks(from, end, step) == []
    ensures from < end ==>
              Chunks(from, end, step)[0].lo == from &&
              Chunks(from, end, step)[|Chunks(from, end, step)| - 1].hi == end
    ensures forall i :: 0 <= i < |Chunks(from, end, step)| - 1 ==>
              Chunks(from, end, step)[i].hi == Chunks(from, end, step)[i + 1].lo
    decreases end - from
  {
    if from < end {
      var hi := Min(from + step, end);
      ChunksContiguous(hi, end, step);
    }
  }

  /** No gaps: every block of `[from, end]` is inside some queried range. */
  lemma {:induction false} ChunksCover(from: int, end: int, step: nat, b: int)
    requires step > 0 && from <= b <= end && from < end
    ensures exists i :: 0 <= i < |Chunks(from, end, step)| &&
              Chunks(from, end, step)[i].lo <= b <= Chunks(from, end, step)[i].hi
    decreases end - from
  {
    var hi := Min(from + step, end);
    var cs := Chunks(from, end, step);
    if b <= hi {
      assert cs[0].lo <= b <= cs[0].hi;
    } else {
      ChunksCover(hi, end, step, b);
      var i :| 0 <= i < |Chunks(hi, end, step)| &&
                Chunks(hi, end, step)[i].lo <= b <= Chunks(hi, end, step)[i].hi;
      assert cs[i + 1] == Chunks(hi, end, step)[i];
    }
  }

  /** The loop runs `ceil((end - from) / step)` times, stated without division. */
  lemma {:induction false} ChunksCount(from: int, end: int, step: nat)
    requires step > 0 && from < end
    ensures (|Chunks(from, end, step)| - 1) * step < end - from <= |Chunks(from, end, step)| * step
    decreases end - from
  {
    var hi := Min(from + step, end);
    if hi < end {
      ChunksCount(hi, end, step);
      var m := |Chunks(hi, end, step)|;
      assert (m + 1) * step == m * step + step;
      assert m * step == (m - 1) * step + step;
    }
  }

  // ---- What the collected set contains ----

  lemma {:induction false} LogsOfAppend(query: Query, kind: EventKind, contract: Address, a: seq<Chunk>, b: seq<Chunk>)
    ensures LogsOf(query, kind, contract, a + b) == LogsOf(query, kind, contract, a) + LogsOf(query, kind, contract, b)
    decreases |b|
  {
    if b == [] {
      assert a + b == a;
    } else {
      var b' := b[..|b| - 1];
      assert (a + b)[..|a + b| - 1] == a + b';
      assert (a + b)[|a + b| - 1] == b[|b| - 1];
      LogsOfAppend(query, kind, contract, a, b');
    }
  }

  /** Some range of `cs` returned `log`. */
  predicate ReturnedBy(query: Query, kind: EventKind, contract: Address, cs: seq<Chunk>, log: Log) {
    exists i :: 0 <= i < |cs| && log in query(FilterFor(kind, contract, cs[i]))
  }

  /** A log is collected exactly when some queried range returned it. */
  lemma {:induction false} LogsOfMembers(query: Query, kind: EventKind, contract: Address, cs: seq<Chunk>, log: Log)
    ensures log in LogsOf(query, kind, contract, cs) <==> ReturnedBy(query, kind, contract, cs, log)
    decreases |cs|
  {
    if cs != [] {
      var init := cs[..|cs| - 1];
      LogsOfMembers(query, kind, contract, init, log);
      if log in LogsOf(query, kind, contract, cs) {
        if log !in query(FilterFor(kind, contract, cs[|cs| - 1])) {
          var i :| 0 <= i < |init| && log in query(FilterFor(kind, contract, init[i]));
          assert cs[i] == init[i];
        }
      } else {
        forall i | 0 <= i < |cs|
          ensures log !in query(FilterFor(kind, contract, cs[i]))
        {
          if i < |init| {
            assert cs[i] == init[i];
          }
        }
      }
    }
  }

  lemma LogsOfMembersAll(query: Query, kind: EventKind, contract: Address, cs: seq<Chunk>)
    ensures forall log :: log in LogsOf(query, kind, contract, cs) <==> ReturnedBy(query, kind, contract, cs, log)
  {
    forall log ensures log in LogsOf(query, kind, contract, cs) <==> ReturnedBy(query, kind, contract, cs, log) {
      LogsOfMembers(query, kind, contract, cs, log);
    }
  }

  /** Once a log lacks its topic, appending more logs keeps the same error. */
  lemma ReceiversFailureSticks(a: seq<Log>, b: seq<Log>, slot: nat, canon: Canon)
    requires Receivers(a, slot, canon).Failure?
    ensures Receivers(a + b, slot, canon) == Receivers(a, slot, canon)
  {
    var j :| 0 <= j < |a| && |a[j].topics| <= slot;
    assert (a + b)[j] == a[j];
  }

  lemma ReceiversEmpty(slot: nat, canon: Canon)
    ensures Receivers([], slot, canon) == Success([])
  {
    assert |Receivers([], slot, canon).value| == 0;
  }

  /** One more iteration of the inner loop. */
  lemma ReceiversSnoc(p: seq<Log>, log: Log, slot: nat, canon: Canon)
    requires Receivers(p, slot, canon).Success?
    ensures Receivers(p + [log], slot, canon) ==
            if slot < |log.topics| then Success(Receivers(p, slot, canon).value + [canon(TopicAddress(log.topics[slot]))])
            else Failure(MissingTopic(slot))
  {
    var q := p + [log];
    assert forall j :: 0 <= j < |p| ==> q[j] == p[j];
    assert q[|p|] == log;
    if slot < |log.topics| {
      assert forall j :: 0 <= j < |q| ==> slot < |q[j].topics|;
      var v := Receivers(q, slot, canon).value;
      var w := Receivers(p, slot, canon).value + [canon(TopicAddress(log.topics[slot]))];
      assert |v| == |w|;
      forall j | 0 <= j < |q|
        ensures v[j] == w[j]
      {
        if j < |p| {
          assert q[j] == p[j];
        }
      }
      assert v == w;
    } else {
      assert |q[|p|].topics| <= slot;
    }
  }

  /** `log` has topic `slot`, and `a` is the checksummed address in it. */
  predicate Carries(log: Log, slot: nat, canon: Canon, a: Address) {
    slot < |log.topics| && a == canon(TopicAddress(log.topics[slot]))
  }

  /** The extracted list holds exactly the checksummed receivers of the logs. */
  lemma ReceiversMembers(logs: seq<Log>, slot: nat, canon: Canon)
    requires Receivers(logs, slot, canon).Success?
    ensures forall a :: a in Receivers(logs, slot, canon).value <==>
              exists log :: log in logs && Carries(log, slot, canon, a)
  {
    var list := Receivers(logs, slot, canon).value;
    forall a | a in list
      ensures exists log :: log in logs && Carries(log, slot, canon, a)
    {
      var j :| 0 <= j < |list| && list[j] == a;
      assert logs[j] in logs && Carries(logs[j], slot, canon, a);
    }
    forall a | exists log :: log in logs && Carries(log, slot, canon, a)
      ensures a in list
    {
      var log :| log in logs && Carries(log, slot, canon, a);
      var j :| 0 <= j < |logs| && logs[j] == log;
      assert list[j] == a;
    }
  }

  lemma ReceiversOfReturned(query: Query, canon: Canon, kind: EventKind, contract: Address,
                            cs: seq<Chunk>, logs: seq<Log>)
    requires forall log :: log in logs <==> ReturnedBy(query, kind, contract, cs, log)
    ensures Receivers(logs, Slot(kind), canon).Failure? <==>
            exists log :: ReturnedBy(query, kind, contract, cs, log) && |log.topics| <= Slot(kind)
    ensures Receivers(logs, Slot(kind), canon).Success? ==>
            forall a :: a in Receivers(logs, Slot(kind), canon).value <==>
              exists log :: ReturnedBy(query, kind, contract, cs, log) &&
                Carries(log, Slot(kind), canon, a)
  {
    var slot := Slot(kind);
    if Receivers(logs, slot, canon).Success? {
      ReceiversMembers(logs, slot, canon);
    } else {
      var j :| 0 <= j < |logs| && |logs[j].topics| <= slot;
      assert logs[j] in logs;
    }
  }

  /**
   * The returned set is exactly the checksummed receivers of all logs of all
   * queried ranges; the scan fails exactly when one of those logs lacks the topic.
   */
  lemma ScanExact(query: Query, canon: Canon, kind: EventKind, contract: Address,
                  from: int, end: int, step: nat)
    requires step > 0
    ensures Scan(query, canon, kind, contract, from, end, step).Failure? <==>
            exists log :: ReturnedBy(query, kind, contract, Chunks(from, end, step), log) &&
              |log.topics| <= Slot(kind)
    ensures Scan(query, canon, kind, contract, from, end, step).Success? ==>
            forall a :: a in Scan(query, canon, kind, contract, from, end, step).value <==>
              exists log :: ReturnedBy(query, kind, contract, Chunks(from, end, step), log) &&
                Carries(log, Slot(kind), canon, a)
  {
    var cs := Chunks(from, end, step);
    LogsOfMembersAll(query, kind, contract, cs);
    ReceiversOfReturned(query, canon, kind, contract, cs, LogsOf(query, kind, contract, cs));
  }

  /** A log without its topic, met while handling `chunk`, makes the whole scan fail. */
  lemma ScanFailsAt(query: Query, canon: Canon, kind: EventKind, contract: Address,
                    from: int, end: int, step: nat, done: seq<Chunk>, chunk: Chunk)
    requires step > 0
    requires Chunks(from, end, step) == (done + [chunk]) + Chunks(chunk.hi, end, step)
    requires Receivers(LogsOf(query, kind, contract, done) + query(FilterFor(kind, contract, chunk)),
                       Slot(kind), canon).Failure?
    ensures Scan(query, canon, kind, contract, from, end, step) == Failure(MissingTopic(Slot(kind)))
  {
    var rest := Chunks(chunk.hi, end, step);
    LogsOfSnoc(query, kind, contract, done, chunk);
    LogsOfAppend(query, kind, contract, done + [chunk], rest);
    ReceiversFailureSticks(LogsOf(query, kind, contract, done + [chunk]), LogsOf(query, kind, contract, rest), Slot(kind), canon);
  }

  // ---- The loops ----

  lemma SliceSnoc<T>(p: seq<T>, xs: seq<T>, j: nat)
    requires j < |xs|
    ensures p + xs[..j + 1] == (p + xs[..j]) + [xs[j]]
  {
    assert xs[..j + 1] == xs[..j] + [xs[j]];
  }

  lemma SliceSplit<T>(p: seq<T>, xs: seq<T>, j: nat)
    requires j <= |xs|
    ensures (p + xs[..j]) + xs[j..] == p + xs
  {
    assert xs[..j] + xs[j..] == xs;
  }

  /**
   * The inner `for event in ...` loop: append the address of each of `entries`
   * to `addresses`, which already holds those of the logs `before`.
   */
  method AppendReceivers(entries: seq<Log>, slot: nat, canon: Canon, ghost before: seq<Log>, addresses: seq<Address>)
    returns (r: Result<seq<Address>, ScanError>)
    requires Receivers(before, slot, canon) == Success(addresses)
    ensures r == Receivers(before + entries, slot, canon)
  {
    var acc := addresses;
    assert before + entries[..0] == before;
    for j := 0 to |entries|
      invariant Receivers(before + entries[..j], slot, canon) == Success(acc)
    {
      var log := entries[j];
      SliceSnoc(before, entries, j);
      ReceiversSnoc(before + entries[..j], log, slot, canon);
      if |log.topics| <= slot {
        ReceiversFailureSticks(before + entries[..j + 1], entries[j + 1..], slot, canon);
        SliceSplit(before, entries, j + 1);
        return Failure(MissingTopic(slot));
      }
      acc := acc + [canon(TopicAddress(log.topics[slot]))];
    }
    assert entries[..|entries|] == entries;
    r := Success(acc);
  }

  /** The loop's cursor moves one range along `Chunks`. */
  lemma ChunksStep(from: int, end: int, step: nat, done: seq<Chunk>, start: int)
    requires step > 0 && start < end
    requires Chunks(from, end, step) == done + Chunks(start, end, step)
    ensures Chunks(from, end, step) ==
            (done + [Chunk(start, Min(start + step, end))]) + Chunks(Min(start + step, end), end, step)
  {
  }

  lemma LogsOfSnoc(query: Query, kind: EventKind, contract: Address, done: seq<Chunk>, chunk: Chunk)
    ensures LogsOf(query, kind, contract, done + [chunk]) ==
            LogsOf(query, kind, contract, done) + query(FilterFor(kind, contract, chunk))
  {
    assert (done + [chunk])[..|done|] == done;
  }

  lemma ScanOfAll(query: Query, canon: Canon, kind: EventKind, contract: Address,
                  from: int, end: int, step: nat, done: seq<Chunk>, addresses: seq<Address>)
    requires step > 0
    requires Chunks(from, end, step) == done + Chunks(end, end, step)
    requires Receivers(LogsOf(query, kind, contract, done), Slot(kind), canon) == Success(addresses)
    ensures Scan(query, canon, kind, contract, from, end, step) == Success(set a | a in addresses)
  {
    assert done + Chunks(end, end, step) == done;
  }

  /**
   * The loop shared by both scanners: walk `start` from `fromBlock` to
   * `endBlock`, query each sub-range and append one address per log.
   * `fromBlock < endBlock` is the functions' opening `assert`; a zero `step`
   * would never advance the cursor.
   */
  method ScanRange(query: Query, canon: Canon, kind: EventKind, contract: Address,
                   fromBlock: int, endBlock: int, step: nat) returns (r: Result<set<Address>, ScanError>)
    requires fromBlock < endBlock
    requires step > 0
    ensures r == Scan(query, canon, kind, contract, fromBlock, endBlock, step)
  {
    var slot := Slot(kind);
    var addresses: seq<Address> := [];
    var start := fromBlock;
    ghost var done: seq<Chunk> := [];
    ReceiversEmpty(slot, canon);
    while start < endBlock
      invariant fromBlock <= start <= endBlock
      invariant Chunks(fromBlock, endBlock, step) == done + Chunks(start, endBlock, step)
      invariant Receivers(LogsOf(query, kind, contract, done), slot, canon) == Success(addresses)
      decreases endBlock - start
    {
      var end := Min(start + step, endBlock);
      var chunk := Chunk(start, end);
      var entries := query(FilterFor(kind, contract, chunk));
      ChunksStep(fromBlock, endBlock, step, done, start);
      var got := AppendReceivers(entries, slot, canon, LogsOf(query, kind, contract, done), addresses);
      if got.Failure? {
        ScanFailsAt(query, canon, kind, contract, fromBlock, endBlock, step, done, chunk);
        return Failure(MissingTopic(slot));
      }
      addresses := got.value;
      LogsOfSnoc(query, kind, contract, done, chunk);
      done := done + [chunk];
      start := end;
    }
    ScanOfAll(query, canon, kind, contract, fromBlock, endBlock, step, done, addresses);
    r := Success(set a | a in addresses);
  }

  /** `get_mint_address_list`: receivers of `Transfer` events from the zero address. */
  method MintAddressList(query: Query, canon: Canon, contract: Address,
                         fromBlock: int, endBlock: int, step: nat) returns (r: Result<set<Address>, ScanError>)
    requires fromBlock < endBlock
    requires step > 0
    ensures r == Scan(query, canon, Mint, contract, fromBlock, endBlock, step)
  {
    r := ScanRange(query, canon, Mint, contract, fromBlock, endBlock, step);
  }

  /** `get_send_reward_address_list`: receivers of earlier `sendValue` payouts. */
  method SendRewardAddressList(query: Query, canon: Canon, contract: Address,
                               fromBlock: int, endBlock: int, step: nat) returns (r: Result<set<Address>, ScanError>)
    requires fromBlock < endBlock
    requires step > 0
    ensures r == Scan(query, canon, Payout, contract, fromBlock, endBlock, step)
  {
    r := ScanRange(query, canon, Payout, contract, fromBlock, endBlock, step);
  }
}
