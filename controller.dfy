/**
 * The scan controller: `check_cross_chain_user` and the start-up code of
 * src/scripts/new_bridge_users_reward.py (lines 65-83 and 128-139).
 *
 * The monitor keeps two pieces of state: the cursor `current_check_num` and the
 * ledger `reward_receiver_address_set`. One step reads the chain head, skips
 * when fewer than 100 blocks are new, scans at most 10000 blocks of mint events
 * on each watched token, pays the receivers it has not seen, puts every
 * receiver it saw into the ledger and moves the cursor to the end of the
 * scanned range. `Round`, `NextRound` and `After` say this on values; the
 * class `RewardMonitor` does it in place and is proved against them.
 */
module Controller {
  import opened Wrappers
  import opened PyText
  import opened Scanner
  import opened Dispatch

  /** A step scans only when at least this many blocks are new. */
  const MIN_ADVANCE: int := 100
  /** A step scans at most this many blocks. */
  const MAX_SCAN: int := 10000
  /** First block scanned for mint events. */
  const CROSS_CHAIN_START: int := 1899874
  /** First block scanned for earlier payouts when seeding the ledger. */
  const REWARD_CHECK_START: int := 2266993

  datatype Snapshot = Snapshot(cursor: int, ledger: set<Address>)

  /** What one step did: nothing, raised while scanning, or scanned up to `end` and paid `newUsers`. */
  datatype Round =
    | Idle
    | Aborted(error: ScanError)
    | Scanned(end: int, candidates: set<Address>, newUsers: set<Address>)

  function NewUsers(r: Round): set<Address> {
    if r.Scanned? then r.newUsers else {}
  }

  /** The scan of each token's mint events over `[lo, hi]`, in token order. */
  function MintScans(query: Query, canon: Canon, tokens: seq<Address>, lo: int, hi: int): seq<Result<set<Address>, ScanError>> {
    seq(|tokens|, k requires 0 <= k < |tokens| => Scan(query, canon, Mint, tokens[k], lo, hi, DEFAULT_STEP))
  }

  /** `cross_chain_users.update(...)` over the results in order, or the first error raised. */
  function UnionAll(results: seq<Result<set<Address>, ScanError>>): Result<set<Address>, ScanError> {
    if results == [] then Success({})
    else
      match UnionAll(results[..|results| - 1])
      case Failure(e) => Failure(e)
      case Success(c) =>
        match results[|results| - 1]
        case Failure(e) => Failure(e)
        case Success(s) => Success(c + s)
  }

  /** The candidate receivers of one step. */
  function Candidates(query: Query, canon: Canon, tokens: seq<Address>, lo: int, hi: int): Result<set<Address>, ScanError> {
    UnionAll(MintScans(query, canon, tokens, lo, hi))
  }

  /** The round a step from `s` performs when the chain head is `head`. */
  function NextRound(s: Snapshot, head: int, query: Query, canon: Canon, tokens: seq<Address>): (r: Round)
    ensures r == Idle <==> head - s.cursor < MIN_ADVANCE
    ensures r.Scanned? ==> s.cursor < r.end <= head && r.end - s.cursor <= MAX_SCAN
    ensures r.Scanned? ==> r.end == s.cursor + MAX_SCAN || r.end == head
    ensures r.Scanned? ==> r.newUsers == r.candidates - s.ledger
    ensures r.Scanned? ==> Candidates(query, canon, tokens, s.cursor, r.end) == Success(r.candidates)
    ensures r.Aborted? <==> head - s.cursor >= MIN_ADVANCE &&
                            Candidates(query, canon, tokens, s.cursor, Min(s.cursor + MAX_SCAN, head)).Failure?
  {
    if head - s.cursor < MIN_ADVANCE then Idle
    else
      var end := Min(s.cursor + MAX_SCAN, head);
      match Candidates(query, canon, tokens, s.cursor, end)
      case Failure(e) => Aborted(e)
      case Success(c) => Scanned(end, c, c - s.ledger)
  }

  /** The state after round `r`: an idle or aborted step changes nothing. */
  function After(s: Snapshot, r: Round): Snapshot {
    match r
    case Scanned(end, c, _) => Snapshot(end, s.ledger + c)
    case _ => s
  }

  // ---- Properties of one round ----

  /**
   * The ledger never shrinks and ends up holding every paid address; paid
   * addresses were not in the ledger before; the cursor never regresses and
   * lands on the end of the scanned range; diffing the same candidates again
   * finds nobody new. None of this depends on any transaction's outcome.
   */
  lemma RoundKeepsLedger(s: Snapshot, head: int, query: Query, canon: Canon, tokens: seq<Address>)
    ensures var r := NextRound(s, head, query, canon, tokens);
            var t := After(s, r);
            s.ledger <= t.ledger && s.cursor <= t.cursor &&
            NewUsers(r) <= t.ledger && NewUsers(r) !! s.ledger &&
            (r.Scanned? ==> t.ledger == s.ledger + r.candidates && t.cursor == r.end &&
                            r.candidates - t.ledger == {}) &&
            (!r.Scanned? ==> t == s)
  {
  }

  lemma {:induction false} UnionAllPrefixFailure(results: seq<Result<set<Address>, ScanError>>, i: nat)
    requires i <= |results|
    requires UnionAll(results[..i]).Failure?
    ensures UnionAll(results) == UnionAll(results[..i])
    decreases |results| - i
  {
    if i < |results| {
      var init := results[..|results| - 1];
      assert init[..i] == results[..i];
      UnionAllPrefixFailure(init, i);
    } else {
      assert results[..i] == results;
    }
  }

  /** One more iteration of `cross_chain_users.update(...)`. */
  lemma UnionAllStep(results: seq<Result<set<Address>, ScanError>>, i: nat, users: set<Address>)
    requires i < |results| && UnionAll(results[..i]) == Success(users)
    ensures UnionAll(results[..i + 1]) ==
            if results[i].Failure? then Failure(results[i].error) else Success(users + results[i].value)
  {
    assert results[..i + 1][..i] == results[..i];
  }

  /**
   * The union succeeds exactly when every result does, and then holds exactly
   * the members of the individual sets.
   */
  lemma {:induction false} UnionAllExact(results: seq<Result<set<Address>, ScanError>>)
    ensures UnionAll(results).Success? <==> forall k :: 0 <= k < |results| ==> results[k].Success?
    ensures UnionAll(results).Success? ==>
            forall a :: a in UnionAll(results).value <==>
              exists k :: 0 <= k < |results| && a in results[k].value
    decreases |results|
  {
    if results != [] {
      var init := results[..|results| - 1];
      var last := |results| - 1;
      UnionAllExact(init);
      assert forall k :: 0 <= k < |init| ==> init[k] == results[k];
      if UnionAll(results).Success? {
        forall a | a in UnionAll(results).value
          ensures exists k :: 0 <= k < |results| && a in results[k].value
        {
          if a !in results[last].value {
            var k :| 0 <= k < |init| && a in init[k].value;
            assert a in results[k].value;
          }
        }
      }
    }
  }

  /**
   * The candidates are the union of the scans of every token, and the step
   * aborts exactly when one of those scans fails.
   */
  lemma CandidatesExact(query: Query, canon: Canon, tokens: seq<Address>, lo: int, hi: int)
    ensures Candidates(query, canon, tokens, lo, hi).Success? <==>
            forall k :: 0 <= k < |tokens| ==> Scan(query, canon, Mint, tokens[k], lo, hi, DEFAULT_STEP).Success?
    ensures Candidates(query, canon, tokens, lo, hi).Success? ==>
            forall a :: a in Candidates(query, canon, tokens, lo, hi).value <==>
              exists k :: 0 <= k < |tokens| && a in Scan(query, canon, Mint, tokens[k], lo, hi, DEFAULT_STEP).value
  {
    var scans := MintScans(query, canon, tokens, lo, hi);
    assert |scans| == |tokens|;
    assert forall k :: 0 <= k < |tokens| ==> scans[k] == Scan(query, canon, Mint, tokens[k], lo, hi, DEFAULT_STEP);
    UnionAllExact(scans);
  }

  // ---- Properties of a run of rounds ----

  /**
   * The rounds the driver loop performs when it reads the heads `heads` in
   * turn. Nothing catches the error of an aborted round, so the process
   * exits there and no later round happens.
   */
  function Run(s: Snapshot, heads: seq<int>, query: Query, canon: Canon, tokens: seq<Address>): seq<Round>
    decreases |heads|
  {
    if heads == [] then []
    else
      var r := NextRound(s, heads[0], query, canon, tokens);
      if r.Aborted? then [r]
      else [r] + Run(After(s, r), heads[1..], query, canon, tokens)
  }

  /** The state the monitor is in when the run of `Run` ends. */
  function Final(s: Snapshot, heads: seq<int>, query: Query, canon: Canon, tokens: seq<Address>): Snapshot
    decreases |heads|
  {
    if heads == [] then s
    else
      var r := NextRound(s, heads[0], query, canon, tokens);
      if r.Aborted? then s
      else Final(After(s, r), heads[1..], query, canon, tokens)
  }

  /**
   * A run takes one head per round and ends early exactly at its first
   * aborted round: every round before the last completed, and a run that
   * is shorter than `heads` ends with an abort.
   */
  lemma {:induction false} RunStopsAtAbort(s: Snapshot, heads: seq<int>, query: Query, canon: Canon, tokens: seq<Address>)
    ensures var rs := Run(s, heads, query, canon, tokens);
            |rs| <= |heads| &&
            (forall i :: 0 <= i < |rs| - 1 ==> !rs[i].Aborted?) &&
            (|rs| < |heads| ==> rs != [] && rs[|rs| - 1].Aborted?) &&
            (heads != [] ==> rs != [])
    decreases |heads|
  {
    if heads != [] {
      var r := NextRound(s, heads[0], query, canon, tokens);
      if !r.Aborted? {
        var rest := Run(After(s, r), heads[1..], query, canon, tokens);
        RunStopsAtAbort(After(s, r), heads[1..], query, canon, tokens);
        var rs := Run(s, heads, query, canon, tokens);
        assert rs == [r] + rest;
        forall i | 0 <= i < |rs| - 1
          ensures !rs[i].Aborted?
        {
          if i > 0 {
            assert rs[i] == rest[i - 1];
          }
        }
        if |rs| < |heads| {
          assert rest != [];
          assert rs[|rs| - 1] == rest[|rest| - 1];
        }
      }
    }
  }

  /**
   * No address is paid twice: across any number of rounds the paid sets are
   * pairwise disjoint, none meets the starting ledger (the seeded earlier
   * payouts), all end up in the final ledger, and the cursor never moves back.
   */
  lemma {:induction false} NoAddressPaidTwice(s: Snapshot, heads: seq<int>, query: Query, canon: Canon, tokens: seq<Address>)
    ensures s.ledger <= Final(s, heads, query, canon, tokens).ledger
    ensures s.cursor <= Final(s, heads, query, canon, tokens).cursor
    ensures forall i :: 0 <= i < |Run(s, heads, query, canon, tokens)| ==>
              NewUsers(Run(s, heads, query, canon, tokens)[i]) !! s.ledger &&
              NewUsers(Run(s, heads, query, canon, tokens)[i]) <= Final(s, heads, query, canon, tokens).ledger
    ensures forall i, j :: 0 <= i < j < |Run(s, heads, query, canon, tokens)| ==>
              NewUsers(Run(s, heads, query, canon, tokens)[i]) !! NewUsers(Run(s, heads, query, canon, tokens)[j])
    decreases |heads|
  {
    if heads != [] {
      var r := NextRound(s, heads[0], query, canon, tokens);
      var s1 := After(s, r);
      RoundKeepsLedger(s, heads[0], query, canon, tokens);
      if r.Aborted? {
        assert Run(s, heads, query, canon, tokens) == [r];
      } else {
        NoAddressPaidTwice(s1, heads[1..], query, canon, tokens);
        var rs := Run(s, heads, query, canon, tokens);
        var rest := Run(s1, heads[1..], query, canon, tokens);
        var t := Final(s, heads, query, canon, tokens);
        assert rs == [r] + rest;
        assert t == Final(s1, heads[1..], query, canon, tokens);
        forall i, j | 0 <= i < j < |rs|
          ensures NewUsers(rs[i]) !! NewUsers(rs[j])
        {
          assert rs[j] == rest[j - 1];
          if i > 0 {
            assert rs[i] == rest[i - 1];
          }
        }
        forall i | 0 <= i < |rs|
          ensures NewUsers(rs[i]) !! s.ledger && NewUsers(rs[i]) <= t.ledger
        {
          if i > 0 {
            assert rs[i] == rest[i - 1];
          }
        }
      }
    }
  }

  // ---- The monitor ----

  /** `list(valid_users)`: the set's elements in some order, each once. */
  method ListOf(users: set<Address>) returns (xs: seq<Address>)
    ensures (set a | a in xs) == users
    ensures |xs| == |users|
  {
    xs := [];
    var rest := users;
    while rest != {}
      invariant (set a | a in xs) + rest == users
      invariant (set a | a in xs) !! rest
      invariant |xs| + |rest| == |users|
      decreases |rest|
    {
      var a :| a in rest;
      assert (set b | b in xs + [a]) == (set b | b in xs) + {a};
      xs := xs + [a];
      rest := rest - {a};
    }
  }

  /** Lines 73-76: scan every token over `[from, end]` and collect the union. */
  method ScanTokens(query: Query, canon: Canon, tokens: seq<Address>, from: int, end: int)
    returns (r: Result<set<Address>, ScanError>)
    requires from < end
    ensures r == Candidates(query, canon, tokens, from, end)
  {
    ghost var scans := MintScans(query, canon, tokens, from, end);
    var users: set<Address> := {};
    for i := 0 to |tokens|
      invariant UnionAll(scans[..i]) == Success(users)
    {
      UnionAllStep(scans, i, users);
      var found := MintAddressList(query, canon, tokens[i], from, end, DEFAULT_STEP);
      if found.Failure? {
        UnionAllPrefixFailure(scans, i + 1);
        return found;
      }
      users := users + found.value;
    }
    assert scans[..|tokens|] == scans;
    r := Success(users);
  }

  class RewardMonitor {
    /** The watched token contracts (`CoreContract.USDC`, `USDT`, `WETH`). */
    const tokens: seq<Address>
    /** `current_check_num`: where the next scan starts. */
    var cursor: int
    /** `reward_receiver_address_set`: addresses already paid or already seen. */
    var ledger: set<Address>

    constructor (tokens: seq<Address>, seeded: set<Address>)
      ensures this.tokens == tokens && cursor == CROSS_CHAIN_START && ledger == seeded
    {
      this.tokens := tokens;
      cursor := CROSS_CHAIN_START;
      ledger := seeded;
    }

    function State(): Snapshot
      reads this
    {
      Snapshot(cursor, ledger)
    }

    /**
     * One call of `check_cross_chain_user` with chain head `head`. Returns the
     * round, the list handed to `send_reward` and the transactions submitted.
     * A scan that raises leaves the state as it was and submits nothing.
     */
    method Step(head: int, query: Query, canon: Canon, mockSend: bool, nonceAt: NonceSource)
      returns (round: Round, paid: seq<Address>, txs: seq<Tx>)
      modifies this
      ensures round == NextRound(old(State()), head, query, canon, tokens)
      ensures State() == After(old(State()), round)
      ensures (set a | a in paid) == NewUsers(round) && |paid| == |NewUsers(round)|
      ensures txs == if round.Scanned? then Transactions(paid, mockSend, nonceAt) else []
    {
      ghost var before := State();
      if head - cursor < MIN_ADVANCE {
        return Idle, [], [];
      }
      var from := cursor;
      var end := Min(from + MAX_SCAN, head);
      var found := ScanTokens(query, canon, tokens, from, end);
      if found.Failure? {
        return Aborted(found.error), [], [];
      }
      var users := found.value;
      var valid := users - ledger;
      paid := ListOf(valid);
      txs := SendReward(paid, mockSend, nonceAt);
      ledger := ledger + users;
      cursor := end;
      round := Scanned(end, users, valid);
    }
  }

  /**
   * Start-up: seed the ledger from the payout events between block 2266993
   * and the current head, then start the cursor at block 1899874. The
   * requirement on `head` is the scanner's opening `assert`.
   */
  method Start(query: Query, canon: Canon, tokens: seq<Address>, batchSendContract: Address, head: int)
    returns (r: Result<RewardMonitor, ScanError>)
    requires REWARD_CHECK_START < head
    ensures r.Failure? <==> Scan(query, canon, Payout, batchSendContract, REWARD_CHECK_START, head, DEFAULT_STEP).Failure?
    ensures r.Success? ==>
              fresh(r.value) && r.value.tokens == tokens && r.value.cursor == CROSS_CHAIN_START &&
              Scan(query, canon, Payout, batchSendContract, REWARD_CHECK_START, head, DEFAULT_STEP) == Success(r.value.ledger)
  {
    var seeded := SendRewardAddressList(query, canon, batchSendContract, REWARD_CHECK_START, head, DEFAULT_STEP);
    if seeded.Failure? {
      return Failure(seeded.error);
    }
    var m := new RewardMonitor(tokens, seeded.value);
    r := Success(m);
  }
}
