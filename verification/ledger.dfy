/**
 * The `FraudDetectionContract` smart contract: a fixed owner, a mapping from
 * transaction id to its fraud record that each id enters at most once, and a
 * set of seen transaction hashes that only grows.
 *
 * `Record` is the state transition of `recordTransaction` on a `Ledger` value
 * (a revert is an `Err` carrying the revert reason, and the EVM then keeps the
 * old state); the class `FraudDetectionContract` holds the contract storage
 * and is proved against that transition.
 */
module FraudLedger {
  import opened Wrappers

  /** 2^160: Ethereum addresses are 160-bit. */
  const AddressLimit: int := 0x10000000000000000000000000000000000000000
  /** 2^256: the range of `uint256`. */
  const Uint256Limit: int := 0x10000000000000000000000000000000000000000000000000000000000000000

  type Address = n: int | 0 <= n < AddressLimit
  type Uint256 = n: int | 0 <= n < Uint256Limit
  type Bytes32 = s: seq<bv8> | |s| == 32 witness ZeroBytes

  /** The zero `bytes32`. */
  const ZeroBytes: seq<bv8> := [0, 0, 0, 0, 0, 0, 0, 0, 0, 0, 0, 0, 0, 0, 0, 0, 0, 0, 0, 0, 0, 0, 0, 0, 0, 0, 0, 0, 0, 0, 0, 0]

  /** The `TransactionRecord` struct; `present` is its `exists` flag (a keyword here). */
  datatype TransactionRecord = TransactionRecord(
    transactionHash: Bytes32, amount: Uint256, isFraud: bool,
    riskScore: Uint256, timestamp: Uint256, present: bool)

  /** What reading a mapping slot that was never written yields: every field zero. */
  const EmptyRecord: TransactionRecord := TransactionRecord(ZeroBytes, 0, false, 0, 0, false)

  /** The `TransactionRecorded` event. */
  datatype RecordedEvent = TransactionRecorded(
    transactionId: string, transactionHash: Bytes32, amount: Uint256,
    isFraud: bool, riskScore: Uint256, timestamp: Uint256)

  /** One call of `recordTransaction`: its sender, its arguments and the block's timestamp. */
  datatype Call = Call(
    sender: Address, transactionId: string, transactionHash: Bytes32,
    amount: Uint256, isFraud: bool, riskScore: Uint256, blockTime: Uint256)

  /** The contract's storage; the hash mapping is the set of hashes mapped to true. */
  datatype Ledger = Ledger(
    owner: Address, transactions: map<string, TransactionRecord>, transactionHashes: set<Bytes32>)

  const OnlyOwner: string := "Only owner can call this function"
  const AlreadyRecorded: string := "Transaction already recorded"

  /** The storage right after the constructor ran for `deployer`. */
  function Deployed(deployer: Address): Ledger {
    Ledger(deployer, map[], {})
  }

  /** `transactions[id]`: the stored record, or the all-zero record. */
  function Lookup(l: Ledger, id: string): TransactionRecord {
    if id in l.transactions then l.transactions[id] else EmptyRecord
  }

  /** `verifyTransactionHash(h)`. */
  predicate HashSeen(l: Ledger, h: Bytes32) {
    h in l.transactionHashes
  }

  /** The record `recordTransaction` writes. */
  function Written(c: Call): TransactionRecord {
    TransactionRecord(c.transactionHash, c.amount, c.isFraud, c.riskScore, c.blockTime, true)
  }

  function Emitted(c: Call): RecordedEvent {
    TransactionRecorded(c.transactionId, c.transactionHash, c.amount, c.isFraud, c.riskScore, c.blockTime)
  }

  /**
   * `recordTransaction`: the `onlyOwner` modifier runs before the body's
   * `require`, so a foreign sender is refused for that reason first.
   */
  function Record(l: Ledger, c: Call): (r: Result<Ledger, string>)
    ensures r.Err? <==> c.sender != l.owner || Lookup(l, c.transactionId).present
    ensures r.Err? && c.sender != l.owner ==> r.error == OnlyOwner
    ensures r.Err? && c.sender == l.owner ==> r.error == AlreadyRecorded
  {
    if c.sender != l.owner then Err(OnlyOwner)
    else if Lookup(l, c.transactionId).present then Err(AlreadyRecorded)
    else Ok(Ledger(l.owner, l.transactions[c.transactionId := Written(c)],
                   l.transactionHashes + {c.transactionHash}))
  }

  /** Every stored record exists and its hash is among the seen hashes. */
  ghost predicate WellFormed(l: Ledger) {
    forall id :: id in l.transactions ==>
      l.transactions[id].present && l.transactions[id].transactionHash in l.transactionHashes
  }

  // ---------------------------------------------------------------------------
  // One call
  // ---------------------------------------------------------------------------

  /** After a successful call the id reads back with exactly the supplied values. */
  lemma RecordThenGet(l: Ledger, c: Call)
    requires Record(l, c).Ok?
    ensures var rec := Lookup(Record(l, c).value, c.transactionId);
      && rec.present
      && rec.transactionHash == c.transactionHash && rec.amount == c.amount
      && rec.isFraud == c.isFraud && rec.riskScore == c.riskScore && rec.timestamp == c.blockTime
    ensures HashSeen(Record(l, c).value, c.transactionHash)
  {
  }

  /** A call changes no other id, keeps the owner and every hash already seen. */
  lemma RecordLeavesRest(l: Ledger, c: Call, id: string, h: Bytes32)
    requires Record(l, c).Ok?
    ensures Record(l, c).value.owner == l.owner
    ensures id != c.transactionId ==> Lookup(Record(l, c).value, id) == Lookup(l, id)
    ensures HashSeen(l, h) ==> HashSeen(Record(l, c).value, h)
    ensures HashSeen(Record(l, c).value, h) ==> HashSeen(l, h) || h == c.transactionHash
  {
  }

  /** Once an id is recorded, every later call for it reverts, whoever sends it. */
  lemma RecordAtMostOnce(l: Ledger, first: Call, second: Call)
    requires Record(l, first).Ok? && second.transactionId == first.transactionId
    ensures Record(Record(l, first).value, second).Err?
  {
    RecordThenGet(l, first);
  }

  lemma RecordPreservesWellFormed(l: Ledger, c: Call)
    requires WellFormed(l) && Record(l, c).Ok?
    ensures WellFormed(Record(l, c).value)
  {
  }

  /** On a well-formed ledger an id reads as existing exactly when it was stored. */
  lemma ExistsIffStored(l: Ledger, id: string)
    requires WellFormed(l)
    ensures Lookup(l, id).present <==> id in l.transactions
    ensures id !in l.transactions ==> Lookup(l, id) == EmptyRecord
  {
  }

  // ---------------------------------------------------------------------------
  // Any sequence of calls
  // ---------------------------------------------------------------------------

  /** The storage after one call: a reverted call leaves it as it was. */
  function Step(l: Ledger, c: Call): Ledger {
    if Record(l, c).Ok? then Record(l, c).value else l
  }

  /** The storage after `calls`, in order. */
  function Run(l: Ledger, calls: seq<Call>): Ledger
    decreases |calls|
  {
    if calls == [] then l else Run(Step(l, calls[0]), calls[1..])
  }

  /** The owner never changes. */
  lemma {:induction false} RunKeepsOwner(l: Ledger, calls: seq<Call>)
    ensures Run(l, calls).owner == l.owner
    decreases |calls|
  {
    if calls != [] {
      var next := Step(l, calls[0]);
      RunKeepsOwner(next, calls[1..]);
    }
  }

  /** A hash once seen stays seen: no function clears the hash mapping. */
  lemma {:induction false} RunKeepsHashes(l: Ledger, calls: seq<Call>, h: Bytes32)
    requires HashSeen(l, h)
    ensures HashSeen(Run(l, calls), h)
    decreases |calls|
  {
    if calls != [] {
      var next := Step(l, calls[0]);
      RunKeepsHashes(next, calls[1..], h);
    }
  }

  /** A recorded id keeps its record forever. */
  lemma {:induction false} RunKeepsRecords(l: Ledger, calls: seq<Call>, id: string)
    requires Lookup(l, id).present
    ensures Lookup(Run(l, calls), id) == Lookup(l, id)
    decreases |calls|
  {
    if calls != [] {
      var next := Step(l, calls[0]);
      assert Lookup(next, id) == Lookup(l, id);
      RunKeepsRecords(next, calls[1..], id);
    }
  }

  /** Calls from anyone but the owner change nothing. */
  lemma {:induction false} RunWithoutOwner(l: Ledger, calls: seq<Call>)
    requires forall i :: 0 <= i < |calls| ==> calls[i].sender != l.owner
    ensures Run(l, calls) == l
    decreases |calls|
  {
    if calls != [] {
      RunWithoutOwner(l, calls[1..]);
    }
  }

  lemma {:induction false} RunPreservesWellFormed(l: Ledger, calls: seq<Call>)
    requires WellFormed(l)
    ensures WellFormed(Run(l, calls))
    decreases |calls|
  {
    if calls != [] {
      var next := Step(l, calls[0]);
      if Record(l, calls[0]).Ok? {
        RecordPreservesWellFormed(l, calls[0]);
      }
      RunPreservesWellFormed(next, calls[1..]);
    }
  }

  // ---------------------------------------------------------------------------
  // The deployed contract
  // ---------------------------------------------------------------------------

  class FraudDetectionContract {
    const owner: Address
    var transactions: map<string, TransactionRecord>
    var transactionHashes: set<Bytes32>
    /** The `TransactionRecorded` events emitted so far. */
    var events: seq<RecordedEvent>

    function State(): Ledger
      reads this
    {
      Ledger(owner, transactions, transactionHashes)
    }

    ghost predicate Valid()
      reads this
    {
      WellFormed(State())
    }

    /** Deployment: the deployer becomes the owner, for good. */
    constructor(deployer: Address)
      ensures State() == Deployed(deployer) && events == [] && Valid()
    {
      owner := deployer;
      transactions := map[];
      transactionHashes := {};
      events := [];
    }

    /**
     * `recordTransaction`, called by `c.sender` in a block stamped
     * `c.blockTime`. A revert returns its reason and leaves storage and
     * events as they were.
     */
    method RecordTransaction(c: Call) returns (revert: Option<string>)
      modifies this
      ensures Record(old(State()), c).Ok? ==>
        && revert.None?
        && State() == Record(old(State()), c).value
        && events == old(events) + [Emitted(c)]
      ensures Record(old(State()), c).Err? ==>
        && revert == Some(Record(old(State()), c).error)
        && State() == old(State()) && events == old(events)
      ensures old(Valid()) ==> Valid()
    {
      if c.sender != owner {
        return Some(OnlyOwner);
      }
      var current := if c.transactionId in transactions then transactions[c.transactionId] else EmptyRecord;
      if current.present {
        return Some(AlreadyRecorded);
      }
      transactions := transactions[c.transactionId := Written(c)];
      transactionHashes := transactionHashes + {c.transactionHash};
      events := events + [Emitted(c)];
      revert := None;
    }

    /** `getTransaction`: a view, it changes nothing. */
    method GetTransaction(id: string) returns (rec: TransactionRecord)
      requires Valid()
      ensures rec.present <==> id in transactions
      ensures rec.present ==> rec == transactions[id]
      ensures !rec.present ==> rec == EmptyRecord
    {
      rec := if id in transactions then transactions[id] else EmptyRecord;
    }

    /** `verifyTransactionHash`: a view, it changes nothing. */
    method VerifyTransactionHash(h: Bytes32) returns (seen: bool)
      ensures seen <==> HashSeen(State(), h)
    {
      seen := h in transactionHashes;
    }
  }
}
