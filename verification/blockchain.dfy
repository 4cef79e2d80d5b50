/**
 * The client side of the fraud ledger in `BlockchainIntegration`: the hex
 * encoding of transaction hashes, the branches of
 * `record_transaction_on_blockchain` (local fallback, revert, success) and the
 * result shaping of `verify_transaction_integrity`.
 *
 * The chain is seen through the contract's storage (`Option<Ledger>`, None
 * when there is no contract or no web3 connection). SHA-256 over the JSON
 * encoding, the clock, the network and the signing account are outside the
 * model: their results arrive as parameters (a digest, a block time, a failure
 * message, the hash web3 reports for the sent transaction).
 */
module BlockchainClient {
  import opened Wrappers
  import opened FraudLedger

  // ---------------------------------------------------------------------------
  // Hex encoding
  // ---------------------------------------------------------------------------

  const HexDigits: string := "0123456789abcdef"

  /** `bytes.hex()`: two lower-case digits per byte, high nibble first. */
  function ToHex(b: seq<bv8>): (s: string)
    ensures |s| == 2 * |b|
    ensures forall i :: 0 <= i < |s| ==> s[i] in HexDigits
  {
    if b == [] then ""
    else [HexDigits[b[0] as int / 16], HexDigits[b[0] as int % 16]] + ToHex(b[1..])
  }

  /** The value of a hex digit in either case. */
  function DigitValue(c: char): (v: Option<nat>)
    ensures v.Some? ==> v.value < 16
    ensures v.Some? <==> ('0' <= c <= '9' || 'a' <= c <= 'f' || 'A' <= c <= 'F')
  {
    if '0' <= c <= '9' then Some(c as int - '0' as int)
    else if 'a' <= c <= 'f' then Some(c as int - 'a' as int + 10)
    else if 'A' <= c <= 'F' then Some(c as int - 'A' as int + 10)
    else None
  }

  /** ASCII whitespace as `bytes.fromhex` skips it. */
  predicate IsSpace(c: char) {
    c == ' ' || c == '\t' || c == '\n' || c == '\r' || c == '\U{B}' || c == '\U{C}'
  }

  /**
   * `bytes.fromhex(s)`: whitespace may precede any pair of digits and end the
   * string, but may not split a pair; anything else is a ValueError (None).
   */
  function FromHex(s: string): (r: Option<seq<bv8>>)
    ensures r.Some? ==> 2 * |r.value| <= |s|
    decreases |s|
  {
    if s == [] then Some([])
    else if IsSpace(s[0]) then FromHex(s[1..])
    else if |s| < 2 || DigitValue(s[0]).None? || DigitValue(s[1]).None? then None
    else
      var byte := (DigitValue(s[0]).value * 16 + DigitValue(s[1]).value) as bv8;
      match FromHex(s[2..])
      case None => None
      case Some(rest) => Some([byte] + rest)
  }

  lemma DigitOfHexDigit(k: nat)
    requires k < 16
    ensures DigitValue(HexDigits[k]) == Some(k) && !IsSpace(HexDigits[k])
  {
  }

  /** A byte is rebuilt from its two nibbles. */
  lemma NibblesRebuildByte(x: bv8)
    ensures ((x as int / 16) * 16 + x as int % 16) as bv8 == x
  {
  }

  /** The first pair of digits of `ToHex(b)` decodes to `b[0]` and leaves `ToHex` of the rest. */
  lemma FromHexFirstPair(b: seq<bv8>)
    requires b != []
    ensures var s := ToHex(b);
      && !IsSpace(s[0]) && DigitValue(s[0]).Some? && DigitValue(s[1]).Some?
      && (DigitValue(s[0]).value * 16 + DigitValue(s[1]).value) as bv8 == b[0]
      && s[2..] == ToHex(b[1..])
  {
    var hi, lo := b[0] as int / 16, b[0] as int % 16;
    DigitOfHexDigit(hi);
    DigitOfHexDigit(lo);
    NibblesRebuildByte(b[0]);
  }

  /** A leading pair of digits that decodes to `x`, followed by the encoding of `rest`. */
  lemma FromHexPair(s: string, x: bv8, rest: seq<bv8>)
    requires |s| >= 2 && !IsSpace(s[0]) && DigitValue(s[0]).Some? && DigitValue(s[1]).Some?
    requires (DigitValue(s[0]).value * 16 + DigitValue(s[1]).value) as bv8 == x
    requires FromHex(s[2..]) == Some(rest)
    ensures FromHex(s) == Some([x] + rest)
  {
  }

  /** Decoding what `ToHex` wrote gives the bytes back. */
  lemma {:induction false} FromHexToHex(b: seq<bv8>)
    ensures FromHex(ToHex(b)) == Some(b)
    decreases |b|
  {
    if b != [] {
      var s := ToHex(b);
      FromHexFirstPair(b);
      FromHexToHex(b[1..]);
      FromHexPair(s, b[0], b[1..]);
      assert [b[0]] + b[1..] == b;
    }
  }

  /** Different bytes never share a hex string. */
  lemma ToHexInjective(a: seq<bv8>, b: seq<bv8>)
    requires ToHex(a) == ToHex(b)
    ensures a == b
  {
    FromHexToHex(a);
    FromHexToHex(b);
  }

  // ---------------------------------------------------------------------------
  // verify_transaction_integrity
  // ---------------------------------------------------------------------------

  const NoConnection: string := "No blockchain connection"
  const NotFound: string := "Transaction not found on blockchain"

  /** The details returned for a found record; the amount is converted back from cents. */
  datatype RecordView = RecordView(
    transactionHash: string, amount: real, isFraud: bool,
    riskScore: int, timestamp: int, recordedOnBlockchain: bool)

  /** The result dictionary. */
  datatype Verification = Verification(
    verified: bool, blockchainAvailable: bool, error: Option<string>, details: Option<RecordView>)

  function View(rec: TransactionRecord): RecordView {
    RecordView(ToHex(rec.transactionHash), rec.amount as real / 100.0, rec.isFraud,
               rec.riskScore, rec.timestamp, true)
  }

  /**
   * `verify_transaction_integrity(id)`. `chain` is the contract's storage (None
   * without a contract); `callFailure` is the message of an exception raised
   * by the `getTransaction` call.
   */
  function VerifyTransactionIntegrity(chain: Option<Ledger>, callFailure: Option<string>, id: string): (v: Verification)
    ensures v.blockchainAvailable <==> chain.Some? && callFailure.None?
    ensures v.verified <==> chain.Some? && callFailure.None? && Lookup(chain.value, id).present
    ensures v.verified <==> v.error.None?
    ensures v.verified <==> v.details.Some?
    ensures chain.None? ==> v.error == Some(NoConnection)
    ensures chain.Some? && callFailure.Some? ==> v.error == callFailure
    ensures v.blockchainAvailable && !v.verified ==> v.error == Some(NotFound)
    ensures v.verified ==>
      var rec := Lookup(chain.value, id);
      && v.details.value.transactionHash == ToHex(rec.transactionHash)
      && v.details.value.amount == rec.amount as real / 100.0
      && v.details.value.isFraud == rec.isFraud
      && v.details.value.riskScore == rec.riskScore
      && v.details.value.timestamp == rec.timestamp
      && v.details.value.recordedOnBlockchain
  {
    if chain.None? then Verification(false, false, Some(NoConnection), None)
    else if callFailure.Some? then Verification(false, false, callFailure, None)
    else
      var rec := Lookup(chain.value, id);
      if rec.present then Verification(true, true, None, Some(View(rec)))
      else Verification(false, true, Some(NotFound), None)
  }

  // ---------------------------------------------------------------------------
  // record_transaction_on_blockchain
  // ---------------------------------------------------------------------------

  /** A Python number as it reaches the ABI encoder. */
  datatype Number = IntValue(i: int) | FloatValue(r: real)

  /** The fields of `transaction_data` the contract call reads; `amountCents` is `int(amount * 100)`. */
  datatype TransactionData = TransactionData(id: Option<string>, amountCents: int)

  /** The fields of `fraud_result` the contract call reads; None is a missing key. */
  datatype FraudResult = FraudResult(isFraud: Option<bool>, riskScore: Option<Number>)

  /**
   * What happens on the network side: a failure raised while fetching the
   * nonce, signing, sending or waiting for the receipt; whether the 200000 gas
   * ran out; and the hash string web3 reports for the sent transaction.
   */
  datatype Network = Network(failure: Option<string>, outOfGas: bool, sentHash: string)

  /** The three ways the call can end. */
  datatype Outcome =
    | RecordedLocally(localHash: string)
    | Mined(txHash: string, after: Ledger)
    | Reverted

  /** The value `record_transaction_on_blockchain` returns. */
  function Returned(o: Outcome): (r: Option<string>)
    ensures r.None? <==> o.Reverted?
  {
    match o
    case RecordedLocally(h) => Some(h)
    case Mined(h, _) => Some(h)
    case Reverted => None
  }

  /** The storage after the call. */
  function After(chain: Option<Ledger>, o: Outcome): Option<Ledger> {
    if o.Mined? then Some(o.after) else chain
  }

  /** The ABI encoder accepts only a Python int in range for a `uint256`. */
  predicate EncodableUint(n: Number) {
    n.IntValue? && 0 <= n.i < Uint256Limit
  }

  /** `fraud_result.get('risk_score', 0)`. */
  function RiskArgument(f: FraudResult): Number {
    if f.riskScore.Some? then f.riskScore.value else IntValue(0)
  }

  /** The `recordTransaction` call web3 sends, when every argument encodes. */
  function ContractCall(account: Address, tx: TransactionData, f: FraudResult, hashBytes: seq<bv8>, blockTime: Uint256): (c: Option<Call>)
    ensures c.Some? <==> |hashBytes| == 32 && 0 <= tx.amountCents < Uint256Limit && EncodableUint(RiskArgument(f))
    ensures c.Some? ==>
      && c.value.sender == account
      && c.value.transactionId == (if tx.id.Some? then tx.id.value else "")
      && c.value.transactionHash == hashBytes
      && c.value.amount == tx.amountCents
      && c.value.isFraud == (f.isFraud == Some(true))
      && (f.riskScore.None? ==> c.value.riskScore == 0)
      && (f.riskScore.Some? ==> f.riskScore.value == IntValue(c.value.riskScore))
      && c.value.blockTime == blockTime
  {
    var risk := RiskArgument(f);
    if |hashBytes| == 32 && 0 <= tx.amountCents < Uint256Limit && EncodableUint(risk) then
      Some(Call(account,
                if tx.id.Some? then tx.id.value else "",
                hashBytes,
                tx.amountCents,
                if f.isFraud.Some? then f.isFraud.value else false,
                risk.i,
                blockTime))
    else None
  }

  /**
   * `record_transaction_on_blockchain`. `digest` is the SHA-256 of the
   * canonical JSON of the transaction (`create_transaction_hash` returns its
   * hex form) and `localDigest` the one `_record_locally` would hash; every
   * exception falls back to the local record.
   */
  function RecordTransactionOnBlockchain(
    chain: Option<Ledger>, account: Address, blockTime: Uint256,
    tx: TransactionData, f: FraudResult, digest: Bytes32, net: Network, localDigest: Bytes32): (o: Outcome)
    ensures chain.None? ==> o.RecordedLocally?
    ensures chain.Some? && net.failure.Some? ==> o.RecordedLocally?
    ensures o.RecordedLocally? ==> o.localHash == ToHex(localDigest)
    ensures o.Reverted? ==> chain.Some? && net.failure.None?
    ensures o.Mined? ==> chain.Some? && net.failure.None? && !net.outOfGas && o.txHash == net.sentHash
    ensures chain.Some? && ContractCall(account, tx, f, digest, blockTime).None? ==> o.RecordedLocally?
    ensures chain.Some? && net.failure.None? && ContractCall(account, tx, f, digest, blockTime).Some? ==>
      var c := ContractCall(account, tx, f, digest, blockTime).value;
      && (net.outOfGas || Record(chain.value, c).Err? ==> o == Reverted)
      && (!net.outOfGas && Record(chain.value, c).Ok? ==> o == Mined(net.sentHash, Record(chain.value, c).value))
  {
    FromHexToHex(digest);
    if chain.None? then RecordedLocally(ToHex(localDigest))
    else
      match FromHex(ToHex(digest))
      case None => RecordedLocally(ToHex(localDigest))
      case Some(hashBytes) =>
        match ContractCall(account, tx, f, hashBytes, blockTime)
        case None => RecordedLocally(ToHex(localDigest))
        case Some(call) =>
          if net.failure.Some? then RecordedLocally(ToHex(localDigest))
          else if net.outOfGas then Reverted
          else match Record(chain.value, call)
            case Ok(after) => Mined(net.sentHash, after)
            case Err(_) => Reverted
  }

  /** A successful on-chain record has the contract storage step exactly as `recordTransaction` does. */
  lemma MinedRecordsCall(
    chain: Option<Ledger>, account: Address, blockTime: Uint256,
    tx: TransactionData, f: FraudResult, digest: Bytes32, net: Network, localDigest: Bytes32)
    requires RecordTransactionOnBlockchain(chain, account, blockTime, tx, f, digest, net, localDigest).Mined?
    ensures var c := ContractCall(account, tx, f, digest, blockTime);
      && c.Some? && c.value.transactionHash == digest && account == chain.value.owner
      && Record(chain.value, c.value) == Ok(RecordTransactionOnBlockchain(chain, account, blockTime, tx, f, digest, net, localDigest).after)
  {
    FromHexToHex(digest);
  }

  /** `None` is returned only for a mined transaction that reverted or ran out of gas. */
  lemma NoneOnlyOnRevert(
    chain: Option<Ledger>, account: Address, blockTime: Uint256,
    tx: TransactionData, f: FraudResult, digest: Bytes32, net: Network, localDigest: Bytes32)
    requires Returned(RecordTransactionOnBlockchain(chain, account, blockTime, tx, f, digest, net, localDigest)).None?
    ensures chain.Some? && net.failure.None?
    ensures var c := ContractCall(account, tx, f, digest, blockTime);
      c.Some? && (net.outOfGas || Record(chain.value, c.value).Err?)
  {
    FromHexToHex(digest);
  }

  /** A Python float risk score never encodes as `uint256`, so the call always falls back locally. */
  lemma FloatRiskScoreFallsBack(
    chain: Option<Ledger>, account: Address, blockTime: Uint256,
    tx: TransactionData, f: FraudResult, digest: Bytes32, net: Network, localDigest: Bytes32)
    requires f.riskScore.Some? && f.riskScore.value.FloatValue?
    ensures RecordTransactionOnBlockchain(chain, account, blockTime, tx, f, digest, net, localDigest)
         == RecordedLocally(ToHex(localDigest))
  {
    FromHexToHex(digest);
  }

  /**
   * A transaction recorded on chain verifies: its hash reads back as the hex
   * `create_transaction_hash` produced, its amount as the cents over 100.
   */
  lemma RecordedThenVerified(
    chain: Option<Ledger>, account: Address, blockTime: Uint256,
    tx: TransactionData, f: FraudResult, digest: Bytes32, net: Network, localDigest: Bytes32)
    requires tx.id.Some?
    requires RecordTransactionOnBlockchain(chain, account, blockTime, tx, f, digest, net, localDigest).Mined?
    ensures var o := RecordTransactionOnBlockchain(chain, account, blockTime, tx, f, digest, net, localDigest);
      var v := VerifyTransactionIntegrity(After(chain, o), None, tx.id.value);
      && v.verified && v.blockchainAvailable
      && v.details.value.transactionHash == ToHex(digest)
      && v.details.value.amount == tx.amountCents as real / 100.0
      && v.details.value.timestamp == blockTime
  {
    MinedRecordsCall(chain, account, blockTime, tx, f, digest, net, localDigest);
    var c := ContractCall(account, tx, f, digest, blockTime).value;
    RecordThenGet(chain.value, c);
  }

  /** Recording the same transaction id a second time returns None and changes nothing. */
  lemma SecondRecordReturnsNone(
    chain: Option<Ledger>, account: Address, blockTime: Uint256,
    tx: TransactionData, f: FraudResult, digest: Bytes32, net: Network, localDigest: Bytes32,
    blockTime2: Uint256, tx2: TransactionData, f2: FraudResult, digest2: Bytes32, net2: Network, localDigest2: Bytes32)
    requires RecordTransactionOnBlockchain(chain, account, blockTime, tx, f, digest, net, localDigest).Mined?
    requires tx2.id == tx.id && net2.failure.None?
    requires ContractCall(account, tx2, f2, digest2, blockTime2).Some?
    ensures var first := RecordTransactionOnBlockchain(chain, account, blockTime, tx, f, digest, net, localDigest);
      var second := RecordTransactionOnBlockchain(After(chain, first), account, blockTime2, tx2, f2, digest2, net2, localDigest2);
      second == Reverted && After(After(chain, first), second) == After(chain, first)
  {
    MinedRecordsCall(chain, account, blockTime, tx, f, digest, net, localDigest);
    FromHexToHex(digest2);
    var c1 := ContractCall(account, tx, f, digest, blockTime).value;
    var c2 := ContractCall(account, tx2, f2, digest2, blockTime2).value;
    RecordAtMostOnce(chain.value, c1, c2);
  }
}
