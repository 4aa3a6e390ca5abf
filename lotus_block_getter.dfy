/** The Lotus block getter: fetches one block with its transactions and
    attaches every transaction's receipt, retrying a failed receipt lookup
    immediately up to `maxRetries` times. */
module LotusBlockGetter {
  import opened Outcomes

  type Hash = string

  /** A transaction as the node returns it inside a block fetched with full transactions. */
  datatype RawTransaction = RawTransaction(hash: Hash, fields: string)

  /** A receipt as the node returns it. */
  datatype RawReceipt = RawReceipt(transactionHash: Hash, fields: string)

  /** A block as the node returns it, transactions in block order. */
  datatype RawBlock = RawBlock(number: int, transactions: seq<RawTransaction>, header: string)

  // The base-class formatters are opaque: each one is a constructor that
  // keeps what it was given.

  /** formatTransactionReceipt */
  datatype Receipt = FormattedReceipt(raw: RawReceipt)

  /** formatTransactionObject: a transaction merged with its receipt */
  datatype Transaction = FormattedTransaction(raw: RawTransaction, receipt: Receipt)

  /** formatBlockWithTransactions */
  datatype Block = FormattedBlock(raw: RawBlock, transactions: seq<Transaction>)

  /** What one call of the node's getTransactionReceipt settles to:
      a receipt, `null` (not available), or a thrown value. */
  datatype ReceiptReply = Found(receipt: RawReceipt) | NullReceipt | Threw(thrown: Thrown)

  /** The node client. `getBlock(n, k)` is the reply to the (k+1)-th call of
      getBlock for block `n`. `getTransactionReceipt(h, k)` is the reply to the
      call made for hash `h` when `errorCount` is `k`, that is, the (k+1)-th
      attempt of one lookup. */
  datatype Eth = Eth(
    getBlock: (int, nat) -> Result<RawBlock>,
    getTransactionReceipt: (Hash, nat) -> ReceiptReply)

  /** The attempt at which a lookup that starts at `errorCount` stops retrying. */
  function LastAttempt(maxRetries: nat, errorCount: nat): (k: nat)
  {
    if errorCount < maxRetries then maxRetries else errorCount
  }

  /** getLotusTransactionReceipt: one attempt, and on a throw an immediate
      retry with `errorCount + 1` until `errorCount >= maxRetries`.
      A failure always rethrows what the last permitted attempt threw. */
  function GetLotusTransactionReceipt(eth: Eth, maxRetries: nat, hash: Hash, errorCount: nat)
    : (r: Result<Option<Receipt>>)
    ensures r.Failure? ==>
      eth.getTransactionReceipt(hash, LastAttempt(maxRetries, errorCount)) == Threw(r.thrown)
    decreases maxRetries - errorCount
  {
    match eth.getTransactionReceipt(hash, errorCount)
    case Found(raw) => Success(Some(FormattedReceipt(raw)))
    case NullReceipt => Success(None)
    case Threw(t) =>
      if errorCount >= maxRetries then Failure(t)
      else GetLotusTransactionReceipt(eth, maxRetries, hash, errorCount + 1)
  }

  /** What a lookup returns when a reply that is not a throw ends it. */
  function Settled(reply: ReceiptReply): (r: Result<Option<Receipt>>)
    requires !reply.Threw?
  {
    match reply
    case Found(raw) => Success(Some(FormattedReceipt(raw)))
    case NullReceipt => Success(None)
  }

  /** The first attempt in `errorCount..maxRetries` that does not throw decides
      the lookup: a receipt is formatted, `null` gives "absent" at once. */
  lemma {:induction false} LookupSettlesAtFirstNonThrow(
    eth: Eth, maxRetries: nat, hash: Hash, errorCount: nat, k: nat)
    requires errorCount <= k <= LastAttempt(maxRetries, errorCount)
    requires !eth.getTransactionReceipt(hash, k).Threw?
    requires forall j :: errorCount <= j < k ==> eth.getTransactionReceipt(hash, j).Threw?
    ensures GetLotusTransactionReceipt(eth, maxRetries, hash, errorCount)
         == Settled(eth.getTransactionReceipt(hash, k))
    decreases k - errorCount
  {
    if errorCount < k {
      LookupSettlesAtFirstNonThrow(eth, maxRetries, hash, errorCount + 1, k);
    }
  }

  /** When every permitted attempt throws, the lookup rethrows the last error. */
  lemma {:induction false} LookupFailsWhenEveryAttemptThrows(
    eth: Eth, maxRetries: nat, hash: Hash, errorCount: nat)
    requires forall j :: errorCount <= j <= LastAttempt(maxRetries, errorCount) ==>
      eth.getTransactionReceipt(hash, j).Threw?
    ensures GetLotusTransactionReceipt(eth, maxRetries, hash, errorCount)
         == Failure(eth.getTransactionReceipt(hash, LastAttempt(maxRetries, errorCount)).thrown)
    decreases maxRetries - errorCount
  {
    if errorCount < maxRetries {
      LookupFailsWhenEveryAttemptThrows(eth, maxRetries, hash, errorCount + 1);
    }
  }

  /** A lookup started with `errorCount = 0` makes at most `maxRetries + 1`
      attempts: two clients that agree on attempts `0..maxRetries` for the hash
      give the same result, whatever later attempts would have returned. */
  lemma {:induction false} LookupMakesAtMostMaxRetriesPlusOneAttempts(
    eth: Eth, other: Eth, maxRetries: nat, hash: Hash, errorCount: nat)
    requires errorCount <= maxRetries
    requires forall j :: errorCount <= j <= maxRetries ==>
      eth.getTransactionReceipt(hash, j) == other.getTransactionReceipt(hash, j)
    ensures GetLotusTransactionReceipt(eth, maxRetries, hash, errorCount)
         == GetLotusTransactionReceipt(other, maxRetries, hash, errorCount)
    decreases maxRetries - errorCount
  {
    if errorCount < maxRetries {
      LookupMakesAtMostMaxRetriesPlusOneAttempts(eth, other, maxRetries, hash, errorCount + 1);
    }
  }

  /** The lookup the block assembly makes for one transaction. */
  function Lookup(eth: Eth, maxRetries: nat, tx: RawTransaction): (r: Result<Option<Receipt>>)
  {
    GetLotusTransactionReceipt(eth, maxRetries, tx.hash, 0)
  }

  /** The transactions that end up in the block: in block order, those whose
      lookup found a receipt, each merged with the receipt of its own hash. */
  function KeptTransactions(eth: Eth, maxRetries: nat, txs: seq<RawTransaction>)
    : (r: seq<Transaction>)
    ensures |r| <= |txs|
    ensures forall t :: t in r ==>
      t.raw in txs && Lookup(eth, maxRetries, t.raw) == Success(Some(t.receipt))
  {
    if txs == [] then []
    else
      var rest := KeptTransactions(eth, maxRetries, txs[1..]);
      match Lookup(eth, maxRetries, txs[0])
      case Success(Some(receipt)) => [FormattedTransaction(txs[0], receipt)] + rest
      case _ => rest
  }

  /** What the first failing lookup in block order threw, if any lookup fails. */
  function FirstReceiptFailure(eth: Eth, maxRetries: nat, txs: seq<RawTransaction>)
    : (r: Option<Thrown>)
    ensures r == None <==> forall i :: 0 <= i < |txs| ==> Lookup(eth, maxRetries, txs[i]).Success?
  {
    if txs == [] then None
    else
      match Lookup(eth, maxRetries, txs[0])
      case Failure(t) => Some(t)
      case Success(_) => FirstReceiptFailure(eth, maxRetries, txs[1..])
  }

  /** Every transaction whose receipt was found is in the block with that receipt. */
  lemma {:induction false} KeptIncludesEveryFoundReceipt(
    eth: Eth, maxRetries: nat, txs: seq<RawTransaction>, i: nat)
    requires i < |txs|
    requires Lookup(eth, maxRetries, txs[i]).Success?
    requires Lookup(eth, maxRetries, txs[i]).value.Some?
    ensures FormattedTransaction(txs[i], Lookup(eth, maxRetries, txs[i]).value.value)
         in KeptTransactions(eth, maxRetries, txs)
  {
    if i > 0 {
      KeptIncludesEveryFoundReceipt(eth, maxRetries, txs[1..], i - 1);
    }
  }

  /** The failure reported for a block is the one of its earliest failing lookup. */
  lemma {:induction false} FirstFailureIsEarliest(
    eth: Eth, maxRetries: nat, txs: seq<RawTransaction>, i: nat)
    requires i < |txs|
    requires Lookup(eth, maxRetries, txs[i]).Failure?
    requires forall j :: 0 <= j < i ==> Lookup(eth, maxRetries, txs[j]).Success?
    ensures FirstReceiptFailure(eth, maxRetries, txs) == Some(Lookup(eth, maxRetries, txs[i]).thrown)
  {
    if i > 0 {
      assert forall j :: 0 <= j < i - 1 ==> txs[1..][j] == txs[j + 1];
      FirstFailureIsEarliest(eth, maxRetries, txs[1..], i - 1);
    }
  }

  /** Assembly distributes over concatenation: the transactions kept from
      `a + b` are those kept from `a` followed by those kept from `b`. With the
      ensures of `KeptTransactions` and `KeptIncludesEveryFoundReceipt`, this
      fixes the block order and multiplicity of the kept transactions. */
  lemma {:induction false} KeptAppend(
    eth: Eth, maxRetries: nat, a: seq<RawTransaction>, b: seq<RawTransaction>)
    ensures KeptTransactions(eth, maxRetries, a + b)
         == KeptTransactions(eth, maxRetries, a) + KeptTransactions(eth, maxRetries, b)
  {
    if a == [] {
      assert a + b == b;
    } else {
      assert (a + b)[0] == a[0];
      assert (a + b)[1..] == a[1..] + b;
      KeptAppend(eth, maxRetries, a[1..], b);
    }
  }

  /** The first failure of `a + b` is the first failure of `a` if there is
      one, and otherwise that of `b`. */
  lemma {:induction false} FirstFailureAppend(
    eth: Eth, maxRetries: nat, a: seq<RawTransaction>, b: seq<RawTransaction>)
    ensures FirstReceiptFailure(eth, maxRetries, a + b)
         == if FirstReceiptFailure(eth, maxRetries, a).Some?
            then FirstReceiptFailure(eth, maxRetries, a)
            else FirstReceiptFailure(eth, maxRetries, b)
  {
    if a == [] {
      assert a + b == b;
    } else {
      assert (a + b)[0] == a[0];
      assert (a + b)[1..] == a[1..] + b;
      FirstFailureAppend(eth, maxRetries, a[1..], b);
    }
  }

  /** Looking up one more transaction extends the kept prefix by that
      transaction when its receipt was found. */
  lemma KeptExtend(eth: Eth, maxRetries: nat, txs: seq<RawTransaction>, i: nat)
    requires i < |txs|
    ensures KeptTransactions(eth, maxRetries, txs[..i + 1])
         == KeptTransactions(eth, maxRetries, txs[..i]) + KeptTransactions(eth, maxRetries, [txs[i]])
    ensures FirstReceiptFailure(eth, maxRetries, txs[..i]) == None ==>
      FirstReceiptFailure(eth, maxRetries, txs[..i + 1]) == FirstReceiptFailure(eth, maxRetries, [txs[i]])
  {
    assert txs[..i + 1] == txs[..i] + [txs[i]];
    KeptAppend(eth, maxRetries, txs[..i], [txs[i]]);
    FirstFailureAppend(eth, maxRetries, txs[..i], [txs[i]]);
  }

  /** A failing lookup after a prefix without failures is the block's first failure. */
  lemma FailureAfterCleanPrefix(eth: Eth, maxRetries: nat, txs: seq<RawTransaction>, i: nat)
    requires i < |txs|
    requires FirstReceiptFailure(eth, maxRetries, txs[..i]) == None
    requires Lookup(eth, maxRetries, txs[i]).Failure?
    ensures FirstReceiptFailure(eth, maxRetries, txs) == Some(Lookup(eth, maxRetries, txs[i]).thrown)
  {
    forall j | 0 <= j < i
      ensures Lookup(eth, maxRetries, txs[j]).Success?
    {
      assert txs[..i][j] == txs[j];
    }
    FirstFailureIsEarliest(eth, maxRetries, txs, i);
  }

  /** What getBlockWithTransactionReceipts settles to: the first call of
      getBlock decides the block; then the first failing lookup in block order
      aborts it, and otherwise it holds the transactions whose receipt was found. */
  function BlockResult(eth: Eth, maxRetries: nat, blockNumber: int): (r: Result<Block>)
  {
    match eth.getBlock(blockNumber, 0)
    case Failure(t) => Failure(t)
    case Success(raw) =>
      match FirstReceiptFailure(eth, maxRetries, raw.transactions)
      case Some(t) => Failure(t)
      case None => Success(FormattedBlock(raw, KeptTransactions(eth, maxRetries, raw.transactions)))
  }

  /** The block is fetched once: two clients that agree on the receipt replies
      and on the first getBlock call for the block give the same result,
      whatever they would answer to a second call. */
  lemma BlockFetchedOnce(eth: Eth, other: Eth, maxRetries: nat, blockNumber: int)
    requires other.getTransactionReceipt == eth.getTransactionReceipt
    requires other.getBlock(blockNumber, 0) == eth.getBlock(blockNumber, 0)
    ensures BlockResult(other, maxRetries, blockNumber) == BlockResult(eth, maxRetries, blockNumber)
  {
    match eth.getBlock(blockNumber, 0)
    case Failure(_) =>
    case Success(raw) => SameReceiptsSameAssembly(eth, other, maxRetries, raw.transactions);
  }

  /** The receipt lookups and hence the assembled transactions depend on the
      client's receipt replies alone. */
  lemma {:induction false} SameReceiptsSameAssembly(
    eth: Eth, other: Eth, maxRetries: nat, txs: seq<RawTransaction>)
    requires other.getTransactionReceipt == eth.getTransactionReceipt
    ensures KeptTransactions(other, maxRetries, txs) == KeptTransactions(eth, maxRetries, txs)
    ensures FirstReceiptFailure(other, maxRetries, txs) == FirstReceiptFailure(eth, maxRetries, txs)
  {
    if txs != [] {
      LookupMakesAtMostMaxRetriesPlusOneAttempts(eth, other, maxRetries, txs[0].hash, 0);
      SameReceiptsSameAssembly(eth, other, maxRetries, txs[1..]);
    }
  }

  /** getBlockWithTransactionReceipts: the block fetch is made once and its
      failure propagates; then every transaction's receipt is looked up in
      block order, the first exhausted lookup aborts the whole block, and
      otherwise the block holds exactly the transactions whose receipt was found. */
  method GetBlockWithTransactionReceipts(eth: Eth, maxRetries: nat, blockNumber: int)
    returns (r: Result<Block>)
    ensures eth.getBlock(blockNumber, 0).Failure? ==> r == Failure(eth.getBlock(blockNumber, 0).thrown)
    ensures eth.getBlock(blockNumber, 0).Success? ==>
      var raw := eth.getBlock(blockNumber, 0).value;
      r == match FirstReceiptFailure(eth, maxRetries, raw.transactions)
           case Some(t) => Failure(t)
           case None => Success(FormattedBlock(raw, KeptTransactions(eth, maxRetries, raw.transactions)))
    ensures r == BlockResult(eth, maxRetries, blockNumber)
  {
    var fetched := eth.getBlock(blockNumber, 0);
    if fetched.Failure? {
      return Failure(fetched.thrown);
    }
    var block := fetched.value;
    var transactions: seq<Transaction> := [];
    for i := 0 to |block.transactions|
      invariant FirstReceiptFailure(eth, maxRetries, block.transactions[..i]) == None
      invariant transactions == KeptTransactions(eth, maxRetries, block.transactions[..i])
    {
      var transactionObject := block.transactions[i];
      var transactionReceipt := GetLotusTransactionReceipt(eth, maxRetries, transactionObject.hash, 0);
      KeptExtend(eth, maxRetries, block.transactions, i);
      match transactionReceipt {
        case Failure(t) =>
          FailureAfterCleanPrefix(eth, maxRetries, block.transactions, i);
          return Failure(t);
        case Success(Some(receipt)) =>
          transactions := transactions + [FormattedTransaction(transactionObject, receipt)];
        case Success(None) =>
      }
    }
    assert block.transactions[..|block.transactions|] == block.transactions;
    r := Success(FormattedBlock(block, transactions));
  }
}
