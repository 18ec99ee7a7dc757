/** The block listener that copies ledger updates to an off-chain store and resumes from
    a checkpoint. */
module OffChainData {
  import opened Wrappers

  datatype KvWrite = KvWrite(key: string, isDelete: bool, value: string)

  datatype NamespaceSet = NamespaceSet(namespace: string, writes: seq<KvWrite>)

  datatype Transaction = Transaction(id: string, channel: string, valid: bool, sets: seq<NamespaceSet>)

  datatype Block = Block(number: nat, transactions: seq<Transaction>)

  datatype Write = Write(channelName: string, namespace: string, key: string, isDelete: bool, value: string)

  /** Why a listener process ends early. */
  datatype Stop = SimulatedFailure | Killed | CheckpointNotFound

  const SYSTEM_CHAINCODES := ["_lifecycle", "cscc", "escc", "lscc", "qscc", "vscc"]

  // ---- What is written for a transaction ----

  function NonSystem(sets: seq<NamespaceSet>): seq<NamespaceSet> {
    if sets == [] then []
    else
      var n := |sets| - 1;
      NonSystem(sets[..n]) + if sets[n].namespace in SYSTEM_CHAINCODES then [] else [sets[n]]
  }

  function NewWrites(channel: string, s: NamespaceSet): seq<Write> {
    seq(|s.writes|, i requires 0 <= i < |s.writes| =>
      Write(channel, s.namespace, s.writes[i].key, s.writes[i].isDelete, s.writes[i].value))
  }

  /** The writes of the last non-system namespace: each one replaces those before it. */
  function Writes(tx: Transaction): seq<Write> {
    var sets := NonSystem(tx.sets);
    if sets == [] then [] else NewWrites(tx.channel, sets[|sets| - 1])
  }

  // ---- One process, as a function of its state ----

  /** What survives a process: the checkpoint file and the store file, the latter as the
      chunks appended to it. */
  datatype Disk = Disk(blockNumber: nat, transactionId: string, log: seq<seq<Write>>)

  /** `life` counts the file operations the process completes before it is killed. */
  datatype State = State(disk: Disk, transactionCount: nat, life: nat)

  datatype Outcome = Outcome(state: State, stop: Option<Stop>)

  function Append(s: State, chunk: seq<Write>): Outcome {
    if s.life == 0 then Outcome(s, Some(Killed))
    else Outcome(s.(disk := s.disk.(log := s.disk.log + [chunk]), life := s.life - 1), None)
  }

  function Save(s: State, number: nat, id: string): Outcome {
    if s.life == 0 then Outcome(s, Some(Killed))
    else Outcome(s.(disk := s.disk.(blockNumber := number, transactionId := id), life := s.life - 1), None)
  }

  function StoreWrite(limit: nat, s: State, chunk: seq<Write>): Outcome {
    if limit > 0 && s.transactionCount >= limit then Outcome(s.(transactionCount := 0), Some(SimulatedFailure))
    else Append(s.(transactionCount := s.transactionCount + 1), chunk)
  }

  function ProcessTransaction(limit: nat, s: State, tx: Transaction): Outcome {
    if Writes(tx) == [] then Outcome(s, None) else StoreWrite(limit, s, Writes(tx))
  }

  function ProcessAndSave(limit: nat, s: State, number: nat, tx: Transaction): Outcome {
    var written := ProcessTransaction(limit, s, tx);
    if written.stop.Some? then written else Save(written.state, number, tx.id)
  }

  function ProcessValid(limit: nat, s: State, number: nat, txs: seq<Transaction>): Outcome
    decreases |txs|
  {
    if txs == [] then Outcome(s, None)
    else
      var done := ProcessAndSave(limit, s, number, txs[0]);
      if done.stop.Some? then done else ProcessValid(limit, done.state, number, txs[1..])
  }

  function OnlyValid(txs: seq<Transaction>): seq<Transaction> {
    if txs == [] then []
    else
      var n := |txs| - 1;
      OnlyValid(txs[..n]) + if txs[n].valid then [txs[n]] else []
  }

  /** The index of the last transaction with the given id. */
  function LastIndex(txs: seq<Transaction>, id: string): Option<nat> {
    if txs == [] then None
    else
      var n := |txs| - 1;
      if txs[n].id == id then Some(n) else LastIndex(txs[..n], id)
  }

  function NewTransactions(txs: seq<Transaction>, lastId: string): Option<seq<Transaction>>
  {
    if lastId == "" then Some(txs)
    else
      match LastIndex(txs, lastId)
      case None => None
      case Some(i) => if i < |txs| then Some(txs[i + 1..]) else None
  }

  function ProcessBlock(limit: nat, s: State, block: Block): Outcome {
    match NewTransactions(block.transactions, s.disk.transactionId)
    case None => Outcome(s, Some(CheckpointNotFound))
    case Some(txs) =>
      var done := ProcessValid(limit, s, block.number, OnlyValid(txs));
      if done.stop.Some? then done else Save(done.state, block.number + 1, "")
  }

  function ProcessBlocks(limit: nat, s: State, blocks: seq<Block>): Outcome
    decreases |blocks|
  {
    if blocks == [] then Outcome(s, None)
    else
      var done := ProcessBlock(limit, s, blocks[0]);
      if done.stop.Some? then done else ProcessBlocks(limit, done.state, blocks[1..])
  }

  /** One run of the listener over the blocks from the checkpointed one on. */
  function Session(limit: nat, disk: Disk, chain: seq<Block>, life: nat): Outcome {
    ProcessBlocks(limit, State(disk, 0, life), if disk.blockNumber <= |chain| then chain[disk.blockNumber..] else [])
  }

  // ---- The listener's objects ----

  /** The time a process has, in file operations. */
  class Life {
    var left: nat

    constructor (left: nat)
      ensures this.left == left
    {
      this.left := left;
    }
  }

  class FileCheckpointer {
    var blockNumber: nat
    var transactionId: string

    method CheckpointTransaction(life: Life, number: nat, id: string) returns (stop: Option<Stop>)
      modifies this, life
      ensures old(life.left) == 0 ==> stop == Some(Killed) && unchanged(this) && unchanged(life)
      ensures old(life.left) > 0 ==> stop == None && blockNumber == number && transactionId == id
      ensures old(life.left) > 0 ==> life.left == old(life.left) - 1
    {
      if life.left == 0 {
        return Some(Killed);
      }
      blockNumber, transactionId := number, id;
      life.left := life.left - 1;
      stop := None;
    }

    method CheckpointBlock(life: Life, number: nat) returns (stop: Option<Stop>)
      modifies this, life
      ensures old(life.left) == 0 ==> stop == Some(Killed) && unchanged(this) && unchanged(life)
      ensures old(life.left) > 0 ==> stop == None && blockNumber == number + 1 && transactionId == ""
      ensures old(life.left) > 0 ==> life.left == old(life.left) - 1
    {
      stop := CheckpointTransaction(life, number + 1, "");
    }
  }

  class OffChainStore {
    const simulatedFailureCount: nat
    var transactionCount: nat
    var file: seq<seq<Write>>

    method SimulateFailureIfRequired() returns (stop: Option<Stop>)
      modifies this`transactionCount
      ensures var fails := simulatedFailureCount > 0 && old(transactionCount) >= simulatedFailureCount;
              && stop == (if fails then Some(SimulatedFailure) else None)
              && transactionCount == if fails then 0 else old(transactionCount) + 1
    {
      if simulatedFailureCount > 0 && transactionCount >= simulatedFailureCount {
        transactionCount := 0;
        return Some(SimulatedFailure);
      }
      transactionCount := transactionCount + 1;
      stop := None;
    }

    method Persist(life: Life, writes: seq<Write>) returns (stop: Option<Stop>)
      modifies this`file, life
      ensures old(life.left) == 0 ==> stop == Some(Killed) && file == old(file) && life.left == 0
      ensures old(life.left) > 0 ==> stop == None && file == old(file) + [writes] && life.left == old(life.left) - 1
    {
      if life.left == 0 {
        return Some(Killed);
      }
      file := file + [writes];
      life.left := life.left - 1;
      stop := None;
    }

    method WriteUpdate(life: Life, writes: seq<Write>, ghost before: State) returns (stop: Option<Stop>)
      requires before.transactionCount == transactionCount && before.life == life.left && before.disk.log == file
      modifies this, life
      ensures var o := StoreWrite(simulatedFailureCount, before, writes);
              && stop == o.stop && transactionCount == o.state.transactionCount
              && life.left == o.state.life && file == o.state.disk.log
    {
      stop := SimulateFailureIfRequired();
      if stop.Some? {
        return;
      }
      stop := Persist(life, writes);
    }
  }

  class TransactionProcessor {
    const blockNumber: nat
    const transaction: Transaction
    const store: OffChainStore

    constructor (blockNumber: nat, transaction: Transaction, store: OffChainStore)
      ensures this.blockNumber == blockNumber && this.transaction == transaction && this.store == store
    {
      this.blockNumber := blockNumber;
      this.transaction := transaction;
      this.store := store;
    }

    method NewWritesOf(s: NamespaceSet) returns (result: seq<Write>)
      ensures result == NewWrites(transaction.channel, s)
      ensures |result| == |s.writes| && forall i :: 0 <= i < |s.writes| ==>
        var w := s.writes[i]; result[i] == Write(transaction.channel, s.namespace, w.key, w.isDelete, w.value)
    {
      result := [];
      for i := 0 to |s.writes|
        invariant result == NewWrites(transaction.channel, s)[..i]
      {
        var w := s.writes[i];
        result := result + [Write(transaction.channel, s.namespace, w.key, w.isDelete, w.value)];
      }
    }

    method WritesOf() returns (result: seq<Write>)
      ensures result == Writes(transaction)
    {
      var sets := [];
      for i := 0 to |transaction.sets|
        invariant sets == NonSystem(transaction.sets[..i])
      {
        assert transaction.sets[..i + 1][..i] == transaction.sets[..i];
        if transaction.sets[i].namespace !in SYSTEM_CHAINCODES {
          sets := sets + [transaction.sets[i]];
        }
      }
      assert transaction.sets[..|transaction.sets|] == transaction.sets;
      result := [];
      for i := 0 to |sets|
        invariant result == if i == 0 then [] else NewWrites(transaction.channel, sets[i - 1])
      {
        result := NewWritesOf(sets[i]);
      }
    }

    method Process(life: Life, ghost before: State) returns (stop: Option<Stop>)
      requires before.transactionCount == store.transactionCount
      requires before.life == life.left && before.disk.log == store.file
      modifies store, life
      ensures var o := ProcessTransaction(store.simulatedFailureCount, before, transaction);
              && stop == o.stop && store.transactionCount == o.state.transactionCount
              && life.left == o.state.life && store.file == o.state.disk.log
    {
      var writes := WritesOf();
      if |writes| == 0 {
        return None;
      }
      stop := store.WriteUpdate(life, writes, before);
    }
  }

  class BlockProcessor {
    const parsedBlock: Block
    const checkpointer: FileCheckpointer
    const store: OffChainStore

    constructor (parsedBlock: Block, checkpointer: FileCheckpointer, store: OffChainStore)
      ensures this.parsedBlock == parsedBlock && this.checkpointer == checkpointer && this.store == store
    {
      this.parsedBlock := parsedBlock;
      this.checkpointer := checkpointer;
      this.store := store;
    }

    ghost function Now(life: Life): State
      reads checkpointer, store, life
    {
      State(Disk(checkpointer.blockNumber, checkpointer.transactionId, store.file), store.transactionCount, life.left)
    }

    method FindLastProcessedIndex() returns (index: Option<nat>)
      ensures index == LastIndex(parsedBlock.transactions, checkpointer.transactionId)
    {
      var txs := parsedBlock.transactions;
      index := None;
      for i := 0 to |txs|
        invariant index == LastIndex(txs[..i], checkpointer.transactionId)
      {
        assert txs[..i + 1][..i] == txs[..i];
        if txs[i].id == checkpointer.transactionId {
          index := Some(i);
        }
      }
      assert txs[..|txs|] == txs;
    }

    method GetNewTransactions() returns (txs: Option<seq<Transaction>>)
      ensures txs == NewTransactions(parsedBlock.transactions, checkpointer.transactionId)
    {
      if checkpointer.transactionId == "" {
        return Some(parsedBlock.transactions);
      }
      var index := FindLastProcessedIndex();
      if index.None? {
        return None;
      }
      LastIndexInRange(parsedBlock.transactions, checkpointer.transactionId);
      txs := Some(parsedBlock.transactions[index.value + 1..]);
    }

    method ValidTransactions() returns (result: Option<seq<Transaction>>)
      ensures match NewTransactions(parsedBlock.transactions, checkpointer.transactionId)
              case None => result == None
              case Some(txs) => result == Some(OnlyValid(txs))
    {
      var newTransactions := GetNewTransactions();
      if newTransactions.None? {
        return None;
      }
      var txs, valid := newTransactions.value, [];
      for i := 0 to |txs|
        invariant valid == OnlyValid(txs[..i])
      {
        assert txs[..i + 1][..i] == txs[..i];
        if txs[i].valid {
          valid := valid + [txs[i]];
        }
      }
      assert txs[..|txs|] == txs;
      result := Some(valid);
    }

    method ProcessAndCheckpoint(life: Life, tx: Transaction) returns (stop: Option<Stop>)
      modifies checkpointer, store, life
      ensures var o := ProcessAndSave(store.simulatedFailureCount, old(Now(life)), parsedBlock.number, tx);
              stop == o.stop && Now(life) == o.state
    {
      ghost var before := Now(life);
      var txProcessor := new TransactionProcessor(parsedBlock.number, tx, store);
      stop := txProcessor.Process(life, before);
      if stop.Some? {
        return;
      }
      stop := checkpointer.CheckpointTransaction(life, parsedBlock.number, tx.id);
    }

    method Process(life: Life) returns (stop: Option<Stop>)
      modifies checkpointer, store, life
      ensures var o := ProcessBlock(store.simulatedFailureCount, old(Now(life)), parsedBlock);
              stop == o.stop && Now(life) == o.state
    {
      var validTransactions := ValidTransactions();
      if validTransactions.None? {
        return Some(CheckpointNotFound);
      }
      var txs := validTransactions.value;
      ghost var limit, start := store.simulatedFailureCount, Now(life);
      for i := 0 to |txs|
        invariant ProcessValid(limit, start, parsedBlock.number, txs)
               == ProcessValid(limit, Now(life), parsedBlock.number, txs[i..])
      {
        assert txs[i..][1..] == txs[i + 1..];
        assert ProcessValid(limit, Now(life), parsedBlock.number, txs[i..])
            == var o := ProcessAndSave(limit, Now(life), parsedBlock.number, txs[i]);
               if o.stop.Some? then o else ProcessValid(limit, o.state, parsedBlock.number, txs[i + 1..]);
        stop := ProcessAndCheckpoint(life, txs[i]);
        if stop.Some? {
          return;
        }
      }
      stop := checkpointer.CheckpointBlock(life, parsedBlock.number);
    }
  }

  lemma {:induction false} LastIndexInRange(txs: seq<Transaction>, id: string)
    ensures match LastIndex(txs, id)
            case None => forall k :: 0 <= k < |txs| ==> txs[k].id != id
            case Some(i) => i < |txs| && txs[i].id == id && forall k :: i < k < |txs| ==> txs[k].id != id
  {
    if txs != [] {
      LastIndexInRange(txs[..|txs| - 1], id);
    }
  }

  /** The listening loop: each block from the checkpointed one on, until one stops it. */
  method Listen(checkpointer: FileCheckpointer, store: OffChainStore, chain: seq<Block>, life: Life)
    returns (stop: Option<Stop>)
    requires store.transactionCount == 0
    modifies checkpointer, store, life
    ensures var disk := Disk(old(checkpointer.blockNumber), old(checkpointer.transactionId), old(store.file));
            var o := Session(store.simulatedFailureCount, disk, chain, old(life.left));
            && stop == o.stop && store.transactionCount == o.state.transactionCount && life.left == o.state.life
            && o.state.disk == Disk(checkpointer.blockNumber, checkpointer.transactionId, store.file)
  {
    ghost var limit := store.simulatedFailureCount;
    var blocks := if checkpointer.blockNumber <= |chain| then chain[checkpointer.blockNumber..] else [];
    ghost var start := State(Disk(checkpointer.blockNumber, checkpointer.transactionId, store.file), 0, life.left);
    ghost var now := start;
    stop := None;
    for i := 0 to |blocks|
      invariant now == State(Disk(checkpointer.blockNumber, checkpointer.transactionId, store.file),
                             store.transactionCount, life.left)
      invariant stop == None && ProcessBlocks(limit, start, blocks) == ProcessBlocks(limit, now, blocks[i..])
    {
      assert blocks[i..][1..] == blocks[i + 1..];
      var processor := new BlockProcessor(blocks[i], checkpointer, store);
      stop := processor.Process(life);
      now := processor.Now(life);
      if stop.Some? {
        return;
      }
    }
  }
}
