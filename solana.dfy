/** `parse_transaction_data` (src/solana.py): raw RPC records become canonical
    transactions, bought at the block time and sold an hour later, one SOL each. */
module Solana {
  import opened Wrappers
  import opened Values
  import opened Transactions

  const SellDelay: int := 3600

  /** `tx.get("blockTime")` when it is an integer; None when the key is missing or holds
      anything `+ 3600` would reject. */
  function BlockTime(raw: Record): (t: Option<int>)
    ensures t.Some? <==> "blockTime" in raw && raw["blockTime"].VInt?
    ensures t.Some? ==> t.value == raw["blockTime"].i
  {
    if "blockTime" in raw && raw["blockTime"].VInt? then Some(raw["blockTime"].i) else None
  }

  method ParseTransactionData(rawData: seq<Record>) returns (r: Result<seq<Transaction>>)
    ensures r.Ok? <==> forall i :: 0 <= i < |rawData| ==> BlockTime(rawData[i]).Some?
    ensures r.Err? ==> r.error == TypeError
    ensures r.Ok? ==> |r.value| == |rawData|
    ensures r.Ok? ==> forall i :: 0 <= i < |rawData| ==>
      && BlockTime(rawData[i]).Some?
      && r.value[i].signature == Get(rawData[i], "signature")
      && r.value[i].purchaseTime == BlockTime(rawData[i]).value
      && r.value[i].sellTime == r.value[i].purchaseTime + SellDelay
      && r.value[i].tokenSymbol == "SOL"
      && r.value[i].amount == 1.0
    ensures r.Ok? ==> forall i :: 0 <= i < |r.value| ==> r.value[i].purchaseTime <= r.value[i].sellTime
  {
    var parsedData: seq<Transaction> := [];
    var i := 0;
    while i < |rawData|
      invariant 0 <= i <= |rawData|
      invariant |parsedData| == i
      invariant forall j :: 0 <= j < i ==>
        && BlockTime(rawData[j]).Some?
        && parsedData[j] == Transaction(Get(rawData[j], "signature"), BlockTime(rawData[j]).value,
                                        BlockTime(rawData[j]).value + SellDelay, "SOL", 1.0)
    {
      var tx := rawData[i];
      var blockTime := BlockTime(tx);
      if blockTime.None? {
        return Err(TypeError);
      }
      parsedData := parsedData + [Transaction(Get(tx, "signature"), blockTime.value,
                                              blockTime.value + SellDelay, "SOL", 1.0)];
      i := i + 1;
    }
    r := Ok(parsedData);
  }
}
