/**
 * The Supabase state the API routes read and write: the `profiles.credits`
 * column, the append-only `transactions` and `generations` tables, and the
 * object keys of the `screenshots` storage bucket.
 */
module Supabase {
  import opened JsRuntime
  import opened AiTypes

  datatype TxType = GenerationTx | RefundTx | PurchaseTx

  /** A `transactions` row: `amount` is in credits, except for purchases, where it is in currency units. */
  datatype Transaction = Transaction(userId: string, amount: real, txType: TxType, reason: Option<string>)

  /** A `generations` row as the generate route inserts it. */
  datatype GenerationRow = GenerationRow(userId: string, imageUrl: string, inputContext: CopyContext, outputCopy: Json)

  /** The three tables at one moment. */
  datatype Db = Db(credits: map<string, int>, transactions: seq<Transaction>, generations: seq<GenerationRow>)

  class Ledger {
    /** `profiles.credits` by user id; a user without a profile row has no key. */
    var credits: map<string, int>
    var transactions: seq<Transaction>
    var generations: seq<GenerationRow>

    function Snapshot(): Db
      reads this
    {
      Db(credits, transactions, generations)
    }

    constructor (credits0: map<string, int>)
      ensures credits == credits0 && transactions == [] && generations == []
    {
      credits := credits0;
      transactions := [];
      generations := [];
    }

    /** `.from('profiles').update({ credits: v }).eq('id', user)`: no row, nothing updated. */
    method UpdateCredits(user: string, v: int)
      modifies this
      ensures credits == if user in old(credits) then old(credits)[user := v] else old(credits)
      ensures transactions == old(transactions) && generations == old(generations)
    {
      if user in credits {
        credits := credits[user := v];
      }
    }

    /** `.from('profiles').upsert({ id: user, credits: v })` */
    method UpsertCredits(user: string, v: int)
      modifies this
      ensures credits == old(credits)[user := v]
      ensures transactions == old(transactions) && generations == old(generations)
    {
      credits := credits[user := v];
    }

    method LogTransaction(tx: Transaction)
      modifies this
      ensures transactions == old(transactions) + [tx]
      ensures credits == old(credits) && generations == old(generations)
    {
      transactions := transactions + [tx];
    }

    method InsertGeneration(row: GenerationRow)
      modifies this
      ensures generations == old(generations) + [row]
      ensures credits == old(credits) && transactions == old(transactions)
    {
      generations := generations + [row];
    }
  }

  class Bucket {
    var objects: seq<string>

    constructor ()
      ensures objects == []
    {
      objects := [];
    }

    method Upload(key: string)
      modifies this
      ensures objects == old(objects) + [key]
    {
      objects := objects + [key];
    }
  }
}
