/**
  verify_prompt_distribution.py: reads the prompts and the `chunk_prompts`
  rows, classifies every prompt id by how often it occurs in a chunk and
  declares the distribution correct when every prompt occurs exactly once.
  Printing is not modelled; the report is the values the script prints.
*/
module PromptDistribution {
  import opened Uuids
  import opened Sequences
  import opened ChunkMigration

  /**
    `SELECT prompt_id, count(id) FROM chunk_prompts GROUP BY prompt_id`: one
    entry per prompt id that occurs in some row, with its number of rows.
  */
  function PromptCounts(rows: seq<ChunkPrompt>): (counts: map<string, nat>)
    ensures forall p :: p in counts <==> p in PromptColumn(rows)
    ensures forall p :: p in counts ==> counts[p] == multiset(PromptColumn(rows))[p] >= 1
  {
    var column := PromptColumn(rows);
    map p | p in column :: multiset(column)[p]
  }

  /** Prompt ids in more than one row. */
  function Duplicates(rows: seq<ChunkPrompt>): set<string>
  {
    var counts := PromptCounts(rows);
    set p | p in counts && counts[p] > 1
  }

  /** Prompt ids in exactly one row. */
  function UniquePrompts(rows: seq<ChunkPrompt>): set<string>
  {
    var counts := PromptCounts(rows);
    set p | p in counts && counts[p] == 1
  }

  /** `all_prompt_ids - prompts_in_chunks`. */
  function MissingPrompts(prompts: set<string>, rows: seq<ChunkPrompt>): set<string>
  {
    prompts - PromptCounts(rows).Keys
  }

  /** The final verdict of the script. */
  predicate Passes(prompts: set<string>, rows: seq<ChunkPrompt>)
  {
    |UniquePrompts(rows)| == |prompts| && |Duplicates(rows)| == 0 && |MissingPrompts(prompts, rows)| == 0
  }

  /**
    `SELECT chunks.id, count(chunk_prompts.id) FROM chunks JOIN chunk_prompts ...
    GROUP BY chunks.id`: the inner join lists only the chunks that hold at
    least one row, and ignores rows whose chunk does not exist.
  */
  function ChunkSizes(chunks: seq<Uuid>, rows: seq<ChunkPrompt>): (sizes: map<Uuid, nat>)
    ensures forall c :: c in sizes <==> c in chunks && Members(rows, c) != []
    ensures forall c :: c in sizes ==> sizes[c] == |Members(rows, c)|
  {
    map c | c in chunks && |Members(rows, c)| > 0 :: |Members(rows, c)|
  }

  /**
    Every prompt id that occurs is either a duplicate or unique, never both,
    and a missing prompt is neither.
  */
  lemma Classification(prompts: set<string>, rows: seq<ChunkPrompt>)
    ensures Duplicates(rows) !! UniquePrompts(rows)
    ensures Duplicates(rows) + UniquePrompts(rows) == PromptCounts(rows).Keys
    ensures MissingPrompts(prompts, rows) !! Duplicates(rows) + UniquePrompts(rows)
  {
  }

  lemma {:induction false} CountsNoDuplicates<T>(a: seq<T>)
    ensures NoDuplicates(a) <==> forall x :: x in a ==> multiset(a)[x] == 1
  {
    if NoDuplicates(a) {
      forall x | x in a ensures multiset(a)[x] == 1 {
        NoDuplicatesCount(a, x);
      }
    } else {
      var i, j :| 0 <= i < j < |a| && a[i] == a[j];
      assert a == a[..i] + [a[i]] + a[i + 1..j] + [a[j]] + a[j + 1..];
      assert multiset(a)[a[i]] >= 2;
    }
  }

  /**
    The verdict is an exact test: the check passes if and only if every
    prompt occurs in exactly one row and no row names anything but a prompt.
  */
  lemma PassesIff(prompts: set<string>, rows: seq<ChunkPrompt>)
    ensures Passes(prompts, rows) <==>
      NoDuplicates(PromptColumn(rows)) && forall p :: p in PromptColumn(rows) <==> p in prompts
  {
    var column := PromptColumn(rows);
    var counts := PromptCounts(rows);
    CountsNoDuplicates(column);
    if Passes(prompts, rows) {
      assert UniquePrompts(rows) == counts.Keys;
      assert prompts <= counts.Keys;
    }
    if NoDuplicates(column) && forall p :: p in column <==> p in prompts {
      assert UniquePrompts(rows) == prompts;
      assert Duplicates(rows) == {};
      assert MissingPrompts(prompts, rows) == {};
    }
  }

  lemma PrefixNoDuplicates<T>(a: seq<T>, m: nat)
    requires NoDuplicates(a) && m <= |a|
    ensures NoDuplicates(a[..m])
  {
  }

  /**
    What the script reports on the migration's output: with n prompts in a
    duplicate-free shuffled order, the check passes exactly when n <= 300;
    otherwise the prompts past position 300 are missing.
  */
  lemma BuilderPassesIff(order: seq<string>, chunkIds: seq<Uuid>)
    requires NoDuplicates(order) && |chunkIds| == NumChunks
    ensures Passes((set p | p in order), Partition(order, chunkIds)) <==> |order| <= 300
    ensures |order| > 300 ==> MissingPrompts((set p | p in order), Partition(order, chunkIds)) != {}
  {
    var rows := Partition(order, chunkIds);
    var prompts := set p | p in order;
    PartitionPrompts(order, chunkIds);
    PrefixNoDuplicates(order, Min(300, |order|));
    PassesIff(prompts, rows);
    if |order| <= 300 {
      assert order[..Min(300, |order|)] == order;
    } else {
      var p := order[300];
      assert p !in PromptColumn(rows);
      assert p in MissingPrompts(prompts, rows);
    }
  }

  /**
    The chunk distribution the script prints for the migration's output:
    chunk i is listed if and only if 30 i < n, with min(30, n - 30 i) rows.
  */
  lemma BuilderChunkSizes(order: seq<string>, chunkIds: seq<Uuid>)
    requires NoDuplicates(chunkIds) && |chunkIds| == NumChunks
    ensures forall i :: 0 <= i < NumChunks ==>
      (chunkIds[i] in ChunkSizes(chunkIds, Partition(order, chunkIds)) <==> 30 * i < |order|)
    ensures forall i :: 0 <= i < NumChunks && 30 * i < |order| ==>
      ChunkSizes(chunkIds, Partition(order, chunkIds))[chunkIds[i]] == Min(30, |order| - 30 * i)
  {
    forall i | 0 <= i < NumChunks
      ensures |Members(Partition(order, chunkIds), chunkIds[i])| == |ChunkSlice(order, i)|
    {
      PartitionMembers(order, chunkIds, i);
    }
  }
}
