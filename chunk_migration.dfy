/**
  The one-off migration that splits the prompts into chunks
  (migrations/versions/7eb89d369ccc_create_fixed_10_chunks_for_all_prompts.py).
  `upgrade` empties both chunk tables, shuffles the prompt ids and creates ten
  chunks, chunk i receiving the shuffled ids at positions [30i, min(30i + 30, n));
  `downgrade` empties both tables again.
*/
module ChunkMigration {
  import opened Uuids
  import opened Sequences

  const NumChunks: nat := 10
  const ChunkSize: nat := 30

  /** A row of `chunk_prompts` (its own surrogate id is not modelled). */
  datatype ChunkPrompt = ChunkPrompt(chunkId: Uuid, promptId: string)

  function Min(a: int, b: int): int
  {
    if a <= b then a else b
  }

  /** Where chunk i's slice starts, 30 i, clamped to the list's length. */
  function Lo(i: nat, n: nat): nat
  {
    Min(30 * i, n)
  }

  /** Where chunk i's slice ends, min(30 i + 30, n). */
  function Hi(i: nat, n: nat): nat
  {
    Min(30 * i + 30, n)
  }

  /**
    `ids[start:end]` with `start = i * chunk_size` and `end = min(start +
    chunk_size, len(ids))`; Python gives [] when start is past end.
  */
  function ChunkSlice(ids: seq<string>, i: nat): (r: seq<string>)
    ensures |r| <= ChunkSize
    ensures r == ids[Lo(i, |ids|)..Hi(i, |ids|)]
  {
    var start := i * 30;
    var end := Min(start + 30, |ids|);
    if start >= end then [] else ids[start..end]
  }

  /**
    The first `m` rows the two loops insert into `chunk_prompts`: the j-th
    row goes to chunk j / 30 and holds the j-th shuffled id.
  */
  function Layout(ids: seq<string>, chunkIds: seq<Uuid>, m: nat): seq<ChunkPrompt>
    requires m <= |ids| && m <= 30 * |chunkIds|
  {
    seq(m, j requires 0 <= j < m => ChunkPrompt(chunkIds[j / 30], ids[j]))
  }

  /** All rows `upgrade` inserts: the first min(300, n) shuffled ids, in chunks of 30. */
  function Partition(ids: seq<string>, chunkIds: seq<Uuid>): (rows: seq<ChunkPrompt>)
    requires |chunkIds| == NumChunks
    ensures |rows| == Min(NumChunks * ChunkSize, |ids|)
  {
    Layout(ids, chunkIds, Lo(10, |ids|))
  }

  /** The prompt_id column of a list of rows. */
  function PromptColumn(rows: seq<ChunkPrompt>): (r: seq<string>)
    ensures |r| == |rows|
    ensures forall j :: 0 <= j < |rows| ==> r[j] == rows[j].promptId
  {
    seq(|rows|, j requires 0 <= j < |rows| => rows[j].promptId)
  }

  /** The prompt ids among the first `m` rows that belong to chunk `c`, in insertion order. */
  function MembersUpTo(rows: seq<ChunkPrompt>, c: Uuid, m: nat): seq<string>
    requires m <= |rows|
  {
    if m == 0 then []
    else MembersUpTo(rows, c, m - 1) + (if rows[m - 1].chunkId == c then [rows[m - 1].promptId] else [])
  }

  /** The prompt ids of chunk `c`. */
  function Members(rows: seq<ChunkPrompt>, c: Uuid): seq<string>
  {
    MembersUpTo(rows, c, |rows|)
  }

  // ---------------------------------------------------------------- facts about the slicing

  /** Inserting the k-th id of chunk i's slice extends the layout by one row. */
  lemma SliceStepLayout(ids: seq<string>, chunkIds: seq<Uuid>, i: nat, k: nat)
    requires i < |chunkIds| && k < |ChunkSlice(ids, i)|
    ensures Lo(i, |ids|) + k < |ids| && Lo(i, |ids|) + k < 30 * |chunkIds|
    ensures Layout(ids, chunkIds, Lo(i, |ids|) + k + 1)
         == Layout(ids, chunkIds, Lo(i, |ids|) + k) + [ChunkPrompt(chunkIds[i], ChunkSlice(ids, i)[k])]
  {
    var m := Lo(i, |ids|) + k;
    assert m == 30 * i + k;
    assert m / 30 == i;
    LayoutStep(ids, chunkIds, m);
  }

  /** After chunk i's slice the layout has reached chunk i + 1's start. */
  lemma SliceEnd(ids: seq<string>, i: nat)
    ensures Lo(i, |ids|) + |ChunkSlice(ids, i)| == Lo(i + 1, |ids|)
  {
  }

  lemma LayoutStep(ids: seq<string>, chunkIds: seq<Uuid>, m: nat)
    requires m < |ids| && m < 30 * |chunkIds|
    ensures m / 30 < |chunkIds|
    ensures Layout(ids, chunkIds, m + 1) == Layout(ids, chunkIds, m) + [ChunkPrompt(chunkIds[m / 30], ids[m])]
  {
  }

  /**
    The prompt ids of the rows, read in insertion order, are the first
    min(300, n) shuffled ids: the ten slices tile a prefix of the list.
  */
  lemma PartitionPrompts(ids: seq<string>, chunkIds: seq<Uuid>)
    requires |chunkIds| == NumChunks
    ensures PromptColumn(Partition(ids, chunkIds)) == ids[..Min(300, |ids|)]
  {
  }

  lemma SliceStep(ids: seq<string>, i: nat, m: nat)
    requires m < |ids|
    ensures ids[Min(30 * i, m + 1)..Min(30 * i + 30, m + 1)]
         == ids[Min(30 * i, m)..Min(30 * i + 30, m)] + (if 30 * i <= m < 30 * i + 30 then [ids[m]] else [])
  {
    if 30 * i <= m < 30 * i + 30 {
      assert ids[30 * i..m + 1] == ids[30 * i..m] + [ids[m]];
    }
  }

  lemma {:induction false} LayoutMembersUpTo(ids: seq<string>, chunkIds: seq<Uuid>, total: nat, i: nat, m: nat)
    requires total <= |ids| && total <= 30 * |chunkIds| && m <= total
    requires i < |chunkIds| && NoDuplicates(chunkIds)
    ensures MembersUpTo(Layout(ids, chunkIds, total), chunkIds[i], m)
         == ids[Min(30 * i, m)..Min(30 * i + 30, m)]
  {
    if m > 0 {
      LayoutMembersUpTo(ids, chunkIds, total, i, m - 1);
      var rows := Layout(ids, chunkIds, total);
      var q := (m - 1) / 30;
      assert rows[m - 1] == ChunkPrompt(chunkIds[q], ids[m - 1]);
      assert chunkIds[q] == chunkIds[i] <==> q == i;
      assert q == i <==> 30 * i <= m - 1 < 30 * i + 30;
      SliceStep(ids, i, m - 1);
    }
  }

  /**
    With distinct chunk ids, chunk i holds exactly `ids[30i : min(30i + 30, n)]`,
    in that order; for n > 300 the ids past position 300 are in no chunk.
  */
  lemma PartitionMembers(ids: seq<string>, chunkIds: seq<Uuid>, i: nat)
    requires |chunkIds| == NumChunks && NoDuplicates(chunkIds) && i < NumChunks
    ensures Members(Partition(ids, chunkIds), chunkIds[i]) == ChunkSlice(ids, i)
  {
    var total := Lo(10, |ids|);
    LayoutMembersUpTo(ids, chunkIds, total, i, total);
    assert Min(30 * i, total) == Lo(i, |ids|) && Min(30 * i + 30, total) == Hi(i, |ids|);
  }

  lemma {:induction false} LayoutMembersOther(ids: seq<string>, chunkIds: seq<Uuid>, total: nat, c: Uuid, m: nat)
    requires total <= |ids| && total <= 30 * |chunkIds| && m <= total && c !in chunkIds
    ensures MembersUpTo(Layout(ids, chunkIds, total), c, m) == []
  {
    if m > 0 {
      LayoutMembersOther(ids, chunkIds, total, c, m - 1);
      assert Layout(ids, chunkIds, total)[m - 1].chunkId == chunkIds[(m - 1) / 30];
    }
  }

  /** A chunk id that was not drawn holds no prompt. */
  lemma PartitionMembersOther(ids: seq<string>, chunkIds: seq<Uuid>, c: Uuid)
    requires |chunkIds| == NumChunks && c !in chunkIds
    ensures Members(Partition(ids, chunkIds), c) == []
  {
    LayoutMembersOther(ids, chunkIds, Lo(10, |ids|), c, Lo(10, |ids|));
  }

  /**
    uq_chunk_prompts_chunk_prompt never fires: the rows are pairwise distinct,
    indeed their prompt ids are, since they are a prefix of a duplicate-free list.
  */
  lemma PartitionDistinct(ids: seq<string>, chunkIds: seq<Uuid>)
    requires |chunkIds| == NumChunks && NoDuplicates(ids)
    ensures NoDuplicates(PromptColumn(Partition(ids, chunkIds)))
    ensures NoDuplicates(Partition(ids, chunkIds))
  {
    var rows := Partition(ids, chunkIds);
    forall i, j | 0 <= i < j < |rows| ensures rows[i] != rows[j] {
      assert rows[i].promptId == ids[i] && rows[j].promptId == ids[j];
    }
  }

  /** The two tables the migration writes. */
  class ChunkTables {
    var chunks: seq<Uuid>
    var chunkPrompts: seq<ChunkPrompt>

    /**
      upgrade(): `promptIds` is `SELECT id FROM prompts ORDER BY id`, hence free
      of duplicates; `chunkIds` are the ten `uuid4()` draws; `order` is the list
      after `random.shuffle`. A chunk id drawn twice violates the primary key of
      `chunks`: the transaction is rolled back and nothing changes.
    */
    method Upgrade(promptIds: seq<string>, chunkIds: seq<Uuid>) returns (ok: bool, ghost order: seq<string>)
      requires NoDuplicates(promptIds)
      requires |chunkIds| == NumChunks
      modifies this
      ensures ok <==> promptIds == [] || NoDuplicates(chunkIds)
      ensures !ok ==> chunks == old(chunks) && chunkPrompts == old(chunkPrompts)
      ensures ok && promptIds == [] ==> chunks == [] && chunkPrompts == []
      ensures ok && promptIds != [] ==>
        && multiset(order) == multiset(promptIds) && NoDuplicates(order)
        && chunks == chunkIds
        && chunkPrompts == Partition(order, chunkIds)
      ensures ok ==> NoDuplicates(chunkPrompts)
    {
      var savedChunks, savedRows := chunks, chunkPrompts;
      chunkPrompts := [];
      chunks := [];
      if |promptIds| == 0 {
        return true, [];
      }
      var ids: seq<string> :| multiset(ids) == multiset(promptIds);
      PermutationNoDuplicates(promptIds, ids);
      order := ids;
      var n := |ids|;
      var i := 0;
      while i < NumChunks
        invariant 0 <= i <= NumChunks
        invariant chunks == chunkIds[..i] && NoDuplicates(chunks)
        invariant chunkPrompts == Layout(ids, chunkIds, Lo(i, n))
      {
        if chunkIds[i] in chunks {
          chunks, chunkPrompts := savedChunks, savedRows;
          assert !NoDuplicates(chunkIds) by {
            var j :| 0 <= j < i && chunkIds[j] == chunkIds[i];
          }
          return false, ids;
        }
        chunks := chunks + [chunkIds[i]];
        assert chunks == chunkIds[..i + 1];
        InsertSlice(ids, chunkIds, i);
        i := i + 1;
      }
      assert chunkIds[..NumChunks] == chunkIds;
      ok := true;
      PartitionDistinct(ids, chunkIds);
    }

    /** The inner loop of upgrade(): one `chunk_prompts` row per id of chunk i's slice, in order. */
    method InsertSlice(ids: seq<string>, chunkIds: seq<Uuid>, i: nat)
      requires i < |chunkIds| && chunkPrompts == Layout(ids, chunkIds, Lo(i, |ids|))
      modifies this`chunkPrompts
      ensures chunkPrompts == Layout(ids, chunkIds, Lo(i + 1, |ids|))
    {
      var slice := ChunkSlice(ids, i);
      var k := 0;
      while k < |slice|
        invariant 0 <= k <= |slice|
        invariant chunkPrompts == Layout(ids, chunkIds, Lo(i, |ids|) + k)
      {
        SliceStepLayout(ids, chunkIds, i, k);
        chunkPrompts := chunkPrompts + [ChunkPrompt(chunkIds[i], slice[k])];
        k := k + 1;
      }
      SliceEnd(ids, i);
    }

    /** downgrade(): both tables are emptied. */
    method Downgrade()
      modifies this
      ensures chunks == [] && chunkPrompts == []
    {
      chunkPrompts := [];
      chunks := [];
    }
  }
}
