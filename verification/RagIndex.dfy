/** Incremental re-indexing of a RAG document (workers/handlers/rag.py). Page extraction, content-defined
    chunking and embedding are parameters; SHA-256 is taken to be injective. */
module RagIndex {
  import opened Common

  datatype Digest = Sha256(text: string)

  type Vector = seq<real>

  datatype ChunkStatus = Active | Orphaned

  datatype Chunk = Chunk(hash: Digest, text: string, embedding: Vector, pageIds: seq<Id>, status: ChunkStatus)

  datatype Page = Page(id: Id, number: nat, content: string)

  /** One element of the list `create_chunks_from_pages` builds. */
  datatype Piece = Piece(text: string, hash: Digest, pageIds: seq<Id>)

  datatype Entry = Entry(text: string, pageIds: seq<Id>)

  type Cutter = string -> seq<string>

  type Embedder = string -> Vector

  // ---- What the index of a document should be, from its pages alone ----

  /** How often the page yields the text as a chunk. */
  function CountText(texts: seq<string>, text: string): nat {
    if texts == [] then 0
    else CountText(texts[..|texts| - 1], text) + (if texts[|texts| - 1] == text then 1 else 0)
  }

  function Repeat(id: Id, n: nat): seq<Id> { seq(n, _ => id) }

  /** The chunks a page contributes. */
  function CutPage(page: Page, cut: Cutter): seq<string> {
    if IsBlank(page.content) then [] else cut(page.content)
  }

  /** The pages on which the text occurs as a chunk, once per occurrence and in page order. */
  function PagesOf(pages: seq<Page>, cut: Cutter, text: string): seq<Id> {
    if pages == [] then []
    else
      var last := pages[|pages| - 1];
      PagesOf(pages[..|pages| - 1], cut, text) + Repeat(last.id, CountText(CutPage(last, cut), text))
  }

  ghost predicate Occurs(pages: seq<Page>, cut: Cutter, text: string) {
    !IsBlank(text) && exists p :: p in pages && text in CutPage(p, cut)
  }

  /** The groups are exactly the document's non-blank chunk texts with their pages. */
  ghost predicate GroupsOf(groups: map<Digest, Entry>, pages: seq<Page>, cut: Cutter) {
    && (forall h :: h in groups <==> Occurs(pages, cut, h.text))
    && (forall h :: h in groups ==> groups[h] == Entry(h.text, PagesOf(pages, cut, h.text)))
  }

  // ---- Stored chunks ----

  /** At most one row per hash, and every row carries the text and the embedding of its hash. */
  ghost predicate Sound(chunks: seq<Chunk>, embed: Embedder) {
    && (forall i, j :: 0 <= i < j < |chunks| ==> chunks[i].hash != chunks[j].hash)
    && (forall i :: 0 <= i < |chunks| ==> RowSound(chunks[i], embed))
  }

  predicate RowSound(c: Chunk, embed: Embedder) {
    c.hash == Sha256(c.text) && c.embedding == embed(c.text)
  }

  function Hashes(chunks: seq<Chunk>): set<Digest> { set c | c in chunks :: c.hash }

  /** What a successful ingestion does to a row that was there before. */
  function Touched(c: Chunk, groups: map<Digest, Entry>): Chunk {
    if c.hash in groups then c.(pageIds := groups[c.hash].pageIds, status := Active)
    else if c.status.Active? then c.(status := Orphaned)
    else c
  }

  function NewChunk(h: Digest, entry: Entry, embed: Embedder): Chunk {
    Chunk(h, entry.text, embed(entry.text), entry.pageIds, Active)
  }

  /** The store after a successful ingestion: the old rows touched, then one new row for every hash that
      had none, in any order. */
  ghost predicate Reindexed(before: seq<Chunk>, after: seq<Chunk>, groups: map<Digest, Entry>, embed: Embedder) {
    && |before| <= |after|
    && (forall i :: 0 <= i < |before| ==> after[i] == Touched(before[i], groups))
    && (forall i :: |before| <= i < |after| ==> IsNew(after[i], before, groups, embed))
    && (forall i, j :: |before| <= i < j < |after| ==> after[i].hash != after[j].hash)
    && (forall h :: h in groups ==> h in Hashes(after))
  }

  ghost predicate IsNew(c: Chunk, before: seq<Chunk>, groups: map<Digest, Entry>, embed: Embedder) {
    c.hash in groups && c.hash !in Hashes(before) && c == NewChunk(c.hash, groups[c.hash], embed)
  }

  /** The rows retrieval can see, by hash. */
  ghost function ActiveIndex(chunks: seq<Chunk>, embed: Embedder): map<Digest, View>
    requires Sound(chunks, embed)
  {
    map i | 0 <= i < |chunks| && chunks[i].status.Active? :: chunks[i].hash := ViewOf(chunks[i])
  }

  /** The index of the groups, with no store involved. */
  function FromScratch(groups: map<Digest, Entry>, embed: Embedder): map<Digest, View> {
    map h | h in groups :: (groups[h].text, embed(groups[h].text), groups[h].pageIds)
  }

  predicate GroupsSound(groups: map<Digest, Entry>) {
    forall h :: h in groups ==> groups[h].text == h.text
  }

  /** Re-indexing keeps the store sound. */
  lemma ReindexKeepsSound(before: seq<Chunk>, after: seq<Chunk>, groups: map<Digest, Entry>, embed: Embedder)
    requires Sound(before, embed) && GroupsSound(groups) && Reindexed(before, after, groups, embed)
    ensures Sound(after, embed)
  {
    forall i, j | 0 <= i < j < |after| ensures after[i].hash != after[j].hash {
      if i < |before| <= j {
        assert before[i] in before && IsNew(after[j], before, groups, embed);
      }
    }
    forall i | 0 <= i < |after| ensures RowSound(after[i], embed) {
      if i < |before| {
        assert RowSound(before[i], embed);
      } else {
        assert IsNew(after[i], before, groups, embed);
      }
    }
  }

  type View = (string, Vector, seq<Id>)

  function ViewOf(c: Chunk): View { (c.text, c.embedding, c.pageIds) }

  /** An active row of the new store is exactly what its group calls for. */
  lemma ActiveRow(before: seq<Chunk>, after: seq<Chunk>, groups: map<Digest, Entry>, embed: Embedder, i: nat)
    requires Sound(before, embed) && GroupsSound(groups) && Reindexed(before, after, groups, embed)
    requires i < |after|
    ensures after[i].status.Active? <==> after[i].hash in groups
    ensures after[i].status.Active? ==> ViewOf(after[i]) == FromScratch(groups, embed)[after[i].hash]
  {
    if i < |before| {
      assert RowSound(before[i], embed);
    } else {
      assert IsNew(after[i], before, groups, embed);
    }
  }

  lemma ActiveIndexAt(chunks: seq<Chunk>, embed: Embedder, i: nat)
    requires Sound(chunks, embed) && i < |chunks| && chunks[i].status.Active?
    ensures chunks[i].hash in ActiveIndex(chunks, embed) && ActiveIndex(chunks, embed)[chunks[i].hash] == ViewOf(chunks[i])
  {
  }

  /** Whatever was stored before, the active rows afterwards are the document's index from scratch. */
  lemma IncrementalEqualsFromScratch(before: seq<Chunk>, after: seq<Chunk>, groups: map<Digest, Entry>, embed: Embedder)
    requires Sound(before, embed) && GroupsSound(groups) && Reindexed(before, after, groups, embed)
    ensures Sound(after, embed) && ActiveIndex(after, embed) == FromScratch(groups, embed)
  {
    ReindexKeepsSound(before, after, groups, embed);
    var index, scratch := ActiveIndex(after, embed), FromScratch(groups, embed);
    forall h | h in index ensures h in scratch && index[h] == scratch[h] {
      var i :| 0 <= i < |after| && after[i].status.Active? && after[i].hash == h;
      ActiveRow(before, after, groups, embed, i);
      ActiveIndexAt(after, embed, i);
    }
    forall h | h in scratch ensures h in index {
      var i :| 0 <= i < |after| && after[i].hash == h;
      ActiveRow(before, after, groups, embed, i);
      ActiveIndexAt(after, embed, i);
    }
  }

  lemma HashesOfReindexed(before: seq<Chunk>, after: seq<Chunk>, groups: map<Digest, Entry>, embed: Embedder)
    requires Reindexed(before, after, groups, embed)
    ensures Hashes(after) == Hashes(before) + groups.Keys
  {
    forall h | h in Hashes(after) ensures h in Hashes(before) + groups.Keys {
      var i :| 0 <= i < |after| && after[i].hash == h;
      if i < |before| {
        assert before[i] in before && after[i].hash == before[i].hash;
      } else {
        assert IsNew(after[i], before, groups, embed);
      }
    }
    forall h | h in Hashes(before) ensures h in Hashes(after) {
      var i :| 0 <= i < |before| && before[i].hash == h;
      assert after[i] in after && after[i].hash == h;
    }
  }

  lemma {:induction false} DistinctCount(chunks: seq<Chunk>)
    requires forall i, j :: 0 <= i < j < |chunks| ==> chunks[i].hash != chunks[j].hash
    ensures |Hashes(chunks)| == |chunks|
  {
    if chunks != [] {
      var init, last := chunks[..|chunks| - 1], chunks[|chunks| - 1];
      DistinctCount(init);
      assert chunks == init + [last];
      assert Hashes(chunks) == Hashes(init) + {last.hash};
      assert last.hash !in Hashes(init);
    }
  }

  // ---- A history of successful ingestions ----

  /** `stores[k + 1]` is what ingesting the k-th version leaves of `stores[k]`, from an empty store on;
      `logs[k]` lists the texts sent to the embedding provider so far. */
  ghost predicate History(stores: seq<seq<Chunk>>, logs: seq<seq<string>>, versions: seq<map<Digest, Entry>>, embed: Embedder) {
    && |stores| == |logs| == |versions| + 1
    && stores[0] == [] && logs[0] == []
    && forall k :: 0 <= k < |versions| ==>
         && GroupsSound(versions[k])
         && Reindexed(stores[k], stores[k + 1], versions[k], embed)
         && logs[k + 1] == logs[k] + TextsOf(stores[k + 1][|stores[k]|..])
  }

  function TextsOf(chunks: seq<Chunk>): seq<string> { seq(|chunks|, i requires 0 <= i < |chunks| => chunks[i].text) }

  /** The hashes of the first n versions. */
  ghost function Seen(versions: seq<map<Digest, Entry>>, n: nat): set<Digest>
    requires n <= |versions|
  {
    if n == 0 then {} else Seen(versions, n - 1) + versions[n - 1].Keys
  }

  /** After any number of versions: one row per hash ever seen, every text embedded exactly once and in
      the order of the rows, every vector the embedding of its own text, and the active rows are the
      last version's index from scratch. */
  lemma {:induction false} EmbedOnce(stores: seq<seq<Chunk>>, logs: seq<seq<string>>, versions: seq<map<Digest, Entry>>, embed: Embedder, n: nat)
    requires History(stores, logs, versions, embed) && n <= |versions|
    ensures Sound(stores[n], embed)
    ensures Hashes(stores[n]) == Seen(versions, n) && |stores[n]| == |Seen(versions, n)|
    ensures logs[n] == TextsOf(stores[n])
    ensures forall i, j :: 0 <= i < j < |logs[n]| ==> logs[n][i] != logs[n][j]
    ensures n > 0 ==> ActiveIndex(stores[n], embed) == FromScratch(versions[n - 1], embed)
  {
    if n > 0 {
      EmbedOnce(stores, logs, versions, embed, n - 1);
      var before, after, groups := stores[n - 1], stores[n], versions[n - 1];
      assert n == (n - 1) + 1;
      assert Reindexed(before, after, groups, embed) && GroupsSound(groups);
      IncrementalEqualsFromScratch(before, after, groups, embed);
      HashesOfReindexed(before, after, groups, embed);
      SameTexts(before, after, groups, embed);
    }
    DistinctCount(stores[n]);
    DistinctTexts(stores[n], embed);
  }

  lemma SameTexts(before: seq<Chunk>, after: seq<Chunk>, groups: map<Digest, Entry>, embed: Embedder)
    requires Reindexed(before, after, groups, embed)
    ensures TextsOf(after) == TextsOf(before) + TextsOf(after[|before|..])
  {
    assert forall i :: 0 <= i < |before| ==> after[i].text == before[i].text;
  }

  lemma DistinctTexts(chunks: seq<Chunk>, embed: Embedder)
    requires Sound(chunks, embed)
    ensures forall i, j :: 0 <= i < j < |chunks| ==> TextsOf(chunks)[i] != TextsOf(chunks)[j]
  {
    forall i, j | 0 <= i < j < |chunks| ensures TextsOf(chunks)[i] != TextsOf(chunks)[j] {
      assert RowSound(chunks[i], embed) && RowSound(chunks[j], embed);
    }
  }

  /** A hash that comes back is taken from orphaned to active with its stored vector. */
  lemma ReappearingHashRevives(before: seq<Chunk>, after: seq<Chunk>, groups: map<Digest, Entry>, embed: Embedder, i: nat)
    requires Reindexed(before, after, groups, embed) && i < |before| && before[i].hash in groups
    ensures i < |after| && after[i] == before[i].(status := Active, pageIds := groups[before[i].hash].pageIds)
  {
  }
}
