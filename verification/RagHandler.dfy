/** The ingestion handler itself: the loops of workers/handlers/rag.py over the document's rows. */
module RagHandler {
  import opened Common
  import opened RagIndex

  // ---- Chunks of a document, in reading order ----

  function PagePieces(texts: seq<string>, id: Id): seq<Piece> {
    if texts == [] then []
    else
      var last := texts[|texts| - 1];
      var pieces := PagePieces(texts[..|texts| - 1], id);
      if IsBlank(last) then pieces else pieces + [Piece(last, Sha256(last), [id])]
  }

  function Pieces(pages: seq<Page>, cut: Cutter): seq<Piece> {
    if pages == [] then []
    else
      var last := pages[|pages| - 1];
      Pieces(pages[..|pages| - 1], cut) + PagePieces(CutPage(last, cut), last.id)
  }

  /** The page ids of the pieces with this hash, in order. */
  function IdsIn(pieces: seq<Piece>, h: Digest): seq<Id> {
    if pieces == [] then []
    else
      var last := pieces[|pieces| - 1];
      var ids := IdsIn(pieces[..|pieces| - 1], h);
      if last.hash == h then ids + last.pageIds else ids
  }

  function PieceHashes(pieces: seq<Piece>): set<Digest> { set p | p in pieces :: p.hash }

  /** `chunks_by_hash` for a list of pieces. */
  function Group(pieces: seq<Piece>): map<Digest, Entry> {
    map h | h in PieceHashes(pieces) :: Entry(h.text, IdsIn(pieces, h))
  }

  /** The index of a document as grouped pieces. */
  function Document(pages: seq<Page>, cut: Cutter): map<Digest, Entry> { Group(Pieces(pages, cut)) }

  lemma IdsSnoc(pieces: seq<Piece>, p: Piece, h: Digest)
    ensures IdsIn(pieces + [p], h) == if p.hash == h then IdsIn(pieces, h) + p.pageIds else IdsIn(pieces, h)
  {
    assert (pieces + [p])[..|pieces|] == pieces;
  }

  lemma {:induction false} IdsAppend(a: seq<Piece>, b: seq<Piece>, h: Digest)
    ensures IdsIn(a + b, h) == IdsIn(a, h) + IdsIn(b, h)
  {
    if b == [] {
      assert a + b == a;
    } else {
      var init, last := b[..|b| - 1], b[|b| - 1];
      assert a + b == (a + init) + [last];
      IdsAppend(a, init, h);
      IdsSnoc(a + init, last, h);
    }
  }

  lemma RepeatOnce(id: Id, n: nat)
    ensures Repeat(id, n) + [id] == Repeat(id, n + 1)
  {
  }

  lemma {:induction false} PagePieceIds(texts: seq<string>, id: Id, h: Digest)
    requires !IsBlank(h.text)
    ensures IdsIn(PagePieces(texts, id), h) == Repeat(id, CountText(texts, h.text))
  {
    if texts != [] {
      var init, last := texts[..|texts| - 1], texts[|texts| - 1];
      PagePieceIds(init, id, h);
      if !IsBlank(last) {
        IdsSnoc(PagePieces(init, id), Piece(last, Sha256(last), [id]), h);
        assert h == Sha256(h.text);
        RepeatOnce(id, CountText(init, h.text));
      }
    }
  }

  lemma {:induction false} PagePieceTexts(texts: seq<string>, id: Id)
    ensures forall p :: p in PagePieces(texts, id) ==> p == Piece(p.text, Sha256(p.text), [id]) && p.text in texts && !IsBlank(p.text)
    ensures forall t :: t in texts && !IsBlank(t) ==> Piece(t, Sha256(t), [id]) in PagePieces(texts, id)
  {
    if texts != [] {
      var init, last := texts[..|texts| - 1], texts[|texts| - 1];
      PagePieceTexts(init, id);
      assert texts == init + [last];
    }
  }

  lemma {:induction false} PieceIds(pages: seq<Page>, cut: Cutter, h: Digest)
    requires !IsBlank(h.text)
    ensures IdsIn(Pieces(pages, cut), h) == PagesOf(pages, cut, h.text)
  {
    if pages != [] {
      var init, last := pages[..|pages| - 1], pages[|pages| - 1];
      PieceIds(init, cut, h);
      PagePieceIds(CutPage(last, cut), last.id, h);
      IdsAppend(Pieces(init, cut), PagePieces(CutPage(last, cut), last.id), h);
    }
  }

  lemma {:induction false} PieceTexts(pages: seq<Page>, cut: Cutter)
    ensures forall p :: p in Pieces(pages, cut) ==> p.hash == Sha256(p.text) && Occurs(pages, cut, p.text)
    ensures forall t :: Occurs(pages, cut, t) ==> Sha256(t) in PieceHashes(Pieces(pages, cut))
  {
    if pages != [] {
      var init, last := pages[..|pages| - 1], pages[|pages| - 1];
      var all := Pieces(pages, cut);
      PieceTexts(init, cut);
      PagePieceTexts(CutPage(last, cut), last.id);
      assert pages == init + [last];
      forall t | Occurs(pages, cut, t) ensures Sha256(t) in PieceHashes(all) {
        var page :| page in pages && t in CutPage(page, cut);
        if page == last {
          assert Piece(t, Sha256(t), [last.id]) in all;
        } else {
          assert page in init && Occurs(init, cut, t);
          var q :| q in Pieces(init, cut) && q.hash == Sha256(t);
          assert q in all;
        }
      }
    }
  }

  /** Grouping the pieces gives exactly the non-blank chunk texts of the document, each with the pages it
      occurs on, in page order and once per occurrence. */
  lemma DocumentIsGrouped(pages: seq<Page>, cut: Cutter)
    ensures GroupsOf(Document(pages, cut), pages, cut) && GroupsSound(Document(pages, cut))
  {
    var groups := Document(pages, cut);
    PieceTexts(pages, cut);
    forall h ensures h in groups <==> Occurs(pages, cut, h.text) {
      assert h == Sha256(h.text);
    }
    forall h | h in groups ensures groups[h] == Entry(h.text, PagesOf(pages, cut, h.text)) {
      PieceIds(pages, cut, h);
    }
  }

  lemma GroupSnoc(pieces: seq<Piece>, p: Piece)
    ensures Group(pieces + [p]) ==
            Group(pieces)[p.hash := Entry(p.hash.text, IdsIn(pieces, p.hash) + p.pageIds)]
  {
    var all := pieces + [p];
    assert PieceHashes(all) == PieceHashes(pieces) + {p.hash} by {
      assert forall q :: q in all <==> q in pieces || q == p;
    }
    forall h | h in PieceHashes(all)
      ensures IdsIn(all, h) == if p.hash == h then IdsIn(pieces, h) + p.pageIds else IdsIn(pieces, h)
    {
      IdsSnoc(pieces, p, h);
    }
  }

  lemma {:induction false} NotGrouped(pieces: seq<Piece>, h: Digest)
    requires h !in PieceHashes(pieces)
    ensures IdsIn(pieces, h) == []
  {
    if pieces != [] {
      var init, last := pieces[..|pieces| - 1], pieces[|pieces| - 1];
      assert pieces == init + [last] && last in pieces;
      assert PieceHashes(init) <= PieceHashes(pieces);
      NotGrouped(init, h);
    }
  }

  /** The grouping with one more piece, as the loop computes it. */
  lemma GroupNext(pieces: seq<Piece>, i: nat)
    requires i < |pieces| && pieces[i].hash == Sha256(pieces[i].text)
    ensures var p, groups := pieces[i], Group(pieces[..i]);
            Group(pieces[..i + 1])
            == if p.hash in groups then groups[p.hash := groups[p.hash].(pageIds := groups[p.hash].pageIds + p.pageIds)]
               else groups[p.hash := Entry(p.text, p.pageIds)]
  {
    assert pieces[..i + 1] == pieces[..i] + [pieces[i]];
    GroupSnoc(pieces[..i], pieces[i]);
    if pieces[i].hash !in Group(pieces[..i]) {
      NotGrouped(pieces[..i], pieces[i].hash);
      assert [] + pieces[i].pageIds == pieces[i].pageIds;
    }
  }

  /** `chunks_by_hash`, built in one pass. */
  method GroupByHash(pieces: seq<Piece>) returns (groups: map<Digest, Entry>)
    requires forall p :: p in pieces ==> p.hash == Sha256(p.text)
    ensures groups == Group(pieces)
  {
    groups := map[];
    var i := 0;
    while i < |pieces|
      invariant 0 <= i <= |pieces| && groups == Group(pieces[..i])
    {
      var p := pieces[i];
      assert p in pieces;
      GroupNext(pieces, i);
      if p.hash in groups {
        groups := groups[p.hash := groups[p.hash].(pageIds := groups[p.hash].pageIds + p.pageIds)];
      } else {
        groups := groups[p.hash := Entry(p.text, p.pageIds)];
      }
      i := i + 1;
    }
    assert pieces[..|pieces|] == pieces;
  }

  /** The loop's next chunk, appended to what came before the page. */
  lemma PagePiecesNext(before: seq<Piece>, texts: seq<string>, j: nat, id: Id)
    requires j < |texts|
    ensures IsBlank(texts[j]) ==> before + PagePieces(texts[..j + 1], id) == before + PagePieces(texts[..j], id)
    ensures !IsBlank(texts[j]) ==>
              before + PagePieces(texts[..j + 1], id)
              == before + PagePieces(texts[..j], id) + [Piece(texts[j], Sha256(texts[j]), [id])]
  {
    assert texts[..j + 1][..j] == texts[..j];
  }

  lemma PiecesNext(pages: seq<Page>, i: nat, cut: Cutter)
    requires i < |pages|
    ensures Pieces(pages[..i + 1], cut) == Pieces(pages[..i], cut) + PagePieces(CutPage(pages[i], cut), pages[i].id)
  {
    assert pages[..i + 1][..i] == pages[..i];
  }

  /** The inner loop, over the chunks of one page. */
  method AppendPage(before: seq<Piece>, texts: seq<string>, id: Id) returns (pieces: seq<Piece>)
    ensures pieces == before + PagePieces(texts, id)
  {
    pieces := before;
    var j := 0;
    while j < |texts|
      invariant 0 <= j <= |texts| && pieces == before + PagePieces(texts[..j], id)
    {
      PagePiecesNext(before, texts, j, id);
      if !IsBlank(texts[j]) {
        pieces := pieces + [Piece(texts[j], Sha256(texts[j]), [id])];
      }
      j := j + 1;
    }
    assert texts[..|texts|] == texts;
  }

  /** `create_chunks_from_pages`. */
  method CreateChunksFromPages(pages: seq<Page>, cut: Cutter) returns (pieces: seq<Piece>)
    ensures pieces == Pieces(pages, cut)
  {
    pieces := [];
    var i := 0;
    while i < |pages|
      invariant 0 <= i <= |pages| && pieces == Pieces(pages[..i], cut)
    {
      var page := pages[i];
      if !IsBlank(page.content) {
        pieces := AppendPage(pieces, cut(page.content), page.id);
      }
      PiecesNext(pages, i, cut);
      i := i + 1;
    }
    assert pages[..|pages|] == pages;
  }

  // ---- Pages ----

  /** The page rows built from the extracted texts: one per text, in order, numbered from 1. */
  function NumberPages(texts: seq<string>, ids: seq<Id>): (pages: seq<Page>)
    requires |ids| == |texts|
    ensures |pages| == |texts|
    ensures forall i :: 0 <= i < |texts| ==> pages[i].id == ids[i] && pages[i].number == i + 1 && pages[i].content == texts[i]
  {
    seq(|texts|, i requires 0 <= i < |texts| => Page(ids[i], i + 1, texts[i]))
  }

  /** The loop that builds `new_pages`. */
  method BuildPages(texts: seq<string>, ids: seq<Id>) returns (pages: seq<Page>)
    requires |ids| == |texts|
    ensures pages == NumberPages(texts, ids)
  {
    pages := [];
    for i := 0 to |texts|
      invariant |pages| == i && forall k :: 0 <= k < i ==> pages[k] == NumberPages(texts, ids)[k]
    {
      pages := pages + [Page(ids[i], i + 1, texts[i])];
    }
  }

  /** How often the i-th extracted text yields the chunk. */
  function Multiplicity(page: string, cut: Cutter, text: string): nat {
    if IsBlank(page) then 0 else multiset(cut(page))[text]
  }

  /** The ids of the texts that yield the chunk, in order and once per occurrence. */
  function Listing(texts: seq<string>, ids: seq<Id>, cut: Cutter, text: string): seq<Id>
    requires |ids| == |texts|
  {
    if texts == [] then []
    else
      var n := |texts| - 1;
      Listing(texts[..n], ids[..n], cut, text) + Repeat(ids[n], Multiplicity(texts[n], cut, text))
  }

  lemma {:induction false} CountIsMultiplicity(texts: seq<string>, text: string)
    ensures CountText(texts, text) == multiset(texts)[text]
  {
    if texts != [] {
      CountIsMultiplicity(texts[..|texts| - 1], text);
      assert texts == texts[..|texts| - 1] + [texts[|texts| - 1]];
    }
  }

  lemma {:induction false} PagesOfIsListing(texts: seq<string>, ids: seq<Id>, cut: Cutter, text: string)
    requires |ids| == |texts|
    ensures PagesOf(NumberPages(texts, ids), cut, text) == Listing(texts, ids, cut, text)
  {
    if texts != [] {
      var n := |texts| - 1;
      PagesOfIsListing(texts[..n], ids[..n], cut, text);
      assert NumberPages(texts, ids)[..n] == NumberPages(texts[..n], ids[..n]);
      CountIsMultiplicity(cut(texts[n]), text);
    }
  }

  /** With distinct ids, a page is listed exactly as often as it yields the chunk. */
  lemma {:induction false} ListedAsOften(texts: seq<string>, ids: seq<Id>, cut: Cutter, text: string, i: nat)
    requires |ids| == |texts| && i < |texts|
    requires forall j, k :: 0 <= j < k < |ids| ==> ids[j] != ids[k]
    ensures multiset(Listing(texts, ids, cut, text))[ids[i]] == Multiplicity(texts[i], cut, text)
  {
    var n := |texts| - 1;
    RepeatCount(ids[n], Multiplicity(texts[n], cut, text), ids[i]);
    if i < n {
      ListedAsOften(texts[..n], ids[..n], cut, text, i);
    } else {
      OnlyListed(texts[..n], ids[..n], cut, text);
      assert ids[n] !in ids[..n];
    }
  }

  lemma {:induction false} RepeatCount(id: Id, n: nat, other: Id)
    ensures multiset(Repeat(id, n))[other] == if other == id then n else 0
  {
    if n > 0 {
      RepeatCount(id, n - 1, other);
      assert Repeat(id, n) == Repeat(id, n - 1) + [id];
    } else {
      assert Repeat(id, 0) == [];
    }
  }

  lemma {:induction false} OnlyListed(texts: seq<string>, ids: seq<Id>, cut: Cutter, text: string)
    requires |ids| == |texts|
    ensures forall id :: id in Listing(texts, ids, cut, text) ==> id in ids
  {
    if texts != [] {
      OnlyListed(texts[..|texts| - 1], ids[..|texts| - 1], cut, text);
    }
  }

  /** The extracted texts yield the chunk. */
  ghost predicate Yields(texts: seq<string>, cut: Cutter, text: string) {
    !IsBlank(text) && exists i :: 0 <= i < |texts| && !IsBlank(texts[i]) && text in cut(texts[i])
  }

  lemma OccursIsYields(texts: seq<string>, ids: seq<Id>, cut: Cutter, text: string)
    requires |ids| == |texts|
    ensures Occurs(NumberPages(texts, ids), cut, text) <==> Yields(texts, cut, text)
  {
    var pages := NumberPages(texts, ids);
    if Occurs(pages, cut, text) {
      var p :| p in pages && text in CutPage(p, cut);
      var i :| 0 <= i < |pages| && pages[i] == p;
      assert text in cut(texts[i]);
    }
    if Yields(texts, cut, text) {
      var i :| 0 <= i < |texts| && !IsBlank(texts[i]) && text in cut(texts[i]);
      assert pages[i] in pages && text in CutPage(pages[i], cut);
    }
  }

  /** The active rows, said of the extracted texts alone: one for each chunk they yield, with its embedding
      and the ids of the pages it is on, in page order and once per occurrence. */
  ghost predicate Serves(chunks: seq<Chunk>, texts: seq<string>, ids: seq<Id>, cut: Cutter, embed: Embedder)
    requires |ids| == |texts|
  {
    && (forall i :: 0 <= i < |chunks| && chunks[i].status.Active? ==>
          && Yields(texts, cut, chunks[i].text)
          && chunks[i].pageIds == Listing(texts, ids, cut, chunks[i].text)
          && chunks[i].embedding == embed(chunks[i].text))
    && (forall text :: Yields(texts, cut, text) ==> HasActive(chunks, text))
    && (forall i, j :: 0 <= i < j < |chunks| ==> chunks[i].text != chunks[j].text)
  }

  ghost predicate HasActive(chunks: seq<Chunk>, text: string) {
    exists i :: 0 <= i < |chunks| && chunks[i].status.Active? && chunks[i].text == text
  }

  lemma ReindexedServes(before: seq<Chunk>, after: seq<Chunk>, texts: seq<string>, ids: seq<Id>, cut: Cutter, embed: Embedder)
    requires |ids| == |texts| && Sound(before, embed)
    requires Reindexed(before, after, Document(NumberPages(texts, ids), cut), embed)
    ensures Serves(after, texts, ids, cut, embed)
  {
    var pages := NumberPages(texts, ids);
    var groups := Document(pages, cut);
    DocumentIsGrouped(pages, cut);
    ReindexKeepsSound(before, after, groups, embed);
    forall i | 0 <= i < |after| && after[i].status.Active?
      ensures Yields(texts, cut, after[i].text) && after[i].pageIds == Listing(texts, ids, cut, after[i].text)
              && after[i].embedding == embed(after[i].text)
    {
      ActiveRow(before, after, groups, embed, i);
      assert RowSound(after[i], embed);
      OccursIsYields(texts, ids, cut, after[i].text);
      PagesOfIsListing(texts, ids, cut, after[i].text);
    }
    forall text | Yields(texts, cut, text) ensures HasActive(after, text) {
      OccursIsYields(texts, ids, cut, text);
      var h := Sha256(text);
      assert h in groups && h in Hashes(after);
      var i :| 0 <= i < |after| && after[i].hash == h;
      ActiveRow(before, after, groups, embed, i);
      assert RowSound(after[i], embed);
    }
    forall i, j | 0 <= i < j < |after| ensures after[i].text != after[j].text {
      assert RowSound(after[i], embed) && RowSound(after[j], embed);
    }
  }

  datatype Status = Waiting | InProgress | Processed

  datatype Ingestion = Done | DeletedNoText | DeletedNoChunks | DeletedEmbeddingFailed

  /** The rows of one document, plus every text that has been sent to the embedding provider for it. */
  class RagDocument {
    var exists_: bool
    var status: Status
    var pages: seq<Page>
    var chunks: seq<Chunk>
    var embedded: seq<string>

    constructor ()
      ensures exists_ && pages == [] && chunks == [] && embedded == []
    {
      exists_, status, pages, chunks, embedded := true, Waiting, [], [], [];
    }

    /** `existing_by_hash`. */
    method LoadExisting(embed: Embedder) returns (existing: map<Digest, nat>)
      requires Sound(chunks, embed)
      ensures existing.Keys == Hashes(chunks)
      ensures forall h :: h in existing ==> existing[h] < |chunks| && chunks[existing[h]].hash == h
    {
      existing := map[];
      var i := 0;
      while i < |chunks|
        invariant 0 <= i <= |chunks| && existing.Keys == Hashes(chunks[..i])
        invariant forall h :: h in existing ==> existing[h] < i && chunks[existing[h]].hash == h
      {
        assert chunks[..i + 1] == chunks[..i] + [chunks[i]];
        assert Hashes(chunks[..i + 1]) == Hashes(chunks[..i]) + {chunks[i].hash};
        existing := existing[chunks[i].hash := i];
        i := i + 1;
      }
      assert chunks[..|chunks|] == chunks;
    }

    /** `new_hashes`: the hashes without a row, in the arbitrary order of a set. */
    method MissingHashes(groups: map<Digest, Entry>, existing: map<Digest, nat>) returns (fresh_: seq<Digest>)
      ensures forall h :: h in fresh_ <==> h in groups && h !in existing
      ensures forall i, j :: 0 <= i < j < |fresh_| ==> fresh_[i] != fresh_[j]
    {
      fresh_ := [];
      var todo := groups.Keys;
      while todo != {}
        invariant todo <= groups.Keys
        invariant forall h :: h in fresh_ <==> h in groups && h !in todo && h !in existing
        invariant forall i, j :: 0 <= i < j < |fresh_| ==> fresh_[i] != fresh_[j]
        decreases |todo|
      {
        var h :| h in todo;
        if h !in existing {
          fresh_ := fresh_ + [h];
        }
        todo := todo - {h};
      }
    }

    /** Remaps the pages of the rows that are used again and marks them active. */
    method RemapReused(groups: map<Digest, Entry>, existing: map<Digest, nat>, embed: Embedder)
      requires Sound(chunks, embed) && existing.Keys == Hashes(chunks)
      requires forall h :: h in existing ==> existing[h] < |chunks| && chunks[existing[h]].hash == h
      modifies this`chunks
      ensures |chunks| == |old(chunks)|
      ensures forall i :: 0 <= i < |chunks| ==>
        chunks[i] == if old(chunks)[i].hash in groups then Touched(old(chunks)[i], groups) else old(chunks)[i]
    {
      ghost var before := chunks;
      var todo := groups.Keys;
      while todo != {}
        invariant todo <= groups.Keys && |chunks| == |before|
        invariant forall i :: 0 <= i < |chunks| ==>
          chunks[i] == if before[i].hash in groups && before[i].hash !in todo then Touched(before[i], groups) else before[i]
        decreases |todo|
      {
        var h :| h in todo;
        if h in existing {
          var k := existing[h];
          chunks := chunks[k := chunks[k].(pageIds := groups[h].pageIds, status := Active)];
        } else {
          assert forall i :: 0 <= i < |before| ==> before[i] in before && before[i].hash in Hashes(before);
        }
        todo := todo - {h};
      }
    }

    /** `orphan_chunks_not_in_set`: returns how many rows it orphaned. */
    method OrphanNotInSet(active: set<Digest>) returns (count: nat)
      modifies this`chunks
      ensures |chunks| == |old(chunks)|
      ensures forall i :: 0 <= i < |chunks| ==> chunks[i] == OrphanedUnless(old(chunks)[i], active)
    {
      count := 0;
      ghost var before := chunks;
      var i := 0;
      while i < |chunks|
        invariant 0 <= i <= |chunks| == |before|
        invariant forall k :: i <= k < |chunks| ==> chunks[k] == before[k]
        invariant forall k :: 0 <= k < i ==> chunks[k] == OrphanedUnless(before[k], active)
      {
        if chunks[i].hash !in active && chunks[i].status.Active? {
          chunks := chunks[i := chunks[i].(status := Orphaned)];
          count := count + 1;
        }
        i := i + 1;
      }
    }

    /** Inserts one row per new hash with the vector the provider returned for it. */
    method InsertNew(fresh_: seq<Digest>, groups: map<Digest, Entry>, vectors: seq<Vector>)
      requires |vectors| == |fresh_| && forall h :: h in fresh_ ==> h in groups
      modifies this`chunks
      ensures |chunks| == |old(chunks)| + |fresh_| && old(chunks) <= chunks
      ensures forall i :: 0 <= i < |fresh_| ==>
        chunks[|old(chunks)| + i] == Chunk(fresh_[i], groups[fresh_[i]].text, vectors[i], groups[fresh_[i]].pageIds, Active)
    {
      ghost var before := chunks;
      var i := 0;
      while i < |fresh_|
        invariant 0 <= i <= |fresh_| && |chunks| == |before| + i && before <= chunks
        invariant forall k :: 0 <= k < i ==>
          chunks[|before| + k] == Chunk(fresh_[k], groups[fresh_[k]].text, vectors[k], groups[fresh_[k]].pageIds, Active)
      {
        var h := fresh_[i];
        chunks := chunks + [Chunk(h, groups[h].text, vectors[i], groups[h].pageIds, Active)];
        i := i + 1;
      }
    }

    method HardDelete()
      modifies this
      ensures Gone() && embedded == old(embedded)
    {
      exists_, pages, chunks := false, [], [];
    }

    /** The part of the handler that changes chunk rows. */
    method WriteIndex(groups: map<Digest, Entry>, existing: map<Digest, nat>, fresh_: seq<Digest>, embed: Embedder)
      requires Sound(chunks, embed) && GroupsSound(groups) && existing.Keys == Hashes(chunks)
      requires forall h :: h in existing ==> existing[h] < |chunks| && chunks[existing[h]].hash == h
      requires forall h :: h in fresh_ <==> h in groups && h !in existing
      requires forall i, j :: 0 <= i < j < |fresh_| ==> fresh_[i] != fresh_[j]
      modifies this`chunks
      ensures Reindexed(old(chunks), chunks, groups, embed)
      ensures Sound(chunks, embed) && ActiveIndex(chunks, embed) == FromScratch(groups, embed)
      ensures TextsOf(chunks[|old(chunks)|..]) == NewTexts(fresh_, groups)
    {
      ghost var before := chunks;
      RemapReused(groups, existing, embed);
      ghost var remapped := chunks;
      InsertNew(fresh_, groups, seq(|fresh_|, i requires 0 <= i < |fresh_| => embed(groups[fresh_[i]].text)));
      ghost var inserted := chunks;
      var _ := OrphanNotInSet(groups.Keys);
      ReindexDone(before, remapped, inserted, chunks, fresh_, groups, embed);
      IncrementalEqualsFromScratch(before, chunks, groups, embed);
    }

    /** Everything after the chunks are grouped. */
    method IngestGroups(newPages: seq<Page>, groups: map<Digest, Entry>, embed: Embedder, providerUp: bool) returns (r: Ingestion)
      requires exists_ && Sound(chunks, embed) && GroupsSound(groups)
      modifies this
      ensures r == if !providerUp && !(groups.Keys <= Hashes(old(chunks))) then DeletedEmbeddingFailed else Done
      ensures r.Done? ==> Indexed(old(chunks), newPages, groups, embed) && embedded == old(embedded) + TextsOf(chunks[|old(chunks)|..])
      ensures !r.Done? ==> Gone() && embedded == old(embedded)
    {
      var existing := LoadExisting(embed);
      var fresh_ := MissingHashes(groups, existing);
      if fresh_ != [] {
        assert fresh_[0] in groups && fresh_[0] !in Hashes(chunks);
        if !providerUp {
          HardDelete();
          return DeletedEmbeddingFailed;
        }
        embedded := embedded + NewTexts(fresh_, groups);
      }
      pages := newPages;
      WriteIndex(groups, existing, fresh_, embed);
      status := Processed;
      r := Done;
    }

    /** A successful run: the rows are re-indexed and the active ones are the index from scratch. */
    ghost predicate Indexed(before: seq<Chunk>, newPages: seq<Page>, groups: map<Digest, Entry>, embed: Embedder)
      reads this
    {
      && exists_ && status == Processed && pages == newPages
      && Reindexed(before, chunks, groups, embed)
      && Sound(chunks, embed) && ActiveIndex(chunks, embed) == FromScratch(groups, embed)
    }

    predicate Gone()
      reads this
    {
      !exists_ && pages == [] && chunks == []
    }

    /** `handle_rag_document_uploaded` for an existing document. `texts` are the extracted page texts, `ids`
        the identifiers drawn for the new pages, and `providerUp` says whether the embedding call
        succeeds. A successful run leaves the index of the new pages; every other run deletes the
        document. */
    method Ingest(texts: seq<string>, ids: seq<Id>, cut: Cutter, embed: Embedder, providerUp: bool) returns (r: Ingestion)
      requires exists_ && |ids| == |texts| && Sound(chunks, embed)
      modifies this
      ensures var groups := Document(NumberPages(texts, ids), cut);
              r == if texts == [] then DeletedNoText
                   else if groups == map[] then DeletedNoChunks
                   else if !providerUp && !(groups.Keys <= Hashes(old(chunks))) then DeletedEmbeddingFailed
                   else Done
      ensures r.Done? ==>
        var newPages := NumberPages(texts, ids);
        && Indexed(old(chunks), newPages, Document(newPages, cut), embed)
        && embedded == old(embedded) + TextsOf(chunks[|old(chunks)|..])
        && Serves(chunks, texts, ids, cut, embed)
      ensures r.Done? ==> |pages| == |texts| && forall i :: 0 <= i < |texts| ==>
        pages[i].id == ids[i] && pages[i].number == i + 1 && pages[i].content == texts[i]
      ensures r.DeletedNoChunks? ==> forall text :: !Yields(texts, cut, text)
      ensures !r.Done? ==> Gone() && embedded == old(embedded)
    {
      status := InProgress;
      if texts == [] {
        HardDelete();
        return DeletedNoText;
      }
      var newPages := BuildPages(texts, ids);
      var pieces := CreateChunksFromPages(newPages, cut);
      DocumentFacts(newPages, cut);
      if pieces == [] {
        NothingYielded(texts, ids, cut);
        HardDelete();
        return DeletedNoChunks;
      }
      var groups := GroupByHash(pieces);
      ghost var before := chunks;
      r := IngestGroups(newPages, groups, embed, providerUp);
      if r.Done? {
        ReindexedServes(before, chunks, texts, ids, cut, embed);
      }
    }
  }

  /** `texts_to_embed`. */
  function NewTexts(fresh_: seq<Digest>, groups: map<Digest, Entry>): seq<string>
    requires forall h :: h in fresh_ ==> h in groups
  {
    seq(|fresh_|, i requires 0 <= i < |fresh_| => groups[fresh_[i]].text)
  }

  lemma NothingYielded(texts: seq<string>, ids: seq<Id>, cut: Cutter)
    requires |ids| == |texts| && Pieces(NumberPages(texts, ids), cut) == []
    ensures forall text :: !Yields(texts, cut, text)
  {
    forall text ensures !Yields(texts, cut, text) {
      PieceTexts(NumberPages(texts, ids), cut);
      OccursIsYields(texts, ids, cut, text);
    }
  }

  lemma DocumentFacts(pages: seq<Page>, cut: Cutter)
    ensures forall p :: p in Pieces(pages, cut) ==> p.hash == Sha256(p.text)
    ensures GroupsSound(Document(pages, cut))
    ensures Pieces(pages, cut) == [] <==> Document(pages, cut) == map[]
  {
    PieceTexts(pages, cut);
    var pieces := Pieces(pages, cut);
    if pieces != [] {
      assert pieces[0] in pieces && pieces[0].hash in Document(pages, cut);
    } else {
      assert PieceHashes(pieces) == {};
    }
  }

  /** `orphan_chunks_not_in_set` on one row. */
  function OrphanedUnless(c: Chunk, active: set<Digest>): Chunk {
    if c.hash !in active && c.status.Active? then c.(status := Orphaned) else c
  }

  /** An inserted row is new, and orphaning leaves it alone. */
  lemma InsertedIsNew(before: seq<Chunk>, h: Digest, groups: map<Digest, Entry>, embed: Embedder)
    requires h in groups && h !in Hashes(before)
    ensures var c := NewChunk(h, groups[h], embed); OrphanedUnless(c, groups.Keys) == c && IsNew(c, before, groups, embed)
  {
  }

  /** Every hash of the groups has a row afterwards. */
  lemma AllStored(before: seq<Chunk>, after: seq<Chunk>, fresh_: seq<Digest>, groups: map<Digest, Entry>)
    requires |after| == |before| + |fresh_|
    requires forall i :: 0 <= i < |before| ==> after[i].hash == before[i].hash
    requires forall i :: 0 <= i < |fresh_| ==> after[|before| + i].hash == fresh_[i]
    requires forall h :: h in fresh_ <==> h in groups && h !in Hashes(before)
    ensures forall h :: h in groups ==> h in Hashes(after)
  {
    forall h | h in groups ensures h in Hashes(after) {
      if h in Hashes(before) {
        var i :| 0 <= i < |before| && before[i].hash == h;
        assert after[i] in after;
      } else {
        assert h in fresh_;
        var i :| 0 <= i < |fresh_| && fresh_[i] == h;
        assert after[|before| + i] in after;
      }
    }
  }

  /** Remapping, inserting and orphaning together are one re-indexing step. */
  lemma ReindexDone(before: seq<Chunk>, remapped: seq<Chunk>, inserted: seq<Chunk>, after: seq<Chunk>,
                    fresh_: seq<Digest>, groups: map<Digest, Entry>, embed: Embedder)
    requires |remapped| == |before| && remapped <= inserted && |inserted| == |before| + |fresh_| && |after| == |inserted|
    requires forall h :: h in fresh_ <==> h in groups && h !in Hashes(before)
    requires forall i, j :: 0 <= i < j < |fresh_| ==> fresh_[i] != fresh_[j]
    requires forall i :: 0 <= i < |before| ==>
      remapped[i] == if before[i].hash in groups then Touched(before[i], groups) else before[i]
    requires forall i :: 0 <= i < |fresh_| ==> inserted[|before| + i] == NewChunk(fresh_[i], groups[fresh_[i]], embed)
    requires forall i :: 0 <= i < |after| ==> after[i] == OrphanedUnless(inserted[i], groups.Keys)
    ensures Reindexed(before, after, groups, embed)
    ensures TextsOf(after[|before|..]) == NewTexts(fresh_, groups)
  {
    var n := |before|;
    forall i | 0 <= i < n ensures after[i] == Touched(before[i], groups) {
      assert inserted[i] == remapped[i];
    }
    NewRows(before, inserted, after, fresh_, groups, embed);
    AllStored(before, after, fresh_, groups);
  }

  lemma NewRows(before: seq<Chunk>, inserted: seq<Chunk>, after: seq<Chunk>, fresh_: seq<Digest>, groups: map<Digest, Entry>, embed: Embedder)
    requires |after| == |inserted| == |before| + |fresh_|
    requires forall h :: h in fresh_ ==> h in groups && h !in Hashes(before)
    requires forall i, j :: 0 <= i < j < |fresh_| ==> fresh_[i] != fresh_[j]
    requires forall i :: 0 <= i < |fresh_| ==> inserted[|before| + i] == NewChunk(fresh_[i], groups[fresh_[i]], embed)
    requires forall i :: 0 <= i < |after| ==> after[i] == OrphanedUnless(inserted[i], groups.Keys)
    ensures forall i :: 0 <= i < |fresh_| ==> after[|before| + i].hash == fresh_[i]
    ensures forall i :: |before| <= i < |after| ==> IsNew(after[i], before, groups, embed)
    ensures forall i, j :: |before| <= i < j < |after| ==> after[i].hash != after[j].hash
    ensures TextsOf(after[|before|..]) == NewTexts(fresh_, groups)
  {
    var n := |before|;
    forall i | n <= i < |after| ensures after[i].hash == fresh_[i - n] && IsNew(after[i], before, groups, embed)
      && after[i].text == groups[fresh_[i - n]].text
    {
      assert fresh_[i - n] in fresh_ && inserted[n + (i - n)] == NewChunk(fresh_[i - n], groups[fresh_[i - n]], embed);
      InsertedIsNew(before, fresh_[i - n], groups, embed);
    }
  }
}
