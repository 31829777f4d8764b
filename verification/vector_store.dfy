/**
 * The in-memory vector store: an array of chunks, each with a normalised
 * embedding, upserted by id and searched by dot product.
 *
 * The embedder is a function given to the constructor: one call maps a list
 * of texts to one entry per text, `None` where the entry is not an array.
 * `Math.sqrt` and `crypto.randomUUID` are arguments of `Upsert`.  Vectors are
 * exact `real` sequences: floating-point rounding is not modelled.
 */
module VectorStore {
  import opened Wrappers
  import opened Seqs
  import opened Interface

  type Vector = seq<real>

  const DefaultK: int := 5
  const SampleSize: nat := 10

  /** An item of `upsert`: the id is optional, the embedding is computed from `text`. */
  datatype UpsertDoc = UpsertDoc(id: Option<string>, text: string, meta: Option<Meta>)

  /** The result of `stats`. */
  datatype Stats = Stats(count: nat, dim: nat, sampleIds: seq<string>)

  /** A chunk of the search pool with its score and its position in the pool. */
  datatype Scored = Scored(chunk: DocChunk, score: real, pos: nat)

  // ---------------------------------------------------------------------------
  // Normalisation and scores

  /** The sum of the squares of the components. */
  function SumSquares(v: Vector): real
    decreases |v|
  {
    if v == [] then 0.0 else SumSquares(v[..|v| - 1]) + v[|v| - 1] * v[|v| - 1]
  }

  /** `normalize`: the vector divided by its Euclidean norm, or by 1 when that norm is 0. */
  function Normalize(v: Vector, sqrt: real -> real): (r: Vector)
    ensures |r| == |v|
    ensures sqrt(SumSquares(v)) == 0.0 ==> r == v
    ensures sqrt(SumSquares(v)) != 0.0 ==> forall i :: 0 <= i < |v| ==> r[i] * sqrt(SumSquares(v)) == v[i]
  {
    var n := sqrt(SumSquares(v));
    var d := if n == 0.0 then 1.0 else n;
    seq(|v|, i requires 0 <= i < |v| => v[i] / d)
  }

  /**
   * The score of a stored vector `v` for the query `q`:
   * `q.reduce((acc, x, i) => acc + x * v[i], 0)`, over the components of `q`.
   */
  function Dot(q: Vector, v: Vector): real
    requires |q| <= |v|
    decreases |q|
  {
    if q == [] then 0.0 else Dot(q[..|q| - 1], v) + q[|q| - 1] * v[|q| - 1]
  }

  /** Only the first `|q|` components of the stored vector take part in its score. */
  lemma {:induction false} DotPrefix(q: Vector, v: Vector)
    requires |q| <= |v|
    ensures Dot(q, v) == Dot(q, v[..|q|])
    decreases |q|
  {
    if q != [] {
      var n := |q| - 1;
      DotPrefix(q[..n], v);
      DotPrefix(q[..n], v[..|q|]);
      assert v[..|q|][..n] == v[..n];
    }
  }

  /** A vector's score against itself is the square of its norm. */
  lemma {:induction false} DotSelf(v: Vector)
    ensures Dot(v, v) == SumSquares(v)
    decreases |v|
  {
    if v != [] {
      var n := |v| - 1;
      DotSelf(v[..n]);
      DotPrefix(v[..n], v);
    }
  }

  /** Scaling every component by `d` scales the sum of squares by `d * d`. */
  lemma {:induction false} SumSquaresScaled(r: Vector, v: Vector, d: real)
    requires |r| == |v| && forall i :: 0 <= i < |v| ==> r[i] * d == v[i]
    ensures SumSquares(r) * (d * d) == SumSquares(v)
    decreases |v|
  {
    if v != [] {
      var n := |v| - 1;
      SumSquaresScaled(r[..n], v[..n], d);
      var x := r[n];
      assert v[n] * v[n] == (x * x) * (d * d) by {
        assert v[n] == x * d;
      }
      calc {
        SumSquares(r) * (d * d);
        (SumSquares(r[..n]) + x * x) * (d * d);
        SumSquares(r[..n]) * (d * d) + (x * x) * (d * d);
      }
    }
  }

  /**
   * A stored vector is normalised: a non-zero embedding, stored, scores 1
   * against a query with the same embedding, given a square root that is
   * exact on its sum of squares.
   */
  lemma NormalizedScoresOne(v: Vector, sqrt: real -> real)
    requires SumSquares(v) != 0.0
    requires sqrt(SumSquares(v)) * sqrt(SumSquares(v)) == SumSquares(v)
    ensures Dot(Normalize(v, sqrt), Normalize(v, sqrt)) == 1.0
  {
    var d := sqrt(SumSquares(v));
    NonZeroRoot(d, SumSquares(v));
    var r := Normalize(v, sqrt);
    DotSelf(r);
    UnitSumSquares(r, v, d);
  }

  /** Dividing by a norm `d` with `d * d` the sum of squares leaves a sum of squares of 1. */
  lemma UnitSumSquares(r: Vector, v: Vector, d: real)
    requires |r| == |v| && forall i :: 0 <= i < |v| ==> r[i] * d == v[i]
    requires SumSquares(v) != 0.0 && d * d == SumSquares(v)
    ensures SumSquares(r) == 1.0
  {
    SumSquaresScaled(r, v, d);
    UnitFactor(SumSquares(r), d * d, SumSquares(v));
  }

  lemma NonZeroRoot(d: real, s: real)
    requires s != 0.0 && d * d == s
    ensures d != 0.0
  {
  }

  /** `x * k == s` with `k == s` non-zero forces `x == 1`. */
  lemma UnitFactor(x: real, k: real, s: real)
    requires s != 0.0 && x * k == s && k == s
    ensures x == 1.0
  {
    assert k != 0.0;
    assert x == (x * k) / k;
    assert (x * k) / k == s / k;
    assert s / k == 1.0;
  }

  // ---------------------------------------------------------------------------
  // The store's invariant

  predicate UniqueIds(s: seq<DocChunk>) {
    forall i, j :: 0 <= i < j < |s| ==> s[i].id != s[j].id
  }

  /** Every stored vector is non-empty and has the dimension of the first one. */
  predicate UniformDims(s: seq<DocChunk>) {
    forall c :: c in s ==> 0 < |c.vector| && |c.vector| == |s[0].vector|
  }

  /** `store.findIndex(s => s.id === id)`: the first position holding `id`, or -1. */
  function FindIndex(s: seq<DocChunk>, id: string): (idx: int)
    ensures -1 <= idx < |s|
    ensures idx == -1 <==> forall j :: 0 <= j < |s| ==> s[j].id != id
    ensures idx >= 0 ==> s[idx].id == id && forall j :: 0 <= j < idx ==> s[j].id != id
    decreases |s|
  {
    if s == [] then -1
    else if s[0].id == id then 0
    else
      var k := FindIndex(s[1..], id);
      if k == -1 then -1 else k + 1
  }

  // ---------------------------------------------------------------------------
  // Upsert

  /** The texts sent to the embedder, in input order. */
  function Texts(docs: seq<UpsertDoc>): (texts: seq<string>)
    ensures |texts| == |docs| && forall i :: 0 <= i < |docs| ==> texts[i] == docs[i].text
  {
    seq(|docs|, i requires 0 <= i < |docs| => docs[i].text)
  }

  /** `Array.isArray(vectors[i]) ? vectors[i] : []`: a missing entry or a non-array is empty. */
  function VecAt(vectors: seq<Option<Vector>>, i: nat): Vector {
    if i < |vectors| && vectors[i].Some? then vectors[i].value else []
  }

  /** `d.id ?? crypto.randomUUID()`, the generated id of item `i` being `newId(i)`. */
  function DocId(d: UpsertDoc, i: nat, newId: nat -> string): string {
    if d.id.Some? then d.id.value else newId(i)
  }

  /** The item is dropped: its vector is empty, or its dimension is not the store's. */
  predicate Skipped(s: seq<DocChunk>, vec: Vector) {
    vec == [] || (s != [] && |s[0].vector| != |vec|)
  }

  /**
   * One item of `upsert`: dropped when `Skipped`; otherwise the new chunk
   * replaces the first chunk with its id, in place, or is appended.
   */
  function UpsertOne(s: seq<DocChunk>, chunk: DocChunk, vec: Vector): (r: seq<DocChunk>)
    ensures Skipped(s, vec) ==> r == s
    ensures !Skipped(s, vec) && FindIndex(s, chunk.id) >= 0 ==>
              var k := FindIndex(s, chunk.id);
              |r| == |s| && r[k] == chunk && forall j :: 0 <= j < |s| && j != k ==> r[j] == s[j]
    ensures !Skipped(s, vec) && FindIndex(s, chunk.id) == -1 ==> r == s + [chunk]
  {
    if Skipped(s, vec) then s
    else
      var idx := FindIndex(s, chunk.id);
      if idx >= 0 then s[idx := chunk] else s + [chunk]
  }

  /** The chunk `upsert` builds for item `i`. */
  function ChunkOf(docs: seq<UpsertDoc>, vectors: seq<Option<Vector>>, newId: nat -> string, sqrt: real -> real, i: nat): (c: DocChunk)
    requires i < |docs|
    ensures c.text == docs[i].text && c.meta == docs[i].meta && |c.vector| == |VecAt(vectors, i)|
  {
    DocChunk(DocId(docs[i], i, newId), docs[i].text, Normalize(VecAt(vectors, i), sqrt), docs[i].meta)
  }

  /** The store after `upsert` has processed the first `n` items, in order. */
  function UpsertAll(s: seq<DocChunk>, docs: seq<UpsertDoc>, vectors: seq<Option<Vector>>,
                     newId: nat -> string, sqrt: real -> real, n: nat): seq<DocChunk>
    requires n <= |docs|
  {
    if n == 0 then s
    else UpsertOne(UpsertAll(s, docs, vectors, newId, sqrt, n - 1), ChunkOf(docs, vectors, newId, sqrt, n - 1), VecAt(vectors, n - 1))
  }

  /** One item of `upsert` keeps ids unique and dimensions uniform. */
  lemma UpsertOneValid(s: seq<DocChunk>, chunk: DocChunk, vec: Vector)
    requires UniqueIds(s) && UniformDims(s) && |chunk.vector| == |vec|
    ensures UniqueIds(UpsertOne(s, chunk, vec)) && UniformDims(UpsertOne(s, chunk, vec))
  {
    var r := UpsertOne(s, chunk, vec);
    if !Skipped(s, vec) {
      var k := FindIndex(s, chunk.id);
      if k >= 0 {
        assert s[0] in s;
        forall c | c in r ensures 0 < |c.vector| && |c.vector| == |r[0].vector| {
          var j :| 0 <= j < |r| && r[j] == c;
          if j != k { assert s[j] in s; }
          if k != 0 { assert r[0] == s[0]; }
        }
      } else {
        forall c | c in r ensures 0 < |c.vector| && |c.vector| == |r[0].vector| {
          var j :| 0 <= j < |r| && r[j] == c;
          if j < |s| { assert s[j] in s; }
          if s != [] { assert r[0] == s[0] && s[0] in s; }
        }
      }
    }
  }

  /** After an item that is not dropped, looking its id up finds the new chunk. */
  lemma UpsertOneFinds(s: seq<DocChunk>, chunk: DocChunk, vec: Vector)
    requires !Skipped(s, vec)
    ensures var r := UpsertOne(s, chunk, vec);
      FindIndex(r, chunk.id) >= 0 && r[FindIndex(r, chunk.id)] == chunk
  {
    var r := UpsertOne(s, chunk, vec);
    var k := FindIndex(s, chunk.id);
    if k >= 0 {
      assert r[k].id == chunk.id;
      assert forall j :: 0 <= j < k ==> r[j] == s[j];
    } else {
      assert r[|s|].id == chunk.id;
    }
  }

  /** An `upsert` keeps the store's invariant, and the store never shrinks nor grows by more than one chunk per item. */
  lemma {:induction false} UpsertAllValid(s: seq<DocChunk>, docs: seq<UpsertDoc>, vectors: seq<Option<Vector>>,
                                          newId: nat -> string, sqrt: real -> real, n: nat)
    requires n <= |docs| && UniqueIds(s) && UniformDims(s)
    ensures var r := UpsertAll(s, docs, vectors, newId, sqrt, n);
      UniqueIds(r) && UniformDims(r) && |s| <= |r| <= |s| + n
  {
    if n > 0 {
      UpsertAllValid(s, docs, vectors, newId, sqrt, n - 1);
      UpsertOneValid(UpsertAll(s, docs, vectors, newId, sqrt, n - 1), ChunkOf(docs, vectors, newId, sqrt, n - 1), VecAt(vectors, n - 1));
    }
  }

  // ---------------------------------------------------------------------------
  // Remove

  /** `store.filter(d => d.id !== id)`. */
  function Without(s: seq<DocChunk>, id: string): (r: seq<DocChunk>)
    ensures forall c :: c in r <==> c in s && c.id != id
    ensures SubsequenceOf(r, s)
  {
    Filter(s, (d: DocChunk) => d.id != id)
  }

  /** Dropping the first chunk keeps ids unique. */
  lemma UniqueTail(s: seq<DocChunk>)
    requires s != [] && UniqueIds(s)
    ensures UniqueIds(s[1..]) && forall c :: c in s[1..] ==> c.id != s[0].id
  {
    var t := s[1..];
    forall i, j | 0 <= i < j < |t| ensures t[i].id != t[j].id {
      assert t[i] == s[i + 1] && t[j] == s[j + 1];
    }
    forall c | c in t ensures c.id != s[0].id {
      var j :| 0 <= j < |t| && t[j] == c;
      assert s[j + 1] == c;
    }
  }

  /** Removing keeps ids unique. */
  lemma {:induction false} WithoutUnique(s: seq<DocChunk>, id: string)
    requires UniqueIds(s)
    ensures UniqueIds(Without(s, id))
    decreases |s|
  {
    if s != [] {
      var t := s[1..];
      UniqueTail(s);
      WithoutUnique(t, id);
      var keep := (d: DocChunk) => d.id != id;
      if keep(s[0]) {
        var r := Without(s, id);
        var rt := Without(t, id);
        assert r == [s[0]] + rt;
        forall i, j | 0 <= i < j < |r| ensures r[i].id != r[j].id {
          assert r[j] == rt[j - 1] && rt[j - 1] in rt;
          if i > 0 {
            assert r[i] == rt[i - 1];
          }
        }
      }
    }
  }

  /** With unique ids, removing deletes one chunk when the id is present and none otherwise. */
  lemma {:induction false} WithoutCount(s: seq<DocChunk>, id: string)
    requires UniqueIds(s)
    ensures |Without(s, id)| == if FindIndex(s, id) >= 0 then |s| - 1 else |s|
    decreases |s|
  {
    if s != [] {
      var t := s[1..];
      UniqueTail(s);
      WithoutCount(t, id);
      var keep := (d: DocChunk) => d.id != id;
      assert Without(s, id) == if keep(s[0]) then [s[0]] + Without(t, id) else Without(t, id);
      if s[0].id == id {
        forall j | 0 <= j < |t| ensures t[j].id != id {
          assert t[j] in t;
        }
      }
    }
  }

  /** Removing keeps the remaining vectors' common dimension. */
  lemma WithoutDims(s: seq<DocChunk>, id: string)
    requires UniformDims(s)
    ensures UniformDims(Without(s, id))
  {
    var r := Without(s, id);
    if r != [] {
      assert r[0] in s;
    }
  }

  // ---------------------------------------------------------------------------
  // Search

  /** The chunks `searchWithVector` considers: those with a non-empty vector. */
  function Pool(s: seq<DocChunk>): (p: seq<DocChunk>)
    ensures forall c :: c in p <==> c in s && |c.vector| > 0
    ensures SubsequenceOf(p, s)
  {
    Filter(s, (c: DocChunk) => |c.vector| > 0)
  }

  /** The query fits every vector of the pool: no component of the query lacks a stored counterpart. */
  predicate Fits(q: Vector, pool: seq<DocChunk>) {
    forall c :: c in pool ==> |q| <= |c.vector|
  }

  /** `pool.map(ch => ({ ch, score }))`, each entry remembering its pool position. */
  function ScoreAll(pool: seq<DocChunk>, q: Vector): (r: seq<Scored>)
    requires Fits(q, pool)
    ensures |r| == |pool|
    ensures forall i :: 0 <= i < |r| ==> r[i].chunk == pool[i] && r[i].pos == i && r[i].score == Dot(q, pool[i].vector)
  {
    seq(|pool|, i requires 0 <= i < |pool| && Fits(q, pool) => Scored(pool[i], Dot(q, pool[i].vector), i))
  }

  /**
   * The order of a stable sort by descending score: a higher score first,
   * equal scores in pool order.
   */
  predicate Before(a: Scored, b: Scored) {
    a.score > b.score || (a.score == b.score && a.pos < b.pos)
  }

  predicate Ranked(s: seq<Scored>) {
    forall i, j :: 0 <= i < j < |s| ==> Before(s[i], s[j])
  }

  predicate DistinctPos(s: seq<Scored>) {
    forall i, j :: 0 <= i < j < |s| ==> s[i].pos != s[j].pos
  }

  /** Insert `x` into a ranked list before the first entry it precedes. */
  function Insert(x: Scored, s: seq<Scored>): (r: seq<Scored>)
    ensures multiset(r) == multiset(s) + multiset{x} && |r| == |s| + 1
    decreases |s|
  {
    if s == [] || Before(x, s[0]) then [x] + s
    else
      assert s == [s[0]] + s[1..];
      [s[0]] + Insert(x, s[1..])
  }

  lemma {:induction false} InsertRanked(x: Scored, s: seq<Scored>)
    requires Ranked(s) && forall y :: y in s ==> y.pos != x.pos
    ensures Ranked(Insert(x, s))
    decreases |s|
  {
    if s != [] && !Before(x, s[0]) {
      var t := s[1..];
      assert forall y :: y in t ==> y in s;
      InsertRanked(x, t);
      var r := Insert(x, s);
      assert Before(s[0], x);
      forall j | 0 < j < |r| ensures Before(s[0], r[j]) {
        assert r[j] in multiset(Insert(x, t));
        if r[j] != x {
          assert r[j] in multiset(t);
          var k :| 0 <= k < |t| && t[k] == r[j];
          assert s[k + 1] == r[j];
        }
      }
    }
  }

  /** `sort((a, b) => b.score - a.score)`: a stable insertion sort, descending by score. */
  function Rank(s: seq<Scored>): (r: seq<Scored>)
    ensures multiset(r) == multiset(s) && |r| == |s|
    decreases |s|
  {
    if s == [] then []
    else
      assert s == s[..|s| - 1] + [s[|s| - 1]];
      Insert(s[|s| - 1], Rank(s[..|s| - 1]))
  }

  /** The ranking of entries with distinct positions is in stable descending order. */
  lemma {:induction false} RankRanked(s: seq<Scored>)
    requires DistinctPos(s)
    ensures Ranked(Rank(s))
    decreases |s|
  {
    if s != [] {
      var n := |s| - 1;
      var t := s[..n];
      assert DistinctPos(t);
      RankRanked(t);
      forall y | y in Rank(t) ensures y.pos != s[n].pos {
        assert y in multiset(t);
        var k :| 0 <= k < n && t[k] == y;
      }
      InsertRanked(s[n], Rank(t));
    }
  }

  /** A chunk with `score` added to its metadata: `{ ...ch, meta: { ...(ch.meta || {}), score } }`. */
  function Annotated(ch: DocChunk, score: real): (c: DocChunk)
    ensures c.id == ch.id && c.text == ch.text && c.vector == ch.vector
    ensures c.meta.Some? && "score" in c.meta.value && c.meta.value["score"] == Num(score)
    ensures forall key :: key != "score" ==>
              (key in c.meta.value <==> ch.meta.Some? && key in ch.meta.value) &&
              (key in c.meta.value ==> c.meta.value[key] == ch.meta.value[key])
  {
    ch.(meta := Some(ch.meta.GetOr(map[])["score" := Num(score)]))
  }

  /** The pool's entries in result order, before `slice(0, k)`. */
  function Ranking(pool: seq<DocChunk>, q: Vector): (r: seq<Scored>)
    requires Fits(q, pool)
    ensures |r| == |pool|
  {
    Rank(ScoreAll(pool, q))
  }

  /**
   * The ranking is a permutation of the scored pool in stable descending
   * order of score: each entry is the pool chunk at its position, with its score.
   */
  lemma RankingSpec(pool: seq<DocChunk>, q: Vector)
    requires Fits(q, pool)
    ensures multiset(Ranking(pool, q)) == multiset(ScoreAll(pool, q))
    ensures Ranked(Ranking(pool, q))
    ensures var r := Ranking(pool, q);
      |r| == |pool| &&
      forall i :: 0 <= i < |r| ==> r[i].pos < |pool| && r[i].chunk == pool[r[i].pos] && r[i].score == Dot(q, pool[r[i].pos].vector)
  {
    var sc := ScoreAll(pool, q);
    var r := Ranking(pool, q);
    assert DistinctPos(sc);
    RankRanked(sc);
    assert |r| == |multiset(r)| == |multiset(sc)| == |sc|;
    forall i | 0 <= i < |r|
      ensures r[i].pos < |pool| && r[i].chunk == pool[r[i].pos] && r[i].score == Dot(q, pool[r[i].pos].vector)
    {
      assert r[i] in multiset(sc);
      var j :| 0 <= j < |sc| && sc[j] == r[i];
    }
  }

  /**
   * The top `n` of the ranking are the best: a pool chunk that is not among
   * them scores no higher than any of them.
   */
  lemma TopBest(pool: seq<DocChunk>, q: Vector, n: nat)
    requires Fits(q, pool) && n <= |pool|
    ensures var r := Ranking(pool, q);
      forall j :: 0 <= j < |pool| ==>
        (exists i :: 0 <= i < n && r[i].pos == j) || (forall i :: 0 <= i < n ==> r[i].score >= Dot(q, pool[j].vector))
  {
    var sc := ScoreAll(pool, q);
    var r := Ranking(pool, q);
    RankingSpec(pool, q);
    forall j | 0 <= j < |pool|
      ensures (exists i :: 0 <= i < n && r[i].pos == j) || (forall i :: 0 <= i < n ==> r[i].score >= Dot(q, pool[j].vector))
    {
      assert sc[j] in multiset(r);
      var m :| 0 <= m < |r| && r[m] == sc[j];
      if m >= n {
        forall i | 0 <= i < n ensures r[i].score >= Dot(q, pool[j].vector) {
          assert Before(r[i], r[m]);
        }
      }
    }
  }

  /**
   * `searchWithVector` for the query vector `q` (empty when the embedder gave
   * no array): nothing for an empty query or an empty pool, otherwise the
   * first `k` ranked chunks (for a negative `k`, all but the last `-k`), each
   * with its score added to its metadata.
   */
  function TopK(s: seq<DocChunk>, q: Vector, k: int): (r: seq<DocChunk>)
    requires Fits(q, Pool(s))
    ensures q == [] || Pool(s) == [] ==> r == []
    ensures q != [] && Pool(s) != [] ==> |r| == SliceEnd(|Pool(s)|, k) && |r| <= |Pool(s)|
    ensures q != [] && Pool(s) != [] ==>
              forall i :: 0 <= i < |r| ==>
                var x := Ranking(Pool(s), q)[i];
                r[i] == Annotated(x.chunk, x.score)
  {
    if q == [] then []
    else
      var pool := Pool(s);
      if pool == [] then []
      else
        RankingSpec(pool, q);
        var ranked := Ranking(pool, q);
        var n := SliceEnd(|ranked|, k);
        seq(n, i requires 0 <= i < n => Annotated(ranked[i].chunk, ranked[i].score))
  }

  /**
   * A search returns stored chunks with a non-empty vector, each annotated
   * with its own score; with `k >= 0` it returns `min(k, |pool|)` of them.
   */
  lemma TopKFromStore(s: seq<DocChunk>, q: Vector, k: int)
    requires Fits(q, Pool(s)) && q != [] && Pool(s) != []
    ensures var r := TopK(s, q, k);
      && (k >= 0 ==> |r| == if k < |Pool(s)| then k else |Pool(s)|)
      && (forall i :: 0 <= i < |r| ==> exists c :: c in s && |c.vector| > 0 && r[i] == Annotated(c, Dot(q, c.vector)))
  {
    var pool := Pool(s);
    var r := TopK(s, q, k);
    RankingSpec(pool, q);
    forall i | 0 <= i < |r| ensures exists c :: c in s && |c.vector| > 0 && r[i] == Annotated(c, Dot(q, c.vector)) {
      var x := Ranking(pool, q)[i];
      assert pool[x.pos] in pool;
    }
  }

  /** The scores of a search's results never increase. */
  lemma TopKOrdered(s: seq<DocChunk>, q: Vector, k: int)
    requires Fits(q, Pool(s)) && q != [] && Pool(s) != []
    ensures var r := TopK(s, q, k);
      forall i, j :: 0 <= i < j < |r| ==> r[i].meta.value["score"].n >= r[j].meta.value["score"].n
  {
    RankingSpec(Pool(s), q);
  }

  // ---------------------------------------------------------------------------
  // The store object

  class InMemoryVectorStore {
    /** The indexed chunks, in insertion order. */
    var store: seq<DocChunk>
    /** The injected embedder: one call maps texts to one entry per text, `None` for a non-array entry. */
    const embedder: seq<string> -> seq<Option<Vector>>

    /** Ids are unique and every stored vector is non-empty, all of one dimension. */
    ghost predicate Valid()
      reads this
    {
      UniqueIds(store) && UniformDims(store)
    }

    constructor (embedder: seq<string> -> seq<Option<Vector>>)
      ensures Valid() && store == [] && this.embedder == embedder
    {
      store := [];
      this.embedder := embedder;
    }

    /**
     * `upsert`: one embedder call for all texts, then each item in order;
     * `newId(i)` is the id `crypto.randomUUID()` gives item `i` when it has none.
     */
    method Upsert(docs: seq<UpsertDoc>, newId: nat -> string, sqrt: real -> real)
      requires Valid()
      modifies this
      ensures Valid()
      ensures store == UpsertAll(old(store), docs, embedder(Texts(docs)), newId, sqrt, |docs|)
      ensures |old(store)| <= |store| <= |old(store)| + |docs|
    {
      var texts := seq(|docs|, i requires 0 <= i < |docs| => docs[i].text);
      var vectors := embedder(texts);
      assert texts == Texts(docs);
      var i := 0;
      while i < |docs|
        invariant 0 <= i <= |docs|
        invariant store == UpsertAll(old(store), docs, vectors, newId, sqrt, i)
      {
        var d := docs[i];
        var id := if d.id.Some? then d.id.value else newId(i);
        var vec := if i < |vectors| && vectors[i].Some? then vectors[i].value else [];
        var chunk := DocChunk(id, d.text, Normalize(vec, sqrt), d.meta);
        assert vec == VecAt(vectors, i) && chunk == ChunkOf(docs, vectors, newId, sqrt, i);
        ghost var prev := store;
        if vec != [] && !(|store| > 0 && |store[0].vector| != |vec|) {
          var idx := FindIndex(store, id);
          if idx >= 0 {
            store := store[idx := chunk];
          } else {
            store := store + [chunk];
          }
        }
        assert store == UpsertOne(prev, chunk, vec);
        i := i + 1;
      }
      UpsertAllValid(old(store), docs, vectors, newId, sqrt, |docs|);
    }

    /** `search` is not implemented: it always throws. */
    function Search(query: string, k: int := DefaultK): (r: Result<seq<DocChunk>, string>)
      ensures r.Err? && r.error == "Call searchWithVector"
    {
      Err("Call searchWithVector")
    }

    /** `stats`: the number of chunks, the dimension of the first vector (0 when empty), and the first ten ids. */
    function GetStats(): (r: Stats)
      reads this
      ensures r.count == |store|
      ensures r.dim == if store == [] then 0 else |store[0].vector|
      ensures |r.sampleIds| == (if |store| < SampleSize then |store| else SampleSize)
      ensures forall i :: 0 <= i < |r.sampleIds| ==> r.sampleIds[i] == store[i].id
    {
      var s := store;
      var n := if |s| < SampleSize then |s| else SampleSize;
      Stats(|s|, if s == [] then 0 else |s[0].vector|, seq(n, i requires 0 <= i < n => s[i].id))
    }

    /** The query vector: the first entry of `embedder([query])`, empty when it is not an array. */
    function QueryVector(query: string): Vector
      reads this
    {
      VecAt(embedder([query]), 0)
    }

    /** The query's embedding is no longer than any stored vector, so every score is a number. */
    predicate Comparable(query: string)
      reads this
    {
      Fits(QueryVector(query), Pool(store))
    }

    /** `searchWithVector(query, k)`. */
    function SearchWithVector(query: string, k: int := DefaultK): (r: seq<DocChunk>)
      reads this
      requires Comparable(query)
      ensures r == TopK(store, QueryVector(query), k)
    {
      var q := QueryVector(query);
      if q == [] then []
      else
        var pool := Pool(store);
        if pool == [] then [] else TopK(store, q, k)
    }

    /** `clear`: the store is emptied. */
    method Clear()
      modifies this
      ensures store == [] && Size() == 0 && Valid()
    {
      store := [];
    }

    /** `remove(id)`: every chunk with `id` is dropped, the others keep their order. */
    method Remove(id: string)
      requires Valid()
      modifies this
      ensures Valid()
      ensures forall c :: c in store <==> c in old(store) && c.id != id
      ensures SubsequenceOf(store, old(store))
      ensures |store| == if FindIndex(old(store), id) >= 0 then |old(store)| - 1 else |old(store)|
    {
      WithoutUnique(store, id);
      WithoutCount(store, id);
      WithoutDims(store, id);
      store := Filter(store, (d: DocChunk) => d.id != id);
    }

    /** `size`: the count `stats` reports. */
    function Size(): (n: nat)
      reads this
      ensures n == GetStats().count
    {
      |store|
    }
  }
}
