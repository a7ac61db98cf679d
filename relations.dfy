/**
 * The relation side of the pipeline: each gold relation reduced to the token ids
 * and character lengths of its four spans (`get_relations`), its type and senses
 * (`get_relation_metas`), and the relation tags joined onto the token metadata
 * in place (`add_relation_tags`).
 */
module Relations {
  import opened Wrappers
  import opened Decimal
  import opened Files
  import opened Linkers
  import opened Metas

  // --------------------------------------------------------- get_relations

  /** `[t[2] for t in TokenList]`: the document token index of every entry, in order. */
  function TokenIds(refs: seq<TokenRef>): (r: seq<int>)
    ensures |r| == |refs|
    ensures forall i | 0 <= i < |refs| :: r[i] == refs[i].documentTokenIndex
  {
    if refs == [] then [] else [refs[0].documentTokenIndex] + TokenIds(refs[1..])
  }

  /** `sum([(e - b) for b, e in CharacterSpanList])`. */
  function SpanLength(spans: seq<CharSpan>): int {
    if spans == [] then 0 else (spans[0].end - spans[0].begin) + SpanLength(spans[1..])
  }

  /** The length of a span list is additive over concatenation. */
  lemma {:induction false} SpanLengthAppend(a: seq<CharSpan>, b: seq<CharSpan>)
    ensures SpanLength(a + b) == SpanLength(a) + SpanLength(b)
  {
    if a == [] {
      assert a + b == b;
    } else {
      assert (a + b)[0] == a[0] && (a + b)[1..] == a[1..] + b;
      SpanLengthAppend(a[1..], b);
    }
  }

  /** Well-formed spans (begin before end) have a length of at least zero. */
  lemma {:induction false} SpanLengthNonNegative(spans: seq<CharSpan>)
    requires forall i | 0 <= i < |spans| :: spans[i].begin <= spans[i].end
    ensures SpanLength(spans) >= 0
  {
    if spans != [] {
      SpanLengthNonNegative(spans[1..]);
    }
  }

  /** `min` of a non-empty list. */
  function Min(s: seq<int>): (m: int)
    requires s != []
    ensures m in s && forall x | x in s :: m <= x
  {
    if |s| == 1 then s[0]
    else
      var rest := Min(s[1..]);
      assert forall x | x in s :: x == s[0] || x in s[1..];
      if s[0] <= rest then s[0] else rest
  }

  /** `max` of a non-empty list. */
  function Max(s: seq<int>): (m: int)
    requires s != []
    ensures m in s && forall x | x in s :: x <= m
  {
    if |s| == 1 then s[0]
    else
      var rest := Max(s[1..]);
      assert forall x | x in s :: x == s[0] || x in s[1..];
      if s[0] >= rest then s[0] else rest
  }

  /** The record `get_relations` stores for one relation. */
  datatype Relation = Relation(
    arg1: seq<int>,
    arg1Len: int,
    arg2: seq<int>,
    arg2Len: int,
    connective: seq<int>,
    connectiveLen: int,
    punctuation: seq<int>,
    punctuationLen: int,
    punctuationType: string,
    docId: string,
    id: int,
    tokenMin: int,
    tokenMax: int,
    tokenCount: nat)
  {
    /** `sum([arg1, arg2, conn, punct], [])`: the four id lists one after the other. */
    function AllTokens(): seq<int> {
      arg1 + arg2 + connective + punctuation
    }
  }

  /** `min()` of an empty sequence raises ValueError. */
  datatype RelationError = EmptyRelation

  /** The token-span record of one relation, stored under key `id`. */
  function GetRelation(id: int, gold: GoldRelation): Result<Relation, RelationError> {
    var arg1, arg2 := TokenIds(gold.arg1.tokenList), TokenIds(gold.arg2.tokenList);
    var conn, punct := TokenIds(gold.connective.tokenList), TokenIds(gold.punctuation.tokenList);
    var all := arg1 + arg2 + conn + punct;
    if all == [] then Failure(EmptyRelation)
    else
      Success(Relation(
        arg1, SpanLength(gold.arg1.characterSpanList),
        arg2, SpanLength(gold.arg2.characterSpanList),
        conn, SpanLength(gold.connective.characterSpanList),
        punct, SpanLength(gold.punctuation.characterSpanList),
        gold.punctuationType, gold.docId, id, Min(all), Max(all), |all|))
  }

  /** A relation has no token at all: `min` over its token ids fails. */
  predicate NoTokens(gold: GoldRelation) {
    && gold.arg1.tokenList == []
    && gold.arg2.tokenList == []
    && gold.connective.tokenList == []
    && gold.punctuation.tokenList == []
  }

  /**
   * One relation's record: the ids of each span, in TokenList order; the lengths
   * of its character spans; the count of all ids without removing duplicates;
   * a minimum and a maximum that occur among the ids and bound all of them; and
   * the ValueError of `min` exactly when there is no id at all.
   */
  lemma GetRelationMeaning(id: int, gold: GoldRelation)
    ensures GetRelation(id, gold).Failure? <==> NoTokens(gold)
    ensures GetRelation(id, gold).Success? ==>
              var rel := GetRelation(id, gold).value;
              && rel.id == id && rel.docId == gold.docId && rel.punctuationType == gold.punctuationType
              && |rel.arg1| == |gold.arg1.tokenList|
              && (forall i | 0 <= i < |rel.arg1| :: rel.arg1[i] == gold.arg1.tokenList[i].documentTokenIndex)
              && |rel.arg2| == |gold.arg2.tokenList|
              && (forall i | 0 <= i < |rel.arg2| :: rel.arg2[i] == gold.arg2.tokenList[i].documentTokenIndex)
              && |rel.connective| == |gold.connective.tokenList|
              && (forall i | 0 <= i < |rel.connective| :: rel.connective[i] == gold.connective.tokenList[i].documentTokenIndex)
              && |rel.punctuation| == |gold.punctuation.tokenList|
              && (forall i | 0 <= i < |rel.punctuation| :: rel.punctuation[i] == gold.punctuation.tokenList[i].documentTokenIndex)
              && rel.arg1Len == SpanLength(gold.arg1.characterSpanList)
              && rel.arg2Len == SpanLength(gold.arg2.characterSpanList)
              && rel.connectiveLen == SpanLength(gold.connective.characterSpanList)
              && rel.punctuationLen == SpanLength(gold.punctuation.characterSpanList)
              && rel.tokenCount == |gold.arg1.tokenList| + |gold.arg2.tokenList| + |gold.connective.tokenList| + |gold.punctuation.tokenList|
              && rel.tokenMin in rel.AllTokens() && rel.tokenMax in rel.AllTokens()
              && forall x | x in rel.AllTokens() :: rel.tokenMin <= x <= rel.tokenMax
  {
  }

  /**
   * `get_relations`: the record of every relation under its key, or the ValueError
   * of a relation without tokens (which one is raised depends on the dictionary's
   * iteration order; the error itself does not name the relation).
   */
  function GetRelations(golds: map<int, GoldRelation>): Result<map<int, Relation>, RelationError> {
    if forall id | id in golds :: GetRelation(id, golds[id]).Success? then
      Success(map id | id in golds :: GetRelation(id, golds[id]).value)
    else
      Failure(EmptyRelation)
  }

  /**
   * The relations are read exactly when every relation has a token; then every key
   * holds the record of its relation, whose ID is the key.
   */
  lemma GetRelationsMeaning(golds: map<int, GoldRelation>)
    ensures GetRelations(golds).Success? <==> forall id | id in golds :: !NoTokens(golds[id])
    ensures GetRelations(golds).Success? ==>
              && GetRelations(golds).value.Keys == golds.Keys
              && forall id | id in golds ::
                   && GetRelations(golds).value[id].id == id
                   && GetRelation(id, golds[id]) == Success(GetRelations(golds).value[id])
  {
    forall id | id in golds
      ensures GetRelation(id, golds[id]).Success? <==> !NoTokens(golds[id])
      ensures GetRelation(id, golds[id]).Success? ==> GetRelation(id, golds[id]).value.id == id
    {
      GetRelationMeaning(id, golds[id]);
    }
  }

  /** Relation 14887 of wsj_1000: twelve tokens from 465 to 476, spans of 24, 26 and 7 characters. */
  lemma Relation14887Example(gold: GoldRelation)
    requires TokenIds(gold.arg1.tokenList) == [465, 466, 467, 468, 469, 470]
    requires TokenIds(gold.arg2.tokenList) == [472, 473, 474, 475, 476]
    requires TokenIds(gold.connective.tokenList) == [471] && gold.punctuation.tokenList == []
    requires gold.arg1.characterSpanList == [CharSpan(2493, 2517)]
    requires gold.arg2.characterSpanList == [CharSpan(2526, 2552)]
    requires gold.connective.characterSpanList == [CharSpan(2518, 2525)]
    requires gold.punctuation.characterSpanList == []
    ensures GetRelation(14887, gold).Success?
    ensures var rel := GetRelation(14887, gold).value;
            && rel.arg1Len == 24 && rel.arg2Len == 26 && rel.connectiveLen == 7 && rel.punctuationLen == 0
            && rel.tokenMin == 465 && rel.tokenMax == 476 && rel.tokenCount == 12
  {
    var all := [465, 466, 467, 468, 469, 470, 472, 473, 474, 475, 476, 471];
    assert TokenIds(gold.arg1.tokenList) + TokenIds(gold.arg2.tokenList) + TokenIds(gold.connective.tokenList)
           + TokenIds(gold.punctuation.tokenList) == all;
    assert forall x | x in all :: 465 <= x <= 476;
    ExtremesAre(all, 465, 476);
    SingleSpanLength(gold.arg1.characterSpanList);
    SingleSpanLength(gold.arg2.characterSpanList);
    SingleSpanLength(gold.connective.characterSpanList);
  }

  /** A value of the list that bounds every other one from below (above) is its minimum (maximum). */
  lemma ExtremesAre(s: seq<int>, lo: int, hi: int)
    requires lo in s && hi in s && forall x | x in s :: lo <= x <= hi
    ensures Min(s) == lo && Max(s) == hi
  {
  }

  /** The length of a single character span. */
  lemma SingleSpanLength(spans: seq<CharSpan>)
    requires |spans| == 1
    ensures SpanLength(spans) == spans[0].end - spans[0].begin
  {
    assert spans[1..] == [];
  }

  // ---------------------------------------------------- get_relation_metas

  /** The record `get_relation_metas` stores for one relation: type, senses, document and id. */
  datatype RelationMeta = RelationMeta(relationType: string, sense: seq<string>, docId: string, id: int)

  /** `get_relation_metas`: the type, senses and document of every relation under its key, copied unchecked. */
  function GetRelationMetas(golds: map<int, GoldRelation>): (r: map<int, RelationMeta>)
    ensures r.Keys == golds.Keys
    ensures forall id | id in r ::
              && r[id].id == id
              && r[id].relationType == golds[id].relationType
              && r[id].sense == golds[id].sense
              && r[id].docId == golds[id].docId
  {
    map id | id in golds :: RelationMeta(golds[id].relationType, golds[id].sense, golds[id].docId, id)
  }

  /** The two projections of the gold relations index the same relations, with the same document. */
  lemma RelationsAndMetasAgree(golds: map<int, GoldRelation>)
    requires GetRelations(golds).Success?
    ensures var rels, metas := GetRelations(golds).value, GetRelationMetas(golds);
            && rels.Keys == metas.Keys
            && forall id | id in rels :: rels[id].id == metas[id].id && rels[id].docId == metas[id].docId
  {
    GetRelationsMeaning(golds);
    var rels := GetRelations(golds).value;
    forall id | id in rels
      ensures rels[id].docId == golds[id].docId
    {
      GetRelationMeaning(id, golds[id]);
    }
  }

  // ----------------------------------------------------- add_relation_tags

  /** `":".join(parts)`. */
  function Join(parts: seq<string>): string {
    if parts == [] then ""
    else if |parts| == 1 then parts[0]
    else parts[0] + ":" + Join(parts[1..])
  }

  /** Four parts are joined with a colon between each two. */
  lemma JoinFour(parts: seq<string>)
    requires |parts| == 4
    ensures Join(parts) == parts[0] + ":" + parts[1] + ":" + parts[2] + ":" + parts[3]
  {
    assert parts[1..][1..] == parts[2..] && parts[2..][1..] == parts[3..];
    assert Join(parts[3..]) == parts[3];
    assert Join(parts[2..]) == parts[2] + ":" + parts[3];
    assert Join(parts[1..]) == parts[1] + ":" + parts[2] + ":" + parts[3];
  }

  /** `s.split(":")`: the pieces between the colons, always at least one. */
  function Split(s: string): (r: seq<string>)
    ensures |r| >= 1
  {
    if s == [] then [""]
    else
      var rest := Split(s[1..]);
      if s[0] == ':' then [""] + rest else [[s[0]] + rest[0]] + rest[1..]
  }

  predicate NoColon(s: string) {
    forall k | 0 <= k < |s| :: s[k] != ':'
  }

  /** Text without a colon, then a colon, then anything: the first piece is that text. */
  lemma {:induction false} SplitAtFirstColon(a: string, b: string)
    requires NoColon(a)
    ensures Split(a + ":" + b) == [a] + Split(b)
    ensures Split(a) == [a]
  {
    if a != [] {
      assert (a + ":" + b)[1..] == a[1..] + ":" + b;
      SplitAtFirstColon(a[1..], b);
      assert [a[0]] + a[1..] == a;
    } else {
      assert a + ":" + b == [':'] + b;
      assert ([':'] + b)[1..] == b;
    }
  }

  /** Splitting a join of colon-free parts gives the parts back. */
  lemma {:induction false} SplitJoin(parts: seq<string>)
    requires |parts| >= 1 && forall i | 0 <= i < |parts| :: NoColon(parts[i])
    ensures Split(Join(parts)) == parts
  {
    if |parts| == 1 {
      SplitAtFirstColon(parts[0], "");
    } else {
      SplitJoin(parts[1..]);
      SplitAtFirstColon(parts[0], Join(parts[1..]));
    }
  }

  /** `IndexError` of `Sense[0]` on a relation found with an empty sense list. */
  datatype TagError = EmptySense(relationId: int)

  /** `":".join([Type, Sense[0], str(rel_id), rel_span])` for one (id, span) pair of a token. */
  function RelationTag(rm: RelationMeta, relationId: int, span: SpanKind): Result<string, TagError> {
    if rm.sense == [] then Failure(EmptySense(relationId))
    else Success(Join([rm.relationType, rm.sense[0], IntToString(relationId), span.Name()]))
  }

  /**
   * A tag splits back into the relation's type, its first sense, the relation id
   * and the span name, when type and sense hold no colon; the id part reads back
   * as the id.
   */
  lemma RelationTagRoundTrip(rm: RelationMeta, relationId: int, span: SpanKind)
    requires rm.sense != [] && NoColon(rm.relationType) && NoColon(rm.sense[0])
    ensures var parts := Split(RelationTag(rm, relationId, span).value);
            && parts == [rm.relationType, rm.sense[0], IntToString(relationId), span.Name()]
            && ParseInt(parts[2]) == Some(relationId)
  {
    var parts := [rm.relationType, rm.sense[0], IntToString(relationId), span.Name()];
    assert NoColon(span.Name()) by {
      match span
      case Arg1 =>
      case Arg2 =>
      case Connective =>
      case Punctuation =>
    }
    SplitJoin(parts);
    IntToStringRoundTrip(relationId);
  }

  /**
   * The tags of the first `n` (id, span) pairs: pairs whose relation is unknown
   * are skipped, the others tagged in pair order, failing at the first found
   * relation without a sense.
   */
  function TagsUpTo(ids: seq<int>, spans: seq<SpanKind>, rms: map<int, RelationMeta>, n: nat): Result<seq<string>, TagError>
    requires n <= |ids| && n <= |spans|
  {
    if n == 0 then Success([])
    else
      match TagsUpTo(ids, spans, rms, n - 1)
      case Failure(e) => Failure(e)
      case Success(tags) =>
        if ids[n - 1] !in rms then Success(tags)
        else
          match RelationTag(rms[ids[n - 1]], ids[n - 1], spans[n - 1])
          case Failure(e) => Failure(e)
          case Success(tag) => Success(tags + [tag])
  }

  /** The number of (id, span) pairs `zip` forms: as many as the shorter list has. */
  function PairCount(meta: TokenMeta): nat {
    if |meta.relationIds| <= |meta.relationSpans| then |meta.relationIds| else |meta.relationSpans|
  }

  /** The new RelationTags of one token. */
  function TagsOf(meta: TokenMeta, rms: map<int, RelationMeta>): Result<seq<string>, TagError> {
    TagsUpTo(meta.relationIds, meta.relationSpans, rms, PairCount(meta))
  }

  /** The indices among the first `n` pairs whose relation is known, in increasing order. */
  function Found(ids: seq<int>, rms: map<int, RelationMeta>, n: nat): seq<nat>
    requires n <= |ids|
  {
    if n == 0 then [] else Found(ids, rms, n - 1) + (if ids[n - 1] in rms then [n - 1] else [])
  }

  /** A found relation whose sense list is empty. */
  predicate Unsensed(ids: seq<int>, rms: map<int, RelationMeta>, k: nat)
    requires k < |ids|
  {
    ids[k] in rms && rms[ids[k]].sense == []
  }

  /** The found indices are in range, refer to known relations, increase, and miss no known relation. */
  lemma {:induction false} FoundMeaning(ids: seq<int>, rms: map<int, RelationMeta>, n: nat)
    requires n <= |ids|
    ensures forall i | 0 <= i < |Found(ids, rms, n)| :: Found(ids, rms, n)[i] < n && ids[Found(ids, rms, n)[i]] in rms
    ensures forall i, j | 0 <= i < j < |Found(ids, rms, n)| :: Found(ids, rms, n)[i] < Found(ids, rms, n)[j]
    ensures forall k | 0 <= k < n && ids[k] in rms :: k in Found(ids, rms, n)
    decreases n
  {
    if n > 0 {
      FoundMeaning(ids, rms, n - 1);
    }
  }

  /** On success there is one tag per found pair, in pair order, and each is that pair's tag. */
  lemma {:induction false} TagsFollowFound(ids: seq<int>, spans: seq<SpanKind>, rms: map<int, RelationMeta>, n: nat)
    requires n <= |ids| && n <= |spans| && TagsUpTo(ids, spans, rms, n).Success?
    ensures var f, tags := Found(ids, rms, n), TagsUpTo(ids, spans, rms, n).value;
            && |tags| == |f|
            && forall i | 0 <= i < |f| ::
                 f[i] < n && ids[f[i]] in rms && Success(tags[i]) == RelationTag(rms[ids[f[i]]], ids[f[i]], spans[f[i]])
    decreases n
  {
    if n > 0 {
      TagsFollowFound(ids, spans, rms, n - 1);
      FoundMeaning(ids, rms, n - 1);
    }
  }

  /** The first of the first `n` pairs whose relation is found without a sense. */
  function FirstUnsensed(ids: seq<int>, rms: map<int, RelationMeta>, n: nat): (r: Option<nat>)
    requires n <= |ids|
    ensures r.None? <==> forall k | 0 <= k < n :: !Unsensed(ids, rms, k)
    ensures r.Some? ==> r.value < n && Unsensed(ids, rms, r.value) && forall j | 0 <= j < r.value :: !Unsensed(ids, rms, j)
  {
    if n == 0 then None
    else
      match FirstUnsensed(ids, rms, n - 1)
      case Some(k) => Some(k)
      case None => if Unsensed(ids, rms, n - 1) then Some(n - 1) else None
  }

  /**
   * Tagging succeeds exactly when no found relation lacks a sense; otherwise the
   * error names the first found relation without one.
   */
  lemma {:induction false} TagsFailAtFirstUnsensed(ids: seq<int>, spans: seq<SpanKind>, rms: map<int, RelationMeta>, n: nat)
    requires n <= |ids| && n <= |spans|
    ensures TagsUpTo(ids, spans, rms, n).Success? <==> FirstUnsensed(ids, rms, n).None?
    ensures TagsUpTo(ids, spans, rms, n).Failure? ==>
              TagsUpTo(ids, spans, rms, n).error == EmptySense(ids[FirstUnsensed(ids, rms, n).value])
    decreases n
  {
    if n > 0 {
      TagsFailAtFirstUnsensed(ids, spans, rms, n - 1);
    }
  }

  /** No relation of the first `n` pairs is found: no index is found. */
  lemma {:induction false} FoundNone(ids: seq<int>, rms: map<int, RelationMeta>, n: nat)
    requires n <= |ids| && forall k | 0 <= k < n :: ids[k] !in rms
    ensures Found(ids, rms, n) == []
    decreases n
  {
    if n > 0 {
      FoundNone(ids, rms, n - 1);
    }
  }

  /** The tags of a token never outnumber its relation ids, and a token without linkers gets none. */
  lemma TagsBounded(meta: TokenMeta, rms: map<int, RelationMeta>)
    requires TagsOf(meta, rms).Success?
    ensures |TagsOf(meta, rms).value| <= |meta.relationIds|
    ensures meta.relationIds == [] ==> TagsOf(meta, rms).value == []
  {
    var n := PairCount(meta);
    TagsFollowFound(meta.relationIds, meta.relationSpans, rms, n);
    FoundBounded(meta.relationIds, rms, n);
  }

  lemma {:induction false} FoundBounded(ids: seq<int>, rms: map<int, RelationMeta>, n: nat)
    requires n <= |ids|
    ensures |Found(ids, rms, n)| <= n
  {
    if n > 0 {
      FoundBounded(ids, rms, n - 1);
    }
  }

  /** The old RelationTags play no part: tagging a tagged token again gives the same tags. */
  lemma TaggingIdempotent(meta: TokenMeta, rms: map<int, RelationMeta>)
    requires TagsOf(meta, rms).Success?
    ensures TagsOf(meta.(relationTags := TagsOf(meta, rms).value), rms) == TagsOf(meta, rms)
  {
  }

  /** The inner loop of `add_relation_tags` over one token's (id, span) pairs. */
  method TagToken(meta: TokenMeta, rms: map<int, RelationMeta>) returns (r: Result<seq<string>, TagError>)
    ensures r == TagsOf(meta, rms)
  {
    var ids, spans := meta.relationIds, meta.relationSpans;
    var tags: seq<string> := [];
    var n := PairCount(meta);
    for k := 0 to n
      invariant TagsUpTo(ids, spans, rms, k) == Success(tags)
    {
      var id := ids[k];
      if id !in rms {
        continue;
      }
      var rm := rms[id];
      if rm.sense == [] {
        TagsFailureStays(ids, spans, rms, k + 1, n);
        return Failure(EmptySense(id));
      }
      tags := tags + [Join([rm.relationType, rm.sense[0], IntToString(id), spans[k].Name()])];
    }
    r := Success(tags);
  }

  /** Once tagging fails, more pairs do not change the error. */
  lemma {:induction false} TagsFailureStays(ids: seq<int>, spans: seq<SpanKind>, rms: map<int, RelationMeta>, k: nat, n: nat)
    requires k <= n <= |ids| && n <= |spans| && TagsUpTo(ids, spans, rms, k).Failure?
    ensures TagsUpTo(ids, spans, rms, n) == TagsUpTo(ids, spans, rms, k)
    decreases n
  {
    if k < n {
      TagsFailureStays(ids, spans, rms, k, n - 1);
    }
  }

  /** Every token of one document tagged, every other field unchanged. */
  predicate TaggedDocument(before: seq<TokenMeta>, after: seq<TokenMeta>, rms: map<int, RelationMeta>) {
    && |after| == |before|
    && forall i | 0 <= i < |before| ::
         && TagsOf(before[i], rms).Success?
         && after[i] == before[i].(relationTags := TagsOf(before[i], rms).value)
  }

  /** The loop over the tokens of one document. */
  method TagDocument(metas: seq<TokenMeta>, rms: map<int, RelationMeta>) returns (r: Result<seq<TokenMeta>, TagError>)
    ensures r.Success? ==> TaggedDocument(metas, r.value, rms)
    ensures r.Failure? ==> exists i | 0 <= i < |metas| :: TagsOf(metas[i], rms) == Failure(r.error)
  {
    var tagged := metas;
    for i := 0 to |metas|
      invariant |tagged| == |metas|
      invariant TaggedDocument(metas[..i], tagged[..i], rms)
      invariant tagged[i..] == metas[i..]
    {
      var tags := TagToken(metas[i], rms);
      if tags.Failure? {
        return Failure(tags.error);
      }
      tagged := tagged[i := metas[i].(relationTags := tags.value)];
    }
    assert metas[..|metas|] == metas && tagged[..|metas|] == tagged;
    r := Success(tagged);
  }

  /** Every other field of every token is the same, in the same documents and order. */
  predicate SameButTags(before: map<string, seq<TokenMeta>>, after: map<string, seq<TokenMeta>>) {
    && after.Keys == before.Keys
    && forall d | d in after :: SameDocumentButTags(before[d], after[d])
  }

  /** The same tokens of one document in the same order, up to their RelationTags. */
  predicate SameDocumentButTags(before: seq<TokenMeta>, after: seq<TokenMeta>) {
    && |after| == |before|
    && forall i | 0 <= i < |after| :: after[i].(relationTags := []) == before[i].(relationTags := [])
  }

  /** Tagging a document changes only the RelationTags of its tokens. */
  lemma TaggingKeepsOtherFields(before: seq<TokenMeta>, after: seq<TokenMeta>, rms: map<int, RelationMeta>)
    requires TaggedDocument(before, after, rms)
    ensures SameDocumentButTags(before, after)
  {
  }

  /** The token metadata of all documents, whose RelationTags `add_relation_tags` rewrites in place. */
  class MetaTable {
    var docs: map<string, seq<TokenMeta>>

    constructor(docs: map<string, seq<TokenMeta>>)
      ensures this.docs == docs
    {
      this.docs := docs;
    }

    /**
     * `add_relation_tags`: every token's RelationTags replaced by the tags of its
     * pairs, nothing else changed; or the IndexError of some token that refers
     * to a relation without a sense.
     */
    method AddRelationTags(rms: map<int, RelationMeta>) returns (r: Result<(), TagError>)
      modifies this
      ensures SameButTags(old(docs), docs)
      ensures r.Success? ==> forall d | d in docs :: TaggedDocument(old(docs)[d], docs[d], rms)
      ensures r.Failure? ==>
                exists d, i | d in old(docs) && 0 <= i < |old(docs)[d]| :: TagsOf(old(docs)[d][i], rms) == Failure(r.error)
    {
      ghost var before := docs;
      var pending := docs.Keys;
      while pending != {}
        invariant pending <= before.Keys
        invariant SameButTags(before, docs)
        invariant forall d | d in before.Keys - pending :: TaggedDocument(before[d], docs[d], rms)
        invariant forall d | d in pending :: docs[d] == before[d]
        decreases |pending|
      {
        var d :| d in pending;
        var tagged := TagDocument(docs[d], rms);
        if tagged.Failure? {
          return Failure(tagged.error);
        }
        TaggingKeepsOtherFields(docs[d], tagged.value, rms);
        docs := docs[d := tagged.value];
        pending := pending - {d};
      }
      r := Success(());
    }
  }

  // ------------------------------------------------------------- examples

  /** The first token of wsj_1000 is Arg1 of relation 14890, an explicit conjunction. */
  lemma FirstTokenTagsExample(meta: TokenMeta, rms: map<int, RelationMeta>)
    requires meta.relationIds == [14890] && meta.relationSpans == [Arg1]
    requires 14890 in rms && rms[14890].relationType == "Explicit" && rms[14890].sense == ["Expansion.Conjunction"]
    ensures TagsOf(meta, rms) == Success(["Explicit" + ":" + "Expansion.Conjunction" + ":" + "14890" + ":" + "Arg1"])
  {
    FirstTokenIdText();
    var rm := rms[14890];
    var parts := [rm.relationType, rm.sense[0], IntToString(14890), Arg1.Name()];
    var ids, spans := meta.relationIds, meta.relationSpans;
    assert PairCount(meta) == 1 && ids[0] == 14890 && spans[0] == Arg1;
    var prev, tag := TagsUpTo(ids, spans, rms, 0), RelationTag(rms[ids[0]], ids[0], spans[0]);
    assert prev.value == [] && tag == Success(Join(parts));
    assert TagsUpTo(ids, spans, rms, 1) == Success(prev.value + [tag.value]);
    assert prev.value + [tag.value] == [Join(parts)];
    assert parts == ["Explicit", "Expansion.Conjunction", "14890", "Arg1"];
    JoinFour(parts);
  }

  /** Pairs whose relation is not in the relation metadata are skipped. */
  lemma UnknownRelationExample(meta: TokenMeta, rms: map<int, RelationMeta>)
    requires forall k | 0 <= k < |meta.relationIds| :: meta.relationIds[k] !in rms
    ensures TagsOf(meta, rms) == Success([])
  {
    var n := PairCount(meta);
    TagsFailAtFirstUnsensed(meta.relationIds, meta.relationSpans, rms, n);
    TagsFollowFound(meta.relationIds, meta.relationSpans, rms, n);
    FoundNone(meta.relationIds, rms, n);
  }

  /**
   * Relations read without senses have an empty Sense, so tagging any token that
   * refers to one of them fails.
   */
  lemma NoSensesTaggingFails(rec: DecodedRelation, opts: LoadOptions, meta: TokenMeta)
    requires !opts.withSenses && Kept(rec, opts)
    requires 0 < PairCount(meta) && meta.relationIds[0] == rec.id
    ensures var golds := map[rec.id := Repair(rec, opts).value];
            TagsOf(meta, GetRelationMetas(golds)) == Failure(EmptySense(rec.id))
  {
    var rms := GetRelationMetas(map[rec.id := Repair(rec, opts).value]);
    var n := PairCount(meta);
    assert Unsensed(meta.relationIds, rms, 0);
    TagsFailAtFirstUnsensed(meta.relationIds, meta.relationSpans, rms, n);
  }
}
