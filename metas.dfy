/**
 * The token indexer `get_metas`: it walks each document's sentences and tokens
 * keeping four counters (paragraph, sentence, token and the previous token's end
 * offset), detects paragraph breaks in the raw text skipped between tokens, and
 * reads each token's linkers into parallel lists of relation ids and span kinds.
 *
 * IndexDocument states the result for one document token by token, over the
 * document's flattened tokens and their places; DocumentMetas follows the loops
 * of the indexer and is proved to compute it.
 */
module Metas {
  import opened Wrappers
  import opened Files
  import opened Paragraphs
  import opened Linkers
  import opened Words

  /** The metadata the indexer emits for one token; RelationTags is filled in by the relation linker. */
  datatype TokenMeta = TokenMeta(
    text: string,
    docId: string,
    paragraphId: nat,
    sentenceId: nat,
    sentenceOffset: nat,
    tokenId: nat,
    relationIds: seq<int>,
    relationSpans: seq<SpanKind>,
    relationTags: seq<string>)

  /** The failures of the indexer: raw text that cannot be sliced, or a linker that cannot be read. */
  datatype MetaError = MissingRawText(docId: string) | InvalidLinker(docId: string, bad: BadLinker)

  // ------------------------------------------------ the result, per token

  /** The end offset of the token before token `k`, or 0 before the first token. */
  function PrevEnd(toks: seq<Token>, k: nat): int
    requires k <= |toks|
  {
    if k == 0 then 0 else toks[k - 1].characterOffsetEnd
  }

  /** Token `k` starts a new paragraph: the raw text skipped before it is a paragraph separator. */
  predicate OpensParagraph(raw: string, toks: seq<Token>, k: nat)
    requires k < |toks|
  {
    MatchesSeparator(Slice(raw, PrevEnd(toks, k), toks[k].characterOffsetBegin))
  }

  /** For each of the first `n` tokens, whether it opens a paragraph. */
  function Openings(raw: string, toks: seq<Token>, n: nat): (r: seq<bool>)
    requires n <= |toks|
    ensures |r| == n
  {
    if n == 0 then [] else Openings(raw, toks, n - 1) + [OpensParagraph(raw, toks, n - 1)]
  }

  lemma {:induction false} OpeningsAt(raw: string, toks: seq<Token>, n: nat, k: nat)
    requires k < n <= |toks|
    ensures Openings(raw, toks, n)[k] == OpensParagraph(raw, toks, k)
    decreases n
  {
    if k < n - 1 {
      OpeningsAt(raw, toks, n - 1, k);
    }
  }

  /** For every token, its linkers read as relation ids and roles, or the linker that fails. */
  function LinksOf(toks: seq<Token>): (r: seq<Result<Links, BadLinker>>)
    ensures |r| == |toks|
  {
    if toks == [] then [] else LinksOf(toks[..|toks| - 1]) + [ParseLinkers(toks[|toks| - 1].linkers)]
  }

  lemma {:induction false} LinksOfAt(toks: seq<Token>, k: nat)
    requires k < |toks|
    ensures LinksOf(toks)[k] == ParseLinkers(toks[k].linkers)
  {
    if k < |toks| - 1 {
      var init := toks[..|toks| - 1];
      LinksOfAt(init, k);
    }
  }

  /** The number of paragraph openings among the first `n` tokens. */
  function ParagraphCount(opens: seq<bool>, n: nat): nat
    requires n <= |opens|
  {
    if n == 0 then 0 else ParagraphCount(opens, n - 1) + (if opens[n - 1] then 1 else 0)
  }

  /** Paragraph counts never decrease, and grow by at most one per token. */
  lemma {:induction false} ParagraphCountMonotone(opens: seq<bool>, i: nat, j: nat)
    requires i <= j <= |opens|
    ensures ParagraphCount(opens, i) <= ParagraphCount(opens, j) <= ParagraphCount(opens, i) + (j - i)
    decreases j
  {
    if i < j {
      ParagraphCountMonotone(opens, i, j - 1);
    }
  }

  /** The first `n` tokens all have readable linkers. */
  predicate Readable(links: seq<Result<Links, BadLinker>>, n: nat)
    requires n <= |links|
  {
    forall k | 0 <= k < n :: links[k].Success?
  }

  /** The first of the first `n` tokens whose linkers cannot be read. */
  function FirstBad(links: seq<Result<Links, BadLinker>>, n: nat): (r: Option<nat>)
    requires n <= |links|
    ensures r.None? <==> Readable(links, n)
    ensures r.Some? ==> r.value < n && links[r.value].Failure? && Readable(links, r.value)
  {
    if n == 0 then None
    else
      match FirstBad(links, n - 1)
      case Some(k) => Some(k)
      case None => if links[n - 1].Failure? then Some(n - 1) else None
  }

  /** Later tokens do not move the first unreadable one. */
  lemma {:induction false} FirstBadStays(links: seq<Result<Links, BadLinker>>, k: nat, n: nat)
    requires k < n <= |links| && links[k].Failure? && Readable(links, k)
    ensures FirstBad(links, n) == Some(k)
    decreases n
  {
    if k < n - 1 {
      FirstBadStays(links, k, n - 1);
    }
  }

  /** The metadata of token `k`, given the tokens, their places, paragraph openings and linkers. */
  function MetaAt(docId: string, toks: seq<Token>, places: seq<Place>, opens: seq<bool>,
                  links: seq<Result<Links, BadLinker>>, k: nat): TokenMeta
    requires k < |toks| == |places| == |opens| == |links| && links[k].Success?
  {
    TokenMeta(toks[k].text, docId, ParagraphCount(opens, k + 1), places[k].sentence, places[k].offset, k,
              links[k].value.relationIds, links[k].value.relationSpans, [])
  }

  /** The metadata of the first `n` tokens, one entry per token. */
  function MetasUpTo(docId: string, toks: seq<Token>, places: seq<Place>, opens: seq<bool>,
                     links: seq<Result<Links, BadLinker>>, n: nat): (r: seq<TokenMeta>)
    requires n <= |toks| == |places| == |opens| == |links| && Readable(links, n)
    ensures |r| == n
  {
    if n == 0 then [] else MetasUpTo(docId, toks, places, opens, links, n - 1) + [MetaAt(docId, toks, places, opens, links, n - 1)]
  }

  /** Entry `k` of the metadata of the first `n` tokens is the metadata of token `k`. */
  lemma {:induction false} MetasUpToAt(docId: string, toks: seq<Token>, places: seq<Place>, opens: seq<bool>,
                                       links: seq<Result<Links, BadLinker>>, n: nat, k: nat)
    requires k < n <= |toks| == |places| == |opens| == |links| && Readable(links, n)
    ensures MetasUpTo(docId, toks, places, opens, links, n)[k] == MetaAt(docId, toks, places, opens, links, k)
    decreases n
  {
    if k < n - 1 {
      MetasUpToAt(docId, toks, places, opens, links, n - 1, k);
    }
  }

  /**
   * What `get_metas` stores for one document: slicing absent raw text fails at
   * the first token, otherwise the first token whose linkers cannot be read
   * fails, otherwise every token gets the metadata MetaAt gives.
   */
  function IndexDocument(docId: string, doc: Document, raw: Option<string>): Result<seq<TokenMeta>, MetaError> {
    var toks := Flatten(doc.sentences);
    var links := LinksOf(toks);
    if toks != [] && raw.None? then Failure(MissingRawText(docId))
    else
      match FirstBad(links, |toks|)
      case Some(k) => Failure(InvalidLinker(docId, links[k].error))
      case None => Success(MetasUpTo(docId, toks, Places(doc.sentences), Openings(raw.GetOr(""), toks, |toks|), links, |toks|))
  }

  // ------------------------------------------------------------ get_metas

  /** The counters and the output after the first `n` tokens agree with IndexDocument. */
  predicate Indexed(docId: string, toks: seq<Token>, places: seq<Place>, opens: seq<bool>,
                    links: seq<Result<Links, BadLinker>>, n: nat,
                    paragraphId: nat, prevTokenEnd: int, metas: seq<TokenMeta>)
    requires n <= |toks| == |places| == |opens| == |links|
  {
    && Readable(links, n)
    && paragraphId == ParagraphCount(opens, n)
    && prevTokenEnd == PrevEnd(toks, n)
    && metas == MetasUpTo(docId, toks, places, opens, links, n)
  }

  /**
   * One token of the inner loop: look for a paragraph break in the text skipped
   * since the previous token, move the end offset, read the linkers and emit the
   * token's metadata, or fail at the first linker that cannot be read.
   */
  method IndexToken(docId: string, raw: string, ghost toks: seq<Token>, ghost places: seq<Place>, ghost opens: seq<bool>,
                    ghost links: seq<Result<Links, BadLinker>>, tokenId: nat,
                    paragraphId: nat, prevTokenEnd: int, metas: seq<TokenMeta>,
                    token: Token, sentenceId: nat, sentenceOffset: nat)
    returns (r: Result<(nat, int, seq<TokenMeta>), MetaError>)
    requires tokenId < |toks| == |places| == |opens| == |links|
    requires toks[tokenId] == token && places[tokenId] == Place(sentenceId, sentenceOffset)
    requires opens == Openings(raw, toks, |toks|) && links == LinksOf(toks)
    requires Indexed(docId, toks, places, opens, links, tokenId, paragraphId, prevTokenEnd, metas)
    ensures r.Success? ==> Indexed(docId, toks, places, opens, links, tokenId + 1, r.value.0, r.value.1, r.value.2)
    ensures r.Failure? ==> FirstBad(links, |toks|) == Some(tokenId) && r.error == InvalidLinker(docId, links[tokenId].error)
  {
    OpeningsAt(raw, toks, |toks|, tokenId);
    LinksOfAt(toks, tokenId);
    var p := paragraphId;
    var skipped := Slice(raw, prevTokenEnd, token.characterOffsetBegin);
    if MatchesSeparator(skipped) {
      p := p + 1;
    }
    var read := ReadLinkers(token.linkers);
    if read.Failure? {
      FirstBadStays(links, tokenId, |toks|);
      return Failure(InvalidLinker(docId, read.error));
    }
    var meta := TokenMeta(token.text, docId, p, sentenceId, sentenceOffset, tokenId,
                          read.value.relationIds, read.value.relationSpans, []);
    assert Readable(links, tokenId + 1);
    r := Success((p, token.characterOffsetEnd, metas + [meta]));
  }

  /** Indexing every token without a failure gives what IndexDocument gives. */
  lemma IndexedAll(docId: string, doc: Document, raw: Option<string>, paragraphId: nat, prevTokenEnd: int, metas: seq<TokenMeta>)
    requires raw.Some? || Flatten(doc.sentences) == []
    requires var toks := Flatten(doc.sentences);
             Indexed(docId, toks, Places(doc.sentences), Openings(raw.GetOr(""), toks, |toks|), LinksOf(toks), |toks|,
                     paragraphId, prevTokenEnd, metas)
    ensures IndexDocument(docId, doc, raw) == Success(metas)
  { }

  /** Indexing fails at token `k` with `e`: the raw text is missing, or `k` is the first token with an unreadable linker. */
  predicate FailsAt(docId: string, raw: Option<string>, links: seq<Result<Links, BadLinker>>, k: nat, e: MetaError) {
    && k < |links|
    && (|| (raw.None? && e == MissingRawText(docId))
        || (raw.Some? && FirstBad(links, |links|) == Some(k) && e == InvalidLinker(docId, links[k].error)))
  }

  /** A failure of the token loop is what IndexDocument gives. */
  lemma IndexingFails(docId: string, doc: Document, raw: Option<string>, k: nat, e: MetaError)
    requires FailsAt(docId, raw, LinksOf(Flatten(doc.sentences)), k, e)
    ensures IndexDocument(docId, doc, raw) == Failure(e)
  { }

  /** The tokens of one sentence are the document's tokens from index `tokenId` on, all placed in that sentence. */
  predicate SentenceAt(toks: seq<Token>, places: seq<Place>, tokens: seq<Token>, sentenceId: nat, tokenId: nat) {
    && tokenId + |tokens| <= |toks| == |places|
    && forall j | 0 <= j < |tokens| :: toks[tokenId + j] == tokens[j] && places[tokenId + j] == Place(sentenceId, tokenId)
  }

  /** Sentence `s` sits in the document from index `|Flatten(ss[..s])|` on. */
  lemma SentenceTokens(ss: seq<Sentence>, s: nat)
    requires s < |ss|
    ensures |Flatten(ss[..s + 1])| == |Flatten(ss[..s])| + |ss[s].words|
    ensures SentenceAt(Flatten(ss), Places(ss), ss[s].words, s, |Flatten(ss[..s])|)
  {
    FlattenPrefixLength(ss, s);
    forall j | 0 <= j < |ss[s].words|
      ensures Flatten(ss)[|Flatten(ss[..s])| + j] == ss[s].words[j]
      ensures Places(ss)[|Flatten(ss[..s])| + j] == Place(s, |Flatten(ss[..s])|)
    {
      Located(ss, s, j);
    }
  }

  /**
   * The inner loop of `get_metas` over the tokens of sentence `sentenceId`,
   * which are the document's tokens from index `tokenId` on.
   */
  method SentenceMetas(docId: string, raw: Option<string>, tokens: seq<Token>, sentenceId: nat, tokenId: nat,
                       paragraphId: nat, prevTokenEnd: int, metas: seq<TokenMeta>,
                       ghost toks: seq<Token>, ghost places: seq<Place>, ghost opens: seq<bool>,
                       ghost links: seq<Result<Links, BadLinker>>)
    returns (r: Result<(nat, int, seq<TokenMeta>), MetaError>, ghost bad: nat)
    requires SentenceAt(toks, places, tokens, sentenceId, tokenId)
    requires opens == Openings(raw.GetOr(""), toks, |toks|) && links == LinksOf(toks)
    requires Indexed(docId, toks, places, opens, links, tokenId, paragraphId, prevTokenEnd, metas)
    requires tokenId > 0 ==> raw.Some?
    ensures r.Success? ==>
              && Indexed(docId, toks, places, opens, links, tokenId + |tokens|, r.value.0, r.value.1, r.value.2)
              && (tokenId + |tokens| > 0 ==> raw.Some?)
    ensures r.Failure? ==> FailsAt(docId, raw, links, bad, r.error)
  {
    var sentenceOffset := tokenId;
    var p, e, m, t := paragraphId, prevTokenEnd, metas, tokenId;
    for j := 0 to |tokens|
      invariant t == sentenceOffset + j
      invariant Indexed(docId, toks, places, opens, links, t, p, e, m)
      invariant t > 0 ==> raw.Some?
    {
      if raw.None? {
        return Failure(MissingRawText(docId)), t;
      }
      var step := IndexToken(docId, raw.value, toks, places, opens, links, t, p, e, m, tokens[j], sentenceId, sentenceOffset);
      if step.Failure? {
        return Failure(step.error), t;
      }
      p, e, m := step.value.0, step.value.1, step.value.2;
      t := t + 1;
    }
    r, bad := Success((p, e, m)), 0;
  }

  /** The body of `get_metas` for one document: four counters over nested sentence and token loops. */
  method DocumentMetas(docId: string, doc: Document, raw: Option<string>) returns (r: Result<seq<TokenMeta>, MetaError>)
    ensures r == IndexDocument(docId, doc, raw)
  {
    var sentences := doc.sentences;
    ghost var toks, places := Flatten(sentences), Places(sentences);
    ghost var opens, links := Openings(raw.GetOr(""), toks, |toks|), LinksOf(toks);
    var paragraphId, tokenId, prevTokenEnd := 0, 0, 0;
    var metas: seq<TokenMeta> := [];
    for sentenceId := 0 to |sentences|
      invariant tokenId == |Flatten(sentences[..sentenceId])| <= |toks|
      invariant Indexed(docId, toks, places, opens, links, tokenId, paragraphId, prevTokenEnd, metas)
      invariant tokenId > 0 ==> raw.Some?
    {
      var tokens := sentences[sentenceId].words;
      SentenceTokens(sentences, sentenceId);
      var step, bad := SentenceMetas(docId, raw, tokens, sentenceId, tokenId, paragraphId, prevTokenEnd, metas,
                                     toks, places, opens, links);
      if step.Failure? {
        IndexingFails(docId, doc, raw, bad, step.error);
        return Failure(step.error);
      }
      paragraphId, prevTokenEnd, metas := step.value.0, step.value.1, step.value.2;
      tokenId := tokenId + |tokens|;
    }
    assert sentences[..|sentences|] == sentences;
    IndexedAll(docId, doc, raw, paragraphId, prevTokenEnd, metas);
    r := Success(metas);
  }

  /** The inner loop over one token's linkers. */
  method ReadLinkers(linkers: seq<string>) returns (r: Result<Links, BadLinker>)
    ensures r == ParseLinkers(linkers)
  {
    var relationIds: seq<int> := [];
    var relationSpans: seq<SpanKind> := [];
    for l := 0 to |linkers|
      invariant ParseLinkers(linkers[..l]) == Success(Links(relationIds, relationSpans))
    {
      var link := ParseLinker(linkers[l]);
      if link.Failure? {
        ParseLinkersMeaning(linkers[..l]);
        assert forall k | 0 <= k < l :: linkers[..l][k] == linkers[k];
        ParseLinkersFirstBad(linkers, l);
        return Failure(BadLinker(linkers[l], link.error));
      }
      ParseLinkersExtend(linkers, l);
      relationIds := relationIds + [link.value.relationId];
      relationSpans := relationSpans + [link.value.span];
    }
    assert linkers[..|linkers|] == linkers;
    r := Success(Links(relationIds, relationSpans));
  }

  /** The raw text of a document; a missing entry fails like None as soon as a token needs it. */
  function RawFor(raws: map<string, Option<string>>, docId: string): Option<string> {
    if docId in raws then raws[docId] else None
  }

  /**
   * `get_metas`: the metadata of every document under its id, or the failure of
   * a document that fails (the documents are visited in an unspecified order).
   */
  method GetMetas(parses: map<string, Document>, raws: map<string, Option<string>>)
    returns (r: Result<map<string, seq<TokenMeta>>, MetaError>)
    ensures r.Success? <==> forall d | d in parses :: IndexDocument(d, parses[d], RawFor(raws, d)).Success?
    ensures r.Success? ==>
              && r.value.Keys == parses.Keys
              && forall d | d in parses :: IndexDocument(d, parses[d], RawFor(raws, d)) == Success(r.value[d])
    ensures r.Failure? ==> exists d | d in parses :: IndexDocument(d, parses[d], RawFor(raws, d)) == Failure(r.error)
  {
    var metas: map<string, seq<TokenMeta>> := map[];
    var pending := parses.Keys;
    while pending != {}
      invariant pending <= parses.Keys
      invariant metas.Keys == parses.Keys - pending
      invariant forall d | d in metas :: IndexDocument(d, parses[d], RawFor(raws, d)) == Success(metas[d])
      decreases |pending|
    {
      var d :| d in pending;
      var docMetas := DocumentMetas(d, parses[d], RawFor(raws, d));
      if docMetas.Failure? {
        return Failure(docMetas.error);
      }
      metas := metas[d := docMetas.value];
      pending := pending - {d};
    }
    r := Success(metas);
  }

  // ------------------------------------------- what get_metas guarantees

  /** Every token's entry in LinksOf is the reading of its own linkers. */
  lemma LinksOfMeaning(toks: seq<Token>)
    ensures forall k | 0 <= k < |toks| :: LinksOf(toks)[k] == ParseLinkers(toks[k].linkers)
  {
    forall k | 0 <= k < |toks|
      ensures LinksOf(toks)[k] == ParseLinkers(toks[k].linkers)
    {
      LinksOfAt(toks, k);
    }
  }

  /**
   * A document is indexed exactly when it has raw text or no token, and every
   * token's linkers can be read; one entry per token then. Otherwise missing raw
   * text fails first, and then the first token with an unreadable linker.
   */
  lemma IndexDocumentOutcome(docId: string, doc: Document, raw: Option<string>)
    ensures var toks := Flatten(doc.sentences);
            IndexDocument(docId, doc, raw).Success? <==>
              && (toks == [] || raw.Some?)
              && forall k | 0 <= k < |toks| :: ParseLinkers(toks[k].linkers).Success?
    ensures IndexDocument(docId, doc, raw).Success? ==> |IndexDocument(docId, doc, raw).value| == TokenCount(doc.sentences)
    ensures Flatten(doc.sentences) != [] && raw.None? ==> IndexDocument(docId, doc, raw) == Failure(MissingRawText(docId))
    ensures var toks := Flatten(doc.sentences);
            raw.Some? && IndexDocument(docId, doc, raw).Failure? ==>
              exists k | 0 <= k < |toks| ::
                && ParseLinkers(toks[k].linkers).Failure?
                && (forall i | 0 <= i < k :: ParseLinkers(toks[i].linkers).Success?)
                && IndexDocument(docId, doc, raw) == Failure(InvalidLinker(docId, ParseLinkers(toks[k].linkers).error))
  {
    var toks := Flatten(doc.sentences);
    var links := LinksOf(toks);
    LinksOfMeaning(toks);
    FlattenLength(doc.sentences);
    if raw.Some? {
      var bad := FirstBad(links, |toks|);
      if bad.Some? {
        var k := bad.value;
        assert forall i | 0 <= i < k :: links[i].Success?;
      }
    }
  }

  /**
   * The entry of token `k`: its position as TokenID, its text, the document's id,
   * the place of its sentence, and its linkers read in order into RelationIDs and
   * RelationSpans; RelationTags is still empty.
   */
  lemma IndexedToken(docId: string, doc: Document, raw: Option<string>, k: nat)
    requires IndexDocument(docId, doc, raw).Success? && k < |Flatten(doc.sentences)|
    ensures var toks, metas := Flatten(doc.sentences), IndexDocument(docId, doc, raw).value;
            && k < |metas|
            && metas[k].tokenId == k
            && metas[k].text == toks[k].text
            && metas[k].docId == docId
            && metas[k].sentenceId == Places(doc.sentences)[k].sentence
            && metas[k].sentenceOffset == Places(doc.sentences)[k].offset
            && ParseLinkers(toks[k].linkers) == Success(Links(metas[k].relationIds, metas[k].relationSpans))
            && |metas[k].relationIds| == |metas[k].relationSpans| == |toks[k].linkers|
            && metas[k].relationTags == []
  {
    var toks := Flatten(doc.sentences);
    var opens, links := Openings(raw.GetOr(""), toks, |toks|), LinksOf(toks);
    MetasUpToAt(docId, toks, Places(doc.sentences), opens, links, |toks|, k);
    LinksOfAt(toks, k);
    ParseLinkersMeaning(toks[k].linkers);
  }

  /**
   * Token `j` of sentence `s` gets SentenceID `s` (empty sentences count too) and
   * SentenceOffset the number of tokens in the sentences before it; its TokenID is
   * that offset plus `j`.
   */
  lemma IndexedSentence(docId: string, doc: Document, raw: Option<string>, s: nat, j: nat)
    requires IndexDocument(docId, doc, raw).Success?
    requires s < |doc.sentences| && j < |doc.sentences[s].words|
    ensures var metas, k := IndexDocument(docId, doc, raw).value, TokenCount(doc.sentences[..s]) + j;
            && k < |metas|
            && metas[k].sentenceId == s
            && metas[k].sentenceOffset == TokenCount(doc.sentences[..s])
            && metas[k].tokenId == k
            && metas[k].text == doc.sentences[s].words[j].text
  {
    var ss := doc.sentences;
    FlattenLength(ss[..s]);
    Located(ss, s, j);
    IndexedToken(docId, doc, raw, |Flatten(ss[..s])| + j);
  }

  /**
   * ParagraphID starts at 0 and rises by one at a token exactly when the raw text
   * from the previous token's end (0 for the first token) to this token's begin
   * matches the paragraph separator.
   */
  lemma ParagraphStep(docId: string, doc: Document, raw: Option<string>, k: nat)
    requires IndexDocument(docId, doc, raw).Success? && k < |Flatten(doc.sentences)|
    ensures raw.Some?
    ensures var toks, metas := Flatten(doc.sentences), IndexDocument(docId, doc, raw).value;
            var gap := Slice(raw.value, if k == 0 then 0 else toks[k - 1].characterOffsetEnd, toks[k].characterOffsetBegin);
            && k < |metas|
            && metas[k].paragraphId == (if k == 0 then 0 else metas[k - 1].paragraphId) + (if IsParagraphSeparator(gap) then 1 else 0)
  {
    var toks, places := Flatten(doc.sentences), Places(doc.sentences);
    var opens, links := Openings(raw.GetOr(""), toks, |toks|), LinksOf(toks);
    MetasUpToAt(docId, toks, places, opens, links, |toks|, k);
    if k > 0 {
      MetasUpToAt(docId, toks, places, opens, links, |toks|, k - 1);
    }
    OpeningsAt(raw.GetOr(""), toks, |toks|, k);
    MatchesSeparatorIsRegex(Slice(raw.GetOr(""), PrevEnd(toks, k), toks[k].characterOffsetBegin));
    var gap := Slice(raw.value, if k == 0 then 0 else toks[k - 1].characterOffsetEnd, toks[k].characterOffsetBegin);
    assert opens[k] == IsParagraphSeparator(gap);
    assert ParagraphCount(opens, k + 1) == ParagraphCount(opens, k) + (if opens[k] then 1 else 0);
    assert k == 0 ==> ParagraphCount(opens, k) == 0;
  }

  /** ParagraphID never decreases along a document, and grows by at most one per token. */
  lemma ParagraphIdsMonotone(docId: string, doc: Document, raw: Option<string>, i: nat, j: nat)
    requires IndexDocument(docId, doc, raw).Success? && i <= j < |Flatten(doc.sentences)|
    ensures var metas := IndexDocument(docId, doc, raw).value;
            && j < |metas|
            && metas[i].paragraphId <= metas[j].paragraphId <= metas[i].paragraphId + (j - i)
  {
    var toks, places := Flatten(doc.sentences), Places(doc.sentences);
    var opens, links := Openings(raw.GetOr(""), toks, |toks|), LinksOf(toks);
    MetasUpToAt(docId, toks, places, opens, links, |toks|, i);
    MetasUpToAt(docId, toks, places, opens, links, |toks|, j);
    ParagraphCountMonotone(opens, i + 1, j + 1);
  }

  /** The first token of wsj_1000 stays in paragraph 0: the text before it is `.START \n\n`. */
  lemma FirstTokenParagraphExample(docId: string, doc: Document, raw: Option<string>)
    requires IndexDocument(docId, doc, raw).Success? && Flatten(doc.sentences) != []
    requires raw.Some? && Slice(raw.value, 0, Flatten(doc.sentences)[0].characterOffsetBegin) == ".START \n\n"
    ensures IndexDocument(docId, doc, raw).value[0].paragraphId == 0
  {
    ParagraphStep(docId, doc, raw, 0);
    StartMarkerIsNotSeparator();
  }
}
