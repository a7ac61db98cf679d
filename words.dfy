/**
 * The tokens of a parsed document in document order, and the two flat lists
 * extracted from them: the words and the part-of-speech tags of every document.
 */
module Words {
  import opened Files

  // ----------------------------------------------------------- flattening

  /** The tokens of all sentences, in document order. */
  function Flatten(sentences: seq<Sentence>): seq<Token> {
    if sentences == [] then []
    else Flatten(sentences[..|sentences| - 1]) + sentences[|sentences| - 1].words
  }

  /** The number of tokens in a document, counted sentence by sentence. */
  function TokenCount(sentences: seq<Sentence>): nat {
    if sentences == [] then 0 else |sentences[0].words| + TokenCount(sentences[1..])
  }

  /** Where a token sits: the index of its sentence and the document index of that sentence's first token. */
  datatype Place = Place(sentence: nat, offset: nat)

  /** The place of every token, parallel to Flatten. */
  function Places(sentences: seq<Sentence>): (r: seq<Place>)
    ensures |r| == |Flatten(sentences)|
  {
    if sentences == [] then []
    else
      var init := sentences[..|sentences| - 1];
      Places(init) + seq(|sentences[|sentences| - 1].words|, _ => Place(|init|, |Flatten(init)|))
  }

  lemma FlattenStep(ss: seq<Sentence>, s: nat)
    requires s < |ss|
    ensures Flatten(ss[..s + 1]) == Flatten(ss[..s]) + ss[s].words
    ensures Places(ss[..s + 1]) == Places(ss[..s]) + seq(|ss[s].words|, _ => Place(s, |Flatten(ss[..s])|))
  {
    assert ss[..s + 1][..s] == ss[..s];
  }

  /** The tokens and places of the first `s` sentences begin those of the whole document. */
  lemma {:induction false} FlattenPrefix(ss: seq<Sentence>, s: nat)
    requires s <= |ss|
    ensures Flatten(ss[..s]) <= Flatten(ss)
    ensures Places(ss[..s]) <= Places(ss)
    decreases |ss|
  {
    if s < |ss| {
      var init := ss[..|ss| - 1];
      assert init[..s] == ss[..s];
      FlattenPrefix(init, s);
    } else {
      assert ss[..s] == ss;
    }
  }

  /** The tokens of the first `s + 1` sentences are those of the first `s` and then sentence `s`'s. */
  lemma FlattenPrefixLength(ss: seq<Sentence>, s: nat)
    requires s < |ss|
    ensures |Flatten(ss[..s + 1])| == |Flatten(ss[..s])| + |ss[s].words| <= |Flatten(ss)|
  {
    FlattenStep(ss, s);
    FlattenPrefix(ss, s + 1);
  }

  /** Flattening loses and adds no token: its length is the total token count. */
  lemma {:induction false} FlattenLength(ss: seq<Sentence>)
    ensures |Flatten(ss)| == TokenCount(ss)
  {
    if ss != [] {
      var init := ss[..|ss| - 1];
      FlattenLength(init);
      TokenCountSnoc(init, ss[|ss| - 1]);
      assert init + [ss[|ss| - 1]] == ss;
    }
  }

  lemma {:induction false} TokenCountSnoc(ss: seq<Sentence>, last: Sentence)
    ensures TokenCount(ss + [last]) == TokenCount(ss) + |last.words|
  {
    if ss != [] {
      assert (ss + [last])[1..] == ss[1..] + [last];
      TokenCountSnoc(ss[1..], last);
    }
  }

  /**
   * Token `j` of sentence `s` is token `|Flatten(ss[..s])| + j` of the document, and
   * its place is sentence `s`, whose first token has that same prefix count as index.
   */
  lemma Located(ss: seq<Sentence>, s: nat, j: nat)
    requires s < |ss| && j < |ss[s].words|
    ensures |Flatten(ss[..s])| + j < |Flatten(ss)|
    ensures Flatten(ss)[|Flatten(ss[..s])| + j] == ss[s].words[j]
    ensures Places(ss)[|Flatten(ss[..s])| + j] == Place(s, |Flatten(ss[..s])|)
  {
    FlattenStep(ss, s);
    FlattenPrefix(ss, s + 1);
  }

  /** Every token's sentence index is below the number of sentences. */
  lemma {:induction false} PlacesBounded(ss: seq<Sentence>)
    ensures forall k | 0 <= k < |Places(ss)| :: Places(ss)[k].sentence < |ss|
  {
    if ss != [] {
      var init := ss[..|ss| - 1];
      PlacesBounded(init);
      var front := Places(init);
      assert forall k | 0 <= k < |front| :: Places(ss)[k] == front[k];
    }
  }

  /** Sentence indices never decrease along the document. */
  lemma {:induction false} PlacesSorted(ss: seq<Sentence>)
    ensures forall a, b | 0 <= a <= b < |Places(ss)| :: Places(ss)[a].sentence <= Places(ss)[b].sentence
  {
    if ss != [] {
      var init := ss[..|ss| - 1];
      PlacesSorted(init);
      PlacesBounded(init);
      var front := Places(init);
      assert forall k | 0 <= k < |front| :: Places(ss)[k] == front[k];
      assert forall k | |front| <= k < |Places(ss)| :: Places(ss)[k].sentence == |init|;
    }
  }

  /**
   * Each token's offset is the index of the first token of its sentence: that
   * token has the same place, and the token before it, if any, belongs to an
   * earlier sentence.
   */
  lemma {:induction false} PlacesOffset(ss: seq<Sentence>)
    ensures forall k | 0 <= k < |Places(ss)| ::
              && Places(ss)[k].offset <= k
              && Places(ss)[Places(ss)[k].offset] == Places(ss)[k]
              && (Places(ss)[k].offset > 0 ==> Places(ss)[Places(ss)[k].offset - 1].sentence < Places(ss)[k].sentence)
  {
    if ss != [] {
      var init := ss[..|ss| - 1];
      PlacesOffset(init);
      PlacesBounded(init);
      var front := Places(init);
      assert forall k | 0 <= k < |front| :: Places(ss)[k] == front[k];
      assert forall k | |front| <= k < |Places(ss)| :: Places(ss)[k] == Place(|init|, |front|);
    }
  }

  // ------------------------------------------------- words and POS tags

  /** The words of one document: the text of every token, in order. */
  function WordsOf(doc: Document): seq<string> {
    var toks := Flatten(doc.sentences);
    seq(|toks|, k requires 0 <= k < |toks| => toks[k].text)
  }

  /** The part-of-speech tags of one document, parallel to its words. */
  function PosTagsOf(doc: Document): seq<string> {
    var toks := Flatten(doc.sentences);
    seq(|toks|, k requires 0 <= k < |toks| => toks[k].partOfSpeech)
  }

  /**
   * The words of a document are the concatenation of its sentences' token texts:
   * one entry per token, and token `j` of sentence `s` at index `|Flatten(ss[..s])| + j`.
   * The tags have the same shape and carry the same token's part of speech.
   */
  lemma WordsOfConcatenates(doc: Document, s: nat, j: nat)
    requires s < |doc.sentences| && j < |doc.sentences[s].words|
    ensures |WordsOf(doc)| == |PosTagsOf(doc)| == TokenCount(doc.sentences)
    ensures var k := |Flatten(doc.sentences[..s])| + j;
            && k < |WordsOf(doc)|
            && WordsOf(doc)[k] == doc.sentences[s].words[j].text
            && PosTagsOf(doc)[k] == doc.sentences[s].words[j].partOfSpeech
  {
    FlattenLength(doc.sentences);
    Located(doc.sentences, s, j);
  }

  /** The nested loops of `get_words` for one document. */
  method DocumentWords(doc: Document) returns (words: seq<string>)
    ensures words == WordsOf(doc)
  {
    var sentences := doc.sentences;
    words := [];
    for s := 0 to |sentences|
      invariant |words| == |Flatten(sentences[..s])|
      invariant forall k | 0 <= k < |words| :: words[k] == Flatten(sentences[..s])[k].text
    {
      FlattenStep(sentences, s);
      var tokens := sentences[s].words;
      for j := 0 to |tokens|
        invariant |words| == |Flatten(sentences[..s])| + j
        invariant forall k | 0 <= k < |words| :: words[k] == (Flatten(sentences[..s]) + tokens)[k].text
      {
        words := words + [tokens[j].text];
      }
    }
    assert sentences[..|sentences|] == sentences;
  }

  /** The nested loops of `get_pos_tags` for one document. */
  method DocumentPosTags(doc: Document) returns (tags: seq<string>)
    ensures tags == PosTagsOf(doc)
  {
    var sentences := doc.sentences;
    tags := [];
    for s := 0 to |sentences|
      invariant |tags| == |Flatten(sentences[..s])|
      invariant forall k | 0 <= k < |tags| :: tags[k] == Flatten(sentences[..s])[k].partOfSpeech
    {
      FlattenStep(sentences, s);
      var tokens := sentences[s].words;
      for j := 0 to |tokens|
        invariant |tags| == |Flatten(sentences[..s])| + j
        invariant forall k | 0 <= k < |tags| :: tags[k] == (Flatten(sentences[..s]) + tokens)[k].partOfSpeech
      {
        tags := tags + [tokens[j].partOfSpeech];
      }
    }
    assert sentences[..|sentences|] == sentences;
  }

  /** `get_words`: the words of every document, under the document's id. */
  method GetWords(parses: map<string, Document>) returns (words: map<string, seq<string>>)
    ensures words.Keys == parses.Keys
    ensures forall d | d in parses :: words[d] == WordsOf(parses[d])
  {
    words := map[];
    var pending := parses.Keys;
    while pending != {}
      invariant pending <= parses.Keys
      invariant words.Keys == parses.Keys - pending
      invariant forall d | d in words :: words[d] == WordsOf(parses[d])
      decreases |pending|
    {
      var d :| d in pending;
      var w := DocumentWords(parses[d]);
      words := words[d := w];
      pending := pending - {d};
    }
  }

  /** `get_pos_tags`: the part-of-speech tags of every document, under the document's id. */
  method GetPosTags(parses: map<string, Document>) returns (tags: map<string, seq<string>>)
    ensures tags.Keys == parses.Keys
    ensures forall d | d in parses :: tags[d] == PosTagsOf(parses[d])
  {
    tags := map[];
    var pending := parses.Keys;
    while pending != {}
      invariant pending <= parses.Keys
      invariant tags.Keys == parses.Keys - pending
      invariant forall d | d in tags :: tags[d] == PosTagsOf(parses[d])
      decreases |pending|
    {
      var d :| d in pending;
      var t := DocumentPosTags(parses[d]);
      tags := tags[d := t];
      pending := pending - {d};
    }
  }
}
