/**
 * The corpus records as the loader hands them over, and the two pieces of the
 * loader that are plain data logic: restricting the parses to the requested
 * documents, and reading the gold relation lines (filter, repair, clear the
 * senses, store by id) from the first candidate file that opens.
 * Opening files and decoding JSON are not part of this model: a decoded file
 * is given as the sequence of its decoded lines.
 */
module Files {
  import opened Wrappers

  // ---------------------------------------------------------------- parses

  /** A token of a parsed sentence: its text and the attributes the pipeline reads. */
  datatype Token = Token(
    text: string,
    characterOffsetBegin: int,
    characterOffsetEnd: int,
    partOfSpeech: string,
    linkers: seq<string>)

  datatype Sentence = Sentence(words: seq<Token>)

  datatype Document = Document(sentences: seq<Sentence>)

  /** KeyError for a requested document the parses do not hold. */
  datatype ParseError = MissingDocument(docId: string)

  /** The first requested id that the parses lack, in request order. */
  function FirstMissing(docIds: seq<string>, parses: map<string, Document>): (r: Option<string>)
    ensures r.None? <==> forall i | 0 <= i < |docIds| :: docIds[i] in parses
    ensures r.Some? ==>
              exists i | 0 <= i < |docIds| ::
                docIds[i] == r.value && r.value !in parses && forall k | 0 <= k < i :: docIds[k] in parses
  {
    if docIds == [] then None
    else if docIds[0] !in parses then Some(docIds[0])
    else
      var rest := FirstMissing(docIds[1..], parses);
      assert forall i | 1 <= i < |docIds| :: docIds[i] == docIds[1..][i - 1];
      rest
  }

  /**
   * `{ doc_id: parses[doc_id] for doc_id in doc_ids }` when ids are given (even an
   * empty list), the parses unchanged when they are not.
   */
  function RestrictParses(parses: map<string, Document>, docIds: Option<seq<string>>): (r: Result<map<string, Document>, ParseError>)
    ensures docIds.None? ==> r == Success(parses)
    ensures docIds.Some? ==> (r.Success? <==> forall i | 0 <= i < |docIds.value| :: docIds.value[i] in parses)
    ensures docIds.Some? && r.Success? ==>
              && (forall d :: d in r.value <==> d in docIds.value)
              && forall d | d in r.value :: d in parses && r.value[d] == parses[d]
    ensures r.Failure? ==> docIds.Some? && r.error.docId in docIds.value && r.error.docId !in parses
  {
    match docIds
    case None => Success(parses)
    case Some(ids) =>
      match FirstMissing(ids, parses)
      case Some(d) => Failure(MissingDocument(d))
      case None => Success(map d | d in ids :: parses[d])
  }

  // ------------------------------------------------------- gold relations

  /** A `[begin, end]` pair of a CharacterSpanList. */
  datatype CharSpan = CharSpan(begin: int, end: int)

  /** A TokenList entry: character begin and end, document token index, sentence index, token offset in the sentence. */
  datatype TokenRef = TokenRef(
    characterBegin: int,
    characterEnd: int,
    documentTokenIndex: int,
    sentenceIndex: int,
    sentenceTokenIndex: int)

  /** An Arg1, Arg2, Connective or Punctuation object after repair. */
  datatype Span = Span(characterSpanList: seq<CharSpan>, rawText: string, tokenList: seq<TokenRef>)

  /** A gold relation after repair: every span has a TokenList and Punctuation has a PunctuationType. */
  datatype GoldRelation = GoldRelation(
    arg1: Span,
    arg2: Span,
    connective: Span,
    punctuation: Span,
    punctuationType: string,
    docId: string,
    id: int,
    relationType: string,
    sense: seq<string>)

  /** An argument or connective object as decoded; its TokenList may be absent. */
  datatype DecodedSpan = DecodedSpan(characterSpanList: seq<CharSpan>, rawText: string, tokenList: Option<seq<TokenRef>>)

  /** The Punctuation object as decoded; PunctuationType and TokenList may be absent. */
  datatype DecodedPunctuation = DecodedPunctuation(
    characterSpanList: seq<CharSpan>,
    punctuationType: Option<string>,
    rawText: string,
    tokenList: Option<seq<TokenRef>>)

  /** One decoded line of a relations file. */
  datatype DecodedRelation = DecodedRelation(
    arg1: DecodedSpan,
    arg2: DecodedSpan,
    connective: DecodedSpan,
    punctuation: Option<DecodedPunctuation>,
    docId: string,
    id: int,
    relationType: string,
    sense: seq<string>)

  /**
   * The keyword arguments of the loader. An empty filter list stands for both
   * None and [] (both are false in a condition). A sense filter holds whole
   * Sense lists, because the whole list is tested for membership.
   */
  datatype LoadOptions = LoadOptions(
    docIds: seq<string>,
    withSenses: bool,
    filterTypes: seq<string>,
    filterSenses: seq<seq<string>>)

  /** The three filters, tested on the record as decoded. */
  predicate Kept(rec: DecodedRelation, opts: LoadOptions) {
    && (opts.docIds == [] || rec.docId in opts.docIds)
    && (opts.filterTypes == [] || rec.relationType in opts.filterTypes)
    && (opts.filterSenses == [] || rec.sense in opts.filterSenses)
  }

  /** A missing TokenList becomes []. */
  function RepairSpan(s: DecodedSpan): Span {
    Span(s.characterSpanList, s.rawText, s.tokenList.GetOr([]))
  }

  /** The Punctuation object substituted when a record has none. */
  const EmptyPunctuation := DecodedPunctuation([], Some(""), "", Some([]))

  /**
   * The body of the line loop: None when a filter drops the record, otherwise the
   * record with its missing parts defaulted and, without senses, Sense and Type cleared.
   */
  function Repair(rec: DecodedRelation, opts: LoadOptions): (r: Option<GoldRelation>)
    ensures r.Some? <==> Kept(rec, opts)
    ensures r.Some? ==> r.value.id == rec.id && r.value.docId == rec.docId
    ensures r.Some? && opts.withSenses ==> r.value.relationType == rec.relationType && r.value.sense == rec.sense
    ensures r.Some? && !opts.withSenses ==> r.value.relationType == "" && r.value.sense == []
  {
    if !Kept(rec, opts) then None
    else
      var p := rec.punctuation.GetOr(EmptyPunctuation);
      Some(GoldRelation(
        RepairSpan(rec.arg1),
        RepairSpan(rec.arg2),
        RepairSpan(rec.connective),
        Span(p.characterSpanList, p.rawText, p.tokenList.GetOr([])),
        p.punctuationType.GetOr(""),
        rec.docId,
        rec.id,
        if opts.withSenses then rec.relationType else "",
        if opts.withSenses then rec.sense else []))
  }

  /** A complete record as it would be decoded, with every optional part present. */
  function Decoded(g: GoldRelation): DecodedRelation {
    DecodedRelation(
      DecodedSpan(g.arg1.characterSpanList, g.arg1.rawText, Some(g.arg1.tokenList)),
      DecodedSpan(g.arg2.characterSpanList, g.arg2.rawText, Some(g.arg2.tokenList)),
      DecodedSpan(g.connective.characterSpanList, g.connective.rawText, Some(g.connective.tokenList)),
      Some(DecodedPunctuation(g.punctuation.characterSpanList, Some(g.punctuationType), g.punctuation.rawText, Some(g.punctuation.tokenList))),
      g.docId, g.id, g.relationType, g.sense)
  }

  /** A complete record that the filters keep comes through the repair unchanged. */
  lemma RepairKeepsCompleteRecords(g: GoldRelation, opts: LoadOptions)
    requires opts.withSenses && Kept(Decoded(g), opts)
    ensures Repair(Decoded(g), opts) == Some(g)
  {
  }

  /** Repairing a repaired record again changes nothing: the repair is idempotent. */
  lemma RepairIdempotent(rec: DecodedRelation, opts: LoadOptions)
    requires Repair(rec, opts).Some?
    requires Kept(Decoded(Repair(rec, opts).value), opts)
    ensures Repair(Decoded(Repair(rec, opts).value), opts) == Repair(rec, opts)
  {
  }

  /** Each missing part gets its default and the parts that are present are kept. */
  lemma RepairDefaults(rec: DecodedRelation, opts: LoadOptions)
    requires Kept(rec, opts)
    ensures var g := Repair(rec, opts).value;
            && g.arg1.tokenList == (if rec.arg1.tokenList.Some? then rec.arg1.tokenList.value else [])
            && g.arg2.tokenList == (if rec.arg2.tokenList.Some? then rec.arg2.tokenList.value else [])
            && g.connective.tokenList == (if rec.connective.tokenList.Some? then rec.connective.tokenList.value else [])
            && g.arg1.characterSpanList == rec.arg1.characterSpanList && g.arg1.rawText == rec.arg1.rawText
            && g.arg2.characterSpanList == rec.arg2.characterSpanList && g.arg2.rawText == rec.arg2.rawText
            && g.connective.characterSpanList == rec.connective.characterSpanList && g.connective.rawText == rec.connective.rawText
            && (rec.punctuation.None? ==> g.punctuation == Span([], "", []) && g.punctuationType == "")
            && (rec.punctuation.Some? ==>
                  && g.punctuation.characterSpanList == rec.punctuation.value.characterSpanList
                  && g.punctuation.rawText == rec.punctuation.value.rawText
                  && g.punctuation.tokenList == (if rec.punctuation.value.tokenList.Some? then rec.punctuation.value.tokenList.value else [])
                  && g.punctuationType == (if rec.punctuation.value.punctuationType.Some? then rec.punctuation.value.punctuationType.value else ""))
  {
  }

  /** Filtering happens before the senses are cleared: the mode does not change which records survive. */
  lemma FiltersSeeOriginalSenses(rec: DecodedRelation, opts: LoadOptions)
    ensures Repair(rec, opts).Some? == Repair(rec, opts.(withSenses := true)).Some?
    ensures Repair(rec, opts).Some? ==> Repair(rec, opts.(withSenses := true)).value.sense == rec.sense
  {
  }

  /** The id-keyed store after the given lines, later lines overwriting earlier ones. */
  function StoreAll(lines: seq<DecodedRelation>, opts: LoadOptions): map<int, GoldRelation> {
    if lines == [] then map[]
    else
      var stored := StoreAll(lines[..|lines| - 1], opts);
      match Repair(lines[|lines| - 1], opts)
      case Some(g) => stored[g.id := g]
      case None => stored
  }

  /** Line `k` survives the filters and carries relation id `id`. */
  predicate StoresAt(lines: seq<DecodedRelation>, opts: LoadOptions, k: nat, id: int)
    requires k < |lines|
  {
    Kept(lines[k], opts) && lines[k].id == id
  }

  /** The store holds exactly the ids of lines that survive the filters. */
  lemma {:induction false} StoreAllKeys(lines: seq<DecodedRelation>, opts: LoadOptions, id: int)
    ensures id in StoreAll(lines, opts) <==> exists k | 0 <= k < |lines| :: StoresAt(lines, opts, k, id)
  {
    if lines != [] {
      var init := lines[..|lines| - 1];
      var n := |lines| - 1;
      StoreAllKeys(init, opts, id);
      assert forall k | 0 <= k < n :: StoresAt(init, opts, k, id) == StoresAt(lines, opts, k, id);
      match Repair(lines[n], opts)
      case Some(g) =>
        assert StoreAll(lines, opts) == StoreAll(init, opts)[g.id := g];
        if g.id == id {
          assert StoresAt(lines, opts, n, id);
        }
      case None =>
        assert StoreAll(lines, opts) == StoreAll(init, opts);
    }
  }

  /** Under each id the store holds the repaired record of the last line with that id: last write wins. */
  lemma {:induction false} StoreAllLastWriteWins(lines: seq<DecodedRelation>, opts: LoadOptions, id: int)
    requires id in StoreAll(lines, opts)
    ensures exists k | 0 <= k < |lines| ::
              && StoresAt(lines, opts, k, id)
              && StoreAll(lines, opts)[id] == Repair(lines[k], opts).value
              && forall k' | k < k' < |lines| :: !StoresAt(lines, opts, k', id)
  {
    var init := lines[..|lines| - 1];
    var n := |lines| - 1;
    if StoresAt(lines, opts, n, id) {
      assert StoreAll(lines, opts)[id] == Repair(lines[n], opts).value;
    } else {
      assert StoreAll(lines, opts)[id] == StoreAll(init, opts)[id] && id in StoreAll(init, opts) by {
        match Repair(lines[n], opts)
        case Some(g) =>
          assert StoreAll(lines, opts) == StoreAll(init, opts)[g.id := g];
        case None =>
          assert StoreAll(lines, opts) == StoreAll(init, opts);
      }
      StoreAllLastWriteWins(init, opts, id);
      var k :| 0 <= k < n && StoresAt(init, opts, k, id) && StoreAll(init, opts)[id] == Repair(init[k], opts).value
               && forall k' | k < k' < n :: !StoresAt(init, opts, k', id);
      assert StoresAt(lines, opts, k, id);
      assert forall k' | k < k' < n :: StoresAt(init, opts, k', id) == StoresAt(lines, opts, k', id);
    }
  }

  /** The candidate file names, tried in order, when the caller names none. */
  function DefaultRelationFormats(withSenses: bool): (r: seq<string>)
    ensures |r| == (if withSenses then 3 else 4)
    ensures r[0] == "{}/relations-no-senses.json" <==> !withSenses
    ensures r[|r| - 3..] == ["{}/relations.json", "{}/pdtb-data.json", "{}/pdtb_trial_data.json"]
  {
    var noSenses := if withSenses then [] else ["{}/relations-no-senses.json"];
    noSenses + ["{}/relations.json", "{}/pdtb-data.json", "{}/pdtb_trial_data.json"]
  }

  /** The first candidate that opens; `files` holds the decoded lines of each file that opens. */
  function FirstOpened(candidates: seq<string>, files: map<string, seq<DecodedRelation>>): (r: Option<string>)
    ensures r.None? <==> forall i | 0 <= i < |candidates| :: candidates[i] !in files
    ensures r.Some? ==>
              exists i | 0 <= i < |candidates| ::
                candidates[i] == r.value && r.value in files && forall k | 0 <= k < i :: candidates[k] !in files
  {
    if candidates == [] then None
    else if candidates[0] in files then Some(candidates[0])
    else
      assert forall i | 1 <= i < |candidates| :: candidates[i] == candidates[1..][i - 1];
      FirstOpened(candidates[1..], files)
  }

  /**
   * `load_relations_gold` without the I/O: the first candidate file that opens is
   * read line by line and the loop stops there; no file that opens gives {}.
   */
  method LoadRelationsGold(files: map<string, seq<DecodedRelation>>, formats: Option<seq<string>>, opts: LoadOptions)
    returns (relations: map<int, GoldRelation>)
    ensures var candidates := if formats.Some? then formats.value else DefaultRelationFormats(opts.withSenses);
            relations == match FirstOpened(candidates, files)
                         case Some(f) => StoreAll(files[f], opts)
                         case None => map[]
  {
    var candidates := if formats.Some? then formats.value else DefaultRelationFormats(opts.withSenses);
    relations := map[];
    var c := 0;
    while c < |candidates|
      invariant 0 <= c <= |candidates|
      invariant forall k | 0 <= k < c :: candidates[k] !in files
    {
      if candidates[c] in files {
        var lines := files[candidates[c]];
        var i := 0;
        while i < |lines|
          invariant 0 <= i <= |lines|
          invariant relations == StoreAll(lines[..i], opts)
        {
          assert lines[..i + 1][..i] == lines[..i];
          var relation := Repair(lines[i], opts);
          if relation.Some? {
            relations := relations[relation.value.id := relation.value];
          }
          i := i + 1;
        }
        assert lines[..i] == lines;
        return;
      }
      c := c + 1;
    }
  }
}
