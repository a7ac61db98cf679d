# conll16st token metadata and relation tags, in Dafny

This project models the core of the CoNLL 2016 shared-task corpus pipeline (v20).
That core turns parsed documents and gold discourse relations into per-token
metadata carrying relation tags:

- **Token indexer** (`get_metas`, `get_words`, `get_pos_tags` in
  `v20/conll16st/words.py`). It walks each document's sentences and tokens with
  four counters: paragraph, sentence, token and the previous token's end offset.
  - A paragraph break is found by matching the raw text skipped between two
    tokens against `^\W*\n\n\W*$` (MULTILINE).
  - Each token's linkers `<kind>_<id>` are read into parallel lists of relation
    ids and span kinds.
- **Relation normaliser and linker** (`get_relations`, `get_relation_metas`,
  `add_relation_tags` in `v20/conll16st/relations.py`).
  - Each gold relation is reduced to the token ids and character lengths of its
    four spans, with minimum, maximum and count.
  - Its type, senses and document are projected.
  - Every token's RelationTags are rewritten in place to
    `Type:Sense[0]:id:Span` strings.
- **Gold relation loading** (`v20/conll16st/files.py`).
  - The per-line loop of `load_relations_gold` filters, repairs, clears the senses
    and stores by id, reading only the first candidate file that opens.
  - The document restriction of `load_parses` is modelled as well.

Modules, one per file:

| file | module | what |
|---|---|---|
| `wrappers.dfy` | `Wrappers` | `Option` and `Result` |
| `decimal.dfy` | `Decimal` | Python 2 `int(text)` and `str(n)` on integers |
| `files.dfy` | `Files` | parse and gold-relation records, `load_parses` restriction, `load_relations_gold` |
| `paragraphs.dfy` | `Paragraphs` | the paragraph-separator regex and Python slicing |
| `linkers.dfy` | `Linkers` | reading one linker and a token's list of linkers |
| `words.dfy` | `Words` | flattening documents, `get_words`, `get_pos_tags` |
| `metas.dfy` | `Metas` | `get_metas` |
| `relations.dfy` | `Relations` | `get_relations`, `get_relation_metas`, `add_relation_tags` |

How the model is built:

- Python dictionaries become Dafny maps.
- A `for doc_id in …` loop over a dictionary, whose order Python leaves
  unspecified, becomes a `while` loop that picks any pending key (`GetWords`,
  `GetPosTags`, `GetMetas`, `AddRelationTags`); the `iteritems` comprehensions of
  `get_relations` and `get_relation_metas` become map comprehensions.
- The loops of the source are methods with loop invariants. Each is proved equal to
  a closed-form specification function:
  - `DocumentMetas` to `IndexDocument`;
  - `TagToken` to `TagsOf`;
  - `DocumentWords` to `WordsOf`;
  - `LoadRelationsGold` to `StoreAll` and `FirstOpened`.
- The properties the source promises are lemmas about those functions.
- Exceptions become the `Failure` case of a `Result`:
  - `TypeError`/`KeyError` on missing raw text becomes `MissingRawText`;
  - `ValueError`/`KeyError` on a bad linker becomes `InvalidLinker`;
  - `ValueError` of `min([])` becomes `EmptyRelation`;
  - `IndexError` of `Sense[0]` becomes `EmptySense`;
  - `KeyError` on a requested document that the parses lack becomes `MissingDocument`.
- `add_relation_tags` updates records in place. It is a method of the class
  `MetaTable`, whose field `docs` holds the token metadata of every document.
- Python 2 `zip` stops at the shorter list, and `PairCount` models this, although
  `get_metas` always makes RelationIDs and RelationSpans the same length.
- `Relations.FirstTokenTagsExample` writes the expected tag as the concatenation
  `"Explicit" + ":" + "Expansion.Conjunction" + ":" + "14890" + ":" + "Arg1"`,
  which is the same string.

Notes on the code's behaviour, which the model follows:

- **Paragraph separator.** The regex `^\W*\n\n\W*$`:
  - requires two adjacent `\n`, not merely a line holding only whitespace;
  - allows any non-word character (ASCII, without `re.UNICODE`) around them;
  - thanks to MULTILINE, also matches when a further newline follows, whatever
    comes after that newline.

  `Paragraphs.ThirdNewlineEndsSeparator` shows the last point.
- **Bad linkers and empty senses.** A bad linker and a found relation with an empty
  Sense are not skipped: the code raises in both cases, so the model fails.
- **Sense filter.** It is tested on the whole Sense list, as `relation['Sense'] not
  in filter_senses` does.

## Model

| member | source | states |
|---|---|---|
| Words.GetWords | v20/conll16st/words.py:15-28 | one entry per document id of the parses, holding that document's token texts in document order (WordsOf) |
| Words.GetPosTags | v20/conll16st/words.py:31-43 | one entry per document id, holding the PartOfSpeech of every token in document order (PosTagsOf) |
| Words.DocumentWords | v20/conll16st/words.py:23-27 | the nested sentence/token append loops produce exactly WordsOf of the document |
| Words.DocumentPosTags | v20/conll16st/words.py:39-42 | the nested append loops produce exactly PosTagsOf of the document |
| Words.WordsOfConcatenates | v20/conll16st/words.py:21-42 | words and tags both have the total token count as length; token j of sentence s sits at index (tokens of earlier sentences) + j, with that token's text and part of speech |
| Words.FlattenLength | v20/conll16st/words.py:24-25 | the flattened token list loses and adds nothing: its length is the sum of the sentence lengths |
| Words.Located | v20/conll16st/words.py:72-75 | token j of sentence s is document token (tokens of earlier sentences) + j, placed in sentence s whose first token has that count as index |
| Words.PlacesSorted | v20/conll16st/words.py:67-105 | sentence indices never decrease along the document |
| Words.PlacesBounded | v20/conll16st/words.py:105 | every token's sentence index is below the number of sentences |
| Words.PlacesOffset | v20/conll16st/words.py:73 | a token's sentence offset is the index of the first token of its sentence: at most its own index, with the same place, and preceded by a token of an earlier sentence |
| Paragraphs.MatchesSeparatorIsRegex | v20/conll16st/words.py:79-81 | the left-to-right matcher run on the skipped text accepts exactly the strings matched by `^\W*\n\n\W*$` with MULTILINE: non-word text, `\n\n`, non-word text, then the end or a newline |
| Paragraphs.MatchesSeparator | v20/conll16st/words.py:80 | the `re.match` of the separator pattern, run as a left-to-right scan; its meaning is MatchesSeparatorIsRegex |
| Paragraphs.Slice | v20/conll16st/words.py:79 | Python's `raw[from:to]` with negative and out-of-range bounds clamped; its meaning is SliceMeaning |
| Paragraphs.SliceMeaning | v20/conll16st/words.py:79 | the Python slice of the raw text: in-range bounds slice normally, crossed bounds give "", a start past the text gives "", an end past the text stops at its end, a negative bound counts from the end and one reaching before the start means the start (for `from`) or gives "" (for `to`) |
| Paragraphs.NonWordGapWithBlankLine | v20/conll16st/words.py:60 | any all-non-word gap containing `\n\n` is a separator |
| Paragraphs.SeparatorHasBlankLine | v20/conll16st/words.py:60 | every separator contains `\n\n` with no word character before it |
| Paragraphs.StartMarkerIsNotSeparator | v20/conll16st/files.py:49 | `.START \n\n`, the text before the first token of wsj_1000, is not a separator |
| Paragraphs.BlankLineBeforeWordIsNotSeparator | v20/conll16st/words.py:60 | `\n\nKemper` does not match: `$` needs the end or a newline after the non-word run |
| Paragraphs.ThirdNewlineEndsSeparator | v20/conll16st/words.py:80 | `\n\n\nKemper` matches, because MULTILINE `$` matches before the third newline |
| Linkers.SpanOfPrefixMeaning | v20/conll16st/words.py:62 | the lookup table maps exactly arg1, arg2, conn and punct, each to the role whose prefix it is; every other string raises KeyError |
| Linkers.SpanOfPrefixOfKind | v20/conll16st/words.py:62 | each role's prefix is looked up as that role (the prefixes are distinct) |
| Linkers.LastUnderscoreMeaning | v20/conll16st/words.py:88 | rsplit splits at an underscore with none after it, and fails only when there is no underscore |
| Linkers.ParseLinker | v20/conll16st/words.py:88-90 | rsplit at the last underscore, then int() of the id, then the prefix lookup, failing at the first step that raises; its meaning is ParseLinkerMeaning |
| Linkers.ParseLinkers | v20/conll16st/words.py:85-90 | the linkers read one after another into ids and spans, stopping at the first that raises; its meaning is ParseLinkersMeaning |
| Linkers.ParseLinkerRoundTrip | v20/conll16st/words.py:88-90 | the linker written for role k of relation id reads back as (id, k), for every id including negatives |
| Linkers.ParseLinkerSplitsAtLastUnderscore | v20/conll16st/words.py:88-90 | a linker that reads is the prefix of its role, an underscore that is the last one, and text that int() reads as its id |
| Linkers.ParseLinkerComplete | v20/conll16st/words.py:88-90 | a role's prefix, an underscore and any underscore-free text that int() reads, with leading zeros, padding or a `+`, reads as that role and value |
| Linkers.ParseLinkerMeaning | v20/conll16st/words.py:88-90 | a linker reads as a link iff it is the prefix of the link's role, an underscore, and underscore-free text that int() reads as the link's id |
| Linkers.LeadingZeroIdExample | v20/conll16st/words.py:89 | `arg2_007` reads as relation 7, span Arg2 |
| Linkers.FirstTokenLinkerExample | v20/conll16st/words.py:143-144 | `arg1_14890` reads as relation 14890, span Arg1 |
| Linkers.NoUnderscoreExample | v20/conll16st/words.py:88 | `arg1` fails the two-way unpacking of rsplit |
| Linkers.BadIdExample | v20/conll16st/words.py:89 | `arg9_x` fails in int() before the prefix is looked up |
| Linkers.UnknownPrefixExample | v20/conll16st/words.py:88-90 | `conn_x_7` splits at its last underscore and fails on the prefix `conn_x` |
| Linkers.ParseLinkersMeaning | v20/conll16st/words.py:85-90 | a token's linkers read iff every linker reads; then ids and spans have one entry per linker in linker order; otherwise the error is that of the first unreadable linker |
| Linkers.ParseLinkersFirstBad | v20/conll16st/words.py:87-90 | the loop stops at the first unreadable linker, whatever follows it |
| Decimal.ParseIntDigits | v20/conll16st/words.py:89 | int() of a run of ASCII digits is their decimal value |
| Decimal.ParseIntNeedsDigit | v20/conll16st/words.py:89 | int() of text without a digit raises |
| Decimal.ParseIntNegative | v20/conll16st/words.py:89 | int() of `-` and digits is the negated value |
| Decimal.ParseInt | v20/conll16st/words.py:89 | Python 2 `int()` in base 10 on ASCII text, None where it raises; its meaning is ParseIntMeaning |
| Decimal.ParseIntComplete | v20/conll16st/words.py:89 | every text made of whitespace, an optional sign, whitespace after a sign, at least one digit and whitespace reads as the signed value of its digits |
| Decimal.ParseIntSound | v20/conll16st/words.py:89 | every text int() reads has that shape and reads as the value the shape denotes |
| Decimal.ParseIntMeaning | v20/conll16st/words.py:89 | int(s) == v iff s is whitespace, an optional sign, whitespace only after a sign, a non-empty run of digits, whitespace, and v is the digits' value, negated after a minus |
| Decimal.ParseIntCharacters | v20/conll16st/words.py:89 | a text int() reads holds only whitespace, digits, `+` and `-` |
| Decimal.ParseIntRejectsStray | v20/conll16st/words.py:89 | one character that is not whitespace, a digit or a sign anywhere in the text makes int() raise |
| Decimal.PaddedSignExample | v20/conll16st/words.py:89 | `int(" + 12 ")` is 12 |
| Decimal.IntToString | v20/conll16st/relations.py:120 | str() of an integer is non-empty, all digits but for a leading minus exactly on negatives, and has no leading zero: it starts with `0` only for 0 itself, written `0` |
| Decimal.IntToStringRoundTrip | v20/conll16st/relations.py:120 | int(str(n)) == n for every integer n |
| Metas.ReadLinkers | v20/conll16st/words.py:85-90 | the per-token linker loop computes ParseLinkers of the token's linkers |
| Metas.IndexToken | v20/conll16st/words.py:76-104 | one token step keeps the counters and output equal to the closed form after one more token, or fails exactly at the first token with an unreadable linker |
| Metas.SentenceMetas | v20/conll16st/words.py:73-104 | the token loop of one sentence advances the closed form by that sentence's tokens, or fails as the closed form does (missing raw text, first bad linker) |
| Metas.DocumentMetas | v20/conll16st/words.py:66-105 | the counters-and-nested-loops body for one document returns exactly IndexDocument |
| Metas.GetMetas | v20/conll16st/words.py:46-106 | succeeds iff every document indexes; then one entry per document id equal to IndexDocument; on failure, the error is that of some failing document |
| Metas.LinksOfMeaning | v20/conll16st/words.py:85-90 | each token's linker reading is ParseLinkers of its own linkers |
| Metas.IndexDocumentOutcome | v20/conll16st/words.py:79-90 | a document indexes iff it has raw text or no token, and every token's linkers read; then one meta per token; a token without raw text fails with MissingRawText; otherwise the error is that of the first token whose linkers fail |
| Metas.IndexDocument | v20/conll16st/words.py:66-105 | the closed form of one document's metas, token by token in document order; its meaning is IndexDocumentOutcome, IndexedToken, IndexedSentence and ParagraphStep |
| Metas.IndexedToken | v20/conll16st/words.py:93-104 | meta k has TokenID k, the token's text, the document's id, its sentence and sentence offset, and its linkers read into RelationIDs/RelationSpans of equal length, one per linker; RelationTags empty |
| Metas.IndexedSentence | v20/conll16st/words.py:72-105 | token j of sentence s gets SentenceID s (empty sentences count), SentenceOffset = tokens in earlier sentences, TokenID = that offset + j |
| Metas.ParagraphStep | v20/conll16st/words.py:78-82 | ParagraphID is 0 before the first token and rises by exactly 1 at token k iff the slice from the previous token's end (0 at the first) to k's begin matches the separator regex |
| Metas.ParagraphIdsMonotone | v20/conll16st/words.py:66-81 | ParagraphID never decreases along a document and grows by at most one per token |
| Metas.FirstTokenParagraphExample | v20/conll16st/words.py:136-145 | with `.START \n\n` before it, the first token of a document stays in paragraph 0 |
| Files.FirstMissing | v20/conll16st/files.py:42 | the first requested id (in request order) the parses lack, or none iff all are present |
| Files.RestrictParses | v20/conll16st/files.py:41-42 | without ids the parses are returned unchanged; with ids the result has exactly those keys and the parses' values, or fails with a requested id the parses lack |
| Files.Repair | v20/conll16st/files.py:105-137 | a record is kept iff it passes the doc-id, type and whole-Sense filters; the kept record keeps its ID and DocID; with senses it keeps Type and Sense, without them both are cleared |
| Files.RepairDefaults | v20/conll16st/files.py:117-129 | a missing TokenList becomes []; a missing Punctuation becomes the empty one with PunctuationType ""; a present Punctuation gets its PunctuationType and TokenList defaulted independently; the CharacterSpanList and RawText of Arg1, Arg2, Connective and Punctuation, and every present TokenList, are kept |
| Files.RepairKeepsCompleteRecords | v20/conll16st/files.py:117-129 | a complete record read with senses comes through the repair unchanged |
| Files.RepairIdempotent | v20/conll16st/files.py:117-134 | repairing an already repaired record changes nothing |
| Files.FiltersSeeOriginalSenses | v20/conll16st/files.py:105-134 | filtering happens before clearing: the senses mode does not change which records survive, and the filters see the original Sense |
| Files.StoreAllKeys | v20/conll16st/files.py:102-137 | the store holds exactly the ids of the lines that pass the filters |
| Files.StoreAll | v20/conll16st/files.py:99-137 | the lines of one file stored in order under their ID, each repaired and filtered; its meaning is StoreAllKeys and StoreAllLastWriteWins |
| Files.StoreAllLastWriteWins | v20/conll16st/files.py:137 | under each id the store holds the repaired record of the last surviving line with that id |
| Files.DefaultRelationFormats | v20/conll16st/files.py:85-95 | three candidate names with senses, four without; relations-no-senses.json comes first iff senses are withheld; the three shared names follow in order |
| Files.FirstOpened | v20/conll16st/files.py:99-141 | the first candidate that opens, or none iff no candidate opens |
| Files.LoadRelationsGold | v20/conll16st/files.py:71-142 | the loops read only the first candidate that opens, storing its lines by StoreAll; {} when none opens |
| Relations.TokenIds | v20/conll16st/relations.py:41-44 | one id per TokenList entry, in order, each the entry's document token index (third component) |
| Relations.GetRelation | v20/conll16st/relations.py:37-70 | the record built for one gold relation; its meaning is GetRelationMeaning |
| Relations.GetRelations | v20/conll16st/relations.py:14-71 | the records of all gold relations, raising if any is token-less; its meaning is GetRelationsMeaning |
| Relations.SpanLengthAppend | v20/conll16st/relations.py:48-51 | the summed span length is additive over concatenated span lists |
| Relations.SpanLengthNonNegative | v20/conll16st/relations.py:48-51 | spans with begin <= end sum to a length >= 0 |
| Relations.Min | v20/conll16st/relations.py:66 | min of a non-empty list is one of its elements and bounds all of them from below |
| Relations.Max | v20/conll16st/relations.py:67 | max of a non-empty list is one of its elements and bounds all of them from above |
| Relations.GetRelationMeaning | v20/conll16st/relations.py:37-69 | fails iff all four TokenLists are empty; otherwise ids per span in order, span lengths, TokenCount = sum of the four list lengths (no dedup), TokenMin/TokenMax members of the concatenation bounding every id, ID = key |
| Relations.GetRelationsMeaning | v20/conll16st/relations.py:14-71 | succeeds iff no relation is token-less; then exactly the input keys, each holding its relation's record whose ID is the key |
| Relations.Relation14887Example | v20/conll16st/relations.py:126-148 | relation 14887 of wsj_1000 gives Arg1Len 24, Arg2Len 26, ConnectiveLen 7, PunctuationLen 0, TokenMin 465, TokenMax 476, TokenCount 12 |
| Relations.GetRelationMetas | v20/conll16st/relations.py:74-97 | exactly the input keys; each record copies Type, Sense and DocID unchanged and has ID = key |
| Relations.RelationsAndMetasAgree | v20/conll16st/relations.py:36-96 | both projections index the same relations with the same ID and DocID |
| Relations.JoinFour | v20/conll16st/relations.py:120 | `":".join` of four parts puts one colon between each two |
| Relations.SplitJoin | v20/conll16st/relations.py:120 | splitting a join of colon-free parts at the colons gives the parts back |
| Relations.RelationTagRoundTrip | v20/conll16st/relations.py:116-120 | a tag splits back into Type, Sense[0], the id text and the span name, and the id text reads as the id |
| Relations.FoundMeaning | v20/conll16st/relations.py:112-114 | the found pairs are in range, refer to known relations, increase, and include every known relation |
| Relations.TagsFollowFound | v20/conll16st/relations.py:111-121 | on success there is one tag per found pair, in pair order, each that pair's `Type:Sense[0]:id:Span` |
| Relations.TagsOf | v20/conll16st/relations.py:111-121 | the tags one token gets from its relation ids and spans; its meaning is TagsFollowFound and TagsFailAtFirstUnsensed |
| Relations.FirstUnsensed | v20/conll16st/relations.py:117 | the first pair whose relation is found with an empty Sense, or none iff no such pair |
| Relations.TagsFailAtFirstUnsensed | v20/conll16st/relations.py:113-117 | tagging succeeds iff no found relation has an empty Sense; otherwise the error names the first such pair's relation |
| Relations.FoundNone | v20/conll16st/relations.py:113-114 | when no pair's relation is known, nothing is found |
| Relations.TagsBounded | v20/conll16st/relations.py:111-121 | a token never gets more tags than relation ids, and a token without linkers gets [] |
| Relations.TaggingIdempotent | v20/conll16st/relations.py:111 | RelationTags is reset first, so tagging a tagged token again gives the same tags |
| Relations.TagsFailureStays | v20/conll16st/relations.py:117 | once tagging raises, later pairs do not change the error |
| Relations.TagToken | v20/conll16st/relations.py:111-121 | the pair loop with `continue` computes exactly TagsOf of the token |
| Relations.TagDocument | v20/conll16st/relations.py:110-121 | on success every token carries its TagsOf and nothing else changed; on failure the error is that of some token |
| Relations.TaggingKeepsOtherFields | v20/conll16st/relations.py:111-121 | tagging a document changes only RelationTags, keeping count and order |
| Relations.MetaTable.AddRelationTags | v20/conll16st/relations.py:100-121 | the same documents and tokens in the same order with every other field unchanged; on success every token's RelationTags is its TagsOf; on failure the error is that of some token of some document |
| Relations.FirstTokenTagsExample | v20/conll16st/relations.py:167-168 | token 0 of wsj_1000 (Arg1 of explicit Expansion.Conjunction 14890) gets the single tag `Explicit:Expansion.Conjunction:14890:Arg1` |
| Relations.UnknownRelationExample | v20/conll16st/relations.py:113-114 | a token whose relations are all unknown gets no tag |
| Relations.NoSensesTaggingFails | v20/conll16st/files.py:131-134 | a relation loaded without senses has an empty Sense, so tagging a token that refers to it raises |

## Left out

- Opening files, `codecs` and JSON decoding are I/O. A relations file that opens is
  given as its decoded lines, keyed by its candidate name. An IOError in the middle
  of a file, which leaves the lines read so far and falls through to the next
  candidate, is not modelled.
- `load_parses` reads the parses file the same way. Only its doc-id restriction is
  modelled.
- `load_raws` is I/O. Raw text is an `Option<string>` input per document, and a
  document missing from the raw-text map is treated like None.
- Parse trees and dependencies in the parse records are not modelled, because the
  core never reads them.
- Python 2 dictionary iteration order is not modelled.
  - Results are maps.
  - Where the source raises partway through, the model's error is that of some
    failing entry. The order would fix which one.
- Metas.GetMetas: on failure, states only that the error is that of some failing
  document, because which one depends on dictionary order.
- Relations.GetRelationsMeaning: does not say which relation raised. The error
  carries no id, and dictionary order decides which one raises.
- Relations.MetaTable.AddRelationTags: does not state the RelationTags left behind
  when it raises.
  - The source has by then rewritten the tokens it visited, including a partial
    list on the failing token.
  - The model writes back a document only once all of its tokens are tagged.
- Decimal.ParseInt: covers ASCII digits and ASCII whitespace only. Python 2's
  `int()` of unicode text also accepts other Unicode decimal digits and spaces.
- Metas.IndexDocument: the token metadata carries an empty RelationTags from the
  start, whereas `get_metas` adds the key only when `add_relation_tags` runs.
- The imports `from load import ...` and `from words import get_word_metas` name
  code that is not part of this model. `get_word_metas` is taken to be `get_metas`.
- The `test_*` functions need the trial corpus on disk. Their literal values appear
  only as example lemmas.
