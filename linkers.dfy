/**
 * Linker strings on tokens, `<kind>_<relation id>`: the token indexer splits
 * each at its last underscore, reads the id with `int()` and looks the kind up
 * in the table {arg1, arg2, conn, punct}, in that order.
 */
module Linkers {
  import opened Wrappers
  import opened Decimal

  /** The four roles a token can play in a discourse relation. */
  datatype SpanKind = Arg1 | Arg2 | Connective | Punctuation {

    /** The name stored in RelationSpans and written into relation tags. */
    function Name(): string {
      match this
      case Arg1 => "Arg1"
      case Arg2 => "Arg2"
      case Connective => "Connective"
      case Punctuation => "Punctuation"
    }

    /** The prefix that linkers use for this role. */
    function LinkerPrefix(): string {
      match this
      case Arg1 => "arg1"
      case Arg2 => "arg2"
      case Connective => "conn"
      case Punctuation => "punct"
    }
  }

  /** The table lookup of a linker prefix; a prefix outside the table raises KeyError (None). */
  function SpanOfPrefix(p: string): Option<SpanKind> {
    if p == "arg1" then Some(Arg1)
    else if p == "arg2" then Some(Arg2)
    else if p == "conn" then Some(Connective)
    else if p == "punct" then Some(Punctuation)
    else None
  }

  /** Each role is found under its own prefix, and nothing is found under any other string. */
  lemma SpanOfPrefixMeaning(p: string)
    ensures SpanOfPrefix(p).Some? ==> SpanOfPrefix(p).value.LinkerPrefix() == p
    ensures SpanOfPrefix(p).None? <==> p != "arg1" && p != "arg2" && p != "conn" && p != "punct"
  {
    var r := SpanOfPrefix(p);
    if r.Some? {
      match r.value
      case Arg1 => assert p == "arg1";
      case Arg2 => assert p == "arg2";
      case Connective => assert p == "conn";
      case Punctuation => assert p == "punct";
    }
  }

  /** The prefix of a role is looked up as that role: the prefixes are pairwise distinct. */
  lemma SpanOfPrefixOfKind(kind: SpanKind)
    ensures SpanOfPrefix(kind.LinkerPrefix()) == Some(kind)
  {
    var p := kind.LinkerPrefix();
    SpanOfPrefixMeaning(p);
    var r := SpanOfPrefix(p);
    assert r.Some?;
    assert r.value.LinkerPrefix() == p;
    match kind
    case Arg1 =>
    case Arg2 =>
    case Connective =>
    case Punctuation =>
  }

  /** Why a linker cannot be read: no underscore, a non-integer id, or an unknown prefix. */
  datatype LinkerError = NoSeparator | BadRelationId | UnknownSpanKind

  /** One parsed linker. */
  datatype Link = Link(relationId: int, span: SpanKind)

  /** Position of the underscore `rsplit("_", 1)` splits at. */
  function LastUnderscore(s: string): (r: Option<nat>)
    ensures r.Some? ==> r.value < |s|
  {
    if s == [] then None
    else if s[|s| - 1] == '_' then Some(|s| - 1)
    else LastUnderscore(s[..|s| - 1])
  }

  /** The split point is the last underscore, and there is none when the search fails. */
  lemma {:induction false} LastUnderscoreMeaning(s: string)
    ensures LastUnderscore(s).Some? ==>
              && s[LastUnderscore(s).value] == '_'
              && forall k | LastUnderscore(s).value < k < |s| :: s[k] != '_'
    ensures LastUnderscore(s).None? ==> forall k | 0 <= k < |s| :: s[k] != '_'
  {
    if s != [] && s[|s| - 1] != '_' {
      var init := s[..|s| - 1];
      LastUnderscoreMeaning(init);
      assert forall k | 0 <= k < |init| :: init[k] == s[k];
    }
  }

  /** An underscore with none after it is where the search stops. */
  lemma {:induction false} LastUnderscoreAt(s: string, i: nat)
    requires i < |s| && s[i] == '_' && forall k | i < k < |s| :: s[k] != '_'
    ensures LastUnderscore(s) == Some(i)
  {
    if i < |s| - 1 {
      var init := s[..|s| - 1];
      assert forall k | i < k < |init| :: init[k] == s[k];
      LastUnderscoreAt(init, i);
    }
  }

  /** `kind, id = linker.rsplit("_", 1)`, then `int(id)`, then the table lookup of `kind`. */
  function ParseLinker(linker: string): Result<Link, LinkerError> {
    match LastUnderscore(linker)
    case None => Failure(NoSeparator)
    case Some(i) =>
      match ParseInt(linker[i + 1..])
      case None => Failure(BadRelationId)
      case Some(id) =>
        match SpanOfPrefix(linker[..i])
        case None => Failure(UnknownSpanKind)
        case Some(kind) => Success(Link(id, kind))
  }

  /** The linker the corpus writes for a token in role `kind` of relation `id`. */
  function FormatLinker(kind: SpanKind, id: int): string {
    kind.LinkerPrefix() + "_" + IntToString(id)
  }

  /** No underscore occurs in `t`. */
  predicate NoUnderscore(t: string) {
    forall k | 0 <= k < |t| :: t[k] != '_'
  }

  /**
   * A role's prefix, an underscore and any underscore-free text that int() reads
   * (leading zeros, padding and a `+` included) is read as that role and value.
   */
  lemma ParseLinkerComplete(kind: SpanKind, t: string)
    requires NoUnderscore(t) && ParseInt(t).Some?
    ensures ParseLinker(kind.LinkerPrefix() + "_" + t) == Success(Link(ParseInt(t).value, kind))
  {
    var p := kind.LinkerPrefix();
    var s := p + "_" + t;
    assert forall k | |p| < k < |s| :: s[k] == t[k - |p| - 1];
    assert s[|p|] == '_';
    LastUnderscoreAt(s, |p|);
    assert s[|p| + 1..] == t && s[..|p|] == p;
    SpanOfPrefixOfKind(kind);
  }

  /** Every well-formed linker is read back as the role and id it was written from. */
  lemma ParseLinkerRoundTrip(kind: SpanKind, id: int)
    ensures ParseLinker(FormatLinker(kind, id)) == Success(Link(id, kind))
  {
    IntToStringRoundTrip(id);
    ParseLinkerComplete(kind, IntToString(id));
  }

  /** A linker that parses is the known prefix of its role, an underscore and text reading as its id. */
  lemma ParseLinkerSplitsAtLastUnderscore(linker: string)
    requires ParseLinker(linker).Success?
    ensures var link := ParseLinker(linker).value;
            var n := |link.span.LinkerPrefix()|;
            && n < |linker|
            && linker[..n] == link.span.LinkerPrefix()
            && linker[n] == '_'
            && ParseInt(linker[n + 1..]) == Some(link.relationId)
            && forall k | n < k < |linker| :: linker[k] != '_'
  {
    LastUnderscoreMeaning(linker);
  }

  /**
   * A linker reads as `link` exactly when it is the prefix of the link's role, an
   * underscore, and underscore-free text that int() reads as the link's id.
   */
  lemma ParseLinkerMeaning(linker: string, link: Link)
    ensures ParseLinker(linker) == Success(link) <==>
            exists t | NoUnderscore(t) :: linker == link.span.LinkerPrefix() + "_" + t && ParseInt(t) == Some(link.relationId)
  {
    var p := link.span.LinkerPrefix();
    if ParseLinker(linker) == Success(link) {
      ParseLinkerSplitsAtLastUnderscore(linker);
      var t := linker[|p| + 1..];
      assert NoUnderscore(t) by {
        assert forall k | 0 <= k < |t| :: t[k] == linker[|p| + 1 + k];
      }
      assert linker == p + "_" + t;
    }
    if exists t | NoUnderscore(t) :: linker == p + "_" + t && ParseInt(t) == Some(link.relationId) {
      var t :| NoUnderscore(t) && linker == p + "_" + t && ParseInt(t) == Some(link.relationId);
      ParseLinkerComplete(link.span, t);
    }
  }

  /** Id text with a leading zero, as int() allows: `arg2_007` reads as relation 7. */
  lemma LeadingZeroIdExample()
    ensures ParseLinker("arg2_007") == Success(Link(7, Arg2))
  {
    var t := "007";
    var z, zz := "0", "00";
    assert z[..0] == [] && zz[..1] == z && t[..2] == zz;
    assert AllDigits(z) && DigitsValue(z) == 0;
    assert AllDigits(zz) && DigitsValue(zz) == 0;
    assert AllDigits(t) && DigitsValue(t) == 7;
    ParseIntDigits(t);
    assert Arg2.LinkerPrefix() + "_" + t == "arg2_007";
    ParseLinkerComplete(Arg2, t);
  }

  /** The relation id of the first token of wsj_1000, as `str` writes it. */
  lemma FirstTokenIdText()
    ensures IntToString(14890) == "14890"
  {
    assert NatToString(14) == "14";
    assert NatToString(1489) == NatToString(148) + "9" == "1489";
  }

  /** The linker on the first token of wsj_1000. */
  lemma FirstTokenLinkerExample()
    ensures ParseLinker("arg1_14890") == Success(Link(14890, Arg1))
  {
    var s := "arg1_14890";
    FirstTokenIdText();
    assert s == FormatLinker(Arg1, 14890);
    ParseLinkerRoundTrip(Arg1, 14890);
  }

  /** Without an underscore the two-way unpacking of rsplit fails. */
  lemma NoUnderscoreExample()
    ensures ParseLinker("arg1") == Failure(NoSeparator)
  {
    var s := "arg1";
    LastUnderscoreMeaning(s);
    assert s[0] != '_' && s[1] != '_' && s[2] != '_' && s[3] != '_';
  }

  /** int() fails before the prefix is looked up. */
  lemma BadIdExample()
    ensures ParseLinker("arg9_x") == Failure(BadRelationId)
  {
    var s := "arg9_x";
    assert LastUnderscore(s) == Some(4);
    assert s[5..] == "x";
    ParseIntNeedsDigit("x");
  }

  /** A prefix outside the table fails, also when it holds an underscore of its own. */
  lemma UnknownPrefixExample()
    ensures ParseLinker("conn_x_7") == Failure(UnknownSpanKind)
  {
    var s := "conn_x_7";
    assert LastUnderscore(s) == Some(6);
    assert s[7..] == IntToString(7);
    IntToStringRoundTrip(7);
    assert s[..6] == "conn_x";
  }

  /** The parsed ids and roles of a token's linkers, in linker order. */
  datatype Links = Links(relationIds: seq<int>, relationSpans: seq<SpanKind>)

  /** The linker that raised, and why. */
  datatype BadLinker = BadLinker(linker: string, reason: LinkerError)

  /** Linker `i` is the first one that cannot be read. */
  predicate FirstBadAt(ls: seq<string>, i: nat)
    requires i < |ls|
  {
    ParseLinker(ls[i]).Failure? && forall k | 0 <= k < i :: ParseLinker(ls[k]).Success?
  }

  /** The loop over a token's linkers, collecting ids and roles until a linker fails. */
  function ParseLinkers(ls: seq<string>): Result<Links, BadLinker> {
    if ls == [] then Success(Links([], []))
    else
      match ParseLinkers(ls[..|ls| - 1])
      case Failure(e) => Failure(e)
      case Success(links) =>
        match ParseLinker(ls[|ls| - 1])
        case Failure(why) => Failure(BadLinker(ls[|ls| - 1], why))
        case Success(link) =>
          Success(Links(links.relationIds + [link.relationId], links.relationSpans + [link.span]))
  }

  /**
   * Two parallel lists, one entry per linker in order, when every linker can be
   * read; otherwise the error of the first linker that cannot be read.
   */
  lemma {:induction false} ParseLinkersMeaning(ls: seq<string>)
    ensures ParseLinkers(ls).Success? <==> forall i | 0 <= i < |ls| :: ParseLinker(ls[i]).Success?
    ensures ParseLinkers(ls).Success? ==>
              && |ParseLinkers(ls).value.relationIds| == |ls|
              && |ParseLinkers(ls).value.relationSpans| == |ls|
              && forall i | 0 <= i < |ls| ::
                   ParseLinker(ls[i]).value == Link(ParseLinkers(ls).value.relationIds[i], ParseLinkers(ls).value.relationSpans[i])
    ensures ParseLinkers(ls).Failure? ==>
              exists i | 0 <= i < |ls| :: FirstBadAt(ls, i) && ParseLinkers(ls).error == BadLinker(ls[i], ParseLinker(ls[i]).error)
  {
    if ls != [] {
      var init := ls[..|ls| - 1];
      ParseLinkersMeaning(init);
      assert forall i | 0 <= i < |init| :: init[i] == ls[i];
      if ParseLinkers(init).Failure? {
        var i :| 0 <= i < |init| && FirstBadAt(init, i) && ParseLinkers(init).error == BadLinker(init[i], ParseLinker(init[i]).error);
        assert FirstBadAt(ls, i);
      } else if ParseLinker(ls[|ls| - 1]).Failure? {
        assert FirstBadAt(ls, |ls| - 1);
      }
    }
  }

  /** One more readable linker extends both lists by its id and its role. */
  lemma ParseLinkersExtend(ls: seq<string>, l: nat)
    requires l < |ls| && ParseLinkers(ls[..l]).Success? && ParseLinker(ls[l]).Success?
    ensures var prev, link := ParseLinkers(ls[..l]).value, ParseLinker(ls[l]).value;
            ParseLinkers(ls[..l + 1]) == Success(Links(prev.relationIds + [link.relationId], prev.relationSpans + [link.span]))
  {
    assert ls[..l + 1][..l] == ls[..l];
  }

  /** The loop stops at the first linker that cannot be read, whatever follows it. */
  lemma ParseLinkersFirstBad(ls: seq<string>, i: nat)
    requires i < |ls| && FirstBadAt(ls, i)
    ensures ParseLinkers(ls) == Failure(BadLinker(ls[i], ParseLinker(ls[i]).error))
  {
    ParseLinkersMeaning(ls);
    var r := ParseLinkers(ls);
    assert r.Failure?;
    var j :| 0 <= j < |ls| && FirstBadAt(ls, j) && r.error == BadLinker(ls[j], ParseLinker(ls[j]).error);
    FirstBadUnique(ls, i, j);
  }

  /** There is only one first unreadable linker. */
  lemma FirstBadUnique(ls: seq<string>, i: nat, j: nat)
    requires i < |ls| && j < |ls| && FirstBadAt(ls, i) && FirstBadAt(ls, j)
    ensures i == j
  {
  }
}
