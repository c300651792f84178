/**
 * The text of the parameters that the dashboard splices into its call of the
 * stored procedure `process_analyzer_orchestrator` (the eventlog, KPI and DFG
 * loaders build them with the same six lines). Lists of ids become one T-SQL
 * string literal holding the comma-joined ids, or the keyword `NULL` when the
 * list is empty; the strict-inclusion flag becomes `1` or `0`.
 *
 * `ParseLiteral` is an independent reader of T-SQL string literals (a quote
 * opens and closes the literal, two quotes inside stand for one); the round-trip
 * lemmas below say what the procedure receives.
 */
module SqlParams {
  import opened Options

  const Quote: char := '\''
  const Comma: char := ','
  const Null: string := "NULL"

  /** True when `s` holds no single quote. */
  predicate NoQuote(s: string) {
    forall i :: 0 <= i < |s| ==> s[i] != Quote
  }

  /** True when `s` holds no comma. */
  predicate NoComma(s: string) {
    forall i :: 0 <= i < |s| ==> s[i] != Comma
  }

  /** Python's `sep.join(items)`. */
  function Join(items: seq<string>, sep: string): (r: string)
  {
    if |items| == 0 then ""
    else if |items| == 1 then items[0]
    else items[0] + sep + Join(items[1..], sep)
  }

  /**
   * How a receiver of the joined ids separates them again at a one-character
   * separator (the semantics of Python's `s.split(sep)`): never empty. The
   * dashboard itself never splits; this is the partner of `Join`.
   */
  function Split(s: string, sep: char): (r: seq<string>)
    ensures |r| >= 1
  {
    if s == [] then [""]
    else if s[0] == sep then [""] + Split(s[1..], sep)
    else
      var rest := Split(s[1..], sep);
      [[s[0]] + rest[0]] + rest[1..]
  }

  /** `s.replace("'", "''")`: every quote is doubled, everything else is kept. */
  function Escape(s: string): (r: string)
    ensures |r| >= |s|
    ensures NoQuote(s) ==> r == s
  {
    if s == [] then []
    else (if s[0] == Quote then [Quote, Quote] else [s[0]]) + Escape(s[1..])
  }

  /** `[str(p).replace("'", "''") for p in ids]` */
  function EscapeEach(ids: seq<string>): (r: seq<string>)
    ensures |r| == |ids|
    ensures forall i :: 0 <= i < |ids| ==> r[i] == Escape(ids[i])
  {
    if ids == [] then [] else [Escape(ids[0])] + EscapeEach(ids[1..])
  }

  /** The f-string `f"'{body}'"`: the body between two quotes, as written. */
  function Quoted(body: string): (r: string)
    ensures r != Null
  {
    assert ([Quote] + body + [Quote])[0] != Null[0];
    [Quote] + body + [Quote]
  }

  /**
   * Reads one T-SQL string literal that must span all of `s`: the content with
   * every `''` read as one quote, or None when `s` is not exactly one literal.
   */
  function ParseLiteral(s: string): (r: Option<string>)
  {
    if |s| > 0 && s[0] == Quote then ParseBody(s[1..]) else None
  }

  /**
   * Reads the rest of a literal after its opening quote. A lone quote closes
   * the literal and must be the last character; running out of text before it
   * leaves the literal unterminated.
   */
  function ParseBody(s: string): (r: Option<string>)
    ensures r.Some? ==> |r.value| < |s|
    decreases |s|
  {
    if s == [] then None
    else if s[0] != Quote then
      match ParseBody(s[1..])
      case Some(t) => Some([s[0]] + t)
      case None => None
    else if |s| == 1 then Some([])
    else if s[1] == Quote then
      match ParseBody(s[2..])
      case Some(t) => Some([Quote] + t)
      case None => None
    else None
  }

  /** The customer-id parameter: ids are joined as they are, without escaping. */
  function CustomerIdParam(customerIds: seq<string>): (r: string)
    ensures r == Null <==> customerIds == []
  {
    if customerIds == [] then Null else Quoted(Join(customerIds, ","))
  }

  /** The material-id parameter: each id has its quotes doubled before joining. */
  function MaterialIdsParam(materialIds: seq<string>): (r: string)
    ensures r == Null <==> materialIds == []
  {
    var escaped := EscapeEach(materialIds);
    if escaped == [] then Null else Quoted(Join(escaped, ","))
  }

  /** The material filter mode: 1 for strict inclusion, 0 otherwise. */
  function MaterialFilterModeParam(isStrictInclusion: bool): (r: int)
    ensures r == 1 <==> isStrictInclusion
    ensures r == 0 <==> !isStrictInclusion
  {
    if isStrictInclusion then 1 else 0
  }

  /** The parameters of one call of the stored procedure (dates as day numbers). */
  datatype QueryParams = QueryParams(
    customerId: string,
    startDate: int,
    endDate: int,
    materialIds: string,
    materialFilterMode: int)

  /** The parameters built by each of the three loaders from its arguments. */
  function BuildQueryParams(customerIds: seq<string>, startDate: int, endDate: int,
                            materialIds: seq<string>, isStrictInclusion: bool): (p: QueryParams)
    ensures p.customerId == Null <==> customerIds == []
    ensures p.materialIds == Null <==> materialIds == []
    ensures p.materialFilterMode == 1 <==> isStrictInclusion
    ensures p.materialFilterMode == 0 <==> !isStrictInclusion
    ensures p.startDate == startDate && p.endDate == endDate
  {
    QueryParams(CustomerIdParam(customerIds), startDate, endDate,
                MaterialIdsParam(materialIds), MaterialFilterModeParam(isStrictInclusion))
  }

  // ---------------------------------------------------------------------------
  // Escaping

  /** Escaping works character by character, so it distributes over concatenation. */
  lemma {:induction false} EscapeAppend(a: string, b: string)
    ensures Escape(a + b) == Escape(a) + Escape(b)
  {
    if a != [] {
      assert (a + b)[1..] == a[1..] + b;
      EscapeAppend(a[1..], b);
    } else {
      assert a + b == b;
    }
  }

  /** Escaping each id and joining with commas is escaping the comma-joined ids. */
  lemma {:induction false} EscapeJoin(ids: seq<string>)
    ensures Join(EscapeEach(ids), ",") == Escape(Join(ids, ","))
  {
    if |ids| > 1 {
      EscapeJoin(ids[1..]);
      assert EscapeEach(ids)[1..] == EscapeEach(ids[1..]);
      assert Escape(",") == ",";
      EscapeAppend(ids[0], "," + Join(ids[1..], ","));
      EscapeAppend(",", Join(ids[1..], ","));
      assert ids[0] + "," + Join(ids[1..], ",") == ids[0] + ("," + Join(ids[1..], ","));
    } else if |ids| == 1 {
      assert EscapeEach(ids) == [Escape(ids[0])];
    }
  }

  /** Reading an escaped text followed by a closing quote gives the text back. */
  lemma {:induction false} ParseEscaped(t: string)
    ensures ParseBody(Escape(t) + [Quote]) == Some(t)
  {
    if t == [] {
      assert Escape(t) + [Quote] == [Quote];
    } else {
      var rest := Escape(t[1..]) + [Quote];
      ParseEscaped(t[1..]);
      if t[0] == Quote {
        assert Escape(t) + [Quote] == [Quote, Quote] + rest;
        assert ([Quote, Quote] + rest)[2..] == rest;
        assert [Quote] + t[1..] == t;
      } else {
        assert Escape(t) + [Quote] == [t[0]] + rest;
        assert ([t[0]] + rest)[1..] == rest;
        assert [t[0]] + t[1..] == t;
      }
    }
  }

  /** A quoted, escaped text is one literal whose content is that text. */
  lemma QuotedEscapedRoundTrip(t: string)
    ensures ParseLiteral(Quoted(Escape(t))) == Some(t)
  {
    assert Quoted(Escape(t))[1..] == Escape(t) + [Quote];
    ParseEscaped(t);
  }

  // ---------------------------------------------------------------------------
  // What the stored procedure receives

  /**
   * A non-empty material list arrives as exactly one string literal whose
   * content is the comma-joined ids as the user chose them, quotes included.
   */
  lemma MaterialParamRoundTrip(materialIds: seq<string>)
    requires materialIds != []
    ensures ParseLiteral(MaterialIdsParam(materialIds)) == Some(Join(materialIds, ","))
  {
    EscapeJoin(materialIds);
    QuotedEscapedRoundTrip(Join(materialIds, ","));
  }

  /**
   * What the three loaders send: a non-empty material list, and a non-empty
   * customer list without quotes, each read back as the comma-joined ids.
   */
  lemma BuildQueryParamsRoundTrip(customerIds: seq<string>, startDate: int, endDate: int,
                                  materialIds: seq<string>, isStrictInclusion: bool)
    ensures var p := BuildQueryParams(customerIds, startDate, endDate, materialIds, isStrictInclusion);
      && (materialIds != [] ==> ParseLiteral(p.materialIds) == Some(Join(materialIds, ",")))
      && (customerIds != [] && (forall i :: 0 <= i < |customerIds| ==> NoQuote(customerIds[i])) ==>
            ParseLiteral(p.customerId) == Some(Join(customerIds, ",")))
  {
    if materialIds != [] {
      MaterialParamRoundTrip(materialIds);
    }
    if customerIds != [] && (forall i :: 0 <= i < |customerIds| ==> NoQuote(customerIds[i])) {
      CustomerParamRoundTrip(customerIds);
    }
  }

  /** A non-empty customer list without quotes arrives as the comma-joined ids. */
  lemma CustomerParamRoundTrip(customerIds: seq<string>)
    requires customerIds != []
    requires forall i :: 0 <= i < |customerIds| ==> NoQuote(customerIds[i])
    ensures ParseLiteral(CustomerIdParam(customerIds)) == Some(Join(customerIds, ","))
  {
    assert EscapeEach(customerIds) == customerIds;
    EscapeJoin(customerIds);
    QuotedEscapedRoundTrip(Join(customerIds, ","));
  }

  /**
   * The reader only accepts what escaping produces: a successful read of `x`
   * means `x` is the escaped content followed by the closing quote.
   */
  lemma {:induction false} ParseBodyInverse(x: string)
    requires ParseBody(x).Some?
    ensures x == Escape(ParseBody(x).value) + [Quote]
    decreases |x|
  {
    var t := ParseBody(x).value;
    if x[0] != Quote {
      ParseBodyInverse(x[1..]);
      var u := ParseBody(x[1..]).value;
      assert t == [x[0]] + u;
      assert t[1..] == u;
      assert Escape(t) == [x[0]] + Escape(u);
      assert x == [x[0]] + x[1..];
    } else if |x| == 1 {
      assert t == [];
    } else {
      ParseBodyInverse(x[2..]);
      var u := ParseBody(x[2..]).value;
      assert t == [Quote] + u;
      assert t[1..] == u;
      assert Escape(t) == [Quote, Quote] + Escape(u);
      assert x == [Quote, Quote] + x[2..];
    }
  }

  /** A text holding a quote at `j` grows when escaped. */
  lemma {:induction false} EscapeGrowsOnQuote(s: string, j: nat)
    requires j < |s| && s[j] == Quote
    ensures |Escape(s)| > |s|
  {
    if j > 0 {
      EscapeGrowsOnQuote(s[1..], j - 1);
    }
  }

  /** A quote in one of the ids is a quote in their comma-join. */
  lemma {:induction false} JoinKeepsQuote(ids: seq<string>, i: nat, j: nat)
    requires i < |ids| && j < |ids[i]| && ids[i][j] == Quote
    ensures !NoQuote(Join(ids, ","))
  {
    if |ids| == 1 {
      assert Join(ids, ",")[j] == Quote;
    } else if i == 0 {
      assert (ids[0] + "," + Join(ids[1..], ","))[j] == Quote;
    } else {
      JoinKeepsQuote(ids[1..], i - 1, j);
      var rest := Join(ids[1..], ",");
      var k :| 0 <= k < |rest| && rest[k] == Quote;
      assert (ids[0] + "," + rest)[|ids[0]| + 1 + k] == Quote;
    }
  }

  /**
   * The converse of `CustomerParamRoundTrip`: once any customer id holds a quote,
   * the parameter no longer reads back as the comma-joined ids.
   */
  lemma CustomerQuoteNoRoundTrip(customerIds: seq<string>, i: nat)
    requires i < |customerIds| && !NoQuote(customerIds[i])
    ensures ParseLiteral(CustomerIdParam(customerIds)) != Some(Join(customerIds, ","))
  {
    var joined := Join(customerIds, ",");
    var j :| 0 <= j < |customerIds[i]| && customerIds[i][j] == Quote;
    JoinKeepsQuote(customerIds, i, j);
    var k :| 0 <= k < |joined| && joined[k] == Quote;
    EscapeGrowsOnQuote(joined, k);
    assert CustomerIdParam(customerIds)[1..] == joined + [Quote];
    if ParseBody(joined + [Quote]).Some? {
      ParseBodyInverse(joined + [Quote]);
    }
  }

  /** A non-empty customer list reads back as its comma-join exactly when no id holds a quote. */
  lemma CustomerParamRoundTripIff(customerIds: seq<string>)
    requires customerIds != []
    ensures ParseLiteral(CustomerIdParam(customerIds)) == Some(Join(customerIds, ","))
      <==> forall i :: 0 <= i < |customerIds| ==> NoQuote(customerIds[i])
  {
    if forall i :: 0 <= i < |customerIds| ==> NoQuote(customerIds[i]) {
      CustomerParamRoundTrip(customerIds);
    } else {
      var i :| 0 <= i < |customerIds| && !NoQuote(customerIds[i]);
      CustomerQuoteNoRoundTrip(customerIds, i);
    }
  }

  /**
   * Customer ids are not escaped: an id holding a quote ends the literal early,
   * so the parameter is no longer one string literal. The same id as a material
   * id arrives intact.
   */
  lemma CustomerQuoteBreaksLiteral()
    ensures CustomerIdParam(["A'B"]) == "'A'B'"
    ensures ParseLiteral(CustomerIdParam(["A'B"])) == None
    ensures ParseLiteral(MaterialIdsParam(["A'B"])) == Some("A'B")
  {
    assert CustomerIdParam(["A'B"])[1..] == "A'B'";
    assert "A'B'"[1..] == "'B'";
    MaterialParamRoundTrip(["A'B"]);
  }

  // ---------------------------------------------------------------------------
  // Joining

  /** Splitting a comma-free id followed by a comma and more text yields that id first. */
  lemma {:induction false} SplitPrefix(a: string, rest: string)
    requires NoComma(a)
    ensures Split(a + [Comma] + rest, Comma) == [a] + Split(rest, Comma)
  {
    if a != [] {
      SplitPrefix(a[1..], rest);
      assert (a + [Comma] + rest)[1..] == a[1..] + [Comma] + rest;
      assert [a[0]] + a[1..] == a;
    } else {
      assert (a + [Comma] + rest)[1..] == rest;
    }
  }

  /** A comma-free text splits into itself alone. */
  lemma {:induction false} SplitWhole(a: string)
    requires NoComma(a)
    ensures Split(a, Comma) == [a]
  {
    if a != [] {
      SplitWhole(a[1..]);
      assert [a[0]] + a[1..] == a;
    }
  }

  /**
   * When no id holds a comma, the comma-joined list determines the ids: splitting
   * it on commas gives the list back.
   */
  lemma {:induction false} SplitJoin(ids: seq<string>)
    requires ids != []
    requires forall i :: 0 <= i < |ids| ==> NoComma(ids[i])
    ensures Split(Join(ids, ","), Comma) == ids
  {
    if |ids| == 1 {
      SplitWhole(ids[0]);
    } else {
      SplitJoin(ids[1..]);
      SplitPrefix(ids[0], Join(ids[1..], ","));
      assert ids[0] + "," + Join(ids[1..], ",") == ids[0] + [Comma] + Join(ids[1..], ",");
      assert [ids[0]] + ids[1..] == ids;
    }
  }
}
