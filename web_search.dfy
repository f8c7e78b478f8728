/** server/webSearch.ts: turns an instant-answer response into the text block the chat
    context quotes, with a price lookup as fallback. The two HTTP requests are inputs:
    `None` stands for a request that threw. */
module WebSearch {
  import opened Wrappers
  import opened Text

  /** One entry of `RelatedTopics`; `text` is "" when the entry has no `Text`. */
  datatype Topic = Topic(text: string)

  /** The fields of the instant-answer response the formatter reads; an absent or empty
      field is "". */
  datatype InstantAnswer = InstantAnswer(
    answer: string, abstractText: string, abstractUrl: string, relatedTopics: seq<Topic>)

  /** One coin of the price response: its `usd` value and `usd_24h_change?.toFixed(2)`,
      as the template literal prints them. */
  datatype Quote = Quote(usd: string, change: string)

  /** The price response; `None` for a coin it does not list. */
  datatype Prices = Prices(pulsechain: Option<Quote>, hex: Option<Quote>, pulsex: Option<Quote>)

  const Placeholder: string := "No specific results found for this query."
  const PriceHeader: string := "Current PulseChain ecosystem prices:\n"
  const RelatedHeader: string := "\nRelated info:\n"
  const AnswerTag: string := "Answer: "
  const SourceTag: string := "Source: "
  const NewLine: string := "\n"
  const NumberDot: string := ". "
  const ChangeOpen: string := " ("
  const ChangeClose: string := "%)\n"
  const PlsTag: string := "PLS: $"
  const HexTag: string := "HEX: $"
  const PlsxTag: string := "PLSX: $"
  const PriceWord: string := "price"
  const ChainWord: string := "pulsechain"

  /** At most this many related topics are looked at. */
  const MaxTopics: nat := 3

  function AnswerPart(d: InstantAnswer): string {
    if d.answer != "" then AnswerTag + d.answer + NewLine else ""
  }

  /** The abstract, and its source only when both the abstract and its URL are present. */
  function AbstractPart(d: InstantAnswer): string {
    if d.abstractText == "" then ""
    else if d.abstractUrl == "" then d.abstractText + NewLine
    else d.abstractText + NewLine + (SourceTag + d.abstractUrl + NewLine)
  }

  /** The line for the topic at 1-based position `n`; nothing for a topic without text. */
  function TopicLine(t: Topic, n: nat): string {
    if t.text != "" then NatToString(n) + NumberDot + t.text + NewLine else ""
  }

  /** The lines for `ts`, each numbered by its position in `ts`. */
  function TopicLines(ts: seq<Topic>): string {
    if |ts| == 0 then "" else TopicLines(ts[..|ts| - 1]) + TopicLine(ts[|ts| - 1], |ts|)
  }

  function FirstTopics(ts: seq<Topic>): seq<Topic> {
    if |ts| <= MaxTopics then ts else ts[..MaxTopics]
  }

  function RelatedPart(d: InstantAnswer): string {
    if |d.relatedTopics| > 0 then RelatedHeader + TopicLines(FirstTopics(d.relatedTopics)) else ""
  }

  /** What the instant-answer response contributes: answer, abstract and source, related
      topics, in that order. */
  function InstantResults(d: InstantAnswer): string {
    AnswerPart(d) + AbstractPart(d) + RelatedPart(d)
  }

  /** The line for one coin, `prefix` being e.g. "PLS: $"; nothing for a coin not listed. */
  function QuoteLine(prefix: string, q: Option<Quote>): string {
    if q.Some? then prefix + q.value.usd + ChangeOpen + q.value.change + ChangeClose else ""
  }

  function PriceResults(p: Prices): string {
    PriceHeader + QuoteLine(PlsTag, p.pulsechain) + QuoteLine(HexTag, p.hex) + QuoteLine(PlsxTag, p.pulsex)
  }

  /** The query asks about prices or the PulseChain ecosystem. */
  predicate WantsPrices(query: string) {
    Contains(Lower(query), PriceWord) || Contains(Lower(query), ChainWord)
  }

  /** What `webSearch(query)` resolves to. */
  function SearchResult(query: string, response: Option<InstantAnswer>, prices: Option<Prices>): string {
    match response
    case None => ""
    case Some(d) =>
      var results := InstantResults(d);
      var results := if IsBlank(results) && WantsPrices(query) && prices.Some?
                     then PriceResults(prices.value) else results;
      if results != "" then results else Placeholder
  }

  /** `webSearch`: builds `results` step by step from the response, then falls back to
      prices when it is blank. Each `results += \`...\`` appends one template string. */
  method Search(query: string, response: Option<InstantAnswer>, prices: Option<Prices>)
    returns (r: string)
    ensures r == SearchResult(query, response, prices)
  {
    if response.None? {
      return "";
    }
    var results := FormatInstant(response.value);
    if IsBlank(results) && WantsPrices(query) && prices.Some? {
      results := FormatPrices(prices.value);
    }
    r := if results != "" then results else Placeholder;
  }

  /** The `+=` steps that collect what the instant-answer response holds. */
  method FormatInstant(data: InstantAnswer) returns (results: string)
    ensures results == InstantResults(data)
  {
    results := "";
    if data.answer != "" {
      results := "" + (AnswerTag + data.answer + NewLine);
      assert results == AnswerPart(data) by {
        assert "" + AnswerPart(data) == AnswerPart(data);
      }
    }
    ghost var answered := results;
    if data.abstractText != "" {
      results := results + (data.abstractText + NewLine);
      if data.abstractUrl != "" {
        results := results + (SourceTag + data.abstractUrl + NewLine);
        assert results == answered + AbstractPart(data);
      }
    }
    assert results == AnswerPart(data) + AbstractPart(data);
    if |data.relatedTopics| > 0 {
      ghost var found := results;
      results := results + RelatedHeader;
      var lines := TopicLines(FirstTopics(data.relatedTopics));
      results := AppendTopics(results, FirstTopics(data.relatedTopics));
      assert results == (found + RelatedHeader) + lines;
      AppendAssoc(found, RelatedHeader, lines);
    }
  }

  lemma AppendAssoc(a: string, b: string, c: string)
    ensures (a + b) + c == a + (b + c)
  {
  }

  /** The `forEach` over the first topics: one numbered line per topic with text. */
  method AppendTopics(init: string, topics: seq<Topic>) returns (results: string)
    ensures results == init + TopicLines(topics)
  {
    results := init;
    var i := 0;
    while i < |topics|
      invariant 0 <= i <= |topics|
      invariant results == init + TopicLines(topics[..i])
    {
      ghost var before := results;
      if topics[i].text != "" {
        results := results + (NatToString(i + 1) + NumberDot + topics[i].text + NewLine);
      }
      AppendTopicStep(init, topics, i, before, results);
      i := i + 1;
    }
    assert topics[..i] == topics;
  }

  /** The loop's invariant survives one topic. */
  lemma AppendTopicStep(init: string, topics: seq<Topic>, i: nat, before: string, after: string)
    requires i < |topics| && before == init + TopicLines(topics[..i])
    requires after == if topics[i].text != "" then
      before + (NatToString(i + 1) + NumberDot + topics[i].text + NewLine) else before
    ensures after == init + TopicLines(topics[..i + 1])
  {
    var prev, line := TopicLines(topics[..i]), TopicLine(topics[i], i + 1);
    assert after == before + line by {
      if topics[i].text == "" {
        assert line == "" && before + line == before;
      }
    }
    TopicLinesStep(topics, i);
    AppendAssoc(init, prev, line);
  }

  /** One more topic adds its own line at the end. */
  lemma TopicLinesStep(topics: seq<Topic>, i: nat)
    requires i < |topics|
    ensures TopicLines(topics[..i + 1]) == TopicLines(topics[..i]) + TopicLine(topics[i], i + 1)
  {
    assert topics[..i + 1][..i] == topics[..i];
  }

  /** The fallback's `results = ...; results += ...` steps over the price response. */
  method FormatPrices(p: Prices) returns (results: string)
    ensures results == PriceResults(p)
  {
    results := PriceHeader;
    if p.pulsechain.Some? {
      results := results + (PlsTag + p.pulsechain.value.usd + ChangeOpen + p.pulsechain.value.change + ChangeClose);
    }
    if p.hex.Some? {
      results := results + (HexTag + p.hex.value.usd + ChangeOpen + p.hex.value.change + ChangeClose);
    }
    if p.pulsex.Some? {
      results := results + (PlsxTag + p.pulsex.value.usd + ChangeOpen + p.pulsex.value.change + ChangeClose);
    }
  }

  // ---------- what the result promises ----------

  lemma NotBlank(s: string, i: int)
    requires 0 <= i < |s| && !IsSpace(s[i])
    ensures !IsBlank(s)
  {
  }

  /** Every line the response contributes ends the text: a non-empty result of the
      response always ends in a newline. */
  lemma {:induction false} TopicLinesEnd(ts: seq<Topic>)
    ensures TopicLines(ts) == "" || TopicLines(ts)[|TopicLines(ts)| - 1] == '\n'
  {
    if |ts| > 0 {
      TopicLinesEnd(ts[..|ts| - 1]);
    }
  }

  lemma InstantResultsEnd(d: InstantAnswer)
    ensures InstantResults(d) == "" || InstantResults(d)[|InstantResults(d)| - 1] == '\n'
  {
    TopicLinesEnd(FirstTopics(d.relatedTopics));
  }

  /** A failed request gives "", and only then: any response gives a non-empty text. */
  lemma EmptyOnlyOnFailure(query: string, response: Option<InstantAnswer>, prices: Option<Prices>)
    ensures SearchResult(query, response, prices) == "" <==> response.None?
  {
  }

  /** The placeholder is returned exactly when nothing was found and no price fallback ran;
      it can never be mistaken for found text, which always ends in a newline. */
  lemma PlaceholderExactly(query: string, d: InstantAnswer, prices: Option<Prices>)
    ensures SearchResult(query, Some(d), prices) == Placeholder <==>
      InstantResults(d) == "" && !(WantsPrices(query) && prices.Some?)
  {
    InstantResultsEnd(d);
    assert Placeholder[|Placeholder| - 1] == '.';
  }

  /** When the response yields anything that is not white space, it is returned as is and
      the price response plays no part. */
  lemma FoundTextKept(query: string, d: InstantAnswer, prices: Option<Prices>)
    requires !IsBlank(InstantResults(d))
    ensures SearchResult(query, Some(d), prices) == InstantResults(d)
  {
  }

  /** An answer comes first, followed by the abstract (and its source), then related topics. */
  lemma AnswerFirst(query: string, d: InstantAnswer, prices: Option<Prices>)
    requires d.answer != ""
    ensures SearchResult(query, Some(d), prices) ==
      AnswerTag + d.answer + NewLine + AbstractPart(d) + RelatedPart(d)
  {
    NotBlank(InstantResults(d), 0);
  }

  /** A non-empty topic list always brings the "Related info" header, so the price
      fallback never runs then, and at most the first three topics are listed. */
  lemma RelatedHeaderWhenListed(query: string, d: InstantAnswer, prices: Option<Prices>)
    requires |d.relatedTopics| > 0
    ensures SearchResult(query, Some(d), prices) ==
      AnswerPart(d) + AbstractPart(d) + RelatedHeader + TopicLines(d.relatedTopics[..if |d.relatedTopics| < 3 then |d.relatedTopics| else 3])
  {
    var ts := d.relatedTopics;
    var pre := AnswerPart(d) + AbstractPart(d);
    var lines := TopicLines(FirstTopics(ts));
    var rel := RelatedPart(d);
    assert rel == RelatedHeader + lines;
    var s := InstantResults(d);
    assert s == pre + rel;
    assert rel[1] == RelatedHeader[1] == 'R';
    assert s[|pre| + 1] == rel[1];
    NotBlank(s, |pre| + 1);
    assert SearchResult(query, Some(d), prices) == s;
    AppendAssoc(pre, RelatedHeader, lines);
    assert FirstTopics(ts) == ts[..if |ts| < 3 then |ts| else 3] by {
      if |ts| <= MaxTopics {
        assert ts[..|ts|] == ts;
      }
    }
  }

  /** The price fallback runs only when the response text is blank, the query mentions
      prices or PulseChain, and the price request succeeded; its text then replaces the
      blank one. Otherwise the price response plays no part. */
  lemma PriceFallback(query: string, d: InstantAnswer, prices: Option<Prices>)
    ensures IsBlank(InstantResults(d)) && WantsPrices(query) && prices.Some? ==>
      SearchResult(query, Some(d), prices) == PriceResults(prices.value)
    ensures !(IsBlank(InstantResults(d)) && WantsPrices(query) && prices.Some?) ==>
      SearchResult(query, Some(d), prices) ==
        if InstantResults(d) == "" then Placeholder else InstantResults(d)
  {
  }

  /** A topic is numbered by its position among the first three, so a topic without text
      leaves a gap in the numbering. */
  lemma TopicNumbering(a: Topic, b: Topic, c: Topic)
    ensures TopicLines([a, b, c]) == TopicLine(a, 1) + TopicLine(b, 2) + TopicLine(c, 3)
  {
    assert [a, b, c][..2] == [a, b];
    assert [a, b][..1] == [a];
    assert [a][..0] == [];
    assert TopicLines([a]) == TopicLine(a, 1);
    assert TopicLines([a, b]) == TopicLine(a, 1) + TopicLine(b, 2);
  }
}
