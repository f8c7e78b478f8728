/** The handlers of server/index.ts that feed and read the knowledge base: `/api/chat`
    (context assembly and the Q&A write-back), `/api/transcripts` (chunks and a summary
    record for the vector store, transcript metadata kept latest first, upload history),
    `/api/weekly`, and the capped upload-history log. The model calls (embedding,
    completion, summarisation), the web search requests, the clock and locale date
    formatting are parameters. */
module Server {
  import opened Wrappers
  import opened Text
  import opened Calendar
  import opened Chunking
  import opened Ranking
  import opened VectorStore
  import WebSearch

  // ---------- dates ----------

  /** A parsed instant: the local calendar day it falls on and its `getTime()`. */
  datatype Moment = Moment(day: CivilDate, millis: int)

  /** A date string as stored, with what `new Date(text)` makes of it; `None` is an
      Invalid Date. */
  datatype DateStamp = DateStamp(text: string, moment: Option<Moment>)

  predicate ValidStamp(d: DateStamp) {
    d.moment.Some? ==> Valid(d.moment.value.day)
  }

  /** `getWeekNumber` of a calendar day, with its range. */
  function WeekOfDate(d: CivilDate): (w: nat)
    requires Valid(d)
    ensures 1 <= w <= 53
  {
    GetWeekNumber(d)
  }

  /** A stored `weekNumber`: a number, `NaN` (written to JSON as `null`) for a date that
      does not parse, or no field at all in older records. */
  datatype WeekField = WeekOf(n: nat) | NoWeek | Unset

  function WeekFieldOf(d: DateStamp): WeekField
    requires ValidStamp(d)
  {
    if d.moment.Some? then WeekOf(WeekOfDate(d.moment.value.day)) else NoWeek
  }

  // ---------- stored records ----------

  datatype TranscriptMeta = TranscriptMeta(
    date: DateStamp,
    weekNumber: WeekField,
    topic: string,
    keyPoints: seq<string>,
    mentionedCoins: seq<string>,
    actionItems: seq<string>,
    file: string,
    uploadedAt: string)

  datatype UploadKind = Transcript | Collective | Document

  /** The `metadata` a transcript upload records. */
  datatype TranscriptInfo = TranscriptInfo(
    date: string, weekNumber: WeekField, keyPointsCount: nat, mentionedCoins: seq<string>)

  datatype UploadEntry = UploadEntry(
    id: string, kind: UploadKind, uploadedAt: string, title: string, metadata: Option<TranscriptInfo>)

  const HistoryCap: nat := 100

  /** The history after `addToUploadHistory`: the new entry first, then the previous
      entries in their order, cut to `HistoryCap`. */
  function WithEntry(history: seq<UploadEntry>, entry: UploadEntry): (r: seq<UploadEntry>)
    ensures |r| == if |history| < HistoryCap then |history| + 1 else HistoryCap
    ensures r[0] == entry
    ensures r[1..] == history[..|r| - 1]
  {
    var h := [entry] + history;
    if |h| > HistoryCap then h[..HistoryCap] else h
  }

  // ---------- transcript order ----------

  /** `new Date(m.date).getTime()`; an Invalid Date counts as 0 here. */
  function TimeKey(m: TranscriptMeta): real {
    if m.date.moment.Some? then m.date.moment.value.millis as real else 0.0
  }

  function TimeKeys(metas: seq<TranscriptMeta>): (keys: seq<real>)
    ensures |keys| == |metas|
    ensures forall i :: 0 <= i < |metas| ==> keys[i] == TimeKey(metas[i])
  {
    if |metas| == 0 then [] else [TimeKey(metas[0])] + TimeKeys(metas[1..])
  }

  /** The records at the given positions, in that order. */
  function Pick(metas: seq<TranscriptMeta>, order: seq<nat>): seq<TranscriptMeta> {
    if |order| == 0 then []
    else (if order[0] < |metas| then [metas[order[0]]] else []) + Pick(metas, order[1..])
  }

  lemma {:induction false} PickAt(metas: seq<TranscriptMeta>, order: seq<nat>)
    requires forall i :: 0 <= i < |order| ==> order[i] < |metas|
    ensures |Pick(metas, order)| == |order|
    ensures forall i :: 0 <= i < |order| ==> Pick(metas, order)[i] == metas[order[i]]
  {
    if |order| > 0 {
      PickAt(metas, order[1..]);
    }
  }

  /** `metas.sort((a, b) => time(b) - time(a))`, a stable sort. */
  function SortedByDate(metas: seq<TranscriptMeta>): (r: seq<TranscriptMeta>)
    ensures |r| == |metas|
    ensures forall i :: 0 <= i < |r| ==> r[i] in metas
    ensures forall i, j :: 0 <= i < j < |r| ==> TimeKey(r[i]) >= TimeKey(r[j])
  {
    var keys := TimeKeys(metas);
    var pos := RankAll(keys);
    PickAt(metas, pos);
    RankAllPermutation(keys);
    RankAllOrdered(keys);
    Pick(metas, pos)
  }

  /** The sorted list rearranges the input (position `i` holds input `pos[i]`, every input
      used once), latest first, and equal times keep their input order. */
  lemma SortedByDateSpec(metas: seq<TranscriptMeta>) returns (pos: seq<nat>)
    ensures var r := SortedByDate(metas);
      |r| == |metas| && |pos| == |metas| &&
      (forall i :: 0 <= i < |pos| ==> pos[i] < |metas| && r[i] == metas[pos[i]]) &&
      (forall j :: 0 <= j < |metas| ==> j in pos) &&
      (forall i, j :: 0 <= i < j < |pos| ==> pos[i] != pos[j]) &&
      (forall i, j :: 0 <= i < j < |pos| ==>
         TimeKey(r[i]) >= TimeKey(r[j]) && (TimeKey(r[i]) == TimeKey(r[j]) ==> pos[i] < pos[j]))
  {
    var keys := TimeKeys(metas);
    pos := RankAll(keys);
    PickAt(metas, pos);
    RankAllPermutation(keys);
    RankAllOrdered(keys);
  }

  /** The first transcript after sorting is one of the latest. */
  lemma LatestFirst(metas: seq<TranscriptMeta>)
    requires |metas| > 0
    ensures forall j :: 0 <= j < |metas| ==> TimeKey(SortedByDate(metas)[0]) >= TimeKey(metas[j])
  {
    var r := SortedByDate(metas);
    var pos := SortedByDateSpec(metas);
    forall j | 0 <= j < |metas| ensures TimeKey(r[0]) >= TimeKey(metas[j]) {
      assert j in pos;
      var i :| 0 <= i < |pos| && pos[i] == j;
      if i > 0 {
        assert TimeKey(r[0]) >= TimeKey(r[i]);
      }
    }
  }

  /** `LatestFirst` restated for a list that is `before + [added]`. */
  lemma LatestAbove(metas: seq<TranscriptMeta>, before: seq<TranscriptMeta>, added: TranscriptMeta)
    requires metas == before + [added]
    requires forall j :: 0 <= j < |metas| ==> TimeKey(SortedByDate(metas)[0]) >= TimeKey(metas[j])
    ensures TimeKey(SortedByDate(metas)[0]) >= TimeKey(added)
    ensures forall m :: m in before ==> TimeKey(SortedByDate(metas)[0]) >= TimeKey(m)
  {
    assert metas[|before|] == added;
    forall m | m in before ensures TimeKey(SortedByDate(metas)[0]) >= TimeKey(m) {
      var j :| 0 <= j < |before| && before[j] == m;
      assert metas[j] == m;
    }
  }

  // ---------- chat ----------

  datatype Message = Message(role: string, content: Option<string>)

  datatype ChatReply = BadRequest | ModelError | Answer(content: string)

  const HitSeparator: string := "\n---\n"
  const WebPrefix: string := "\n---\nWeb search results:\n"
  const SearchWords: seq<string> := ["price", "latest", "today", "current", "now"]
  const HitCount: int := 3
  const FactsPrefix: string := "Relevant facts:\n"
  const QuestionTag: string := "Q: "
  const AnswerTag: string := "\nA: "
  const HeaderOpen: string := "[IMPORTANT CONTEXT: The most recent weekly meeting was on "
  const HeaderWeek: string := " (Week "
  const HeaderCurrent: string := "). Current week is "
  const HeaderCount: string := ". There are "
  const HeaderClose: string := " total weekly transcripts available.]\n\n"

  /** `messages[messages.length - 1]?.content || ''` */
  function Question(messages: seq<Message>): (r: string)
    ensures r != "" ==> |messages| > 0 && messages[|messages| - 1].content == Some(r)
    ensures |messages| > 0 && messages[|messages| - 1].content.Some? ==>
      r == messages[|messages| - 1].content.value
  {
    if |messages| == 0 then "" else messages[|messages| - 1].content.GetOr("")
  }

  /** The keyword rule that sends a question to web search. */
  predicate NeedsSearch(question: string) {
    var q := Lower(question);
    Contains(q, "price") || Contains(q, "latest") || Contains(q, "today") ||
    Contains(q, "current") || Contains(q, "now")
  }

  /** How a stored `weekNumber` prints in a template literal. */
  function WeekText(w: WeekField): string {
    match w
    case WeekOf(n) => NatToString(n)
    case NoWeek => "null"
    case Unset => "undefined"
  }

  /** The line naming the latest transcript; `localeDate` is `toLocaleDateString`. */
  function Header(latest: TranscriptMeta, currentWeek: nat, count: nat, localeDate: string -> string): (r: string)
    ensures StartsWith(r, HeaderOpen) && EndsWith(r, HeaderClose)
  {
    var middle := localeDate(latest.date.text) + HeaderWeek + WeekText(latest.weekNumber) +
      HeaderCurrent + NatToString(currentWeek) + HeaderCount + NatToString(count);
    ThreeParts(HeaderOpen, middle, HeaderClose);
    HeaderOpen + middle + HeaderClose
  }

  /** The retrieved hits joined, or nothing when the search failed. */
  function HitsText(hits: Option<seq<string>>): string {
    if hits.Some? then Join(hits.value, HitSeparator) else ""
  }

  /** The context the chat handler hands to the completion. */
  function ChatContext(hits: Option<seq<string>>, metas: seq<TranscriptMeta>, currentWeek: nat,
                       localeDate: string -> string, question: string, web: string): string
  {
    var dated := if |metas| > 0 then Header(metas[0], currentWeek, |metas|, localeDate) + HitsText(hits)
                 else HitsText(hits);
    if NeedsSearch(question) && web != "" then dated + (WebPrefix + web) else dated
  }

  /** `"Q: ${question}\nA: ${answer}"` */
  function QaText(question: string, answer: string): string {
    QuestionTag + question + AnswerTag + answer
  }

  /** Web search runs exactly when the lower-cased question contains one of the keywords. */
  lemma NeedsSearchWords(question: string)
    ensures NeedsSearch(question) <==>
      exists w, i :: w in SearchWords && OccursAt(Lower(question), w, i)
  {
    var q := Lower(question);
    if NeedsSearch(question) {
      if Contains(q, "price") {
        var i :| OccursAt(q, "price", i);
        assert "price" in SearchWords;
      } else if Contains(q, "latest") {
        var i :| OccursAt(q, "latest", i);
        assert "latest" in SearchWords;
      } else if Contains(q, "today") {
        var i :| OccursAt(q, "today", i);
        assert "today" in SearchWords;
      } else if Contains(q, "current") {
        var i :| OccursAt(q, "current", i);
        assert "current" in SearchWords;
      } else {
        var i :| OccursAt(q, "now", i);
        assert "now" in SearchWords;
      }
    }
  }

  /** The context is the transcript header (when there are transcripts), then the hits,
      then the web results (only when searched for and non-empty). */
  lemma ContextOrder(hits: Option<seq<string>>, metas: seq<TranscriptMeta>, currentWeek: nat,
                     localeDate: string -> string, question: string, web: string)
    ensures var c := ChatContext(hits, metas, currentWeek, localeDate, question, web);
      var head := if |metas| > 0 then Header(metas[0], currentWeek, |metas|, localeDate) else "";
      var tail := if NeedsSearch(question) && web != "" then WebPrefix + web else "";
      c == head + HitsText(hits) + tail &&
      (|metas| > 0 ==> StartsWith(c, Header(metas[0], currentWeek, |metas|, localeDate))) &&
      (NeedsSearch(question) && web != "" ==> EndsWith(c, WebPrefix + web)) &&
      (!NeedsSearch(question) || web == "" ==> EndsWith(c, HitsText(hits)))
  {
    var head := if |metas| > 0 then Header(metas[0], currentWeek, |metas|, localeDate) else "";
    var tail := if NeedsSearch(question) && web != "" then WebPrefix + web else "";
    var hit := HitsText(hits);
    ContextParts(hits, metas, currentWeek, localeDate, question, web);
    ThreeParts(head, hit, tail);
  }

  /** The context is the three parts in order. */
  lemma ContextParts(hits: Option<seq<string>>, metas: seq<TranscriptMeta>, currentWeek: nat,
                     localeDate: string -> string, question: string, web: string)
    ensures ChatContext(hits, metas, currentWeek, localeDate, question, web) ==
      (if |metas| > 0 then Header(metas[0], currentWeek, |metas|, localeDate) else "") +
      HitsText(hits) + (if NeedsSearch(question) && web != "" then WebPrefix + web else "")
  {
    if |metas| == 0 {
      assert "" + HitsText(hits) == HitsText(hits);
    }
    if !(NeedsSearch(question) && web != "") {
      var d := ChatContext(hits, metas, currentWeek, localeDate, question, web);
      assert d + "" == d;
    }
  }

  /** A string assembled from three parts starts with the first and ends with the last (or
      with the middle one when the last is empty). */
  lemma ThreeParts(head: string, hit: string, tail: string)
    ensures StartsWith(head + hit + tail, head) && EndsWith(head + hit + tail, tail)
    ensures tail == "" ==> EndsWith(head + hit + tail, hit)
  {
    ConcatEnds(head, hit + tail);
    ConcatEnds(head + hit, tail);
    assert head + hit + tail == head + (hit + tail);
    if tail == "" {
      assert head + hit + tail == head + hit;
      ConcatEnds(head, hit);
    }
  }

  // ---------- transcripts ----------

  /** The fields of the summarising model's JSON reply that have the expected type; all
      `None` when the call or the parse fails. */
  datatype Summary = Summary(
    topic: Option<string>, keyPoints: Option<seq<string>>,
    mentionedCoins: Option<seq<string>>, actionItems: Option<seq<string>>)

  datatype TranscriptReply = MissingText | Ingested(topic: string, keyPoints: seq<string>)

  const DefaultTopic: string := "Weekly Meeting"
  const SummaryPrefixLength: nat := 2000
  const SummaryIntro: string := "Weekly Meeting Transcript Summary:\nDate: "
  const SummaryTopics: string := "\nKey Topics Discussed:\n"
  const SummaryFooter: string := "\n\nThis content is from a Queen of Millions community meeting and should be used to answer questions about recent updates, strategies, and community initiatives."

  /** `s.slice(0, n)` */
  function Prefix(s: string, n: nat): (r: string)
    ensures r <= s
    ensures |r| == if |s| < n then |s| else n
  {
    if |s| <= n then s else s[..n]
  }

  /** The structured summary record's text. */
  function SummaryText(dateText: string, text: string): (r: string)
    ensures StartsWith(r, SummaryIntro + dateText + SummaryTopics) && EndsWith(r, SummaryFooter)
    ensures |r| <= |SummaryIntro| + |dateText| + |SummaryTopics| + SummaryPrefixLength + |SummaryFooter|
  {
    var head := SummaryIntro + dateText + SummaryTopics;
    ThreeParts(head, Prefix(text, SummaryPrefixLength), SummaryFooter);
    head + Prefix(text, SummaryPrefixLength) + SummaryFooter
  }

  /** `date || new Date().toISOString()` */
  function TranscriptDate(date: Option<DateStamp>, now: DateStamp): (r: DateStamp)
    ensures date == Some(r) || r == now
    ensures date.Some? && date.value.text != "" ==> r == date.value
  {
    if date.Some? && date.value.text != "" then date.value else now
  }

  /** How the upload title prints the week: `NaN` for a date that does not parse. */
  function TitleWeek(w: WeekField): string {
    if w.WeekOf? then NatToString(w.n) else "NaN"
  }

  /** The metadata record a transcript upload adds. */
  function NewMeta(date: DateStamp, s: Summary, fileName: string, uploadedAt: string): TranscriptMeta
    requires ValidStamp(date)
  {
    TranscriptMeta(date, WeekFieldOf(date), s.topic.GetOr(DefaultTopic), s.keyPoints.GetOr([]),
                   s.mentionedCoins.GetOr([]), s.actionItems.GetOr([]), fileName, uploadedAt)
  }

  /** The metadata record of `/api/transcripts`: each default is replaced by the summary's
      field when it has the expected type, and the week comes from the transcript date. */
  method MakeMeta(date: DateStamp, summary: Summary, fileName: string, uploadedAt: string)
    returns (meta: TranscriptMeta)
    requires ValidStamp(date)
    ensures meta == NewMeta(date, summary, fileName, uploadedAt)
  {
    var topic := DefaultTopic;
    var keyPoints: seq<string> := [];
    var mentionedCoins: seq<string> := [];
    var actionItems: seq<string> := [];
    if summary.topic.Some? { topic := summary.topic.value; }
    if summary.keyPoints.Some? { keyPoints := summary.keyPoints.value; }
    if summary.mentionedCoins.Some? { mentionedCoins := summary.mentionedCoins.value; }
    if summary.actionItems.Some? { actionItems := summary.actionItems.value; }
    var weekNum := WeekFieldOf(date);
    meta := TranscriptMeta(date, weekNum, topic, keyPoints, mentionedCoins, actionItems,
                           fileName, uploadedAt);
  }

  /** The upload-history entry a transcript upload adds. */
  function TranscriptEntry(meta: TranscriptMeta, id: string, uploadedAt: string): UploadEntry {
    UploadEntry(id, Transcript, uploadedAt, "Week " + TitleWeek(meta.weekNumber) + " - " + meta.topic,
                Some(TranscriptInfo(meta.date.text, meta.weekNumber, |meta.keyPoints|, meta.mentionedCoins)))
  }

  /** A 2000-character transcript whose embeddings all succeed adds exactly four records:
      three chunks of 800, 800 and 400 characters and the summary. */
  lemma TranscriptRecordCount(text: string, dateText: string, embed: string -> Option<Embedding>)
    requires |text| == 2000
    requires forall t :: embed(t).Some?
    ensures |Embedded(Chunks(text, ChunkSize), embed)| + |Embedded([SummaryText(dateText, text)], embed)| == 4
  {
    var chunks := Chunks(text, ChunkSize);
    assert |chunks| == 3;
    EmbeddedSpec(chunks, embed);
    EmbeddedSpec([SummaryText(dateText, text)], embed);
  }

  // ---------- the server state ----------

  /** The JSON files and documents the handlers read and write; `None` marks a file that
      is missing or unreadable. */
  class Server {
    const store: Store
    var transcriptsFile: Option<seq<TranscriptMeta>>
    var historyFile: Option<seq<UploadEntry>>
    /** The transcript documents written under `knowledge/docs`, by file name. */
    var docs: map<string, string>

    constructor (store: Store, transcriptsFile: Option<seq<TranscriptMeta>>,
                 historyFile: Option<seq<UploadEntry>>, docs: map<string, string>)
      ensures this.store == store && this.transcriptsFile == transcriptsFile
      ensures this.historyFile == historyFile && this.docs == docs
    {
      this.store := store;
      this.transcriptsFile := transcriptsFile;
      this.historyFile := historyFile;
      this.docs := docs;
    }

    /** `readTranscriptMeta` */
    function Transcripts(): seq<TranscriptMeta>
      reads this
    {
      transcriptsFile.GetOr([])
    }

    /** `readUploadHistory` */
    function History(): seq<UploadEntry>
      reads this
    {
      historyFile.GetOr([])
    }

    /** `addToUploadHistory`: `unshift`, then `splice(100)`, then one write. */
    method AddToUploadHistory(kind: UploadKind, title: string, metadata: Option<TranscriptInfo>,
                              id: string, uploadedAt: string)
      returns (entry: UploadEntry)
      modifies this`historyFile
      ensures entry == UploadEntry(id, kind, uploadedAt, title, metadata)
      ensures historyFile == Some(WithEntry(old(History()), entry))
    {
      var history := History();
      entry := UploadEntry(id, kind, uploadedAt, title, metadata);
      history := [entry] + history;
      if |history| > HistoryCap {
        history := history[..HistoryCap];
      }
      historyFile := Some(history);
    }

    /** `GET /api/weekly`: `None` is the 404 reply. */
    function Weekly(): (r: Option<TranscriptMeta>)
      reads this
      ensures r.None? <==> Transcripts() == []
      ensures r.Some? ==> r.value == Transcripts()[0]
    {
      if |Transcripts()| == 0 then None else Some(Transcripts()[0])
    }

    /** The context `/api/chat` builds for `question` from the current state. */
    function ContextFor(question: string, today: CivilDate, embed: string -> Option<Embedding>,
                        score: (Embedding, Embedding) -> real,
                        response: Option<WebSearch.InstantAnswer>, prices: Option<WebSearch.Prices>,
                        localeDate: string -> string): string
      requires Valid(today)
      reads this, store
    {
      ChatContext(store.Search(question, HitCount, embed, score), Transcripts(), WeekOfDate(today),
                  localeDate, question, WebSearch.SearchResult(question, response, prices))
    }

    /** The context assembly of `/api/chat`: hits, then the transcript header in front,
        then web results at the end. */
    method BuildContext(question: string, today: CivilDate, embed: string -> Option<Embedding>,
                        score: (Embedding, Embedding) -> real,
                        response: Option<WebSearch.InstantAnswer>, prices: Option<WebSearch.Prices>,
                        localeDate: string -> string)
      returns (context: string)
      requires Valid(today)
      ensures context == ContextFor(question, today, embed, score, response, prices, localeDate)
    {
      context := "";
      var hits := store.Search(question, HitCount, embed, score);
      if hits.Some? {
        context := Join(hits.value, HitSeparator);
      }
      var transcripts := Transcripts();
      if |transcripts| > 0 {
        var currentWeek := WeekOfDate(today);
        context := Header(transcripts[0], currentWeek, |transcripts|, localeDate) + context;
      }
      if NeedsSearch(question) {
        var results := WebSearch.Search(question, response, prices);
        if results != "" {
          context := context + (WebPrefix + results);
        }
      }
    }

    /** `POST /api/chat`. A failed completion leaves the store untouched; a successful one
        adds the Q&A record and saves, unless embedding that record fails. */
    method Chat(messages: Option<seq<Message>>, today: CivilDate,
                embed: string -> Option<Embedding>, score: (Embedding, Embedding) -> real,
                response: Option<WebSearch.InstantAnswer>, prices: Option<WebSearch.Prices>,
                localeDate: string -> string, complete: (string, seq<Message>) -> Option<string>)
      returns (reply: ChatReply)
      requires Valid(today)
      modifies store
      ensures messages.None? ==> reply == BadRequest && unchanged(store)
      ensures messages.Some? ==>
        var q := Question(messages.value);
        var facts := FactsPrefix + old(ContextFor(q, today, embed, score, response, prices, localeDate));
        var completion := complete(facts, messages.value);
        (completion.None? ==> reply == ModelError && unchanged(store)) &&
        (completion.Some? ==>
           var qa := QaText(q, completion.value);
           reply == Answer(completion.value) &&
           (embed(qa).None? ==> unchanged(store)) &&
           (embed(qa).Some? ==>
              store.vectors == old(store.vectors) + [VectorRecord(qa, embed(qa).value)] &&
              store.file == Some(Encode(store.vectors))))
    {
      if messages.None? {
        return BadRequest;
      }
      var msgs := messages.value;
      var question := Question(msgs);
      var context := BuildContext(question, today, embed, score, response, prices, localeDate);
      var completion := complete(FactsPrefix + context, msgs);
      if completion.None? {
        return ModelError;
      }
      var answer := completion.value;
      var qa := QaText(question, answer);
      var embedding := embed(qa);
      if embedding.Some? {
        store.AddVector(VectorRecord(qa, embedding.value));
        store.SaveVectors();
      }
      reply := Answer(answer);
    }

    /** The embed-and-append loop: each text whose embedding succeeds is appended, in
        order; a failed embedding is skipped. Nothing is saved. */
    method AddEmbedded(texts: seq<string>, embed: string -> Option<Embedding>)
      modifies store`vectors
      ensures store.vectors == old(store.vectors) + Embedded(texts, embed)
    {
      var i := 0;
      while i < |texts|
        invariant 0 <= i <= |texts|
        invariant store.vectors == old(store.vectors) + Embedded(texts[..i], embed)
      {
        assert texts[..i + 1][..i] == texts[..i];
        var embedding := embed(texts[i]);
        if embedding.Some? {
          store.AddVector(VectorRecord(texts[i], embedding.value));
        }
        i := i + 1;
      }
      assert texts[..i] == texts;
    }

    /** The metadata step of `/api/transcripts`: push the record, sort latest first,
        write the list, then log the upload. */
    method RecordTranscript(meta: TranscriptMeta, id: string, uploadedAt: string)
      modifies this`transcriptsFile, this`historyFile
      ensures transcriptsFile == Some(SortedByDate(old(Transcripts()) + [meta]))
      ensures historyFile == Some(WithEntry(old(History()), TranscriptEntry(meta, id, uploadedAt)))
      ensures Weekly().Some? && TimeKey(Weekly().value) >= TimeKey(meta)
      ensures forall m :: m in old(Transcripts()) ==> TimeKey(Weekly().value) >= TimeKey(m)
    {
      var metas := Transcripts();
      metas := metas + [meta];
      LatestFirst(metas);
      LatestAbove(metas, old(Transcripts()), meta);
      metas := SortedByDate(metas);
      transcriptsFile := Some(metas);
      var _ := AddToUploadHistory(
        Transcript, "Week " + TitleWeek(meta.weekNumber) + " - " + meta.topic,
        Some(TranscriptInfo(meta.date.text, meta.weekNumber, |meta.keyPoints|, meta.mentionedCoins)),
        id, uploadedAt);
    }

    /** The vector-store step of `/api/transcripts`: the chunks, then the summary record,
        each skipped when its embedding fails, then one save. */
    method AddTranscriptRecords(body: string, dateText: string, embed: string -> Option<Embedding>)
      modifies store`vectors, store`file
      ensures store.vectors == old(store.vectors) + Embedded(Chunks(body, ChunkSize), embed) +
                               Embedded([SummaryText(dateText, body)], embed)
      ensures store.file == Some(Encode(store.vectors))
    {
      var chunks := ChunkText(body, ChunkSize);
      AddEmbedded(chunks, embed);
      AddEmbedded([SummaryText(dateText, body)], embed);
      store.SaveVectors();
    }

    /** `POST /api/transcripts`: writes the document, adds one record per chunk whose
        embedding succeeds and then at most one summary record, saves the store once,
        adds the metadata record and re-sorts the list latest first, and logs the upload. */
    method IngestTranscript(text: Option<string>, date: Option<DateStamp>, now: DateStamp,
                            fileName: string, embed: string -> Option<Embedding>,
                            summary: Summary, id: string)
      returns (reply: TranscriptReply)
      requires ValidStamp(now)
      requires date.Some? ==> ValidStamp(date.value)
      modifies this, store
      ensures Missing(text) ==> reply == MissingText && unchanged(this) && unchanged(store)
      ensures !Missing(text) ==>
        var d := TranscriptDate(date, now);
        var meta := NewMeta(d, summary, fileName, now.text);
        reply == Ingested(meta.topic, meta.keyPoints) &&
        docs == old(docs)[fileName := text.value] &&
        store.vectors == old(store.vectors) + Embedded(Chunks(text.value, ChunkSize), embed) +
                         Embedded([SummaryText(d.text, text.value)], embed) &&
        store.file == Some(Encode(store.vectors)) &&
        transcriptsFile == Some(SortedByDate(old(Transcripts()) + [meta])) &&
        historyFile == Some(WithEntry(old(History()), TranscriptEntry(meta, id, now.text)))
      ensures !Missing(text) ==> Weekly().Some?
      ensures !Missing(text) ==> forall m :: m in old(Transcripts()) ==>
        TimeKey(Weekly().value) >= TimeKey(m)
    {
      if text.None? || text.value == "" {
        return MissingText;
      }
      var body := text.value;
      var transcriptDate := TranscriptDate(date, now);
      docs := docs[fileName := body];

      AddTranscriptRecords(body, transcriptDate.text, embed);

      var meta := MakeMeta(transcriptDate, summary, fileName, now.text);
      RecordTranscript(meta, id, now.text);
      reply := Ingested(meta.topic, meta.keyPoints);
    }
  }
}
