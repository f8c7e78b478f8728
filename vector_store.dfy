/** server/vectorStore.ts: the process-wide list of `{text, embedding}` records, its JSON
    snapshot file, and top-k search. Cosine similarity is an abstract score function and
    the embedding call a function that may fail; both are parameters. */
module VectorStore {
  import opened Wrappers
  import Ranking

  type Embedding = seq<real>

  datatype VectorRecord = VectorRecord(text: string, embedding: Embedding)

  /** A JSON value, as `JSON.parse` returns it and `JSON.stringify` takes it. */
  datatype Json =
    | JNull
    | JBool(b: bool)
    | JNumber(n: real)
    | JString(s: string)
    | JArray(items: seq<Json>)
    | JObject(members: seq<(string, Json)>)

  // ---------- the snapshot format ----------

  function EncodeNumbers(xs: seq<real>): seq<Json> {
    seq(|xs|, i requires 0 <= i < |xs| => JNumber(xs[i]))
  }

  /** One record as `JSON.stringify` writes it: `{"text": ..., "embedding": [...]}`. */
  function EncodeRecord(r: VectorRecord): Json {
    JObject([("text", JString(r.text)), ("embedding", JArray(EncodeNumbers(r.embedding)))])
  }

  /** The whole store, as `saveVectors` writes it. */
  function Encode(vs: seq<VectorRecord>): Json {
    JArray(seq(|vs|, i requires 0 <= i < |vs| => EncodeRecord(vs[i])))
  }

  /** The value of member `key`; when a key repeats, the last one wins, as in `JSON.parse`. */
  function Member(members: seq<(string, Json)>, key: string): Option<Json> {
    if |members| == 0 then None
    else if members[|members| - 1].0 == key then Some(members[|members| - 1].1)
    else Member(members[..|members| - 1], key)
  }

  function DecodeNumbers(items: seq<Json>): Option<seq<real>> {
    if |items| == 0 then Some([])
    else match (items[0], DecodeNumbers(items[1..]))
      case (JNumber(x), Some(rest)) => Some([x] + rest)
      case _ => None
  }

  function DecodeRecord(j: Json): Option<VectorRecord> {
    match j
    case JObject(ms) =>
      (match (Member(ms, "text"), Member(ms, "embedding"))
       case (Some(JString(t)), Some(JArray(items))) =>
         (match DecodeNumbers(items)
          case Some(e) => Some(VectorRecord(t, e))
          case None => None)
       case _ => None)
    case _ => None
  }

  function DecodeRecords(items: seq<Json>): Option<seq<VectorRecord>> {
    if |items| == 0 then Some([])
    else match (DecodeRecord(items[0]), DecodeRecords(items[1..]))
      case (Some(r), Some(rest)) => Some([r] + rest)
      case _ => None
  }

  /** Reads a snapshot back as records; `None` when it is not a list of records. */
  function Decode(j: Json): Option<seq<VectorRecord>> {
    match j
    case JArray(items) => DecodeRecords(items)
    case _ => None
  }

  lemma {:induction false} DecodeEncodeNumbers(xs: seq<real>)
    ensures DecodeNumbers(EncodeNumbers(xs)) == Some(xs)
  {
    if |xs| > 0 {
      assert EncodeNumbers(xs)[1..] == EncodeNumbers(xs[1..]);
      DecodeEncodeNumbers(xs[1..]);
      assert [xs[0]] + xs[1..] == xs;
    }
  }

  lemma DecodeEncodeRecord(r: VectorRecord)
    ensures DecodeRecord(EncodeRecord(r)) == Some(r)
  {
    var ms := EncodeRecord(r).members;
    assert Member(ms, "embedding") == Some(JArray(EncodeNumbers(r.embedding)));
    assert ms[..1] == [("text", JString(r.text))];
    assert Member(ms, "text") == Some(JString(r.text));
    DecodeEncodeNumbers(r.embedding);
  }

  /** Round trip: decoding what `saveVectors` writes gives back the same records, in the
      same order. */
  lemma {:induction false} DecodeEncode(vs: seq<VectorRecord>)
    ensures Decode(Encode(vs)) == Some(vs)
  {
    RecordsRoundTrip(vs);
  }

  lemma {:induction false} RecordsRoundTrip(vs: seq<VectorRecord>)
    ensures DecodeRecords(Encode(vs).items) == Some(vs)
  {
    if |vs| > 0 {
      DecodeEncodeRecord(vs[0]);
      assert Encode(vs).items[1..] == Encode(vs[1..]).items;
      RecordsRoundTrip(vs[1..]);
      assert [vs[0]] + vs[1..] == vs;
    }
  }

  // ---------- search ----------

  /** The score of every record against the query embedding, in store order. */
  function Scores(records: seq<VectorRecord>, q: Embedding, score: (Embedding, Embedding) -> real): (s: seq<real>)
    ensures |s| == |records|
  {
    seq(|records|, i requires 0 <= i < |records| => score(q, records[i].embedding))
  }

  /** Where `slice(0, k)` stops on a list of `n` elements: a negative `k` counts from
      the end. */
  function SliceEnd(n: nat, k: int): nat {
    if k < 0 then (if n + k < 0 then 0 else n + k)
    else if k < n then k
    else n
  }

  /** `scored.sort((a, b) => b.score - a.score); scored.slice(0, k).map(s => s.text)`. */
  function TopK(records: seq<VectorRecord>, q: Embedding, k: int, score: (Embedding, Embedding) -> real): (r: seq<string>)
    ensures k >= 0 ==> |r| == if k < |records| then k else |records|
  {
    var ranked := Ranking.RankAll(Scores(records, q, score));
    seq(SliceEnd(|records|, k), i requires 0 <= i < SliceEnd(|records|, k) => records[ranked[i]].text)
  }

  /** What search returns: the texts of distinct records, best score first, equal scores in
      store order, and no record left out scores above one returned. */
  lemma TopKRanking(records: seq<VectorRecord>, q: Embedding, k: int, score: (Embedding, Embedding) -> real)
    returns (pos: seq<nat>)
    ensures var r := TopK(records, q, k, score);
      var s := Scores(records, q, score);
      |pos| == |r| &&
      (forall i :: 0 <= i < |pos| ==> pos[i] < |records| && r[i] == records[pos[i]].text) &&
      (forall i, j :: 0 <= i < j < |pos| ==> pos[i] != pos[j]) &&
      (forall i, j :: 0 <= i < j < |pos| ==>
         s[pos[i]] >= s[pos[j]] && (s[pos[i]] == s[pos[j]] ==> pos[i] < pos[j])) &&
      (forall p :: 0 <= p < |records| && p !in pos ==>
         forall i :: 0 <= i < |pos| ==> s[pos[i]] >= s[p])
  {
    var s := Scores(records, q, score);
    var ranked := Ranking.RankAll(s);
    var m := SliceEnd(|records|, k);
    pos := ranked[..m];
    Ranking.RankAllPermutation(s);
    Ranking.RankAllOrdered(s);
    forall p | 0 <= p < |records| && p !in pos
      ensures forall i :: 0 <= i < |pos| ==> s[pos[i]] >= s[p]
    {
      Ranking.RankAllTopPrefix(s, m, p);
    }
  }

  // ---------- embedding ----------

  /** The records a loop adds when each text is embedded and a failed embedding is
      skipped. */
  function Embedded(texts: seq<string>, embed: string -> Option<Embedding>): (r: seq<VectorRecord>)
    ensures |r| <= |texts|
    decreases |texts|
  {
    if |texts| == 0 then []
    else
      var last := texts[|texts| - 1];
      var init := Embedded(texts[..|texts| - 1], embed);
      if embed(last).Some? then init + [VectorRecord(last, embed(last).value)] else init
  }

  /** Each added record carries one of the texts, in order, with that text's embedding;
      when no embedding fails, every text is added. */
  lemma EmbeddedSpec(texts: seq<string>, embed: string -> Option<Embedding>)
    ensures var r := Embedded(texts, embed);
      (forall k :: 0 <= k < |r| ==> r[k].text in texts && embed(r[k].text) == Some(r[k].embedding)) &&
      ((forall i :: 0 <= i < |texts| ==> embed(texts[i]).Some?) ==>
         |r| == |texts| && forall i :: 0 <= i < |texts| ==> r[i].text == texts[i])
  {
    EmbeddedFrom(texts, embed);
    if forall i :: 0 <= i < |texts| ==> embed(texts[i]).Some? {
      EmbeddedAll(texts, embed);
    }
  }

  lemma {:induction false} EmbeddedFrom(texts: seq<string>, embed: string -> Option<Embedding>)
    ensures var r := Embedded(texts, embed);
      forall k :: 0 <= k < |r| ==> r[k].text in texts && embed(r[k].text) == Some(r[k].embedding)
    decreases |texts|
  {
    if |texts| > 0 {
      var init := texts[..|texts| - 1];
      var last := texts[|texts| - 1];
      EmbeddedFrom(init, embed);
      assert forall k :: 0 <= k < |Embedded(init, embed)| ==>
        Embedded(init, embed)[k].text in init &&
        embed(Embedded(init, embed)[k].text) == Some(Embedded(init, embed)[k].embedding);
      var ri := Embedded(init, embed);
      var r := Embedded(texts, embed);
      if embed(last).Some? {
        assert r == ri + [VectorRecord(last, embed(last).value)];
      } else {
        assert r == ri;
      }
      forall k | 0 <= k < |r|
        ensures r[k].text in texts && embed(r[k].text) == Some(r[k].embedding)
      {
        if k < |ri| {
          assert r[k] == ri[k];
          var j :| 0 <= j < |init| && init[j] == ri[k].text;
          assert texts[j] == init[j];
        } else {
          assert r[k] == VectorRecord(last, embed(last).value);
          assert texts[|texts| - 1] == last;
        }
      }
    }
  }

  lemma {:induction false} EmbeddedAll(texts: seq<string>, embed: string -> Option<Embedding>)
    requires forall i :: 0 <= i < |texts| ==> embed(texts[i]).Some?
    ensures var r := Embedded(texts, embed);
      |r| == |texts| && forall i :: 0 <= i < |texts| ==> r[i].text == texts[i]
    decreases |texts|
  {
    if |texts| > 0 {
      var init := texts[..|texts| - 1];
      var last := texts[|texts| - 1];
      assert forall i :: 0 <= i < |init| ==> init[i] == texts[i];
      EmbeddedAll(init, embed);
      assert embed(last).Some?;
      var ri := Embedded(init, embed);
      assert Embedded(texts, embed) == ri + [VectorRecord(last, embed(last).value)];
    }
  }

  /** The texts whose embedding succeeds, in their original order. */
  function Succeeded(texts: seq<string>, embed: string -> Option<Embedding>): seq<string> {
    if |texts| == 0 then []
    else (if embed(texts[0]).Some? then [texts[0]] else []) + Succeeded(texts[1..], embed)
  }

  /** Filtering `texts + [c]` filters `texts` and then looks at `c`. */
  lemma {:induction false} SucceededSnoc(texts: seq<string>, c: string, embed: string -> Option<Embedding>)
    ensures Succeeded(texts + [c], embed) ==
      Succeeded(texts, embed) + (if embed(c).Some? then [c] else [])
    decreases |texts|
  {
    if |texts| == 0 {
      assert [c][1..] == [];
    } else {
      var head := if embed(texts[0]).Some? then [texts[0]] else [];
      var tail := if embed(c).Some? then [c] else [];
      assert (texts + [c])[0] == texts[0] && (texts + [c])[1..] == texts[1..] + [c];
      SucceededSnoc(texts[1..], c, embed);
      var rest := Succeeded(texts[1..], embed);
      assert Succeeded(texts + [c], embed) == head + (rest + tail);
      assert head + (rest + tail) == (head + rest) + tail;
    }
  }

  /** The embed-and-skip loop keeps exactly the texts whose embedding succeeds, in order,
      each with its own embedding. */
  lemma {:induction false} EmbeddedKeepsSucceeded(texts: seq<string>, embed: string -> Option<Embedding>)
    ensures var r, s := Embedded(texts, embed), Succeeded(texts, embed);
      |r| == |s| &&
      forall k :: 0 <= k < |r| ==> r[k].text == s[k] && embed(s[k]) == Some(r[k].embedding)
    decreases |texts|
  {
    if |texts| > 0 {
      var init, last := texts[..|texts| - 1], texts[|texts| - 1];
      assert texts == init + [last];
      EmbeddedKeepsSucceeded(init, embed);
      SucceededSnoc(init, last, embed);
      var ri, si := Embedded(init, embed), Succeeded(init, embed);
      assert |ri| == |si| &&
        forall k :: 0 <= k < |ri| ==> ri[k].text == si[k] && embed(si[k]) == Some(ri[k].embedding);
      if embed(last).Some? {
        assert Embedded(texts, embed) == ri + [VectorRecord(last, embed(last).value)];
        assert Succeeded(texts, embed) == si + [last];
      } else {
        assert Embedded(texts, embed) == ri;
        assert Succeeded(texts, embed) == si + [];
      }
    }
  }

  /** What `loadVectors` leaves in the store for a snapshot: its records, or nothing when
      it is missing or not a list of records. */
  function Restored(file: Option<Json>): (r: seq<VectorRecord>)
    ensures file.None? ==> r == []
    ensures r != [] ==> file.Some? && Decode(file.value) == Some(r)
  {
    if file.Some? && Decode(file.value).Some? then Decode(file.value).value else []
  }

  /** The module-level `vectors` list and the snapshot file it is saved to. */
  class Store {
    var vectors: seq<VectorRecord>
    /** The snapshot file's parsed content; `None` when it is missing or not valid JSON. */
    var file: Option<Json>

    constructor (file: Option<Json>)
      ensures vectors == [] && this.file == file
    {
      vectors := [];
      this.file := file;
    }

    /** `loadVectors`: replaces the list with the snapshot's records; a missing or
        unreadable snapshot leaves an empty store instead of failing. */
    method LoadVectors()
      modifies this`vectors
      ensures file.Some? && Decode(file.value).Some? ==> vectors == Decode(file.value).value
      ensures file.None? || Decode(file.value).None? ==> vectors == []
      ensures vectors == Restored(file)
    {
      if file.Some? && Decode(file.value).Some? {
        vectors := Decode(file.value).value;
      } else {
        vectors := [];
      }
    }

    /** `saveVectors`: overwrites the snapshot with the whole list. */
    method SaveVectors()
      modifies this`file
      ensures file == Some(Encode(vectors))
    {
      file := Some(Encode(vectors));
    }

    /** `addVector`: appends at the end; earlier records are untouched. */
    method AddVector(record: VectorRecord)
      modifies this`vectors
      ensures vectors == old(vectors) + [record]
    {
      vectors := vectors + [record];
    }

    /** Saving then loading gives back the same list. */
    method SaveThenLoad()
      modifies this
      ensures vectors == old(vectors)
      ensures file == Some(Encode(vectors))
    {
      SaveVectors();
      DecodeEncode(vectors);
      LoadVectors();
    }

    /** `search(query, k)`: an empty store answers `[]` without embedding the query;
        otherwise the query is embedded (`None`: the call threw) and the top `k` texts are
        returned. The list itself is only read. */
    function Search(query: string, k: int, embed: string -> Option<Embedding>,
                    score: (Embedding, Embedding) -> real): (r: Option<seq<string>>)
      reads this
      ensures vectors == [] ==> r == Some([])
      ensures r.None? <==> vectors != [] && embed(query).None?
      ensures r.Some? && vectors != [] ==> r.value == TopK(vectors, embed(query).value, k, score)
    {
      if |vectors| == 0 then Some([])
      else match embed(query)
        case None => None
        case Some(q) => Some(TopK(vectors, q, k, score))
    }
  }
}
