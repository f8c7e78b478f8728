/** server/ingest.ts: the one-off batch job that loads the vector snapshot, chunks every
    `.txt` and `.md` file of the knowledge directory, embeds each chunk and saves the
    snapshot once at the end. The directory listing and the file contents are a
    parameter; the embedding call is a function that may fail. */
module Ingest {
  import opened Wrappers
  import opened Text
  import opened Chunking
  import opened VectorStore

  /** One entry of the knowledge directory: its name and its UTF-8 content. */
  datatype DocFile = DocFile(name: string, content: string)

  const TxtExt := ".txt"
  const MdExt := ".md"

  // ---------- the extension filter ----------

  /** The index of the last '.' in `name`, or -1 when there is none. */
  function LastDot(name: string): (d: int)
    ensures -1 <= d < |name|
    ensures d >= 0 ==> name[d] == '.'
    ensures forall j :: d < j < |name| ==> name[j] != '.'
    decreases |name|
  {
    if |name| == 0 then -1
    else if name[|name| - 1] == '.' then |name| - 1
    else LastDot(name[..|name| - 1])
  }

  /** `path.extname` on a name without '/': from the last '.' to the end, except that a
      name with no dot, a name whose only dot-run starts it (".md") and ".." have none. */
  function ExtName(name: string): (r: string)
    ensures r != "" ==> (|r| < |name| && EndsWith(name, r) && r[0] == '.' &&
      forall j :: 0 < j < |r| ==> r[j] != '.')
  {
    var d := LastDot(name);
    if d <= 0 || name == ".." then "" else name[d..]
  }

  /** `['.txt', '.md'].includes(ext)` */
  predicate Ingestible(name: string) {
    ExtName(name) == TxtExt || ExtName(name) == MdExt
  }

  /** A suffix with no '.' after its first character puts the last dot at its start. */
  lemma LastDotOfSuffix(name: string, ext: string)
    requires |ext| > 0 && ext[0] == '.' && forall j :: 0 < j < |ext| ==> ext[j] != '.'
    requires EndsWith(name, ext)
    ensures LastDot(name) == |name| - |ext|
  {
    var s := |name| - |ext|;
    assert name[s] == ext[0];
    assert forall j :: s < j < |name| ==> name[j] == ext[j - s];
  }

  /** Which names pass the filter: exactly those ending in ".txt" or ".md" with at least
      one character before the extension. */
  lemma IngestibleIff(name: string)
    ensures Ingestible(name) <==>
      (EndsWith(name, TxtExt) && |name| > |TxtExt|) || (EndsWith(name, MdExt) && |name| > |MdExt|)
  {
    var d := LastDot(name);
    if EndsWith(name, TxtExt) && |name| > |TxtExt| {
      LastDotOfSuffix(name, TxtExt);
      assert d > 0 && name != ".." && name[d..] == TxtExt;
    }
    if EndsWith(name, MdExt) && |name| > |MdExt| {
      LastDotOfSuffix(name, MdExt);
      assert d > 0 && name != ".." && name[d..] == MdExt;
    }
  }

  // ---------- what the job embeds ----------

  /** The chunks one file contributes: its windows when it passes the filter, else none. */
  function FileChunks(f: DocFile): seq<string> {
    if Ingestible(f.name) then Chunks(f.content, ChunkSize) else []
  }

  /** The chunks of all files, in listing order. */
  function AllChunks(files: seq<DocFile>): seq<string>
    decreases |files|
  {
    if |files| == 0 then []
    else AllChunks(files[..|files| - 1]) + FileChunks(files[|files| - 1])
  }

  /** The ingestible files' contents, in listing order, one after another. */
  function IngestedText(files: seq<DocFile>): string
    decreases |files|
  {
    if |files| == 0 then ""
    else
      var last := files[|files| - 1];
      IngestedText(files[..|files| - 1]) + (if Ingestible(last.name) then last.content else "")
  }

  lemma {:induction false} ConcatJoin(a: seq<string>, b: seq<string>)
    ensures Concat(a + b) == Concat(a) + Concat(b)
    decreases |a|
  {
    if |a| == 0 {
      assert a + b == b;
    } else {
      assert (a + b)[0] == a[0];
      assert (a + b)[1..] == a[1..] + b;
      ConcatJoin(a[1..], b);
    }
  }

  /** Nothing is lost or reordered: the chunks the job embeds, put back together, are the
      contents of the `.txt` and `.md` files in listing order, and every other file
      contributes nothing. */
  lemma {:induction false} AllChunksText(files: seq<DocFile>)
    ensures Concat(AllChunks(files)) == IngestedText(files)
    decreases |files|
  {
    if |files| > 0 {
      var init := files[..|files| - 1];
      var last := files[|files| - 1];
      AllChunksText(init);
      ConcatJoin(AllChunks(init), FileChunks(last));
      if Ingestible(last.name) {
        ChunksConcat(last.content, ChunkSize);
      }
    }
  }

  lemma AllChunksStep(files: seq<DocFile>, n: nat)
    requires n < |files|
    ensures AllChunks(files[..n + 1]) == AllChunks(files[..n]) + FileChunks(files[n])
  {
    assert files[..n + 1][..n] == files[..n];
  }

  /** Listing more files only adds chunks after the earlier ones. */
  lemma {:induction false} AllChunksPrefix(files: seq<DocFile>, n: nat)
    requires n <= |files|
    ensures AllChunks(files[..n]) <= AllChunks(files)
    decreases |files| - n
  {
    if n < |files| {
      AllChunksPrefix(files, n + 1);
      AllChunksStep(files, n);
      ExtendedPrefix(AllChunks(files[..n]), FileChunks(files[n]), AllChunks(files));
    } else {
      assert files[..n] == files;
    }
  }

  // ---------- the job ----------

  /** Every text in `texts` embeds. */
  predicate AllEmbed(texts: seq<string>, embed: string -> Option<Embedding>) {
    forall i :: 0 <= i < |texts| ==> embed(texts[i]).Some?
  }

  /** `texts[n]` is the first text whose embedding fails. */
  predicate StopsAt(texts: seq<string>, n: nat, embed: string -> Option<Embedding>) {
    n < |texts| && AllEmbed(texts[..n], embed) && embed(texts[n]).None?
  }

  /** One successful embedding appends one record. */
  lemma EmbeddedStep(texts: seq<string>, c: string, embed: string -> Option<Embedding>)
    requires embed(c).Some?
    ensures Embedded(texts + [c], embed) == Embedded(texts, embed) + [VectorRecord(c, embed(c).value)]
  {
    assert (texts + [c])[..|texts|] == texts;
  }

  /** Embeds and appends the chunks of one file; stops at the first chunk whose embedding
      fails and reports how many chunks were added. */
  method AddChunks(store: Store, chunks: seq<string>, embed: string -> Option<Embedding>)
    returns (added: nat)
    modifies store`vectors
    ensures added <= |chunks| && AllEmbed(chunks[..added], embed)
    ensures added < |chunks| ==> embed(chunks[added]).None?
    ensures store.vectors == old(store.vectors) + Embedded(chunks[..added], embed)
  {
    added := 0;
    while added < |chunks|
      invariant 0 <= added <= |chunks| && AllEmbed(chunks[..added], embed)
      invariant store.vectors == old(store.vectors) + Embedded(chunks[..added], embed)
    {
      var embedding := embed(chunks[added]);
      if embedding.None? {
        return;
      }
      EmbeddedStep(chunks[..added], chunks[added], embed);
      assert chunks[..added + 1] == chunks[..added] + [chunks[added]];
      store.AddVector(VectorRecord(chunks[added], embedding.value));
      added := added + 1;
    }
  }

  /** `ingest()`: `loadVectors`, then every chunk of every `.txt`/`.md` file is embedded
      and appended, and the snapshot is saved once at the end. An embedding that throws
      ends the job there: the records added so far stay in memory and the snapshot on
      disk is left as it was. */
  method Ingest(store: Store, files: seq<DocFile>, embed: string -> Option<Embedding>)
    returns (completed: bool)
    modifies store
    ensures completed <==> AllEmbed(AllChunks(files), embed)
    ensures completed ==>
      store.vectors == Restored(old(store.file)) + Embedded(AllChunks(files), embed) &&
      store.file == Some(Encode(store.vectors))
    ensures completed ==> AppendsInOrder(store.vectors, Restored(old(store.file)), AllChunks(files))
    ensures !completed ==> store.file == old(store.file)
    ensures !completed ==> exists n: nat ::
      StopsAt(AllChunks(files), n, embed) &&
      store.vectors == Restored(old(store.file)) + Embedded(AllChunks(files)[..n], embed)
  {
    store.LoadVectors();
    var start := store.vectors;
    var f := 0;
    while f < |files|
      invariant 0 <= f <= |files|
      invariant store.file == old(store.file) && start == Restored(old(store.file))
      invariant AllEmbed(AllChunks(files[..f]), embed)
      invariant store.vectors == start + Embedded(AllChunks(files[..f]), embed)
    {
      var ok := IngestFile(store, files, f, start, embed);
      if !ok {
        return false;
      }
      f := f + 1;
    }
    Finished(files, f, start, store.vectors, embed);
    store.SaveVectors();
    return true;
  }

  /** One pass of the outer loop: chunk file `f` when it passes the filter and embed and
      append its chunks; `ok` is false when an embedding failed. */
  method IngestFile(store: Store, files: seq<DocFile>, f: nat, start: seq<VectorRecord>,
                    embed: string -> Option<Embedding>) returns (ok: bool)
    requires f < |files| && AllEmbed(AllChunks(files[..f]), embed)
    requires store.vectors == start + Embedded(AllChunks(files[..f]), embed)
    modifies store`vectors
    ensures ok ==> AllEmbed(AllChunks(files[..f + 1]), embed)
    ensures ok ==> store.vectors == start + Embedded(AllChunks(files[..f + 1]), embed)
    ensures !ok ==> !AllEmbed(AllChunks(files), embed)
    ensures !ok ==> exists n: nat ::
      StopsAt(AllChunks(files), n, embed) && store.vectors == start + Embedded(AllChunks(files)[..n], embed)
  {
    var chunks: seq<string> := [];
    if Ingestible(files[f].name) {
      chunks := ChunkText(files[f].content, ChunkSize);
    }
    var added := AddChunks(store, chunks, embed);
    var m := Progress(files, f, chunks, added, embed, start, store.vectors);
    ok := added == |chunks|;
    if !ok {
      StopsAtFails(AllChunks(files), m, embed);
    }
  }

  /** A text whose embedding fails means not all of them embed. */
  lemma StopsAtFails(texts: seq<string>, n: nat, embed: string -> Option<Embedding>)
    requires StopsAt(texts, n, embed)
    ensures !AllEmbed(texts, embed)
  {
    assert embed(texts[n]).None?;
  }

  /** The loop's invariant once every file is done: all chunks embedded, in order. */
  lemma Finished(files: seq<DocFile>, f: nat, start: seq<VectorRecord>, vectors: seq<VectorRecord>,
                 embed: string -> Option<Embedding>)
    requires f == |files| && AllEmbed(AllChunks(files[..f]), embed)
    requires vectors == start + Embedded(AllChunks(files[..f]), embed)
    ensures AllEmbed(AllChunks(files), embed) && vectors == start + Embedded(AllChunks(files), embed)
    ensures AppendsInOrder(vectors, start, AllChunks(files))
  {
    assert files[..f] == files;
    AppendedInOrder(start, AllChunks(files), embed);
  }

  /** `v` is `start` followed by one record per text, in the order of `texts`. */
  predicate AppendsInOrder(v: seq<VectorRecord>, start: seq<VectorRecord>, texts: seq<string>) {
    |v| == |start| + |texts| && v[..|start|] == start &&
    forall i :: 0 <= i < |texts| ==> v[|start| + i].text == texts[i]
  }

  /** Embedding texts that all succeed appends one record per text, in order, behind the
      records already there. */
  lemma AppendedInOrder(start: seq<VectorRecord>, texts: seq<string>, embed: string -> Option<Embedding>)
    requires AllEmbed(texts, embed)
    ensures AppendsInOrder(start + Embedded(texts, embed), start, texts)
  {
    EmbeddedSpec(texts, embed);
  }

  /** One file's outcome, restated over the chunks of all files: the records added so far
      are those of the first `m` chunks, and when the file stopped early, chunk `m` is the
      first that failed. */
  lemma Progress(files: seq<DocFile>, f: nat, chunks: seq<string>, added: nat,
                 embed: string -> Option<Embedding>, start: seq<VectorRecord>,
                 vectors: seq<VectorRecord>) returns (m: nat)
    requires f < |files| && chunks == FileChunks(files[f]) && added <= |chunks|
    requires AllEmbed(AllChunks(files[..f]), embed) && AllEmbed(chunks[..added], embed)
    requires added < |chunks| ==> embed(chunks[added]).None?
    requires vectors == start + Embedded(AllChunks(files[..f]), embed) + Embedded(chunks[..added], embed)
    ensures var all := AllChunks(files);
      m <= |all| && AllEmbed(all[..m], embed) && vectors == start + Embedded(all[..m], embed) &&
      (added < |chunks| ==> StopsAt(all, m, embed)) &&
      (added == |chunks| ==> all[..m] == AllChunks(files[..f + 1]))
  {
    AllChunksStep(files, f);
    AllChunksPrefix(files, f + 1);
    m := Advance(AllChunks(files[..f]), chunks, added, AllChunks(files), embed, start, vectors);
  }

  /** `Progress` over plain sequences: `done` is what earlier files contributed, `chunks`
      the current file's chunks and `all` the chunks of every file. */
  lemma Advance(done: seq<string>, chunks: seq<string>, added: nat, all: seq<string>,
                embed: string -> Option<Embedding>, start: seq<VectorRecord>,
                vectors: seq<VectorRecord>) returns (m: nat)
    requires done + chunks <= all && added <= |chunks|
    requires AllEmbed(done, embed) && AllEmbed(chunks[..added], embed)
    requires added < |chunks| ==> embed(chunks[added]).None?
    requires vectors == start + Embedded(done, embed) + Embedded(chunks[..added], embed)
    ensures m <= |all| && AllEmbed(all[..m], embed) && vectors == start + Embedded(all[..m], embed)
    ensures added < |chunks| ==> StopsAt(all, m, embed)
    ensures added == |chunks| ==> all[..m] == done + chunks
  {
    m := |done| + added;
    PrefixOfJoin(done, chunks, added, all);
    AllEmbedJoin(done, chunks[..added], embed);
    EmbeddedAppend(done, chunks[..added], embed);
  }

  /** A sequence is a prefix of whatever its extension is a prefix of. */
  lemma ExtendedPrefix<T>(a: seq<T>, b: seq<T>, all: seq<T>)
    requires a + b <= all
    ensures a <= all
  {
    assert all[..|a|] == (a + b)[..|a|];
  }

  /** Where `a + b` is a prefix of `all`, the first `|a| + k` elements of `all` are `a` and
      the first `k` of `b`. */
  lemma PrefixOfJoin<T>(a: seq<T>, b: seq<T>, k: nat, all: seq<T>)
    requires a + b <= all && k <= |b|
    ensures all[..|a| + k] == a + b[..k]
    ensures k < |b| ==> all[|a| + k] == b[k]
    ensures k == |b| ==> all[..|a| + k] == a + b
  {
    assert all[..|a| + |b|] == a + b;
    assert (a + b)[..|a| + k] == a + b[..k];
  }

  lemma AllEmbedJoin(a: seq<string>, b: seq<string>, embed: string -> Option<Embedding>)
    requires AllEmbed(a, embed) && AllEmbed(b, embed)
    ensures AllEmbed(a + b, embed)
  {
    forall i | 0 <= i < |a + b|
      ensures embed((a + b)[i]).Some?
    {
      if i >= |a| {
        assert (a + b)[i] == b[i - |a|];
      }
    }
  }

  /** When every chunk of `b` embeds, embedding `a + b` adds `a`'s records then `b`'s. */
  lemma {:induction false} EmbeddedAppend(a: seq<string>, b: seq<string>, embed: string -> Option<Embedding>)
    requires AllEmbed(b, embed)
    ensures Embedded(a + b, embed) == Embedded(a, embed) + Embedded(b, embed)
    decreases |b|
  {
    if |b| == 0 {
      assert a + b == a;
    } else {
      var bi, c := b[..|b| - 1], b[|b| - 1];
      assert b == bi + [c] && embed(c).Some?;
      assert AllEmbed(bi, embed) by {
        assert forall i :: 0 <= i < |bi| ==> bi[i] == b[i];
      }
      EmbeddedAppend(a, bi, embed);
      var ea, ebi, r := Embedded(a, embed), Embedded(bi, embed), VectorRecord(c, embed(c).value);
      assert a + b == (a + bi) + [c];
      EmbeddedStep(a + bi, c, embed);
      EmbeddedStep(bi, c, embed);
      assert Embedded(a + b, embed) == (ea + ebi) + [r];
      assert (ea + ebi) + [r] == ea + (ebi + [r]);
    }
  }
}
