/**
 * Retrieval tools of the agent node: the tool name, description and store
 * parameters derived for each configured knowledge key
 * (`_init_knowledge_tools`, `init_knowledge_milvus`, `init_file_milvus`,
 * `init_knowledge_es`, `init_file_es` in agent.py). Instantiating the stores
 * is external; a store is represented by the parameter dict it receives.
 */
module Retrieval {
  import opened Wrappers
  import opened PyValues
  import opened AgentTypes

  const KnowledgePrefix: string := "knowledge_"
  const PartitionPrefix: string := "partition"

  /** What a knowledge tool needs from outside the node. */
  datatype StoreContext = StoreContext(
    knowledgeDb: map<string, Knowledge>,        // KnowledgeDao.query_by_id
    decideEmbeddings: string -> Embedding,      // decide_embeddings(model)
    defaultEmbedding: Option<Embedding>,        // the knowledge default embedding
    vars: map<string, Value>,                   // workflow-state variables
    workflowId: string,
    tmpCollectionName: string)

  predicate StartsWith(s: string, prefix: string) {
    |prefix| <= |s| && s[..|prefix|] == prefix
  }

  /** `s.replace(c, "")`: `s` with every occurrence of `c` deleted, order kept. */
  function RemoveChar(s: string, c: char): (r: string)
    ensures c !in r
    ensures |r| <= |s|
    ensures forall x :: x in r ==> x in s
    ensures c !in s ==> r == s
    decreases |s|
  {
    if s == [] then []
    else
      var rest := RemoveChar(s[1..], c);
      if s[0] == c then rest else [s[0]] + rest
  }

  lemma {:induction false} RemoveCharCommutes(s: string, a: char, b: char)
    ensures RemoveChar(RemoveChar(s, a), b) == RemoveChar(RemoveChar(s, b), a)
    decreases |s|
  {
    if s != [] {
      RemoveCharCommutes(s[1..], a, b);
      var ra := RemoveChar(s, a);
      var rb := RemoveChar(s, b);
      if s[0] != a { assert ra[1..] == RemoveChar(s[1..], a); }
      if s[0] != b { assert rb[1..] == RemoveChar(s[1..], b); }
    }
  }

  lemma {:induction false} RemoveCharAppend(a: string, b: string, c: char)
    ensures RemoveChar(a + b, c) == RemoveChar(a, c) + RemoveChar(b, c)
    decreases |a|
  {
    if a == [] {
      assert a + b == b;
    } else {
      assert (a + b)[0] == a[0] && (a + b)[1..] == a[1..] + b;
      RemoveCharAppend(a[1..], b, c);
    }
  }

  /** Name of the tool for a persistent knowledge base. */
  function KnowledgeToolName(key: string): (r: string)
    ensures StartsWith(r, KnowledgePrefix) && r[|KnowledgePrefix|..] == key
  {
    KnowledgePrefix + key
  }

  /** Distinct knowledge-base ids give distinct tool names. */
  lemma KnowledgeToolNameInjective(k1: string, k2: string)
    requires KnowledgeToolName(k1) == KnowledgeToolName(k2)
    ensures k1 == k2
  {
    assert k1 == KnowledgeToolName(k1)[|KnowledgePrefix|..];
  }

  /** Name of the tool for a temporary file variable: '.' and then '#' stripped. */
  function FileToolName(key: string): (r: string)
    ensures '.' !in r && '#' !in r
    ensures StartsWith(r, KnowledgePrefix)
    ensures '.' !in key && '#' !in key ==> r == KnowledgePrefix + key
  {
    KnowledgePrefix + RemoveChar(RemoveChar(key, '.'), '#')
  }

  /** Stripping '#' first gives the same name: the two replaces are independent. */
  lemma FileToolNameEitherOrder(key: string)
    ensures FileToolName(key) == KnowledgePrefix + RemoveChar(RemoveChar(key, '#'), '.')
  {
    RemoveCharCommutes(key, '.', '#');
  }

  /**
   * File tool names are not unique: a variable name and the same name with
   * a '.' inserted anywhere yield the same tool name.
   */
  lemma FileToolNamesCanCollide(p: string, q: string)
    ensures p + "." + q != p + q
    ensures FileToolName(p + "." + q) == FileToolName(p + q)
  {
    assert |p + "." + q| != |p + q|;
    RemoveCharAppend(p + ".", q, '.');
    RemoveCharAppend(p, ".", '.');
    RemoveCharAppend(p, q, '.');
    assert RemoveChar(".", '.') == [];
    assert RemoveChar(p + "." + q, '.') == RemoveChar(p + q, '.');
  }

  function KnowledgeDescription(k: Knowledge): (r: string)
    ensures StartsWith(r, k.name) && r[|k.name|..] == ":" + k.description
  {
    k.name + ":" + k.description
  }

  /** `f'file name: {file_metadata.get("source")}'`; a missing source prints as None. */
  function FileDescription(entries: seq<(string, Value)>): (r: string)
    ensures StartsWith(r, "file name: ")
    ensures DictGet(entries, "source").Some? ==>
              r == "file name: " + PyStr(DictGet(entries, "source").value)
    ensures DictGet(entries, "source").None? ==> r == "file name: None"
  {
    var source := DictGet(entries, "source");
    "file name: " + PyStr(if source.Some? then source.value else VNone)
  }

  /** `file_metadata['file_id']`. */
  function FileId(meta: Value): (r: Result<Value, Error>)
    ensures !meta.VDict? ==> r == Err(NotSubscriptable)
    ensures meta.VDict? ==>
              (r.Ok? <==> DictGet(meta.entries, "file_id").Some?) &&
              (r.Ok? ==> r.value == DictGet(meta.entries, "file_id").value) &&
              (r.Err? ==> r.error == MissingKey("file_id"))
  {
    match meta
    case VDict(entries) =>
      var v := DictGet(entries, "file_id");
      if v.Some? then Ok(v.value) else Err(MissingKey("file_id"))
    case _ => Err(NotSubscriptable)
  }

  /** Vector-store params for a knowledge base (`init_knowledge_milvus`). */
  function InitKnowledgeMilvus(k: Knowledge, decide: string -> Embedding): (r: VectorParams)
    ensures r.collectionName == k.collectionName && r.embedding == decide(k.model)
    ensures r.partitionKey.Some? <==> StartsWith(k.collectionName, PartitionPrefix)
    ensures r.partitionKey.Some? ==> r.partitionKey.value == VInt(k.id)
    ensures r.metadataExpr.None?
  {
    VectorParams(
      k.collectionName, decide(k.model),
      if StartsWith(k.collectionName, PartitionPrefix) then Some(VInt(k.id)) else None,
      None)
  }

  /**
   * Vector-store params for a temporary file (`init_file_milvus`): the
   * missing default embedding is reported before the file id is read.
   */
  function InitFileMilvus(meta: Value, cx: StoreContext): (r: Result<VectorParams, Error>)
    ensures cx.defaultEmbedding.None? ==> r == Err(NoDefaultEmbedding)
    ensures r.Ok? <==> cx.defaultEmbedding.Some? && FileId(meta).Ok?
    ensures r.Err? && cx.defaultEmbedding.Some? ==> r.error == FileId(meta).error
    ensures r.Ok? ==>
              r.value.collectionName == cx.tmpCollectionName &&
              r.value.embedding == cx.defaultEmbedding.value &&
              r.value.partitionKey == Some(VStr(cx.workflowId)) &&
              r.value.metadataExpr == Some(TermsFilter("file_id", [FileId(meta).value]))
  {
    if cx.defaultEmbedding.None? then Err(NoDefaultEmbedding)
    else
      match FileId(meta)
      case Err(e) => Err(e)
      case Ok(fileId) =>
        Ok(VectorParams(
             cx.tmpCollectionName, cx.defaultEmbedding.value,
             Some(VStr(cx.workflowId)), Some(TermsFilter("file_id", [fileId]))))
  }

  /** Keyword-store params for a knowledge base: its index, unfiltered. */
  function InitKnowledgeEs(k: Knowledge): (r: KeywordParams)
    ensures r.indexName == k.indexName && r.postFilter.None?
  {
    KeywordParams(k.indexName, None)
  }

  /** Keyword-store params for a temporary file: post-filtered to its file id. */
  function InitFileEs(meta: Value, cx: StoreContext): (r: Result<KeywordParams, Error>)
    ensures r.Ok? <==> FileId(meta).Ok?
    ensures r.Err? ==> r.error == FileId(meta).error
    ensures r.Ok? ==>
              r.value.indexName == cx.tmpCollectionName &&
              r.value.postFilter == Some(TermsFilter("metadata.file_id", [FileId(meta).value]))
  {
    match FileId(meta)
    case Err(e) => Err(e)
    case Ok(fileId) =>
      Ok(KeywordParams(cx.tmpCollectionName, Some(TermsFilter("metadata.file_id", [fileId]))))
  }

  /**
   * The `bisheng_rag` parameters for one knowledge key (one iteration of the
   * loop in `_init_knowledge_tools`). Type 'knowledge' reads a knowledge
   * base; every other type reads file metadata from a workflow variable.
   */
  function KnowledgeToolSpec(kind: string, key: string, cx: StoreContext, llm: Llm, retriever: RetrieverConfig)
    : Result<RagToolSpec, Error>
  {
    if kind == "knowledge" then
      if key !in cx.knowledgeDb then Err(KnowledgeNotFound(key))
      else
        var k := cx.knowledgeDb[key];
        Ok(RagToolSpec(KnowledgeToolName(key), KnowledgeDescription(k),
                       InitKnowledgeMilvus(k, cx.decideEmbeddings), InitKnowledgeEs(k),
                       llm, retriever))
    else
      match Lookup(cx.vars, key)
      case Err(e) => Err(e)
      case Ok(meta) =>
        if !meta.VDict? then Err(NotADict(key))
        else
          var name := FileToolName(key);
          var description := FileDescription(meta.entries);
          match InitFileMilvus(meta, cx)
          case Err(e) => Err(e)
          case Ok(vector) =>
            match InitFileEs(meta, cx)
            case Err(e) => Err(e)
            case Ok(keyword) => Ok(RagToolSpec(name, description, vector, keyword, llm, retriever))
  }

  /**
   * What one key yields: a knowledge key names a knowledge base that must
   * exist, a file key names a workflow variable that must hold a file dict,
   * and the stores are configured as the builders above say.
   */
  lemma KnowledgeToolSpecMeaning(kind: string, key: string, cx: StoreContext, llm: Llm, retriever: RetrieverConfig)
    ensures var r := KnowledgeToolSpec(kind, key, cx, llm, retriever);
            (r.Ok? ==> r.value.llm == llm && r.value.retriever == retriever) &&
            (kind == "knowledge" ==>
               (r.Ok? <==> key in cx.knowledgeDb) &&
               (r.Err? ==> r.error == KnowledgeNotFound(key)) &&
               (r.Ok? ==>
                  var k := cx.knowledgeDb[key];
                  r.value.name == KnowledgePrefix + key &&
                  r.value.description == k.name + ":" + k.description &&
                  r.value.vectorStore == InitKnowledgeMilvus(k, cx.decideEmbeddings) &&
                  r.value.vectorStore.collectionName == k.collectionName &&
                  r.value.vectorStore.embedding == cx.decideEmbeddings(k.model) &&
                  (StartsWith(k.collectionName, PartitionPrefix) ==> r.value.vectorStore.partitionKey == Some(VInt(k.id))) &&
                  (!StartsWith(k.collectionName, PartitionPrefix) ==> r.value.vectorStore.partitionKey == None) &&
                  r.value.vectorStore.metadataExpr == None &&
                  r.value.keywordStore == InitKnowledgeEs(k) &&
                  r.value.keywordStore == KeywordParams(k.indexName, None))) &&
            (kind != "knowledge" ==>
               (r.Ok? <==>
                  key in cx.vars && cx.vars[key].VDict? && cx.defaultEmbedding.Some? &&
                  DictGet(cx.vars[key].entries, "file_id").Some?) &&
               (key !in cx.vars ==> r == Err(UnknownVariable(key))) &&
               (key in cx.vars && !cx.vars[key].VDict? ==> r == Err(NotADict(key))) &&
               (key in cx.vars && cx.vars[key].VDict? && cx.defaultEmbedding.None? ==>
                  r == Err(NoDefaultEmbedding)) &&
               (key in cx.vars && cx.vars[key].VDict? && cx.defaultEmbedding.Some? &&
                DictGet(cx.vars[key].entries, "file_id").None? ==>
                  r == Err(MissingKey("file_id"))) &&
               (r.Ok? ==>
                  var fileId := DictGet(cx.vars[key].entries, "file_id").value;
                  '.' !in r.value.name && '#' !in r.value.name &&
                  r.value.name == FileToolName(key) &&
                  r.value.description == FileDescription(cx.vars[key].entries) &&
                  r.value.vectorStore ==
                    VectorParams(cx.tmpCollectionName, cx.defaultEmbedding.value,
                                 Some(VStr(cx.workflowId)), Some(TermsFilter("file_id", [fileId]))) &&
                  r.value.keywordStore ==
                    KeywordParams(cx.tmpCollectionName, Some(TermsFilter("metadata.file_id", [fileId])))))
  {
  }

  /**
   * Dots are dropped from a file tool name: a variable `p.q` whose parts hold
   * no '.' or '#' gets the tool name `knowledge_` followed by `pq`.
   */
  lemma FileToolNameDropsDot(p: string, q: string)
    requires '.' !in p && '#' !in p && '.' !in q && '#' !in q
    ensures FileToolName(p + "." + q) == KnowledgePrefix + p + q
  {
    FileToolNamesCanCollide(p, q);
    assert '.' !in p + q && '#' !in p + q;
    assert KnowledgePrefix + (p + q) == KnowledgePrefix + p + q;
  }

  /**
   * File metadata {file_id: id, source: src} under variable `p.q` yields a
   * tool named `knowledge_pq`, described by its source, with both stores
   * filtered on its file id.
   */
  lemma FileToolOfMetadata(p: string, q: string, id: string, src: string,
                           cx: StoreContext, llm: Llm, retriever: RetrieverConfig)
    requires '.' !in p && '#' !in p && '.' !in q && '#' !in q
    requires cx.defaultEmbedding.Some?
    requires p + "." + q in cx.vars
    requires cx.vars[p + "." + q] == VDict([("file_id", VStr(id)), ("source", VStr(src))])
    ensures var r := KnowledgeToolSpec("file", p + "." + q, cx, llm, retriever);
            r.Ok? &&
            r.value.name == KnowledgePrefix + p + q &&
            r.value.description == "file name: " + src &&
            r.value.vectorStore.metadataExpr == Some(TermsFilter("file_id", [VStr(id)])) &&
            r.value.keywordStore.postFilter == Some(TermsFilter("metadata.file_id", [VStr(id)])) &&
            r.value.llm == llm && r.value.retriever == retriever
  {
    var key := p + "." + q;
    var meta := cx.vars[key];
    var entries := meta.entries;
    assert DictGet(entries, "file_id") == Some(VStr(id));
    assert entries[1..] == [("source", VStr(src))];
    assert DictGet(entries, "source") == Some(VStr(src));
    assert FileDescription(entries) == "file name: " + src;
    assert FileId(meta) == Ok(VStr(id));
    assert InitFileMilvus(meta, cx).Ok? && InitFileEs(meta, cx).Ok?;
    FileToolNameDropsDot(p, q);
    var r := KnowledgeToolSpec("file", key, cx, llm, retriever);
    assert r == Ok(RagToolSpec(FileToolName(key), FileDescription(entries), InitFileMilvus(meta, cx).value,
                               InitFileEs(meta, cx).value, llm, retriever));
  }
}
