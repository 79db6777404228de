/**
 * Tag edits in the client's conversation cache
 * (src/frontend/client/src/hooks/Conversations/useUpdateTagsInConvo.ts).
 * The query cache holds one entry per conversation and the paged list of
 * all conversations; `updateTagsInConversation` sets the tags of one
 * conversation, `replaceTagsInAllConversations` renames one tag everywhere.
 */
module ConvoTags {
  import opened Wrappers

  /** A cached conversation: its id and tags (either may be missing) and its other fields. */
  datatype Conversation = Conversation(
    conversationId: Option<string>,
    tags: Option<seq<string>>,
    rest: map<string, string>)

  /** One page of the conversation list response. */
  datatype Page = Page(conversations: seq<Conversation>, meta: map<string, string>)

  /** The infinite-query data cached under the all-conversations key. */
  datatype ConversationList = ConversationList(pages: seq<Page>, pageParams: seq<string>)

  /** The two kinds of query-cache entries the hook reads and writes. */
  class QueryCache {
    var conversations: map<string, Conversation>   // [QueryKeys.conversation, id]
    var allConversations: Option<ConversationList>  // [QueryKeys.allConversations]

    constructor(conversations: map<string, Conversation>, allConversations: Option<ConversationList>)
      ensures this.conversations == conversations && this.allConversations == allConversations
    {
      this.conversations := conversations;
      this.allConversations := allConversations;
    }
  }

  // ------------------------------------------------------------------
  // Renaming one tag
  // ------------------------------------------------------------------

  /** `tags.map((t) => (t === tag ? newTag : t))`. */
  function ReplaceTag(tags: seq<string>, tag: string, newTag: string): (r: seq<string>)
    ensures |r| == |tags|
    ensures forall i :: 0 <= i < |tags| ==> r[i] == (if tags[i] == tag then newTag else tags[i])
    decreases |tags|
  {
    if tags == [] then []
    else [if tags[0] == tag then newTag else tags[0]] + ReplaceTag(tags[1..], tag, newTag)
  }

  /** After the rename the old tag is gone, unless it was renamed to itself. */
  lemma ReplaceTagRemoves(tags: seq<string>, tag: string, newTag: string)
    requires tag != newTag
    ensures tag !in ReplaceTag(tags, tag, newTag)
  {
  }

  /** Every other tag keeps its place; the new tag appears exactly where the old one was or already stood. */
  lemma ReplaceTagMembership(tags: seq<string>, tag: string, newTag: string, x: string)
    ensures x != tag && x != newTag ==> (x in ReplaceTag(tags, tag, newTag) <==> x in tags)
    ensures newTag in ReplaceTag(tags, tag, newTag) <==> tag in tags || newTag in tags
  {
    var r := ReplaceTag(tags, tag, newTag);
    if x != tag && x != newTag {
      if x in tags { var i :| 0 <= i < |tags| && tags[i] == x; assert r[i] == x; }
      if x in r { var i :| 0 <= i < |r| && r[i] == x; assert tags[i] == x; }
    }
    if tag in tags { var i :| 0 <= i < |tags| && tags[i] == tag; assert r[i] == newTag; }
    if newTag in tags { var i :| 0 <= i < |tags| && tags[i] == newTag; assert r[i] == newTag; }
    if newTag in r { var i :| 0 <= i < |r| && r[i] == newTag; assert tags[i] == tag || tags[i] == newTag; }
  }

  /** Renaming twice is renaming once, so an id collected twice does no extra harm. */
  lemma {:induction false} ReplaceTagIdempotent(tags: seq<string>, tag: string, newTag: string)
    ensures ReplaceTag(ReplaceTag(tags, tag, newTag), tag, newTag) == ReplaceTag(tags, tag, newTag)
    decreases |tags|
  {
    if tags != [] {
      ReplaceTagIdempotent(tags[1..], tag, newTag);
      var r := ReplaceTag(tags, tag, newTag);
      assert r[1..] == ReplaceTag(tags[1..], tag, newTag);
    }
  }

  /** `conversation.conversationId && conversation.tags?.includes(tag)`. */
  predicate Affected(c: Conversation, tag: string) {
    c.conversationId.Some? && c.conversationId.value != "" && c.tags.Some? && tag in c.tags.value
  }

  /** The callback of `page.conversations.map`, without its push. */
  function RenameConversation(c: Conversation, tag: string, newTag: string): Conversation {
    if Affected(c, tag) then c.(tags := Some(ReplaceTag(c.tags.value, tag, newTag))) else c
  }

  /** A page's conversations after the rename, in place and in order. */
  function RenameConversations(cs: seq<Conversation>, tag: string, newTag: string): (r: seq<Conversation>)
    ensures |r| == |cs|
    ensures forall i :: 0 <= i < |cs| ==> r[i] == RenameConversation(cs[i], tag, newTag)
    decreases |cs|
  {
    if cs == [] then []
    else RenameConversations(cs[..|cs| - 1], tag, newTag) + [RenameConversation(cs[|cs| - 1], tag, newTag)]
  }

  /** The ids a page pushes, in position order. */
  function IdsIn(cs: seq<Conversation>, tag: string): seq<string>
    decreases |cs|
  {
    if cs == [] then []
    else
      var c := cs[|cs| - 1];
      IdsIn(cs[..|cs| - 1], tag) + if Affected(c, tag) then [c.conversationId.value] else []
  }

  /** All pages after the rename. */
  function RenamePages(pages: seq<Page>, tag: string, newTag: string): (r: seq<Page>)
    ensures |r| == |pages|
    ensures forall p :: 0 <= p < |pages| ==>
              r[p] == pages[p].(conversations := RenameConversations(pages[p].conversations, tag, newTag))
    decreases |pages|
  {
    if pages == [] then []
    else
      var last := pages[|pages| - 1];
      RenamePages(pages[..|pages| - 1], tag, newTag) +
        [last.(conversations := RenameConversations(last.conversations, tag, newTag))]
  }

  /** `conversationIdsWithTag`: the affected ids, page after page. */
  function AffectedIds(pages: seq<Page>, tag: string): seq<string>
    decreases |pages|
  {
    if pages == [] then []
    else AffectedIds(pages[..|pages| - 1], tag) + IdsIn(pages[|pages| - 1].conversations, tag)
  }

  /** The per-conversation entries after the second loop: each collected id renamed in turn. */
  function RenameEntries(m: map<string, Conversation>, ids: seq<string>, tag: string, newTag: string)
    : map<string, Conversation>
    decreases |ids|
  {
    if ids == [] then m
    else
      var prev := RenameEntries(m, ids[..|ids| - 1], tag, newTag);
      var id := ids[|ids| - 1];
      if id in prev && prev[id].tags.Some? then
        prev[id := prev[id].(tags := Some(ReplaceTag(prev[id].tags.value, tag, newTag)))]
      else prev
  }

  // ------------------------------------------------------------------
  // What the rename promises
  // ------------------------------------------------------------------

  /**
   * Page structure is kept: same pages, same conversations in the same
   * order, every id and other field unchanged; only an affected
   * conversation's tags change, by the position-wise rename.
   */
  lemma RenamePagesShape(pages: seq<Page>, tag: string, newTag: string)
    ensures var r := RenamePages(pages, tag, newTag);
            |r| == |pages| &&
            forall p :: 0 <= p < |pages| ==>
              r[p].meta == pages[p].meta &&
              |r[p].conversations| == |pages[p].conversations| &&
              forall i :: 0 <= i < |pages[p].conversations| ==>
                var c := pages[p].conversations[i];
                var c' := r[p].conversations[i];
                c'.conversationId == c.conversationId && c'.rest == c.rest &&
                (!Affected(c, tag) ==> c' == c) &&
                (Affected(c, tag) ==> c'.tags == Some(ReplaceTag(c.tags.value, tag, newTag)) &&
                                      |c'.tags.value| == |c.tags.value|)
  {
  }

  /** With a real rename, no conversation in the renamed list still carries the old tag where it was affected. */
  lemma RenamedHasNoOldTag(pages: seq<Page>, tag: string, newTag: string, p: nat, i: nat)
    requires tag != newTag
    requires p < |pages| && i < |pages[p].conversations|
    requires Affected(pages[p].conversations[i], tag)
    ensures var c' := RenamePages(pages, tag, newTag)[p].conversations[i];
            c'.tags.Some? && tag !in c'.tags.value
  {
    ReplaceTagRemoves(pages[p].conversations[i].tags.value, tag, newTag);
  }

  /** A page's ids are exactly its affected conversations' ids, one per affected conversation. */
  lemma {:induction false} IdsInMeaning(cs: seq<Conversation>, tag: string, x: string)
    ensures x in IdsIn(cs, tag) <==> exists i :: 0 <= i < |cs| && Affected(cs[i], tag) && cs[i].conversationId.value == x
    ensures |IdsIn(cs, tag)| <= |cs|
    decreases |cs|
  {
    if cs != [] {
      var n := |cs| - 1;
      IdsInMeaning(cs[..n], tag, x);
      assert forall i :: 0 <= i < n ==> cs[..n][i] == cs[i];
      if x in IdsIn(cs, tag) && x !in IdsIn(cs[..n], tag) {
        assert Affected(cs[n], tag) && cs[n].conversationId.value == x;
      }
    }
  }

  /** Ids are collected in position order: the ids of a split list are the ids of its parts, in order. */
  lemma {:induction false} IdsInAppend(a: seq<Conversation>, b: seq<Conversation>, tag: string)
    ensures IdsIn(a + b, tag) == IdsIn(a, tag) + IdsIn(b, tag)
    decreases |b|
  {
    if b == [] {
      assert a + b == a;
    } else {
      var n := |b| - 1;
      assert (a + b)[..|a + b| - 1] == a + b[..n];
      IdsInAppend(a, b[..n], tag);
    }
  }

  /** Ids are collected page after page: the ids of a split page list are those of its parts, in order. */
  lemma {:induction false} AffectedIdsAppend(a: seq<Page>, b: seq<Page>, tag: string)
    ensures AffectedIds(a + b, tag) == AffectedIds(a, tag) + AffectedIds(b, tag)
    decreases |b|
  {
    if b == [] {
      assert a + b == a;
    } else {
      var n := |b| - 1;
      var ab := a + b;
      assert ab[..|ab| - 1] == a + b[..n];
      assert ab[|ab| - 1] == b[n];
      AffectedIdsAppend(a, b[..n], tag);
      var x, y, z := AffectedIds(a, tag), AffectedIds(b[..n], tag), IdsIn(b[n].conversations, tag);
      assert AffectedIds(ab, tag) == (x + y) + z;
      assert AffectedIds(b, tag) == y + z;
      assert (x + y) + z == x + (y + z);
    }
  }

  /** An id is collected exactly when some page holds an affected conversation with that id. */
  lemma {:induction false} AffectedIdsMeaning(pages: seq<Page>, tag: string, x: string)
    ensures x in AffectedIds(pages, tag) <==>
              exists p, i :: 0 <= p < |pages| && 0 <= i < |pages[p].conversations| &&
                             Affected(pages[p].conversations[i], tag) && pages[p].conversations[i].conversationId.value == x
    decreases |pages|
  {
    if pages != [] {
      var n := |pages| - 1;
      AffectedIdsMeaning(pages[..n], tag, x);
      IdsInMeaning(pages[n].conversations, tag, x);
      assert forall p :: 0 <= p < n ==> pages[..n][p] == pages[p];
      if x in AffectedIds(pages, tag) && x !in AffectedIds(pages[..n], tag) {
        var i :| 0 <= i < |pages[n].conversations| && Affected(pages[n].conversations[i], tag) &&
                 pages[n].conversations[i].conversationId.value == x;
        assert 0 <= n < |pages| && 0 <= i < |pages[n].conversations|;
      }
    }
  }

  /**
   * The per-conversation update is narrow: no entry is added or removed;
   * an entry changes only when its id was collected and it has tags, and
   * then only its tags, by the position-wise rename (once, even when the id
   * was collected more than once).
   */
  lemma {:induction false} RenameEntriesNarrow(m: map<string, Conversation>, ids: seq<string>, tag: string, newTag: string)
    ensures RenameEntries(m, ids, tag, newTag).Keys == m.Keys
    ensures forall k :: k in m && (k !in ids || m[k].tags.None?) ==> RenameEntries(m, ids, tag, newTag)[k] == m[k]
    ensures forall k :: k in m && k in ids && m[k].tags.Some? ==>
              RenameEntries(m, ids, tag, newTag)[k] == m[k].(tags := Some(ReplaceTag(m[k].tags.value, tag, newTag)))
    decreases |ids|
  {
    if ids != [] {
      var n := |ids| - 1;
      RenameEntriesNarrow(m, ids[..n], tag, newTag);
      var id := ids[n];
      assert forall k :: k in ids <==> k in ids[..n] || k == id by {
        assert ids == ids[..n] + [id];
      }
      if id in m && m[id].tags.Some? {
        ReplaceTagIdempotent(m[id].tags.value, tag, newTag);
      }
    }
  }

  // ------------------------------------------------------------------
  // The two operations
  // ------------------------------------------------------------------

  /**
   * `updateTagsInConversation(conversationId, tags)`. `updateConvoFields`
   * is a parameter: it merges the partial conversation into the list.
   */
  method UpdateTagsInConversation(cache: QueryCache, conversationId: string, tags: seq<string>,
                                  updateConvoFields: (ConversationList, Conversation, bool) -> ConversationList)
    modifies cache
    ensures conversationId !in old(cache.conversations) ==>
              cache.conversations == old(cache.conversations) && cache.allConversations == old(cache.allConversations)
    ensures conversationId in old(cache.conversations) ==>
              var current := old(cache.conversations)[conversationId];
              cache.conversations == old(cache.conversations)[conversationId := current.(tags := Some(tags))] &&
              cache.allConversations ==
                match old(cache.allConversations)
                case None => None
                case Some(data) => Some(updateConvoFields(data, Conversation(current.conversationId, Some(tags), map[]), true))
  {
    if conversationId !in cache.conversations {
      return;
    }
    var currentConvo := cache.conversations[conversationId];
    var updatedConvo := currentConvo.(tags := Some(tags));
    cache.conversations := cache.conversations[conversationId := updatedConvo];
    if cache.allConversations.Some? {
      cache.allConversations :=
        Some(updateConvoFields(cache.allConversations.value, Conversation(currentConvo.conversationId, updatedConvo.tags, map[]), true));
    }
  }

  /** The `page.conversations.map` loop of one page: the renamed conversations and the ids pushed. */
  method RenamePage(cs: seq<Conversation>, tag: string, newTag: string) returns (renamed: seq<Conversation>, ids: seq<string>)
    ensures renamed == RenameConversations(cs, tag, newTag)
    ensures ids == IdsIn(cs, tag)
  {
    renamed := [];
    ids := [];
    for i := 0 to |cs|
      invariant renamed == RenameConversations(cs[..i], tag, newTag)
      invariant ids == IdsIn(cs[..i], tag)
    {
      assert cs[..i + 1][..i] == cs[..i];
      var conversation := cs[i];
      if conversation.conversationId.Some? && conversation.conversationId.value != "" &&
         conversation.tags.Some? && tag in conversation.tags.value {
        ids := ids + [conversation.conversationId.value];
        conversation := conversation.(tags := Some(ReplaceTag(conversation.tags.value, tag, newTag)));
      }
      renamed := renamed + [conversation];
    }
    assert cs[..|cs|] == cs;
  }

  /** The page loop on the deep copy: every page renamed in place, the affected ids collected. */
  method RenameAllPages(pages: seq<Page>, tag: string, newTag: string) returns (renamed: seq<Page>, ids: seq<string>)
    ensures renamed == RenamePages(pages, tag, newTag)
    ensures ids == AffectedIds(pages, tag)
  {
    ghost var target := RenamePages(pages, tag, newTag);
    renamed := pages;
    ids := [];
    for pageIndex := 0 to |pages|
      invariant |renamed| == |pages|
      invariant forall p :: 0 <= p < pageIndex ==> renamed[p] == target[p]
      invariant forall p :: pageIndex <= p < |pages| ==> renamed[p] == pages[p]
      invariant ids == AffectedIds(pages[..pageIndex], tag)
    {
      var page := renamed[pageIndex];
      var conversations, found := RenamePage(page.conversations, tag, newTag);
      renamed := renamed[pageIndex := page.(conversations := conversations)];
      assert renamed[pageIndex] == target[pageIndex];
      assert pages[..pageIndex + 1][..pageIndex] == pages[..pageIndex];
      assert AffectedIds(pages[..pageIndex + 1], tag) == AffectedIds(pages[..pageIndex], tag) + found;
      ids := ids + found;
    }
    assert pages[..|pages|] == pages;
    assert renamed == target;
  }

  /** The second loop: each collected id's cached entry renamed when it exists and has tags. */
  method RenameCachedEntries(cache: QueryCache, ids: seq<string>, tag: string, newTag: string)
    modifies cache`conversations
    ensures cache.conversations == RenameEntries(old(cache.conversations), ids, tag, newTag)
  {
    assert ids[..0] == [];
    for i := 0 to |ids|
      invariant cache.conversations == RenameEntries(old(cache.conversations), ids[..i], tag, newTag)
    {
      assert ids[..i + 1][..i] == ids[..i];
      var conversationId := ids[i];
      if conversationId in cache.conversations && cache.conversations[conversationId].tags.Some? {
        var conversation := cache.conversations[conversationId];
        var updatedConvo := conversation.(tags := Some(ReplaceTag(conversation.tags.value, tag, newTag)));
        cache.conversations := cache.conversations[conversationId := updatedConvo];
      }
    }
    assert ids[..|ids|] == ids;
  }

  /**
   * `replaceTagsInAllConversations(tag, newTag)`. Without a cached list the
   * deep copy throws (`JSON.parse` of undefined): `ok` is false and nothing
   * changes. Otherwise the list is replaced by its renamed copy, then each
   * collected id's entry is renamed when it exists and has tags.
   */
  method ReplaceTagsInAllConversations(cache: QueryCache, tag: string, newTag: string) returns (ok: bool)
    modifies cache
    ensures old(cache.allConversations).None? ==>
              !ok && cache.conversations == old(cache.conversations) && cache.allConversations == None
    ensures old(cache.allConversations).Some? ==>
              var data := old(cache.allConversations).value;
              ok &&
              cache.allConversations == Some(data.(pages := RenamePages(data.pages, tag, newTag))) &&
              cache.conversations == RenameEntries(old(cache.conversations), AffectedIds(data.pages, tag), tag, newTag)
  {
    if cache.allConversations.None? {
      return false;
    }
    var newData := cache.allConversations.value;
    var pages, conversationIdsWithTag := RenameAllPages(newData.pages, tag, newTag);
    cache.allConversations := Some(newData.(pages := pages));
    RenameCachedEntries(cache, conversationIdsWithTag, tag, newTag);
    return true;
  }
}
