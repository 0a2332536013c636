/**
 * The Firestore `chats` collection: one document per chat id holding the
 * chat's message array (server/firebase.py). The collection is a map from
 * chat id to document; the server timestamps are not modelled.
 */
module Firestore {
  import opened Outcomes

  /** One element of a document's `messages` array. */
  datatype StoredMessage = StoredMessage(role: string, content: string, sources: seq<string>)

  /** A chat document; `messages` is `None` when the field is absent. */
  datatype ChatDoc = ChatDoc(chatId: string, messages: Option<seq<StoredMessage>>)

  type Docs = map<string, ChatDoc>

  /** Every document records the id it is stored under. */
  ghost predicate DocsValid(docs: Docs) {
    forall id :: id in docs ==> docs[id].chatId == id
  }

  ghost predicate NoDuplicates<T>(s: seq<T>) {
    forall i, j :: 0 <= i < j < |s| ==> s[i] != s[j]
  }

  /**
   * Firestore's `ArrayUnion(elements)` applied to the array `existing`:
   * each element, in order, is added at the end unless an equal element
   * is already present.
   */
  function ArrayUnion<T(==,!new)>(existing: seq<T>, elements: seq<T>): (r: seq<T>)
    ensures |existing| <= |r| <= |existing| + |elements|
    ensures r[..|existing|] == existing
    ensures forall x :: x in r <==> x in existing || x in elements
    ensures NoDuplicates(existing) ==> NoDuplicates(r)
    ensures forall k :: |existing| <= k < |r| ==> r[k] in elements && r[k] !in r[..k]
    decreases |elements|
  {
    if elements == [] then existing
    else
      var init, last := elements[..|elements| - 1], elements[|elements| - 1];
      assert elements == init + [last];
      var acc := ArrayUnion(existing, init);
      if last in acc then acc
      else
        assert (acc + [last])[..|existing|] == acc[..|existing|];
        acc + [last]
  }

  /** A single-element union adds the element exactly when it is new. */
  lemma ArrayUnionOne<T(!new)>(existing: seq<T>, x: T)
    ensures ArrayUnion(existing, [x]) == if x in existing then existing else existing + [x]
  {
    assert [x][..0] == [];
  }

  /** The document `create_chat_session_in_firestore` writes. */
  function NewChatDoc(chatId: string): ChatDoc {
    ChatDoc(chatId, Some([]))
  }

  /**
   * `load_chat_messages_from_firestore`: the stored array, or `[]` when the
   * document or its `messages` field is missing.
   */
  function LoadMessages(docs: Docs, chatId: string): (r: seq<StoredMessage>)
    ensures chatId !in docs ==> r == []
    ensures chatId in docs && docs[chatId].messages.None? ==> r == []
    ensures chatId in docs && docs[chatId].messages.Some? ==> r == docs[chatId].messages.value
  {
    if chatId in docs then docs[chatId].messages.GetOr([]) else []
  }

  /** The collection after `ArrayUnion([message])` on the chat's `messages` field. */
  function AppendedDocs(docs: Docs, chatId: string, message: StoredMessage): (r: Docs)
    requires chatId in docs
    ensures r.Keys == docs.Keys
    ensures forall id :: id in docs && id != chatId ==> r[id] == docs[id]
    ensures r[chatId].chatId == docs[chatId].chatId
    ensures LoadMessages(r, chatId) == ArrayUnion(LoadMessages(docs, chatId), [message])
  {
    docs[chatId := docs[chatId].(messages := Some(ArrayUnion(LoadMessages(docs, chatId), [message])))]
  }

  /** Creating a chat and then loading it yields an empty log; other chats load as before. */
  lemma LoadAfterCreate(docs: Docs, chatId: string, other: string)
    ensures LoadMessages(docs[chatId := NewChatDoc(chatId)], chatId) == []
    ensures other != chatId ==> LoadMessages(docs[chatId := NewChatDoc(chatId)], other) == LoadMessages(docs, other)
  {
  }

  /**
   * Appending adds the message at the end of the chat's log exactly when no
   * equal message is stored yet; the logs of other chats do not change.
   */
  lemma LoadAfterAppend(docs: Docs, chatId: string, message: StoredMessage, other: string)
    requires chatId in docs
    ensures message in LoadMessages(docs, chatId) ==> LoadMessages(AppendedDocs(docs, chatId, message), chatId) == LoadMessages(docs, chatId)
    ensures message !in LoadMessages(docs, chatId) ==> LoadMessages(AppendedDocs(docs, chatId, message), chatId) == LoadMessages(docs, chatId) + [message]
    ensures other != chatId ==> LoadMessages(AppendedDocs(docs, chatId, message), other) == LoadMessages(docs, other)
  {
    ArrayUnionOne(LoadMessages(docs, chatId), message);
  }

  /** The Firestore collection, updated in place by the two write operations. */
  class ChatStore {
    var docs: Docs

    ghost predicate Valid()
      reads this
    {
      DocsValid(docs)
    }

    constructor ()
      ensures Valid() && docs == map[]
    {
      docs := map[];
    }

    /** `create_chat_session_in_firestore`: (over)writes the chat's document with an empty log. */
    method CreateChatDoc(chatId: string)
      requires Valid()
      modifies this
      ensures Valid()
      ensures docs == old(docs)[chatId := NewChatDoc(chatId)]
      ensures LoadMessages(docs, chatId) == []
    {
      docs := docs[chatId := NewChatDoc(chatId)];
    }

    /**
     * `append_message_to_firestore`: unions `{role, content, sources or []}`
     * into the chat's messages. `ok` is false, and nothing changes, when the
     * document does not exist (Firestore's `update` raises then).
     */
    method AppendMessage(chatId: string, role: string, content: string, sources: Option<seq<string>>) returns (ok: bool)
      requires Valid()
      modifies this
      ensures Valid()
      ensures ok <==> chatId in old(docs)
      ensures ok ==> docs == AppendedDocs(old(docs), chatId, StoredMessage(role, content, sources.GetOr([])))
      ensures !ok ==> docs == old(docs)
    {
      if chatId !in docs {
        return false;
      }
      var message := StoredMessage(role, content, sources.GetOr([]));
      var doc := docs[chatId];
      var stored := if doc.messages.Some? then doc.messages.value else [];
      docs := docs[chatId := doc.(messages := Some(ArrayUnion(stored, [message])))];
      ok := true;
    }
  }
}
