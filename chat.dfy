/**
 * The chat controller (`ChatContext`): the chats the signed-in user takes part in, finding or
 * starting a chat with another user, sending a message and marking a chat's messages as read.
 * Message ids and times come from the caller (`newId`, `now`).
 *
 * Sending a message appends it to the stored chat but updates only the last-message fields of
 * the chat in the view; marking as read saves the view's chat, messages included, back to the
 * store.
 */
module Chats {
  import opened Wrappers
  import opened Collections
  import opened Entities
  import opened Storage

  /** `c => c.participants.includes(a) && c.participants.includes(b)`. */
  function Between(a: Id, b: Id): Chat -> bool
  {
    (c: Chat) => a in c.participants && b in c.participants
  }

  /** A message that `markAsRead` marks: one not sent by the reader (every one without a reader). */
  predicate ToMark(m: ChatMessage, reader: Option<Id>)
  {
    reader.None? || m.senderId != reader.value
  }

  /**
   * The messages after `markAsRead`: the same messages in the same order, each one that was
   * not sent by the reader marked read and every other one unchanged.
   */
  function MarkRead(msgs: seq<ChatMessage>, reader: Option<Id>): (r: seq<ChatMessage>)
    ensures |r| == |msgs|
    ensures forall i :: 0 <= i < |msgs| ==>
      r[i] == if ToMark(msgs[i], reader) then msgs[i].(read := Some(true)) else msgs[i]
  {
    if msgs == [] then []
    else [if ToMark(msgs[0], reader) then msgs[0].(read := Some(true)) else msgs[0]] +
         MarkRead(msgs[1..], reader)
  }

  /** Marking as read twice marks nothing more than marking once. */
  lemma {:induction false} MarkReadIdempotent(msgs: seq<ChatMessage>, reader: Option<Id>)
    ensures MarkRead(MarkRead(msgs, reader), reader) == MarkRead(msgs, reader)
  {
    var once := MarkRead(msgs, reader);
    var twice := MarkRead(once, reader);
    forall i | 0 <= i < |msgs| ensures twice[i] == once[i] {
      assert ToMark(once[i], reader) == ToMark(msgs[i], reader);
    }
  }

  /** After marking, every message from someone other than the reader is read. */
  lemma {:induction false} MarkReadMarksOthers(msgs: seq<ChatMessage>, reader: Id)
    ensures forall m :: m in MarkRead(msgs, Some(reader)) && m.senderId != reader ==>
      m.read == Some(true)
  {
    var r := MarkRead(msgs, Some(reader));
    forall m | m in r && m.senderId != reader ensures m.read == Some(true) {
      var i :| 0 <= i < |r| && r[i] == m;
      assert msgs[i].senderId == m.senderId;
    }
  }

  class ChatContext {
    const store: LocalStorageService
    var chats: seq<Chat>
    var loading: bool

    constructor (store: LocalStorageService)
      ensures this.store == store && chats == [] && loading
    {
      this.store := store;
      chats := [];
      loading := true;
    }

    /**
     * The loading effect: initializes the store; with no user there are no chats, otherwise
     * the stored chats the user takes part in.
     */
    method Load(currentUser: Option<User>)
      modifies this, store
      ensures store.mock == old(store.mock)
      ensures store.initialized
      ensures store.storage == if old(store.initialized) then old(store.storage)
                               else Seeded(old(store.storage), store.mock)
      ensures currentUser.None? ==> chats == []
      ensures currentUser.Some? ==> chats == store.GetChatsByParticipant(currentUser.value.id)
      ensures !loading
    {
      store.Initialize();
      if currentUser.None? {
        chats := [];
        loading := false;
        return;
      }
      chats := store.GetChatsByParticipant(currentUser.value.id);
      loading := false;
    }

    /** The first chat in the view with this id. */
    function GetChat(chatId: Id): (r: Option<Chat>)
      reads this
      ensures r.Some? ==> r.value in chats && r.value.id == chatId
      ensures r.None? <==> forall c :: c in chats ==> c.id != chatId
      ensures r.Some? ==>
        exists i :: 0 <= i < |chats| && chats[i] == r.value &&
          forall j :: 0 <= j < i ==> chats[j].id != chatId
    {
      FindByKey(chats, ChatId, chatId)
    }

    /**
     * The first chat in the view between the user and `otherUserId`, unchanged; when there is
     * none, a new chat under the generated id `newId` between the two with no messages, saved
     * and put in front of the view. Without a user it throws and changes nothing.
     */
    method GetOrCreateChat(currentUser: Option<User>, otherUserId: Id, newId: Id)
      returns (result: Result<Chat>)
      modifies this, store
      ensures store.mock == MockAfterWrite(old(store.storage), old(store.mock), store.storage)
      ensures result.Err? <==> currentUser.None?
      ensures result.Err? ==>
        result.error == "User must be authenticated" && store.storage == old(store.storage) &&
        chats == old(chats)
      ensures result.Ok? && Find(old(chats), Between(currentUser.value.id, otherUserId)).Some? ==>
        var found := Find(old(chats), Between(currentUser.value.id, otherUserId)).value;
        && result.value == found && found in old(chats)
        && currentUser.value.id in found.participants && otherUserId in found.participants
        && store.storage == old(store.storage) && chats == old(chats)
      ensures result.Ok? && Find(old(chats), Between(currentUser.value.id, otherUserId)).None? ==>
        var created := Chat(newId, [currentUser.value.id, otherUserId], None, None, Some([]));
        && result.value == created
        && store.storage == old(store.storage).(chats := Some(Upsert(old(store.GetChats()), created, ChatId)))
        && chats == [created] + old(chats)
      ensures store.initialized == old(store.initialized)
    {
      if currentUser.None? {
        return Err("User must be authenticated");
      }
      var chat := Find(chats, Between(currentUser.value.id, otherUserId));
      if chat.None? {
        var created := Chat(newId, [currentUser.value.id, otherUserId], None, None, Some([]));
        store.SaveChat(created);
        chats := [created] + chats;
        return Ok(created);
      }
      result := Ok(chat.value);
    }

    /**
     * Appends a message from the user with the generated id `newId`, time `now` and not yet
     * read to the stored chat, and sets the last-message fields of the chat in the view. With
     * no user it throws "User must be authenticated", for a chat not in the view "Chat not
     * found", and changes nothing.
     */
    method SendMessage(currentUser: Option<User>, chatId: Id, text: string, newId: Id, now: int)
      returns (outcome: Outcome)
      modifies this, store
      ensures store.mock == MockAfterWrite(old(store.storage), old(store.mock), store.storage)
      ensures outcome.Fail? <==> currentUser.None? || old(GetChat(chatId)).None?
      ensures outcome.Fail? ==>
        outcome.error == (if currentUser.None? then "User must be authenticated" else "Chat not found") &&
        store.storage == old(store.storage) && chats == old(chats)
      ensures outcome.Pass? ==>
        var message := ChatMessage(Some(newId), currentUser.value.id, text, now, Some(false));
        var i := IndexOfKey(old(store.GetChats()), ChatId, chatId);
        && store.storage == (if i < 0 then old(store.storage)
                             else old(store.storage).(chats :=
                               Some(old(store.GetChats())[i := WithMessage(old(store.GetChats())[i], message)])))
        && chats == ReplaceByKey(old(chats), ChatId, chatId,
                                 old(GetChat(chatId)).value.(lastMessage := Some(text),
                                                             lastMessageTime := Some(now)))
      ensures outcome.Pass? && old(store.GetChatById(chatId)).Some? ==>
        var before := old(store.GetChatById(chatId)).value;
        var message := ChatMessage(Some(newId), currentUser.value.id, text, now, Some(false));
        store.GetChatById(chatId) == Some(before.(messages := Some(before.messages.GetOr([]) + [message]),
                                                  lastMessage := Some(text),
                                                  lastMessageTime := Some(now)))
      ensures store.initialized == old(store.initialized)
    {
      if currentUser.None? {
        return Fail("User must be authenticated");
      }
      var chat := GetChat(chatId);
      if chat.None? {
        return Fail("Chat not found");
      }
      var message := ChatMessage(Some(newId), currentUser.value.id, text, now, Some(false));
      store.AddChatMessage(chatId, message);
      var updatedChat := chat.value.(lastMessage := Some(text), lastMessageTime := Some(now));
      chats := ReplaceByKey(chats, ChatId, chatId, updatedChat);
      outcome := Pass;
    }

    /**
     * Marks read every message of the view's chat that the user did not send (all of them
     * when no one is signed in), saves that chat to the store and replaces it in the view.
     * A chat not in the view, or one without a messages array, is left alone.
     */
    method MarkAsRead(currentUser: Option<User>, chatId: Id)
      modifies this, store
      ensures store.mock == MockAfterWrite(old(store.storage), old(store.mock), store.storage)
      ensures old(GetChat(chatId)).None? || old(GetChat(chatId)).value.messages.None? ==>
        store.storage == old(store.storage) && chats == old(chats)
      ensures old(GetChat(chatId)).Some? && old(GetChat(chatId)).value.messages.Some? ==>
        var chat := old(GetChat(chatId)).value;
        var reader := if currentUser.Some? then Some(currentUser.value.id) else None;
        var updated := chat.(messages := Some(MarkRead(chat.messages.value, reader)));
        && store.storage == old(store.storage).(chats := Some(Upsert(old(store.GetChats()), updated, ChatId)))
        && chats == ReplaceByKey(old(chats), ChatId, chatId, updated)
        && store.GetChatById(chatId) == Some(updated)
      ensures store.initialized == old(store.initialized)
    {
      var chat := GetChat(chatId);
      if chat.None? || chat.value.messages.None? {
        return;
      }
      var reader := if currentUser.Some? then Some(currentUser.value.id) else None;
      var updatedMessages := MarkRead(chat.value.messages.value, reader);
      var updatedChat := chat.value.(messages := Some(updatedMessages));
      store.SaveChat(updatedChat);
      chats := ReplaceByKey(chats, ChatId, chatId, updatedChat);
    }
  }
}
