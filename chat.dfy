/**
 * The chat panel (`ChatSystem`): a draggable window without inertia whose
 * position is kept in the store, an input box whose blank submissions are
 * ignored, and a message list to which each submission adds the user's
 * text and, after a delay, a canned reply.
 *
 * The delayed callbacks (`setTimeout`) are modelled as pending work that the
 * event loop fires later, in any order: `WelcomeDue` and `ReplyDue`.
 */
module Chat {
  import opened Geometry
  import opened PositionStore
  import opened Text
  import opened Draw
  import Replies

  /** Storage key of the chat window's position. */
  const ChatKey: string := "mmChatPosition"
  /** Where the chat window appears when nothing is stored. */
  const DefaultChatPosition: Vec := Vec(200.0, 200.0)

  const WelcomeMessages: seq<string> := [
    "嘿！我是你的朋友mm，虽然以朋友身份出现，但希望给你特别的陪伴 🌸",
    "朋友mm上线啦！准备好接受我既像朋友又有点特别的关怀了吗？",
    "作为你的新朋友，我可能会关心得有点多...请多指教！(´｡• ᵕ •｡`)",
    "很高兴成为你的朋友~ 我会用我独特的方式陪伴你，希望你喜欢 💫"
  ]

  datatype Role = User | Ai

  /** One entry of the message list, in display order. */
  datatype Message = Message(text: string, role: Role)

  class ChatSystem {
    var isDragging: bool
    var chatOffsetX: real
    var chatOffsetY: real
    var initialChatX: real
    var initialChatY: real
    /** The window's displayed position (its `left` and `top` style). */
    var left: real
    var top: real
    /** The current contents of the input box. */
    var input: string
    var lastUserMessage: string
    var messages: seq<Message>
    /** The welcome message is scheduled and not yet shown. */
    var welcomePending: bool
    /** Submitted messages whose reply is scheduled and not yet shown. */
    var pending: seq<string>
    const store: Storage

    /** The drag offset is the displayed position, so a drag or a release keeps the window where it is shown. */
    predicate Anchored()
      reads this
    {
      chatOffsetX == left && chatOffsetY == top
    }

    /**
     * The constructor and `init`: an empty panel whose welcome message is
     * scheduled, displayed at the stored position (or the default). The drag
     * offset is left at zero, so a restored window is not `Anchored`.
     */
    constructor (store: Storage)
      ensures this.store == store
      ensures Vec(left, top) == Restore(store.Get(ChatKey), DefaultChatPosition)
      ensures !isDragging && chatOffsetX == 0.0 && chatOffsetY == 0.0
      ensures initialChatX == 0.0 && initialChatY == 0.0
      ensures input == "" && lastUserMessage == "" && messages == [] && pending == [] && welcomePending
      ensures Anchored() <==> Vec(left, top) == Vec(0.0, 0.0)
    {
      this.store := store;
      isDragging := false;
      chatOffsetX, chatOffsetY := 0.0, 0.0;
      initialChatX, initialChatY := 0.0, 0.0;
      input, lastUserMessage := "", "";
      messages, pending := [], [];
      welcomePending := true;
      var p := Restore(store.Get(ChatKey), DefaultChatPosition);
      left, top := p.x, p.y;
    }

    /** The constructor with the restored position also taken as the drag offset. */
    constructor Restored(store: Storage)
      ensures this.store == store
      ensures Vec(left, top) == Restore(store.Get(ChatKey), DefaultChatPosition)
      ensures !isDragging && Anchored()
      ensures initialChatX == 0.0 && initialChatY == 0.0
      ensures input == "" && lastUserMessage == "" && messages == [] && pending == [] && welcomePending
    {
      this.store := store;
      isDragging := false;
      initialChatX, initialChatY := 0.0, 0.0;
      input, lastUserMessage := "", "";
      messages, pending := [], [];
      welcomePending := true;
      var p := Restore(store.Get(ChatKey), DefaultChatPosition);
      left, top := p.x, p.y;
      chatOffsetX, chatOffsetY := p.x, p.y;
    }

    /** The scheduled welcome fires: one message drawn from the welcome table is shown, once. */
    method WelcomeDue(u: real)
      requires welcomePending && 0.0 <= u < 1.0
      modifies this`welcomePending, this`messages
      ensures !welcomePending
      ensures messages == old(messages) + [Message(Pick(WelcomeMessages, u), Ai)]
      ensures messages[|messages| - 1].text in WelcomeMessages
    {
      welcomePending := false;
      messages := messages + [Message(Pick(WelcomeMessages, u), Ai)];
    }

    /** The user edits the input box. */
    method Type(text: string)
      modifies this`input
      ensures input == text
    {
      input := text;
    }

    /**
     * `sendMessage`: a blank input (nothing but white space) changes nothing.
     * Otherwise the trimmed text becomes `lastUserMessage`, exactly one user
     * message with it is shown, the input box is cleared and its reply is
     * scheduled.
     */
    method SendMessage()
      modifies this`lastUserMessage, this`messages, this`input, this`pending
      ensures Trim(old(input)) == [] ==> unchanged(this)
      ensures Trim(old(input)) != [] ==>
        && lastUserMessage == Trim(old(input))
        && messages == old(messages) + [Message(Trim(old(input)), User)]
        && input == ""
        && pending == old(pending) + [Trim(old(input))]
    {
      var message := Trim(input);
      if message == [] {
        return;
      }
      lastUserMessage := message;
      messages := messages + [Message(message, User)];
      input := "";
      pending := pending + [message];
    }

    /**
     * The reply scheduled for the `i`-th pending message fires: the message
     * leaves the pending list and a simulated reply to it is shown.
     */
    method ReplyDue(i: nat, u: real) returns (reply: string)
      requires i < |pending| && 0.0 <= u < 1.0
      modifies this`messages, this`pending
      ensures reply == Replies.SimulatedReply(old(pending)[i], u)
      ensures messages == old(messages) + [Message(reply, Ai)]
      ensures pending == old(pending)[..i] + old(pending)[i + 1..]
    {
      var text := pending[i];
      pending := pending[..i] + pending[i + 1..];
      reply := Replies.SimulatedReply(text, u);
      messages := messages + [Message(reply, Ai)];
    }

    /** `chatDragStart`: starts a drag, remembering the pointer relative to the offset. */
    method ChatDragStart(clientX: real, clientY: real)
      modifies this`isDragging, this`initialChatX, this`initialChatY
      ensures isDragging
      ensures initialChatX == clientX - chatOffsetX && initialChatY == clientY - chatOffsetY
    {
      isDragging := true;
      initialChatX := clientX - chatOffsetX;
      initialChatY := clientY - chatOffsetY;
    }

    /** `chatDrag`: without a drag nothing changes; during one the offset and the window follow the pointer. */
    method ChatDrag(clientX: real, clientY: real)
      modifies this`chatOffsetX, this`chatOffsetY, this`left, this`top
      ensures !old(isDragging) ==> unchanged(this)
      ensures old(isDragging) ==>
        && chatOffsetX == clientX - initialChatX && chatOffsetY == clientY - initialChatY
        && left == chatOffsetX && top == chatOffsetY
      ensures old(Anchored()) ==> Anchored()
    {
      if isDragging {
        chatOffsetX := clientX - initialChatX;
        chatOffsetY := clientY - initialChatY;
        left, top := chatOffsetX, chatOffsetY;
      }
    }

    /**
     * `chatDragEnd`, which runs on every mouse release, dragging or not: the
     * drag stops and the drag offset is written to the store.
     */
    method ChatDragEnd()
      modifies this`isDragging, store
      ensures !isDragging
      ensures store.items == old(store.items)[ChatKey := Vec(chatOffsetX, chatOffsetY)]
      ensures Anchored() ==> store.items[ChatKey] == Vec(left, top)
    {
      isDragging := false;
      store.Set(ChatKey, Vec(chatOffsetX, chatOffsetY));
    }
  }

  /**
   * Sending a message and then a blank line before its reply arrives: the
   * message is shown and scheduled once, and the blank send leaves no trace.
   */
  method SendThenBlank(chat: ChatSystem, text: string, blank: string)
    requires Trim(text) != [] && Trim(blank) == []
    modifies chat
    ensures chat.messages == old(chat.messages) + [Message(Trim(text), User)]
    ensures chat.pending == old(chat.pending) + [Trim(text)]
    ensures chat.lastUserMessage == Trim(text) && chat.input == blank
  {
    chat.Type(text);
    chat.SendMessage();
    chat.Type(blank);
    chat.SendMessage();
  }

  /**
   * The reply to a pending "你好" comes from the greeting table, whatever
   * the draw.
   */
  method HelloReply(chat: ChatSystem, u: real) returns (reply: string)
    requires chat.pending == ["你好"] && 0.0 <= u < 1.0
    modifies chat
    ensures chat.messages == old(chat.messages) + [Message(reply, Ai)]
    ensures reply in Replies.GreetingReplies
    ensures chat.pending == []
  {
    reply := chat.ReplyDue(0, u);
    Replies.HelloGetsGreeting(u);
  }

  /**
   * As written, a window restored at (500, 300) that is never dragged loses
   * its position at the first mouse release anywhere on the page: the
   * store then holds (0, 0).
   */
  method ReleaseAfterRestore() returns (restored: Vec, saved: Vec)
    ensures restored == Vec(500.0, 300.0)
    ensures saved == Vec(0.0, 0.0)
  {
    var store := new Storage(map[ChatKey := Vec(500.0, 300.0)]);
    var chat := new ChatSystem(store);
    restored := Vec(chat.left, chat.top);
    chat.ChatDragEnd();
    saved := store.items[ChatKey];
  }

  /**
   * With the corrected constructor, a stored position survives a reload
   * followed by a stray mouse release: the store still holds it and the
   * next panel appears there.
   */
  method ReleaseAfterRestoreCorrected(p: Vec) returns (shown: Vec, reloaded: Vec)
    ensures shown == p && reloaded == p
  {
    var store := new Storage(map[ChatKey := p]);
    var chat := new ChatSystem.Restored(store);
    shown := Vec(chat.left, chat.top);
    chat.ChatDragEnd();
    var next := new ChatSystem.Restored(store);
    reloaded := Vec(next.left, next.top);
  }
}
