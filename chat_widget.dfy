/**
 * The support chat: the visitor's persistent id, the admin's conversation
 * list built from all messages (newest first), the guards and payloads of
 * sending, and how realtime events and opening the panel change the message
 * list and the unread badge. The database, realtime channel and file storage
 * are not modelled: the rows they deliver are parameters, and each insert
 * the widget attempts is appended to `inserts`.
 */
module ChatWidget {

  import opened Wrappers
  import opened JsValues
  import opened JsText

  // -------------------------------------------------------------- user id

  /** The browser's `localStorage`. */
  class LocalStorage {
    var items: map<string, string>

    constructor (initial: map<string, string>)
      ensures items == initial
    {
      items := initial;
    }
  }

  const UserIdKey := "chat_user_id"

  /** `'user_' + Math.random().toString(36).substr(2, 9) + Date.now()`, for a
      random number whose base-36 digits are `draw`. */
  function NewUserId(draw: seq<Base36Digit>, nowMs: nat): string {
    "user_" + Substr(FractionToString36(draw), 2, 9) + NatToDecimal(nowMs)
  }

  /** A fresh id is `user_`, then up to nine base-36 digits of the draw, then
      the clock in decimal. */
  lemma NewUserIdFormat(draw: seq<Base36Digit>, nowMs: nat)
    ensures var id := NewUserId(draw, nowMs);
      var n := if |draw| < 9 then |draw| else 9;
      && |id| == 5 + n + |NatToDecimal(nowMs)|
      && id[..5] == "user_"
      && (forall i :: 0 <= i < n ==> id[5 + i] == Base36Char(draw[i]))
      && id[5 + n..] == NatToDecimal(nowMs)
  {
    var s := FractionToString36(draw);
    var n := if |draw| < 9 then |draw| else 9;
    var mid := Substr(s, 2, 9);
    if draw == [] {
      assert mid == [];
    } else {
      assert mid == s[2..2 + n];
    }
    var id := NewUserId(draw, nowMs);
    assert id == "user_" + mid + NatToDecimal(nowMs);
    assert forall i :: 0 <= i < n ==> id[5 + i] == mid[i];
  }

  /** `getUserId`: the stored id when there is a non-empty one; otherwise a
      fresh one, which is stored, so every later call returns it. */
  method GetUserId(store: LocalStorage, draw: seq<Base36Digit>, nowMs: nat) returns (id: string)
    modifies store
    ensures UserIdKey in old(store.items) && old(store.items)[UserIdKey] != "" ==>
      id == old(store.items)[UserIdKey] && store.items == old(store.items)
    ensures !(UserIdKey in old(store.items) && old(store.items)[UserIdKey] != "") ==>
      id == NewUserId(draw, nowMs) && store.items == old(store.items)[UserIdKey := id]
    ensures id != "" && UserIdKey in store.items && store.items[UserIdKey] == id
  {
    if UserIdKey in store.items && store.items[UserIdKey] != "" {
      id := store.items[UserIdKey];
      return;
    }
    id := NewUserId(draw, nowMs);
    store.items := store.items[UserIdKey := id];
  }

  // -------------------------------------------------------------- messages

  /** A row of the `messages` table. `user_id` is null on an admin's message
      sent with no conversation selected, which then groups as a user of its own. */
  datatype Message = Message(id: Value, userId: Option<string>, senderName: Value, text: Value, sticker: Value,
                             createdAt: Value, isAdmin: bool, read: bool)

  /** A customer's message the admin has not read. */
  predicate UnreadFromCustomer(m: Message) {
    !m.isAdmin && !m.read
  }

  /** The number of unread customer messages of user `uid`. */
  function CountUnread(msgs: seq<Message>, uid: Option<string>): (n: nat)
    ensures n <= |msgs|
  {
    if msgs == [] then 0
    else (if msgs[0].userId == uid && UnreadFromCustomer(msgs[0]) then 1 else 0) + CountUnread(msgs[1..], uid)
  }

  /** The number of unread customer messages, whoever sent them. */
  function AdminUnread(msgs: seq<Message>): (n: nat)
    ensures n <= |msgs|
  {
    if msgs == [] then 0
    else (if UnreadFromCustomer(msgs[0]) then 1 else 0) + AdminUnread(msgs[1..])
  }

  /** In one user's conversation the admin badge counts what that user's
      entry in the conversation list counts. */
  lemma {:induction false} AdminUnreadOfOneUser(msgs: seq<Message>, uid: Option<string>)
    requires forall i :: 0 <= i < |msgs| ==> msgs[i].userId == uid
    ensures AdminUnread(msgs) == CountUnread(msgs, uid)
  {
    if msgs != [] {
      AdminUnreadOfOneUser(msgs[1..], uid);
    }
  }

  /** The number of messages customers (not the admin) sent. */
  function CustomerMessages(msgs: seq<Message>): (n: nat)
    ensures n == 0 <==> forall i :: 0 <= i < |msgs| ==> msgs[i].isAdmin
  {
    if msgs == [] then 0 else (if msgs[0].isAdmin then 0 else 1) + CustomerMessages(msgs[1..])
  }

  // -------------------------------------------------- conversation list

  const AttachmentLabel := "\U{1F4CE} Attachment"

  /** The preview line: the sticker, else the text, else the attachment label. */
  function LastMessage(m: Message): (r: Value)
    ensures Truthy(m.sticker) ==> r == m.sticker
    ensures !Truthy(m.sticker) && Truthy(m.text) ==> r == m.text
    ensures !Truthy(m.sticker) && !Truthy(m.text) ==> r == Str(AttachmentLabel)
  {
    Or(Or(m.sticker, m.text), Str(AttachmentLabel))
  }

  datatype Summary = Summary(userId: Option<string>, senderName: Value, lastMessage: Value,
                             lastMessageTime: Value, unreadCount: nat)

  /** The position of user `uid`'s first message in the list. */
  function FirstOf(data: seq<Message>, uid: Option<string>): (r: Option<nat>)
    ensures r.Some? ==> r.value < |data| && data[r.value].userId == uid
    ensures r.Some? ==> forall j :: 0 <= j < r.value ==> data[j].userId != uid
    ensures r.None? ==> forall j :: 0 <= j < |data| ==> data[j].userId != uid
  {
    FindIndex(data, (m: Message) => m.userId == uid)
  }

  /** The entry built from message `i`, counting its sender's unread messages. */
  function SummaryOf(data: seq<Message>, i: nat): Summary
    requires i < |data|
  {
    var m := data[i];
    Summary(m.userId, m.senderName, LastMessage(m), m.createdAt, CountUnread(data, m.userId))
  }

  function UserIds(users: seq<Summary>): set<Option<string>> {
    set k | 0 <= k < |users| :: users[k].userId
  }

  lemma FirstAppearance(data: seq<Message>, i: nat, seen: set<Option<string>>)
    requires i < |data|
    requires forall j :: 0 <= j < i ==> data[j].userId in seen
    requires data[i].userId !in seen
    ensures FirstOf(data, data[i].userId) == Some(i)
  {
    var r := FirstOf(data, data[i].userId);
    assert forall j :: 0 <= j < i ==> data[j].userId != data[i].userId;
  }

  lemma UserIdsAppend(users: seq<Summary>, entry: Summary)
    ensures UserIds(users + [entry]) == UserIds(users) + {entry.userId}
  {
    var u := users + [entry];
    assert forall k :: 0 <= k < |users| ==> u[k] == users[k];
    assert u[|users|] == entry;
  }

  /** Each sender has at most one entry. */
  predicate DistinctUsers(users: seq<Summary>) {
    forall j, k :: 0 <= j < k < |users| ==> users[j].userId != users[k].userId
  }

  /** Each entry is built from its sender's first message, which lies before `i`. */
  predicate FromFirstMessages(data: seq<Message>, users: seq<Summary>, i: nat) {
    forall k :: 0 <= k < |users| ==>
      && FirstOf(data, users[k].userId).Some?
      && FirstOf(data, users[k].userId).value < i
      && users[k] == SummaryOf(data, FirstOf(data, users[k].userId).value)
  }

  /** Entries are in the order their senders first appear. */
  predicate InFirstAppearanceOrder(data: seq<Message>, users: seq<Summary>)
    requires FromFirstMessages(data, users, |data|)
  {
    forall j, k :: 0 <= j < k < |users| ==>
      FirstOf(data, users[j].userId).value < FirstOf(data, users[k].userId).value
  }

  /** What the grouping loop has built after reading the first `i` messages. */
  predicate Built(data: seq<Message>, users: seq<Summary>, i: nat) {
    && i <= |data|
    && (forall j :: 0 <= j < i ==> data[j].userId in UserIds(users))
    && DistinctUsers(users)
    && FromFirstMessages(data, users, i)
    && InFirstAppearanceOrder(data, users)
  }

  lemma FromFirstWeakens(data: seq<Message>, users: seq<Summary>, i: nat, n: nat)
    requires FromFirstMessages(data, users, i) && i <= n
    ensures FromFirstMessages(data, users, n)
  {
  }

  /** Reading message `i`: a sender seen before adds nothing, a new one adds
      the entry built from this message. */
  lemma BuiltStep(data: seq<Message>, users: seq<Summary>, i: nat)
    requires Built(data, users, i) && i < |data|
    ensures data[i].userId in UserIds(users) ==> Built(data, users, i + 1)
    ensures data[i].userId !in UserIds(users) ==> Built(data, users + [SummaryOf(data, i)], i + 1)
  {
    FromFirstWeakens(data, users, i, i + 1);
    if data[i].userId !in UserIds(users) {
      var e := SummaryOf(data, i);
      var u := users + [e];
      FirstAppearance(data, i, UserIds(users));
      UserIdsAppend(users, e);
      NewSenderDistinct(users, e);
      NewSenderFromFirst(data, users, i);
      FromFirstWeakens(data, u, i + 1, |data|);
      NewSenderOrder(data, users, i);
    }
  }

  lemma NewSenderDistinct(users: seq<Summary>, e: Summary)
    requires DistinctUsers(users) && e.userId !in UserIds(users)
    ensures DistinctUsers(users + [e])
  {
    var u := users + [e];
    forall j, k | 0 <= j < k < |u| ensures u[j].userId != u[k].userId {
      if k == |users| {
        assert users[j].userId in UserIds(users);
      } else {
        assert u[j] == users[j] && u[k] == users[k];
      }
    }
  }

  lemma NewSenderFromFirst(data: seq<Message>, users: seq<Summary>, i: nat)
    requires i < |data| && FromFirstMessages(data, users, i)
    requires FirstOf(data, data[i].userId) == Some(i)
    ensures FromFirstMessages(data, users + [SummaryOf(data, i)], i + 1)
  {
    var u := users + [SummaryOf(data, i)];
    forall k | 0 <= k < |u|
      ensures FirstOf(data, u[k].userId).Some? && FirstOf(data, u[k].userId).value < i + 1
      ensures u[k] == SummaryOf(data, FirstOf(data, u[k].userId).value)
    {
      if k < |users| {
        assert u[k] == users[k];
      }
    }
  }

  lemma NewSenderOrder(data: seq<Message>, users: seq<Summary>, i: nat)
    requires i < |data| && FromFirstMessages(data, users, i)
    requires FromFirstMessages(data, users, |data|)
    requires InFirstAppearanceOrder(data, users)
    requires FirstOf(data, data[i].userId) == Some(i)
    requires FromFirstMessages(data, users + [SummaryOf(data, i)], |data|)
    ensures InFirstAppearanceOrder(data, users + [SummaryOf(data, i)])
  {
    var u := users + [SummaryOf(data, i)];
    forall j, k | 0 <= j < k < |u|
      ensures FirstOf(data, u[j].userId).value < FirstOf(data, u[k].userId).value
    {
      assert u[j] == users[j];
      if k < |users| {
        assert u[k] == users[k];
      }
    }
  }

  /** `loadAvailableUsers` on the fetched `data`, newest message first: one
      entry per sender, taken from that sender's first (newest) message, in
      order of first appearance. */
  method Summaries(data: seq<Message>) returns (users: seq<Summary>)
    ensures forall j, k :: 0 <= j < k < |users| ==> users[j].userId != users[k].userId
    ensures forall i :: 0 <= i < |data| ==> data[i].userId in UserIds(users)
    ensures forall k :: 0 <= k < |users| ==>
      FirstOf(data, users[k].userId).Some? && users[k] == SummaryOf(data, FirstOf(data, users[k].userId).value)
    ensures forall j, k :: 0 <= j < k < |users| ==>
      && FirstOf(data, users[j].userId).Some? && FirstOf(data, users[k].userId).Some?
      && FirstOf(data, users[j].userId).value < FirstOf(data, users[k].userId).value
  {
    var seen: set<Option<string>> := {};
    users := [];
    var i := 0;
    while i < |data|
      invariant seen == UserIds(users)
      invariant Built(data, users, i)
    {
      var msg := data[i];
      BuiltStep(data, users, i);
      if msg.userId !in seen {
        var unread := CountUnread(data, msg.userId);
        var entry := Summary(msg.userId, msg.senderName, LastMessage(msg), msg.createdAt, unread);
        assert entry == SummaryOf(data, i);
        UserIdsAppend(users, entry);
        users := users + [entry];
        seen := seen + {msg.userId};
      }
      i := i + 1;
    }
  }

  // -------------------------------------------------------------- sending

  /** The row the widget inserts. */
  datatype MessageData = MessageData(userId: Option<string>, message: Option<string>, sticker: Option<string>,
                                     file: Option<string>, senderName: string, senderEmail: Option<string>,
                                     isAdmin: bool, read: bool)

  const SupportName := "Support Team"

  /** `s.trim() || null`. */
  function TrimmedOrNull(s: string): (r: Option<string>)
    ensures Blank(s) <==> r == None
    ensures !Blank(s) ==> r == Some(Trim(s))
  {
    if Blank(s) then None else Some(Trim(s))
  }

  /** A text message (with an optional uploaded file path). */
  function TextMessage(userId: Option<string>, text: string, file: Option<string>, isAdmin: bool,
                       name: string, email: string): (r: MessageData)
    ensures r.userId == userId && r.file == file && r.sticker == None
    ensures r.message == TrimmedOrNull(text)
    ensures r.isAdmin == isAdmin && !r.read
    ensures isAdmin ==> r.senderName == SupportName && r.senderEmail == None
    ensures !isAdmin ==> r.senderName == Trim(name) && r.senderEmail == TrimmedOrNull(email)
  {
    MessageData(userId, TrimmedOrNull(text), None, file,
                if isAdmin then SupportName else Trim(name),
                if isAdmin then None else TrimmedOrNull(email),
                isAdmin, false)
  }

  /** A sticker message. */
  function StickerMessage(userId: Option<string>, emoji: string, isAdmin: bool,
                          name: string, email: string): (r: MessageData)
    ensures r.userId == userId && r.message == None && r.sticker == Some(emoji) && r.file == None
    ensures r.isAdmin == isAdmin && !r.read
    ensures isAdmin ==> r.senderName == SupportName && r.senderEmail == None
    ensures !isAdmin ==> r.senderName == Trim(name) && r.senderEmail == TrimmedOrNull(email)
  {
    MessageData(userId, None, Some(emoji), None,
                if isAdmin then SupportName else Trim(name),
                if isAdmin then None else TrimmedOrNull(email),
                isAdmin, false)
  }

  /** The storage path of an uploaded file: `${userId}/${Date.now()}_${name}`. */
  function UploadPath(userId: Option<string>, nowMs: nat, fileName: string): (r: string)
    ensures var folder := if userId.Some? then userId.value else "null";
            && |r| > |folder| + |fileName| && r[..|folder|] == folder && r[|folder|] == '/'
            && r[|r| - |fileName|..] == fileName
  {
    var folder := if userId.Some? then userId.value else "null";
    var r := folder + "/" + NatToDecimal(nowMs) + "_" + fileName;
    assert r[..|folder|] == folder;
    assert r[|r| - |fileName|..] == fileName;
    r
  }

  const NameAlert := "Please enter your name"

  /** What pressing Send leads to, before the insert's answer is known. */
  datatype SendOutcome = Ignored | NameRequired | UploadFailed(error: string) | Attempt(data: MessageData)

  /** `sendMessage`'s guards: nothing to send without text or a file; a
      customer with no name and no earlier message is asked for one; a failed
      upload stops the send; otherwise the row is inserted, with the uploaded
      file's path. */
  function TextSend(text: string, pendingFile: Option<string>, needsName: bool, uploadError: Option<string>,
                    userId: Option<string>, nowMs: nat, isAdmin: bool, name: string, email: string): (o: SendOutcome)
    ensures Blank(text) && pendingFile.None? <==> o == Ignored
    ensures o == NameRequired <==> !(Blank(text) && pendingFile.None?) && needsName
    ensures o.UploadFailed? <==> !(Blank(text) && pendingFile.None?) && !needsName && pendingFile.Some? && uploadError.Some?
    ensures o.UploadFailed? ==> o.error == uploadError.value
    ensures o.Attempt? ==>
      && o.data.message == TrimmedOrNull(text)
      && o.data.file == (if pendingFile.Some? then Some(UploadPath(userId, nowMs, pendingFile.value)) else None)
      && o.data == TextMessage(userId, text, o.data.file, isAdmin, name, email)
  {
    if Blank(text) && pendingFile.None? then Ignored
    else if needsName then NameRequired
    else if pendingFile.Some? && uploadError.Some? then UploadFailed(uploadError.value)
    else Attempt(TextMessage(userId, text,
                             if pendingFile.Some? then Some(UploadPath(userId, nowMs, pendingFile.value)) else None,
                             isAdmin, name, email))
  }

  const SenderNameKey := "chat_sender_name"
  const SenderEmailKey := "chat_sender_email"

  /** The browser storage after a successful send: a customer's trimmed name
      is stored when it is not blank, and then the trimmed email when that is
      not blank either; the admin's storage is left alone. */
  function Remembered(items: map<string, string>, isAdmin: bool, name: string, email: string): (r: map<string, string>)
    ensures !isAdmin && !Blank(name) && !Blank(email) ==>
      r == items[SenderNameKey := Trim(name)][SenderEmailKey := Trim(email)]
    ensures !isAdmin && !Blank(name) && Blank(email) ==> r == items[SenderNameKey := Trim(name)]
    ensures isAdmin || Blank(name) ==> r == items
  {
    if isAdmin || Blank(name) then items
    else if Blank(email) then items[SenderNameKey := Trim(name)]
    else items[SenderNameKey := Trim(name)][SenderEmailKey := Trim(email)]
  }

  /** `message.id === payload.new.id ? payload.new : message` over the list. */
  function ReplaceById(msgs: seq<Message>, m: Message): (r: seq<Message>)
    ensures |r| == |msgs|
    ensures forall k :: 0 <= k < |msgs| && msgs[k].id == m.id ==> r[k] == m
    ensures forall k :: 0 <= k < |msgs| && msgs[k].id != m.id ==> r[k] == msgs[k]
  {
    seq(|msgs|, k requires 0 <= k < |msgs| => if msgs[k].id == m.id then m else msgs[k])
  }

  /** Replaying an update changes nothing more. */
  lemma ReplaceByIdIdempotent(msgs: seq<Message>, m: Message)
    ensures ReplaceById(ReplaceById(msgs, m), m) == ReplaceById(msgs, m)
  {
  }

  /** An update for a message the list does not hold leaves it as it was. */
  lemma ReplaceUnknownId(msgs: seq<Message>, m: Message)
    requires forall k :: 0 <= k < |msgs| ==> msgs[k].id != m.id
    ensures ReplaceById(msgs, m) == msgs
  {
  }

  /** The ids of the messages `handleOpen` marks as read. */
  function UnreadIds(msgs: seq<Message>): (r: seq<Value>)
    ensures |r| == AdminUnread(msgs)
  {
    if msgs == [] then []
    else (if UnreadFromCustomer(msgs[0]) then [msgs[0].id] else []) + UnreadIds(msgs[1..])
  }

  class ChatSession {
    const isAdmin: bool
    const store: LocalStorage
    var userId: Option<string>
    var isOpen: bool
    var messages: seq<Message>
    var unread: nat
    var newMessage: string
    var senderName: string
    var senderEmail: string
    /** The name of the file chosen for the next message. */
    var pendingFile: Option<string>
    var inserts: seq<MessageData>
    var readMarks: seq<Value>
    var alerts: seq<string>

    constructor (admin: bool, storage: LocalStorage, user: Option<string>)
      ensures isAdmin == admin && store == storage && userId == user
      ensures !isOpen && messages == [] && unread == 0
      ensures newMessage == "" && senderName == "" && senderEmail == "" && pendingFile == None
      ensures inserts == [] && readMarks == [] && alerts == []
    {
      isAdmin := admin;
      store := storage;
      userId := user;
      isOpen := false;
      messages := [];
      unread := 0;
      newMessage := "";
      senderName := "";
      senderEmail := "";
      pendingFile := None;
      inserts := [];
      readMarks := [];
      alerts := [];
    }

    /** Whether a customer must still give a name before sending. */
    predicate NeedsName()
      reads this
    {
      !isAdmin && Blank(senderName) && CustomerMessages(messages) == 0
    }

    /** After a successful send a customer's trimmed name (and email, if any) is remembered. */
    method RememberSender()
      modifies store
      ensures store.items == Remembered(old(store.items), isAdmin, senderName, senderEmail)
    {
      if !isAdmin && !Blank(senderName) {
        store.items := store.items[SenderNameKey := Trim(senderName)];
        if !Blank(senderEmail) {
          store.items := store.items[SenderEmailKey := Trim(senderEmail)];
        }
      }
    }

    /** When the conversation loads, a customer's remembered name and email
        (when non-empty) fill the sender fields; the admin's stay as they are. */
    method RestoreSender()
      modifies this
      ensures !isAdmin && SenderNameKey in store.items && store.items[SenderNameKey] != "" ==>
        senderName == store.items[SenderNameKey]
      ensures !(!isAdmin && SenderNameKey in store.items && store.items[SenderNameKey] != "") ==>
        senderName == old(senderName)
      ensures !isAdmin && SenderEmailKey in store.items && store.items[SenderEmailKey] != "" ==>
        senderEmail == store.items[SenderEmailKey]
      ensures !(!isAdmin && SenderEmailKey in store.items && store.items[SenderEmailKey] != "") ==>
        senderEmail == old(senderEmail)
      ensures messages == old(messages) && unread == old(unread) && isOpen == old(isOpen)
      ensures newMessage == old(newMessage) && pendingFile == old(pendingFile) && userId == old(userId)
      ensures inserts == old(inserts) && readMarks == old(readMarks) && alerts == old(alerts)
    {
      if !isAdmin {
        if SenderNameKey in store.items && store.items[SenderNameKey] != "" {
          senderName := store.items[SenderNameKey];
        }
        if SenderEmailKey in store.items && store.items[SenderEmailKey] != "" {
          senderEmail := store.items[SenderEmailKey];
        }
      }
    }

    /** After a sent message: the composer empties and the sender is remembered. */
    method ClearComposer()
      modifies this, store
      ensures newMessage == "" && pendingFile == None
      ensures store.items == Remembered(old(store.items), isAdmin, senderName, senderEmail)
      ensures messages == old(messages) && unread == old(unread) && isOpen == old(isOpen)
      ensures senderName == old(senderName) && senderEmail == old(senderEmail) && userId == old(userId)
      ensures readMarks == old(readMarks) && inserts == old(inserts) && alerts == old(alerts)
    {
      newMessage := "";
      pendingFile := None;
      RememberSender();
    }

    /** `sendMessage`. `uploadError` and `insertError` are the storage's and
        the database's answers (`None` on success). */
    method SendMessage(uploadError: Option<string>, insertError: Option<string>, nowMs: nat)
      modifies this, store
      ensures var o := old(TextSend(newMessage, pendingFile, NeedsName(), uploadError,
                                    userId, nowMs, isAdmin, senderName, senderEmail));
        && (o.Attempt? ==> inserts == old(inserts) + [o.data])
        && (!o.Attempt? ==> inserts == old(inserts))
        && (o.Attempt? && insertError.None? ==> newMessage == "" && pendingFile == None && alerts == old(alerts))
        && (o.Attempt? && insertError.Some? ==> alerts == old(alerts) + ["Failed to send message: " + insertError.value])
        && (o.NameRequired? ==> alerts == old(alerts) + [NameAlert])
        && (o.UploadFailed? ==> alerts == old(alerts) + ["Failed to upload file: " + o.error])
        && (o.Ignored? ==> alerts == old(alerts))
        && (o.Attempt? && insertError.None? ==>
              store.items == Remembered(old(store.items), isAdmin, old(senderName), old(senderEmail)))
        && (!(o.Attempt? && insertError.None?) ==>
              store.items == old(store.items) && newMessage == old(newMessage) && pendingFile == old(pendingFile))
      ensures messages == old(messages) && unread == old(unread) && isOpen == old(isOpen)
      ensures senderName == old(senderName) && senderEmail == old(senderEmail) && userId == old(userId)
      ensures readMarks == old(readMarks)
    {
      var o := TextSend(newMessage, pendingFile, NeedsName(), uploadError, userId, nowMs, isAdmin, senderName, senderEmail);
      match o
      case Ignored =>
      case NameRequired =>
        alerts := alerts + [NameAlert];
      case UploadFailed(e) =>
        alerts := alerts + ["Failed to upload file: " + e];
      case Attempt(row) =>
        inserts := inserts + [row];
        if insertError.Some? {
          alerts := alerts + ["Failed to send message: " + insertError.value];
        } else {
          ClearComposer();
        }
    }

    /** `sendSticker` with the chosen sticker's emoji. */
    method SendSticker(emoji: string, insertError: Option<string>)
      modifies this, store
      ensures old(NeedsName()) ==>
        inserts == old(inserts) && alerts == old(alerts) + [NameAlert] && store.items == old(store.items)
      ensures !old(NeedsName()) ==>
        inserts == old(inserts + [StickerMessage(userId, emoji, isAdmin, senderName, senderEmail)])
      ensures !old(NeedsName()) && insertError.Some? ==>
        alerts == old(alerts) + ["Failed to send sticker: " + insertError.value] && store.items == old(store.items)
      ensures !old(NeedsName()) && insertError.None? ==>
        alerts == old(alerts) && store.items == Remembered(old(store.items), isAdmin, senderName, senderEmail)
      ensures messages == old(messages) && unread == old(unread) && isOpen == old(isOpen)
      ensures newMessage == old(newMessage) && pendingFile == old(pendingFile)
      ensures senderName == old(senderName) && senderEmail == old(senderEmail) && userId == old(userId)
      ensures readMarks == old(readMarks)
    {
      if NeedsName() {
        alerts := alerts + [NameAlert];
      } else {
        var row := StickerMessage(userId, emoji, isAdmin, senderName, senderEmail);
        inserts := inserts + [row];
        if insertError.Some? {
          alerts := alerts + ["Failed to send sticker: " + insertError.value];
        } else {
          RememberSender();
        }
      }
    }

    /** A realtime INSERT of `m`: appended; the badge counts it only while the
        panel is closed and the message comes from the other side. */
    method OnInsert(m: Message)
      modifies this
      ensures messages == old(messages) + [m]
      ensures !isOpen && m.isAdmin != isAdmin ==> unread == old(unread) + 1
      ensures !(!isOpen && m.isAdmin != isAdmin) ==> unread == old(unread)
      ensures isOpen == old(isOpen) && inserts == old(inserts) && alerts == old(alerts)
      ensures readMarks == old(readMarks) && newMessage == old(newMessage) && userId == old(userId)
      ensures senderName == old(senderName) && senderEmail == old(senderEmail) && pendingFile == old(pendingFile)
    {
      messages := messages + [m];
      if !isOpen && ((isAdmin && !m.isAdmin) || (!isAdmin && m.isAdmin)) {
        unread := unread + 1;
      }
    }

    /** A realtime UPDATE of `m`: every message with its id is replaced. */
    method OnUpdate(m: Message)
      modifies this
      ensures messages == ReplaceById(old(messages), m)
      ensures unread == old(unread) && isOpen == old(isOpen) && inserts == old(inserts)
      ensures alerts == old(alerts) && readMarks == old(readMarks) && userId == old(userId)
      ensures newMessage == old(newMessage) && senderName == old(senderName) && senderEmail == old(senderEmail)
      ensures pendingFile == old(pendingFile)
    {
      messages := ReplaceById(messages, m);
    }

    /** The effect that, for the admin, recounts the badge whenever the list changes. */
    method RecountUnread()
      modifies this
      ensures isAdmin ==> unread == AdminUnread(messages)
      ensures !isAdmin ==> unread == old(unread)
      ensures messages == old(messages) && isOpen == old(isOpen) && inserts == old(inserts)
      ensures alerts == old(alerts) && readMarks == old(readMarks) && userId == old(userId)
      ensures newMessage == old(newMessage) && senderName == old(senderName) && senderEmail == old(senderEmail)
      ensures pendingFile == old(pendingFile)
    {
      if isAdmin {
        unread := AdminUnread(messages);
      }
    }

    /** `handleOpen`: the badge clears; an admin with a conversation selected
        marks its unread customer messages as read. */
    method HandleOpen()
      modifies this
      ensures isOpen && unread == 0
      ensures isAdmin && userId.Some? ==> readMarks == old(readMarks) + UnreadIds(messages)
      ensures !(isAdmin && userId.Some?) ==> readMarks == old(readMarks)
      ensures messages == old(messages) && inserts == old(inserts) && alerts == old(alerts)
      ensures userId == old(userId)
      ensures newMessage == old(newMessage) && senderName == old(senderName) && senderEmail == old(senderEmail)
      ensures pendingFile == old(pendingFile)
    {
      isOpen := true;
      unread := 0;
      if isAdmin && userId.Some? {
        readMarks := readMarks + UnreadIds(messages);
      }
    }
  }
}
