/** The chat page of a signed-in user: the admin list, the order-sensitive channel key,
    the message list and the send handler. */
module AdminChat {
  import opened Text
  import opened Seqs
  import opened Store
  import opened EmployeeChat
  import opened ChatBox

  /** `${adminId}_${userUid}`: the admin's id always comes first. */
  function ChannelKey(adminId: string, uid: string): (k: string)
    ensures k == Join([adminId, uid], '_')
  {
    adminId + "_" + uid
  }

  /** `chats/{key}`: the messages sit directly under the channel node. */
  function ChannelPath(key: string): (p: string)
    ensures |p| == |key| + 6 && p[..6] == "chats/" && p[6..] == key
  {
    "chats/" + key
  }

  /** For ids without an underscore, the key determines the admin and the user. */
  lemma ChannelKeyInjective(a: string, b: string, c: string, d: string)
    requires '_' !in a && '_' !in b && '_' !in c && '_' !in d
    requires ChannelKey(a, b) == ChannelKey(c, d)
    ensures a == c && b == d
  {
    SplitJoin([a, b], '_');
    SplitJoin([c, d], '_');
    assert [a, b] == [c, d];
  }

  /** Swapping the participants gives a different channel, unlike the sorted key. */
  lemma ChannelKeyOrderSensitive(a: string, b: string)
    requires '_' !in a && '_' !in b && a != b
    ensures ChannelKey(a, b) != ChannelKey(b, a)
  {
    if ChannelKey(a, b) == ChannelKey(b, a) {
      ChannelKeyInjective(a, b, b, a);
    }
  }

  /** With an underscore inside an id, two different pairs share a channel. */
  lemma ChannelKeyCollision()
    ensures ChannelKey("a_b", "c") == ChannelKey("a", "b_c")
  {
  }

  /** For ids without a slash, this page and the sorted-key chat never use the same path:
      the first has one slash, the second two. */
  lemma ChatViewsFork(x: string, y: string, a: string, b: string)
    requires '/' !in x && '/' !in y && '/' !in a && '/' !in b
    ensures MessagesPath(ContainerId(x, y)) != ChannelPath(ChannelKey(a, b))
  {
    var k1, k2 := ContainerId(x, y), ChannelKey(a, b);
    assert '/' !in k1 by {
      if LexLe(x, y) { assert k1 == x + "-" + y; } else { assert k1 == y + "-" + x; }
    }
    assert '/' !in k2 by {
      assert k2 == a + "_" + b;
    }
    // Position |k1| + 6 holds the second slash of the first path, and a key character in the
    // second path whenever the lengths agree.
    assert MessagesPath(k1)[|k1| + 6] == '/';
    assert |ChannelPath(k2)| == |k1| + 15 ==> ChannelPath(k2)[|k1| + 6] == k2[|k1|] && k2[|k1|] in k2;
  }

  /** The realtime store is a tree, so two paths also meet when one lies below the other.
      For one-to-one ids without an underscore and chat-page ids without a slash, neither
      view's path is a prefix of the other's: the chat-page path has an underscore the
      one-to-one path lacks, and the one-to-one path has a second slash the chat-page path
      lacks. */
  lemma ChatViewsApart(x: string, y: string, a: string, b: string)
    requires '_' !in x && '_' !in y && '/' !in a && '/' !in b
    ensures !(ChannelPath(ChannelKey(a, b)) <= MessagesPath(ContainerId(x, y)))
    ensures !(MessagesPath(ContainerId(x, y)) <= ChannelPath(ChannelKey(a, b)))
  {
    var k1, k2 := ContainerId(x, y), ChannelKey(a, b);
    var p1, p2 := MessagesPath(k1), ChannelPath(k2);
    assert '_' !in k1 by {
      if LexLe(x, y) { assert k1 == x + "-" + y; } else { assert k1 == y + "-" + x; }
    }
    assert '/' !in k2 by {
      assert k2 == a + "_" + b;
    }
    assert '_' !in p1 by {
      assert p1 == "chats/" + k1 + "/messages";
    }
    // The underscore after the admin id sits at |a| + 6 in the chat-page path.
    assert p2[|a| + 6] == '_' by {
      assert k2 == a + "_" + b;
    }
    assert |p2| <= |p1| ==> p1[|a| + 6] in p1;
    // The second slash of the one-to-one path sits at |k1| + 6; there the chat-page path
    // holds a key character.
    assert p1[|k1| + 6] == '/';
    assert |p1| <= |p2| ==> p2[|k1| + 6] == k2[|k1|] && k2[|k1|] in k2;
  }

  /** The users query `where('role', '==', 'admin')` over a snapshot of the collection. */
  function Admins(users: seq<Doc<User>>): (r: seq<Doc<User>>)
    ensures forall i :: 0 <= i < |r| ==> r[i] in users && r[i].data.role == ROLE_ADMIN
    ensures forall i :: 0 <= i < |users| && users[i].data.role == ROLE_ADMIN ==> users[i] in r
  {
    Filter(users, (d: Doc<User>) => d.data.role == ROLE_ADMIN)
  }

  class AdminChat {
    var user: Option<string>
    var admins: seq<Doc<User>>
    var selectedAdmin: Option<Doc<User>>
    var messages: seq<Doc<ChatMessage>>
    var isChatOpen: bool
    var isLoading: bool

    constructor (user: Option<string>)
      ensures this.user == user && admins == [] && selectedAdmin == None && messages == []
      ensures !isChatOpen && isLoading
    {
      this.user := user;
      admins, selectedAdmin, messages := [], None, [];
      isChatOpen, isLoading := false, true;
    }

    /** The channel the page listens on and sends to, present only with both an admin
        selected and a user signed in. */
    function ChatPath(): (p: Option<string>)
      reads this
      ensures p.Some? <==> selectedAdmin.Some? && user.Some?
      ensures p.Some? ==> p.value == ChannelPath(ChannelKey(selectedAdmin.value.id, user.value))
    {
      if selectedAdmin.Some? && user.Some? then
        Some(ChannelPath(ChannelKey(selectedAdmin.value.id, user.value)))
      else None
    }

    /** `fetchAdmins`, run only with a signed-in user. `users` is the collection as read;
        a failed read leaves the list as it was. */
    method FetchAdmins(users: seq<Doc<User>>, readFails: bool)
      modifies this`admins, this`isLoading
      ensures user.None? ==> admins == old(admins) && isLoading == old(isLoading)
      ensures user.Some? && !readFails ==> admins == Admins(users) && !isLoading
      ensures user.Some? && readFails ==> admins == old(admins) && !isLoading
    {
      if user.None? {
        return;
      }
      if !readFails {
        admins := Admins(users);
      }
      isLoading := false;
    }

    method HandleAdminSelect(admin: Doc<User>)
      modifies this`selectedAdmin, this`isChatOpen
      ensures selectedAdmin == Some(admin) && isChatOpen
    {
      selectedAdmin := Some(admin);
      isChatOpen := true;
    }

    /** The subscription callback, registered only while there is a channel and given a
        snapshot of it: the shown list holds exactly the messages stored there. */
    method OnValue(db: Db, snapshot: Option<seq<Doc<ChatMessage>>>)
      requires ChatPath().Some? && SnapshotOf(snapshot, db.chats, ChatPath().value)
      modifies this`messages
      ensures messages == ListMessages(snapshot)
      ensures forall m :: m in messages <==>
        ChatPath().value in db.chats && m.id in db.chats[ChatPath().value]
        && db.chats[ChatPath().value][m.id] == m.data
    {
      messages := ListMessages(snapshot);
      forall m {
        SnapshotListed(snapshot, db.chats, ChatPath().value, m);
      }
    }

    /** `handleSendMessage(text)`: the text as given, `isAdmin: false`, to the channel
        the page listens on. `pushKey` is the generated key, `now` the server timestamp. */
    method HandleSendMessage(db: Db, text: string, pushKey: string, now: int, writeFails: bool)
      requires ChatPath().Some? ==> ChatPath().value !in db.chats || pushKey !in db.chats[ChatPath().value]
      modifies db`chats
      ensures ChatPath().None? || writeFails ==> db.chats == old(db.chats)
      ensures ChatPath().Some? && !writeFails ==>
        db.chats == Push(old(db.chats), ChatPath().value, pushKey, ChatMessage(text, user.value, now, Some(false)))
    {
      if selectedAdmin.None? || user.None? || writeFails {
        return;
      }
      db.chats := Push(db.chats, ChannelPath(ChannelKey(selectedAdmin.value.id, user.value)), pushKey,
                       ChatMessage(text, user.value, now, Some(false)));
    }

    /** The panel's close callback. */
    method CloseChat()
      modifies this`isChatOpen, this`selectedAdmin, this`messages
      ensures !isChatOpen && selectedAdmin == None && messages == [] && ChatPath().None?
    {
      isChatOpen := false;
      selectedAdmin := None;
      messages := [];
    }

    /** Submitting the panel's form: a non-blank input reaches the channel untrimmed. */
    method SubmitFromChatBox(box: ChatBox, db: Db, pushKey: string, now: int, writeFails: bool)
      requires ChatPath().Some? ==> ChatPath().value !in db.chats || pushKey !in db.chats[ChatPath().value]
      modifies box`newMessage, db`chats
      ensures old(box.MessageIsBlank()) ==> db.chats == old(db.chats) && box.newMessage == old(box.newMessage)
      ensures !old(box.MessageIsBlank()) ==> box.newMessage == ""
      ensures !old(box.MessageIsBlank()) && (ChatPath().None? || writeFails) ==> db.chats == old(db.chats)
      ensures !old(box.MessageIsBlank()) && ChatPath().Some? && !writeFails ==>
        db.chats == Push(old(db.chats), ChatPath().value, pushKey,
                         ChatMessage(old(box.newMessage), user.value, now, Some(false)))
    {
      var forwarded := box.HandleSubmit();
      if forwarded.Some? {
        HandleSendMessage(db, forwarded.value, pushKey, now, writeFails);
      }
    }

    /** Sending on the open channel and then receiving the subscription's next snapshot: the
        sent message, with its generated key, is in the shown list. */
    method SentMessageShown(db: Db, text: string, pushKey: string, now: int,
                            snapshot: Option<seq<Doc<ChatMessage>>>)
      requires ChatPath().Some?
      requires ChatPath().value !in db.chats || pushKey !in db.chats[ChatPath().value]
      requires SnapshotOf(snapshot, Push(db.chats, ChatPath().value, pushKey,
                                         ChatMessage(text, user.value, now, Some(false))), ChatPath().value)
      modifies this`messages, db`chats
      ensures Doc(pushKey, ChatMessage(text, user.value, now, Some(false))) in messages
    {
      HandleSendMessage(db, text, pushKey, now, false);
      OnValue(db, snapshot);
    }
  }
}
