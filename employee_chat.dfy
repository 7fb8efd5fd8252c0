/** The one-to-one chat with the symmetric conversation key: the key, the message
    list built from a realtime snapshot, and the send handler. The message list and the
    push are shared with the admin chat page. */
module EmployeeChat {
  import opened Text
  import opened Sorting
  import opened Store

  /** `[a, b].sort().join('-')`: the smaller id, a dash, the larger id. */
  function ContainerId(a: string, b: string): (r: string)
    ensures LexLe(a, b) ==> r == Join([a, b], '-')
    ensures !LexLe(a, b) ==> LexLe(b, a) && r == Join([b, a], '-')
  {
    LexLeTotal(a, b);
    if LexLe(a, b) then a + "-" + b else b + "-" + a
  }

  /** Both participants derive the same key. */
  lemma ContainerIdSymmetric(a: string, b: string)
    ensures ContainerId(a, b) == ContainerId(b, a)
  {
    LexLeTotal(a, b);
    if LexLe(a, b) && LexLe(b, a) {
      LexLeAntisymmetric(a, b);
    }
  }

  /** For ids without a dash, the key determines the pair of participants. */
  lemma ContainerIdInjective(a: string, b: string, c: string, d: string)
    requires '-' !in a && '-' !in b && '-' !in c && '-' !in d
    requires ContainerId(a, b) == ContainerId(c, d)
    ensures (a == c && b == d) || (a == d && b == c)
  {
    LexLeTotal(a, b);
    LexLeTotal(c, d);
    var p := if LexLe(a, b) then [a, b] else [b, a];
    var q := if LexLe(c, d) then [c, d] else [d, c];
    assert ContainerId(a, b) == Join(p, '-');
    assert ContainerId(c, d) == Join(q, '-');
    SplitJoin(p, '-');
    SplitJoin(q, '-');
    assert p == q;
  }

  /** With a dash inside an id, two different pairs share a conversation. */
  lemma ContainerIdCollision()
    ensures ContainerId("a-b", "c") == ContainerId("a", "b-c")
  {
  }

  /** `chats/{key}/messages`, the path the view both listens on and pushes to. */
  function MessagesPath(key: string): (p: string)
    ensures |p| == |key| + 15
    ensures p[..6] == "chats/" && p[|p| - 9..] == "/messages" && p[6..|p| - 9] == key
  {
    "chats/" + key + "/messages"
  }

  function Timestamp(m: Doc<ChatMessage>): int { m.data.timestamp }

  /** The `onValue` callback: no data gives `[]`; otherwise the entries, each with its
      key as `id`, sorted by ascending timestamp. */
  function ListMessages(snapshot: Option<seq<Doc<ChatMessage>>>): (r: seq<Doc<ChatMessage>>)
    ensures snapshot.None? ==> r == []
    ensures snapshot.Some? ==> multiset(r) == multiset(snapshot.value)
    ensures forall i, j :: 0 <= i < j < |r| ==> r[i].data.timestamp <= r[j].data.timestamp
  {
    match snapshot
    case None => []
    case Some(entries) => SortBy(entries, Timestamp)
  }

  /** Messages with the same timestamp keep the order the snapshot gave them. */
  lemma ListMessagesStable(entries: seq<Doc<ChatMessage>>, t: int)
    ensures WithKey(ListMessages(Some(entries)), Timestamp, t) == WithKey(entries, Timestamp, t)
  {
    SortStable(entries, Timestamp, t);
  }

  /** The realtime store after `push(ref(path), message)` under the generated key. */
  function Push(chats: map<string, map<string, ChatMessage>>, path: string, key: string, msg: ChatMessage)
    : (r: map<string, map<string, ChatMessage>>)
    ensures path in r && key in r[path] && r[path][key] == msg
    ensures forall p :: p in r && p != path ==> p in chats && r[p] == chats[p]
    ensures forall p :: p in chats ==> p in r
    ensures path in chats ==> forall k :: k in chats[path] && k != key ==> k in r[path] && r[path][k] == chats[path][k]
  {
    var channel := if path in chats then chats[path] else map[];
    chats[path := channel[key := msg]]
  }

  /** `entries` is one listing of `channel`: every entry is a child with its key, and every
      child is listed. */
  ghost predicate Enumerates(entries: seq<Doc<ChatMessage>>, channel: map<string, ChatMessage>) {
    && (forall i :: 0 <= i < |entries| ==> entries[i].id in channel && channel[entries[i].id] == entries[i].data)
    && (forall k :: k in channel ==> exists i :: 0 <= i < |entries| && entries[i].id == k)
  }

  /** `snapshot.val()` of the listened path: absent when nothing is stored there, otherwise
      one listing of the stored messages. */
  ghost predicate SnapshotOf(snapshot: Option<seq<Doc<ChatMessage>>>,
                             chats: map<string, map<string, ChatMessage>>, path: string) {
    if path in chats && chats[path] != map[] then snapshot.Some? && Enumerates(snapshot.value, chats[path])
    else snapshot.None?
  }

  /** The list built from a snapshot of a path holds exactly the messages stored there,
      each under its own key. */
  lemma SnapshotListed(snapshot: Option<seq<Doc<ChatMessage>>>, chats: map<string, map<string, ChatMessage>>,
                       path: string, m: Doc<ChatMessage>)
    requires SnapshotOf(snapshot, chats, path)
    ensures m in ListMessages(snapshot) <==> path in chats && m.id in chats[path] && chats[path][m.id] == m.data
  {
    if snapshot.Some? {
      var entries := snapshot.value;
      assert m in ListMessages(snapshot) <==> m in multiset(entries);
      if path in chats && m.id in chats[path] && chats[path][m.id] == m.data {
        var i :| 0 <= i < |entries| && entries[i].id == m.id;
        assert entries[i] == m;
      }
    }
  }

  /** A pushed message shows up in the list built from any later snapshot of its path. */
  lemma PushedMessageListed(chats: map<string, map<string, ChatMessage>>, path: string, key: string,
                            msg: ChatMessage, entries: seq<Doc<ChatMessage>>)
    requires Enumerates(entries, Push(chats, path, key, msg)[path])
    ensures Doc(key, msg) in ListMessages(Some(entries))
  {
    var i :| 0 <= i < |entries| && entries[i].id == key;
    assert entries[i] == Doc(key, msg);
    assert entries[i] in multiset(entries);
    assert Doc(key, msg) in multiset(ListMessages(Some(entries)));
  }

  /** The chat component, for a fixed pair of participants. */
  class EmployeeChat {
    const currentUserId: string
    const employeeId: string
    var messages: seq<Doc<ChatMessage>>
    var newMessage: string
    var isLoading: bool

    constructor (currentUserId: string, employeeId: string)
      ensures this.currentUserId == currentUserId && this.employeeId == employeeId
      ensures messages == [] && newMessage == "" && isLoading
    {
      this.currentUserId, this.employeeId := currentUserId, employeeId;
      messages, newMessage, isLoading := [], "", true;
    }

    /** The path both the subscription and the send use. */
    function Path(): (p: string)
      ensures p == MessagesPath(ContainerId(employeeId, currentUserId))
    {
      ContainerIdSymmetric(currentUserId, employeeId);
      MessagesPath(ContainerId(currentUserId, employeeId))
    }

    predicate MessageIsBlank()
      reads this
    {
      Trim(newMessage) == ""
    }

    /** The subscription callback, given a snapshot of `Path()`: the shown list holds exactly
        the messages stored there. */
    method OnValue(db: Db, snapshot: Option<seq<Doc<ChatMessage>>>)
      requires SnapshotOf(snapshot, db.chats, Path())
      modifies this`messages, this`isLoading
      ensures messages == ListMessages(snapshot) && !isLoading
      ensures forall m :: m in messages <==>
        Path() in db.chats && m.id in db.chats[Path()] && db.chats[Path()][m.id] == m.data
    {
      messages := ListMessages(snapshot);
      isLoading := false;
      forall m {
        SnapshotListed(snapshot, db.chats, Path(), m);
      }
    }

    /** `handleSendMessage`. `pushKey` is the key `push` generates, `now` the clock, and
        `writeFails` a rejected `set`, which leaves the input as it was. */
    method HandleSendMessage(db: Db, pushKey: string, now: int, writeFails: bool)
      requires Path() !in db.chats || pushKey !in db.chats[Path()]
      modifies this`newMessage, db`chats
      ensures old(MessageIsBlank()) || writeFails ==>
        db.chats == old(db.chats) && newMessage == old(newMessage)
      ensures !old(MessageIsBlank()) && !writeFails ==>
        && db.chats == Push(old(db.chats), Path(), pushKey,
                            ChatMessage(Trim(old(newMessage)), currentUserId, now, None))
        && newMessage == ""
    {
      if MessageIsBlank() || writeFails {
        return;
      }
      db.chats := Push(db.chats, Path(), pushKey, ChatMessage(Trim(newMessage), currentUserId, now, None));
      newMessage := "";
    }

    /** Sending and then receiving the subscription's next snapshot: the sent message, with
        its generated key, is in the shown list. */
    method SentMessageShown(db: Db, pushKey: string, now: int, snapshot: Option<seq<Doc<ChatMessage>>>)
      requires Path() !in db.chats || pushKey !in db.chats[Path()]
      requires !MessageIsBlank()
      requires SnapshotOf(snapshot, Push(db.chats, Path(), pushKey,
                                         ChatMessage(Trim(newMessage), currentUserId, now, None)), Path())
      modifies this`newMessage, this`messages, this`isLoading, db`chats
      ensures Doc(pushKey, ChatMessage(Trim(old(newMessage)), currentUserId, now, None)) in messages
    {
      HandleSendMessage(db, pushKey, now, false);
      OnValue(db, snapshot);
    }
  }
}
