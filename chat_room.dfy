/**
 * The chat room page: grouping the fetched messages by day, the send guard,
 * the two requests a send issues, and the draft input.
 *
 * `new Date(...).toLocaleDateString('ru-RU', ...)` and `toLocaleTimeString`
 * are not modelled: the day label of a message is `dayLabel` applied to the
 * text the page parses, and the time shown in the chat list is given.
 */
module ChatRoom {
  import opened Wrappers
  import Text
  import Chats
  import Server
  import Documents

  /** The fields of a serialized message that the page reads. */
  datatype Message = Message(id: string, chatId: string, senderName: Option<string>, text: string,
                             isOutgoing: bool, timestamp: Option<string>, createdDate: Option<string>)

  /** `msg.timestamp || msg.created_date`: an empty timestamp is falsy too. */
  function DateSource(m: Message): (r: Option<string>)
    ensures m.timestamp.Some? && m.timestamp.value != "" ==> r == m.timestamp
    ensures (m.timestamp.None? || m.timestamp == Some("")) ==> r == m.createdDate
  {
    if m.timestamp.Some? && m.timestamp.value != "" then m.timestamp else m.createdDate
  }

  /** The day label under which a message is grouped. */
  function DayKey(dayLabel: Option<string> -> string): Message -> string {
    (m: Message) => dayLabel(DateSource(m))
  }

  // ---------------------------------------------------------------------
  // groupMessagesByDate
  // ---------------------------------------------------------------------

  /** An entry of the `groups` object: a key and the messages pushed to it. */
  datatype Group<T> = Group(key: string, items: seq<T>)

  /** `groups[k]`: the position of the group keyed `k`, or `|groups|`. */
  function FindGroup<T>(groups: seq<Group<T>>, k: string): (i: nat)
    ensures i <= |groups|
    ensures i < |groups| ==> groups[i].key == k
    ensures forall j :: 0 <= j < i ==> groups[j].key != k
  {
    if groups == [] then 0
    else if groups[0].key == k then 0
    else 1 + FindGroup(groups[1..], k)
  }

  /** `FindGroup` is the first position with the key. */
  lemma {:induction false} FindGroupIs<T>(groups: seq<Group<T>>, k: string, i: nat)
    requires i <= |groups| && (i < |groups| ==> groups[i].key == k)
    requires forall j :: 0 <= j < i ==> groups[j].key != k
    ensures FindGroup(groups, k) == i
  {
    if i > 0 { FindGroupIs(groups[1..], k, i - 1); }
  }

  /** `FindGroup` only looks at the keys. */
  lemma {:induction false} SameKeysSameFind<T>(g: seq<Group<T>>, h: seq<Group<T>>, k: string)
    requires |g| == |h| && forall j :: 0 <= j < |g| ==> g[j].key == h[j].key
    ensures FindGroup(g, k) == FindGroup(h, k)
  {
    if g != [] && g[0].key != k {
      SameKeysSameFind(g[1..], h[1..], k);
    }
  }

  /** One step of the `forEach`: create the group if it is missing, then push. */
  function Push<T>(groups: seq<Group<T>>, k: string, x: T): seq<Group<T>> {
    var i := FindGroup(groups, k);
    if i < |groups| then groups[i := Group(k, groups[i].items + [x])]
    else groups + [Group(k, [x])]
  }

  /** The object `groupMessagesByDate` returns, entries in insertion order. */
  function Grouped<T>(s: seq<T>, key: T -> string): seq<Group<T>>
    decreases |s|
  {
    if s == [] then [] else Push(Grouped(s[..|s| - 1], key), key(s[|s| - 1]), s[|s| - 1])
  }

  /** The elements of `s` whose key is `k`, in order. */
  function With<T>(s: seq<T>, key: T -> string, k: string): (r: seq<T>)
    ensures |r| <= |s|
    ensures forall x :: x in r ==> x in s && key(x) == k
    decreases |s|
  {
    if s == [] then []
    else
      var p := s[..|s| - 1];
      assert s == p + [s[|s| - 1]];
      With(p, key, k) + (if key(s[|s| - 1]) == k then [s[|s| - 1]] else [])
  }

  /** `With` keeps every occurrence of an element with key `k` and no other
      element: it is the sub-multiset of `s` selected by the key. */
  lemma {:induction false} WithCount<T>(s: seq<T>, key: T -> string, k: string)
    ensures forall x :: x in s ==> multiset(With(s, key, k))[x] == if key(x) == k then multiset(s)[x] else 0
    decreases |s|
  {
    if s != [] {
      var p := s[..|s| - 1];
      assert s == p + [s[|s| - 1]];
      WithCount(p, key, k);
    }
  }

  /** Index of the first element with key `k`, or `|s|`. */
  function FirstWith<T>(s: seq<T>, key: T -> string, k: string): (i: nat)
    ensures i <= |s|
    ensures i < |s| ==> key(s[i]) == k
    ensures forall j :: 0 <= j < i ==> key(s[j]) != k
  {
    if s == [] then 0
    else if key(s[0]) == k then 0
    else 1 + FirstWith(s[1..], key, k)
  }

  lemma WithEmpty<T>(s: seq<T>, key: T -> string, k: string)
    ensures With(s, key, k) == [] <==> FirstWith(s, key, k) == |s|
  {
    WithNone(s, key, k);
  }

  /** No element is kept exactly when no element has the key. */
  lemma {:induction false} WithNone<T>(s: seq<T>, key: T -> string, k: string)
    ensures With(s, key, k) == [] <==> forall j :: 0 <= j < |s| ==> key(s[j]) != k
  {
    if s != [] {
      var p := s[..|s| - 1];
      WithNone(p, key, k);
      assert forall j :: 0 <= j < |p| ==> p[j] == s[j];
    }
  }

  /** Appending an element moves no first occurrence of a key already present. */
  lemma FirstWithAppend<T>(p: seq<T>, key: T -> string, x: T, k: string)
    ensures FirstWith(p, key, k) < |p| ==> FirstWith(p + [x], key, k) == FirstWith(p, key, k)
    ensures FirstWith(p, key, k) == |p| ==> FirstWith(p + [x], key, k) == if key(x) == k then |p| else |p| + 1
  {
    var s := p + [x];
    var a, b := FirstWith(s, key, k), FirstWith(p, key, k);
    assert forall j :: 0 <= j < |p| ==> s[j] == p[j];
    assert s[|p|] == x;
    assert b < |p| ==> s[b] == p[b];
    assert a < |p| ==> s[a] == p[a] && key(p[a]) == k;
    assert a > |p| ==> key(s[|p|]) != k;
  }

  lemma WithAppend<T>(p: seq<T>, key: T -> string, x: T, k: string)
    ensures With(p + [x], key, k) == With(p, key, k) + (if key(x) == k then [x] else [])
  {
    assert (p + [x])[..|p|] == p;
  }

  /** Keys of distinct groups differ. */
  lemma GroupKeysDistinct<T>(s: seq<T>, key: T -> string)
    ensures var g := Grouped(s, key); forall i, j :: 0 <= i < j < |g| ==> g[i].key != g[j].key
  {
    GroupedSpec(s, key);
  }

  /** Every key of the input has exactly one group, each group holds exactly
      the messages with that key in input order, and a key has a group
      exactly when some message carries it. */
  lemma {:induction false} GroupedSpec<T>(s: seq<T>, key: T -> string)
    ensures var g := Grouped(s, key);
      && (forall i, j :: 0 <= i < j < |g| ==> g[i].key != g[j].key)
      && (forall i :: 0 <= i < |g| ==> g[i].items == With(s, key, g[i].key))
      && (forall k :: FindGroup(g, k) < |g| <==> With(s, key, k) != [])
  {
    if s != [] {
      var p, x := s[..|s| - 1], s[|s| - 1];
      GroupedSpec(p, key);
      assert p + [x] == s;
      if FindGroup(Grouped(p, key), key(x)) < |Grouped(p, key)| {
        PushExisting(p, key, x);
      } else {
        PushNew(p, key, x);
      }
    }
  }

  lemma PushExisting<T>(p: seq<T>, key: T -> string, x: T)
    requires FindGroup(Grouped(p, key), key(x)) < |Grouped(p, key)|
    requires var g := Grouped(p, key);
      && (forall i, j :: 0 <= i < j < |g| ==> g[i].key != g[j].key)
      && (forall i :: 0 <= i < |g| ==> g[i].items == With(p, key, g[i].key))
      && (forall k :: FindGroup(g, k) < |g| <==> With(p, key, k) != [])
    ensures var s := p + [x]; var g := Grouped(s, key);
      && (forall i, j :: 0 <= i < j < |g| ==> g[i].key != g[j].key)
      && (forall i :: 0 <= i < |g| ==> g[i].items == With(s, key, g[i].key))
      && (forall k :: FindGroup(g, k) < |g| <==> With(s, key, k) != [])
  {
    var s := p + [x];
    assert s[..|s| - 1] == p;
    var G, g, k := Grouped(p, key), Grouped(s, key), key(x);
    var idx := FindGroup(G, k);
    assert g == G[idx := Group(k, G[idx].items + [x])];
    forall i | 0 <= i < |g| ensures g[i].items == With(s, key, g[i].key) {
      WithAppend(p, key, x, g[i].key);
      if i != idx { assert G[i].key != k; }
    }
    forall k' ensures FindGroup(g, k') < |g| <==> With(s, key, k') != [] {
      SameKeysSameFind(g, G, k');
      WithAppend(p, key, x, k');
    }
  }

  lemma PushNew<T>(p: seq<T>, key: T -> string, x: T)
    requires FindGroup(Grouped(p, key), key(x)) == |Grouped(p, key)|
    requires var g := Grouped(p, key);
      && (forall i, j :: 0 <= i < j < |g| ==> g[i].key != g[j].key)
      && (forall i :: 0 <= i < |g| ==> g[i].items == With(p, key, g[i].key))
      && (forall k :: FindGroup(g, k) < |g| <==> With(p, key, k) != [])
    ensures var s := p + [x]; var g := Grouped(s, key);
      && (forall i, j :: 0 <= i < j < |g| ==> g[i].key != g[j].key)
      && (forall i :: 0 <= i < |g| ==> g[i].items == With(s, key, g[i].key))
      && (forall k :: FindGroup(g, k) < |g| <==> With(s, key, k) != [])
  {
    var s := p + [x];
    assert s[..|s| - 1] == p;
    var G, g, k := Grouped(p, key), Grouped(s, key), key(x);
    assert g == G + [Group(k, [x])];
    WithEmpty(p, key, k);
    forall i | 0 <= i < |g| ensures g[i].items == With(s, key, g[i].key) {
      WithAppend(p, key, x, g[i].key);
      if i < |G| { assert G[i].key != k; }
    }
    forall i, j | 0 <= i < j < |g| ensures g[i].key != g[j].key {
      if j == |G| { assert G[i].key != k; }
    }
    forall k' ensures FindGroup(g, k') < |g| <==> With(s, key, k') != [] {
      var b := FindGroup(G, k');
      FindGroupIs(g, k', if b < |G| then b else if k' == k then |G| else |g|);
      WithAppend(p, key, x, k');
    }
  }

  /** No group is empty. */
  lemma GroupsNonEmpty<T>(s: seq<T>, key: T -> string)
    ensures var g := Grouped(s, key); forall i :: 0 <= i < |g| ==> g[i].items != []
  {
    GroupedSpec(s, key);
    var g := Grouped(s, key);
    forall i | 0 <= i < |g| ensures g[i].items != [] {
      assert FindGroup(g, g[i].key) < |g| by {
        FindGroupIs(g, g[i].key, i);
      }
    }
  }

  /** A key has a group exactly when some message has it. */
  lemma GroupedCoverage<T>(s: seq<T>, key: T -> string, k: string)
    ensures FindGroup(Grouped(s, key), k) < |Grouped(s, key)| <==> FirstWith(s, key, k) < |s|
  {
    GroupedSpec(s, key);
    WithEmpty(s, key, k);
  }

  /** Number of messages over all groups. */
  function Count<T>(groups: seq<Group<T>>): nat {
    if groups == [] then 0 else |groups[0].items| + Count(groups[1..])
  }

  lemma {:induction false} CountPush<T>(groups: seq<Group<T>>, k: string, x: T)
    ensures Count(Push(groups, k, x)) == Count(groups) + 1
  {
    var i := FindGroup(groups, k);
    if groups != [] {
      var r := Push(groups, k, x);
      if i == 0 {
        assert r[1..] == groups[1..];
      } else {
        CountPush(groups[1..], k, x);
        assert FindGroup(groups[1..], k) == i - 1;
        assert r[0] == groups[0] && r[1..] == Push(groups[1..], k, x);
      }
    }
  }

  /** No message is lost or duplicated. */
  lemma {:induction false} GroupedCount<T>(s: seq<T>, key: T -> string)
    ensures Count(Grouped(s, key)) == |s|
  {
    if s != [] {
      GroupedCount(s[..|s| - 1], key);
      CountPush(Grouped(s[..|s| - 1], key), key(s[|s| - 1]), s[|s| - 1]);
    }
  }

  /** Each group's key occurs in the input. */
  lemma GroupKeyOccurs<T>(s: seq<T>, key: T -> string, i: nat)
    requires i < |Grouped(s, key)|
    ensures FirstWith(s, key, Grouped(s, key)[i].key) < |s|
  {
    var g := Grouped(s, key);
    GroupKeysDistinct(s, key);
    FindGroupIs(g, g[i].key, i);
    GroupedCoverage(s, key, g[i].key);
  }

  /** Group keys appear in the order of their first occurrence. */
  lemma {:induction false} GroupedKeyOrder<T>(s: seq<T>, key: T -> string)
    ensures var g := Grouped(s, key);
      forall i, j :: 0 <= i < j < |g| ==> FirstWith(s, key, g[i].key) < FirstWith(s, key, g[j].key)
  {
    if s != [] {
      var p, x := s[..|s| - 1], s[|s| - 1];
      GroupedKeyOrder(p, key);
      assert p + [x] == s;
      KeyOrderPush(p, key, x);
    }
  }

  /** One push keeps the groups in the order of their keys' first occurrences. */
  lemma KeyOrderPush<T>(p: seq<T>, key: T -> string, x: T)
    requires var G := Grouped(p, key);
      forall i, j :: 0 <= i < j < |G| ==> FirstWith(p, key, G[i].key) < FirstWith(p, key, G[j].key)
    ensures var s, g := p + [x], Grouped(p + [x], key);
      forall i, j :: 0 <= i < j < |g| ==> FirstWith(s, key, g[i].key) < FirstWith(s, key, g[j].key)
  {
    var s, G, g, k := p + [x], Grouped(p, key), Grouped(p + [x], key), key(x);
    GroupedSnoc(p, key, x);
    var found := FindGroup(G, k) < |G|;
    if found {
      assert |g| == |G| && forall j :: 0 <= j < |g| ==> g[j].key == G[j].key;
    } else {
      assert g == G + [Group(k, [x])];
      assert FirstWith(s, key, k) == |p| by {
        GroupedCoverage(p, key, k);
        FirstWithAppend(p, key, x, k);
      }
    }
    forall i, j | 0 <= i < j < |g| ensures FirstWith(s, key, g[i].key) < FirstWith(s, key, g[j].key) {
      FirstStays(p, key, x, i);
      if j < |G| {
        FirstStays(p, key, x, j);
      }
    }
  }

  /** A key that has a group keeps its first occurrence when a message is pushed. */
  lemma FirstStays<T>(p: seq<T>, key: T -> string, x: T, i: nat)
    requires i < |Grouped(p, key)|
    ensures FirstWith(p + [x], key, Grouped(p, key)[i].key) == FirstWith(p, key, Grouped(p, key)[i].key) < |p|
  {
    GroupKeyOccurs(p, key, i);
    FirstWithAppend(p, key, x, Grouped(p, key)[i].key);
  }

  /** The messages of the groups, one group after the other (`Object.entries`
      order). */
  function Flatten<T>(groups: seq<Group<T>>): seq<T> {
    if groups == [] then [] else Flatten(groups[..|groups| - 1]) + groups[|groups| - 1].items
  }

  /** Equal keys are never separated by a different key. */
  predicate Contiguous<T>(s: seq<T>, key: T -> string) {
    forall i, j, l :: 0 <= i < j < l < |s| && key(s[i]) == key(s[l]) ==> key(s[j]) == key(s[i])
  }

  /** When messages with the same day label are adjacent, which is what the
      `created_date` order of the fetch gives when the label follows that
      order, the groups shown one after the other are the input, and the
      last group is the last message's. */
  lemma {:induction false} GroupedFlatten<T>(s: seq<T>, key: T -> string)
    requires Contiguous(s, key)
    ensures Flatten(Grouped(s, key)) == s
    ensures s != [] ==> Grouped(s, key) != [] && Grouped(s, key)[|Grouped(s, key)| - 1].key == key(s[|s| - 1])
  {
    if s != [] {
      var p, x := s[..|s| - 1], s[|s| - 1];
      ContiguousPrefix(s, key);
      GroupedFlatten(p, key);
      assert p + [x] == s;
      if p != [] && key(p[|p| - 1]) == key(x) {
        FlattenPushOntoLast(p, key, x);
      } else {
        NewKeyAfterRun(s, key);
        FlattenPushNew(p, key, x);
      }
    }
  }

  /** Dropping the last message keeps equal keys adjacent. */
  lemma ContiguousPrefix<T>(s: seq<T>, key: T -> string)
    requires Contiguous(s, key) && s != []
    ensures Contiguous(s[..|s| - 1], key)
  {
    var p := s[..|s| - 1];
    assert forall i :: 0 <= i < |p| ==> p[i] == s[i];
  }

  /** A message with the last group's key joins that group at the end. */
  lemma FlattenPushOntoLast<T>(p: seq<T>, key: T -> string, x: T)
    requires p != [] && Flatten(Grouped(p, key)) == p
    requires Grouped(p, key) != [] && Grouped(p, key)[|Grouped(p, key)| - 1].key == key(x)
    ensures Flatten(Grouped(p + [x], key)) == p + [x]
    ensures Grouped(p + [x], key) != [] && Grouped(p + [x], key)[|Grouped(p + [x], key)| - 1].key == key(x)
  {
    var G, g, k := Grouped(p, key), Grouped(p + [x], key), key(x);
    var n := |G| - 1;
    GroupedSnoc(p, key, x);
    assert FindGroup(G, k) == n by {
      GroupKeysDistinct(p, key);
      FindGroupIs(G, k, n);
    }
    assert g == G[n := Group(k, G[n].items + [x])];
    FlattenJoinLast(G, x);
  }

  /** Pushing onto the last group appends to the flattened messages. */
  lemma FlattenJoinLast<T>(G: seq<Group<T>>, x: T)
    requires G != []
    ensures var n := |G| - 1; Flatten(G[n := Group(G[n].key, G[n].items + [x])]) == Flatten(G) + [x]
  {
    var n := |G| - 1;
    var g := G[n := Group(G[n].key, G[n].items + [x])];
    assert g[..n] == G[..n];
  }

  /** `Grouped` of one more message is one more push. */
  lemma GroupedSnoc<T>(p: seq<T>, key: T -> string, x: T)
    ensures Grouped(p + [x], key) == Push(Grouped(p, key), key(x), x)
  {
    assert (p + [x])[..|p|] == p;
  }

  /** A message whose key has not occurred opens a new last group. */
  lemma FlattenPushNew<T>(p: seq<T>, key: T -> string, x: T)
    requires FirstWith(p, key, key(x)) == |p| && Flatten(Grouped(p, key)) == p
    ensures Flatten(Grouped(p + [x], key)) == p + [x]
    ensures Grouped(p + [x], key) != [] && Grouped(p + [x], key)[|Grouped(p + [x], key)| - 1].key == key(x)
  {
    var s := p + [x];
    assert s[..|s| - 1] == p;
    var G, g, k := Grouped(p, key), Grouped(s, key), key(x);
    GroupedCoverage(p, key, k);
    assert g == G + [Group(k, [x])];
    assert g[..|g| - 1] == G;
  }

  /** In a contiguous sequence, a last key that differs from the one before
      it occurs nowhere earlier. */
  lemma NewKeyAfterRun<T>(s: seq<T>, key: T -> string)
    requires Contiguous(s, key) && s != []
    requires var p := s[..|s| - 1]; p == [] || key(p[|p| - 1]) != key(s[|s| - 1])
    ensures FirstWith(s[..|s| - 1], key, key(s[|s| - 1])) == |s| - 1
  {
    var p, k := s[..|s| - 1], key(s[|s| - 1]);
    forall i | 0 <= i < |p| ensures key(p[i]) != k {
      assert p[i] == s[i];
    }
  }

  /** The `forEach` of `groupMessagesByDate` over the fetched messages. */
  method GroupMessagesByDate(messages: seq<Message>, dayLabel: Option<string> -> string)
    returns (groups: seq<Group<Message>>)
    ensures groups == Grouped(messages, DayKey(dayLabel))
  {
    var key := DayKey(dayLabel);
    groups := [];
    var n := 0;
    while n < |messages|
      invariant 0 <= n <= |messages|
      invariant groups == Grouped(messages[..n], key)
    {
      var msg := messages[n];
      var date := key(msg);
      var i := 0;
      while i < |groups| && groups[i].key != date
        invariant 0 <= i <= |groups|
        invariant forall j :: 0 <= j < i ==> groups[j].key != date
      {
        i := i + 1;
      }
      FindGroupIs(groups, date, i);
      assert messages[..n + 1] == messages[..n] + [msg];
      GroupedSnoc(messages[..n], key, msg);
      if i == |groups| {
        groups := groups + [Group(date, [msg])];
      } else {
        groups := groups[i := Group(date, groups[i].items + [msg])];
      }
      n := n + 1;
    }
    assert messages[..n] == messages;
  }

  // ---------------------------------------------------------------------
  // handleSend and handleKeyPress
  // ---------------------------------------------------------------------

  /** `!message.trim() || !chatId` is false: there is text besides whitespace
      and a non-empty `chatId` query parameter. */
  predicate CanSend(message: string, chatId: Option<string>) {
    Text.Trim(message) != "" && chatId.Some? && chatId.value != ""
  }

  lemma CanSendSpec(message: string, chatId: Option<string>)
    ensures CanSend(message, chatId) <==> !Text.AllWhitespace(message) && chatId.Some? && chatId.value != ""
  {
    Text.TrimEmptyIffBlank(message);
  }

  /** The body of `Message.create`; the back end ignores its `timestamp`. */
  datatype MessagePayload = MessagePayload(chatId: string, senderName: string, text: string,
                                           isOutgoing: bool, timestamp: string)

  /** `user?.full_name || "Вы"`. */
  function SenderName(fullName: Option<string>): (r: string)
    ensures r != ""
    ensures fullName.Some? && fullName.value != "" ==> r == fullName.value
    ensures fullName.None? || fullName.value == "" ==> r == "Вы"
  {
    if fullName.Some? && fullName.value != "" then fullName.value else "Вы"
  }

  /** The two requests of a send: the message, and the chat update. */
  datatype SendRequests = SendRequests(message: MessagePayload, chatId: string, update: Server.ChatUpdate)

  /** What `handleSend` sends, given the current time as ISO text and as the
      chat list's time label. */
  function Send(message: string, chatId: Option<string>, fullName: Option<string>, isoNow: string, timeLabel: string)
    : (r: Option<SendRequests>)
    ensures r.Some? <==> CanSend(message, chatId)
    ensures r.Some? ==>
      && r.value.chatId == chatId.value
      && r.value.message.chatId == chatId.value
      && r.value.message.text == message
      && r.value.message.isOutgoing
      && r.value.message.senderName == SenderName(fullName)
      && r.value.update.lastMessage == Some(message)
      && r.value.update.unreadCount == Some(0)
  {
    if !CanSend(message, chatId) then None
    else
      Some(SendRequests(
        MessagePayload(chatId.value, SenderName(fullName), message, true, isoNow),
        chatId.value,
        Server.ChatUpdate(None, Some(message), Some(timeLabel), Some(0), None)))
  }

  /** The chat update writes exactly `last_message`, `time` and
      `unread_count` of the chat's fields: the other two are `None`. */
  lemma SendUpdateFields(message: string, chatId: Option<string>, fullName: Option<string>,
                         isoNow: string, timeLabel: string)
    requires CanSend(message, chatId)
    ensures var u := Send(message, chatId, fullName, isoNow, timeLabel).value.update;
      var data := Documents.DropNone(u.AsDict());
      && "contact_name" !in data && "is_online" !in data
      && "last_message" in data && data["last_message"] == Documents.Str(message)
      && "time" in data && data["time"] == Documents.Str(timeLabel)
      && "unread_count" in data && data["unread_count"] == Documents.Int(0)
      && (forall k :: k in data ==> k in u.AsDict())
  {
    var u := Server.ChatUpdate(None, Some(message), Some(timeLabel), Some(0), None);
    assert Send(message, chatId, fullName, isoNow, timeLabel).value.update == u;
    var d := u.AsDict();
    assert d["contact_name"] == Documents.Null && d["is_online"] == Documents.Null;
    assert d["last_message"] == Documents.Str(message) && d["time"] == Documents.Str(timeLabel);
    assert d["unread_count"] == Documents.Int(0);
  }

  /** Once the chat has taken the update a send writes, the chat list shows
      no unread badge for it, whatever it showed before. */
  lemma SentChatShowsNoBadge(chat: Documents.Doc, message: string, chatId: Option<string>,
                             fullName: Option<string>, isoNow: string, timeLabel: string)
    requires CanSend(message, chatId)
    ensures var u := Send(message, chatId, fullName, isoNow, timeLabel).value.update;
      Chats.UnreadBadge(Chats.FromDoc(Documents.SetFields(chat, Documents.DropNone(u.AsDict())))).None?
  {
    SendUpdateFields(message, chatId, fullName, isoNow, timeLabel);
  }

  /** The send button is enabled only when the guard lets the text through,
      provided the page was opened with a chat id, whoever sends and
      whenever. */
  lemma ButtonMatchesGuard(message: string, pending: bool, chatId: Option<string>,
                           fullName: Option<string>, isoNow: string, timeLabel: string)
    requires chatId.Some? && chatId.value != ""
    ensures !SendDisabled(message, pending) ==> Send(message, chatId, fullName, isoNow, timeLabel).Some?
  {
  }

  /** `disabled={!message.trim() || sendMessageMutation.isPending}`. */
  predicate SendDisabled(message: string, pending: bool) {
    Text.Trim(message) == "" || pending
  }

  /** `e.key === 'Enter' && !e.shiftKey`: the keys that send. */
  predicate SendsOnKey(key: string, shift: bool) {
    key == "Enter" && !shift
  }

  // ---------------------------------------------------------------------
  // The header
  // ---------------------------------------------------------------------

  /** `urlParams.get('contactName') || 'Контакт'`. */
  function ContactName(param: Option<string>): (r: string)
    ensures r != ""
    ensures param.Some? && param.value != "" ==> r == param.value
    ensures param.None? || param.value == "" ==> r == "Контакт"
  {
    if param.Some? && param.value != "" then param.value else "Контакт"
  }

  /** The header avatar: at most two upper-case characters, never empty;
      with no contact name given, "КО". */
  function HeaderInitials(param: Option<string>): (r: string)
    ensures 1 <= |r| <= 2
    ensures r == Chats.Initials(Some(ContactName(param)))
    ensures param.None? ==> r == "КО"
  {
    var r := Text.Upper(Text.Prefix(ContactName(param), 2));
    assert Text.Prefix("Контакт", 2) == "Ко";
    r
  }

  // ---------------------------------------------------------------------
  // The draft
  // ---------------------------------------------------------------------

  class ChatRoomPage {
    /** The URL's `chatId` and `contactName` query parameters. */
    const chatId: Option<string>
    const contactParam: Option<string>
    /** The text input (`message`). */
    var draft: string

    constructor (chatId: Option<string>, contactParam: Option<string>)
      ensures this.chatId == chatId && this.contactParam == contactParam && draft == ""
    {
      this.chatId, this.contactParam := chatId, contactParam;
      draft := "";
    }

    /** Typing into the input. */
    method Edit(text: string)
      modifies this
      ensures draft == text
    {
      draft := text;
    }

    /** `handleSend`, with the outcome of the message request given: the
        input is cleared only when a message was sent and its request
        succeeded. */
    method HandleSend(fullName: Option<string>, isoNow: string, timeLabel: string, succeeded: bool)
      returns (sent: Option<SendRequests>)
      modifies this
      ensures sent == Send(old(draft), chatId, fullName, isoNow, timeLabel)
      ensures draft == if sent.Some? && succeeded then "" else old(draft)
    {
      sent := Send(draft, chatId, fullName, isoNow, timeLabel);
      if sent.Some? && succeeded {
        draft := "";
      }
    }

    /** `handleKeyPress`: Enter without Shift sends, any other key does
        nothing. */
    method HandleKeyPress(key: string, shift: bool, fullName: Option<string>, isoNow: string,
                          timeLabel: string, succeeded: bool)
      returns (sent: Option<SendRequests>)
      modifies this
      ensures SendsOnKey(key, shift) ==> sent == Send(old(draft), chatId, fullName, isoNow, timeLabel)
      ensures !SendsOnKey(key, shift) ==> sent.None?
      ensures draft == if sent.Some? && succeeded then "" else old(draft)
    {
      if SendsOnKey(key, shift) {
        sent := HandleSend(fullName, isoNow, timeLabel, succeeded);
      } else {
        sent := None;
      }
    }
  }
}
