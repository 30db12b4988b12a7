/**
 * The chat list page: the search filter over the fetched chats, the avatar
 * initials and the unread badge.
 */
module Chats {
  import opened Wrappers
  import Text
  import Documents

  /** The fields of a serialized chat that the page reads; `contact_name` and
      `unread_count` may be missing or `null`. */
  datatype Chat = Chat(id: string, contactName: Option<string>, unreadCount: Option<int>,
                       isOnline: bool, lastMessage: string, time: string)

  /** `chat.contact_name?.toLowerCase().includes(searchQuery.toLowerCase())`:
      a chat without a name is never kept. */
  predicate Keeps(chat: Chat, query: string) {
    chat.contactName.Some? && Text.Includes(Text.Lower(chat.contactName.value), Text.Lower(query))
  }

  /** `a` is `b` with some elements left out, the rest in their order. */
  predicate IsSubsequence<T(==)>(a: seq<T>, b: seq<T>)
    decreases |b|
  {
    a == [] || (b != [] && ((a[0] == b[0] && IsSubsequence(a[1..], b[1..])) || IsSubsequence(a, b[1..])))
  }

  /** `filteredChats`. */
  function Filter(chats: seq<Chat>, query: string): (r: seq<Chat>)
    ensures IsSubsequence(r, chats)
    ensures forall c :: c in r <==> c in chats && Keeps(c, query)
    ensures forall i :: 0 <= i < |r| ==> Keeps(r[i], query)
    ensures forall c :: multiset(r)[c] == if Keeps(c, query) then multiset(chats)[c] else 0
  {
    if chats == [] then []
    else
      var rest := Filter(chats[1..], query);
      assert chats == [chats[0]] + chats[1..];
      assert forall c :: c in chats <==> c == chats[0] || c in chats[1..];
      if Keeps(chats[0], query) then
        var r := [chats[0]] + rest;
        assert r[1..] == rest;
        r
      else rest
  }

  /** Filtering the filtered list changes nothing. */
  lemma {:induction false} FilterIdempotent(chats: seq<Chat>, query: string)
    ensures Filter(Filter(chats, query), query) == Filter(chats, query)
  {
    if chats != [] {
      FilterIdempotent(chats[1..], query);
      var rest := Filter(chats[1..], query);
      if Keeps(chats[0], query) {
        assert ([chats[0]] + rest)[1..] == rest;
      }
    }
  }

  /** The filter does not depend on the case of the query. */
  lemma {:induction false} FilterCaseInsensitive(chats: seq<Chat>, query: string)
    ensures Filter(chats, Text.Upper(query)) == Filter(chats, query)
    ensures Filter(chats, Text.Lower(query)) == Filter(chats, query)
  {
    Text.LowerCaseInsensitive(query);
    if chats != [] {
      FilterCaseInsensitive(chats[1..], query);
    }
  }

  /** An empty query keeps exactly the chats that have a `contact_name`. */
  lemma {:induction false} FilterEmptyQuery(chats: seq<Chat>)
    ensures forall c :: c in Filter(chats, "") <==> c in chats && c.contactName.Some?
  {
    forall c | c in chats && c.contactName.Some? ensures Keeps(c, "") {
      assert Text.Lower("") == "";
      assert Text.OccursAt(Text.Lower(c.contactName.value), "", 0);
    }
  }

  /** `name?.substring(0, 2).toUpperCase() || "НА"`: the first two characters
      upper-cased, or "НА" when the name is missing or empty. */
  function Initials(name: Option<string>): (r: string)
    ensures 1 <= |r| <= 2
    ensures name.Some? && name.value != "" ==> r == Text.Upper(Text.Prefix(name.value, 2))
    ensures name.None? || name.value == "" ==> r == "НА"
  {
    if name.None? then "НА"
    else
      var u := Text.Upper(Text.Prefix(name.value, 2));
      if u == "" then "НА" else u
  }

  /** `chat.unread_count > 0`: a missing count shows no badge. */
  predicate ShowsUnreadBadge(chat: Chat) {
    chat.unreadCount.Some? && chat.unreadCount.value > 0
  }

  /** `{chat.unread_count > 0 && ...{chat.unread_count}...}`: the number the
      badge shows, if it is shown. */
  function UnreadBadge(chat: Chat): (r: Option<int>)
    ensures r.Some? <==> ShowsUnreadBadge(chat)
    ensures r.Some? ==> r.value > 0 && chat.unreadCount == Some(r.value)
    ensures chat.unreadCount.None? || chat.unreadCount == Some(0) ==> r.None?
  {
    if ShowsUnreadBadge(chat) then chat.unreadCount else None
  }

  /** The fields of a serialized chat document as the page reads them: a
      field that is missing or not of the expected type reads as absent
      (`null` or `undefined`), `is_online` as a truthy `true`. */
  function FromDoc(d: Documents.Doc): (c: Chat)
    ensures "unread_count" in d && d["unread_count"].Int? ==> c.unreadCount == Some(d["unread_count"].n)
    ensures "unread_count" !in d || !d["unread_count"].Int? ==> c.unreadCount.None?
    ensures "contact_name" in d && d["contact_name"].Str? ==> c.contactName == Some(d["contact_name"].s)
  {
    Chat(StrField(d, "id"),
         if "contact_name" in d && d["contact_name"].Str? then Some(d["contact_name"].s) else None,
         if "unread_count" in d && d["unread_count"].Int? then Some(d["unread_count"].n) else None,
         "is_online" in d && d["is_online"] == Documents.Bool(true),
         StrField(d, "last_message"), StrField(d, "time"))
  }

  function StrField(d: Documents.Doc, k: string): string {
    if k in d && d[k].Str? then d[k].s else ""
  }
}
