/** The channel model: one joined channel, query, lobby or special view,
    its bounded message buffer, its roster and its unread markers. The
    process-wide id counter is an allocator passed to the constructor; the
    server configuration is a parameter of the operations that read it. */
module Channel {
  import opened Options
  import opened Text
  import opened Messages
  import opened History
  import opened Roster
  import opened Sessions

  datatype ChanType = ChannelType | Lobby | Query | Special

  /** The server configuration the channel reads: `public`, `maxHistory`
      (negative for unlimited), `prefetch` and `prefetchStorage`. */
  datatype Config = Config(
    publicMode: bool,
    maxHistory: int,
    prefetch: bool,
    prefetchStorage: bool)

  /** Trimming releases the previews of evicted messages only with both
      prefetch flags on and a bound above zero. */
  predicate ReleasesOnTrim(cfg: Config)
  {
    cfg.prefetch && cfg.prefetchStorage && cfg.maxHistory > 0
  }

  /** A push raises the unread counter when it is meant to, or highlights,
      and no attached session shows the channel. */
  predicate RaisesUnread(msg: Message, increasesUnread: bool, isOpen: bool)
  {
    (increasesUnread || msg.highlight) && !isOpen
  }

  /** Only text lines and actions in channels and queries are indexed. */
  predicate Indexed(chanType: ChanType, msgType: MsgType)
  {
    (chanType == ChannelType || chanType == Query) && (msgType == MessageType || msgType == Action)
  }

  /** The `messageStorage.index` call a write issues, if any; the time is
      passed as whole seconds, rounded down. */
  function IndexCallsFor(chanType: ChanType, chanName: string, target: Option<Network>, msg: Message): (r: seq<IndexCall>)
    ensures |r| <= 1
    ensures |r| == 1 <==> target.Some? && Indexed(chanType, msg.msgType)
    ensures |r| == 1 ==> r[0].networkUuid == target.value.uuid && r[0].chanName == chanName
    ensures |r| == 1 ==> r[0].msgType == msg.msgType && r[0].from == msg.from && r[0].text == msg.text
    ensures |r| == 1 ==> r[0].seconds * 1000 <= msg.time < r[0].seconds * 1000 + 1000
  {
    if target.Some? && Indexed(chanType, msg.msgType) then
      [IndexCall(target.value.uuid, chanName, msg.time / 1000, msg.msgType, msg.from, msg.text)]
    else []
  }

  /** The `userLog.write` call a write issues, if any: only with logging on,
      and a lobby logs under the network host instead of its own name. */
  function LogCallsFor(chanType: ChanType, chanName: string, client: Client, target: Option<Network>, msg: Message): (r: seq<LogCall>)
    ensures |r| <= 1
    ensures |r| == 1 <==> target.Some? && client.logEnabled
    ensures |r| == 1 ==> r[0].clientName == client.name && r[0].networkHost == target.value.host && r[0].msg == msg
    ensures |r| == 1 && chanType == Lobby ==> r[0].targetName == target.value.host
    ensures |r| == 1 && chanType != Lobby ==> r[0].targetName == chanName
  {
    if target.Some? && client.logEnabled then
      var host := target.value.host;
      [LogCall(client.name, host, if chanType == Lobby then host else chanName, msg)]
    else []
  }

  /** The process-wide channel id counter, starting at 1. */
  class IdAllocator {
    var next: nat
    ghost var issued: set<nat>

    ghost predicate Valid()
      reads this
    {
      next >= 1 && forall x :: x in issued ==> x < next
    }

    constructor ()
      ensures Valid() && next == 1 && issued == {}
    {
      next, issued := 1, {};
    }

    /** `id++`: hands out the current value, never one handed out before. */
    method Allocate() returns (id: nat)
      requires Valid()
      modifies this
      ensures Valid()
      ensures id == old(next) && next == old(next) + 1
      ensures id !in old(issued) && issued == old(issued) + {id}
    {
      id := next;
      next := next + 1;
      issued := issued + {id};
    }
  }

  /** The attributes a caller passes to `new Chan(attr)`; a missing one takes
      its default. */
  datatype ChanAttr = ChanAttr(
    id: Option<nat>,
    messages: Option<seq<Message>>,
    name: Option<string>,
    key: Option<string>,
    topic: Option<string>,
    chanType: Option<ChanType>,
    firstUnread: Option<nat>,
    unread: Option<nat>,
    highlight: Option<nat>,
    users: Option<map<string, User>>)

  /** What `toJSON` sends to a client. */
  datatype ChanView = ChanView(
    id: nat,
    name: string,
    key: string,
    topic: string,
    chanType: ChanType,
    firstUnread: nat,
    unread: nat,
    highlight: nat,
    messages: seq<Message>,
    users: seq<User>)

  class Chan {
    const id: nat
    var name: string
    var key: string
    var topic: string
    var chanType: ChanType
    var messages: seq<Message>
    var users: map<string, User>
    var firstUnread: nat
    var unread: nat
    var highlight: nat

    /** Buffered messages own their previews, and the roster is keyed by
        folded nick. */
    ghost predicate Valid()
      reads this
    {
      PreviewsDistinct(messages) && Keyed(users)
    }

    /** `new Chan(attr)`: the counter always advances, even when `attr`
        supplies an id. */
    constructor (attr: ChanAttr, ids: IdAllocator)
      requires ids.Valid()
      requires attr.messages.Some? ==> PreviewsDistinct(attr.messages.value)
      requires attr.users.Some? ==> Keyed(attr.users.value)
      modifies ids
      ensures Valid() && ids.Valid()
      ensures ids.next == old(ids.next) + 1 && ids.issued == old(ids.issued) + {old(ids.next)}
      ensures id == attr.id.GetOr(old(ids.next))
      ensures messages == attr.messages.GetOr([]) && users == attr.users.GetOr(map[])
      ensures name == attr.name.GetOr("") && key == attr.key.GetOr("") && topic == attr.topic.GetOr("")
      ensures chanType == attr.chanType.GetOr(ChannelType)
      ensures firstUnread == attr.firstUnread.GetOr(0)
      ensures unread == attr.unread.GetOr(0) && highlight == attr.highlight.GetOr(0)
    {
      var newId := ids.Allocate();
      id := attr.id.GetOr(newId);
      messages := attr.messages.GetOr([]);
      name := attr.name.GetOr("");
      key := attr.key.GetOr("");
      topic := attr.topic.GetOr("");
      chanType := attr.chanType.GetOr(ChannelType);
      firstUnread := attr.firstUnread.GetOr(0);
      unread := attr.unread.GetOr(0);
      highlight := attr.highlight.GetOr(0);
      users := attr.users.GetOr(map[]);
    }

    /** Releases the preview of every message of `ms` whose thumb is set:
        the cache is asked to drop it and the thumb is nulled. Afterwards
        nothing in `ms` is left to release, so a second call is a no-op. */
    method DereferencePreviews(ms: seq<Message>, fx: Effects)
      requires PreviewsDistinct(ms)
      modifies fx`dereferenced, PreviewSet(ms)
      ensures forall p :: p in PreviewSet(ms) ==> p.thumb == Released(old(p.thumb))
      ensures fx.dereferenced == old(fx.dereferenced) + old(Thumbs(ms))
      ensures Thumbs(ms) == []
    {
      var i := 0;
      while i < |ms|
        invariant 0 <= i <= |ms|
        invariant forall j :: 0 <= j < i && ms[j].preview != null ==>
          ms[j].preview.thumb == Released(old(ms[j].preview.thumb))
        invariant forall j :: i <= j < |ms| && ms[j].preview != null ==>
          ms[j].preview.thumb == old(ms[j].preview.thumb)
        invariant fx.dereferenced == old(fx.dereferenced) + old(Thumbs(ms[..i]))
        invariant fx.emitted == old(fx.emitted) && fx.indexed == old(fx.indexed) && fx.logged == old(fx.logged)
      {
        assert ms[..i + 1][..i] == ms[..i];
        var p := ms[i].preview;
        if p != null && Truthy(p.thumb) {
          fx.dereferenced := fx.dereferenced + [p.thumb.value];
          p.thumb := None;
        }
        i := i + 1;
      }
      assert ms[..i] == ms;
      NothingToRelease(ms);
    }

    /** Releases every retained message's preview, whatever the
        configuration; the buffer itself is kept. */
    method Destroy(fx: Effects)
      requires Valid()
      modifies fx`dereferenced, PreviewSet(messages)
      ensures forall p :: p in PreviewSet(messages) ==> p.thumb == Released(old(p.thumb))
      ensures fx.dereferenced == old(fx.dereferenced) + old(Thumbs(messages))
      ensures Thumbs(messages) == []
    {
      DereferencePreviews(messages, fx);
    }

    /** Appends `msg` to the buffer, then, if the client can resolve the
        channel to its network, indexes and logs it by the routing rules. */
    method WriteUserLog(client: Client, msg: Message, fx: Effects)
      requires Valid()
      requires msg.preview == null || msg.preview !in PreviewSet(messages)
      modifies this`messages, fx`indexed, fx`logged
      ensures Valid()
      ensures messages == old(messages) + [msg]
      ensures fx.indexed == old(fx.indexed) + IndexCallsFor(chanType, name, client.Find(id), msg)
      ensures fx.logged == old(fx.logged) + LogCallsFor(chanType, name, client, client.Find(id), msg)
    {
      messages := messages + [msg];
      var target := client.Find(id);
      if target.None? {
        return;
      }
      if Indexed(chanType, msg.msgType) {
        fx.indexed := fx.indexed + [IndexCall(target.value.uuid, name, msg.time / 1000, msg.msgType, msg.from, msg.text)];
      }
      if !client.logEnabled {
        return;
      }
      var host := target.value.host;
      fx.logged := fx.logged + [LogCall(client.name, host, if chanType == Lobby then host else name, msg)];
    }

    /** The messages a non-public push of `msg` evicts and whose previews it
        releases. */
    ghost function ReleasedOnPush(msg: Message, cfg: Config): seq<Message>
      reads this
    {
      if !cfg.publicMode && ReleasesOnTrim(cfg) then Evicted(messages + [msg], cfg.maxHistory) else []
    }

    /** Delivers `msg` to the client's sessions and, outside public mode,
        stores it in the bounded buffer and moves the read markers. */
    method PushMessage(client: Client, msg: Message, increasesUnread: bool, cfg: Config, fx: Effects)
      requires Valid()
      requires msg.preview == null || msg.preview !in PreviewSet(messages)
      modifies this`messages, this`unread, this`firstUnread, this`highlight, fx, PreviewSet(ReleasedOnPush(msg, cfg))
      ensures Valid()
      // unread counter and the emitted payload, in every mode
      ensures unread == old(unread) + if RaisesUnread(msg, increasesUnread, AnyOpen(client.attached, id)) then 1 else 0
      ensures fx.emitted == old(fx.emitted) +
        [MsgEvent(id, msg, if RaisesUnread(msg, increasesUnread, AnyOpen(client.attached, id)) then Some(unread) else None)]
      // public mode stores nothing
      ensures cfg.publicMode ==> messages == old(messages) && firstUnread == old(firstUnread) && highlight == old(highlight)
      ensures cfg.publicMode ==> fx.indexed == old(fx.indexed) && fx.logged == old(fx.logged)
      // the bounded buffer and the write-through calls
      ensures !cfg.publicMode ==> messages == Retained(old(messages) + [msg], cfg.maxHistory)
      ensures !cfg.publicMode ==> fx.indexed == old(fx.indexed) + IndexCallsFor(chanType, name, client.Find(id), msg)
      ensures !cfg.publicMode ==> fx.logged == old(fx.logged) + LogCallsFor(chanType, name, client, client.Find(id), msg)
      // preview release: exactly the evicted messages', under the three flags
      ensures fx.dereferenced == old(fx.dereferenced) + old(Thumbs(ReleasedOnPush(msg, cfg)))
      ensures forall p :: p in old(PreviewSet(ReleasedOnPush(msg, cfg))) ==> p.thumb == Released(old(p.thumb))
      ensures forall p :: p in PreviewSet(messages) ==> p.thumb == old(p.thumb)
      // read markers
      ensures !cfg.publicMode && msg.self ==> firstUnread == 0 && highlight == 0
      ensures !cfg.publicMode && !msg.self && !AnyOpen(client.attached, id) ==>
        firstUnread == (if old(firstUnread) == 0 then msg.id else old(firstUnread)) &&
        highlight == old(highlight) + (if msg.highlight then 1 else 0)
      ensures !cfg.publicMode && !msg.self && AnyOpen(client.attached, id) ==>
        firstUnread == old(firstUnread) && highlight == old(highlight)
    {
      ghost var released := ReleasedOnPush(msg, cfg);
      ghost var thumbs := Thumbs(released);
      ghost var appended := messages + [msg];
      var isOpen := Notify(client, msg, increasesUnread, fx);
      if cfg.publicMode {
        assert released == [];
      } else {
        assert unchanged(PreviewSet(released));
        assert Thumbs(released) == thumbs;
        StoreMessage(client, msg, cfg, fx, isOpen);
        PrefixPreviews(appended, |appended| - |messages|);
      }
    }

    /** The part of a push done in every mode: bump the unread counter unless
        a session has the channel open, and emit the message event. */
    method Notify(client: Client, msg: Message, increasesUnread: bool, fx: Effects) returns (isOpen: bool)
      modifies this`unread, fx`emitted
      ensures unchanged(PreviewSet(messages + [msg]))
      ensures isOpen == AnyOpen(client.attached, id)
      ensures unread == old(unread) + if RaisesUnread(msg, increasesUnread, isOpen) then 1 else 0
      ensures fx.emitted == old(fx.emitted) +
        [MsgEvent(id, msg, if RaisesUnread(msg, increasesUnread, isOpen) then Some(unread) else None)]
    {
      isOpen := AnyOpen(client.attached, id);
      var unreadField: Option<nat> := None;
      if (increasesUnread || msg.highlight) && !isOpen {
        unread := unread + 1;
        unreadField := Some(unread);
      }
      fx.emitted := fx.emitted + [MsgEvent(id, msg, unreadField)];
    }

    /** The part of a push that public mode skips: append and write through,
        trim, then move the read markers. */
    method StoreMessage(client: Client, msg: Message, cfg: Config, fx: Effects, isOpen: bool)
      requires Valid() && !cfg.publicMode
      requires msg.preview == null || msg.preview !in PreviewSet(messages)
      modifies this`messages, this`firstUnread, this`highlight, fx`dereferenced, fx`indexed, fx`logged, PreviewSet(ReleasedOnPush(msg, cfg))
      ensures Valid()
      ensures messages == Retained(old(messages) + [msg], cfg.maxHistory)
      ensures fx.indexed == old(fx.indexed) + IndexCallsFor(chanType, name, client.Find(id), msg)
      ensures fx.logged == old(fx.logged) + LogCallsFor(chanType, name, client, client.Find(id), msg)
      ensures fx.dereferenced == old(fx.dereferenced) + old(Thumbs(ReleasedOnPush(msg, cfg)))
      ensures forall p :: p in old(PreviewSet(ReleasedOnPush(msg, cfg))) ==> p.thumb == Released(old(p.thumb))
      ensures forall p :: p in PreviewSet(messages) ==> p.thumb == old(p.thumb)
      ensures msg.self ==> firstUnread == 0 && highlight == 0
      ensures !msg.self && !isOpen ==>
        firstUnread == (if old(firstUnread) == 0 then msg.id else old(firstUnread)) &&
        highlight == old(highlight) + (if msg.highlight then 1 else 0)
      ensures !msg.self && isOpen ==> firstUnread == old(firstUnread) && highlight == old(highlight)
    {
      AppendAndTrim(client, msg, cfg, fx);
      UpdateReadMarkers(msg, isOpen);
    }

    /** Append and write through, then trim: the buffer-side half of a
        stored push. */
    method AppendAndTrim(client: Client, msg: Message, cfg: Config, fx: Effects)
      requires Valid() && !cfg.publicMode
      requires msg.preview == null || msg.preview !in PreviewSet(messages)
      modifies this`messages, fx`dereferenced, fx`indexed, fx`logged, PreviewSet(ReleasedOnPush(msg, cfg))
      ensures Valid()
      ensures messages == Retained(old(messages) + [msg], cfg.maxHistory)
      ensures fx.indexed == old(fx.indexed) + IndexCallsFor(chanType, name, client.Find(id), msg)
      ensures fx.logged == old(fx.logged) + LogCallsFor(chanType, name, client, client.Find(id), msg)
      ensures fx.dereferenced == old(fx.dereferenced) + old(Thumbs(ReleasedOnPush(msg, cfg)))
      ensures forall p :: p in old(PreviewSet(ReleasedOnPush(msg, cfg))) ==> p.thumb == Released(old(p.thumb))
      ensures forall p :: p in PreviewSet(messages) ==> p.thumb == old(p.thumb)
    {
      ghost var released := ReleasedOnPush(msg, cfg);
      ghost var thumbs := Thumbs(released);
      ghost var before := messages;
      WriteUserLog(client, msg, fx);
      assert messages == before + [msg];
      assert released == if ReleasesOnTrim(cfg) then Evicted(messages, cfg.maxHistory) else [];
      assert unchanged(PreviewSet(released));
      assert Thumbs(released) == thumbs;
      if ReleasesOnTrim(cfg) {
        EvictedFromOld(before, msg, cfg.maxHistory);
      }
      AppendPreviews(before, msg);
      assert unchanged(PreviewSet(before));
      assert msg.preview != null ==> unchanged(msg.preview);
      ghost var logged := fx.dereferenced;
      ghost var appended := messages;
      TrimHistory(cfg, fx);
      assert fx.dereferenced == logged + thumbs;
      PrefixPreviews(appended, |appended| - |messages|);
    }

    /** The previews a trim may release: with a positive bound the newest
        message always survives, so only older messages are evicted. */
    lemma EvictedFromOld(before: seq<Message>, msg: Message, max: int)
      requires max > 0
      ensures PreviewSet(Evicted(before + [msg], max)) <= PreviewSet(before)
    {
      var s := before + [msg];
      if |s| > max {
        assert Evicted(s, max) == before[..|s| - max];
        PrefixPreviews(before, |s| - max);
      }
    }

    /** The retention step of a push: drops the oldest messages beyond
        `maxHistory` and, under the three flags, releases their previews. */
    method TrimHistory(cfg: Config, fx: Effects)
      requires Valid()
      modifies this`messages, fx`dereferenced, PreviewSet(if ReleasesOnTrim(cfg) then Evicted(messages, cfg.maxHistory) else [])
      ensures Valid()
      ensures messages == Retained(old(messages), cfg.maxHistory)
      ensures fx.dereferenced == old(fx.dereferenced) +
        (if ReleasesOnTrim(cfg) then old(Thumbs(Evicted(messages, cfg.maxHistory))) else [])
      ensures forall p :: ReleasesOnTrim(cfg) && p in old(PreviewSet(Evicted(messages, cfg.maxHistory))) ==>
        p.thumb == Released(old(p.thumb))
      ensures forall p :: p in PreviewSet(messages) ==> p.thumb == old(p.thumb)
    {
      if cfg.maxHistory >= 0 && |messages| > cfg.maxHistory {
        var deleted := Splice(|messages| - cfg.maxHistory);
        if cfg.prefetch && cfg.prefetchStorage && cfg.maxHistory > 0 {
          DereferencePreviews(deleted, fx);
          assert unchanged(PreviewSet(messages));
        }
      }
    }

    /** The splice of a trim: removes and returns the `cut` oldest
        messages. The two parts own disjoint sets of previews. */
    method Splice(cut: nat) returns (deleted: seq<Message>)
      requires Valid() && cut <= |messages|
      modifies this`messages
      ensures Valid()
      ensures deleted + messages == old(messages) && |deleted| == cut
      ensures PreviewsDistinct(deleted) && PreviewSet(deleted) !! PreviewSet(messages)
      ensures PreviewSet(deleted) <= old(PreviewSet(messages)) && PreviewSet(messages) <= old(PreviewSet(messages))
    {
      deleted := messages[..cut];
      PrefixPreviews(messages, cut);
      SplitPreviews(messages, cut);
      messages := messages[cut..];
    }

    /** The read-marker step of a push: the user's own message clears the
        markers; otherwise, unless the channel is open, the first unread id
        is set if unset and a highlight is counted. */
    method UpdateReadMarkers(msg: Message, isOpen: bool)
      modifies this`firstUnread, this`highlight
      ensures msg.self ==> firstUnread == 0 && highlight == 0
      ensures !msg.self && !isOpen ==>
        firstUnread == (if old(firstUnread) == 0 then msg.id else old(firstUnread)) &&
        highlight == old(highlight) + (if msg.highlight then 1 else 0)
      ensures !msg.self && isOpen ==> firstUnread == old(firstUnread) && highlight == old(highlight)
    {
      if msg.self {
        firstUnread := 0;
        highlight := 0;
      } else if !isOpen {
        if firstUnread == 0 {
          firstUnread := msg.id;
        }
        if msg.highlight {
          highlight := highlight + 1;
        }
      }
    }

    /** The first buffered message with that id. */
    function FindMessage(msgId: nat): (r: Option<Message>)
      reads this
      ensures r.Some? ==> r.value.id == msgId
      ensures r.Some? ==> exists i :: 0 <= i < |messages| && messages[i] == r.value &&
                                      (forall j :: 0 <= j < i ==> messages[j].id != msgId)
      ensures r.None? <==> forall m :: m in messages ==> m.id != msgId
    {
      match FirstWithId(messages, msgId)
      case Some(i) => Some(messages[i])
      case None => None
    }

    /** The member stored under the folded form of `nick`. */
    function FindUser(nick: string): (r: Option<User>)
      reads this
      ensures r.Some? <==> Lower(nick) in users
      ensures r.Some? ==> r.value == users[Lower(nick)]
      ensures r.Some? && Valid() ==> Lower(r.value.nick) == Lower(nick)
    {
      Find(users, nick)
    }

    /** The stored member, or a placeholder with the given nick and no mode. */
    function GetUser(nick: string): (r: User)
      reads this
      ensures FindUser(nick).Some? ==> r == FindUser(nick).value
      ensures FindUser(nick).None? ==> r == User(nick, "")
      ensures Valid() ==> Lower(r.nick) == Lower(nick)
    {
      GetOrPlaceholder(users, nick)
    }

    /** Stores `u` under its folded nick, replacing any member with the same
        folded nick. */
    method SetUser(u: User)
      requires Valid()
      modifies this`users
      ensures Valid()
      ensures users == Put(old(users), u)
      ensures forall n :: Lower(n) == Lower(u.nick) ==> FindUser(n) == Some(u)
      ensures forall n :: Lower(n) != Lower(u.nick) ==> FindUser(n) == old(FindUser(n))
    {
      users := Put(users, u);
    }

    /** Drops the member stored under `u`'s folded nick, and nothing else. */
    method RemoveUser(u: User)
      requires Valid()
      modifies this`users
      ensures Valid()
      ensures users == Remove(old(users), u)
      ensures users.Keys == old(users).Keys - {Lower(u.nick)}
      ensures forall k :: k in users ==> users[k] == old(users)[k]
    {
      users := Remove(users, u);
    }

    /** The roster in display order: by mode priority (no mode last), then by
        folded nick. The result holds every member once and nothing else. */
    method GetSortedUsers(prefix: seq<string>) returns (r: seq<User>)
      requires Valid()
      requires forall k :: k in users ==> Ranked(prefix, users[k])
      ensures Sorted(prefix, r)
      ensures forall u :: u in r <==> u in users.Values
      ensures forall i, j :: 0 <= i < j < |r| ==> r[i] != r[j]
    {
      var todo := users.Keys;
      r := [];
      while todo != {}
        invariant todo <= users.Keys
        invariant Sorted(prefix, r)
        invariant forall x :: x in r ==> Key(x) in users && Key(x) !in todo && users[Key(x)] == x
        invariant forall k :: k in users && k !in todo ==> users[k] in r
        decreases todo
      {
        var k :| k in todo;
        var u := users[k];
        assert Key(u) == k;
        forall i | 0 <= i < |r| ensures Key(r[i]) != Key(u) && Ranked(prefix, r[i]) {
          assert r[i] in r;
        }
        InsertSorted(prefix, r, u);
        var r' := Insert(prefix, r, u);
        forall x | x in r' ensures x in r || x == u {
          assert x in multiset(r');
        }
        forall x | x in r || x == u ensures x in r' {
          assert x in multiset(r');
        }
        r := r';
        todo := todo - {k};
      }
      forall i, j | 0 <= i < j < |r| ensures r[i] != r[j] {
        BeforeIrreflexive(prefix, r[i]);
      }
    }

    /** The view sent to clients: no roster, and at most the newest 100
        messages; the channel itself is not changed. */
    function ToJSON(): (v: ChanView)
      reads this
      ensures v.users == []
      ensures |v.messages| == if |messages| > 100 then 100 else |messages|
      ensures messages == messages[..|messages| - |v.messages|] + v.messages
      ensures v.id == id && v.name == name && v.key == key && v.topic == topic && v.chanType == chanType
      ensures v.firstUnread == firstUnread && v.unread == unread && v.highlight == highlight
    {
      ChanView(id, name, key, topic, chanType, firstUnread, unread, highlight, Newest(messages, 100), [])
    }

    /** The success continuation of `loadMessages`: a non-empty page of older
        messages goes in front of the buffer, sets `firstUnread` to the page's
        newest id if it was unset, and is sent to the client as `"more"`. */
    method LoadMessages(page: seq<Message>, fx: Effects)
      requires Valid()
      requires PreviewsDistinct(page + messages)
      modifies this`messages, this`firstUnread, fx`emitted
      ensures Valid()
      ensures |page| == 0 ==> messages == old(messages) && firstUnread == old(firstUnread) && fx.emitted == old(fx.emitted)
      ensures |page| > 0 ==> messages == page + old(messages)
      ensures |page| > 0 ==> firstUnread == if old(firstUnread) == 0 then page[|page| - 1].id else old(firstUnread)
      ensures |page| > 0 ==> fx.emitted == old(fx.emitted) + [MoreEvent(id, page)]
    {
      if |page| == 0 {
        return;
      }
      messages := page + messages;
      if firstUnread == 0 {
        firstUnread := page[|page| - 1].id;
      }
      fx.emitted := fx.emitted + [MoreEvent(id, page)];
    }
  }
}
