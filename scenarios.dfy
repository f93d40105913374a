/** Worked examples of the channel model, derived from the contracts of
    `Chan` alone. */
module Scenarios {
  import opened Options
  import opened Text
  import opened Messages
  import opened History
  import opened Roster
  import opened Sessions
  import opened Channel

  function NoAttr(): ChanAttr
  {
    ChanAttr(None, None, None, None, None, None, None, None, None, None)
  }

  /** With `maxHistory` 2 and no session showing the channel, pushing A, B
      and C keeps [B, C], counts three unread, and leaves `firstUnread` at
      A's id although A has been trimmed away. */
  method ThreePushesIntoTwo(a: Message, b: Message, c: Message) returns (buffer: seq<Message>, unread: nat, firstUnread: nat)
    requires a.preview == null && b.preview == null && c.preview == null
    requires !a.self && !b.self && !c.self
    requires a.id > 0
    ensures buffer == [b, c] && unread == 3 && firstUnread == a.id
  {
    TrimSteps(a, b, c);
    var ids := new IdAllocator();
    var chan := new Chan(NoAttr(), ids);
    var fx := new Effects();
    var client := Client([], "user", false, map[]);
    var cfg := Config(false, 2, false, false);
    chan.PushMessage(client, a, true, cfg, fx);
    chan.PushMessage(client, b, true, cfg, fx);
    chan.PushMessage(client, c, true, cfg, fx);
    buffer, unread, firstUnread := chan.messages, chan.unread, chan.firstUnread;
  }

  lemma TrimSteps(a: Message, b: Message, c: Message)
    ensures Retained([] + [a], 2) == [a]
    ensures Retained([a] + [b], 2) == [a, b]
    ensures Retained([a, b] + [c], 2) == [b, c]
  {
    assert [a, b] + [c] == [a, b, c];
  }

  /** In public mode a push is delivered and may count as unread, but it is
      neither buffered nor indexed nor logged. */
  method PublicPush(m: Message, target: Network)
    returns (buffer: seq<Message>, unread: nat, ghost emitted: seq<Event>, ghost indexed: seq<IndexCall>, ghost logged: seq<LogCall>)
    requires m.preview == null
    ensures buffer == [] && unread == 1
    ensures emitted == [MsgEvent(1, m, Some(1))]
    ensures indexed == [] && logged == []
  {
    var ids := new IdAllocator();
    var chan := new Chan(NoAttr(), ids);
    var fx := new Effects();
    var client := Client([AttachedClient(7)], "user", true, map[1 := target]);
    chan.PushMessage(client, m, true, Config(true, -1, true, true), fx);
    buffer, unread := chan.messages, chan.unread;
    emitted, indexed, logged := fx.emitted, fx.indexed, fx.logged;
  }

  /** A channel created with one message whose preview holds a thumbnail is
      destroyed twice: the cache is asked to drop the thumbnail once, and the
      second destruction releases nothing. */
  method DestroyTwice(m: Message, thumb: string) returns (ghost released: seq<string>)
    requires m.preview != null && m.preview.thumb == Some(thumb) && thumb != ""
    modifies m.preview
    ensures released == [thumb]
    ensures m.preview.thumb == None
  {
    var ids := new IdAllocator();
    var chan := new Chan(NoAttr().(messages := Some([m])), ids);
    var fx := new Effects();
    OneThumb(m);
    chan.Destroy(fx);
    chan.Destroy(fx);
    released := fx.dereferenced;
  }

  lemma OneThumb(m: Message)
    requires m.preview != null && Truthy(m.preview.thumb)
    ensures Thumbs([m]) == [m.preview.thumb.value]
  {
    assert [m][..0] == [];
  }

  /** With `maxHistory` 0 a push evicts the buffered message, but its
      thumbnail is kept even with both prefetch flags on, so a session that
      has not fetched it yet still can. */
  method EvictWithoutRelease(m: Message, n: Message, thumb: string)
    returns (buffer: seq<Message>, kept: Option<string>)
    requires m.preview != null && m.preview.thumb == Some(thumb)
    requires n.preview == null
    ensures buffer == [] && kept == Some(thumb)
  {
    var ids := new IdAllocator();
    var chan := new Chan(NoAttr().(messages := Some([m])), ids);
    var fx := new Effects();
    var client := Client([], "user", false, map[]);
    var p := m.preview;
    chan.PushMessage(client, n, true, Config(false, 0, true, true), fx);
    kept := p.thumb;
    buffer := chan.messages;
  }

  /** With `maxHistory` 1 but `prefetch` off, the evicted message's
      thumbnail is kept too. */
  method EvictWithPrefetchOff(m: Message, n: Message, thumb: string)
    returns (buffer: seq<Message>, kept: Option<string>)
    requires m.preview != null && m.preview.thumb == Some(thumb)
    requires n.preview == null
    ensures buffer == [n] && kept == Some(thumb)
  {
    var ids := new IdAllocator();
    var chan := new Chan(NoAttr().(messages := Some([m])), ids);
    var fx := new Effects();
    var client := Client([], "user", false, map[]);
    var p := m.preview;
    chan.PushMessage(client, n, true, Config(false, 1, false, true), fx);
    kept := p.thumb;
    buffer := chan.messages;
    assert [m] + [n] == [m, n];
  }

  /** With PREFIX `@`, `+`: the operator first, then the voiced member, then
      the member without a mode, whatever the case of their nicks. */
  method SortExample() returns (names: seq<string>)
    ensures names == ["alice", "Bob", "Zed"]
  {
    var ids := new IdAllocator();
    var chan := new Chan(NoAttr(), ids);
    var bob, alice, zed := User("Bob", "+"), User("alice", "@"), User("Zed", "");
    chan.SetUser(bob);
    chan.SetUser(alice);
    chan.SetUser(zed);
    var prefix := ["@", "+"];
    ExampleRoster(chan.users, alice, bob, zed);
    var r := chan.GetSortedUsers(prefix);
    ExampleSorted(alice, bob, zed);
    SortedUnique(prefix, r, [alice, bob, zed]);
    names := [r[0].nick, r[1].nick, r[2].nick];
  }

  lemma ExampleRoster(m: map<string, User>, alice: User, bob: User, zed: User)
    requires alice == User("alice", "@") && bob == User("Bob", "+") && zed == User("Zed", "")
    requires m == Put(Put(Put(map[], bob), alice), zed)
    ensures forall k :: k in m ==> Ranked(["@", "+"], m[k])
    ensures forall u :: u in m.Values <==> u in [alice, bob, zed]
  {
    ExampleKeys(alice, bob, zed);
    var m1 := Put(map[], bob);
    assert m1 == map["bob" := bob];
    var m2 := Put(m1, alice);
    assert m2 == map["bob" := bob, "alice" := alice];
    assert m == map["bob" := bob, "alice" := alice, "zed" := zed];
    assert m.Values == {alice, bob, zed};
    assert LastIndexOf(["@", "+"], "@") == 0 && LastIndexOf(["@", "+"], "+") == 1;
  }

  lemma ExampleKeys(alice: User, bob: User, zed: User)
    requires alice == User("alice", "@") && bob == User("Bob", "+") && zed == User("Zed", "")
    ensures Key(bob) == "bob" && Key(alice) == "alice" && Key(zed) == "zed"
  {
    assert Lower("Bob") == "bob" && Lower("alice") == "alice" && Lower("Zed") == "zed";
  }

  lemma ExampleSorted(alice: User, bob: User, zed: User)
    requires alice == User("alice", "@") && bob == User("Bob", "+") && zed == User("Zed", "")
    ensures Sorted(["@", "+"], [alice, bob, zed])
  {
    var prefix := ["@", "+"];
    assert LastIndexOf(prefix, "@") == 0 && LastIndexOf(prefix, "+") == 1;
    assert Before(prefix, alice, bob) && Before(prefix, alice, zed) && Before(prefix, bob, zed);
    var s := [alice, bob, zed];
    forall i, j | 0 <= i < j < |s| ensures Before(prefix, s[i], s[j]) {
    }
  }
}
