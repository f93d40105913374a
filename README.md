# Channel state of an IRC bouncer, in Dafny

This project models the server-side channel model of The Lounge, a
multi-user IRC bouncer (`src/models/chan.js`). A `Chan` is one joined
channel, private query, network lobby or special view. It holds:

- a bounded buffer of messages;
- a roster of members keyed by the case-folded nick;
- the unread, highlight and first-unread markers shown to the user's
  attached sessions (browser tabs, devices).

The model covers the following:

- **Push path.** A push may raise the unread counter unless some attached
  session has the channel open. It emits the message to the sessions. Outside
  public mode it then stores the message, writes through to the message
  index and the user log, trims the buffer to `maxHistory`, releases the
  previews of evicted messages, and moves the read markers.
- **Preview lifecycle.** Trimming and destruction release the cached
  thumbnails of previews. Each thumbnail is nulled in place.
- **Roster.** It covers lookup, placeholder, insert and remove under the
  case-folded nick, and the display order by mode priority, then nick.
- **Serialisation view.** It has no roster and at most the newest 100
  messages.
- **History loader.** This is the continuation that prepends a page of older
  messages.
- **Id allocation.** The process-wide id counter is modelled as an allocator
  passed to the constructor.

Modules:

- `Options`: the `Option` type and its default.
- `Text`: ASCII case folding and the lexicographic order on strings, with
  its order laws.
- `Messages`:
  - the message and preview entities;
  - the release of a thumbnail;
  - the set of previews a buffer owns;
  - the thumbnails a release hands to the cache.
- `History`:
  - the bounded buffer as pure functions: what a trim keeps and what it
    evicts, and a series of pushes;
  - the newest-n suffix;
  - the first message with a given id.
- `Roster`:
  - the roster map and its operations;
  - the mode priority, the comparator and its order laws;
  - insertion into a sorted list, and uniqueness of a sorted list.
- `Sessions`:
  - the attached sessions and the "open anywhere" predicate;
  - the network a client resolves a channel to;
  - the recorded calls to the external collaborators, in an `Effects`
    object with ghost logs.
- `Channel`: the configuration, the write-through routing rules, the id
  allocator and the `Chan` class itself.
- `Scenarios`: worked examples derived from the contracts alone.

There are four external collaborators:

- `client.emit`
- `storage.dereference`
- `messageStorage.index`
- `userLog.write`

Each call to one of them is appended to a ghost sequence of `Effects`. A
contract states exactly which calls an operation issues.

The server configuration (`public`, `maxHistory`, `prefetch` and
`prefetchStorage`) is a `Config` parameter. The `log` flag is the client's
own configuration, so it is a field of `Client`.

Three points where the code's behaviour is easy to misread; the model
follows the code:

- In public mode `pushMessage` returns before `writeUserLog` appends. The
  buffer, the first-unread marker and the highlight counter are untouched,
  and nothing is indexed or logged. Only the unread counter may still move.
- The user's own message resets `firstUnread` and `highlight` even when a
  session has the channel open.
- Logging to the user log is gated by the client's `config.log`, not by a
  server-wide flag.

## Model

| member | source | states |
|---|---|---|
| Channel.IdAllocator.Allocate | src/models/chan.js:19-23 | the allocator returns the current counter and advances it by one, and the id returned was never issued before |
| Channel.Chan.constructor | src/models/chan.js:21-34 | every attribute the caller leaves out takes its default (no messages, empty name, key and topic, type channel, zero markers, empty roster); the counter advances even when an id is supplied |
| Sessions.AnyOpen | src/models/chan.js:46-47 | true exactly when some attached session has this channel as its open channel |
| Channel.Chan.Notify | src/models/chan.js:46-53 | unread rises by exactly one iff the push raises unread or highlights and no session has the channel open; the emitted payload carries the new count in exactly that case, and no other collaborator is called |
| Channel.Chan.PushMessage | src/models/chan.js:40-86 | as Notify in every mode; in public mode buffer, first-unread and highlight are unchanged and nothing is indexed or logged; otherwise the buffer is the newest maxHistory of old buffer plus message, exactly the evicted messages' thumbnails are released (only with both prefetch flags and maxHistory above 0), no other preview may change (evicted but unreleased ones included), retained previews are untouched, and the read markers follow the self/open rules |
| Channel.Chan.StoreMessage | src/models/chan.js:61-85 | the non-public half of a push: buffer bound, write-through calls, release of exactly the evicted previews under the three flags and of no other preview, retained previews untouched, read-marker rules; nothing is emitted |
| Channel.Chan.AppendAndTrim | src/models/chan.js:61-71 | the buffer becomes the newest maxHistory of old buffer plus message, the index and log calls follow the routing rules, exactly the evicted messages' thumbnails are released when the three flags allow, no other preview may change, and retained previews are untouched |
| Channel.Chan.Splice | src/models/chan.js:64 | the removed oldest messages and the rest concatenate back to the buffer, the removed part has the requested length, and the two parts own disjoint previews |
| Channel.Chan.TrimHistory | src/models/chan.js:63-71 | the buffer becomes the newest maxHistory messages (none removed when maxHistory is negative); the evicted messages' thumbnails are released and logged in order only when the three flags allow; retained previews are untouched |
| Channel.Chan.UpdateReadMarkers | src/models/chan.js:73-85 | an own message zeroes first-unread and highlight; otherwise, if not open, first-unread takes the message id only when it was 0 and highlight rises by one iff the message highlights; if open, both are unchanged |
| History.Retained | src/models/chan.js:63-64 | the kept messages are a suffix of the input of length min(length, maxHistory) when maxHistory is non-negative, and the whole input when it is negative |
| History.Evicted | src/models/chan.js:63-64 | the evicted prefix and the retained suffix concatenate back to the input; nothing is evicted with a negative bound or an input within it |
| History.RetainedAbsorbs | src/models/chan.js:63-64 | trimming after each append gives the same buffer as appending everything and trimming once |
| History.PushAllRetains | src/models/chan.js:63-64 | after any series of non-public pushes into a buffer within the bound, the buffer is the newest maxHistory messages of the whole series, and its length is at most maxHistory |
| Messages.Released | src/models/chan.js:90-92 | a set thumbnail becomes null; an unset or empty one is left as it is; the result is never a set thumbnail |
| Messages.NothingToRelease | src/models/chan.js:88-95 | a buffer none of whose previews holds a thumbnail hands nothing to the cache |
| Channel.Chan.DereferencePreviews | src/models/chan.js:88-95 | every preview of the given messages has its thumbnail released, the cache receives exactly their set thumbnails in message order, and afterwards nothing is left to release, so a second call is a no-op |
| Channel.Chan.Destroy | src/models/chan.js:36-38 | every retained message's preview is released, whatever the configuration, and nothing is left to release |
| Channel.Chan.WriteUserLog | src/models/chan.js:143-174 | the message is appended; the index and log calls are exactly those the routing rules give for the channel's resolved network |
| Channel.IndexCallsFor | src/models/chan.js:152-162 | one index call iff the channel resolves to a network and is a channel or query and the message is a text line or action; the call carries the network uuid, channel name, time in whole seconds rounded down, type, sender and text |
| Channel.LogCallsFor | src/models/chan.js:164-173 | one log call iff the channel resolves to a network and the client has logging on; a lobby logs under the network host, any other channel under its own name |
| Text.LowerChar | src/models/chan.js:121 | upper-case ASCII letters map to their lower-case form, every other character is kept, and no upper-case letter remains |
| Text.Lower | src/models/chan.js:121 | the folded string has the same length and folds each character |
| Text.LexLessIrreflexive | src/models/chan.js:109 | no string is below itself |
| Text.LexLessAsymmetric | src/models/chan.js:109 | two strings are never each below the other |
| Text.LexLessTransitive | src/models/chan.js:109 | the string order is transitive |
| Text.LexLessTotal | src/models/chan.js:109 | of two distinct strings one is below the other |
| Roster.Find | src/models/chan.js:120-122 | a member is found iff the folded nick is a key, the member found is the one stored there, and in a keyed roster its folded nick is the folded query |
| Channel.Chan.FindUser | src/models/chan.js:120-122 | found iff the folded nick is in the roster, and then the stored member, whose folded nick matches |
| Roster.GetOrPlaceholder | src/models/chan.js:124-126 | the stored member when there is one, otherwise a new member with the given nick and no mode |
| Channel.Chan.GetUser | src/models/chan.js:124-126 | the stored member, or a placeholder with the given nick and no mode; either way its folded nick is the folded query |
| Roster.Put | src/models/chan.js:128-130 | the keys gain the folded nick; every nick folding to it finds the new member; every other lookup is unchanged; the roster stays keyed |
| Channel.Chan.SetUser | src/models/chan.js:128-130 | afterwards every nick that folds like the member's finds it, and all other lookups are as before |
| Roster.Remove | src/models/chan.js:132-134 | exactly the member's folded key is removed and every other entry is unchanged |
| Channel.Chan.RemoveUser | src/models/chan.js:132-134 | the roster loses exactly the folded key and keeps every other entry as it was |
| Roster.LastIndexOf | src/models/chan.js:99-101 | the priority table keeps a symbol's last index in the PREFIX list, or -1 when the symbol is absent |
| Roster.BeforeIrreflexive | src/models/chan.js:107-113 | no member sorts before itself |
| Roster.BeforeAsymmetric | src/models/chan.js:107-113 | two members never each sort before the other |
| Roster.BeforeTransitive | src/models/chan.js:107-113 | the comparator is transitive |
| Roster.BeforeTotal | src/models/chan.js:103-113 | of two ranked members with different folded nicks one sorts before the other |
| Roster.Insert | src/models/chan.js:105-107 | the result holds the input's members plus the new one, as a multiset |
| Roster.InsertSorted | src/models/chan.js:107-113 | inserting a ranked member with a new folded nick into a sorted list keeps it sorted |
| Roster.SortedUnique | src/models/chan.js:107-113 | two sorted lists with the same members are equal, so the display order is determined by the roster alone |
| Channel.Chan.GetSortedUsers | src/models/chan.js:97-114 | the result is sorted by mode priority (no mode last, at 99) then folded nick, holds every roster member and nothing else, each once; the channel is not changed |
| History.FirstWithId | src/models/chan.js:116-118 | the index of the first message with that id, or none when no message has it |
| Channel.Chan.FindMessage | src/models/chan.js:116-118 | the first buffered message with that id, or none exactly when no buffered message has it |
| History.Newest | src/models/chan.js:139 | a suffix of at most n messages, the whole buffer when it is shorter |
| Channel.Chan.ToJSON | src/models/chan.js:136-141 | the view has no roster and the newest min(100, length) messages as a suffix of the buffer; every other field is copied; the channel is not changed |
| Channel.Chan.LoadMessages | src/models/chan.js:179-195 | an empty page changes nothing and emits nothing; a non-empty page goes in front of the buffer, sets first-unread to the page's last id only when it was 0, and is emitted as "more" with exactly that page |
| Scenarios.ThreePushesIntoTwo | src/models/chan.js:40-86 | with maxHistory 2 and no open session, three pushes keep the last two, count three unread and leave first-unread at the first message's id although it was trimmed |
| Scenarios.PublicPush | src/models/chan.js:53-59 | in public mode a push is emitted with its unread count but not buffered, indexed or logged |
| Scenarios.DestroyTwice | src/models/chan.js:36-38 | destroying twice hands a thumbnail to the cache once and leaves it null |
| Scenarios.EvictWithoutRelease | src/models/chan.js:63-70 | with maxHistory 0 a push evicts the buffered message but keeps its thumbnail, although both prefetch flags are on |
| Scenarios.EvictWithPrefetchOff | src/models/chan.js:63-70 | with maxHistory 1 and prefetch off, the evicted message's thumbnail is kept and the buffer holds only the new message |
| Scenarios.SortExample | src/models/chan.js:97-113 | with PREFIX `@`, `+`, the operator comes first, then the voiced member, then the member without a mode, regardless of the case of their nicks |

## Left out

- `client/js/options.js` is not part of this model. It is browser UI code: DOM handlers, local storage, notifications and themes.
- `src/command-line/index.js` is not part of this model. It is process bootstrap and argument parsing.
- The promise around `loadMessages` is not modelled: the `getMessages` query and the `.catch` that logs a failure. `Chan.LoadMessages` takes the page the query delivers.
- Concurrency between a history load and a push is not modelled. The continuation runs to completion on its own.
- The collaborators' internals are represented only as recorded calls: the preview cache, the message index, the user log, and the session fan-out.
- `WriteUserLog`: the `false` / `undefined` return value is not modelled, because no caller in `chan.js` reads it.
- Dates are integer milliseconds, so `Math.floor(time / 1000)` is integer division rounding down. Dafny's division by a positive divisor rounds down for negative times too.
- The `msg.js` and `user.js` models are not part of this model. Messages and members appear here only with the fields the channel reads. A placeholder member has the mode `""`.
- `Text.LowerChar`, `Text.Lower`: case folding covers ASCII letters only. JavaScript's `toLowerCase` also folds other scripts.
- `Text.LexLess`: compares Unicode scalar values, where JavaScript compares UTF-16 code units. The two orders differ only between a character above U+FFFF and one in U+E000 to U+FFFF, which IRC nicks do not contain.
- The order between the `"msg"` emit and the index and log calls of the same push is not recorded. Each collaborator has its own log, so a contract states which calls are made, not how they interleave across collaborators.
- The network's PREFIX option is reduced to its list of mode symbols.
- `client.find` is reduced to a map from channel id to network.
- `Channel.Chan.GetSortedUsers`: requires that every member's mode is empty or a PREFIX symbol whose index is not 99. For any other mode the source comparator subtracts `undefined` and its order is not defined.
- `Channel.Chan.GetSortedUsers`: the order of `Array.prototype.sort` is replaced by insertion into a fresh list. `Roster.SortedUnique` shows that any correctly sorted result is that same list.
- `Channel.Chan.constructor`: requires that supplied messages own distinct previews and that a supplied roster is keyed by folded nick. These are the invariants the other operations rely on.
- `Channel.Chan.LoadMessages`: requires that loaded messages own previews distinct from the buffer's. The storage layer builds fresh message objects.
- `Channel.Chan.PushMessage`: requires that the pushed message's preview is not already owned by a buffered message. `Chan.Valid` keeps one owner per preview, which the in-place release relies on.
- `_.defaults` and `_.clone` are modelled only by their effect: default field values, and a view that is a fresh value.
