/** The channel's member list: users keyed by their lower-cased nick, and
    the order in which the list is shown (mode priority, then nick). */
module Roster {
  import opened Options
  import opened Text

  /** A member: `mode` is the single prefix symbol (`@`, `+`, ...) or "". */
  datatype User = User(nick: string, mode: string)

  /** The roster key of a user. */
  function Key(u: User): string
  {
    Lower(u.nick)
  }

  /** Every entry sits under the folded form of its own nick. */
  ghost predicate Keyed(users: map<string, User>)
  {
    forall k :: k in users ==> k == Key(users[k])
  }

  /** The member stored under the folded form of `nick`, if any. */
  function Find(users: map<string, User>, nick: string): (r: Option<User>)
    ensures r.Some? <==> Lower(nick) in users
    ensures r.Some? ==> r.value == users[Lower(nick)]
    ensures r.Some? && Keyed(users) ==> Key(r.value) == Lower(nick)
  {
    if Lower(nick) in users then Some(users[Lower(nick)]) else None
  }

  /** Stores the user under its folded nick: it is found under
      every spelling of its nick, and every other entry is kept. */
  function Put(users: map<string, User>, u: User): (r: map<string, User>)
    ensures r.Keys == users.Keys + {Key(u)}
    ensures forall n :: Lower(n) == Key(u) ==> Find(r, n) == Some(u)
    ensures forall n :: Lower(n) != Key(u) ==> Find(r, n) == Find(users, n)
    ensures Keyed(users) ==> Keyed(r)
  {
    users[Key(u) := u]
  }

  /** Deletes the entry under the user's folded nick: only that key goes. */
  function Remove(users: map<string, User>, u: User): (r: map<string, User>)
    ensures r.Keys == users.Keys - {Key(u)}
    ensures forall k :: k in r ==> r[k] == users[k]
    ensures forall n :: Lower(n) == Key(u) ==> Find(r, n) == None
    ensures Keyed(users) ==> Keyed(r)
  {
    users - {Key(u)}
  }

  /** The stored user, or a placeholder carrying the nick as given and no
      mode. */
  function GetOrPlaceholder(users: map<string, User>, nick: string): (r: User)
    ensures Lower(nick) in users ==> r == users[Lower(nick)]
    ensures Lower(nick) !in users ==> r == User(nick, "")
    ensures Keyed(users) ==> Lower(r.nick) == Lower(nick)
  {
    match Find(users, nick)
    case Some(u) => u
    case None => User(nick, "")
  }

  /** The last index of `x` in `s`, or -1; later PREFIX entries overwrite
      earlier ones in the priority table. */
  function LastIndexOf(s: seq<string>, x: string): (r: int)
    ensures -1 <= r < |s|
    ensures r == -1 <==> x !in s
    ensures r >= 0 ==> s[r] == x && forall j :: r < j < |s| ==> s[j] != x
  {
    if |s| == 0 then -1
    else if s[|s| - 1] == x then |s| - 1
    else LastIndexOf(s[..|s| - 1], x)
  }

  /** The priority table of `getSortedUsers`: the PREFIX index of the mode,
      and 99 for no mode. */
  function Priority(prefix: seq<string>, mode: string): int
  {
    if mode == "" then 99 else LastIndexOf(prefix, mode)
  }

  /** A member the comparator can place: its mode has a priority, and no
      other mode shares it (a mode at index 99 would tie with no mode). */
  predicate Ranked(prefix: seq<string>, u: User)
  {
    u.mode == "" || (u.mode in prefix && LastIndexOf(prefix, u.mode) != 99)
  }

  /** The comparator of `getSortedUsers` returns a negative number:
      same mode compares folded nicks, otherwise the priorities. */
  predicate Before(prefix: seq<string>, a: User, b: User)
  {
    if a.mode == b.mode then LexLess(Key(a), Key(b))
    else Priority(prefix, a.mode) < Priority(prefix, b.mode)
  }

  lemma BeforeIrreflexive(prefix: seq<string>, a: User)
    ensures !Before(prefix, a, a)
  {
    LexLessIrreflexive(Key(a));
  }

  lemma BeforeAsymmetric(prefix: seq<string>, a: User, b: User)
    requires Before(prefix, a, b)
    ensures !Before(prefix, b, a)
  {
    if a.mode == b.mode {
      LexLessAsymmetric(Key(a), Key(b));
    }
  }

  lemma BeforeTransitive(prefix: seq<string>, a: User, b: User, c: User)
    requires Before(prefix, a, b) && Before(prefix, b, c)
    ensures Before(prefix, a, c)
  {
    if a.mode == b.mode && b.mode == c.mode {
      LexLessTransitive(Key(a), Key(b), Key(c));
    }
  }

  /** Two ranked members with different keys are always ordered one way. */
  lemma BeforeTotal(prefix: seq<string>, a: User, b: User)
    requires Ranked(prefix, a) && Ranked(prefix, b)
    requires Key(a) != Key(b)
    ensures Before(prefix, a, b) || Before(prefix, b, a)
  {
    if a.mode == b.mode {
      LexLessTotal(Key(a), Key(b));
    } else if a.mode != "" && b.mode != "" {
      var i, j := LastIndexOf(prefix, a.mode), LastIndexOf(prefix, b.mode);
      assert prefix[i] == a.mode && prefix[j] == b.mode;
    }
  }

  /** Strictly ordered by the comparator, so also free of duplicates. */
  ghost predicate Sorted(prefix: seq<string>, s: seq<User>)
  {
    forall i, j :: 0 <= i < j < |s| ==> Before(prefix, s[i], s[j])
  }

  /** Places `u` in front of the first member it sorts before. */
  function Insert(prefix: seq<string>, s: seq<User>, u: User): (r: seq<User>)
    ensures multiset(r) == multiset(s) + multiset{u}
  {
    if |s| == 0 then [u]
    else if Before(prefix, u, s[0]) then [u] + s
    else
      assert s == [s[0]] + s[1..];
      [s[0]] + Insert(prefix, s[1..], u)
  }

  lemma {:induction false} InsertSorted(prefix: seq<string>, s: seq<User>, u: User)
    requires Sorted(prefix, s)
    requires Ranked(prefix, u) && forall i :: 0 <= i < |s| ==> Ranked(prefix, s[i])
    requires forall i :: 0 <= i < |s| ==> Key(s[i]) != Key(u)
    ensures Sorted(prefix, Insert(prefix, s, u))
  {
    if |s| == 0 {
    } else if Before(prefix, u, s[0]) {
      forall j | 0 <= j < |s| ensures Before(prefix, u, s[j]) {
        if j > 0 {
          BeforeTransitive(prefix, u, s[0], s[j]);
        }
      }
      ConsSorted(prefix, u, s);
    } else {
      BeforeTotal(prefix, u, s[0]);
      var t := s[1..];
      InsertSorted(prefix, t, u);
      var rest := Insert(prefix, t, u);
      forall j | 0 <= j < |rest| ensures Before(prefix, s[0], rest[j]) {
        assert rest[j] in multiset(rest);
        assert rest[j] in multiset(t) || rest[j] == u;
      }
      ConsSorted(prefix, s[0], rest);
    }
  }

  /** A head that sorts before every member of a sorted tail gives a
      sorted list. */
  lemma ConsSorted(prefix: seq<string>, h: User, s: seq<User>)
    requires Sorted(prefix, s)
    requires forall j :: 0 <= j < |s| ==> Before(prefix, h, s[j])
    ensures Sorted(prefix, [h] + s)
  {
    var r := [h] + s;
    forall i, j | 0 <= i < j < |r| ensures Before(prefix, r[i], r[j]) {
      if i == 0 {
        assert r[j] == s[j - 1];
      } else {
        assert r[i] == s[i - 1] && r[j] == s[j - 1];
      }
    }
  }

  /** The comparator admits only one order: two sorted lists of the same
      members are the same list. */
  lemma {:induction false} SortedUnique(prefix: seq<string>, s: seq<User>, t: seq<User>)
    requires Sorted(prefix, s) && Sorted(prefix, t)
    requires forall u :: u in s <==> u in t
    ensures s == t
    decreases |s|
  {
    if |s| > 0 {
      assert s[0] in t;
    }
    if |t| > 0 {
      assert t[0] in s;
    }
    if |s| > 0 && |t| > 0 {
      if s[0] != t[0] {
        assert s[0] in t;
        var j :| 0 <= j < |t| && t[j] == s[0];
        assert t[0] in s;
        var i :| 0 <= i < |s| && s[i] == t[0];
        assert Before(prefix, t[0], s[0]);
        assert Before(prefix, s[0], t[0]);
        BeforeAsymmetric(prefix, s[0], t[0]);
        assert false;
      }
      forall u ensures u in s[1..] <==> u in t[1..] {
        if u in s[1..] { TailMember(prefix, s, t, u); }
        if u in t[1..] { TailMember(prefix, t, s, u); }
      }
      SortedUnique(prefix, s[1..], t[1..]);
      assert s == [s[0]] + s[1..] && t == [t[0]] + t[1..];
    }
  }

  /** In two sorted lists with the same members and the same head, a member
      of one tail is a member of the other. */
  lemma TailMember(prefix: seq<string>, s: seq<User>, t: seq<User>, u: User)
    requires Sorted(prefix, s) && Sorted(prefix, t)
    requires forall x :: x in s <==> x in t
    requires |s| > 0 && |t| > 0 && s[0] == t[0]
    requires u in s[1..]
    ensures u in t[1..]
  {
    var i :| 0 <= i < |s[1..]| && s[1..][i] == u;
    assert Before(prefix, s[0], u);
    BeforeIrreflexive(prefix, u);
    assert u in t;
    var k :| 0 <= k < |t| && t[k] == u;
    assert k != 0;
    assert t[1..][k - 1] == u;
  }
}
