/** The conversation a user sees: the receiver's thread merged with the stored rows it does not echo. */
module Conversation {
  import opened Prelude
  import opened Chat

  datatype Message = Message(id: string, content: string, createdAt: nat)

  predicate HasMessage(ms: seq<Message>, id: string)
  {
    exists i :: 0 <= i < |ms| && ms[i].id == id
  }

  /** Rows of one user as the table returns them: exactly that user's ids, once each, oldest first. */
  ghost predicate IsSelection(rows: Rows, user: string, ids: seq<string>)
  {
    && (forall id :: id in ids <==> id in rows && rows[id].user == user)
    && (forall i, j :: 0 <= i < j < |ids| ==> ids[i] != ids[j])
    && (forall i, j :: 0 <= i < j < |ids| ==> rows[ids[i]].createdAt <= rows[ids[j]].createdAt)
  }

  function MessageOf(rows: Rows, id: string): Message
    requires id in rows
  {
    Message(id, rows[id].text, rows[id].createdAt)
  }

  /** The rows not echoed by the server, as messages. */
  function LocalMessages(rows: Rows, ids: seq<string>, server: seq<Message>): seq<Message>
    requires forall i :: 0 <= i < |ids| ==> ids[i] in rows
  {
    if ids == [] then []
    else (if HasMessage(server, ids[0]) then [] else [MessageOf(rows, ids[0])]) + LocalMessages(rows, ids[1..], server)
  }

  /** Stable sorting by creation time: a message goes after those not later than it. */
  function Insert(m: Message, sorted: seq<Message>): seq<Message>
  {
    if sorted == [] || m.createdAt < sorted[0].createdAt then [m] + sorted
    else [sorted[0]] + Insert(m, sorted[1..])
  }

  function Sort(ms: seq<Message>): seq<Message>
  {
    if ms == [] then [] else Insert(ms[|ms| - 1], Sort(ms[..|ms| - 1]))
  }

  function GetConversation(rows: Rows, ids: seq<string>, server: seq<Message>): seq<Message>
    requires forall i :: 0 <= i < |ids| ==> ids[i] in rows
  {
    Sort(server + LocalMessages(rows, ids, server))
  }

  // ---- Sorting ----

  ghost predicate Sorted(ms: seq<Message>)
  {
    forall i, j :: 0 <= i < j < |ms| ==> ms[i].createdAt <= ms[j].createdAt
  }

  lemma {:induction false} InsertPermutes(m: Message, sorted: seq<Message>)
    ensures multiset(Insert(m, sorted)) == multiset(sorted) + multiset{m}
  {
    if sorted != [] && m.createdAt >= sorted[0].createdAt {
      InsertPermutes(m, sorted[1..]);
      assert sorted == [sorted[0]] + sorted[1..];
    }
  }

  lemma SortedCons(x: Message, rest: seq<Message>)
    requires Sorted(rest) && forall i :: 0 <= i < |rest| ==> x.createdAt <= rest[i].createdAt
    ensures Sorted([x] + rest)
  {
  }

  lemma {:induction false} InsertSorts(m: Message, sorted: seq<Message>)
    requires Sorted(sorted)
    ensures Sorted(Insert(m, sorted))
  {
    if sorted == [] || m.createdAt < sorted[0].createdAt {
      SortedCons(m, sorted);
    } else {
      var rest := Insert(m, sorted[1..]);
      InsertSorts(m, sorted[1..]);
      InsertPermutes(m, sorted[1..]);
      forall i | 0 <= i < |rest| ensures sorted[0].createdAt <= rest[i].createdAt {
        assert rest[i] in multiset(rest);
        assert rest[i] == m || rest[i] in sorted[1..];
      }
      SortedCons(sorted[0], rest);
    }
  }

  lemma {:induction false} SortSorts(ms: seq<Message>)
    ensures Sorted(Sort(ms)) && multiset(Sort(ms)) == multiset(ms)
  {
    if ms != [] {
      var n := |ms| - 1;
      SortSorts(ms[..n]);
      InsertSorts(ms[n], Sort(ms[..n]));
      InsertPermutes(ms[n], Sort(ms[..n]));
      assert ms == ms[..n] + [ms[n]];
    }
  }

  // ---- How often an id is shown ----

  function Shown(ms: seq<Message>, id: string): nat
  {
    if ms == [] then 0 else Shown(ms[..|ms| - 1], id) + if ms[|ms| - 1].id == id then 1 else 0
  }

  lemma {:induction false} ShownConcat(a: seq<Message>, b: seq<Message>, id: string)
    ensures Shown(a + b, id) == Shown(a, id) + Shown(b, id)
    decreases |b|
  {
    if b == [] {
      assert a + b == a;
    } else {
      var n := |b| - 1;
      assert (a + b)[..|a| + n] == a + b[..n];
      ShownConcat(a, b[..n], id);
    }
  }

  lemma ShownCons(m: Message, ms: seq<Message>, id: string)
    ensures Shown([m] + ms, id) == (if m.id == id then 1 else 0) + Shown(ms, id)
  {
    ShownConcat([m], ms, id);
    assert [m][..0] == [];
  }

  lemma {:induction false} InsertShows(m: Message, sorted: seq<Message>, id: string)
    ensures Shown(Insert(m, sorted), id) == Shown(sorted, id) + if m.id == id then 1 else 0
  {
    if sorted == [] || m.createdAt < sorted[0].createdAt {
      ShownCons(m, sorted, id);
    } else {
      InsertShows(m, sorted[1..], id);
      ShownCons(sorted[0], Insert(m, sorted[1..]), id);
      ShownCons(sorted[0], sorted[1..], id);
      assert sorted == [sorted[0]] + sorted[1..];
    }
  }

  lemma {:induction false} SortShows(ms: seq<Message>, id: string)
    ensures Shown(Sort(ms), id) == Shown(ms, id)
  {
    if ms != [] {
      SortShows(ms[..|ms| - 1], id);
      InsertShows(ms[|ms| - 1], Sort(ms[..|ms| - 1]), id);
    }
  }

  ghost predicate UniqueIds(server: seq<Message>)
  {
    forall i, j :: 0 <= i < j < |server| ==> server[i].id != server[j].id
  }

  lemma {:induction false} ServerShows(server: seq<Message>, id: string)
    requires UniqueIds(server)
    ensures Shown(server, id) == if HasMessage(server, id) then 1 else 0
  {
    if server != [] {
      var n := |server| - 1;
      ServerShows(server[..n], id);
      if HasMessage(server[..n], id) {
        var i :| 0 <= i < n && server[..n][i].id == id;
        assert server[i].id == id;
      } else if HasMessage(server, id) {
        var i :| 0 <= i < |server| && server[i].id == id;
        assert i < n ==> server[..n][i].id == id;
      }
    }
  }

  lemma {:induction false} LocalShows(rows: Rows, ids: seq<string>, server: seq<Message>, id: string)
    requires forall i :: 0 <= i < |ids| ==> ids[i] in rows
    requires forall i, j :: 0 <= i < j < |ids| ==> ids[i] != ids[j]
    ensures Shown(LocalMessages(rows, ids, server), id) == if id in ids && !HasMessage(server, id) then 1 else 0
  {
    if ids != [] {
      var rest := LocalMessages(rows, ids[1..], server);
      LocalShows(rows, ids[1..], server, id);
      assert ids[0] !in ids[1..];
      assert ids == [ids[0]] + ids[1..];
      if HasMessage(server, ids[0]) {
        assert LocalMessages(rows, ids, server) == rest;
      } else {
        ShownCons(MessageOf(rows, ids[0]), rest, id);
      }
    }
  }

  /** The message of a selected row that the server does not have. */
  ghost predicate Unechoed(rows: Rows, ids: seq<string>, server: seq<Message>, m: Message)
  {
    && m.id in ids && m.id in rows && m.content == rows[m.id].text && m.createdAt == rows[m.id].createdAt
    && forall i :: 0 <= i < |server| ==> server[i].id != m.id
  }

  lemma NotEchoed(server: seq<Message>, id: string)
    ensures !HasMessage(server, id) <==> forall i :: 0 <= i < |server| ==> server[i].id != id
  {
  }

  lemma {:induction false} LocalCounts(rows: Rows, ids: seq<string>, server: seq<Message>, m: Message)
    requires forall i :: 0 <= i < |ids| ==> ids[i] in rows
    requires forall i, j :: 0 <= i < j < |ids| ==> ids[i] != ids[j]
    ensures multiset(LocalMessages(rows, ids, server))[m] == if Unechoed(rows, ids, server, m) then 1 else 0
  {
    hide HasMessage;
    if ids != [] {
      var rest := LocalMessages(rows, ids[1..], server);
      NotEchoed(server, ids[0]);
      LocalCounts(rows, ids[1..], server, m);
      assert ids[0] !in ids[1..];
      assert ids == [ids[0]] + ids[1..];
      assert m.id in ids <==> m.id == ids[0] || m.id in ids[1..];
      if HasMessage(server, ids[0]) {
        assert LocalMessages(rows, ids, server) == rest;
      } else {
        assert LocalMessages(rows, ids, server) == [MessageOf(rows, ids[0])] + rest;
        assert multiset([MessageOf(rows, ids[0])] + rest)[m] ==
               multiset([MessageOf(rows, ids[0])])[m] + multiset(rest)[m];
      }
    }
  }

  /**
    The result is sorted by time and holds, message by message, what the server thread holds, and once
    every selected row that the server does not echo, with its own text and time.
   */
  lemma ConversationIsSortedPermutation(rows: Rows, ids: seq<string>, server: seq<Message>, m: Message)
    requires forall i :: 0 <= i < |ids| ==> ids[i] in rows
    requires forall i, j :: 0 <= i < j < |ids| ==> ids[i] != ids[j]
    ensures Sorted(GetConversation(rows, ids, server))
    ensures multiset(GetConversation(rows, ids, server))[m] ==
            multiset(server)[m] + if Unechoed(rows, ids, server, m) then 1 else 0
  {
    SortSorts(server + LocalMessages(rows, ids, server));
    LocalCounts(rows, ids, server, m);
  }

  // ---- Messages of one instant keep their order ----

  function At(ms: seq<Message>, t: nat): seq<Message>
  {
    if ms == [] then [] else (if ms[0].createdAt == t then [ms[0]] else []) + At(ms[1..], t)
  }

  lemma AtUnfolds(ms: seq<Message>, t: nat)
    ensures At([], t) == []
    ensures ms != [] ==> At(ms, t) == (if ms[0].createdAt == t then [ms[0]] else []) + At(ms[1..], t)
  {
  }

  lemma {:induction false} AtConcat(a: seq<Message>, b: seq<Message>, t: nat)
    ensures At(a + b, t) == At(a, t) + At(b, t)
  {
    hide At;
    AtUnfolds(a, t);
    AtUnfolds(a + b, t);
    if a == [] {
      assert a + b == b;
    } else {
      assert (a + b)[1..] == a[1..] + b;
      AtConcat(a[1..], b, t);
    }
  }

  lemma {:induction false} NoneAt(ms: seq<Message>, t: nat)
    requires forall i :: 0 <= i < |ms| ==> ms[i].createdAt > t
    ensures At(ms, t) == []
  {
    if ms != [] {
      NoneAt(ms[1..], t);
    }
  }

  lemma {:induction false} InsertGoesLast(m: Message, sorted: seq<Message>, t: nat)
    requires Sorted(sorted)
    ensures At(Insert(m, sorted), t) == At(sorted, t) + At([m], t)
  {
    if sorted == [] {
      assert [m] + sorted == [m];
    } else if m.createdAt < sorted[0].createdAt {
      AtConcat([m], sorted, t);
      if m.createdAt == t {
        NoneAt(sorted, t);
      }
    } else {
      InsertGoesLast(m, sorted[1..], t);
      AtConcat([sorted[0]], Insert(m, sorted[1..]), t);
    }
  }

  lemma {:induction false} SortIsStable(ms: seq<Message>, t: nat)
    ensures At(Sort(ms), t) == At(ms, t)
  {
    if ms != [] {
      var n := |ms| - 1;
      SortIsStable(ms[..n], t);
      SortSorts(ms[..n]);
      InsertGoesLast(ms[n], Sort(ms[..n]), t);
      AtConcat(ms[..n], [ms[n]], t);
      assert ms[..n] + [ms[n]] == ms;
    }
  }

  /** At each instant the server's messages come first, in the server's order, then the local ones. */
  lemma TiesKeepTheirOrder(rows: Rows, ids: seq<string>, server: seq<Message>, t: nat)
    requires forall i :: 0 <= i < |ids| ==> ids[i] in rows
    ensures At(GetConversation(rows, ids, server), t) == At(server, t) + At(LocalMessages(rows, ids, server), t)
  {
    SortIsStable(server + LocalMessages(rows, ids, server), t);
    AtConcat(server, LocalMessages(rows, ids, server), t);
  }

  lemma ShownExactlyOnce(rows: Rows, user: string, ids: seq<string>, server: seq<Message>, id: string)
    requires IsSelection(rows, user, ids) && UniqueIds(server) && id in rows && rows[id].user == user
    ensures Shown(GetConversation(rows, ids, server), id) == 1
  {
    var local := LocalMessages(rows, ids, server);
    SortShows(server + local, id);
    ShownConcat(server, local, id);
    ServerShows(server, id);
    LocalShows(rows, ids, server, id);
  }

  /**
    From the moment a message is stored, every later conversation of its sender shows it exactly
    once, at every stage of forwarding and whatever thread (with unique ids) the server returns; while
    the server does not echo it, with the text and the time it was sent with.
   */
  lemma SentMessageIsShownOnce(acts: seq<Action>, id: string, user: string, text: string, now: nat, later: seq<Action>,
                               ids: seq<string>, server: seq<Message>)
    requires id !in Run(START, acts).rows && UniqueIds(server)
    requires IsSelection(Run(START, acts + [Send(id, user, text, now)] + later).rows, user, ids)
    ensures var shown := GetConversation(Run(START, acts + [Send(id, user, text, now)] + later).rows, ids, server);
            && Shown(shown, id) == 1
            && ((forall i :: 0 <= i < |server| ==> server[i].id != id) ==> Message(id, text, now) in shown)
  {
    var before := Run(START, acts);
    var sent := Apply(before, Send(id, user, text, now));
    RunKeepsInv(START, acts);
    RunAppend(START, acts, [Send(id, user, text, now)]);
    assert [Send(id, user, text, now)][1..] == [];
    assert Run(before, [Send(id, user, text, now)]) == sent;
    RunAppend(START, acts + [Send(id, user, text, now)], later);
    StepKeepsInv(before, Send(id, user, text, now));
    RunKeepsInv(sent, later);
    ShownExactlyOnce(Run(sent, later).rows, user, ids, server, id);
    ConversationIsSortedPermutation(Run(sent, later).rows, ids, server, Message(id, text, now));
    if forall i :: 0 <= i < |server| ==> server[i].id != id {
      assert Message(id, text, now) in multiset(GetConversation(Run(sent, later).rows, ids, server));
    }
  }
}
