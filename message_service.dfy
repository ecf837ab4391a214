/**
 * The message service: an append-only log of chat messages, the registry of
 * live connections (identity -> channel) used to push new messages, and the
 * two read queries over the log, history between two users and the
 * per-contact conversation summary.
 *
 * The clock is a natural number supplied by the caller of `Send`; a channel
 * is an abstract identifier, and every frame pushed through one is recorded
 * in the store's `deliveries` list.
 */
module MessageService {
  import opened Sorting

  type Identity = string
  type ChannelId = nat

  /** One row of the `messages` table. */
  datatype Message = Message(id: nat, sender: Identity, receiver: Identity, content: string, timestamp: nat)

  /** The live notification pushed to a connected receiver. */
  datatype Frame = Frame(sender: Identity, content: string, timestamp: nat)

  /** The frame `send` pushes for a stored message: its sender, content and timestamp. */
  function FrameOf(m: Message): Frame {
    Frame(m.sender, m.content, m.timestamp)
  }

  /** A frame written to a channel. */
  datatype Delivery = Delivery(channel: ChannelId, frame: Frame)

  /** The HTTP answer of `send`: `{"status": "ok"}`, or a server error. */
  datatype Status = StatusOk | InternalServerError

  /** One row of the conversations query: the other party and the latest timestamp. */
  datatype Summary = Summary(contact: Identity, lastTime: nat)

  // ---------------------------------------------------------------------
  // History
  // ---------------------------------------------------------------------

  /** The history filter: `m` goes from u1 to u2 or from u2 to u1. */
  predicate IsBetween(m: Message, u1: Identity, u2: Identity) {
    (m.sender == u1 && m.receiver == u2) || (m.sender == u2 && m.receiver == u1)
  }

  /** The messages of `log` that pass the history filter, in log order. */
  function Between(log: seq<Message>, u1: Identity, u2: Identity): seq<Message> {
    if log == [] then []
    else
      var rest := Between(log[..|log| - 1], u1, u2);
      if IsBetween(log[|log| - 1], u1, u2) then rest + [log[|log| - 1]] else rest
  }

  function TimestampKey(m: Message): int { m.timestamp }

  /** `GET /messages/history/{user1}/{user2}`: the filtered messages ordered by timestamp. */
  function History(log: seq<Message>, u1: Identity, u2: Identity): seq<Message> {
    SortBy(Between(log, u1, u2), TimestampKey)
  }

  lemma {:induction false} BetweenCount(log: seq<Message>, u1: Identity, u2: Identity, m: Message)
    ensures multiset(Between(log, u1, u2))[m] == if IsBetween(m, u1, u2) then multiset(log)[m] else 0
  {
    if log != [] {
      var init, last := log[..|log| - 1], log[|log| - 1];
      assert log == init + [last];
      BetweenCount(init, u1, u2, m);
    }
  }

  /** History holds every logged message between the two users, as often as it is logged, and nothing else. */
  lemma HistoryExactly(log: seq<Message>, u1: Identity, u2: Identity, m: Message)
    ensures multiset(History(log, u1, u2))[m] == if IsBetween(m, u1, u2) then multiset(log)[m] else 0
    ensures m in History(log, u1, u2) <==> m in log && IsBetween(m, u1, u2)
  {
    BetweenCount(log, u1, u2, m);
    assert m in History(log, u1, u2) <==> multiset(History(log, u1, u2))[m] > 0;
  }

  lemma {:induction false} BetweenSymmetric(log: seq<Message>, u1: Identity, u2: Identity)
    ensures Between(log, u1, u2) == Between(log, u2, u1)
  {
    if log != [] {
      BetweenSymmetric(log[..|log| - 1], u1, u2);
    }
  }

  /** The history query does not depend on the order of the two users. */
  lemma HistorySymmetric(log: seq<Message>, u1: Identity, u2: Identity)
    ensures History(log, u1, u2) == History(log, u2, u1)
  {
    BetweenSymmetric(log, u1, u2);
  }

  /** History is ordered by non-decreasing timestamp. */
  lemma HistoryOrdered(log: seq<Message>, u1: Identity, u2: Identity)
    ensures forall i, j :: 0 <= i < j < |History(log, u1, u2)| ==>
      History(log, u1, u2)[i].timestamp <= History(log, u1, u2)[j].timestamp
  {
    SortBySorted(Between(log, u1, u2), TimestampKey);
    var h := History(log, u1, u2);
    forall i, j | 0 <= i < j < |h| ensures h[i].timestamp <= h[j].timestamp {
      assert TimestampKey(h[i]) <= TimestampKey(h[j]);
    }
  }

  /** Appending a message adds it to the history of its two parties and to no other history. */
  lemma HistoryAfterAppend(log: seq<Message>, m: Message, u1: Identity, u2: Identity)
    ensures multiset(History(log + [m], u1, u2)) ==
      multiset(History(log, u1, u2)) + if IsBetween(m, u1, u2) then multiset{m} else multiset{}
  {
    assert (log + [m])[..|log|] == log;
  }

  // ---------------------------------------------------------------------
  // Conversations
  // ---------------------------------------------------------------------

  /** The `case` expression of the query: the receiver when `user` sent `m`, otherwise the sender. */
  function Other(m: Message, user: Identity): Identity {
    if m.sender == user then m.receiver else m.sender
  }

  /** The conversations filter: `user` is a party of `m`. */
  predicate Involves(m: Message, user: Identity) {
    m.sender == user || m.receiver == user
  }

  /** `m` belongs to the group of contact `c` in `user`'s conversations. */
  predicate InThread(m: Message, user: Identity, c: Identity) {
    Involves(m, user) && Other(m, user) == c
  }

  /** `c` is a contact of `user`: some logged message involves user with c as the other party. */
  ghost predicate IsContact(log: seq<Message>, user: Identity, c: Identity) {
    exists m :: m in log && InThread(m, user, c)
  }

  /** `t` is the maximum timestamp of the messages between `user` and contact `c`. */
  ghost predicate IsLastTime(log: seq<Message>, user: Identity, c: Identity, t: nat) {
    && (exists m :: m in log && InThread(m, user, c) && m.timestamp == t)
    && (forall m :: m in log && InThread(m, user, c) ==> m.timestamp <= t)
  }

  function Max(a: nat, b: nat): nat { if a < b then b else a }

  /** Folds one message of contact `c` at time `t` into the group list. */
  function Upsert(g: seq<Summary>, c: Identity, t: nat): seq<Summary> {
    if g == [] then [Summary(c, t)]
    else if g[0].contact == c then [Summary(c, Max(g[0].lastTime, t))] + g[1..]
    else [g[0]] + Upsert(g[1..], c, t)
  }

  /** The `GROUP BY contact` with `max(timestamp)`, groups in order of first appearance. */
  function Group(log: seq<Message>, user: Identity): seq<Summary> {
    if log == [] then []
    else
      var m := log[|log| - 1];
      var g := Group(log[..|log| - 1], user);
      if Involves(m, user) then Upsert(g, Other(m, user), m.timestamp) else g
  }

  function ContactOf(s: Summary): Identity { s.contact }

  function RecencyKey(s: Summary): int { -(s.lastTime as int) }

  /** `GET /messages/conversations/{username}`: the groups ordered by descending last activity. */
  function Conversations(log: seq<Message>, user: Identity): seq<Summary> {
    SortBy(Group(log, user), RecencyKey)
  }

  ghost predicate HasContact(g: seq<Summary>, c: Identity) {
    exists s :: s in g && s.contact == c
  }

  lemma {:induction false} UpsertDistinct(g: seq<Summary>, c: Identity, t: nat)
    requires DistinctBy(g, ContactOf)
    ensures DistinctBy(Upsert(g, c, t), ContactOf)
  {
    var u := Upsert(g, c, t);
    if g != [] && g[0].contact == c {
      forall i, j | 0 <= i < j < |u| ensures ContactOf(u[i]) != ContactOf(u[j]) {
        assert ContactOf(u[i]) == ContactOf(g[i]) && ContactOf(u[j]) == ContactOf(g[j]);
      }
    } else if g != [] {
      var tl := g[1..];
      assert DistinctBy(tl, ContactOf) by {
        forall i, j | 0 <= i < j < |tl| ensures ContactOf(tl[i]) != ContactOf(tl[j]) {
          assert tl[i] == g[i + 1] && tl[j] == g[j + 1];
        }
      }
      UpsertDistinct(tl, c, t);
      UpsertOthers(tl, c, t);
      var ut := Upsert(tl, c, t);
      forall i, j | 0 <= i < j < |u| ensures ContactOf(u[i]) != ContactOf(u[j]) {
        if i == 0 {
          var y := ut[j - 1];
          assert y in ut;
          if y.contact != c {
            var k :| 0 <= k < |tl| && tl[k] == y;
            assert g[k + 1] == y;
          }
        }
      }
    }
  }

  /** Upsert keeps exactly the entries of the other contacts. */
  lemma {:induction false} UpsertOthers(g: seq<Summary>, c: Identity, t: nat)
    ensures forall s: Summary :: s.contact != c ==> (s in Upsert(g, c, t) <==> s in g)
  {
    if g != [] && g[0].contact != c {
      UpsertOthers(g[1..], c, t);
      assert g == [g[0]] + g[1..];
    } else if g != [] {
      assert g == [g[0]] + g[1..];
    }
  }

  /** After Upsert, `c` has an entry carrying the larger of its old time and `t`. */
  lemma {:induction false} UpsertEntry(g: seq<Summary>, c: Identity, t: nat)
    requires DistinctBy(g, ContactOf)
    ensures HasContact(Upsert(g, c, t), c)
    ensures forall s :: s in Upsert(g, c, t) && s.contact == c ==>
      (!HasContact(g, c) && s.lastTime == t) ||
      (exists e :: e in g && e.contact == c && s.lastTime == Max(e.lastTime, t))
  {
    var u := Upsert(g, c, t);
    assert u[0] in u;
    if g != [] && g[0].contact == c {
      forall s | s in u && s.contact == c
        ensures exists e :: e in g && e.contact == c && s.lastTime == Max(e.lastTime, t)
      {
        var k :| 0 <= k < |u| && u[k] == s;
        assert g[0] in g;
      }
    } else if g != [] {
      var tl := g[1..];
      assert g == [g[0]] + tl;
      assert DistinctBy(tl, ContactOf) by {
        forall i, j | 0 <= i < j < |tl| ensures ContactOf(tl[i]) != ContactOf(tl[j]) {
          assert tl[i] == g[i + 1] && tl[j] == g[j + 1];
        }
      }
      UpsertEntry(tl, c, t);
      var ut := Upsert(tl, c, t);
      var w :| w in ut && w.contact == c;
      assert w in u;
      forall s | s in u && s.contact == c
        ensures (!HasContact(g, c) && s.lastTime == t) ||
          (exists e :: e in g && e.contact == c && s.lastTime == Max(e.lastTime, t))
      {
        assert s in ut;
        if HasContact(tl, c) {
          var e :| e in tl && e.contact == c && s.lastTime == Max(e.lastTime, t);
          assert e in g;
        } else {
          forall e | e in g ensures e.contact != c {
            if e != g[0] { assert e in tl; }
          }
        }
      }
    }
  }

  /** What the group list says about the log: one entry per contact, each with its maximum timestamp. */
  ghost predicate GroupInv(g: seq<Summary>, log: seq<Message>, user: Identity) {
    && DistinctBy(g, ContactOf)
    && (forall s :: s in g ==> IsLastTime(log, user, s.contact, s.lastTime))
    && (forall m :: m in log && Involves(m, user) ==> HasContact(g, Other(m, user)))
  }

  lemma LastTimeOfAppend(log: seq<Message>, m: Message, user: Identity, c: Identity, t: nat)
    requires IsLastTime(log, user, c, t) || (!IsContact(log, user, c) && InThread(m, user, c) && t == m.timestamp)
    requires InThread(m, user, c) ==> m.timestamp <= t
    ensures IsLastTime(log + [m], user, c, t)
  {
    if IsLastTime(log, user, c, t) {
      var w :| w in log && InThread(w, user, c) && w.timestamp == t;
      assert w in log + [m];
    } else {
      assert m in log + [m];
    }
  }

  lemma {:induction false} GroupCorrect(log: seq<Message>, user: Identity)
    ensures GroupInv(Group(log, user), log, user)
  {
    if log != [] {
      var init, m := log[..|log| - 1], log[|log| - 1];
      assert log == init + [m];
      GroupCorrect(init, user);
      var g := Group(init, user);
      if Involves(m, user) {
        var c := Other(m, user);
        var u := Upsert(g, c, m.timestamp);
        UpsertDistinct(g, c, m.timestamp);
        UpsertOthers(g, c, m.timestamp);
        UpsertEntry(g, c, m.timestamp);
        forall s | s in u ensures IsLastTime(log, user, s.contact, s.lastTime) {
          if s.contact != c {
            LastTimeOfAppend(init, m, user, s.contact, s.lastTime);
          } else if HasContact(g, c) {
            var e :| e in g && e.contact == c && s.lastTime == Max(e.lastTime, m.timestamp);
            assert IsLastTime(init, user, c, e.lastTime);
            if e.lastTime < m.timestamp {
              LastTimeOfAppendMax(init, m, user, c, e.lastTime);
            } else {
              LastTimeOfAppend(init, m, user, c, s.lastTime);
            }
          } else {
            assert !IsContact(init, user, c);
            LastTimeOfAppend(init, m, user, c, s.lastTime);
          }
        }
        forall x | x in log && Involves(x, user) ensures HasContact(u, Other(x, user)) {
          if x != m {
            assert x in init;
            var s :| s in g && s.contact == Other(x, user);
            if s.contact != c { assert s in u; }
          }
        }
      } else {
        forall s | s in g ensures IsLastTime(log, user, s.contact, s.lastTime) {
          LastTimeOfAppend(init, m, user, s.contact, s.lastTime);
        }
      }
    }
  }

  lemma LastTimeOfAppendMax(log: seq<Message>, m: Message, user: Identity, c: Identity, t: nat)
    requires IsLastTime(log, user, c, t) && InThread(m, user, c) && t < m.timestamp
    ensures IsLastTime(log + [m], user, c, m.timestamp)
  {
    assert m in log + [m];
  }

  /** A contact is listed exactly when some logged message has `user` as one party and it as the other. */
  lemma ConversationsContacts(log: seq<Message>, user: Identity, c: Identity)
    ensures HasContact(Conversations(log, user), c) <==> IsContact(log, user, c)
  {
    var g := Group(log, user);
    GroupCorrect(log, user);
    var r := Conversations(log, user);
    if HasContact(r, c) {
      var s :| s in r && s.contact == c;
      assert s in multiset(r);
      assert s in g;
      var w :| w in log && InThread(w, user, c) && w.timestamp == s.lastTime;
    }
    if IsContact(log, user, c) {
      var w :| w in log && InThread(w, user, c);
      var s :| s in g && s.contact == c;
      assert s in multiset(g);
      assert s in r;
    }
  }

  /** Every listed time is the maximum timestamp of the messages with that contact. */
  lemma ConversationsLastTime(log: seq<Message>, user: Identity)
    ensures forall s :: s in Conversations(log, user) ==> IsLastTime(log, user, s.contact, s.lastTime)
  {
    GroupCorrect(log, user);
    forall s | s in Conversations(log, user) ensures IsLastTime(log, user, s.contact, s.lastTime) {
      assert s in multiset(Conversations(log, user));
      assert s in Group(log, user);
    }
  }

  /** No contact is listed twice. */
  lemma ConversationsDistinct(log: seq<Message>, user: Identity)
    ensures forall i, j :: 0 <= i < j < |Conversations(log, user)| ==>
      Conversations(log, user)[i].contact != Conversations(log, user)[j].contact
  {
    GroupCorrect(log, user);
    SortByDistinct(Group(log, user), RecencyKey, ContactOf);
    var r := Conversations(log, user);
    forall i, j | 0 <= i < j < |r| ensures r[i].contact != r[j].contact {
      assert ContactOf(r[i]) != ContactOf(r[j]);
    }
  }

  /** The list is ordered by non-increasing last activity. */
  lemma ConversationsOrdered(log: seq<Message>, user: Identity)
    ensures forall i, j :: 0 <= i < j < |Conversations(log, user)| ==>
      Conversations(log, user)[i].lastTime >= Conversations(log, user)[j].lastTime
  {
    SortBySorted(Group(log, user), RecencyKey);
    var r := Conversations(log, user);
    forall i, j | 0 <= i < j < |r| ensures r[i].lastTime >= r[j].lastTime {
      assert RecencyKey(r[i]) <= RecencyKey(r[j]);
    }
  }

  /** A talks with B at t1, then C writes to A at t2 > t1: A's list is C first, then B. */
  lemma ConversationsMostRecentFirst(a: Identity, b: Identity, c: Identity, x: string, y: string, t1: nat, t2: nat)
    requires a != b && a != c && b != c && t1 < t2
    ensures Conversations([Message(1, a, b, x, t1), Message(2, c, a, y, t2)], a) ==
      [Summary(c, t2), Summary(b, t1)]
  {
    var log := [Message(1, a, b, x, t1), Message(2, c, a, y, t2)];
    assert log[..1] == [log[0]];
    assert log[..1][..0] == [];
    assert Group(log[..1], a) == Upsert([], b, t1) == [Summary(b, t1)];
    assert Group(log, a) == Upsert([Summary(b, t1)], c, t2);
    assert Upsert([Summary(b, t1)], c, t2) == [Summary(b, t1)] + Upsert([], c, t2);
  }

  // ---------------------------------------------------------------------
  // The store: the log, the live registry and the pushed frames
  // ---------------------------------------------------------------------

  class MessageStore {
    /** The `messages` table, in insertion order. */
    var log: seq<Message>
    /** The `connections` dict: the live channel of each connected identity. */
    var connections: map<Identity, ChannelId>
    /** Every frame pushed by `send`, in order. */
    var deliveries: seq<Delivery>

    /** Ids are assigned 1, 2, 3, ... in insertion order and rows are never removed. */
    ghost predicate Valid()
      reads this
    {
      forall i :: 0 <= i < |log| ==> log[i].id == i + 1
    }

    constructor ()
      ensures Valid()
      ensures log == [] && connections == map[] && deliveries == []
    {
      log := [];
      connections := map[];
      deliveries := [];
    }

    /**
     * `POST /messages/send`. The row is committed first; then, if the receiver
     * is connected, one frame goes to its channel. `pushFails` stands for the
     * channel's `send_json` raising: the exception escapes the route, which
     * answers with a server error although the message stays logged.
     */
    method Send(sender: Identity, receiver: Identity, content: string, now: nat, pushFails: bool)
      returns (status: Status)
      requires Valid()
      modifies this
      ensures Valid()
      ensures log == old(log) + [Message(|old(log)| + 1, sender, receiver, content, now)]
      ensures connections == old(connections)
      ensures deliveries ==
        if receiver in connections && !pushFails
        then old(deliveries) + [Delivery(connections[receiver], FrameOf(log[|log| - 1]))]
        else old(deliveries)
      ensures status == if receiver in connections && pushFails then InternalServerError else StatusOk
    {
      var message := Message(|log| + 1, sender, receiver, content, now);
      log := log + [message];
      status := StatusOk;
      if receiver in connections {
        if pushFails {
          status := InternalServerError;
        } else {
          deliveries := deliveries + [Delivery(connections[receiver], Frame(sender, content, message.timestamp))];
        }
      }
    }

    /** The accept of `/ws/{username}`: the new channel replaces any previous one. */
    method Connect(username: Identity, channel: ChannelId)
      requires Valid()
      modifies this
      ensures Valid()
      ensures connections == old(connections)[username := channel]
      ensures log == old(log) && deliveries == old(deliveries)
    {
      connections := connections[username := channel];
    }

    /**
     * The receive loop of `/ws/{username}` failing: the entry for `username`
     * is popped, if there is one, whichever channel it holds.
     */
    method ChannelFailed(username: Identity)
      requires Valid()
      modifies this
      ensures Valid()
      ensures connections == old(connections) - {username}
      ensures log == old(log) && deliveries == old(deliveries)
    {
      connections := connections - {username};
    }
  }

  /**
   * A user connects twice; the first channel then fails. Its handler pops the
   * entry for the identity, which is the second, still open channel, so a
   * message sent afterwards is logged but pushed nowhere.
   */
  method StaleChannelFailure(u: Identity, sender: Identity, first: ChannelId, second: ChannelId, now: nat)
    returns (registered: bool, pushed: seq<Delivery>, logged: seq<Message>)
    ensures !registered && pushed == []
    ensures logged == [Message(1, sender, u, "hi", now)]
  {
    var store := new MessageStore();
    store.Connect(u, first);
    store.Connect(u, second);
    store.ChannelFailed(u);
    registered := u in store.connections;
    var status := store.Send(sender, u, "hi", now, false);
    pushed := store.deliveries;
    logged := store.log;
  }
}
