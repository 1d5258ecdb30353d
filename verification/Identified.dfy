/**
 * Which orders the journal knows: the broker identities of `internal/exec/ledger.go`, read as what
 * the lines say and not as the pass over them.
 */
module Identified {
  import opened Machine
  import opened Executors
  import opened Ledger
  import opened Texts

  /** Line `i` is the last send of `key` before line `n`. */
  ghost predicate LastSend(lines: seq<JLine>, n: int, key: Key, i: int) {
    && 0 <= i < n <= |lines| && lines[i].rec.SendRec? && lines[i].rec.child.key == key
    && forall j :: i < j < n ==> !(lines[j].rec.SendRec? && lines[j].rec.child.key == key)
  }

  /** Line `j` is an accepted answer that carries an order number. */
  predicate NumberedAnswer(lines: seq<JLine>, j: int) {
    && 0 <= j < |lines| && lines[j].rec.OutcomeRec?
    && lines[j].rec.outcome.status == Accepted && !NoNumber(lines[j].rec.outcome.brokerOrder)
  }

  /** Line `j` names an order: a numbered answer to the submit or amend last sent, at line `i`, under its key. */
  ghost predicate Names(lines: seq<JLine>, j: int, i: int, id: OrderDay, key: Key) {
    && NumberedAnswer(lines, j) && lines[j].rec.outcome.key == key
    && LastSend(lines, j, key, i) && lines[i].rec.child.action != Cancel
    && id == OrderDay(Normalize(lines[j].rec.outcome.brokerOrder), (lines[i].rec.atNS + KST_OFFSET_NS) / DAY_NS)
    && id.number != OrderNo("")
  }

  /** Some line before `n` names the order. */
  ghost predicate Named(lines: seq<JLine>, n: int, id: OrderDay, key: Key) {
    exists j, i :: j < n && Names(lines, j, i, id, key)
  }

  /** The orders named before line `n`, as the pass keeps them. */
  ghost predicate KeysGathered(lines: seq<JLine>, n: nat, keys: map<OrderDay, Key>) {
    && (forall id :: id in keys ==> Named(lines, n, id, keys[id]))
    && (forall id, key :: Named(lines, n, id, key) ==> id in keys && keys[id] == key)
  }

  ghost predicate SendsGathered(lines: seq<JLine>, n: nat, sends: map<Key, Record>) {
    && (forall key :: key in sends ==>
          exists i :: LastSend(lines, n, key, i) && 0 <= i < |lines| && sends[key] == lines[i].rec)
    && (forall key, i :: LastSend(lines, n, key, i) ==> key in sends && sends[key] == lines[i].rec)
  }

  /** What the pass has gathered from the first `n` lines. */
  ghost predicate Gathered(lines: seq<JLine>, n: nat, seen: Identities) {
    SendsGathered(lines, n, seen.sends) && KeysGathered(lines, n, seen.keys)
  }

  lemma OneLastSend(lines: seq<JLine>, n: int, key: Key, i: int, j: int)
    requires LastSend(lines, n, key, i) && LastSend(lines, n, key, j)
    ensures i == j
  {
  }

  /** A line that is no send of `key` leaves its last send as it was. */
  lemma LastSendMoves(lines: seq<JLine>, n: nat, key: Key, i: int)
    requires n < |lines|
    ensures LastSend(lines, n + 1, key, i) <==>
            if lines[n].rec.SendRec? && lines[n].rec.child.key == key then i == n else LastSend(lines, n, key, i)
  {
  }

  lemma NamedGrows(lines: seq<JLine>, n: nat, id: OrderDay, key: Key)
    requires n < |lines|
    ensures Named(lines, n + 1, id, key) <==> Named(lines, n, id, key) || exists i :: Names(lines, n, i, id, key)
  {
    if Named(lines, n + 1, id, key) {
      var j, i :| j < n + 1 && Names(lines, j, i, id, key);
      assert j < n || j == n;
    }
    if Named(lines, n, id, key) {
      var j, i :| j < n && Names(lines, j, i, id, key);
      assert j < n + 1;
    }
    if i :| Names(lines, n, i, id, key) {
      assert n < n + 1;
    }
  }

  lemma SendsStayGathered(lines: seq<JLine>, n: nat, seen: Identities, next: Identities)
    requires n < |lines| && SendsGathered(lines, n, seen.sends) && Identify(seen, lines[n].rec) == Some(next)
    ensures SendsGathered(lines, n + 1, next.sends)
  {
    forall key | key in next.sends
      ensures exists i :: LastSend(lines, n + 1, key, i) && 0 <= i < |lines| && next.sends[key] == lines[i].rec
    {
      if lines[n].rec.SendRec? && lines[n].rec.child.key == key {
        LastSendMoves(lines, n, key, n);
        assert LastSend(lines, n + 1, key, n);
      } else {
        assert key in seen.sends;
        var i :| LastSend(lines, n, key, i) && 0 <= i < |lines| && seen.sends[key] == lines[i].rec;
        LastSendMoves(lines, n, key, i);
      }
    }
    forall key, i | LastSend(lines, n + 1, key, i)
      ensures key in next.sends && next.sends[key] == lines[i].rec
    {
      LastSendMoves(lines, n, key, i);
    }
  }

  /** A numbered answer the pass refuses: to a child never sent, or with a number that is all zeros. */
  ghost predicate Unnamed(lines: seq<JLine>, j: int) {
    && NumberedAnswer(lines, j)
    && var o := lines[j].rec.outcome;
    && (forall i :: LastSend(lines, j, o.key, i) ==>
          lines[i].rec.child.action != Cancel && Normalize(o.brokerOrder) == OrderNo(""))
  }

  /** Two lines name one order for two keys. */
  ghost predicate Clash(lines: seq<JLine>, j: int, id: OrderDay, key: Key, other: Key) {
    j <= |lines| && key != other && Named(lines, j, id, key) && exists i :: Names(lines, j, i, id, other)
  }

  /** Line `j` is refused, given what the lines before it named. */
  ghost predicate Refused(lines: seq<JLine>, j: int) {
    0 <= j < |lines| && (Unnamed(lines, j) || exists id, key, other :: Clash(lines, j, id, key, other))
  }

  /** What line `n` does to what the pass has gathered. */
  lemma LineIsGathered(lines: seq<JLine>, n: nat, seen: Identities)
    requires n < |lines| && Gathered(lines, n, seen)
    ensures Identify(seen, lines[n].rec) == None <==> Refused(lines, n)
    ensures Identify(seen, lines[n].rec).Some? ==> Gathered(lines, n + 1, Identify(seen, lines[n].rec).value)
  {
    if NumberedAnswer(lines, n) {
      AnswerIsGathered(lines, n, seen);
    } else {
      OtherIsGathered(lines, n, seen);
    }
    if Identify(seen, lines[n].rec).Some? {
      SendsStayGathered(lines, n, seen, Identify(seen, lines[n].rec).value);
    }
  }

  lemma OtherIsGathered(lines: seq<JLine>, n: nat, seen: Identities)
    requires n < |lines| && Gathered(lines, n, seen) && !NumberedAnswer(lines, n)
    ensures Identify(seen, lines[n].rec).Some? && !Refused(lines, n)
    ensures KeysGathered(lines, n + 1, Identify(seen, lines[n].rec).value.keys)
  {
    var next := Identify(seen, lines[n].rec).value.keys;
    forall id | id in next
      ensures Named(lines, n + 1, id, next[id])
    {
      NamedGrows(lines, n, id, next[id]);
    }
    var after := n + 1;
    forall id, key | Named(lines, after, id, key)
      ensures id in next && next[id] == key
    {
      NamedGrows(lines, n, id, key);
    }
  }

  lemma AnswerIsGathered(lines: seq<JLine>, n: nat, seen: Identities)
    requires n < |lines| && Gathered(lines, n, seen) && NumberedAnswer(lines, n)
    ensures Identify(seen, lines[n].rec) == None <==> Refused(lines, n)
    ensures Identify(seen, lines[n].rec).Some? ==>
              KeysGathered(lines, n + 1, Identify(seen, lines[n].rec).value.keys)
  {
    var o := lines[n].rec.outcome;
    if i :| LastSend(lines, n, o.key, i) {
      assert seen.sends[o.key] == lines[i].rec;
      SentAnswerIsGathered(lines, n, seen, i);
    } else {
      assert o.key !in seen.sends;
    }
  }

  /** The answer at line `n` to the child sent at line `i` names its order. */
  ghost predicate NamesIts(lines: seq<JLine>, n: nat, i: int, id: OrderDay)
    requires NumberedAnswer(lines, n) && LastSend(lines, n, lines[n].rec.outcome.key, i)
  {
    && id == OrderDay(Normalize(lines[n].rec.outcome.brokerOrder), (lines[i].rec.atNS + KST_OFFSET_NS) / DAY_NS)
    && lines[i].rec.child.action != Cancel && id.number != OrderNo("")
  }

  lemma OnlyName(lines: seq<JLine>, n: nat, i: int, id: OrderDay, key: Key)
    requires NumberedAnswer(lines, n) && LastSend(lines, n, lines[n].rec.outcome.key, i)
    ensures (exists k :: Names(lines, n, k, id, key)) <==> key == lines[n].rec.outcome.key && NamesIts(lines, n, i, id)
  {
    var o := lines[n].rec.outcome;
    if k :| Names(lines, n, k, id, key) {
      OneLastSend(lines, n, o.key, i, k);
    }
    if key == o.key && NamesIts(lines, n, i, id) {
      assert Names(lines, n, i, id, o.key);
    }
  }

  lemma NewNames(lines: seq<JLine>, n: nat, i: int, id: OrderDay, key: Key)
    requires NumberedAnswer(lines, n) && LastSend(lines, n, lines[n].rec.outcome.key, i)
    ensures Named(lines, n + 1, id, key) <==>
            Named(lines, n, id, key) || (key == lines[n].rec.outcome.key && NamesIts(lines, n, i, id))
  {
    OnlyName(lines, n, i, id, key);
    NamedGrows(lines, n, id, key);
  }

  lemma SentAnswerIsGathered(lines: seq<JLine>, n: nat, seen: Identities, i: int)
    requires n < |lines| && Gathered(lines, n, seen) && NumberedAnswer(lines, n)
    requires LastSend(lines, n, lines[n].rec.outcome.key, i)
    ensures Identify(seen, lines[n].rec) == None <==> Refused(lines, n)
    ensures Identify(seen, lines[n].rec).Some? ==>
              KeysGathered(lines, n + 1, Identify(seen, lines[n].rec).value.keys)
  {
    SentAnswerRefused(lines, n, seen, i);
    if Identify(seen, lines[n].rec).Some? {
      SentAnswerKept(lines, n, seen, i);
    }
  }

  lemma SentAnswerRefused(lines: seq<JLine>, n: nat, seen: Identities, i: int)
    requires n < |lines| && KeysGathered(lines, n, seen.keys) && NumberedAnswer(lines, n)
    requires LastSend(lines, n, lines[n].rec.outcome.key, i)
    requires lines[n].rec.outcome.key in seen.sends && seen.sends[lines[n].rec.outcome.key] == lines[i].rec
    ensures Identify(seen, lines[n].rec) == None <==> Refused(lines, n)
  {
    var o := lines[n].rec.outcome;
    var id := Identity(o.brokerOrder, lines[i].rec.atNS);
    assert Unnamed(lines, n) <==> lines[i].rec.child.action != Cancel && id.number == OrderNo("") by {
      forall k | LastSend(lines, n, o.key, k)
        ensures k == i
      {
        OneLastSend(lines, n, o.key, i, k);
      }
    }
    if x, key, other :| Clash(lines, n, x, key, other) {
      OnlyName(lines, n, i, x, other);
    }
    OnlyName(lines, n, i, id, o.key);
    if NamesIts(lines, n, i, id) && id in seen.keys && seen.keys[id] != o.key {
      assert Clash(lines, n, id, seen.keys[id], o.key);
    }
  }

  lemma SentAnswerKept(lines: seq<JLine>, n: nat, seen: Identities, i: int)
    requires n < |lines| && KeysGathered(lines, n, seen.keys) && NumberedAnswer(lines, n)
    requires LastSend(lines, n, lines[n].rec.outcome.key, i)
    requires lines[n].rec.outcome.key in seen.sends && seen.sends[lines[n].rec.outcome.key] == lines[i].rec
    requires Identify(seen, lines[n].rec).Some?
    ensures KeysGathered(lines, n + 1, Identify(seen, lines[n].rec).value.keys)
  {
    var o := lines[n].rec.outcome;
    var next := Identify(seen, lines[n].rec).value.keys;
    forall id | id in next
      ensures Named(lines, n + 1, id, next[id])
    {
      NewNames(lines, n, i, id, next[id]);
    }
    var after := n + 1;
    forall id, key | Named(lines, after, id, key)
      ensures id in next && next[id] == key
    {
      NewNames(lines, n, i, id, key);
    }
  }

  /** The pass over the first `n` lines gathers what they name, unless it refuses one. */
  lemma {:induction false} PassGathers(lines: seq<JLine>, n: nat)
    requires n <= |lines|
    ensures IdentifyUpTo(lines, n) == None <==> exists j :: j < n && Refused(lines, j)
    ensures IdentifyUpTo(lines, n).Some? ==> Gathered(lines, n, IdentifyUpTo(lines, n).value)
    decreases n
  {
    if n > 0 {
      PassGathers(lines, n - 1);
      if IdentifyUpTo(lines, n - 1).Some? {
        LineIsGathered(lines, n - 1, IdentifyUpTo(lines, n - 1).value);
      }
    }
  }

  /**
   * The journal's orders are exactly those that an accepted, numbered answer to a submit or amend
   * names, by its number and the Korean day of the send; and there are none to be had exactly when
   * such an answer names nothing, or names an order that another key has.
   */
  lemma OrdersAreNamed(lines: seq<JLine>)
    ensures BrokerKeys(lines) == None <==> exists j :: Refused(lines, j)
    ensures BrokerKeys(lines).Some? ==>
              forall id, key :: id in BrokerKeys(lines).value && BrokerKeys(lines).value[id] == key
                                <==> Named(lines, |lines|, id, key)
  {
    PassGathers(lines, |lines|);
  }
}
