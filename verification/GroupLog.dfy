// The postbox's side of one encrypted group: an append-only log in which the entry at index i
// carries the sequence number i + 1, and the two facts the log is sequenced by (the epoch in
// force before each entry, and the messages a member device is owed).
module GroupLog {

  type DeviceId = nat

  // A sequenced entry. `epoch` is the epoch the sender built it in.
  datatype Item =
    | Commit(sender: DeviceId, id: nat, epoch: nat, adds: set<DeviceId>, removes: set<DeviceId>)
    | App(sender: DeviceId, cmid: nat, epoch: nat)
    | Notice

  // Number of commits among the first n entries: the epoch in force once they are sequenced.
  function EpochAt(log: seq<Item>, n: nat): nat
    requires n <= |log|
  {
    if n == 0 then 0 else EpochAt(log, n - 1) + (if log[n - 1].Commit? then 1 else 0)
  }

  function Epoch(log: seq<Item>): nat {
    EpochAt(log, |log|)
  }

  // The sequencing rule: commits and messages are accepted only at the epoch in force.
  ghost predicate Sequenced(log: seq<Item>) {
    forall i :: 0 <= i < |log| && !log[i].Notice? ==> log[i].epoch == EpochAt(log, i)
  }

  predicate ForeignApp(log: seq<Item>, me: DeviceId, i: nat)
    requires i < |log|
  {
    log[i].App? && log[i].sender != me
  }

  predicate OwnCommit(log: seq<Item>, me: DeviceId, i: nat)
    requires i < |log|
  {
    log[i].Commit? && log[i].sender == me
  }

  // One application message as the MLS device consumed it: its sequence number and the epoch the
  // device was at.
  datatype Handed = Handed(seqno: nat, epoch: nat)

  // What a device that joined at `from` and has read to `to` must have consumed: every message of
  // another device in between, once, in order, at the epoch in force, except those that were
  // already deleted when it read them.
  function Deliveries(log: seq<Item>, me: DeviceId, from: nat, to: nat, gone: set<nat>): seq<Handed>
    requires to <= |log|
  {
    if to <= from then []
    else Deliveries(log, me, from, to - 1, gone)
         + (if ForeignApp(log, me, to - 1) && to !in gone then [Handed(to, EpochAt(log, to - 1))] else [])
  }

  ghost predicate Ascending(d: seq<Handed>) {
    forall j, k :: 0 <= j < k < |d| ==> d[j].seqno < d[k].seqno
  }

  lemma {:induction false} EpochAtAppend(log: seq<Item>, x: Item, n: nat)
    requires n <= |log|
    ensures EpochAt(log + [x], n) == EpochAt(log, n)
  {
    if n > 0 {
      EpochAtAppend(log, x, n - 1);
    }
  }

  lemma {:induction false} EpochAtMonotone(log: seq<Item>, m: nat, n: nat)
    requires m <= n <= |log|
    ensures EpochAt(log, m) <= EpochAt(log, n)
  {
    if m < n {
      EpochAtMonotone(log, m, n - 1);
    }
  }

  // Two positions in the same epoch have no commit between them.
  lemma {:induction false} SameEpochNoCommit(log: seq<Item>, m: nat, n: nat)
    requires m <= n <= |log| && EpochAt(log, m) == EpochAt(log, n)
    ensures forall i :: m <= i < n ==> !log[i].Commit?
  {
    if m < n {
      EpochAtMonotone(log, m, n - 1);
      SameEpochNoCommit(log, m, n - 1);
    }
  }

  lemma {:induction false} NoCommitSameEpoch(log: seq<Item>, m: nat, n: nat)
    requires m <= n <= |log|
    requires forall i :: m <= i < n ==> !log[i].Commit?
    ensures EpochAt(log, m) == EpochAt(log, n)
  {
    if m < n {
      NoCommitSameEpoch(log, m, n - 1);
    }
  }

  lemma {:induction false} DeliveriesAppend(log: seq<Item>, x: Item, me: DeviceId, from: nat, to: nat, gone: set<nat>)
    requires to <= |log|
    ensures Deliveries(log + [x], me, from, to, gone) == Deliveries(log, me, from, to, gone)
  {
    if from < to {
      DeliveriesAppend(log, x, me, from, to - 1, gone);
      EpochAtAppend(log, x, to - 1);
    }
  }

  // A message past the range cannot matter for it.
  lemma {:induction false} DeliveriesIgnoreLater(log: seq<Item>, me: DeviceId, from: nat, to: nat, gone: set<nat>, q: nat)
    requires to <= |log| && to < q
    ensures Deliveries(log, me, from, to, gone + {q}) == Deliveries(log, me, from, to, gone)
  {
    if from < to {
      DeliveriesIgnoreLater(log, me, from, to - 1, gone, q);
    }
  }

  lemma {:induction false} DeliveriesSkip(log: seq<Item>, me: DeviceId, from: nat, m: nat, n: nat, gone: set<nat>)
    requires from <= m <= n <= |log|
    ensures |Deliveries(log, me, from, n, gone)| >= |Deliveries(log, me, from, m, gone)|
    ensures (forall i :: m <= i < n ==> !ForeignApp(log, me, i)) ==>
              Deliveries(log, me, from, n, gone) == Deliveries(log, me, from, m, gone)
    ensures (exists i :: m <= i < n && ForeignApp(log, me, i) && i + 1 !in gone) ==>
              |Deliveries(log, me, from, n, gone)| > |Deliveries(log, me, from, m, gone)|
  {
    if m < n {
      DeliveriesSkip(log, me, from, m, n - 1, gone);
    }
  }

  lemma {:induction false} SequencedAppend(log: seq<Item>, x: Item)
    requires Sequenced(log) && (x.Notice? || x.epoch == Epoch(log))
    ensures Sequenced(log + [x])
    ensures Epoch(log + [x]) == Epoch(log) + (if x.Commit? then 1 else 0)
  {
    var grown := log + [x];
    forall i | 0 <= i <= |log| ensures EpochAt(grown, i) == EpochAt(log, i) {
      EpochAtAppend(log, x, i);
    }
  }

  // Deliveries is the whole story: a sequence number appears exactly when it names a surviving
  // foreign message in the range, at the epoch it was encrypted in, and the list strictly ascends
  // (so no message appears twice).
  lemma {:induction false} DeliveriesMeaning(log: seq<Item>, me: DeviceId, from: nat, to: nat, gone: set<nat>)
    requires from <= to <= |log| && Sequenced(log)
    ensures forall h :: h in Deliveries(log, me, from, to, gone) <==>
              && from < h.seqno <= to && ForeignApp(log, me, h.seqno - 1) && h.seqno !in gone
              && h.epoch == log[h.seqno - 1].epoch
    ensures Ascending(Deliveries(log, me, from, to, gone))
  {
    if from < to {
      DeliveriesMeaning(log, me, from, to - 1, gone);
      var d0 := Deliveries(log, me, from, to - 1, gone);
      var d := Deliveries(log, me, from, to, gone);
      forall j, k | 0 <= j < k < |d| ensures d[j].seqno < d[k].seqno {
        assert d0[j] in d0 && d[j] == d0[j];
        assert k < |d0| ==> d[k] == d0[k];
      }
    }
  }
}
