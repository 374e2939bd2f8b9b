/** Packets a core sends to a port are collected and handed to the card in bursts. */
module TxBatches {

  const MAX_PKT_BURST := 32

  type Packet = nat

  /** How many packets of a burst of `n` the card takes at its attempt `k`. Within every `patience` attempts it
      takes one. */
  datatype Card = Card(accepts: (nat, nat) -> nat, patience: nat) {
    ghost predicate Valid() {
      && (forall k: nat, n: nat :: accepts(k, n) <= n)
      && (forall k: nat, n: nat | n > 0 :: Takes(k, n, patience))
    }

    ghost predicate Takes(k: nat, n: nat, within: nat)
      decreases within
    {
      within > 0 && (accepts(k, n) > 0 || Takes(k + 1, n, within - 1))
    }
  }

  class CorePerPort {
    const table: array<Packet>
    var len: nat
    var attempts: nat
    var queueFull: nat
    ghost var given: seq<Packet>    // to send
    ghost var taken: seq<Packet>    // by the card

    /** What the card has taken and what is still collected are the packets given, in order. */
    ghost predicate Valid()
      reads this, table
    {
      table.Length == MAX_PKT_BURST && len < MAX_PKT_BURST && taken + table[..len] == given
    }

    constructor ()
      ensures Valid() && fresh(table) && given == [] == taken && len == 0
    {
      table := new Packet[MAX_PKT_BURST];
      len, attempts, queueFull, given, taken := 0, 0, 0, [], [];
    }

    /** One attempt to send the packets from `from` up to `n`. */
    method TxBurst(card: Card, from: nat, n: nat) returns (sent: nat)
      requires card.Valid() && from <= n <= table.Length
      modifies `attempts, `taken
      ensures attempts == old(attempts) + 1 && sent == card.accepts(old(attempts), n - from) <= n - from
      ensures taken == old(taken) + table[from..from + sent]
    {
      sent := card.accepts(attempts, n - from);
      taken := taken + table[from..from + sent];
      attempts := attempts + 1;
    }

    /** The first `n` packets collected go out; what the card does not take is offered again. */
    method SendBurst(card: Card, n: nat)
      requires card.Valid() && table.Length == MAX_PKT_BURST && 0 < n <= MAX_PKT_BURST
      modifies `attempts, `queueFull, `taken
      ensures taken == old(taken) + table[..n]
    {
      ghost var before := taken;
      var ret := TxBurst(card, 0, n);
      ghost var waits: nat := card.patience;
      while ret < n
        invariant 0 <= ret <= n
        invariant taken == before + table[..ret]
        invariant ret < n ==> card.Takes(attempts, n - ret, waits)
        decreases n - ret, waits
      {
        queueFull := queueFull + 1;
        var ret1 := TxBurst(card, ret, n);
        Extends(before, table[..], ret, ret1);
        waits := if ret1 > 0 then card.patience else waits - 1;
        ret := ret + ret1;
      }
    }

    static lemma Extends(before: seq<Packet>, all: seq<Packet>, ret: nat, more: nat)
      requires ret + more <= |all|
      ensures before + all[..ret] + all[ret..ret + more] == before + all[..ret + more]
    {
      assert all[..ret + more] == all[..ret] + all[ret..ret + more];
    }

    method SendPkt(card: Card, m: Packet)
      requires Valid() && card.Valid()
      modifies this, table
      ensures Valid() && given == old(given) + [m]
    {
      table[len] := m;
      given := given + [m];
      assert table[..len + 1] == old(table[..len]) + [m];
      if len + 1 == MAX_PKT_BURST {
        SendBurst(card, MAX_PKT_BURST);
        len := 0;
      } else {
        len := len + 1;
      }
    }

    /** After a flush the card has everything. */
    method FlushTxQueue(card: Card)
      requires Valid() && card.Valid()
      modifies this
      ensures Valid() && given == old(given) == taken && len == 0
    {
      if len > 0 {
        SendBurst(card, len);
        len := 0;
      }
    }
  }
}
