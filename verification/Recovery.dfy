/** Crash recovery of the checkpoint logs (lib/recovery.c): for every object the
    newest durable checkpoint becomes its master again. */
module Recovery {

  /** A durable checkpoint of object o: its commit clock and its checkpoint clock. */
  datatype Record = Record(o: nat, wrt: nat, s: nat)

  /** Entry e of the k-th checkpoint log. */
  datatype Pos = Pos(k: nat, e: nat)

  /** The header of an original object: np_cur_act, valid in generation gen. */
  datatype Hdr = Hdr(gen: nat, cur: Pos)

  /** How much of a log recovery reads: up to the first entry of a checkpoint that
      never finished. */
  function Usable(log: seq<Record>, last: nat): (n: nat)
    ensures n <= |log|
    ensures forall e :: 0 <= e < n ==> log[e].s <= last
    ensures n < |log| ==> log[n].s > last
  {
    if log == [] || log[0].s > last then 0 else 1 + Usable(log[1..], last)
  }

  predicate Candidate(logs: seq<seq<Record>>, last: nat, o: nat, p: Pos) {
    p.k < |logs| && p.e < Usable(logs[p.k], last) && logs[p.k][p.e].o == o
  }

  function Wrt(logs: seq<seq<Record>>, p: Pos): nat {
    if p.k < |logs| && p.e < |logs[p.k]| then logs[p.k][p.e].wrt else 0
  }

  /** p is a finished checkpoint of o, and none is newer. */
  ghost predicate NewestEntry(logs: seq<seq<Record>>, last: nat, o: nat, p: Pos) {
    && Candidate(logs, last, o, p)
    && forall q :: Candidate(logs, last, o, q) ==> Wrt(logs, q) <= Wrt(logs, p)
  }

  /** Position q lies in the part already read: the first k logs and e entries. */
  predicate ReadTo(q: Pos, k: nat, e: nat) {
    q.k < k || (q.k == k && q.e < e)
  }

  ghost predicate Read(logs: seq<seq<Record>>, last: nat, o: nat, k: nat, e: nat, q: Pos) {
    Candidate(logs, last, o, q) && ReadTo(q, k, e)
  }

  /** Object o's header names the newest of its entries read so far, or is untouched. */
  ghost predicate ChosenOf(logs: seq<seq<Record>>, last: nat, gen: nat, hdr: map<nat, Hdr>, was: map<nat, Hdr>,
    k: nat, e: nat, o: nat)
  {
    if exists q :: Read(logs, last, o, k, e, q)
    then
      && o in hdr && hdr[o].gen == gen && Read(logs, last, o, k, e, hdr[o].cur)
      && forall q :: Read(logs, last, o, k, e, q) ==> Wrt(logs, q) <= Wrt(logs, hdr[o].cur)
    else (o in hdr <==> o in was) && (o in hdr ==> hdr[o] == was[o])
  }

  ghost predicate Chosen(logs: seq<seq<Record>>, last: nat, gen: nat, hdr: map<nat, Hdr>, was: map<nat, Hdr>,
    k: nat, e: nat)
  {
    forall o: nat :: ChosenOf(logs, last, gen, hdr, was, k, e, o)
  }

  lemma ChosenStep(logs: seq<seq<Record>>, last: nat, gen: nat, hdr: map<nat, Hdr>, was: map<nat, Hdr>,
    k: nat, e: nat, zh: map<nat, Hdr>)
    requires Chosen(logs, last, gen, hdr, was, k, e) && k < |logs| && e < Usable(logs[k], last)
    requires forall o :: o in was ==> was[o].gen != gen
    requires var o := logs[k][e].o;
             zh == if o !in hdr || hdr[o].gen != gen || Wrt(logs, hdr[o].cur) < logs[k][e].wrt
                   then hdr[o := Hdr(gen, Pos(k, e))] else hdr
    ensures Chosen(logs, last, gen, zh, was, k, e + 1)
  {
    var x, f := logs[k][e].o, e + 1;
    forall o: nat ensures ChosenOf(logs, last, gen, zh, was, k, f, o) {
      assert ChosenOf(logs, last, gen, hdr, was, k, e, o);
      if o != x {
        ChosenSame(logs, last, gen, hdr, was, k, e, zh, k, f, o);
      } else {
        ChosenNew(logs, last, gen, hdr, was, k, e, zh);
      }
    }
  }

  lemma ChosenSame(logs: seq<seq<Record>>, last: nat, gen: nat, hdr: map<nat, Hdr>, was: map<nat, Hdr>,
    k: nat, e: nat, zh: map<nat, Hdr>, j: nat, f: nat, o: nat)
    requires ChosenOf(logs, last, gen, hdr, was, k, e, o)
    requires (o in zh <==> o in hdr) && (o in hdr ==> zh[o] == hdr[o])
    requires forall q :: Read(logs, last, o, j, f, q) <==> Read(logs, last, o, k, e, q)
    ensures ChosenOf(logs, last, gen, zh, was, j, f, o)
  {
    if q :| Read(logs, last, o, j, f, q) {
      assert Read(logs, last, o, k, e, q);
    }
  }

  lemma ChosenNew(logs: seq<seq<Record>>, last: nat, gen: nat, hdr: map<nat, Hdr>, was: map<nat, Hdr>,
    k: nat, e: nat, zh: map<nat, Hdr>)
    requires k < |logs| && e < Usable(logs[k], last)
    requires ChosenOf(logs, last, gen, hdr, was, k, e, logs[k][e].o)
    requires forall o :: o in was ==> was[o].gen != gen
    requires var o := logs[k][e].o;
             zh == if o !in hdr || hdr[o].gen != gen || Wrt(logs, hdr[o].cur) < logs[k][e].wrt
                   then hdr[o := Hdr(gen, Pos(k, e))] else hdr
    ensures ChosenOf(logs, last, gen, zh, was, k, e + 1, logs[k][e].o)
  {
    var o, p, f := logs[k][e].o, Pos(k, e), e + 1;
    assert Read(logs, last, o, k, f, p);
    assert forall q :: Read(logs, last, o, k, f, q) ==> Read(logs, last, o, k, e, q) || q == p;
    if o in hdr && hdr[o].gen == gen {
      assert Read(logs, last, o, k, e, hdr[o].cur);
      assert Read(logs, last, o, k, f, hdr[o].cur);
    } else {
      assert forall q :: !Read(logs, last, o, k, e, q);
    }
  }

  /** The object has a header of this generation. */
  predicate Named(hdr: map<nat, Hdr>, gen: nat, o: nat) {
    o in hdr && hdr[o].gen == gen
  }

  class Image {
    var gen: nat                    // generation of this start, unused before
    var last: nat                   // last_ckpt_clk
    var logs: seq<seq<Record>>      // the durable checkpoint logs
    var hdr: map<nat, Hdr>          // act_nvhdr of the original objects

    constructor (gen: nat, last: nat, logs: seq<seq<Record>>, hdr: map<nat, Hdr>)
      ensures this.gen == gen && this.last == last && this.logs == logs && this.hdr == hdr
    {
      this.gen, this.last, this.logs, this.hdr := gen, last, logs, hdr;
    }

    /** reconstruct_volatile_header: the object's master is the newer of this entry and
        the one its header has named in this generation, the earlier one if they are of
        the same age; no other object's header changes. */
    method ReconstructHeader(k: nat, e: nat)
      requires k < |logs| && e < |logs[k]|
      modifies this`hdr
      ensures logs[k][e].o in hdr && hdr[logs[k][e].o].gen == gen
      ensures var p := hdr[logs[k][e].o].cur;
              && (p == Pos(k, e) || (Named(old(hdr), gen, logs[k][e].o) && p == old(hdr)[logs[k][e].o].cur))
              && Wrt(logs, p) >= logs[k][e].wrt
              && (Named(old(hdr), gen, logs[k][e].o) ==> Wrt(logs, p) >= Wrt(logs, old(hdr)[logs[k][e].o].cur))
      ensures Named(old(hdr), gen, logs[k][e].o) && Wrt(logs, old(hdr)[logs[k][e].o].cur) == logs[k][e].wrt ==> hdr == old(hdr)
      ensures hdr.Keys == old(hdr).Keys + {logs[k][e].o}
      ensures forall x :: x in old(hdr) && x != logs[k][e].o ==> hdr[x] == old(hdr)[x]
    {
      var en := logs[k][e];
      if en.o !in hdr || hdr[en.o].gen != gen {
        hdr := hdr[en.o := Hdr(gen, Pos(k, e))];
      } else if Wrt(logs, hdr[en.o].cur) < en.wrt {
        hdr := hdr[en.o := hdr[en.o].(cur := Pos(k, e))];
      }
    }

    /** ckptlog_recovery: every object with a finished checkpoint gets the newest one
        as its master, no other header changes, and the logs lose what follows the
        last finished checkpoint. */
    method CkptlogRecovery()
      requires forall o :: o in hdr ==> hdr[o].gen != gen
      modifies this`hdr, this`logs
      ensures forall o: nat ::
        if exists q :: Candidate(old(logs), last, o, q)
        then o in hdr && hdr[o].gen == gen && NewestEntry(old(logs), last, o, hdr[o].cur)
        else (o in hdr <==> o in old(hdr)) && (o in hdr ==> hdr[o] == old(hdr)[o])
      ensures logs == Truncated(old(logs), last)
    {
      hide Chosen, ChosenOf, Wrt, Named, Candidate, NewestEntry;
      ghost var was, all := hdr, logs;
      NothingRead(all, last, gen, hdr);
      var k := 0;
      while k < |logs|
        invariant 0 <= k <= |logs| == |all|
        invariant forall j :: 0 <= j < k ==> logs[j] == all[j][..Usable(all[j], last)]
        invariant forall j :: k <= j < |all| ==> logs[j] == all[j]
        invariant Chosen(all, last, gen, hdr, was, k, 0)
      {
        var e := 0;
        ghost var cut := logs;
        while e < |logs[k]| && logs[k][e].s <= last
          invariant logs == cut && 0 <= e <= Usable(all[k], last)
          invariant Chosen(all, last, gen, hdr, was, k, e)
        {
          ghost var before := hdr;
          HeadersInRead(all, logs, last, gen, hdr, was, k, e);
          assert logs[k][e] == all[k][e];
          ReconstructHeader(k, e);
          HeaderIs(logs, all, gen, before, hdr, k, e);
          ChosenStep(all, last, gen, before, was, k, e, hdr);
          e := e + 1;
        }
        assert e == Usable(all[k], last);
        ChosenNextLog(all, last, gen, hdr, was, k);
        logs := logs[k := logs[k][..e]];
        k := k + 1;
      }
      forall o: nat {
        AllRead(all, last, gen, hdr, was, o);
      }
    }
  }

  lemma NothingRead(logs: seq<seq<Record>>, last: nat, gen: nat, hdr: map<nat, Hdr>)
    requires forall o :: o in hdr ==> hdr[o].gen != gen
    ensures Chosen(logs, last, gen, hdr, hdr, 0, 0)
  {
  }

  /** The newer of two entries, spelled out. */
  lemma HeaderIs(logs: seq<seq<Record>>, all: seq<seq<Record>>, gen: nat, hdr: map<nat, Hdr>, zh: map<nat, Hdr>, k: nat, e: nat)
    requires k < |logs| && e < |logs[k]| && k < |all| && e < |all[k]| && all[k][e] == logs[k][e]
    requires forall o :: Named(hdr, gen, o) ==> Wrt(logs, hdr[o].cur) == Wrt(all, hdr[o].cur)
    requires var o := logs[k][e].o;
             && Named(zh, gen, o) && zh.Keys == hdr.Keys + {o}
             && (zh[o].cur == Pos(k, e) || (Named(hdr, gen, o) && zh[o].cur == hdr[o].cur))
             && Wrt(logs, zh[o].cur) >= logs[k][e].wrt
             && (Named(hdr, gen, o) ==> Wrt(logs, zh[o].cur) >= Wrt(logs, hdr[o].cur))
             && (Named(hdr, gen, o) && Wrt(logs, hdr[o].cur) == logs[k][e].wrt ==> zh == hdr)
    requires forall x :: x in hdr && x != logs[k][e].o ==> zh[x] == hdr[x]
    ensures var o := all[k][e].o;
            zh == if o !in hdr || hdr[o].gen != gen || Wrt(all, hdr[o].cur) < all[k][e].wrt
                  then hdr[o := Hdr(gen, Pos(k, e))] else hdr
  {
    var o := all[k][e].o;
    if o !in hdr || hdr[o].gen != gen || Wrt(all, hdr[o].cur) < all[k][e].wrt {
      assert zh == hdr[o := Hdr(gen, Pos(k, e))];
    } else {
      assert Wrt(logs, Pos(k, e)) == logs[k][e].wrt;
      assert zh[o] == hdr[o];
      assert zh == hdr;
    }
  }

  /** Headers of this generation point into the logs read so far, and truncating
      a log that has been read does not change the clocks they lead to. */
  lemma HeadersInRead(all: seq<seq<Record>>, logs: seq<seq<Record>>, last: nat, gen: nat,
    hdr: map<nat, Hdr>, was: map<nat, Hdr>, k: nat, e: nat)
    requires Chosen(all, last, gen, hdr, was, k, e) && forall o :: o in was ==> was[o].gen != gen
    requires |logs| == |all|
    requires forall j :: 0 <= j < |all| ==> logs[j] == all[j] || logs[j] == all[j][..Usable(all[j], last)]
    ensures forall o :: Named(hdr, gen, o) ==> Wrt(logs, hdr[o].cur) == Wrt(all, hdr[o].cur)
  {
    forall o | o in hdr && hdr[o].gen == gen ensures Wrt(logs, hdr[o].cur) == Wrt(all, hdr[o].cur) {
      assert ChosenOf(all, last, gen, hdr, was, k, e, o);
      assert Candidate(all, last, o, hdr[o].cur);
    }
  }

  /** The end of log k is the beginning of log k + 1. */
  lemma ChosenNextLog(logs: seq<seq<Record>>, last: nat, gen: nat, hdr: map<nat, Hdr>, was: map<nat, Hdr>, k: nat)
    requires k < |logs| && Chosen(logs, last, gen, hdr, was, k, Usable(logs[k], last))
    ensures Chosen(logs, last, gen, hdr, was, k + 1, 0)
  {
    var j, n, z := k + 1, Usable(logs[k], last), 0;
    forall o: nat ensures ChosenOf(logs, last, gen, hdr, was, j, z, o) {
      assert ChosenOf(logs, last, gen, hdr, was, k, n, o);
      ChosenSame(logs, last, gen, hdr, was, k, n, hdr, j, z, o);
    }
  }

  lemma AllRead(logs: seq<seq<Record>>, last: nat, gen: nat, hdr: map<nat, Hdr>, was: map<nat, Hdr>, o: nat)
    requires Chosen(logs, last, gen, hdr, was, |logs|, 0)
    ensures
      if exists q :: Candidate(logs, last, o, q)
      then o in hdr && hdr[o].gen == gen && NewestEntry(logs, last, o, hdr[o].cur)
      else (o in hdr <==> o in was) && (o in hdr ==> hdr[o] == was[o])
  {
    assert ChosenOf(logs, last, gen, hdr, was, |logs|, 0, o);
    assert forall q :: Candidate(logs, last, o, q) <==> Read(logs, last, o, |logs|, 0, q);
  }

  function Truncated(logs: seq<seq<Record>>, last: nat): seq<seq<Record>> {
    seq(|logs|, k requires 0 <= k < |logs| => logs[k][..Usable(logs[k], last)])
  }

  // ---------------------------------------------------------------- what the choice depends on

  lemma {:induction false} UsablePrefix(log: seq<Record>, last: nat)
    ensures Usable(log[..Usable(log, last)], last) == Usable(log, last)
  {
  }

  /** A second recovery reads exactly the same entries. */
  lemma RecoveryAgain(logs: seq<seq<Record>>, last: nat, o: nat, p: Pos)
    ensures NewestEntry(Truncated(logs, last), last, o, p) <==> NewestEntry(logs, last, o, p)
  {
    var cut := Truncated(logs, last);
    forall q ensures Candidate(cut, last, o, q) <==> Candidate(logs, last, o, q) {
      if q.k < |logs| { UsablePrefix(logs[q.k], last); }
    }
    assert forall q :: Candidate(logs, last, o, q) ==> Wrt(cut, q) == Wrt(logs, q);
  }

  /** The order of the logs does not matter: with the same logs in any order, the
      chosen entry has the same commit clock. */
  lemma OrderIrrelevant(logs: seq<seq<Record>>, other: seq<seq<Record>>, last: nat, o: nat, p: Pos, q: Pos)
    requires forall k :: 0 <= k < |logs| ==> logs[k] in other
    requires forall k :: 0 <= k < |other| ==> other[k] in logs
    requires NewestEntry(logs, last, o, p) && NewestEntry(other, last, o, q)
    ensures Wrt(logs, p) == Wrt(other, q)
  {
    var k :| 0 <= k < |other| && other[k] == logs[p.k];
    assert Candidate(other, last, o, Pos(k, p.e));
    var j :| 0 <= j < |logs| && logs[j] == other[q.k];
    assert Candidate(logs, last, o, Pos(j, q.e));
  }
}
